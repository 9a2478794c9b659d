/**
 A command, or the announcement of a transfer, from end to end of the hub: what its target is sent
 under the id that the hub makes up, and what its client is told under its own.
 */
module Commands {
  import opened Basics
  import opened Protocol
  import opened RelayModel
  import opened Orders
  import F = Forwarding
  import Q = WriteQueue
  import R = Requests

  predicate IsRequest(e: Event) {
    e.Arrive? && (e.message.Execute? || e.message.FileTransfer?) && EnvFor(e.message, e.env)
  }

  /** A command, or an announcement, that is for t. */
  predicate Accepted(h: Hub, e: Event, t: Conn) {
    IsRequest(e) && Reaches(h, e.conn, e.message, t)
  }

  /** The request as its client made it. */
  function IssuedFor(e: Event, t: Conn): Issued
    requires IsRequest(e)
  {
    var m := e.message;
    Issued(Request(m.id, e.conn), t, if m.FileTransfer? then Some(m.announce) else None, e.env.oks[0])
  }

  /** The target has been sent the order, first, and as the one thing unless it opens a transfer;
      the request is as its client made it. */
  ghost predicate WasSent(h: Hub, e: Event, t: Conn)
    requires IsRequest(e)
  {
    var m, r, out := e.message, e.env.ids[0], About(h.log, ToDaemon(e.env.ids[0]));
    && out != [] && out[0] == Sent(t, Q.Plain(OrderFor(m, r)), ToDaemon(r)) && (m.Execute? ==> |out| == 1)
    && r in h.used && r in h.requests.issued && h.requests.issued[r] == IssuedFor(e, t)
  }

  lemma AcceptedIs(h: Hub, e: Event, t: Conn)
    requires Enabled(h, e) && Accepted(h, e, t)
    ensures var r, q' := e.env.ids[0], Next(h, e).requests; r in q'.issued && q'.issued[r] == IssuedFor(e, t)
  {
    var g, m := WithIds(h, e.env), e.message;
    FoundIff(g, e.conn, m);
    hide FindTarget;
  }

  lemma SentAtOnce(h: Hub, e: Event, t: Conn)
    requires Enabled(h, e) && Accepted(h, e, t) && R.IdsAreOwn(h) && F.NotIssuedNotSent(h)
    ensures WasSent(Next(h, e), e, t)
  {
    var r, sends := e.env.ids[0], Step(h, e).sends;
    assert r in e.env.ids && r !in h.requests.issued;
    hide Next, Step, Enabled, About, R.IdsAreOwn, Reaches, Refuses, Confirms;
    AcceptedIs(h, e, t);
    ForwardedOrRefused(h, e);
    NextAbout(h, e, ToDaemon(r));
    F.UsedGrows(h, e);
    StepIsFor(h, e, t);
    assert [] + [sends[0]] == [sends[0]];
  }

  lemma StepIsFor(h: Hub, e: Event, t: Conn)
    requires Enabled(h, e) && Accepted(h, e, t)
    ensures var r, sends := e.env.ids[0], Step(h, e).sends; sends != [] && About(sends, ToDaemon(r)) == [sends[0]]
  {
    var r, sends := e.env.ids[0], Step(h, e).sends;
    ForwardedOrRefused(h, e);
    RefusalIsNot(h, e, t);
    hide Step, Enabled, About, Reaches;
    AboutSingle(sends, 0, ToDaemon(r));
  }

  /** The error for a failed forward is not sent to the target on the request's behalf. */
  lemma RefusalIsNot(h: Hub, e: Event, t: Conn)
    requires Enabled(h, e) && Accepted(h, e, t)
    ensures forall i :: 0 < i < |Step(h, e).sends| ==> !Step(h, e).sends[i].why.ToDaemon?
  {
    var g := WithIds(h, e.env);
    FoundIff(g, e.conn, e.message);
    hide FindTarget, Issue, SetRoute;
  }

  lemma StaysSent(h: Hub, e: Event, sent: Event, t: Conn)
    requires Enabled(h, e) && R.IdsAreOwn(h) && IsRequest(sent) && WasSent(h, sent, t)
    ensures WasSent(Next(h, e), sent, t)
    ensures e.Arrive? ==> sent.env.ids[0] !in e.env.ids
  {
    var r, out := sent.env.ids[0], About(h.log, ToDaemon(sent.env.ids[0]));
    F.UsedGrows(h, e);
    NextAbout(h, e, ToDaemon(r));
    assert e.Arrive? ==> forall id :: id in e.env.ids ==> id !in h.used;
    assert r in [r] && !F.IssuesRequest(e, r);
    F.StepIssued(h, e, r);
    if sent.message.Execute? {
      NoRouteForCommands(h, e, r);
      F.OtherSends(h, e, r);
      assert out + [] == out;
    }
    hide Next, Step, Enabled, About, R.IdsAreOwn;
  }

  lemma NoRouteForCommands(h: Hub, e: Event, r: Id)
    requires R.IdsAreOwn(h) && r in h.requests.issued && h.requests.issued[r].announce.None?
    ensures !(F.RouteFor(h, e).Some? && F.RouteFor(h, e).value.req == r)
  {
  }

  lemma {:induction false} SentSince(hubs: seq<Hub>, events: seq<Event>, i: nat, k: nat, t: Conn)
    requires IsRun(hubs, events) && i < k < |hubs| && i < |events| && Accepted(hubs[i], events[i], t)
    ensures WasSent(hubs[k], events[i], t)
  {
    hide IsRun, Enabled, Next, WasSent, Reaches, R.IdsAreOwn, F.NotIssuedNotSent;
    RunSteps(hubs, events, k);
    R.IdsAlwaysOwn(hubs, events, k - 1);
    if k == i + 1 {
      F.NotSentAlways(hubs, events, i);
      SentAtOnce(hubs[i], events[i], t);
    } else {
      SentSince(hubs, events, i, k - 1, t);
      StaysSent(hubs[k - 1], events[k - 1], events[i], t);
    }
  }

  lemma {:induction false} UsedSince(hubs: seq<Hub>, events: seq<Event>, i: nat, k: nat, id: Id)
    requires IsRun(hubs, events) && i < k < |hubs| && i < |events| && events[i].Arrive? && id in events[i].env.ids
    ensures id in hubs[k].used
  {
    hide IsRun, Enabled, Next;
    RunSteps(hubs, events, k);
    if k > i + 1 { UsedSince(hubs, events, i, k - 1, id); }
    F.UsedGrows(hubs[k - 1], events[k - 1]);
  }

  /** No id is handed out twice. */
  lemma HandedOutOnce(hubs: seq<Hub>, events: seq<Event>, i: nat, j: nat, id: Id)
    requires IsRun(hubs, events) && i < j < |events| && events[i].Arrive? && events[j].Arrive? && id in events[i].env.ids
    ensures id !in events[j].env.ids
  {
    RunStarts(hubs, events);
    UsedSince(hubs, events, i, j, id);
    RunSteps(hubs, events, j + 1);
    hide IsRun, Next;
  }

  /**
   In every run: when a command from a client reaches its target, that is sent just this command,
   once and under an id that stands for no other message's request, and the client is told what
   comes in under that id, as it came, under its own: the output in order, then the outcome. If the
   command cannot be forwarded the client is told one failure. For a transfer the announcement is
   what the target is sent first.
   */
  lemma CommandGoesOutAndBack(hubs: seq<Hub>, events: seq<Event>, i: nat, k: nat, t: Conn)
    requires IsRun(hubs, events) && i < k < |hubs| && i < |events| && Accepted(hubs[i], events[i], t)
    requires R.EchoOnly(hubs, events, k, events[i].env.ids[0])
    ensures var m, c, r := events[i].message, events[i].conn, events[i].env.ids[0];
      var sent, told := About(hubs[k].log, ToDaemon(r)), About(hubs[k].log, ToClient(r));
      var up := R.UpToEnd(R.Heard(events, k, r));
      && (m.Execute? ==> sent == [Sent(t, Q.Plain(Command(r, m.job)), ToDaemon(r))])
      && (m.FileTransfer? ==> sent != [] && sent[0] == Sent(t, Q.Plain(FileInit(r, m.announce)), ToDaemon(r)))
      && (forall j :: 0 <= j < |events| && j != i && events[j].Arrive? ==> r !in events[j].env.ids)
      && (if events[i].env.oks[0] then |told| <= |up| && forall j :: 0 <= j < |told| ==> R.Tells(told[j], Request(m.id, c), up[j])
          else |told| == 1 && Refuses(told[0], c, m))
  {
    var r := events[i].env.ids[0];
    SentSince(hubs, events, i, k, t);
    R.RequestConserved(hubs, events, k, r);
    R.TracksAlways(hubs, events, k, r);
    assert r in events[i].env.ids;
    forall j | 0 <= j < |events| && j != i && events[j].Arrive? ensures r !in events[j].env.ids {
      if j > i { HandedOutOnce(hubs, events, i, j, r); } else if r in events[j].env.ids { HandedOutOnce(hubs, events, j, i, r); }
    }
    hide IsRun, R.EchoOnly, R.Heard, R.UpToEnd, R.Tells, About, R.Told;
    assert hubs[k].requests.issued[r] == IssuedFor(events[i], t);
  }
}
