/**
 What the hub passes on for a tunnel while it is open, and one close. To each end that is
 exactly what the other end said, in order, if and only if nobody else speaks under the
 tunnel's id: the hub takes whoever is not the client for the daemon.
 */
module Tunnels {
  import opened Basics
  import opened Protocol
  import opened RelayModel
  import S = Scenes

  /** Something said under a tunnel's id, or the end of it: a close message, or the end of the
      connection of one of its ends. */
  datatype Word = Data(from: Conn, text: string) | End(from: Conn)

  /** What e says about the tunnel t, once that was opened. */
  function Says(h: Hub, e: Event, t: Id): Option<Word> {
    if t !in h.tunnels.sessions then None
    else if e.Arrive? && e.message.TunnelData? && e.message.tunnelId == t then Some(Data(e.conn, e.message.text))
    else if e.Arrive? && e.message.TunnelClose? && e.message.tunnelId == t then Some(End(e.conn))
    else if e.Down? && Ends(h.tunnels.sessions[t], e.conn) && e.conn in h.dir.peers && h.dir.peers[e.conn].registered then Some(End(e.conn))
    else None
  }

  predicate Ends(s: Tunnel, c: Conn) { s.client == c || s.daemon == c }

  function Words(hubs: seq<Hub>, events: seq<Event>, k: nat, t: Id): seq<Word>
    requires k <= |events| <= |hubs|
  {
    if k == 0 then []
    else
      var word := Says(hubs[k - 1], events[k - 1], t);
      Words(hubs, events, k - 1, t) + if word.Some? then [word.value] else []
  }

  predicate Ended(words: seq<Word>) { words != [] && words[|words| - 1].End? }

  /** The words up to the first end. */
  function UpToEnd(words: seq<Word>): (up: seq<Word>)
    ensures up <= words
    ensures forall i :: 0 <= i < |up| - 1 ==> up[i].Data?
    ensures up == words || Ended(up)
  {
    if words == [] then []
    else
      var before := UpToEnd(words[..|words| - 1]);
      if Ended(before) then before else words
  }

  lemma UpToEndAppend(words: seq<Word>, w: Word)
    ensures UpToEnd(words + [w]) == if Ended(UpToEnd(words)) then UpToEnd(words) else UpToEnd(words) + [w]
  {
    assert (words + [w])[..|words|] == words;
  }

  function Passed(t: Id, s: Tunnel, w: Word): Sent {
    Tell(OtherEnd(s, w.from), if w.Data? then TunnelMsg(t, w.text) else Msg.TunnelClose(t), ForTunnel(t))
  }

  function PassedAll(t: Id, s: Tunnel, words: seq<Word>): seq<Sent> {
    seq(|words|, i requires 0 <= i < |words| => Passed(t, s, words[i]))
  }

  predicate OpensTunnel(h: Hub, e: Event, t: Id) {
    && e.Arrive? && e.message.TunnelOpen? && e.message.tunnelId == t != "" && e.message.remoteAddr != "" && EnvFor(e.message, e.env)
    && FindTarget(h.dir, e.message.target, e.message.token).Target? && e.conn in h.dir.peers && !Barred(h, e.conn, e.message)
  }

  /** Clients make up tunnel ids; this one is used once. */
  ghost predicate OpenedOnce(hubs: seq<Hub>, events: seq<Event>, k: nat, t: Id)
    requires k <= |events| <= |hubs|
  {
    forall i, j :: 0 <= i < j < k ==> !(OpensTunnel(hubs[i], events[i], t) && OpensTunnel(hubs[j], events[j], t))
  }

  ghost predicate OpenedBy(hubs: seq<Hub>, events: seq<Event>, k: nat, t: Id)
    requires k <= |events| <= |hubs|
  {
    exists i :: 0 <= i < k && OpensTunnel(hubs[i], events[i], t)
  }

  predicate IsOpening(s: Sent, t: Id) {
    s.unit.Plain? && s.unit.text.TunnelOpen? && s.unit.text.tunnelId == t
  }

  ghost predicate Carries(table: TunnelTable, out: seq<Sent>, t: Id, begun: bool, words: seq<Word>) {
    if t !in table.sessions then
      t !in table.live && words == [] && (if begun then |out| == 1 && IsOpening(out[0], t) else out == [])
    else
      var s, up := table.sessions[t], UpToEnd(words);
      && begun
      && (t in table.live ==> table.live[t] == s)
      && (t in table.live <==> !Ended(up))
      && out != [] && IsOpening(out[0], t) && out[0].to == s.daemon
      && out[1..] == PassedAll(t, s, up)
  }

  ghost predicate SameTunnel(a: TunnelTable, b: TunnelTable, t: Id) {
    && (t in a.live <==> t in b.live) && (t in a.live ==> a.live[t] == b.live[t])
    && (t in a.sessions <==> t in b.sessions) && (t in a.sessions ==> a.sessions[t] == b.sessions[t])
  }

  // ---- One step ----

  lemma OpenEffect(table: TunnelTable, c: Conn, m: Incoming, found: Found, ok: bool, t: Id)
    requires m.TunnelOpen? && t !in table.live
    ensures var o := HandleTunnelOpen(table, c, m.tunnelId, m.target, found, m.remoteAddr, ok); var out := About(o.sends, ForTunnel(t));
      if found.Target? && m.tunnelId == t != "" && m.remoteAddr != "" && m.target != "" then
        && |out| == 1 && IsOpening(out[0], t) && out[0].to == found.conn
        && (if ok then
              && t in o.state.live && o.state.live[t] == Tunnel(c, found.conn)
              && t in o.state.sessions && o.state.sessions[t] == Tunnel(c, found.conn)
            else SameTunnel(table, o.state, t))
      else SameTunnel(table, o.state, t) && out == []
  {
    hide About;
    var o := HandleTunnelOpen(table, c, m.tunnelId, m.target, found, m.remoteAddr, ok);
    AboutOne(o.sends[0], ForTunnel(t));
    if found.Target? && m.tunnelId != "" && m.remoteAddr != "" && m.target != "" && !ok {
      AboutTwo(o.sends[0], o.sends[1], ForTunnel(t));
    } else {
      assert o.sends == [o.sends[0]];
    }
  }

  /** What closes a tunnel, or passes on, is said by the step. */
  lemma WordEffect(h: Hub, c: Conn, m: Incoming, env: Env, t: Id)
    requires EnvFor(m, env) && (m.TunnelData? || m.TunnelClose?)
    ensures var o := HandleTunnels(h, c, m, env); var out := About(o.sends, ForTunnel(t));
      if m.tunnelId == t && t in h.tunnels.live then
        && out == [Passed(t, h.tunnels.live[t], if m.TunnelData? then Data(c, m.text) else End(c))]
        && o.state == h.tunnels.(live := if m.TunnelData? then h.tunnels.live else h.tunnels.live - {t})
      else SameTunnel(h.tunnels, o.state, t) && out == []
  {
    var o := HandleTunnels(h, c, m, env);
    if o.sends != [] {
      AboutOne(o.sends[0], ForTunnel(t));
      assert o.sends == [o.sends[0]];
    }
    hide About;
  }

  lemma {:induction false} CloseAbout(table: TunnelTable, c: Conn, order: seq<Id>, t: Id)
    requires Distinct(order) && forall id :: id in order ==> id in table.live
    ensures About(CloseSends(table, c, order), ForTunnel(t)) == if t in order then [Passed(t, table.live[t], End(c))] else []
    decreases |order|
  {
    if order != [] {
      var n := |order| - 1;
      var sends, first := CloseSends(table, c, order), CloseSends(table, c, order[..n]);
      assert sends == first + [sends[n]];
      assert order == order[..n] + [order[n]];
      CloseAbout(table, c, order[..n], t);
      AboutConcat(first, [sends[n]], ForTunnel(t));
      AboutOne(sends[n], ForTunnel(t));
    }
  }

  lemma DownEffect(h: Hub, c: Conn, order: seq<Id>, t: Id)
    requires c in h.dir.peers && (h.dir.peers[c].registered ==> WalksTunnels(h.tunnels, c, order))
    ensures var o := HandleDown(h, c, order); var out := About(o.sends, ForTunnel(t));
      if h.dir.peers[c].registered && t in h.tunnels.live && Ends(h.tunnels.live[t], c) then
        && out == [Passed(t, h.tunnels.live[t], End(c))]
        && o.state.tunnels.sessions == h.tunnels.sessions && t !in o.state.tunnels.live
      else SameTunnel(h.tunnels, o.state.tunnels, t) && out == []
  {
    if h.dir.peers[c].registered { CloseAbout(h.tunnels, c, order, t); }
    hide About, CloseSends;
  }

  lemma PassedAppend(t: Id, s: Tunnel, words: seq<Word>, w: Word)
    ensures PassedAll(t, s, words + [w]) == PassedAll(t, s, words) + [Passed(t, s, w)]
  {
  }

  /** What one step does to the tunnel t. */
  ghost predicate StepIs(h: Hub, e: Event, table: TunnelTable, out: seq<Sent>, t: Id) {
    var word := Says(h, e, t);
    if OpensTunnel(h, e, t) then
      && |out| == 1 && IsOpening(out[0], t)
      && (SameTunnel(h.tunnels, table, t)
          || (t in table.live && t in table.sessions && table.live[t] == table.sessions[t] && out[0].to == table.live[t].daemon))
    else if word.Some? && t in h.tunnels.live then
      && out == [Passed(t, h.tunnels.live[t], word.value)]
      && table.sessions == h.tunnels.sessions
      && (t in table.live <==> word.value.Data?) && (t in table.live ==> table.live[t] == h.tunnels.live[t])
    else SameTunnel(h.tunnels, table, t) && out == []
  }

  lemma MessageIs(h: Hub, c: Conn, m: Incoming, env: Env, t: Id)
    requires c in h.dir.peers && EnvFor(m, env) && OfTunnels(m) && !Barred(h, c, m)
    requires t in h.tunnels.live ==> t in h.tunnels.sessions && h.tunnels.live[t] == h.tunnels.sessions[t]
    requires OpensTunnel(h, Arrive(c, m, env), t) ==> t !in h.tunnels.sessions
    ensures var o := HandleTunnels(h, c, m, env); StepIs(h, Arrive(c, m, env), o.state, About(o.sends, ForTunnel(t)), t)
  {
    hide About;
    if m.TunnelOpen? {
      if t !in h.tunnels.live {
        OpenEffect(h.tunnels, c, m, FindTarget(h.dir, m.target, m.token), env.oks[0], t);
        assert m.target == "" ==> !FindTarget(h.dir, m.target, m.token).Target?;
      } else {
        OtherOpen(h, c, m, env, t);
      }
    } else {
      WordEffect(h, c, m, env, t);
    }
  }

  lemma OtherOpen(h: Hub, c: Conn, m: Incoming, env: Env, t: Id)
    requires EnvFor(m, env) && m.TunnelOpen?
    requires m.tunnelId != t || !FindTarget(h.dir, m.target, m.token).Target? || t == "" || m.remoteAddr == ""
    ensures var o := HandleTunnels(h, c, m, env); SameTunnel(h.tunnels, o.state, t) && About(o.sends, ForTunnel(t)) == []
  {
    var o := HandleTunnels(h, c, m, env);
    hide About, FindTarget;
    AboutNone(o.sends, ForTunnel(t));
  }

  lemma EventIs(h: Hub, e: Event, t: Id)
    requires Enabled(h, e) && (t in h.tunnels.live ==> t in h.tunnels.sessions && h.tunnels.live[t] == h.tunnels.sessions[t])
    requires OpensTunnel(h, e, t) ==> t !in h.tunnels.sessions
    ensures StepIs(h, e, Next(h, e).tunnels, About(Step(h, e).sends, ForTunnel(t)), t)
  {
    hide HandleTunnels, About, FindTarget, StepIs;
    if e.Arrive? {
      var g := WithIds(h, e.env);
      if OfTunnels(e.message) && !Barred(g, e.conn, e.message) {
        MessageIs(g, e.conn, e.message, e.env, t);
        SameStep(h, e, t);
      } else {
        OtherMessage(g, e.conn, e.message, e.env, t);
        NothingStep(h, e, t);
      }
    } else {
      RestIs(h, e, t);
    }
  }

  /** Handing out ids makes no difference to what a step is. */
  lemma SameStep(h: Hub, e: Event, t: Id)
    requires Enabled(h, e) && e.Arrive? && OfTunnels(e.message) && !Barred(h, e.conn, e.message)
    ensures var g := WithIds(h, e.env); var o := HandleTunnels(g, e.conn, e.message, e.env);
      && Next(h, e).tunnels == o.state && Step(h, e).sends == o.sends
      && forall table, out :: StepIs(g, e, table, out, t) ==> StepIs(h, e, table, out, t)
  {
    hide HandleTunnels, FindTarget;
  }

  lemma NothingStep(h: Hub, e: Event, t: Id)
    requires Enabled(h, e) && e.Arrive? && (!OfTunnels(e.message) || Barred(h, e.conn, e.message))
    requires Handle(WithIds(h, e.env), e.conn, e.message, e.env).state.tunnels == h.tunnels
    requires About(Handle(WithIds(h, e.env), e.conn, e.message, e.env).sends, ForTunnel(t)) == []
    ensures StepIs(h, e, Next(h, e).tunnels, About(Step(h, e).sends, ForTunnel(t)), t)
  {
    hide Handle, About, FindTarget;
  }

  lemma RestIs(h: Hub, e: Event, t: Id)
    requires Enabled(h, e) && !e.Arrive? && (t in h.tunnels.live ==> t in h.tunnels.sessions && h.tunnels.live[t] == h.tunnels.sessions[t])
    ensures StepIs(h, e, Next(h, e).tunnels, About(Step(h, e).sends, ForTunnel(t)), t)
  {
    if e.Down? {
      DownEffect(h, e.conn, e.order, t);
      hide HandleDown, About, WalksTunnels;
    } else {
      StepTags(h, e);
      hide About, Filled, HandleArm, HandleFire;
      AboutNone(Step(h, e).sends, ForTunnel(t));
    }
  }

  lemma OtherMessage(h: Hub, c: Conn, m: Incoming, env: Env, t: Id)
    requires c in h.dir.peers && EnvFor(m, env) && (Barred(h, c, m) || !OfTunnels(m))
    ensures Handle(h, c, m, env).state.tunnels == h.tunnels && About(Handle(h, c, m, env).sends, ForTunnel(t)) == []
  {
    HandleTags(h, c, m, env);
    hide HandleRequests, HandleBatches, HandlePairing, HandleRegister, HandleDisconnect, OfPairing,
         OfBatches, OfRequests, OfTunnels, About;
    AboutNone(Handle(h, c, m, env).sends, ForTunnel(t));
  }

  lemma CarriesStep(h: Hub, e: Event, table: TunnelTable, before: seq<Sent>, out: seq<Sent>, t: Id, begun: bool, words: seq<Word>)
    requires Carries(h.tunnels, before, t, begun, words) && StepIs(h, e, table, out, t) && (OpensTunnel(h, e, t) ==> !begun)
    ensures var word := Says(h, e, t);
      Carries(table, before + out, t, begun || OpensTunnel(h, e, t), words + if word.Some? then [word.value] else [])
  {
    var word := Says(h, e, t);
    hide OpensTunnel, UpToEnd, PassedAll;
    assert before + [] == before && words + [] == words;
    if word.Some? && t in h.tunnels.sessions {
      UpToEndAppend(words, word.value);
      PassedAppend(t, h.tunnels.sessions[t], UpToEnd(words), word.value);
      if t in h.tunnels.live { assert (before + out)[1..] == before[1..] + out; }
    } else if OpensTunnel(h, e, t) {
      NothingSaid(t);
      assert before + out == out;
    }
  }

  lemma NothingSaid(t: Id)
    ensures UpToEnd([]) == [] && forall s :: PassedAll(t, s, []) == []
  {
  }

  lemma {:induction false} CarriesAlways(hubs: seq<Hub>, events: seq<Event>, k: nat, t: Id)
    requires IsRun(hubs, events) && k < |hubs| && OpenedOnce(hubs, events, k, t)
    ensures Carries(hubs[k].tunnels, About(hubs[k].log, ForTunnel(t)), t, OpenedBy(hubs, events, k, t), Words(hubs, events, k, t))
  {
    hide IsRun, Enabled, Next, OpensTunnel, Says;
    if k == 0 {
      RunStarts(hubs, events);
    } else {
      RunSteps(hubs, events, k);
      CarriesAlways(hubs, events, k - 1, t);
      var h, e := hubs[k - 1], events[k - 1];
      var begun := OpenedBy(hubs, events, k - 1, t);
      assert OpenedBy(hubs, events, k, t) <==> begun || OpensTunnel(h, e, t);
      assert OpensTunnel(h, e, t) ==> !begun;
      EventIs(h, e, t);
      NextAbout(h, e, ForTunnel(t));
      hide Carries, About, Step, StepIs;
      CarriesStep(h, e, hubs[k].tunnels, About(h.log, ForTunnel(t)), About(Step(h, e).sends, ForTunnel(t)), t, begun, Words(hubs, events, k - 1, t));
    }
  }

  // ---- What each end gets ----

  /** The texts passed on to connection c. */
  function Delivered(out: seq<Sent>, c: Conn): seq<string> {
    if out == [] then []
    else
      var s := out[|out| - 1];
      Delivered(out[..|out| - 1], c) + if s.to == c && s.unit.Plain? && s.unit.text.TunnelMsg? then [s.unit.text.text] else []
  }

  /** The texts that c said. */
  function SaidBy(words: seq<Word>, c: Conn): seq<string> {
    if words == [] then []
    else
      var w := words[|words| - 1];
      SaidBy(words[..|words| - 1], c) + if w.Data? && w.from == c then [w.text] else []
  }

  /** The texts that anyone but c said. */
  function SaidByOthers(words: seq<Word>, c: Conn): seq<string> {
    if words == [] then []
    else
      var w := words[|words| - 1];
      SaidByOthers(words[..|words| - 1], c) + if w.Data? && w.from != c then [w.text] else []
  }

  lemma {:induction false} PassedIsDelivered(t: Id, s: Tunnel, words: seq<Word>, opening: Sent)
    requires s.client != s.daemon && IsOpening(opening, t)
    ensures Delivered([opening] + PassedAll(t, s, words), s.daemon) == SaidBy(words, s.client)
    ensures Delivered([opening] + PassedAll(t, s, words), s.client) == SaidByOthers(words, s.client)
    decreases |words|
  {
    if words == [] {
      assert [opening][..0] == [];
    } else {
      var n := |words| - 1;
      PassedIsDelivered(t, s, words[..n], opening);
      PassedAppend(t, s, words[..n], words[n]);
      assert words == words[..n] + [words[n]];
      var out := [opening] + PassedAll(t, s, words[..n]);
      assert [opening] + PassedAll(t, s, words) == out + [Passed(t, s, words[n])];
      assert (out + [Passed(t, s, words[n])])[..|out|] == out;
    }
  }

  /** A third connection put data into what goes to the client, if and only if the client gets
      more than the daemon said. */
  lemma {:induction false} OthersAreTheDaemonIff(words: seq<Word>, s: Tunnel)
    requires s.client != s.daemon
    ensures |SaidByOthers(words, s.client)| >= |SaidBy(words, s.daemon)|
    ensures SaidByOthers(words, s.client) == SaidBy(words, s.daemon) <==> forall w :: w in words && w.Data? ==> Ends(s, w.from)
  {
    if words != [] {
      var n := |words| - 1;
      var w, others, daemons := words[n], SaidByOthers(words[..n], s.client), SaidBy(words[..n], s.daemon);
      OthersAreTheDaemonIff(words[..n], s);
      assert others + [] == others && daemons + [] == daemons;
      assert words == words[..n] + [w];
      assert (forall v :: v in words && v.Data? ==> Ends(s, v.from))
        <==> (forall v :: v in words[..n] && v.Data? ==> Ends(s, v.from)) && (w.Data? ==> Ends(s, w.from));
      if w.Data? {
        SameTail(others, daemons, w.text);
        assert w.from != s.client ==> SaidByOthers(words, s.client) == others + [w.text];
        assert w.from == s.client ==> SaidByOthers(words, s.client) == others;
        assert SaidBy(words, s.daemon) == daemons + (if w.from == s.daemon then [w.text] else []);
      }
    }
  }

  lemma SameTail(a: seq<string>, b: seq<string>, text: string)
    ensures a + [text] == b + [text] <==> a == b
  {
    if a + [text] == b + [text] { assert a == (a + [text])[..|a|] && b == (b + [text])[..|b|]; }
  }

  /** Each of the words up to the end was said by one of the two ends. */
  ghost predicate OnlyTheEndsSpeak(words: seq<Word>, s: Tunnel) {
    forall w :: w in words ==> Ends(s, w.from)
  }

  lemma OnlyTheEndsSpeakIff(words: seq<Word>, s: Tunnel)
    requires s.client != s.daemon && forall i :: 0 <= i < |words| - 1 ==> words[i].Data?
    ensures OnlyTheEndsSpeak(words, s) <==>
              SaidByOthers(words, s.client) == SaidBy(words, s.daemon) && (Ended(words) ==> Ends(s, words[|words| - 1].from))
  {
    OthersAreTheDaemonIff(words, s);
    hide SaidByOthers, SaidBy;
    forall w | w in words && w.End? ensures Ended(words) && w == words[|words| - 1] {
      var i :| 0 <= i < |words| && words[i] == w;
    }
  }

  /**
   In every run, for a tunnel id that is used once: what the hub has passed on is exactly what
   was said under it while the tunnel was open, in order. The tunnel is open until the first
   close message or end of a registered end. That is the last thing passed on: a close, once.
   The daemon gets exactly what the client said. The client gets exactly what the daemon said,
   and a close comes from one of the two, if and only if no third connection has spoken under
   the tunnel's id while it was open.
   */
  lemma TunnelCarries(hubs: seq<Hub>, events: seq<Event>, k: nat, t: Id)
    requires IsRun(hubs, events) && k < |hubs| && OpenedOnce(hubs, events, k, t) && t in hubs[k].tunnels.sessions
    ensures var s, out, up := hubs[k].tunnels.sessions[t], About(hubs[k].log, ForTunnel(t)), UpToEnd(Words(hubs, events, k, t));
      && CarriedOut(hubs[k].tunnels, out, t, up)
      && (s.client != s.daemon ==>
            && Delivered(out, s.daemon) == SaidBy(up, s.client)
            && (OnlyTheEndsSpeak(up, s) <==>
                  Delivered(out, s.client) == SaidBy(up, s.daemon) && (Ended(up) ==> Ends(s, up[|up| - 1].from))))
  {
    hide IsRun, Words, About, OpenedOnce, OpenedBy, UpToEnd, Carries, Delivered, SaidBy, Passed, Ended,
         OnlyTheEndsSpeak, CarriedOut;
    RunStarts(hubs, events);
    CarriesAlways(hubs, events, k, t);
    CarriesMeans(hubs[k].tunnels, About(hubs[k].log, ForTunnel(t)), t, OpenedBy(hubs, events, k, t), Words(hubs, events, k, t));
  }

  /** What was sent for the tunnel: its opening, and each of the words, a close at most as the last. */
  ghost predicate CarriedOut(table: TunnelTable, out: seq<Sent>, t: Id, up: seq<Word>)
    requires t in table.sessions
  {
    && (t in table.live <==> !Ended(up))
    && |out| == |up| + 1 && IsOpening(out[0], t)
    && (forall i :: 0 <= i < |up| ==> out[i + 1] == Passed(t, table.sessions[t], up[i]))
    && (forall i :: 0 <= i < |up| - 1 ==> up[i].Data?)
  }

  lemma CarriesMeans(table: TunnelTable, out: seq<Sent>, t: Id, begun: bool, words: seq<Word>)
    requires Carries(table, out, t, begun, words) && t in table.sessions
    ensures var s, up := table.sessions[t], UpToEnd(words);
      && CarriedOut(table, out, t, up)
      && (s.client != s.daemon ==>
            && Delivered(out, s.daemon) == SaidBy(up, s.client)
            && (OnlyTheEndsSpeak(up, s) <==>
                  Delivered(out, s.client) == SaidBy(up, s.daemon) && (Ended(up) ==> Ends(s, up[|up| - 1].from))))
  {
    hide UpToEnd, Delivered, SaidBy, SaidByOthers, OnlyTheEndsSpeak, Carries, CarriedOut, PassedAll, Ended;
    var s, up := table.sessions[t], UpToEnd(words);
    CarriedIs(table, out, t, begun, words);
    if s.client != s.daemon {
      PassedIsDelivered(t, s, up, out[0]);
      OnlyTheEndsSpeakIff(up, s);
      assert out == [out[0]] + PassedAll(t, s, up);
    }
  }

  lemma CarriedIs(table: TunnelTable, out: seq<Sent>, t: Id, begun: bool, words: seq<Word>)
    requires Carries(table, out, t, begun, words) && t in table.sessions
    ensures var s, up := table.sessions[t], UpToEnd(words);
      && CarriedOut(table, out, t, up)
      && out != [] && IsOpening(out[0], t) && out[1..] == PassedAll(t, s, up)
      && forall i :: 0 <= i < |up| - 1 ==> up[i].Data?
  {
    hide UpToEnd, Passed, IsOpening;
    var s, up := table.sessions[t], UpToEnd(words);
    var passed := PassedAll(t, s, up);
    assert out[1..] == passed && |passed| == |up|;
    forall i | 0 <= i < |up| ensures out[i + 1] == Passed(t, s, up[i]) { assert out[i + 1] == passed[i]; }
  }

  // ---- A third connection ----

  function StrangeEvents(): seq<Event> {
    [Connect(1, true), Arrive(1, Register("a", "k"), S.Ids("x")), Connect(2, true),
     Arrive(2, Incoming.TunnelOpen("t", "a", "k", "addr"), S.Ids("y")), Connect(3, false), Arrive(3, TunnelData("t", "w"), S.Ids("z"))]
  }

  /** Connection 2 opens a tunnel to 1, and 3, which has no secret, speaks under its id. */
  lemma StrangeRun() returns (s: S.Scene)
    ensures S.Ok(s) && s.events == StrangeEvents() && |s.hubs| == 7
    ensures forall i :: 0 <= i < 7 ==> s.hubs[i].tunnels.sessions == if i < 4 then map[] else map["t" := Tunnel(2, 1)]
    ensures s.hubs[6].log
         == [Tell(1, Registered("a"), Direct), Tell(1, Msg.TunnelOpen("t", "addr"), ForTunnel("t")), Tell(2, TunnelMsg("t", "w"), ForTunnel("t"))]
  {
    hide S.Ok;
    s := S.Start();
    assert S.Now(s).tunnels == TunnelTable(map[], map[]);
    s := S.Connects(s, 1, true);
    s := S.Registers(s, 1, "a", "k", "x");
    s := S.Connects(s, 2, true);
    s := S.Tunneled(s, 2, Incoming.TunnelOpen("t", "a", "k", "addr"), S.Ids("y"));
    assert S.Now(s).tunnels == TunnelTable(map["t" := Tunnel(2, 1)], map["t" := Tunnel(2, 1)]);
    s := S.Connects(s, 3, false);
    s := S.Tunneled(s, 3, TunnelData("t", "w"), S.Ids("z"));
  }

  lemma StrangeWords(hubs: seq<Hub>)
    requires |hubs| == 7
    requires forall i :: 0 <= i < 7 ==> hubs[i].tunnels.sessions == if i < 4 then map[] else map["t" := Tunnel(2, 1)]
    ensures OpenedOnce(hubs, StrangeEvents(), 6, "t") && UpToEnd(Words(hubs, StrangeEvents(), 6, "t")) == [Data(3, "w")]
  {
    var e := StrangeEvents();
    hide OpensTunnel;
    assert forall i :: 0 <= i < 6 && i != 3 ==> !OpensTunnel(hubs[i], e[i], "t") by { OnlyTheFourthOpens(hubs); }
    assert forall i :: 0 <= i < 5 ==> Says(hubs[i], e[i], "t") == None;
    NothingYet(hubs, e, 5);
    assert Words(hubs, e, 6, "t") == [Data(3, "w")];
    assert [Data(3, "w")][..0] == [];
  }

  lemma {:induction false} NothingYet(hubs: seq<Hub>, events: seq<Event>, k: nat)
    requires k <= |events| <= |hubs| && forall i :: 0 <= i < k ==> Says(hubs[i], events[i], "t") == None
    ensures Words(hubs, events, k, "t") == []
  {
    if k > 0 { NothingYet(hubs, events, k - 1); }
  }

  lemma OnlyTheFourthOpens(hubs: seq<Hub>)
    requires |hubs| == 7
    ensures forall i :: 0 <= i < 6 && i != 3 ==> !OpensTunnel(hubs[i], StrangeEvents()[i], "t")
  {
  }

  /**
   A run in which a connection that is neither end, and has no secret, speaks under the id of a
   tunnel: the tunnel's client is given what the daemon never said.
   */
  lemma ThirdConnectionIsHeard() returns (hubs: seq<Hub>, events: seq<Event>)
    ensures IsRun(hubs, events) && |events| == 6 && |hubs| == 7 && OpenedOnce(hubs, events, 6, "t")
    ensures var h, out, up := hubs[6], About(hubs[6].log, ForTunnel("t")), UpToEnd(Words(hubs, events, 6, "t"));
      && "t" in h.tunnels.sessions && h.tunnels.sessions["t"] == Tunnel(2, 1)
      && Delivered(out, 2) == ["w"] && SaidBy(up, 1) == [] && !OnlyTheEndsSpeak(up, Tunnel(2, 1))
  {
    hide IsRun, OpenedOnce, Words, UpToEnd, About, StrangeEvents, Delivered;
    var s := StrangeRun();
    hubs, events := s.hubs, s.events;
    StrangeWords(hubs);
    var up := UpToEnd(Words(hubs, events, 6, "t"));
    assert SaidBy(up, 1) == [] && up[0] in up;
    var log := hubs[6].log;
    assert log == [log[0]] + [log[1], log[2]];
    AboutConcat([log[0]], [log[1], log[2]], ForTunnel("t"));
    AboutOne(log[0], ForTunnel("t"));
    AboutTwo(log[1], log[2], ForTunnel("t"));
    DeliveredTwo(log[1], log[2], 2);
  }

  lemma DeliveredTwo(a: Sent, b: Sent, c: Conn)
    requires a.to != c && b.to == c && b.unit.Plain? && b.unit.text.TunnelMsg?
    ensures Delivered([] + ([a] + [b]), c) == [b.unit.text.text]
  {
    assert [] + ([a] + [b]) == [a, b] && [a, b][..1] == [a] && [a][..0] == [];
    assert Delivered([a], c) == [];
  }
}
