/** What becomes of the answers to a batch's commands, in every run and however late they come. */
module LateResults {
  import opened Basics
  import opened Protocol
  import opened RelayModel
  import R = Requests
  import F = FanOut

  /** An execute_multi under whose batch m the id s was handed out for one of its targets. */
  predicate HandsOut(e: Event, s: Id, m: Id) {
    e.Arrive? && e.message.ExecuteMulti? && |e.env.ids| > 0 && e.env.ids[0] == m && s in e.env.ids[1..]
  }

  /** The id s is handed out; it is no request's, and no other batch's than m's. */
  ghost predicate SubOf(h: Hub, s: Id, m: Id) {
    s in h.used && s !in h.requests.issued && (s in h.batches.subs ==> h.batches.subs[s].multi == m)
  }

  lemma ArriveSubs(h: Hub, c: Conn, m: Incoming, env: Env)
    requires c in h.dir.peers && EnvFor(m, env) && R.TableIsOwn(h.requests) && (OfRequests(h, m) ==> env.ids[0] !in h.requests.issued)
    ensures var h' := Handle(h, c, m, env).state;
      && h'.used == h.used
      && h'.requests.issued.Keys <= h.requests.issued.Keys + (if OfRequests(h, m) then {env.ids[0]} else {})
      && forall s :: s in h'.batches.subs ==>
           || (s in h.batches.subs && h'.batches.subs[s] == h.batches.subs[s])
           || (m.ExecuteMulti? && s in env.ids && h'.batches.subs[s].multi == env.ids[0])
  {
    if OfRequests(h, m) { R.RequestsKeepTable(h, c, m, env); }
    if OfBatches(h, m) { R.BatchSubs(h, c, m, env); }
    hide HandleRequests, HandleBatches, HandlePairing, HandleTunnels, HandleRegister, HandleDisconnect,
         OfRequests, OfBatches, OfPairing, OfTunnels, R.TableIsOwn;
  }

  lemma HandedOut(h: Hub, e: Event, s: Id, m: Id)
    requires Enabled(h, e) && R.IdsAreOwn(h) && HandsOut(e, s, m)
    ensures SubOf(Next(h, e), s, m)
  {
    assert s in e.env.ids;
    ArriveSubs(WithIds(h, e.env), e.conn, e.message, e.env);
    hide Handle, R.TableIsOwn;
  }

  lemma StaysSub(h: Hub, e: Event, s: Id, m: Id)
    requires Enabled(h, e) && R.IdsAreOwn(h) && SubOf(h, s, m)
    ensures SubOf(Next(h, e), s, m)
  {
    if e.Arrive? {
      ArriveSubs(WithIds(h, e.env), e.conn, e.message, e.env);
      hide Handle, R.TableIsOwn, OfRequests;
    } else {
      hide CloseSends, Filled, R.TableIsOwn;
    }
  }

  /** In every run an id that was handed out for a batch's target is that batch's for ever. */
  lemma {:induction false} AlwaysSubOf(hubs: seq<Hub>, events: seq<Event>, i: nat, k: nat, s: Id, m: Id)
    requires IsRun(hubs, events) && i < k < |hubs| && HandsOut(events[i], s, m)
    ensures SubOf(hubs[k], s, m)
  {
    hide IsRun, Enabled, Next, R.IdsAreOwn, SubOf, HandsOut;
    RunSteps(hubs, events, k);
    R.IdsAlwaysOwn(hubs, events, k - 1);
    if k == i + 1 {
      HandedOut(hubs[i], events[i], s, m);
    } else {
      AlwaysSubOf(hubs, events, i, k - 1, s, m);
      StaysSub(hubs[k - 1], events[k - 1], s, m);
    }
  }

  /** What a message under a sub's id sends: only the result that an open batch still waits for. */
  lemma SubIdSends(h: Hub, e: Event, s: Id, m: Id)
    requires Enabled(h, e) && R.IdsAreOwn(h) && SubOf(h, s, m) && R.UnderId(e, s)
    ensures var b, sends := h.batches, Step(h, e).sends;
      && Next(h, e).requests == h.requests
      && (sends != [] <==> e.message.Result? && s in b.subs && m in b.multis && b.multis[m].remaining <= 1)
      && (sends != [] ==> |sends| == 1 && sends[0].to == b.multis[m].client && sends[0].why == ForMulti(m) && m !in Next(h, e).batches.multis)
  {
    hide Ordered;
  }

  lemma TurnKeys(b: BatchTable, d: Directory, m: Id, job: Batch, target: Name, sub: Id, ok: bool)
    requires m in b.multis && m in b.arming
    ensures var b' := FanOutTo(b, d, m, job, target, sub, ok).state; b'.multis.Keys == b.multis.Keys && b'.fanned == b.fanned
  {
  }

  lemma {:induction false} LoopKeys(b: BatchTable, d: Directory, c: Conn, job: Batch, env: Env, n: nat)
    requires EnvFits(job, env) && n <= |job.targets|
    ensures var b' := FanOutFirst(b, d, c, job, env, n).state;
      b'.multis.Keys == b.multis.Keys + {env.ids[0]} && b'.fanned.Keys == b.fanned.Keys + {env.ids[0]}
  {
    hide FanOutTo;
    if n > 0 {
      LoopKeys(b, d, c, job, env, n - 1);
      TurnKeys(FanOutFirst(b, d, c, job, env, n - 1).state, d, env.ids[0], job, job.targets[n - 1], env.ids[n], env.oks[n]);
    }
  }

  ghost predicate Closed(h: Hub, m: Id) {
    m in h.batches.fanned && m !in h.batches.multis
  }

  lemma ClosedByMessage(h: Hub, c: Conn, m: Incoming, env: Env, k: Id)
    requires c in h.dir.peers && EnvFor(m, env) && Closed(h, k) && k !in env.ids
    ensures Closed(Handle(h, c, m, env).state, k)
  {
    hide HandleRequests, FanOutFirst, HandlePairing, HandleTunnels, HandleRegister, HandleDisconnect,
         OfPairing, OfTunnels, OfRequests, Ordered;
    if m.ExecuteMulti? { LoopKeys(h.batches, h.dir, c, m.batch, env, |m.batch.targets|); }
  }

  lemma ClosedStep(h: Hub, e: Event, m: Id)
    requires Enabled(h, e) && F.BatchIdsUsed(h) && Closed(h, m)
    ensures Closed(Next(h, e), m)
  {
    hide Handle, CloseSends, Filled, Ordered;
    if e.Arrive? { ClosedByMessage(WithIds(h, e.env), e.conn, e.message, e.env, m); }
  }

  /** In every run a batch that is closed, by its last result or by its timer, stays closed. */
  lemma {:induction false} StaysClosed(hubs: seq<Hub>, events: seq<Event>, j: nat, k: nat, m: Id)
    requires IsRun(hubs, events) && j <= k < |hubs| && Closed(hubs[j], m)
    ensures Closed(hubs[k], m)
  {
    hide IsRun, Enabled, Next, Closed, F.BatchIdsUsed;
    if k > j {
      RunSteps(hubs, events, k);
      StaysClosed(hubs, events, j, k - 1, m);
      F.BatchesAlwaysOk(hubs, events, k - 1);
      ClosedStep(hubs[k - 1], events[k - 1], m);
    }
  }

  /**
   In every run: a message under an id that was handed out for a target of batch m, whatever
   has become of that id, touches no request, and sends something if and only if it is a
   result that the batch, being open, waits for as its last, or waits for before its count is
   stored; then it sends the batch's one reply.
   */
  lemma SubResultsSendOnlyTheReply(hubs: seq<Hub>, events: seq<Event>, i: nat, k: nat, s: Id, m: Id)
    requires IsRun(hubs, events) && i < k < |events| && HandsOut(events[i], s, m) && R.UnderId(events[k], s)
    ensures Enabled(hubs[k], events[k]) && hubs[k + 1].requests == hubs[k].requests
    ensures var b, sends := hubs[k].batches, Step(hubs[k], events[k]).sends;
      && (sends != [] <==> events[k].message.Result? && s in b.subs && m in b.multis && b.multis[m].remaining <= 1)
      && (sends != [] ==> |sends| == 1 && sends[0].to == b.multis[m].client && sends[0].why == ForMulti(m) && m !in hubs[k + 1].batches.multis)
  {
    RunSteps(hubs, events, k + 1);
    AlwaysSubOf(hubs, events, i, k, s, m);
    R.IdsAlwaysOwn(hubs, events, k);
    hide IsRun, Enabled, Next, Step, R.IdsAreOwn, SubOf, HandsOut;
    SubIdSends(hubs[k], events[k], s, m);
  }

  /** In every run, once a batch has been closed, by its last result or by its timer, no message
      under any of its ids adds anything to the log, however late it comes. */
  lemma LateResultsAreSilent(hubs: seq<Hub>, events: seq<Event>, i: nat, j: nat, k: nat, s: Id, m: Id)
    requires IsRun(hubs, events) && i < j <= k < |events| && HandsOut(events[i], s, m)
    requires Closed(hubs[j], m) && R.UnderId(events[k], s)
    ensures hubs[k + 1].log == hubs[k].log && hubs[k + 1].requests == hubs[k].requests
  {
    RunSteps(hubs, events, k + 1);
    StaysClosed(hubs, events, j, k, m);
    SubResultsSendOnlyTheReply(hubs, events, i, k, s, m);
    hide IsRun, Enabled, Step, HandsOut;
    assert hubs[k].log + [] == hubs[k].log;
  }

  /** The timer of a batch leaves it closed. */
  lemma TimerCloses(h: Hub, m: Id)
    requires Enabled(h, Fire(m)) && m in h.batches.fanned
    ensures Closed(Next(h, Fire(m)), m)
  {
    hide Filled, Ordered;
  }

  /** Only the timers of batches that were fanned out run. */
  lemma TimersAreOfBatches(hubs: seq<Hub>, events: seq<Event>, j: nat, m: Id)
    requires IsRun(hubs, events) && j < |hubs| && m in hubs[j].batches.timers
    ensures m in hubs[j].batches.fanned
  {
    F.BatchesAlwaysOk(hubs, events, j);
    hide IsRun, About;
    assert F.BatchOk(hubs[j].batches, About(hubs[j].log, ForMulti(m)), m);
  }

  /** In every run, once a batch's timer has run, no message under any of its ids adds anything to
      the log: results that come after the time-out are dropped. */
  lemma SilentAfterTheTimeOut(hubs: seq<Hub>, events: seq<Event>, i: nat, j: nat, k: nat, s: Id, m: Id)
    requires IsRun(hubs, events) && i < j < k < |events| && HandsOut(events[i], s, m)
    requires events[j] == Fire(m) && R.UnderId(events[k], s)
    ensures hubs[k + 1].log == hubs[k].log && hubs[k + 1].requests == hubs[k].requests
  {
    RunSteps(hubs, events, j + 1);
    TimersAreOfBatches(hubs, events, j, m);
    hide IsRun, Next, HandsOut, Closed;
    TimerCloses(hubs[j], m);
    LateResultsAreSilent(hubs, events, i, j + 1, k, s, m);
  }
}
