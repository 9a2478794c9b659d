/**
 What a batch's targets are sent, and what its one reply says of each of them: the last result that
 came in time under an id that was handed out for it, or why there is none.
 */
module BatchValues {
  import opened Basics
  import opened Protocol
  import opened RelayModel
  import C = Forwarding
  import F = FanOut
  import L = LateResults
  import O = Orders
  import Q = WriteQueue

  const TIMED_OUT := "timed out waiting for result"

  /** A batch that its sender may ask for, under the id m. */
  predicate FansOut(h: Hub, e: Event, m: Id) {
    && e.Arrive? && e.message.ExecuteMulti? && EnvFits(e.message.batch, e.env) && e.env.ids[0] == m
    && O.MayAct(h, e.conn) && e.message.batch.targets != [] && e.message.batch.cmd != ""
  }

  /** Why a target is not sent the command at all. */
  function Unreached(d: Directory, job: Batch, n: Name): Option<string> {
    if n !in d.clients then Some("target not connected")
    else if n !in job.tokens || TokenOf(d, d.clients[n]) != job.tokens[n] then Some("invalid token")
    else None
  }

  /** One of the first `turns` forwards was for n and failed. */
  predicate ForwardFailed(job: Batch, env: Env, turns: nat, n: Name)
    requires EnvFits(job, env) && turns <= |job.targets|
  {
    exists t :: 0 <= t < turns && job.targets[t] == n && !env.oks[t + 1]
  }

  /** There is a result for n when the first `turns` targets have had their turns, and it says why. */
  predicate HasFailed(d: Directory, job: Batch, env: Env, turns: nat, n: Name)
    requires EnvFits(job, env) && turns <= |job.targets|
  {
    n in job.targets[..turns] && (Unreached(d, job, n).Some? || ForwardFailed(job, env, turns, n))
  }

  function WhyNot(d: Directory, job: Batch, n: Name): Body {
    Body(false, if Unreached(d, job, n).Some? then Unreached(d, job, n).value else "forward failed")
  }

  // ---- The loop ----

  lemma FailedNext(d: Directory, job: Batch, env: Env, turns: nat, n: Name)
    requires EnvFits(job, env) && turns < |job.targets|
    ensures HasFailed(d, job, env, turns + 1, n) <==>
      HasFailed(d, job, env, turns, n) || (job.targets[turns] == n && (Unreached(d, job, n).Some? || !env.oks[turns + 1]))
  {
    assert job.targets[..turns + 1] == job.targets[..turns] + [job.targets[turns]];
    if ForwardFailed(job, env, turns, n) {
      var t :| 0 <= t < turns && job.targets[t] == n && !env.oks[t + 1];
      assert job.targets[..turns][t] == n;
    }
  }

  /** One turn's effect on the results. */
  lemma TurnResults(b: BatchTable, d: Directory, m: Id, job: Batch, target: Name, sub: Id, ok: bool)
    requires m in b.multis && m in b.arming
    ensures var b' := FanOutTo(b, d, m, job, target, sub, ok).state;
      && m in b'.multis
      && b'.multis[m].results == (if Unreached(d, job, target).Some? || !ok then b.multis[m].results[target := WhyNot(d, job, target)]
                                  else b.multis[m].results)
  {
  }

  /** What the results say of n when the first `turns` targets have had their turns. */
  predicate LoopSays(results: map<Name, Body>, d: Directory, job: Batch, env: Env, turns: nat, n: Name)
    requires EnvFits(job, env) && turns <= |job.targets|
  {
    (n in results <==> HasFailed(d, job, env, turns, n)) && (n in results ==> results[n] == WhyNot(d, job, n))
  }

  lemma TurnSays(results: map<Name, Body>, results': map<Name, Body>, d: Directory, job: Batch, env: Env, turns: nat, n: Name)
    requires EnvFits(job, env) && turns < |job.targets| && LoopSays(results, d, job, env, turns, n)
    requires var target := job.targets[turns];
      results' == if Unreached(d, job, target).Some? || !env.oks[turns + 1] then results[target := WhyNot(d, job, target)] else results
    ensures LoopSays(results', d, job, env, turns + 1, n)
  {
    FailedNext(d, job, env, turns, n);
    hide HasFailed, Unreached, WhyNot;
  }

  ghost function ResultsAfter(b: BatchTable, d: Directory, c: Conn, job: Batch, env: Env, turns: nat): map<Name, Body>
    requires EnvFits(job, env) && turns <= |job.targets|
  {
    FanOutFirst(b, d, c, job, env, turns).state.multis[env.ids[0]].results
  }

  lemma {:induction false} LoopResults(b: BatchTable, d: Directory, c: Conn, job: Batch, env: Env, turns: nat)
    requires EnvFits(job, env) && turns <= |job.targets|
    ensures forall n :: LoopSays(ResultsAfter(b, d, c, job, env, turns), d, job, env, turns, n)
  {
    if turns > 0 {
      LoopResults(b, d, c, job, env, turns - 1);
      TurnOfLoop(b, d, c, job, env, turns - 1);
      hide LoopSays, ResultsAfter, Unreached, WhyNot;
      forall n ensures LoopSays(ResultsAfter(b, d, c, job, env, turns), d, job, env, turns, n) {
        TurnSays(ResultsAfter(b, d, c, job, env, turns - 1), ResultsAfter(b, d, c, job, env, turns), d, job, env, turns - 1, n);
      }
    }
  }

  lemma TurnOfLoop(b: BatchTable, d: Directory, c: Conn, job: Batch, env: Env, turns: nat)
    requires EnvFits(job, env) && turns < |job.targets|
    ensures var target, results := job.targets[turns], ResultsAfter(b, d, c, job, env, turns);
      ResultsAfter(b, d, c, job, env, turns + 1)
        == if Unreached(d, job, target).Some? || !env.oks[turns + 1] then results[target := WhyNot(d, job, target)] else results
  {
    var before := FanOutFirst(b, d, c, job, env, turns).state;
    TurnResults(before, d, env.ids[0], job, job.targets[turns], env.ids[turns + 1], env.oks[turns + 1]);
    hide FanOutTo, Unreached, WhyNot;
  }

  // ---- One step ----

  ghost function BatchesAfter(h: Hub, e: Event): BatchTable
    requires Enabled(h, e)
  {
    match e
    case Arm(m) => HandleArm(h.batches, m).state
    case Fire(m) => HandleFire(h.batches, m).state
    case Arrive(c, message, env) =>
      if message.ExecuteMulti? && !Barred(h, c, message) then HandleExecuteMulti(h.batches, h.dir, c, message.batch, env).state
      else if message.Result? && message.id in h.batches.subs then HandleSubResult(h.batches, message.id, message.body).state
      else h.batches
    case _ => h.batches
  }

  lemma BatchesAre(h: Hub, e: Event)
    requires Enabled(h, e)
    ensures Next(h, e).batches == BatchesAfter(h, e)
  {
    hide HandleRequests, HandlePairing, HandleTunnels, HandleRegister, HandleDisconnect, HandleExecuteMulti, HandleSubResult,
         HandleArm, HandleFire, CloseSends, OfPairing, OfTunnels;
  }

  /** The result of a command of the open batch m that was sent to n, the first under its id. */
  predicate Takes(h: Hub, e: Event, m: Id, n: Name) {
    && e.Arrive? && e.message.Result? && m in h.batches.multis
    && e.message.id in h.batches.subs && h.batches.subs[e.message.id] == Sub(m, n)
  }

  /** The last result for n that batch m took. */
  function Came(hubs: seq<Hub>, events: seq<Event>, k: nat, m: Id, n: Name): Option<Body>
    requires k <= |events| <= |hubs|
  {
    if k == 0 then None
    else if Takes(hubs[k - 1], events[k - 1], m, n) then Some(events[k - 1].message.body)
    else Came(hubs, events, k - 1, m, n)
  }

  /** What the results say of n: what came, or else why nothing did. */
  predicate SaysOf(results: map<Name, Body>, n: Name, came: Option<Body>, failed: bool, why: Body) {
    if came.Some? then n in results && results[n] == came.value
    else (n in results <==> failed) && (n in results ==> results[n] == why)
  }

  /** Batch m, fanned out by e at h, when it is open in b. */
  ghost predicate OpenIs(b: BatchTable, h: Hub, e: Event, m: Id, came: Name -> Option<Body>)
    requires FansOut(h, e, m)
  {
    var job := e.message.batch;
    && m in b.multis && m in b.fanned && b.fanned[m] == Fanned(e.conn, job.id, job.targets)
    && b.multis[m].client == e.conn && b.multis[m].clientId == job.id && b.multis[m].order == job.targets
    && forall n :: SaysOf(b.multis[m].results, n, came(n), HasFailed(h.dir, job, e.env, |job.targets|, n), WhyNot(h.dir, job, n))
  }

  /** What the reply says of n; a target that is still missing is reported as timed out. */
  predicate ReplySaysOf(results: map<Name, Body>, h: Hub, e: Event, m: Id, n: Name, came: Option<Body>)
    requires FansOut(h, e, m)
  {
    var job := e.message.batch;
    if came.Some? then n in results && results[n] == came.value
    else if HasFailed(h.dir, job, e.env, |job.targets|, n) then n in results && results[n] == WhyNot(h.dir, job, n)
    else n in results ==> n in job.targets && results[n] == Body(false, TIMED_OUT)
  }

  ghost predicate ReplyIs(out: seq<Sent>, h: Hub, e: Event, m: Id, came: Name -> Option<Body>)
    requires FansOut(h, e, m)
  {
    && |out| == 1 && out[0].to == e.conn && out[0].unit.Plain? && out[0].unit.text.MultiResult?
    && out[0].unit.text.id == e.message.batch.id && out[0].unit.text.error == ""
    && forall n :: ReplySaysOf(out[0].unit.text.results, h, e, m, n, came(n))
  }

  // ---- An open batch ----

  /** `came'` is what has come when e has been dealt with. */
  ghost predicate CameNext(h: Hub, e: Event, m: Id, came: Name -> Option<Body>, came': Name -> Option<Body>) {
    forall n :: came'(n) == if Takes(h, e, m, n) then Some(e.message.body) else came(n)
  }

  /** The batch is open still, or its reply has just been sent. */
  ghost predicate OpenOrReplied(b: BatchTable, more: seq<Sent>, h: Hub, e: Event, m: Id, came: Name -> Option<Body>)
    requires FansOut(h, e, m)
  {
    if m in b.multis then OpenIs(b, h, e, m, came) && more == [] else m in b.fanned && ReplyIs(more, h, e, m, came)
  }

  lemma ReplySays(x: Multi, h: Hub, e: Event, m: Id, came: Name -> Option<Body>)
    requires FansOut(h, e, m) && x.client == e.conn && x.clientId == e.message.batch.id && x.results.Keys <= F.Members(x.order)
    requires forall n :: ReplySaysOf(x.results, h, e, m, n, came(n))
    ensures ReplyIs(About([MultiReply(m, x)], ForMulti(m)), h, e, m, came)
  {
    AboutOne(MultiReply(m, x), ForMulti(m));
    assert Ordered(x) == x.results by {
      F.OrderedNames(x);
    }
    hide About, ReplySaysOf, Ordered;
  }

  lemma SaysInReply(results: map<Name, Body>, h: Hub, e: Event, m: Id, n: Name, came: Option<Body>)
    requires FansOut(h, e, m)
    requires SaysOf(results, n, came, HasFailed(h.dir, e.message.batch, e.env, |e.message.batch.targets|, n), WhyNot(h.dir, e.message.batch, n))
    ensures ReplySaysOf(results, h, e, m, n, came)
  {
    hide HasFailed, WhyNot;
  }

  /** The count is stored, or the batch closed because nothing was forwarded. */
  lemma ArmOpen(b: BatchTable, out: seq<Sent>, h: Hub, e: Event, m: Id, came: Name -> Option<Body>)
    requires FansOut(h, e, m) && m in b.arming && F.BatchOk(b, out, m) && OpenIs(b, h, e, m, came)
    ensures var o := HandleArm(b, m); OpenOrReplied(o.state, About(o.sends, ForMulti(m)), h, e, m, came)
  {
    var o, x := HandleArm(b, m), b.multis[m];
    assert x.results.Keys <= F.Members(x.order);
    hide SaysOf, HasFailed, WhyNot, About, Ordered;
    if o.sends == [] {
      AboutNone(o.sends, ForMulti(m));
    } else {
      forall n ensures ReplySaysOf(x.results, h, e, m, n, came(n)) { SaysInReply(x.results, h, e, m, n, came(n)); }
      ReplySays(x, h, e, m, came);
    }
  }

  lemma FireOpen(b: BatchTable, out: seq<Sent>, h: Hub, e: Event, m: Id, came: Name -> Option<Body>)
    requires FansOut(h, e, m) && F.BatchOk(b, out, m) && OpenIs(b, h, e, m, came)
    ensures var o := HandleFire(b, m); OpenOrReplied(o.state, About(o.sends, ForMulti(m)), h, e, m, came)
  {
    var o, x := HandleFire(b, m), Filled(b.multis[m]);
    assert b.multis[m].results.Keys <= F.Members(b.multis[m].order);
    F.FilledNames(b.multis[m]);
    forall n ensures ReplySaysOf(x.results, h, e, m, n, came(n)) { FilledSays(b.multis[m], h, e, m, n, came(n)); }
    hide SaysOf, HasFailed, WhyNot, About, Ordered, Filled;
    ReplySays(x, h, e, m, came);
  }

  lemma FilledSays(x: Multi, h: Hub, e: Event, m: Id, n: Name, came: Option<Body>)
    requires FansOut(h, e, m) && x.order == e.message.batch.targets
    requires SaysOf(x.results, n, came, HasFailed(h.dir, e.message.batch, e.env, |e.message.batch.targets|, n), WhyNot(h.dir, e.message.batch, n))
    ensures ReplySaysOf(Filled(x).results, h, e, m, n, came)
  {
    hide HasFailed, WhyNot;
  }

  /** A result of one of the batch's commands, from the target that it was sent to. */
  lemma ResultOpen(b: BatchTable, id: Id, body: Body, out: seq<Sent>, h: Hub, e: Event, m: Id, came: Name -> Option<Body>,
                   came': Name -> Option<Body>)
    requires FansOut(h, e, m) && F.BatchOk(b, out, m) && OpenIs(b, h, e, m, came) && id in b.subs && b.subs[id].multi == m
    requires forall n :: came'(n) == if n == b.subs[id].target then Some(body) else came(n)
    ensures var o := HandleSubResult(b, id, body); OpenOrReplied(o.state, About(o.sends, ForMulti(m)), h, e, m, came')
  {
    var o, x := HandleSubResult(b, id, body), b.multis[m];
    var x' := x.(results := x.results[b.subs[id].target := body], remaining := x.remaining - 1);
    assert b.subs[id].target in F.LiveNames(b, m) by { assert id in F.Live(b, m); }
    assert x'.results.Keys <= F.Members(x'.order);
    hide HasFailed, WhyNot, About, Ordered, F.BatchOk;
    if o.sends == [] {
      AboutNone(o.sends, ForMulti(m));
    } else {
      assert o.sends == [MultiReply(m, x')];
      forall n ensures ReplySaysOf(x'.results, h, e, m, n, came'(n)) {
        SaysInReply(x'.results, h, e, m, n, came'(n));
      }
      hide SaysOf;
      ReplySays(x', h, e, m, came');
    }
  }

  /** A step that is not about batch m leaves it as it was. */
  lemma SameOpen(b: BatchTable, b': BatchTable, h: Hub, e: Event, m: Id, came: Name -> Option<Body>)
    requires FansOut(h, e, m) && OpenIs(b, h, e, m, came) && F.SameBatch(b, b', m)
    ensures OpenIs(b', h, e, m, came)
  {
    hide SaysOf, HasFailed, WhyNot, F.Live, F.LiveNames;
  }

  lemma CameSame(b: BatchTable, h: Hub, e: Event, m: Id, came: Name -> Option<Body>, came': Name -> Option<Body>)
    requires FansOut(h, e, m) && OpenIs(b, h, e, m, came) && forall n :: came'(n) == came(n)
    ensures OpenIs(b, h, e, m, came')
  {
    hide SaysOf, HasFailed, WhyNot;
  }

  lemma SameBatchSame(b: BatchTable, m: Id)
    ensures F.SameBatch(b, b, m)
  {
  }

  /** Whatever comes next, an open batch stays as it is to be, or is replied to. */
  lemma OpenStep(g: Hub, x: Event, out: seq<Sent>, h: Hub, e: Event, m: Id, came: Name -> Option<Body>, came': Name -> Option<Body>)
    requires Enabled(g, x) && F.BatchIdsUsed(g) && F.BatchOk(g.batches, out, m) && m in g.used
    requires FansOut(h, e, m) && OpenIs(g.batches, h, e, m, came) && CameNext(g, x, m, came, came')
    ensures OpenOrReplied(Next(g, x).batches, About(Step(g, x).sends, ForMulti(m)), h, e, m, came')
  {
    BatchesAre(g, x);
    if x == Arm(m) {
      CameSame(g.batches, h, e, m, came, came');
      ArmOpen(g.batches, out, h, e, m, came');
      hide HandleArm, Next, FansOut, OpenOrReplied;
    } else if x == Fire(m) {
      CameSame(g.batches, h, e, m, came, came');
      FireOpen(g.batches, out, h, e, m, came');
      hide HandleFire, Next, FansOut, OpenOrReplied;
    } else if x.Arrive? && x.message.Result? && x.message.id in g.batches.subs && g.batches.subs[x.message.id].multi == m {
      ResultIs(g, x);
      assert forall n :: Takes(g, x, m, n) <==> n == g.batches.subs[x.message.id].target;
      ResultOpen(g.batches, x.message.id, x.message.body, out, h, e, m, came, came');
      hide HandleSubResult, Next, FansOut, OpenOrReplied, OpenIs, Step, Enabled;
    } else {
      assert forall n :: !Takes(g, x, m, n);
      CameSame(g.batches, h, e, m, came, came');
      OtherStep(g, x, m);
      hide Next, Step, Enabled, FansOut, BatchesAfter;
      SameOpen(g.batches, Next(g, x).batches, h, e, m, came');
    }
  }

  lemma ResultIs(g: Hub, x: Event)
    requires Enabled(g, x) && x.Arrive? && x.message.Result? && x.message.id in g.batches.subs
    ensures Step(g, x).sends == HandleSubResult(g.batches, x.message.id, x.message.body).sends
    ensures Next(g, x).batches == HandleSubResult(g.batches, x.message.id, x.message.body).state
  {
    hide HandleSubResult;
  }

  /** Steps that are not about batch m. */
  lemma OtherStep(g: Hub, x: Event, m: Id)
    requires Enabled(g, x) && F.BatchIdsUsed(g) && m in g.used && x != Arm(m) && x != Fire(m)
    requires !(x.Arrive? && x.message.Result? && x.message.id in g.batches.subs && g.batches.subs[x.message.id].multi == m)
    ensures F.SameBatch(g.batches, Next(g, x).batches, m) && About(Step(g, x).sends, ForMulti(m)) == []
  {
    SameBatchSame(g.batches, m);
    hide F.SameBatch, About;
    match x
    case Arm(k) => F.ArmOthers(g.batches, k, m); hide HandleArm;
    case Fire(k) => F.FireOthers(g.batches, k, m); hide HandleFire;
    case Arrive(c, message, env) => OtherArrival(g, x, m);
    case _ => StepTags(g, x); AboutNone(Step(g, x).sends, ForMulti(m)); hide CloseSends, ForgetRequests, ForgetListeners, SeverTunnels, ReleaseName;
  }

  lemma OtherArrival(g: Hub, x: Event, m: Id)
    requires Enabled(g, x) && x.Arrive? && F.BatchIdsUsed(g) && m in g.used
    requires !(x.message.Result? && x.message.id in g.batches.subs && g.batches.subs[x.message.id].multi == m)
    ensures F.SameBatch(g.batches, Next(g, x).batches, m) && About(Step(g, x).sends, ForMulti(m)) == []
  {
    var g' := WithIds(g, x.env);
    SameBatchSame(g.batches, m);
    hide F.SameBatch, About, F.BatchOk;
    if OfBatches(g', x.message) && !OfRequests(g', x.message) && !Barred(g', x.conn, x.message) {
      if x.message.ExecuteMulti? {
        FannedOther(g', x.conn, x.message.batch, x.env, m);
      } else {
        F.SubResultOthers(g.batches, x.message.id, x.message.body, m);
      }
      hide HandleExecuteMulti, HandleSubResult;
    } else {
      F.OtherMessage(g', x.conn, x.message, x.env, m);
      hide Handle;
    }
  }

  lemma FannedOther(h: Hub, c: Conn, job: Batch, env: Env, m: Id)
    requires EnvFits(job, env) && Distinct(env.ids) && m !in env.ids && forall id :: id in env.ids ==> id !in h.batches.subs
    ensures var o := HandleExecuteMulti(h.batches, h.dir, c, job, env);
      F.SameBatch(h.batches, o.state, m) && About(o.sends, ForMulti(m)) == []
  {
    var o := HandleExecuteMulti(h.batches, h.dir, c, job, env);
    SameBatchSame(h.batches, m);
    hide F.SameBatch, About;
    if job.targets != [] && job.cmd != "" {
      assert env.ids[0] in env.ids;
      FanOutSends(h.batches, h.dir, c, job, env, |job.targets|);
      F.LoopKeepsOther(h.batches, h.dir, c, job, env, |job.targets|, m);
      hide FanOutFirst;
    }
    AboutNone(o.sends, ForMulti(m));
  }

  /** A batch that has just been fanned out. */
  lemma FannedIs(h: Hub, e: Event, m: Id, came: Name -> Option<Body>)
    requires Enabled(h, e) && F.BatchIdsUsed(h) && FansOut(h, e, m) && F.Live(h.batches, m) == {} && forall n :: came(n) == None
    ensures OpenIs(Next(h, e).batches, h, e, m, came)
  {
    var g, job, env := WithIds(h, e.env), e.message.batch, e.env;
    var turns := |job.targets|;
    BatchesAre(h, e);
    LoopResults(g.batches, g.dir, e.conn, job, env, turns);
    F.LoopIs(g.batches, g.dir, e.conn, job, env, turns);
    var b' := FanOutFirst(g.batches, g.dir, e.conn, job, env, turns).state;
    assert F.FannedOut(b', m, e.conn, job, F.Members(job.targets[..turns]));
    assert Next(h, e).batches == b';
    var results := ResultsAfter(g.batches, g.dir, e.conn, job, env, turns);
    assert m in b'.multis && b'.multis[m].results == results;
    hide FanOutFirst, HasFailed, WhyNot, Next, Enabled, ResultsAfter, F.Live, F.LiveNames;
    forall n ensures SaysOf(results, n, came(n), HasFailed(h.dir, job, env, turns, n), WhyNot(h.dir, job, n)) {
      assert LoopSays(results, g.dir, job, env, turns, n);
    }
  }

  // ---- Every run ----

  ghost function CameBy(hubs: seq<Hub>, events: seq<Event>, k: nat, m: Id): Name -> Option<Body>
    requires k <= |events| <= |hubs|
  {
    (n: Name) => Came(hubs, events, k, m, n)
  }

  lemma CameStep(hubs: seq<Hub>, events: seq<Event>, k: nat, m: Id)
    requires 0 < k <= |events| <= |hubs|
    ensures CameNext(hubs[k - 1], events[k - 1], m, CameBy(hubs, events, k - 1, m), CameBy(hubs, events, k, m))
  {
  }

  lemma {:induction false} NothingCame(hubs: seq<Hub>, events: seq<Event>, k: nat, m: Id)
    requires IsRun(hubs, events) && k < |hubs| && m !in hubs[k].used
    ensures |hubs| == |events| + 1 && forall n :: Came(hubs, events, k, m, n) == None
  {
    hide IsRun, Enabled, Next;
    RunStarts(hubs, events);
    if k > 0 {
      RunSteps(hubs, events, k);
      C.UsedGrows(hubs[k - 1], events[k - 1]);
      NothingCame(hubs, events, k - 1, m);
      NotOpenYet(hubs, events, k - 1, m);
    }
  }

  lemma NotOpenYet(hubs: seq<Hub>, events: seq<Event>, k: nat, m: Id)
    requires IsRun(hubs, events) && k < |hubs| && m !in hubs[k].used
    ensures m !in hubs[k].batches.multis && m !in hubs[k].batches.fanned && F.Live(hubs[k].batches, m) == {}
  {
    F.BatchesAlwaysOk(hubs, events, k);
    hide IsRun, About, F.Live;
    assert F.BatchOk(hubs[k].batches, About(hubs[k].log, ForMulti(m)), m);
  }

  /** What batch m, fanned out by event i, has come to. */
  ghost predicate ValuedAt(h: Hub, h0: Hub, e0: Event, m: Id, came: Name -> Option<Body>)
    requires FansOut(h0, e0, m)
  {
    m in h.used && OpenOrReplied(h.batches, About(h.log, ForMulti(m)), h0, e0, m, came)
  }

  lemma ValuedFirst(hubs: seq<Hub>, events: seq<Event>, i: nat, m: Id)
    requires IsRun(hubs, events) && i < |events| && FansOut(hubs[i], events[i], m)
    ensures |hubs| == |events| + 1 && ValuedAt(hubs[i + 1], hubs[i], events[i], m, CameBy(hubs, events, i + 1, m))
  {
    RunStarts(hubs, events);
    RunSteps(hubs, events, i + 1);
    var h, e := hubs[i], events[i];
    assert m in e.env.ids;
    NotOpenYet(hubs, events, i, m);
    NothingCame(hubs, events, i, m);
    CameStep(hubs, events, i + 1, m);
    F.BatchesAlwaysOk(hubs, events, i);
    F.BatchesAlwaysOk(hubs, events, i + 1);
    C.UsedGrows(h, e);
    FannedIs(h, e, m, CameBy(hubs, events, i + 1, m));
    assert F.BatchOk(hubs[i + 1].batches, About(hubs[i + 1].log, ForMulti(m)), m);
    hide IsRun, Enabled, Next, About, FansOut, F.BatchIdsUsed, F.Live;
  }

  lemma ValuedStep(g: Hub, x: Event, h: Hub, e: Event, m: Id, came: Name -> Option<Body>, came': Name -> Option<Body>)
    requires Enabled(g, x) && F.BatchIdsUsed(g) && F.BatchOk(g.batches, About(g.log, ForMulti(m)), m)
    requires F.BatchOk(Next(g, x).batches, About(Next(g, x).log, ForMulti(m)), m)
    requires FansOut(h, e, m) && ValuedAt(g, h, e, m, came) && CameNext(g, x, m, came, came')
    ensures ValuedAt(Next(g, x), h, e, m, came')
  {
    var out, more := About(g.log, ForMulti(m)), About(Step(g, x).sends, ForMulti(m));
    C.UsedGrows(g, x);
    NextAbout(g, x, ForMulti(m));
    if m in g.batches.multis {
      OpenStep(g, x, out, h, e, m, came, came');
      assert out == [] && [] + more == more;
      hide Next, Step, Enabled, About, FansOut, OpenIs, ReplyIs;
    } else {
      assert L.Closed(g, m);
      L.ClosedStep(g, x, m);
      assert forall n :: came'(n) == came(n);
      hide Next, Step, Enabled, About, FansOut, ReplySaysOf;
      assert |out + more| == 1;
      assert out + more == out;
    }
  }

  lemma {:induction false} ValuedAlways(hubs: seq<Hub>, events: seq<Event>, i: nat, k: nat, m: Id)
    requires IsRun(hubs, events) && i < k < |hubs| && i < |events| && FansOut(hubs[i], events[i], m)
    ensures |hubs| == |events| + 1 && ValuedAt(hubs[k], hubs[i], events[i], m, CameBy(hubs, events, k, m))
  {
    hide IsRun, Enabled, Next, FansOut, ValuedAt, CameNext, CameBy, F.BatchOk, F.BatchIdsUsed;
    RunStarts(hubs, events);
    if k == i + 1 {
      ValuedFirst(hubs, events, i, m);
    } else {
      RunSteps(hubs, events, k);
      ValuedAlways(hubs, events, i, k - 1, m);
      F.BatchesAlwaysOk(hubs, events, k - 1);
      F.BatchesAlwaysOk(hubs, events, k);
      CameStep(hubs, events, k, m);
      ValuedStep(hubs[k - 1], events[k - 1], hubs[i], events[i], m, CameBy(hubs, events, k - 1, m), CameBy(hubs, events, k, m));
    }
  }
}
