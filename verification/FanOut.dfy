/** Batches: how many answers a batch still counts on, and what its one reply names. */
module FanOut {
  import opened Basics
  import opened Protocol
  import opened RelayModel
  import N = Names
  import R = Requests

  /** The subs of a batch that have not been answered. */
  function Live(b: BatchTable, m: Id): set<Id> {
    set s | s in b.subs && b.subs[s].multi == m
  }

  function LiveNames(b: BatchTable, m: Id): set<Name> {
    set s | s in Live(b, m) :: b.subs[s].target
  }

  function Members(order: seq<Name>): set<Name> {
    set n | n in order
  }

  /**
   Every target of an open batch is in its results or has a live sub; once the count is
   stored it is the number of live subs and failed forwards, and the batch's timer runs; before
   that the handler still holds that number.
   */
  ghost predicate Accounted(b: BatchTable, m: Id)
    requires m in b.multis
  {
    var e := b.multis[m];
    && m in b.fanned && b.fanned[m] == Fanned(e.client, e.clientId, e.order)
    && e.results.Keys + LiveNames(b, m) == Members(e.order)
    && (if m in b.arming then e.remaining == 0 && b.arming[m] == |Live(b, m)| + e.failed
        else e.remaining == |Live(b, m)| + e.failed > 0 && m in b.timers)
  }

  predicate IsMultiResult(s: Sent, f: Fanned) {
    s.to == f.client && s.unit.Plain? && s.unit.text.MultiResult? && s.unit.text.id == f.clientId
  }

  /** The names in a batch's reply. */
  function Named(s: Sent): set<Name>
    requires s.unit.Plain? && s.unit.text.MultiResult?
  {
    s.unit.text.results.Keys
  }

  /**
   A batch is open and has no reply, or closed and has one, to its client under its own id.
   The reply names all its targets, and no sub of it is left, unless it was closed before
   its count was stored; then it names only targets.
   */
  ghost predicate BatchOk(b: BatchTable, out: seq<Sent>, m: Id) {
    if m in b.multis then Accounted(b, m) && out == [] && m !in b.early && (m in b.arming ==> m !in b.timers)
    else if m in b.fanned then
      && |out| == 1 && IsMultiResult(out[0], b.fanned[m]) && (m in b.arming ==> m !in b.timers)
      && Named(out[0]) <= Members(b.fanned[m].order)
      && (m in b.arming ==> m in b.early && b.arming[m] > 0)
      && (m !in b.early ==> Named(out[0]) == Members(b.fanned[m].order) && Live(b, m) == {})
    else out == [] && Live(b, m) == {} && m !in b.arming && m !in b.timers && m !in b.early
  }

  ghost predicate SameBatch(b: BatchTable, b': BatchTable, m: Id) {
    && (m in b'.multis <==> m in b.multis) && (m in b.multis ==> b'.multis[m] == b.multis[m])
    && (m in b'.fanned <==> m in b.fanned) && (m in b.fanned ==> b'.fanned[m] == b.fanned[m])
    && (m in b'.arming <==> m in b.arming) && (m in b.arming ==> b'.arming[m] == b.arming[m])
    && (m in b'.timers <==> m in b.timers) && (m in b'.early <==> m in b.early)
    && Live(b', m) == Live(b, m) && LiveNames(b', m) == LiveNames(b, m)
  }

  lemma SameStaysOk(b: BatchTable, b': BatchTable, out: seq<Sent>, m: Id)
    requires BatchOk(b, out, m) && SameBatch(b, b', m)
    ensures BatchOk(b', out, m)
  {
    hide Live, LiveNames;
  }

  // ---- The loop ----

  /** A batch while its loop runs, when the targets in `seen` have had their turns. */
  ghost predicate FannedOut(b: BatchTable, m: Id, c: Conn, job: Batch, seen: set<Name>) {
    && m in b.multis && m in b.arming && m in b.fanned && b.fanned[m] == Fanned(c, job.id, job.targets)
    && (var e := b.multis[m];
        && e.client == c && e.clientId == job.id && e.order == job.targets && e.remaining == 0
        && b.arming[m] == |Live(b, m)| + e.failed
        && e.results.Keys + LiveNames(b, m) == seen)
  }

  lemma MembersNext(order: seq<Name>, n: nat)
    requires n < |order|
    ensures Members(order[..n + 1]) == Members(order[..n]) + {order[n]}
  {
    assert order[..n + 1] == order[..n] + [order[n]];
  }

  lemma SubAdds(b: BatchTable, b': BatchTable, m: Id, sub: Id, target: Name)
    requires sub !in b.subs && b'.subs == b.subs[sub := Sub(m, target)]
    ensures Live(b', m) == Live(b, m) + {sub} && |Live(b', m)| == |Live(b, m)| + 1
    ensures LiveNames(b', m) == LiveNames(b, m) + {target}
    ensures forall k :: k != m ==> Live(b', k) == Live(b, k) && LiveNames(b', k) == LiveNames(b, k)
  {
    assert Live(b', m) == Live(b, m) + {sub};
    assert LiveNames(b', m) == LiveNames(b, m) + {target} by {
      assert sub in Live(b', m);
      forall s | s in Live(b, m) ensures b.subs[s].target in LiveNames(b', m) { assert s in Live(b', m); }
    }
    forall k | k != m ensures Live(b', k) == Live(b, k) && LiveNames(b', k) == LiveNames(b, k) {
      assert Live(b', k) == Live(b, k);
    }
  }

  function Counted(b: BatchTable, m: Id): BatchTable
    requires m in b.arming
  {
    b.(arming := b.arming[m := b.arming[m] + 1])
  }

  /** One turn: the target gets a result at once, a sub, or a result for a failed forward. */
  lemma TurnCases(b: BatchTable, d: Directory, m: Id, job: Batch, target: Name, sub: Id, ok: bool)
    requires m in b.multis && m in b.arming && sub !in b.subs
    ensures var b' := FanOutTo(b, d, m, job, target, sub, ok).state;
      || (exists body :: b' == SetResult(b, m, target, body))
      || b' == Counted(b, m).(subs := b.subs[sub := Sub(m, target)])
      || b' == SetFailed(Counted(b, m), m, target)
  {
    assert b.subs - {sub} == b.subs;
    var b' := FanOutTo(b, d, m, job, target, sub, ok).state;
    if target !in d.clients {
      assert b' == SetResult(b, m, target, Body(false, "target not connected"));
    } else if target !in job.tokens || TokenOf(d, d.clients[target]) != job.tokens[target] {
      assert b' == SetResult(b, m, target, Body(false, "invalid token"));
    }
  }

  lemma TurnIs(b: BatchTable, d: Directory, m: Id, c: Conn, job: Batch, seen: set<Name>, target: Name, sub: Id, ok: bool)
    requires FannedOut(b, m, c, job, seen) && sub !in b.subs
    ensures FannedOut(FanOutTo(b, d, m, job, target, sub, ok).state, m, c, job, seen + {target})
  {
    hide FanOutTo, LiveNames, Live;
    var b' := FanOutTo(b, d, m, job, target, sub, ok).state;
    TurnCases(b, d, m, job, target, sub, ok);
    if b' == Counted(b, m).(subs := b.subs[sub := Sub(m, target)]) {
      SubAdds(b, b', m, sub, target);
    } else {
      SameSubs(b, b', m);
    }
  }

  lemma SameSubs(b: BatchTable, b': BatchTable, m: Id)
    requires b'.subs == b.subs
    ensures Live(b', m) == Live(b, m) && LiveNames(b', m) == LiveNames(b, m)
  {
  }

  lemma TurnKeepsOther(b: BatchTable, d: Directory, m: Id, job: Batch, target: Name, sub: Id, ok: bool, k: Id)
    requires m in b.multis && m in b.arming && sub !in b.subs && k != m
    ensures SameBatch(b, FanOutTo(b, d, m, job, target, sub, ok).state, k)
  {
    var b' := FanOutTo(b, d, m, job, target, sub, ok).state;
    TurnCases(b, d, m, job, target, sub, ok);
    hide FanOutTo, Live, LiveNames;
    if b'.subs == b.subs { SameSubs(b, b', k); } else { SubAdds(b, b', m, sub, target); }
  }

  lemma {:induction false} LoopSubs(b: BatchTable, d: Directory, c: Conn, job: Batch, env: Env, n: nat)
    requires EnvFits(job, env) && n <= |job.targets|
    ensures forall s :: s in FanOutFirst(b, d, c, job, env, n).state.subs ==> s in b.subs || s in env.ids[1..n + 1]
  {
    if n > 0 {
      LoopSubs(b, d, c, job, env, n - 1);
      assert env.ids[1..n + 1] == env.ids[1..n] + [env.ids[n]];
    }
  }

  lemma NextIsFresh(b: BatchTable, d: Directory, c: Conn, job: Batch, env: Env, n: nat)
    requires EnvFits(job, env) && n < |job.targets| && Distinct(env.ids) && forall id :: id in env.ids ==> id !in b.subs
    ensures env.ids[n + 1] !in FanOutFirst(b, d, c, job, env, n).state.subs
  {
    LoopSubs(b, d, c, job, env, n);
    hide FanOutFirst;
  }

  lemma LoopStarts(b: BatchTable, d: Directory, c: Conn, job: Batch, env: Env)
    requires EnvFits(job, env) && Live(b, env.ids[0]) == {}
    ensures FannedOut(FanOutFirst(b, d, c, job, env, 0).state, env.ids[0], c, job, Members(job.targets[..0]))
  {
    SameSubs(b, FanOutFirst(b, d, c, job, env, 0).state, env.ids[0]);
    assert LiveNames(b, env.ids[0]) == {} && Members(job.targets[..0]) == {};
  }

  lemma {:induction false} LoopIs(b: BatchTable, d: Directory, c: Conn, job: Batch, env: Env, n: nat)
    requires EnvFits(job, env) && n <= |job.targets| && Distinct(env.ids) && Live(b, env.ids[0]) == {}
    requires forall id :: id in env.ids ==> id !in b.subs
    ensures FannedOut(FanOutFirst(b, d, c, job, env, n).state, env.ids[0], c, job, Members(job.targets[..n]))
  {
    hide FannedOut, FanOutTo, Live, Members;
    if n == 0 {
      LoopStarts(b, d, c, job, env);
    } else {
      LoopIs(b, d, c, job, env, n - 1);
      NextIsFresh(b, d, c, job, env, n - 1);
      MembersNext(job.targets, n - 1);
      TurnIs(FanOutFirst(b, d, c, job, env, n - 1).state, d, env.ids[0], c, job, Members(job.targets[..n - 1]), job.targets[n - 1], env.ids[n], env.oks[n]);
    }
  }

  lemma SameTwice(b: BatchTable, b': BatchTable, b'': BatchTable, m: Id)
    requires SameBatch(b, b', m) && SameBatch(b', b'', m)
    ensures SameBatch(b, b'', m)
  {
    hide Live, LiveNames;
  }

  lemma {:induction false} LoopKeepsOther(b: BatchTable, d: Directory, c: Conn, job: Batch, env: Env, n: nat, k: Id)
    requires EnvFits(job, env) && n <= |job.targets| && Distinct(env.ids) && k != env.ids[0]
    requires forall id :: id in env.ids ==> id !in b.subs
    ensures SameBatch(b, FanOutFirst(b, d, c, job, env, n).state, k)
  {
    hide FanOutTo, Distinct;
    if n == 0 {
      SameSubs(b, FanOutFirst(b, d, c, job, env, 0).state, k);
    } else {
      hide SameBatch;
      LoopKeepsOther(b, d, c, job, env, n - 1, k);
      NextIsFresh(b, d, c, job, env, n - 1);
      var before := FanOutFirst(b, d, c, job, env, n - 1).state;
      TurnKeepsOther(before, d, env.ids[0], job, job.targets[n - 1], env.ids[n], env.oks[n], k);
      SameTwice(b, before, FanOutFirst(b, d, c, job, env, n).state, k);
    }
  }

  // ---- Closing ----

  lemma SubRemoved(b: BatchTable, b': BatchTable, id: Id)
    requires id in b.subs && b'.subs == b.subs - {id}
    ensures var sub := b.subs[id];
      && Live(b', sub.multi) == Live(b, sub.multi) - {id} && id in Live(b, sub.multi)
      && |Live(b', sub.multi)| == |Live(b, sub.multi)| - 1
      && LiveNames(b', sub.multi) + {sub.target} == LiveNames(b, sub.multi)
    ensures forall k :: k != b.subs[id].multi ==> Live(b', k) == Live(b, k) && LiveNames(b', k) == LiveNames(b, k)
  {
    var m := b.subs[id].multi;
    assert Live(b', m) == Live(b, m) - {id};
    assert LiveNames(b', m) + {b.subs[id].target} == LiveNames(b, m) by {
      forall s | s in Live(b, m) && s != id ensures b.subs[s].target in LiveNames(b', m) { assert s in Live(b', m); }
      forall s | s in Live(b', m) ensures b.subs[s].target in LiveNames(b, m) { assert s in Live(b, m); }
    }
    forall k | k != m ensures Live(b', k) == Live(b, k) && LiveNames(b', k) == LiveNames(b, k) {
      assert Live(b', k) == Live(b, k);
    }
  }

  lemma NoneLive(b: BatchTable, m: Id)
    requires |Live(b, m)| == 0
    ensures Live(b, m) == {} && LiveNames(b, m) == {}
  {
  }

  lemma OrderedNames(e: Multi)
    ensures Ordered(e).Keys == e.results.Keys * Members(e.order)
  {
  }

  /** A batch that leaves the table with its reply sent. */
  lemma ReplyCloses(b: BatchTable, m: Id, e: Multi)
    requires m !in b.multis && m in b.fanned && b.fanned[m] == Fanned(e.client, e.clientId, e.order)
    requires e.results.Keys <= Members(e.order) && (m in b.arming ==> m in b.early && b.arming[m] > 0 && m !in b.timers)
    requires m !in b.early ==> e.results.Keys == Members(e.order) && Live(b, m) == {}
    ensures BatchOk(b, About([MultiReply(m, e)], ForMulti(m)), m)
  {
    AboutOne(MultiReply(m, e), ForMulti(m));
    OrderedNames(e);
    hide About, Live, LiveNames, Ordered;
  }

  lemma SubCounts(b: BatchTable, id: Id, body: Body, out: seq<Sent>)
    requires id in b.subs && BatchOk(b, out, b.subs[id].multi)
    requires b.subs[id].multi in b.multis ==> b.multis[b.subs[id].multi].remaining > 1
    ensures HandleSubResult(b, id, body).sends == [] && BatchOk(HandleSubResult(b, id, body).state, out, b.subs[id].multi)
  {
    SubRemoved(b, HandleSubResult(b, id, body).state, id);
    hide Live, LiveNames, Ordered;
  }

  lemma SubCloses(b: BatchTable, id: Id, body: Body)
    requires id in b.subs && b.subs[id].multi in b.multis && b.multis[b.subs[id].multi].remaining <= 1
    requires BatchOk(b, [], b.subs[id].multi)
    ensures var o, m := HandleSubResult(b, id, body), b.subs[id].multi; BatchOk(o.state, About(o.sends, ForMulti(m)), m)
  {
    var o, m := HandleSubResult(b, id, body), b.subs[id].multi;
    SubRemoved(b, o.state, id);
    var e := b.multis[m];
    var e' := e.(results := e.results[b.subs[id].target := body], remaining := e.remaining - 1);
    if m !in b.arming { NoneLive(o.state, m); }
    hide Live, LiveNames, Ordered, About;
    assert e'.results.Keys == e.results.Keys + {b.subs[id].target};
    assert o.sends == [MultiReply(m, e')];
    ReplyCloses(o.state, m, e');
  }

  /** A sub's answer counts down its batch, and closes it when nothing is outstanding, or at
      once if the count was not stored yet. */
  lemma SubResultStep(b: BatchTable, id: Id, body: Body, out: seq<Sent>, m: Id)
    requires id in b.subs && b.subs[id].multi == m && BatchOk(b, out, m)
    ensures var o := HandleSubResult(b, id, body); BatchOk(o.state, out + About(o.sends, ForMulti(m)), m)
  {
    var o := HandleSubResult(b, id, body);
    if m in b.multis && b.multis[m].remaining <= 1 {
      SubCloses(b, id, body);
      assert out + About(o.sends, ForMulti(m)) == About(o.sends, ForMulti(m));
    } else {
      SubCounts(b, id, body, out);
      assert out + [] == out;
    }
  }

  lemma SubResultOthers(b: BatchTable, id: Id, body: Body, m: Id)
    requires id in b.subs && b.subs[id].multi != m
    ensures var o := HandleSubResult(b, id, body); SameBatch(b, o.state, m) && About(o.sends, ForMulti(m)) == []
  {
    var o := HandleSubResult(b, id, body);
    SubRemoved(b, o.state, id);
    hide About, Live, LiveNames, Ordered;
    AboutNone(o.sends, ForMulti(m));
  }

  lemma ArmCounts(b: BatchTable, out: seq<Sent>, m: Id)
    requires m in b.arming && BatchOk(b, out, m) && HandleArm(b, m).sends == []
    ensures BatchOk(HandleArm(b, m).state, out, m)
  {
    hide Live, LiveNames, Ordered;
    SameSubs(b, HandleArm(b, m).state, m);
  }

  lemma ArmCloses(b: BatchTable, m: Id)
    requires m in b.arming && b.arming[m] == 0 && m in b.multis && BatchOk(b, [], m)
    ensures var o := HandleArm(b, m); o.sends == [MultiReply(m, b.multis[m])] && BatchOk(o.state, About(o.sends, ForMulti(m)), m)
  {
    hide Live, LiveNames, Ordered, About;
    var o := HandleArm(b, m);
    SameSubs(b, o.state, m);
    NoneLive(b, m);
    ReplyCloses(o.state, m, b.multis[m]);
  }

  lemma ArmStep(b: BatchTable, out: seq<Sent>, m: Id)
    requires m in b.arming && BatchOk(b, out, m)
    ensures var o := HandleArm(b, m); BatchOk(o.state, out + About(o.sends, ForMulti(m)), m)
  {
    hide Live, LiveNames, Ordered, Accounted;
    var o := HandleArm(b, m);
    if o.sends == [] {
      ArmCounts(b, out, m);
      hide BatchOk;
      assert out + [] == out;
    } else {
      ArmCloses(b, m);
      assert out == [];
      hide BatchOk, About;
      assert out + About(o.sends, ForMulti(m)) == About(o.sends, ForMulti(m));
    }
  }

  lemma ArmOthers(b: BatchTable, k: Id, m: Id)
    requires k in b.arming && k != m
    ensures var o := HandleArm(b, k); SameBatch(b, o.state, m) && About(o.sends, ForMulti(m)) == []
  {
    var o := HandleArm(b, k);
    SameSubs(b, o.state, m);
    hide About, Live, LiveNames, Ordered;
    AboutNone(o.sends, ForMulti(m));
  }

  lemma FilledNames(e: Multi)
    requires e.results.Keys <= Members(e.order)
    ensures Filled(e).results.Keys == Members(e.order)
  {
  }

  lemma FireStep(b: BatchTable, out: seq<Sent>, m: Id)
    requires m in b.timers && BatchOk(b, out, m)
    ensures var o := HandleFire(b, m); BatchOk(o.state, out + About(o.sends, ForMulti(m)), m)
  {
    var o := HandleFire(b, m);
    if o.sends == [] {
      SameSubs(b, o.state, m);
      hide Live, LiveNames, Filled, Ordered;
      assert out + [] == out;
    } else {
      FilledNames(b.multis[m]);
      assert Live(o.state, m) == {};
      hide Live, LiveNames, Ordered, About;
      ReplyCloses(o.state, m, Filled(b.multis[m]));
      assert out + About(o.sends, ForMulti(m)) == About(o.sends, ForMulti(m));
    }
  }

  lemma FireOthers(b: BatchTable, k: Id, m: Id)
    requires k != m
    ensures var o := HandleFire(b, k); SameBatch(b, o.state, m) && About(o.sends, ForMulti(m)) == []
  {
    var o := HandleFire(b, k);
    assert Live(o.state, m) == Live(b, m);
    assert LiveNames(o.state, m) == LiveNames(b, m);
    hide About, Live, LiveNames, Filled, Ordered;
    AboutNone(o.sends, ForMulti(m));
  }

  // ---- Every step, and every run ----

  /** The ids of batches were handed out. */
  ghost predicate BatchIdsUsed(h: Hub) {
    h.batches.fanned.Keys <= h.used && h.batches.subs.Keys <= h.used
  }

  lemma FanOutStep(h: Hub, c: Conn, job: Batch, env: Env, out: seq<Sent>, m: Id)
    requires EnvFits(job, env) && Distinct(env.ids) && (forall id :: id in env.ids ==> id !in h.batches.subs && id !in h.batches.fanned)
    requires BatchOk(h.batches, out, m)
    ensures var o := HandleExecuteMulti(h.batches, h.dir, c, job, env);
      BatchOk(o.state, out + About(o.sends, ForMulti(m)), m)
  {
    var b, o := h.batches, HandleExecuteMulti(h.batches, h.dir, c, job, env);
    var n := |job.targets|;
    assert out + [] == out;
    if job.targets != [] && job.cmd != "" {
      FanOutSends(b, h.dir, c, job, env, n);
      AboutNone(o.sends, ForMulti(m));
      hide FanOutFirst, About;
      if m == env.ids[0] {
        assert job.targets[..n] == job.targets;
        LoopIs(b, h.dir, c, job, env, n);
        LoopHistory(b, h.dir, c, job, env, n);
        hide Live, LiveNames;
      } else {
        LoopKeepsOther(b, h.dir, c, job, env, n, m);
        SameStaysOk(b, o.state, out, m);
      }
    } else {
      AboutNone(o.sends, ForMulti(m));
    }
  }

  lemma {:induction false} LoopHistory(b: BatchTable, d: Directory, c: Conn, job: Batch, env: Env, n: nat)
    requires EnvFits(job, env) && n <= |job.targets|
    ensures var b' := FanOutFirst(b, d, c, job, env, n).state; b'.early == b.early && b'.timers == b.timers && b'.fanned.Keys == b.fanned.Keys + {env.ids[0]}
  {
    if n > 0 { LoopHistory(b, d, c, job, env, n - 1); }
  }

  lemma EventIs(h: Hub, e: Event, m: Id)
    requires Enabled(h, e) && BatchIdsUsed(h) && (forall k :: BatchOk(h.batches, About(h.log, ForMulti(k)), k))
    ensures BatchOk(Next(h, e).batches, About(Next(h, e).log, ForMulti(m)), m)
  {
    var out := About(h.log, ForMulti(m));
    assert BatchOk(h.batches, out, m);
    NextAbout(h, e, ForMulti(m));
    hide BatchOk, About;
    match e
    case Arm(k) => if k == m { ArmStep(h.batches, out, m); } else { ArmOthers(h.batches, k, m); SameStaysOk(h.batches, Next(h, e).batches, out, m); }
    case Fire(k) => if k == m { FireStep(h.batches, out, m); } else { FireOthers(h.batches, k, m); SameStaysOk(h.batches, Next(h, e).batches, out, m); }
    case Arrive(c, message, env) => MessageIs(h, e, out, m);
    case _ =>
  }

  lemma MessageIs(h: Hub, e: Event, out: seq<Sent>, m: Id)
    requires Enabled(h, e) && e.Arrive? && BatchIdsUsed(h) && BatchOk(h.batches, out, m)
    ensures BatchOk(Next(h, e).batches, out + About(Step(h, e).sends, ForMulti(m)), m)
  {
    var g := WithIds(h, e.env);
    hide BatchOk, About, HandleRequests, HandleTunnels, HandlePairing, HandleRegister, HandleDisconnect,
         HandleExecuteMulti, HandleSubResult;
    if OfBatches(g, e.message) && !OfRequests(g, e.message) && !Barred(g, e.conn, e.message) {
      if e.message.ExecuteMulti? {
        FanOutStep(g, e.conn, e.message.batch, e.env, out, m);
      } else if h.batches.subs[e.message.id].multi == m {
        SubResultStep(h.batches, e.message.id, e.message.body, out, m);
      } else {
        SubResultOthers(h.batches, e.message.id, e.message.body, m);
        SameStaysOk(h.batches, Next(h, e).batches, out, m);
        assert out + [] == out;
      }
    } else {
      OtherMessage(g, e.conn, e.message, e.env, m);
      assert out + [] == out;
    }
  }

  lemma OtherMessage(h: Hub, c: Conn, m: Incoming, env: Env, k: Id)
    requires c in h.dir.peers && EnvFor(m, env) && (Barred(h, c, m) || OfRequests(h, m) || !OfBatches(h, m))
    ensures Handle(h, c, m, env).state.batches == h.batches && About(Handle(h, c, m, env).sends, ForMulti(k)) == []
  {
    HandleTags(h, c, m, env);
    hide HandleRequests, HandleBatches, HandlePairing, HandleTunnels, HandleRegister, HandleDisconnect,
         OfPairing, OfBatches, OfRequests, OfTunnels, About;
    AboutNone(Handle(h, c, m, env).sends, ForMulti(k));
  }

  lemma IdsStep(h: Hub, e: Event)
    requires Enabled(h, e) && BatchIdsUsed(h)
    ensures BatchIdsUsed(Next(h, e))
  {
    if e.Arrive? {
      var g := WithIds(h, e.env);
      if OfBatches(g, e.message) {
        R.BatchSubs(g, e.conn, e.message, e.env);
        if e.message.ExecuteMulti? { LoopHistory(g.batches, g.dir, e.conn, e.message.batch, e.env, |e.message.batch.targets|); }
      }
      hide HandleRequests, FanOutFirst, HandlePairing, HandleTunnels, HandleRegister, HandleDisconnect,
           OfPairing, OfTunnels, OfRequests;
    } else {
      hide CloseSends, Filled;
    }
  }

  lemma {:induction false} BatchesAlwaysOk(hubs: seq<Hub>, events: seq<Event>, k: nat)
    requires IsRun(hubs, events) && k < |hubs|
    ensures BatchIdsUsed(hubs[k])
    ensures forall m :: BatchOk(hubs[k].batches, About(hubs[k].log, ForMulti(m)), m)
  {
    hide IsRun, Enabled, Next;
    RunStarts(hubs, events);
    if k > 0 {
      RunSteps(hubs, events, k);
      BatchesAlwaysOk(hubs, events, k - 1);
      hide BatchOk, BatchIdsUsed;
      IdsStep(hubs[k - 1], events[k - 1]);
      forall m ensures BatchOk(hubs[k].batches, About(hubs[k].log, ForMulti(m)), m) {
        EventIs(hubs[k - 1], events[k - 1], m);
      }
    }
  }

  /**
   In every run, however results fall between the fan-out and the storing of the count: a
   batch is open, or has been answered, once, by its client's own id and naming only targets
   of it. While it is open and its count is stored, the count is the number of its live subs
   and failed forwards, and its timer runs, so that it can always be answered.
   */
  lemma AnsweredOnceAndAccounted(hubs: seq<Hub>, events: seq<Event>, k: nat, m: Id)
    requires IsRun(hubs, events) && k < |hubs| && m in hubs[k].batches.fanned
    ensures var b, out := hubs[k].batches, About(hubs[k].log, ForMulti(m));
      && |out| == (if m in b.multis then 0 else 1)
      && (m in b.multis && m !in b.arming ==> b.multis[m].remaining == |Live(b, m)| + b.multis[m].failed > 0 && m in b.timers)
      && (m !in b.multis ==> IsMultiResult(out[0], b.fanned[m]) && Named(out[0]) <= Members(b.fanned[m].order))
  {
    BatchesAlwaysOk(hubs, events, k);
    hide IsRun, About;
    assert BatchOk(hubs[k].batches, About(hubs[k].log, ForMulti(m)), m);
  }

  // ---- Fan-out as one step ----

  /** The count of a batch is always stored directly after its loop. */
  ghost predicate ArmsAtOnce(hubs: seq<Hub>, events: seq<Event>) {
    forall i :: 0 <= i < |events| && i < |hubs| && hubs[i].batches.arming != map[] ==> events[i].Arm?
  }

  lemma EarlyStep(h: Hub, e: Event)
    requires Enabled(h, e)
    ensures Next(h, e).batches.early == h.batches.early || (e.Arrive? && h.batches.arming != map[])
  {
    if e.Arrive? {
      var g := WithIds(h, e.env);
      if e.message.ExecuteMulti? { LoopHistory(g.batches, g.dir, e.conn, e.message.batch, e.env, |e.message.batch.targets|); }
      hide HandleRequests, FanOutFirst, HandlePairing, HandleTunnels, HandleRegister, HandleDisconnect,
           OfPairing, OfTunnels, OfRequests, Ordered;
    } else {
      hide CloseSends, Filled;
    }
  }

  lemma {:induction false} NeverEarly(hubs: seq<Hub>, events: seq<Event>, k: nat)
    requires IsRun(hubs, events) && k < |hubs| && ArmsAtOnce(hubs, events)
    ensures hubs[k].batches.early == {}
  {
    hide IsRun, Enabled, Next;
    RunStarts(hubs, events);
    if k > 0 {
      RunSteps(hubs, events, k);
      NeverEarly(hubs, events, k - 1);
      EarlyStep(hubs[k - 1], events[k - 1]);
    }
  }

  /**
   With fan-out as one step: the reply to a batch names exactly its targets, whether the last
   result or the timer closed it, and no live sub belongs to a batch that is closed.
   */
  lemma AtomicFanOutNamesAllTargets(hubs: seq<Hub>, events: seq<Event>, k: nat, m: Id)
    requires IsRun(hubs, events) && k < |hubs| && ArmsAtOnce(hubs, events)
    ensures var b, out := hubs[k].batches, About(hubs[k].log, ForMulti(m));
      && (m in b.fanned && m !in b.multis ==>
            |out| == 1 && IsMultiResult(out[0], b.fanned[m]) && Named(out[0]) == Members(b.fanned[m].order))
      && (forall s :: s in b.subs ==> b.subs[s].multi in b.multis)
  {
    BatchesAlwaysOk(hubs, events, k);
    NeverEarly(hubs, events, k);
    hide IsRun, About;
    var b := hubs[k].batches;
    assert BatchOk(b, About(hubs[k].log, ForMulti(m)), m);
    forall s | s in b.subs ensures b.subs[s].multi in b.multis {
      var n := b.subs[s].multi;
      assert BatchOk(b, About(hubs[k].log, ForMulti(n)), n);
      assert s in Live(b, n);
    }
  }

  /**
   A result that comes before its batch's count is stored closes the batch at once. The reply
   then names all targets if and only if no other target is still outstanding.
   */
  lemma EarlyResultNamesAllIff(hubs: seq<Hub>, events: seq<Event>, k: nat)
    requires IsRun(hubs, events) && k < |events| && events[k].Arrive? && events[k].message.Result?
    requires var b, id := hubs[k].batches, events[k].message.id;
      id in b.subs && b.subs[id].multi in b.multis && b.subs[id].multi in b.arming
    ensures var b, id := hubs[k].batches, events[k].message.id; var m := b.subs[id].multi; var sends := Step(hubs[k], events[k]).sends;
      && m in b.fanned && |sends| == 1 && IsMultiResult(sends[0], b.fanned[m])
      && (Named(sends[0]) == Members(b.multis[m].order)
          <==> forall n :: n in LiveNames(b, m) ==> n == b.subs[id].target || n in b.multis[m].results)
  {
    RunSteps(hubs, events, k + 1);
    BatchesAlwaysOk(hubs, events, k);
    var h, e := hubs[k], events[k];
    var b, id := h.batches, e.message.id;
    var m := b.subs[id].multi;
    assert BatchOk(b, About(h.log, ForMulti(m)), m);
    var o := HandleSubResult(b, id, e.message.body);
    assert Step(h, e).sends == o.sends;
    hide IsRun, About, Step, Enabled, Next;
    var t := b.multis[m];
    var t' := t.(results := t.results[b.subs[id].target := e.message.body], remaining := t.remaining - 1);
    assert o.sends == [MultiReply(m, t')];
    OrderedNames(t');
    assert t'.results.Keys == t.results.Keys + {b.subs[id].target};
    assert b.subs[id].target in LiveNames(b, m) by { assert id in Live(b, m); }
  }

  function RacingBatch(): Event {
    Arrive(1, ExecuteMulti(Batch("i", ["a", "b"], map["a" := "t", "b" := "t"], "ls", 0)), Env(["m", "r", "s"], [true, true, true]))
  }

  lemma RacingLoop(b: BatchTable, d: Directory) returns (b': BatchTable)
    requires d == Directory({}, map[1 := Peer(true, Up, true, "b", "t")], map["a" := 1, "b" := 1]) && b == Init({}).batches
    ensures b' == HandleExecuteMulti(b, d, 1, RacingBatch().message.batch, RacingBatch().env).state
    ensures b'.subs == map["r" := Sub("m", "a"), "s" := Sub("m", "b")] && b'.arming == map["m" := 2]
    ensures b'.multis == map["m" := Multi(1, "i", map[], ["a", "b"], 0, 0)] && b'.fanned == map["m" := Fanned(1, "i", ["a", "b"])]
  {
    var e := RacingBatch();
    var job := e.message.batch;
    var b0 := FanOutFirst(b, d, 1, job, e.env, 0).state;
    var b1 := FanOutTo(b0, d, "m", job, "a", "r", true).state;
    assert FanOutFirst(b, d, 1, job, e.env, 1).state == b1;
    b' := FanOutTo(b1, d, "m", job, "b", "s", true).state;
    assert FanOutFirst(b, d, 1, job, e.env, 2).state == b';
  }

  /** The hub after the handler of an execute_multi. */
  lemma BatchNext(h: Hub, e: Event) returns (h': Hub)
    requires Enabled(h, e) && e.Arrive? && e.message.ExecuteMulti? && !Barred(h, e.conn, e.message)
    ensures h' == Next(h, e) && h'.used == (h.used + set id | id in e.env.ids) && h'.dir == h.dir
    ensures h'.batches == HandleExecuteMulti(h.batches, h.dir, e.conn, e.message.batch, e.env).state
  {
    hide HandleExecuteMulti;
    h' := Next(h, e);
  }

  lemma RacingStep(h: Hub) returns (h': Hub)
    requires h.dir == Directory({}, map[1 := Peer(true, Up, true, "b", "t")], map["a" := 1, "b" := 1])
    requires h.batches == Init({}).batches && h.used == {"x", "y"}
    ensures Enabled(h, RacingBatch()) && h' == Next(h, RacingBatch()) && h'.dir == h.dir && "z" !in h'.used
    ensures h'.batches.subs == map["r" := Sub("m", "a"), "s" := Sub("m", "b")] && h'.batches.arming == map["m" := 2]
    ensures h'.batches.multis == map["m" := Multi(1, "i", map[], ["a", "b"], 0, 0)]
    ensures h'.batches.fanned == map["m" := Fanned(1, "i", ["a", "b"])]
  {
    hide HandleExecuteMulti;
    var b' := RacingLoop(h.batches, h.dir);
    var e := RacingBatch();
    assert e.env.ids == ["m", "r", "s"] && e.env.oks == [true, true, true] && |e.message.batch.targets| == 2;
    h' := BatchNext(h, e);
  }

  function EarlyResult(): Event {
    Arrive(1, Incoming.Result("r", Body(true, "")), Env(["z"], [true]))
  }

  lemma RacingResult(h: Hub)
    requires h.dir == Directory({}, map[1 := Peer(true, Up, true, "b", "t")], map["a" := 1, "b" := 1]) && "z" !in h.used
    requires h.batches.subs == map["r" := Sub("m", "a"), "s" := Sub("m", "b")]
    requires h.batches.multis == map["m" := Multi(1, "i", map[], ["a", "b"], 0, 0)]
    ensures Enabled(h, EarlyResult())
    ensures Step(h, EarlyResult()).sends == [Tell(1, MultiResult("i", map["a" := Body(true, "")], ""), ForMulti("m"))]
  {
    var o := HandleSubResult(h.batches, "r", Body(true, ""));
    var e := Multi(1, "i", map["a" := Body(true, "")], ["a", "b"], -1, 0);
    assert Ordered(e) == map["a" := Body(true, "")];
    hide Ordered;
    assert o.sends == [MultiReply("m", e)];
    hide HandleSubResult;
  }

  /** A run in which the result of one of two targets comes before the count is stored: the
      reply names that target only. */
  lemma RaceLosesATarget() returns (hubs: seq<Hub>, events: seq<Event>)
    ensures IsRun(hubs, events) && |events| == 5 && hubs[4].batches.fanned == map["m" := Fanned(1, "i", ["a", "b"])]
    ensures Step(hubs[4], events[4]).sends == [Tell(1, MultiResult("i", map["a" := Body(true, "")], ""), ForMulti("m"))]
  {
    var h1, h2, h3 := N.RegisteredTwice();
    var h4 := RacingStep(h3);
    RacingResult(h4);
    var h5 := Next(h4, EarlyResult());
    hubs, events := N.RunOfTwo(h1, h2, h3);
    hide Next, Enabled, Init, Step, RacingBatch, EarlyResult, IsRun;
    RunGoesOn(hubs, events, RacingBatch(), h4);
    hubs, events := hubs + [h4], events + [RacingBatch()];
    RunGoesOn(hubs, events, EarlyResult(), h5);
    hubs, events := hubs + [h5], events + [EarlyResult()];
  }
}
