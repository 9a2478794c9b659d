/**
 A batch from end to end of the hub, in terms of what came in alone: what each target is sent, which
 results count, and so what the one reply says.
 */
module BatchReplies {
  import opened Basics
  import opened Protocol
  import opened RelayModel
  import opened BatchValues
  import C = Forwarding
  import F = FanOut
  import L = LateResults
  import O = Orders
  import Q = WriteQueue
  import R = Requests

  /** The id s was handed out for the target n of batch m, in the loop's turn t. */
  predicate HandsOutFor(e: Event, t: nat, s: Id, m: Id, n: Name) {
    && e.Arrive? && e.message.ExecuteMulti? && EnvFits(e.message.batch, e.env) && t < |e.message.batch.targets|
    && e.env.ids[0] == m && e.env.ids[t + 1] == s && e.message.batch.targets[t] == n
  }

  /** The same, and the command was forwarded. */
  predicate SentFor(h: Hub, e: Event, t: nat, s: Id, m: Id, n: Name) {
    HandsOutFor(e, t, s, m, n) && FansOut(h, e, m) && Unreached(h.dir, e.message.batch, n).None? && e.env.oks[t + 1]
  }

  predicate IsResultFor(e: Event, s: Id) {
    e.Arrive? && e.message.Result? && e.message.id == s
  }

  ghost predicate NoResult(events: seq<Event>, i: nat, k: nat, s: Id)
    requires k <= |events|
  {
    forall j :: i < j < k ==> !IsResultFor(events[j], s)
  }

  // ---- Subs ----

  lemma TurnSubs(b: BatchTable, d: Directory, m: Id, job: Batch, target: Name, sub: Id, ok: bool)
    requires m in b.multis && m in b.arming && sub !in b.subs
    ensures FanOutTo(b, d, m, job, target, sub, ok).state.subs
         == if Unreached(d, job, target).None? && ok then b.subs[sub := Sub(m, target)] else b.subs
  {
    assert b.subs - {sub} == b.subs;
  }

  predicate TurnMade(subs: map<Id, Sub>, d: Directory, job: Batch, env: Env, t: nat)
    requires EnvFits(job, env) && t < |job.targets|
  {
    if Unreached(d, job, job.targets[t]).None? && env.oks[t + 1]
    then env.ids[t + 1] in subs && subs[env.ids[t + 1]] == Sub(env.ids[0], job.targets[t])
    else env.ids[t + 1] !in subs
  }

  /** What the loop makes of subs: one for each turn whose forward went well. */
  ghost predicate LoopMakes(subs: map<Id, Sub>, subs': map<Id, Sub>, d: Directory, job: Batch, env: Env, turns: nat)
    requires EnvFits(job, env) && turns <= |job.targets|
  {
    && (forall s :: s in subs ==> s in subs' && subs'[s] == subs[s])
    && (forall t :: 0 <= t < turns ==> TurnMade(subs', d, job, env, t))
    && (forall s :: s in subs' && s !in subs ==> s in env.ids[1..turns + 1])
  }

  lemma TurnMakes(subs: map<Id, Sub>, before: map<Id, Sub>, after: map<Id, Sub>, d: Directory, job: Batch, env: Env, turns: nat)
    requires EnvFits(job, env) && turns < |job.targets| && Distinct(env.ids) && LoopMakes(subs, before, d, job, env, turns)
    requires env.ids[turns + 1] !in subs && env.ids[turns + 1] !in before
    requires after == if Unreached(d, job, job.targets[turns]).None? && env.oks[turns + 1]
                      then before[env.ids[turns + 1] := Sub(env.ids[0], job.targets[turns])] else before
    ensures LoopMakes(subs, after, d, job, env, turns + 1)
  {
    hide Unreached;
    assert env.ids[1..turns + 2] == env.ids[1..turns + 1] + [env.ids[turns + 1]];
    forall t | 0 <= t < turns + 1 ensures TurnMade(after, d, job, env, t) {
      if t < turns { assert TurnMade(before, d, job, env, t) && env.ids[t + 1] != env.ids[turns + 1]; }
    }
  }

  lemma {:induction false} LoopMakesSubs(b: BatchTable, d: Directory, c: Conn, job: Batch, env: Env, turns: nat)
    requires EnvFits(job, env) && turns <= |job.targets| && Distinct(env.ids) && forall id :: id in env.ids ==> id !in b.subs
    ensures LoopMakes(b.subs, FanOutFirst(b, d, c, job, env, turns).state.subs, d, job, env, turns)
  {
    hide LoopMakes, FanOutTo, Unreached, Distinct;
    if turns > 0 {
      LoopMakesSubs(b, d, c, job, env, turns - 1);
      F.NextIsFresh(b, d, c, job, env, turns - 1);
      var before := FanOutFirst(b, d, c, job, env, turns - 1).state;
      TurnSubs(before, d, env.ids[0], job, job.targets[turns - 1], env.ids[turns], env.oks[turns]);
      assert env.ids[turns] in env.ids;
      TurnMakes(b.subs, before.subs, FanOutFirst(b, d, c, job, env, turns).state.subs, d, job, env, turns - 1);
    } else {
      NothingMade(b.subs, FanOutFirst(b, d, c, job, env, 0).state.subs, d, job, env);
    }
  }

  lemma NothingMade(subs: map<Id, Sub>, subs': map<Id, Sub>, d: Directory, job: Batch, env: Env)
    requires EnvFits(job, env) && subs' == subs
    ensures LoopMakes(subs, subs', d, job, env, 0)
  {
  }

  /** What a step makes of the subs, other than a fan-out: some are taken out. */
  lemma SubsShrink(g: Hub, x: Event)
    requires Enabled(g, x) && !(x.Arrive? && x.message.ExecuteMulti?)
    ensures var subs, subs' := g.batches.subs, Next(g, x).batches.subs;
      && (forall s :: s in subs' ==> s in subs && subs'[s] == subs[s])
      && (forall s :: s in subs && s !in subs' ==> IsResultFor(x, s) || x == Fire(subs[s].multi))
      && (forall s :: IsResultFor(x, s) ==> s !in subs')
  {
    BatchesAre(g, x);
    hide Next, Ordered, Filled;
  }

  lemma SubsGrow(g: Hub, x: Event)
    requires Enabled(g, x) && x.Arrive? && x.message.ExecuteMulti? && F.BatchIdsUsed(g)
    ensures var subs, subs' := g.batches.subs, Next(g, x).batches.subs;
      if FansOut(g, x, x.env.ids[0]) then LoopMakes(subs, subs', g.dir, x.message.batch, x.env, |x.message.batch.targets|)
      else subs' == subs
  {
    BatchesAre(g, x);
    LoopMakesSubs(g.batches, g.dir, x.conn, x.message.batch, x.env, |x.message.batch.targets|);
    hide FanOutFirst, LoopMakes, Next;
  }

  // ---- Every run ----

  /** Whoever is in the table as a sub was sent a command by its batch. */
  lemma {:induction false} SubComesFrom(hubs: seq<Hub>, events: seq<Event>, k: nat, s: Id) returns (i: nat, t: nat)
    requires IsRun(hubs, events) && k < |hubs| && s in hubs[k].batches.subs
    ensures |hubs| == |events| + 1 && i < k && SentFor(hubs[i], events[i], t, s, hubs[k].batches.subs[s].multi, hubs[k].batches.subs[s].target)
  {
    hide IsRun, Enabled, Next, SentFor;
    RunStarts(hubs, events);
    RunSteps(hubs, events, k);
    F.BatchesAlwaysOk(hubs, events, k - 1);
    var g, x := hubs[k - 1], events[k - 1];
    if x.Arrive? && x.message.ExecuteMulti? { SubsGrow(g, x); } else { SubsShrink(g, x); }
    if s in g.batches.subs {
      assert hubs[k].batches.subs[s] == g.batches.subs[s];
      i, t := SubComesFrom(hubs, events, k - 1, s);
    } else {
      i := k - 1;
      t := NewSub(g, x, hubs[k], s);
    }
  }

  lemma NewSub(g: Hub, x: Event, g': Hub, s: Id) returns (t: nat)
    requires Enabled(g, x) && x.Arrive? && x.message.ExecuteMulti? && FansOut(g, x, x.env.ids[0])
    requires LoopMakes(g.batches.subs, g'.batches.subs, g.dir, x.message.batch, x.env, |x.message.batch.targets|)
    requires s in g'.batches.subs && s !in g.batches.subs
    ensures SentFor(g, x, t, s, g'.batches.subs[s].multi, g'.batches.subs[s].target)
  {
    hide Enabled, Unreached;
    var n := |x.message.batch.targets|;
    var u :| 0 <= u < |x.env.ids[1..n + 1]| && x.env.ids[1..n + 1][u] == s;
    t := u;
    assert x.env.ids[t + 1] == s && TurnMade(g'.batches.subs, g.dir, x.message.batch, x.env, t);
  }

  /** While its batch is open, a command that was handed out waits for its result if and only if it
      was forwarded and none has come. */
  ghost predicate LiveIff(h: Hub, e0: Event, sent: bool, none: bool, s: Id, m: Id, n: Name) {
    && m in h.used && s in h.used
    && (m in h.batches.multis ==> (s in h.batches.subs <==> sent && none))
    && (s in h.batches.subs ==> h.batches.subs[s] == Sub(m, n))
  }

  lemma {:induction false} LiveAlways(hubs: seq<Hub>, events: seq<Event>, i: nat, k: nat, t: nat, s: Id, m: Id, n: Name)
    requires IsRun(hubs, events) && i < k < |hubs| && i < |events| && HandsOutFor(events[i], t, s, m, n) && FansOut(hubs[i], events[i], m)
    ensures |hubs| == |events| + 1
    ensures LiveIff(hubs[k], events[i], SentFor(hubs[i], events[i], t, s, m, n), NoResult(events, i, k, s), s, m, n)
  {
    hide IsRun, Enabled, Next, LiveIff, FansOut;
    RunStarts(hubs, events);
    RunSteps(hubs, events, k);
    F.BatchesAlwaysOk(hubs, events, k - 1);
    if k == i + 1 {
      LiveFirst(hubs[i], events[i], t, s, m, n);
    } else {
      LiveAlways(hubs, events, i, k - 1, t, s, m, n);
      LiveStep(hubs[k - 1], events[k - 1], events[i], SentFor(hubs[i], events[i], t, s, m, n), NoResult(events, i, k - 1, s), s, m, n);
    }
  }

  lemma LiveFirst(h: Hub, e: Event, t: nat, s: Id, m: Id, n: Name)
    requires Enabled(h, e) && F.BatchIdsUsed(h) && HandsOutFor(e, t, s, m, n) && FansOut(h, e, m)
    ensures LiveIff(Next(h, e), e, SentFor(h, e, t, s, m, n), true, s, m, n)
  {
    SubsGrow(h, e);
    C.UsedGrows(h, e);
    assert e.env.ids[t + 1] in e.env.ids;
    hide Next, Enabled, Unreached, F.BatchIdsUsed;
    assert TurnMade(Next(h, e).batches.subs, h.dir, e.message.batch, e.env, t);
  }

  lemma LiveStep(g: Hub, x: Event, e0: Event, sent: bool, none: bool, s: Id, m: Id, n: Name)
    requires Enabled(g, x) && F.BatchIdsUsed(g) && LiveIff(g, e0, sent, none, s, m, n)
    ensures LiveIff(Next(g, x), e0, sent, none && !IsResultFor(x, s), s, m, n)
  {
    C.UsedGrows(g, x);
    if m in Next(g, x).batches.multis { OpenBefore(g, x, m); }
    if x.Arrive? && x.message.ExecuteMulti? {
      SubsGrow(g, x);
      assert forall id :: id in x.env.ids ==> id !in g.used;
      assert s !in x.env.ids;
      assert s !in x.env.ids[1..|x.message.batch.targets| + 1];
      hide Next, Unreached, FansOut;
    } else {
      SubsShrink(g, x);
      hide Next;
    }
  }

  /** A batch that is open after a step was open before, unless the step fans it out; and its timer
      has not run. */
  lemma OpenBefore(g: Hub, x: Event, m: Id)
    requires Enabled(g, x) && m in g.used && m in Next(g, x).batches.multis
    ensures m in g.batches.multis && x != Fire(m)
  {
    BatchesAre(g, x);
    if x.Arrive? && x.message.ExecuteMulti? {
      L.LoopKeys(g.batches, g.dir, x.conn, x.message.batch, x.env, |x.message.batch.targets|);
      assert x.env.ids[0] in x.env.ids;
      hide FanOutFirst, Next;
    } else {
      hide Next, Ordered, Filled;
    }
  }

  // ---- Which results count ----

  /**
   Event j is the first result under an id that was handed out for the target n of batch m and under
   which the command was forwarded, and the batch has not been replied to yet.
   */
  ghost predicate CountsFor(hubs: seq<Hub>, events: seq<Event>, j: nat, m: Id, n: Name)
    requires j < |events| <= |hubs|
  {
    && events[j].Arrive? && events[j].message.Result? && About(hubs[j].log, ForMulti(m)) == []
    && exists i: nat, t: nat :: i < j && SentFor(hubs[i], events[i], t, events[j].message.id, m, n) && NoResult(events, i, j, events[j].message.id)
  }

  lemma OpenIff(hubs: seq<Hub>, events: seq<Event>, i: nat, j: nat, m: Id)
    requires IsRun(hubs, events) && i < j < |hubs| && i < |events| && FansOut(hubs[i], events[i], m)
    ensures m in hubs[j].batches.multis <==> About(hubs[j].log, ForMulti(m)) == []
  {
    ValuedAlways(hubs, events, i, j, m);
    hide IsRun, About, FansOut, OpenIs, F.BatchOk;
    F.BatchesAlwaysOk(hubs, events, j);
    assert F.BatchOk(hubs[j].batches, About(hubs[j].log, ForMulti(m)), m);
    OpenHasNoReply(hubs[j].batches, About(hubs[j].log, ForMulti(m)), m);
  }

  lemma OpenHasNoReply(b: BatchTable, out: seq<Sent>, m: Id)
    requires F.BatchOk(b, out, m) && m in b.fanned
    ensures m in b.multis <==> out == []
  {
  }

  /** The results that count are those that the batch takes. */
  lemma CountsIff(hubs: seq<Hub>, events: seq<Event>, j: nat, m: Id, n: Name)
    requires IsRun(hubs, events) && j < |events| <= |hubs|
    ensures CountsFor(hubs, events, j, m, n) <==> Takes(hubs[j], events[j], m, n)
  {
    hide IsRun, About, FansOut, Unreached;
    var s := if events[j].Arrive? && events[j].message.Result? then events[j].message.id else "";
    if Takes(hubs[j], events[j], m, n) {
      var i, t := SubComesFrom(hubs, events, j, s);
      LiveAlways(hubs, events, i, j, t, s, m, n);
      OpenIff(hubs, events, i, j, m);
      hide NoResult;
    }
    if CountsFor(hubs, events, j, m, n) {
      hide NoResult;
      var i: nat, t: nat :| i < j && SentFor(hubs[i], events[i], t, s, m, n) && NoResult(events, i, j, s);
      LiveAlways(hubs, events, i, j, t, s, m, n);
      OpenIff(hubs, events, i, j, m);
    }
  }

  lemma {:induction false} LastCame(hubs: seq<Hub>, events: seq<Event>, k: nat, m: Id, n: Name)
    requires IsRun(hubs, events) && k <= |events| < |hubs|
    ensures (forall j :: 0 <= j < k ==> !CountsFor(hubs, events, j, m, n)) <==> Came(hubs, events, k, m, n).None?
    ensures forall j :: 0 <= j < k && CountsFor(hubs, events, j, m, n) && (forall l :: j < l < k ==> !CountsFor(hubs, events, l, m, n)) ==>
              events[j].message.Result? && Came(hubs, events, k, m, n) == Some(events[j].message.body)
  {
    hide IsRun, CountsFor;
    if k > 0 {
      LastCame(hubs, events, k - 1, m, n);
      CountsIff(hubs, events, k - 1, m, n);
    }
  }

  // ---- The theorems ----

  /** What a reply says of a target of which it has no result. */
  function Excuse(d: Directory, job: Batch, env: Env, n: Name): Body
    requires EnvFits(job, env)
  {
    Body(false, if n !in d.clients then "target not connected"
                else if n !in job.tokens || TokenOf(d, d.clients[n]) != job.tokens[n] then "invalid token"
                else if exists t :: 0 <= t < |job.targets| && job.targets[t] == n && !env.oks[t + 1] then "forward failed"
                else TIMED_OUT)
  }

  /**
   In every run, the one reply to a batch goes to its sender under the sender's own id, and says of
   each name in it: what the last result said, as it came, of those that came in under ids handed
   out for this name, the first under its id and before the reply; and if none did, that it failed,
   and why. A name with such a result, or with a failure from the fan-out, is in the reply.
   */
  lemma ReplySaysWhatCame(hubs: seq<Hub>, events: seq<Event>, i: nat, k: nat, m: Id, n: Name)
    requires IsRun(hubs, events) && i < k < |hubs| && i < |events| && FansOut(hubs[i], events[i], m)
    requires About(hubs[k].log, ForMulti(m)) != []
    ensures |hubs| == |events| + 1
    ensures var e, out := events[i], About(hubs[k].log, ForMulti(m));
      && |out| == 1 && out[0].to == e.conn && out[0].unit.Plain? && out[0].unit.text.MultiResult?
      && out[0].unit.text.id == e.message.batch.id && out[0].unit.text.error == ""
      && var results := out[0].unit.text.results;
         && (forall j :: 0 <= j < k && CountsFor(hubs, events, j, m, n) && (forall l :: j < l < k ==> !CountsFor(hubs, events, l, m, n)) ==>
               events[j].message.Result? && n in results && results[n] == events[j].message.body)
         && ((forall j :: 0 <= j < k ==> !CountsFor(hubs, events, j, m, n)) && n in results ==>
               results[n] == Excuse(hubs[i].dir, e.message.batch, e.env, n))
         && (n in e.message.batch.targets && Excuse(hubs[i].dir, e.message.batch, e.env, n).text != TIMED_OUT ==> n in results)
  {
    hide IsRun, About, CountsFor, Came, FansOut, Excuse, ReplySaysOf;
    RunStarts(hubs, events);
    ReplyAt(hubs, events, i, k, m, n);
    LastCame(hubs, events, k, m, n);
    ReplyOf(About(hubs[k].log, ForMulti(m))[0].unit.text.results, hubs[i], events[i], m, n, Came(hubs, events, k, m, n));
  }

  /** The reply, in terms of what the batch took. */
  lemma ReplyAt(hubs: seq<Hub>, events: seq<Event>, i: nat, k: nat, m: Id, n: Name)
    requires IsRun(hubs, events) && i < k <= |events| < |hubs| && FansOut(hubs[i], events[i], m)
    requires About(hubs[k].log, ForMulti(m)) != []
    ensures var e, out := events[i], About(hubs[k].log, ForMulti(m));
      && |out| == 1 && out[0].to == e.conn && out[0].unit.Plain? && out[0].unit.text.MultiResult?
      && out[0].unit.text.id == e.message.batch.id && out[0].unit.text.error == ""
      && ReplySaysOf(out[0].unit.text.results, hubs[i], e, m, n, Came(hubs, events, k, m, n))
  {
    hide IsRun, About, Came, FansOut, ReplySaysOf, OpenIs;
    ValuedAlways(hubs, events, i, k, m);
    OpenIff(hubs, events, i, k, m);
    var came := CameBy(hubs, events, k, m);
    assert came(n) == Came(hubs, events, k, m, n);
    hide CameBy;
    assert ReplyIs(About(hubs[k].log, ForMulti(m)), hubs[i], events[i], m, came);
  }

  lemma ReplyOf(results: map<Name, Body>, h: Hub, e: Event, m: Id, n: Name, came: Option<Body>)
    requires FansOut(h, e, m) && ReplySaysOf(results, h, e, m, n, came)
    ensures var excuse := Excuse(h.dir, e.message.batch, e.env, n);
      && (came.Some? ==> n in results && results[n] == came.value)
      && (came.None? && n in results ==> results[n] == excuse)
      && (n in e.message.batch.targets && excuse.text != TIMED_OUT ==> n in results)
  {
    ExcuseIs(h.dir, e.message.batch, e.env, n);
    hide Excuse, HasFailed, WhyNot;
  }

  lemma ExcuseIs(d: Directory, job: Batch, env: Env, n: Name)
    requires EnvFits(job, env)
    ensures HasFailed(d, job, env, |job.targets|, n) <==> n in job.targets && Excuse(d, job, env, n).text != TIMED_OUT
    ensures HasFailed(d, job, env, |job.targets|, n) ==> WhyNot(d, job, n) == Excuse(d, job, env, n)
    ensures !HasFailed(d, job, env, |job.targets|, n) && n in job.targets ==> Excuse(d, job, env, n) == Body(false, TIMED_OUT)
  {
    assert job.targets[..|job.targets|] == job.targets;
  }

  // ---- What the targets are sent ----

  /** What the target n is sent, if it is sent anything. */
  function CommandsFor(d: Directory, job: Batch, s: Id, n: Name): seq<Sent> {
    if n in d.clients && n in job.tokens && TokenOf(d, d.clients[n]) == job.tokens[n]
    then [Sent(d.clients[n], Q.Plain(Command(s, Job(job.cmd, job.timeout, false, ""))), ToSub(s))] else []
  }

  lemma TurnSends(b: BatchTable, d: Directory, m: Id, job: Batch, target: Name, sub: Id, ok: bool)
    requires m in b.multis && m in b.arming
    ensures FanOutTo(b, d, m, job, target, sub, ok).sends == CommandsFor(d, job, sub, target)
  {
  }

  /** One more turn of the loop adds what its target is sent. */
  lemma TurnAbout(b: BatchTable, d: Directory, c: Conn, job: Batch, env: Env, turns: nat, s: Id)
    requires EnvFits(job, env) && turns < |job.targets|
    ensures var before := About(FanOutFirst(b, d, c, job, env, turns).sends, ToSub(s));
      About(FanOutFirst(b, d, c, job, env, turns + 1).sends, ToSub(s))
        == before + if s == env.ids[turns + 1] then CommandsFor(d, job, s, job.targets[turns]) else []
  {
    var before, id, target := FanOutFirst(b, d, c, job, env, turns), env.ids[turns + 1], job.targets[turns];
    TurnSends(before.state, d, env.ids[0], job, target, id, env.oks[turns + 1]);
    assert FanOutFirst(b, d, c, job, env, turns + 1).sends == before.sends + CommandsFor(d, job, id, target);
    hide FanOutTo, FanOutFirst, CommandsFor, About;
    AboutConcat(before.sends, CommandsFor(d, job, id, target), ToSub(s));
    CommandsAbout(d, job, id, target, s);
  }

  lemma {:induction false} LoopSendsNothing(b: BatchTable, d: Directory, c: Conn, job: Batch, env: Env, turns: nat, s: Id)
    requires EnvFits(job, env) && turns <= |job.targets| && s !in env.ids[1..turns + 1]
    ensures About(FanOutFirst(b, d, c, job, env, turns).sends, ToSub(s)) == []
  {
    if turns == 0 {
      C.NothingAbout(ToSub(s));
    } else {
      assert env.ids[1..turns + 1] == env.ids[1..turns] + [env.ids[turns]];
      LoopSendsNothing(b, d, c, job, env, turns - 1, s);
      TurnAbout(b, d, c, job, env, turns - 1, s);
      hide FanOutFirst, About;
    }
  }

  lemma {:induction false} LoopSends(b: BatchTable, d: Directory, c: Conn, job: Batch, env: Env, turns: nat, t: nat)
    requires EnvFits(job, env) && t < turns <= |job.targets| && Distinct(env.ids)
    ensures About(FanOutFirst(b, d, c, job, env, turns).sends, ToSub(env.ids[t + 1])) == CommandsFor(d, job, env.ids[t + 1], job.targets[t])
  {
    hide FanOutFirst, About, CommandsFor, Distinct;
    var s := env.ids[t + 1];
    OnlyThere(env.ids, t, turns);
    TurnAbout(b, d, c, job, env, turns - 1, s);
    if turns == t + 1 {
      LoopSendsNothing(b, d, c, job, env, t, s);
    } else {
      LoopSends(b, d, c, job, env, turns - 1, t);
    }
  }

  lemma OnlyThere(ids: seq<Id>, t: nat, turns: nat)
    requires Distinct(ids) && t < turns < |ids|
    ensures ids[t + 1] !in ids[1..t + 1] && (t + 1 < turns ==> ids[t + 1] != ids[turns])
  {
  }

  lemma CommandsAbout(d: Directory, job: Batch, id: Id, n: Name, s: Id)
    ensures About(CommandsFor(d, job, id, n), ToSub(s)) == if s == id then CommandsFor(d, job, id, n) else []
  {
    C.NothingAbout(ToSub(s));
    if CommandsFor(d, job, id, n) != [] { AboutOne(CommandsFor(d, job, id, n)[0], ToSub(s)); }
    hide About;
  }

  /** A step sends under a sub's id only if it hands the id out. */
  lemma OthersSendNothing(g: Hub, x: Event, s: Id)
    requires Enabled(g, x) && !(x.Arrive? && s in x.env.ids)
    ensures About(Step(g, x).sends, ToSub(s)) == []
  {
    hide About;
    if x.Arrive? && x.message.ExecuteMulti? && !Barred(g, x.conn, x.message) {
      FanOutSendsNothing(WithIds(g, x.env), x.conn, x.message.batch, x.env, s);
      hide HandleExecuteMulti;
    } else {
      StepTags(g, x);
      if !OwnTags(g, x, ToSub(s)) || !x.Arrive? {
        hide Step, Enabled;
        AboutNone(Step(g, x).sends, ToSub(s));
      } else {
        ResultSendsNothing(g, x, s);
      }
    }
  }

  lemma ResultSendsNothing(g: Hub, x: Event, s: Id)
    requires Enabled(g, x) && x.Arrive? && (x.message.Result? || Barred(g, x.conn, x.message))
    ensures About(Step(g, x).sends, ToSub(s)) == []
  {
    hide About, Ordered;
    AboutNone(Step(g, x).sends, ToSub(s));
  }

  lemma FanOutSendsNothing(g: Hub, c: Conn, job: Batch, env: Env, s: Id)
    requires EnvFits(job, env) && Distinct(env.ids) && s !in env.ids
    ensures About(HandleExecuteMulti(g.batches, g.dir, c, job, env).sends, ToSub(s)) == []
  {
    LoopSendsNothing(g.batches, g.dir, c, job, env, |job.targets|, s);
    hide About, FanOutFirst;
    if job.targets == [] || job.cmd == "" { AboutNone(HandleExecuteMulti(g.batches, g.dir, c, job, env).sends, ToSub(s)); }
  }

  lemma {:induction false} NothingSentYet(hubs: seq<Hub>, events: seq<Event>, k: nat, s: Id)
    requires IsRun(hubs, events) && k < |hubs| && s !in hubs[k].used
    ensures About(hubs[k].log, ToSub(s)) == []
  {
    hide IsRun, Enabled, Next;
    RunStarts(hubs, events);
    if k > 0 {
      RunSteps(hubs, events, k);
      C.UsedGrows(hubs[k - 1], events[k - 1]);
      NothingSentYet(hubs, events, k - 1, s);
      NextAbout(hubs[k - 1], events[k - 1], ToSub(s));
      OthersSendNothing(hubs[k - 1], events[k - 1], s);
      hide About, Step;
      assert About(hubs[k - 1].log, ToSub(s)) + [] == [];
    }
  }

  lemma SentByFanOut(h: Hub, e: Event, t: nat, s: Id, m: Id, n: Name)
    requires Enabled(h, e) && HandsOutFor(e, t, s, m, n) && FansOut(h, e, m)
    ensures About(Step(h, e).sends, ToSub(s)) == CommandsFor(h.dir, e.message.batch, s, n)
  {
    var g := WithIds(h, e.env);
    LoopSends(g.batches, g.dir, e.conn, e.message.batch, e.env, |e.message.batch.targets|, t);
    hide About, FanOutFirst, CommandsFor;
  }

  /**
   In every run, each target of a batch that is connected and whose token the sender has is sent the
   command, once, under the id that was handed out for it alone; no other is sent anything.
   */
  lemma {:induction false} TargetsAreSent(hubs: seq<Hub>, events: seq<Event>, i: nat, k: nat, t: nat, s: Id, m: Id, n: Name)
    requires IsRun(hubs, events) && i < k < |hubs| && i < |events| && HandsOutFor(events[i], t, s, m, n) && FansOut(hubs[i], events[i], m)
    ensures About(hubs[k].log, ToSub(s)) == CommandsFor(hubs[i].dir, events[i].message.batch, s, n)
    ensures s in hubs[k].used
  {
    hide IsRun, Enabled, Next, FansOut, CommandsFor;
    RunSteps(hubs, events, k);
    var g, x := hubs[k - 1], events[k - 1];
    C.UsedGrows(g, x);
    NextAbout(g, x, ToSub(s));
    assert events[i].env.ids[t + 1] in events[i].env.ids;
    if k == i + 1 {
      HandedOutNew(g, x, s);
      NothingSentYet(hubs, events, i, s);
      SentByFanOut(g, x, t, s, m, n);
      hide About, Step;
      assert [] + CommandsFor(g.dir, x.message.batch, s, n) == CommandsFor(g.dir, x.message.batch, s, n);
    } else {
      TargetsAreSent(hubs, events, i, k - 1, t, s, m, n);
      if x.Arrive? && s in x.env.ids { HandedOutNew(g, x, s); }
      OthersSendNothing(g, x, s);
      hide About, Step;
      assert About(g.log, ToSub(s)) + [] == About(g.log, ToSub(s));
    }
  }

  lemma HandedOutNew(g: Hub, x: Event, s: Id)
    requires Enabled(g, x) && x.Arrive? && s in x.env.ids
    ensures s !in g.used
  {
  }
}
