/** What the other end of a connection can have read, while writes go well and after one fails. */
module QueueReading {
  import opened Basics
  import opened WriteQueue

  /** The units `got` have been written whole, before anything else. */
  ghost predicate Reads<H>(s: State<H>, got: seq<Unit<H>>) {
    got <= s.taken && AllWires(got) <= s.wire
  }

  lemma AllWiresPrefix<H>(a: seq<Unit<H>>, b: seq<Unit<H>>)
    requires a <= b
    ensures AllWires(a) <= AllWires(b)
  {
    var wa := seq(|a|, i requires 0 <= i < |a| => Wires(a[i]));
    var wb := seq(|b|, i requires 0 <= i < |b| => Wires(b[i]));
    FlattenConcat(wa, wb[|a|..]);
    assert wa + wb[|a|..] == wb;
  }

  /** The wire was cut in the unit at position m, or before. */
  ghost predicate CutBy<H>(s: State<H>, m: nat) {
    exists n, k :: 0 <= n <= m && n < |s.taken| && 0 <= k < |Wires(s.taken[n])| && Framed(s.wire, s.taken[..n], s.taken[n], k)
  }

  /** A wire that is cut in the unit at position n is too short for that unit. */
  lemma CutIsShort<H>(s: State<H>, n: nat, k: nat)
    requires n < |s.taken| && k < |Wires(s.taken[n])| && Framed(s.wire, s.taken[..n], s.taken[n], k)
    ensures |s.wire| < |AllWires(s.taken[..n + 1])|
  {
    AllWiresAppend(s.taken[..n], s.taken[n]);
    hide AllWires, Wires;
    assert s.taken[..n + 1] == s.taken[..n] + [s.taken[n]];
  }

  lemma CutLimits<H>(s: State<H>, t: State<H>, got: seq<Unit<H>>, m: nat)
    requires CutBy(s, m) && s.taken <= t.taken && s.wire == t.wire && Reads(t, got)
    ensures |got| <= m && got <= s.taken
  {
    hide AllWires, Wires, Framed;
    var n, k :| 0 <= n <= m && n < |s.taken| && 0 <= k < |Wires(s.taken[n])| && Framed(s.wire, s.taken[..n], s.taken[n], k);
    CutIsShort(s, n, k);
    if |got| > n {
      assert s.taken[..n + 1] == t.taken[..n + 1] == got[..n + 1] <= got;
      AllWiresPrefix(got[..n + 1], got);
    }
  }

  lemma {:induction false} StoppedMeansFailed<H>(states: seq<State<H>>, actions: seq<Action<H>>, k: nat)
    requires IsRunFromStart(states, actions) && k < |states|
    ensures states[k].stopped ==> states[k].failed
  {
    if k > 0 { StoppedMeansFailed(states, actions, k - 1); }
  }

  /** Everything in the pipeline was handed over, and no more of any kind than was. */
  lemma {:induction false} PipelineWasHanded<H(!new)>(states: seq<State<H>>, actions: seq<Action<H>>, k: nat, kind: Unit<H> -> bool)
    requires IsRunFromStart(states, actions) && k < |states|
    ensures forall u :: u in Pipeline(states[k]) ==> u in states[k].calls
    ensures |Only(Pipeline(states[k]), kind)| <= |Only(states[k].calls, kind)|
  {
    if k > 0 {
      var s, a := states[k - 1], actions[k - 1];
      PipelineWasHanded(states, actions, k - 1, kind);
      HandedStep(s, a, kind);
    }
  }

  lemma HandedStep<H>(s: State<H>, a: Action<H>, kind: Unit<H> -> bool)
    requires Enabled(s, a)
    requires |Only(Pipeline(s), kind)| <= |Only(s.calls, kind)| && forall u :: u in Pipeline(s) ==> u in s.calls
    ensures var s' := Next(s, a);
      |Only(Pipeline(s'), kind)| <= |Only(s'.calls, kind)| && forall u :: u in Pipeline(s') ==> u in s'.calls
  {
    hide Only;
    if !Next(s, a).stopped || a.Enqueue? || a.LockSender? || a.LockWriter? {
      if a.Dequeue? {
        assert Pipeline(Next(s, a)) == Pipeline(s);
      } else {
        GrowingStep(s, a, kind);
      }
    } else if a.Dequeue? {
      DroppingStep(s, kind);
    } else {
      assert Pipeline(Next(s, a)) == Pipeline(s);
    }
  }

  /** A unit is handed over, or the writer takes what it holds. */
  lemma GrowingStep<H>(s: State<H>, a: Action<H>, kind: Unit<H> -> bool)
    requires Enabled(s, a) && !a.Dequeue?
    requires |Only(Pipeline(s), kind)| <= |Only(s.calls, kind)| && forall u :: u in Pipeline(s) ==> u in s.calls
    ensures var s' := Next(s, a);
      |Only(Pipeline(s'), kind)| <= |Only(s'.calls, kind)| && forall u :: u in Pipeline(s') ==> u in s'.calls
  {
    hide Only;
    match a
    case Enqueue(u) =>
      assert Pipeline(Next(s, a)) == Pipeline(s) + [u];
      OnlyAppend(s.calls, u, kind);
      OnlyAppend(Pipeline(s), u, kind);
    case LockSender(u) =>
      OnlyAppend(s.calls, u, kind);
      OnlyAppend(s.taken, u, kind);
      OnlyConcat(s.taken, Waiting(s), kind);
      OnlyConcat(s.taken + [u], Waiting(s), kind);
    case LockWriter => assert Pipeline(Next(s, a)) == Pipeline(s);
    case Start => assert Pipeline(Next(s, a)) == Pipeline(s);
    case Close => assert Pipeline(Next(s, a)) == Pipeline(s);
    case Write(_) => assert Pipeline(Next(s, a)) == Pipeline(s);
    case Unlock => assert Pipeline(Next(s, a)) == Pipeline(s);
  }

  /** A stopped writer throws a unit away. */
  lemma DroppingStep<H>(s: State<H>, kind: Unit<H> -> bool)
    requires Enabled(s, Dequeue) && s.stopped
    requires |Only(Pipeline(s), kind)| <= |Only(s.calls, kind)| && forall u :: u in Pipeline(s) ==> u in s.calls
    ensures var s' := Next(s, Dequeue);
      |Only(Pipeline(s'), kind)| <= |Only(s'.calls, kind)| && forall u :: u in Pipeline(s') ==> u in s'.calls
  {
    hide Only;
    var s' := Next(s, Dequeue);
    assert Pipeline(s) == s.taken + ([s.queue[0]] + s.queue[1..]) && Pipeline(s') == s.taken + s.queue[1..];
    OnlyConcat(s.taken, [s.queue[0]] + s.queue[1..], kind);
    OnlyConcat([s.queue[0]], s.queue[1..], kind);
    OnlyConcat(s.taken, s.queue[1..], kind);
  }

  lemma PrefixOfKind<H>(a: seq<Unit<H>>, b: seq<Unit<H>>, kind: Unit<H> -> bool)
    requires a <= b
    ensures Only(a, kind) <= Only(b, kind)
  {
    OnlyConcat(a, b[|a|..], kind);
    assert a + b[|a|..] == b;
  }

  /** Whatever fails: what the other end has read of a kind is the start of what was handed over
      of it, in order, if no sender ever went past the queue while a unit of the kind waited. */
  lemma {:induction false} ReadInOrder<H(!new)>(states: seq<State<H>>, actions: seq<Action<H>>, k: nat, kind: Unit<H> -> bool, got: seq<Unit<H>>)
    requires IsRunFromStart(states, actions) && k < |states| && !EverOvertakes(states, actions, k, kind) && Reads(states[k], got)
    ensures Only(got, kind) <= Only(states[k].calls, kind)
  {
    var t := states[k];
    if !t.stopped {
      InOrderWithoutOvertaking(states, actions, k, kind);
      hide Only, IsRunFromStart, EverOvertakes;
      PrefixOfKind(got, Pipeline(t), kind);
    } else {
      var s := states[k - 1];
      StoppedReads(states, actions, k, got);
      ReadInOrder(states, actions, k - 1, kind, got);
      hide Only;
      PrefixOfKind(s.calls, t.calls, kind);
    }
  }

  /** Once the writer has stopped nothing more is read. */
  lemma StoppedReads<H>(states: seq<State<H>>, actions: seq<Action<H>>, k: nat, got: seq<Unit<H>>)
    requires IsRunFromStart(states, actions) && k < |states| && states[k].stopped && Reads(states[k], got)
    ensures k > 0 && Reads(states[k - 1], got) && states[k - 1].calls <= states[k].calls
  {
    StoppedMeansFailed(states, actions, k - 1);
    AdjacentAlways(states, actions, k - 1);
    var s, t := states[k - 1], states[k];
    hide AllWires, Framed, Wires, WireInOrder;
    if s.stopped {
      assert CutBy(s, |s.taken|);
      FailedStep(s, actions[k - 1]);
      CutLimits(s, t, got, |s.taken|);
    }
    hide WireCut, CutBy;
    CallsGrow(s, actions[k - 1]);
  }

  lemma CallsGrow<H>(s: State<H>, a: Action<H>)
    requires Enabled(s, a)
    ensures s.calls <= Next(s, a).calls
    ensures Next(s, a).stopped && !s.stopped ==> Next(s, a).taken == s.taken && Next(s, a).wire == s.wire
  {
    hide Wires;
  }

  // ---- Failed sends ----

  /** The mutex is held from action i, which took it for u, up to state k. */
  ghost predicate HeldFor<H>(states: seq<State<H>>, i: nat, k: nat, u: Unit<H>)
    requires i < |states| && k < |states|
  {
    states[k].lock.Held? && states[k].lock.unit == u && states[k].taken == states[i].taken + [u]
  }

  lemma {:induction false} HeldThrough<H>(states: seq<State<H>>, actions: seq<Action<H>>, i: nat, k: nat, u: Unit<H>)
    requires IsRun(states, actions) && i < k <= |actions| && actions[i] == LockSender(u)
    requires forall x :: i < x < k ==> actions[x] != Unlock
    ensures HeldFor(states, i, k, u)
  {
    if k > i + 1 { HeldThrough(states, actions, i, k - 1, u); }
  }

  /** A sender's call for u in which a write failed. */
  ghost predicate SendFailed<H>(states: seq<State<H>>, actions: seq<Action<H>>, k: nat, u: Unit<H>)
    requires k <= |actions|
  {
    exists i, w :: 0 <= i < w < k && actions[i] == LockSender(u) && actions[w] == Write(false) && NotUnlocked(actions, i, w)
  }

  ghost predicate NotUnlocked<H>(actions: seq<Action<H>>, i: nat, w: nat)
    requires w <= |actions|
  {
    forall x :: i < x < w ==> actions[x] != Unlock
  }

  lemma {:induction false} CutStays<H>(states: seq<State<H>>, actions: seq<Action<H>>, w: nat, k: nat, m: nat)
    requires IsRun(states, actions) && w <= k <= |actions| && states[w].failed && CutBy(states[w], m)
    ensures states[k].failed && CutBy(states[k], m) && states[w].taken <= states[k].taken && states[w].wire == states[k].wire
  {
    hide CutBy, Next, Enabled;
    if k > w {
      CutStays(states, actions, w, k - 1, m);
      FailedStep(states[k - 1], actions[k - 1]);
      CutGrows(states[k - 1], states[k], m);
    }
  }

  lemma FailedStep<H>(s: State<H>, a: Action<H>)
    requires Enabled(s, a) && s.failed
    ensures Next(s, a).failed && s.taken <= Next(s, a).taken && s.wire == Next(s, a).wire
  {
    hide Wires;
  }

  lemma CutGrows<H>(s: State<H>, t: State<H>, m: nat)
    requires CutBy(s, m) && s.taken <= t.taken && s.wire == t.wire
    ensures CutBy(t, m)
  {
    hide AllWires, Wires, Framed;
    var n, k :| 0 <= n <= m && n < |s.taken| && 0 <= k < |Wires(s.taken[n])| && Framed(s.wire, s.taken[..n], s.taken[n], k);
    assert t.taken[..n] == s.taken[..n] && t.taken[n] == s.taken[n];
    assert Framed(t.wire, t.taken[..n], t.taken[n], k);
  }

  lemma FailedSendCuts<H>(states: seq<State<H>>, actions: seq<Action<H>>, i: nat, w: nat, k: nat, u: Unit<H>, got: seq<Unit<H>>)
    requires IsRunFromStart(states, actions) && i < w < k <= |actions| && actions[i] == LockSender(u) && actions[w] == Write(false)
    requires NotUnlocked(actions, i, w) && Reads(states[k], got)
    ensures |got| <= |states[i].taken| && states[i].taken + [u] <= states[k].taken
  {
    HeldThrough(states, actions, i, w, u);
    AdjacentAlways(states, actions, w + 1);
    var m := |states[i].taken|;
    assert states[w + 1].failed && states[w + 1].taken == states[i].taken + [u];
    assert CutBy(states[w + 1], m) by {
      hide AllWires, Wires, Framed;
      assert WireCut(states[w + 1]);
    }
    CutStays(states, actions, w + 1, k, m);
    hide AllWires, CutBy, IsRun;
    CutLimits(states[w + 1], states[k], got, m);
  }

  /** If a sender's call for a unit of a kind failed, not all that was handed over of the kind
      has been read. */
  lemma FailedSendIsNotRead<H(!new)>(states: seq<State<H>>, actions: seq<Action<H>>, k: nat, u: Unit<H>, kind: Unit<H> -> bool, got: seq<Unit<H>>)
    requires IsRunFromStart(states, actions) && k <= |actions| && SendFailed(states, actions, k, u) && kind(u) && Reads(states[k], got)
    ensures |Only(got, kind)| < |Only(states[k].calls, kind)|
  {
    var i, w :| 0 <= i < w < k && actions[i] == LockSender(u) && actions[w] == Write(false) && NotUnlocked(actions, i, w);
    FailedSendCuts(states, actions, i, w, k, u, got);
    PipelineWasHanded(states, actions, k, kind);
    hide Only, IsRunFromStart, SendFailed;
    var before, t := states[i].taken, states[k];
    PrefixOfKind(got, before, kind);
    OnlyAppend(before, u, kind);
    PrefixOfKind(before + [u], t.taken, kind);
    PrefixOfKind(t.taken, Pipeline(t), kind);
  }

  /** A sender's call that queued u when the writer had stopped: such a call reports an error. */
  ghost predicate QueuedTooLate<H>(states: seq<State<H>>, actions: seq<Action<H>>, k: nat, u: Unit<H>)
    requires k <= |actions| && |states| == |actions| + 1
  {
    exists i :: 0 <= i < k && actions[i] == Enqueue(u) && states[i].stopped
  }

  lemma {:induction false} StoppedHoldsNothing<H>(states: seq<State<H>>, actions: seq<Action<H>>, k: nat)
    requires IsRunFromStart(states, actions) && k < |states|
    ensures states[k].stopped || (states[k].lock.Held? && states[k].lock.owner.WriterThread?) ==> states[k].hand.None?
  {
    if k > 0 { StoppedHoldsNothing(states, actions, k - 1); }
  }

  /** A stopped writer takes nothing more. */
  lemma StoppedStep<H>(s: State<H>, a: Action<H>, kind: Unit<H> -> bool)
    requires Enabled(s, a) && s.stopped && s.hand.None?
    ensures var s' := Next(s, a);
      && s'.stopped && s'.hand.None?
      && |Only(s'.calls, kind)| - |Only(s'.taken, kind)| >= |Only(s.calls, kind)| - |Only(s.taken, kind)|
      && (a.Enqueue? && kind(a.unit) ==> |Only(s'.calls, kind)| == |Only(s.calls, kind)| + 1 && s'.taken == s.taken)
  {
    hide Only;
    if a.Enqueue? || a.LockSender? {
      OnlyAppend(s.calls, a.unit, kind);
      OnlyAppend(s.taken, a.unit, kind);
    }
  }

  lemma {:induction false} NeverCatchesUp<H(!new)>(states: seq<State<H>>, actions: seq<Action<H>>, i: nat, k: nat, u: Unit<H>, kind: Unit<H> -> bool)
    requires IsRunFromStart(states, actions) && i < k <= |actions| && actions[i] == Enqueue(u) && states[i].stopped && kind(u)
    ensures states[k].stopped && states[k].hand.None? && |Only(states[k].taken, kind)| < |Only(states[k].calls, kind)|
  {
    if k == i + 1 {
      StoppedHoldsNothing(states, actions, i);
      PipelineWasHanded(states, actions, i, kind);
      hide Only;
      PrefixOfKind(states[i].taken, Pipeline(states[i]), kind);
      StoppedStep(states[i], actions[i], kind);
    } else {
      NeverCatchesUp(states, actions, i, k - 1, u, kind);
      hide Only, Next, Enabled;
      StoppedStep(states[k - 1], actions[k - 1], kind);
    }
  }

  /** If a unit of a kind was queued when the writer had stopped, not all that was handed over of
      the kind has been read. */
  lemma QueuedTooLateIsNotRead<H(!new)>(states: seq<State<H>>, actions: seq<Action<H>>, k: nat, u: Unit<H>, kind: Unit<H> -> bool, got: seq<Unit<H>>)
    requires IsRunFromStart(states, actions) && k <= |actions| && QueuedTooLate(states, actions, k, u) && kind(u) && Reads(states[k], got)
    ensures |Only(got, kind)| < |Only(states[k].calls, kind)|
  {
    var i :| 0 <= i < k && actions[i] == Enqueue(u) && states[i].stopped;
    NeverCatchesUp(states, actions, i, k, u, kind);
    hide Only, IsRunFromStart;
    PrefixOfKind(got, states[k].taken, kind);
  }
}
