/**
 Pairing: what becomes of each pair_listen. The handler that rejects a peer for its key takes the
 listener out and puts it back under a second lock, and others take their turns in between.
 */
module Pairing {
  import opened Basics
  import opened Protocol
  import opened RelayModel
  import N = Names
  import O = Orders
  import Q = WriteQueue
  import S = Scenes

  /** The pair_listen messages that the hub took, in order. */
  function Listens(hubs: seq<Hub>, events: seq<Event>, k: nat): seq<Listen>
    requires k <= |events| <= |hubs|
  {
    if k == 0 then []
    else
      var h, e := hubs[k - 1], events[k - 1];
      Listens(hubs, events, k - 1) + if Listening(h, e) then [Listen(e.message.code, e.conn)] else []
  }

  predicate Listening(h: Hub, e: Event) {
    e.Arrive? && e.message.PairListen? && e.message.code != "" && e.conn in h.dir.peers && h.dir.peers[e.conn].authenticated
  }

  /** The number of the newest pair_listen for a code. */
  function Newest(listens: seq<Listen>, code: Code): (s: Option<nat>)
    ensures s.Some? ==> s.value < |listens| && listens[s.value].code == code
    ensures s.Some? ==> forall j :: s.value < j < |listens| ==> listens[j].code != code
    ensures s.None? ==> forall j :: 0 <= j < |listens| ==> listens[j].code != code
  {
    if listens == [] then None
    else if listens[|listens| - 1].code == code then Some(|listens| - 1)
    else Newest(listens[..|listens| - 1], code)
  }

  lemma NewestAppend(listens: seq<Listen>, l: Listen, code: Code)
    ensures Newest(listens + [l], code) == if l.code == code then Some(|listens|) else Newest(listens, code)
  {
    assert (listens + [l])[..|listens|] == listens;
  }

  predicate IsPairDone(s: Sent, l: Listen) {
    s.to == l.conn && s.unit.Plain? && s.unit.text.PairDone? && s.unit.text.code == l.code
  }

  /** A peer that hands over a code for which someone waits. */
  predicate Takes(h: Hub, e: Event, code: Code) {
    e.Arrive? && e.message.Pair? && e.message.code == code != "" && e.message.token != "" && code in h.pairing.listeners
  }

  /** The same, with a key if one is required; and without. */
  predicate Pairs(h: Hub, e: Event, code: Code) {
    Takes(h, e, code) && (h.pairing.listeners[code].requireKey ==> e.message.keyValid)
  }

  predicate Rejects(h: Hub, e: Event, code: Code) {
    Takes(h, e, code) && h.pairing.listeners[code].requireKey && !e.message.keyValid
  }

  /** The end of a connection that had registered. */
  predicate Cuts(h: Hub, e: Event, c: Conn) {
    e.Down? && e.conn == c && c in h.dir.peers && h.dir.peers[c].registered
  }

  // ---- One step ----

  /** What a step does to the listeners. */
  datatype Turn =
    | Listened(code: Code, listener: Listener)
    | TakenOut(code: Code)
    | TakenInHand(code: Code, holder: Id)
    | PutIn(holder: Id)
    | CutOff(conn: Conn)
    | Nothing

  function MessageTurn(p: PairTable, c: Conn, m: Incoming, holder: Id): Turn {
    if m.PairListen? && m.code != "" then Listened(m.code, Listener(c, m.requireKey, |p.listens|))
    else if m.Pair? && m.code != "" && m.token != "" && m.code in p.listeners then
      if p.listeners[m.code].requireKey && !m.keyValid then TakenInHand(m.code, holder) else TakenOut(m.code)
    else Nothing
  }

  ghost function TurnOf(h: Hub, e: Event): Turn
    requires Enabled(h, e)
  {
    match e
    case Arrive(c, m, env) => if OfPairing(m) && !Barred(h, c, m) then MessageTurn(h.pairing, c, m, env.ids[0]) else Nothing
    case PutBack(holder) => PutIn(holder)
    case Down(c, _) => if Cuts(h, e, c) then CutOff(c) else Nothing
    case _ => Nothing
  }

  predicate CanTurn(p: PairTable, turn: Turn) {
    match turn
    case Listened(_, l) => l.stamp == |p.listens|
    case TakenOut(code) => code in p.listeners
    case TakenInHand(code, holder) => code in p.listeners && holder !in p.held
    case PutIn(holder) => holder in p.held
    case CutOff(_) => true
    case Nothing => true
  }

  function Turned(p: PairTable, turn: Turn): PairTable
    requires CanTurn(p, turn)
  {
    match turn
    case Listened(code, l) => p.(listeners := p.listeners[code := l], listens := p.listens + [Listen(code, l.conn)])
    case TakenOut(code) => p.(listeners := p.listeners - {code})
    case TakenInHand(code, holder) => p.(listeners := p.listeners - {code}, held := p.held[holder := Held(code, p.listeners[code])])
    case PutIn(holder) => HandlePutBack(p, holder)
    case CutOff(c) => ForgetListeners(p, c)
    case Nothing => p
  }

  /** What one step sends to the listener numbered `stamp`. */
  ghost predicate Answers(h: Hub, e: Event, out: seq<Sent>, stamp: nat) {
    if e.Arrive? && e.message.Pair? && Pairs(h, e, e.message.code) && h.pairing.listeners[e.message.code].stamp == stamp then
      |out| == 1 && IsPairDone(out[0], Listen(e.message.code, h.pairing.listeners[e.message.code].conn))
    else out == []
  }

  /** What the handler of a pair message sends. */
  lemma PairSends(h: Hub, c: Conn, m: Incoming, env: Env)
    requires EnvFor(m, env) && m.Pair?
    ensures var sends, p := HandlePairing(h, c, m, env).sends, h.pairing;
      if m.code != "" && m.token != "" && m.code in p.listeners && (p.listeners[m.code].requireKey ==> m.keyValid) then
        var l := p.listeners[m.code];
        && |sends| == 2 && sends[0].to == l.conn && sends[0].unit == Q.Plain(PairDone(m.code, m.token, m.hostname))
        && sends[0].why == ForListener(l.stamp) && sends[1].why == Direct
      else forall s :: s in sends ==> s.why == Direct
  {
  }

  lemma PairAnswers(h: Hub, c: Conn, m: Incoming, env: Env, stamp: nat)
    requires c in h.dir.peers && EnvFor(m, env) && m.Pair?
    ensures var o := HandlePairing(h, c, m, env); Answers(h, Arrive(c, m, env), About(o.sends, ForListener(stamp)), stamp)
  {
    hide About, HandlePairing;
    var o := HandlePairing(h, c, m, env);
    PairSends(h, c, m, env);
    if Pairs(h, Arrive(c, m, env), m.code) {
      AboutTwo(o.sends[0], o.sends[1], ForListener(stamp));
      assert o.sends == [o.sends[0], o.sends[1]];
    } else {
      AboutNone(o.sends, ForListener(stamp));
    }
  }

  lemma EventAnswers(h: Hub, e: Event, stamp: nat)
    requires Enabled(h, e)
    ensures Answers(h, e, About(Step(h, e).sends, ForListener(stamp)), stamp)
  {
    hide About, FindTarget, HandleRequests, HandleBatches, HandleTunnels, HandlePairing, HandleRegister,
         HandleDisconnect;
    if e.Arrive? && e.message.Pair? {
      PairAnswers(WithIds(h, e.env), e.conn, e.message, e.env, stamp);
    } else {
      StepTags(h, e);
      if e.Arrive? && e.message.PairListen? {
        ListenSendsNone(h, e, stamp);
      } else {
        hide Step, Enabled;
        AboutNone(Step(h, e).sends, ForListener(stamp));
      }
    }
  }

  lemma ListenSendsNone(h: Hub, e: Event, stamp: nat)
    requires Enabled(h, e) && e.Arrive? && e.message.PairListen?
    ensures About(Step(h, e).sends, ForListener(stamp)) == []
  {
    hide About;
    AboutNone(Step(h, e).sends, ForListener(stamp));
  }

  /** What a message makes of the listeners. */
  lemma MessageIs(h: Hub, c: Conn, m: Incoming, env: Env)
    requires c in h.dir.peers && EnvFor(m, env)
    ensures Handle(h, c, m, env).state.pairing ==
              if OfPairing(m) && !Barred(h, c, m) then HandlePairing(h, c, m, env).state else h.pairing
  {
    hide HandleRequests, HandleBatches, HandlePairing, HandleTunnels, HandleRegister, HandleDisconnect;
  }

  lemma PairingTurns(h: Hub, c: Conn, m: Incoming, env: Env)
    requires EnvFor(m, env) && OfPairing(m) && env.ids[0] !in h.pairing.held
    ensures var turn := MessageTurn(h.pairing, c, m, env.ids[0]);
      CanTurn(h.pairing, turn) && HandlePairing(h, c, m, env).state == Turned(h.pairing, turn)
  {
  }

  lemma EventIs(h: Hub, e: Event)
    requires Enabled(h, e) && h.pairing.held.Keys <= h.used
    ensures CanTurn(h.pairing, TurnOf(h, e)) && Next(h, e).pairing == Turned(h.pairing, TurnOf(h, e))
  {
    hide Handle, HandlePairing, HandleArm, HandleFire, CloseSends, SeverTunnels, ForgetRequests, ReleaseName, ForgetListeners;
    if e.Arrive? {
      var g := WithIds(h, e.env);
      MessageIs(g, e.conn, e.message, e.env);
      if OfPairing(e.message) {
        assert e.env.ids[0] in e.env.ids;
        PairingTurns(g, e.conn, e.message, e.env);
      }
    }
  }

  /** The hub takes a pair_listen exactly if its turn says so. */
  lemma ListeningIs(h: Hub, e: Event)
    requires Enabled(h, e)
    ensures Listening(h, e) <==> TurnOf(h, e).Listened?
    ensures Listening(h, e) ==> TurnOf(h, e) == Listened(e.message.code, Listener(e.conn, e.message.requireKey, |h.pairing.listens|))
  {
  }

  // ---- Where a listener is ----

  /** The pair_listen numbered s waits in the table. */
  ghost predicate Waits(p: PairTable, s: nat) {
    s < |p.listens| && p.listens[s].code in p.listeners && p.listeners[p.listens[s].code].stamp == s
  }

  /** The handler of a rejected peer holds it. */
  ghost predicate InHand(p: PairTable, s: nat) {
    exists id :: id in p.held && p.held[id].listener.stamp == s
  }

  ghost predicate Answered(h: Hub, s: nat) {
    About(h.log, ForListener(s)) != []
  }

  /** A step that drops s from the table: another pair_listen for its code, an older listener that
      is put back over it, or the end of its connection. */
  ghost predicate Drops(h: Hub, e: Event, s: nat) {
    && Waits(h.pairing, s)
    && var l := h.pairing.listens[s];
       || (Listening(h, e) && e.message.code == l.code)
       || (e.PutBack? && e.holder in h.pairing.held && h.pairing.held[e.holder].code == l.code)
       || Cuts(h, e, l.conn)
  }

  ghost predicate Dropped(hubs: seq<Hub>, events: seq<Event>, k: nat, s: nat)
    requires k <= |events| <= |hubs|
  {
    exists j :: 0 <= j < k && Drops(hubs[j], events[j], s)
  }

  predicate IsListen(p: PairTable, code: Code, l: Listener) {
    l.stamp < |p.listens| && p.listens[l.stamp] == Listen(code, l.conn)
  }

  /** What is in the table, or held, is a pair_listen, and no two are the same. */
  ghost predicate TableIsOwn(p: PairTable) {
    && (forall code :: code in p.listeners ==> IsListen(p, code, p.listeners[code]))
    && (forall id :: id in p.held ==> IsListen(p, p.held[id].code, p.held[id].listener))
    && (forall id, code :: id in p.held && code in p.listeners ==> p.held[id].listener.stamp != p.listeners[code].stamp)
    && (forall i, j :: i in p.held && j in p.held && i != j ==> p.held[i].listener.stamp != p.held[j].listener.stamp)
  }

  lemma TurnKeepsTable(p: PairTable, turn: Turn)
    requires TableIsOwn(p) && CanTurn(p, turn)
    ensures TableIsOwn(Turned(p, turn))
  {
  }

  /** What a turn makes of the listener s, in the table and out of it. */
  lemma TableMoves(p: PairTable, turn: Turn, s: nat)
    requires TableIsOwn(p) && CanTurn(p, turn) && s < |p.listens|
    ensures var p' := Turned(p, turn);
      && |p.listens| <= |p'.listens| && p'.listens[s] == p.listens[s]
      && (Waits(p', s) <==>
            if Waits(p, s) then !LeavesTable(p, turn, s) else turn.PutIn? && p.held[turn.holder].listener.stamp == s)
  {
  }

  lemma HandMoves(p: PairTable, turn: Turn, s: nat)
    requires TableIsOwn(p) && CanTurn(p, turn) && s < |p.listens|
    ensures InHand(Turned(p, turn), s) <==>
              if InHand(p, s) then !(turn.PutIn? && p.held[turn.holder].listener.stamp == s)
              else turn.TakenInHand? && p.listeners[turn.code].stamp == s
  {
    var p' := Turned(p, turn);
    if InHand(p, s) {
      var id :| id in p.held && p.held[id].listener.stamp == s;
      assert id in p'.held ==> p'.held[id].listener.stamp == s;
    } else if turn.TakenInHand? {
      assert p'.held[turn.holder].listener == p.listeners[turn.code];
    }
  }

  ghost predicate LeavesTable(p: PairTable, turn: Turn, s: nat)
    requires s < |p.listens|
  {
    match turn
    case Listened(code, _) => code == p.listens[s].code
    case TakenOut(code) => code == p.listens[s].code
    case TakenInHand(code, _) => code == p.listens[s].code
    case PutIn(holder) => holder in p.held && p.held[holder].code == p.listens[s].code
    case CutOff(c) => c == p.listens[s].conn
    case Nothing => false
  }

  /** A new listener waits at once. */
  lemma NewListenerWaits(p: PairTable, turn: Turn)
    requires TableIsOwn(p) && CanTurn(p, turn)
    ensures var p', n := Turned(p, turn), |p.listens|;
      if turn.Listened? then |p'.listens| == n + 1 && Waits(p', n) && !InHand(p', n) else p'.listens == p.listens
  {
  }

  // ---- Every run ----

  /** A listener that was answered was so once, with its own code to its own connection, and is
      neither in the table nor held. */
  ghost predicate AnsweredOnce(h: Hub, s: nat) {
    var out, p := About(h.log, ForListener(s)), h.pairing;
    |out| <= 1 && (out != [] ==> s < |p.listens| && IsPairDone(out[0], p.listens[s]) && !Waits(p, s) && !InHand(p, s))
  }

  ghost predicate PairingOk(h: Hub) {
    TableIsOwn(h.pairing) && h.pairing.held.Keys <= h.used && forall s: nat :: AnsweredOnce(h, s)
  }

  lemma UsedStep(h: Hub, e: Event)
    requires Enabled(h, e) && h.pairing.held.Keys <= h.used
    ensures Next(h, e).pairing.held.Keys <= Next(h, e).used
  {
    hide Next, Enabled, Handle, Turned;
    EventIs(h, e);
    UsedGrows(h, e);
    HeldAfter(h.pairing, TurnOf(h, e));
    assert e.Arrive? ==> forall id :: id in e.env.ids ==> id in Next(h, e).used;
  }

  lemma HeldAfter(p: PairTable, turn: Turn)
    requires CanTurn(p, turn)
    ensures Turned(p, turn).held.Keys <= p.held.Keys + if turn.TakenInHand? then {turn.holder} else {}
  {
  }

  lemma UsedGrows(h: Hub, e: Event)
    requires Enabled(h, e)
    ensures h.used <= Next(h, e).used && (e.Arrive? ==> forall id :: id in e.env.ids ==> id in Next(h, e).used)
    ensures e.Arrive? && OfPairing(e.message) ==> |e.env.ids| == 1
  {
    hide HandleRequests, HandleBatches, HandlePairing, HandleTunnels, HandleRegister, HandleDisconnect,
         HandleArm, HandleFire, CloseSends, HandlePutBack;
  }

  /** A peer that pairs takes the one that waits out, and it is answered. */
  lemma AnswerIs(h: Hub, e: Event, s: nat)
    requires Enabled(h, e) && TableIsOwn(h.pairing) && h.pairing.held.Keys <= h.used
    ensures var more, p := About(Step(h, e).sends, ForListener(s)), h.pairing;
      if s < |p.listens| && Waits(p, s) && TurnOf(h, e) == TakenOut(p.listens[s].code) then |more| == 1 && IsPairDone(more[0], p.listens[s])
      else more == []
  {
    EventAnswers(h, e, s);
    hide Next, Step, About;
  }

  lemma AnsweredStep(h: Hub, e: Event, s: nat)
    requires Enabled(h, e) && TableIsOwn(h.pairing) && h.pairing.held.Keys <= h.used && AnsweredOnce(h, s)
    ensures AnsweredOnce(Next(h, e), s)
  {
    var p, turn := h.pairing, TurnOf(h, e);
    EventIs(h, e);
    AnswerIs(h, e, s);
    NextAbout(h, e, ForListener(s));
    if s < |p.listens| {
      TableMoves(p, turn, s);
      HandMoves(p, turn, s);
      OneOf(p, s);
    }
    hide Next, Step, About, Enabled, TurnOf, Turned;
  }

  /** What a taken listener is: the one that waits for its code. */
  lemma OneOf(p: PairTable, s: nat)
    requires TableIsOwn(p) && s < |p.listens|
    ensures !(Waits(p, s) && InHand(p, s))
    ensures forall code :: code in p.listeners && p.listeners[code].stamp == s ==> Waits(p, s)
    ensures forall id :: id in p.held && p.held[id].listener.stamp == s ==> InHand(p, s)
  {
  }

  lemma {:induction false} PairingAlways(hubs: seq<Hub>, events: seq<Event>, k: nat)
    requires IsRun(hubs, events) && k < |hubs|
    ensures PairingOk(hubs[k]) && hubs[k].pairing.listens == Listens(hubs, events, k)
  {
    hide IsRun, Enabled, Next;
    RunStarts(hubs, events);
    if k > 0 {
      RunSteps(hubs, events, k);
      PairingAlways(hubs, events, k - 1);
      var h, e := hubs[k - 1], events[k - 1];
      EventIs(h, e);
      UsedStep(h, e);
      ListeningIs(h, e);
      hide AnsweredOnce, Listening, TurnOf, TableIsOwn;
      TurnKeepsTable(h.pairing, TurnOf(h, e));
      NewListenerWaits(h.pairing, TurnOf(h, e));
      forall s: nat ensures AnsweredOnce(hubs[k], s) { AnsweredStep(h, e, s); }
    }
  }

  // ---- Where a listener is, in every run ----

  ghost predicate Present(h: Hub, s: nat) {
    Waits(h.pairing, s) || InHand(h.pairing, s) || Answered(h, s)
  }

  lemma DropsIs(h: Hub, e: Event, s: nat)
    requires Enabled(h, e) && Waits(h.pairing, s)
    ensures var turn, code := TurnOf(h, e), h.pairing.listens[s].code;
      Drops(h, e, s) <==> LeavesTable(h.pairing, turn, s) && turn != TakenOut(code) && !turn.TakenInHand?
  {
    ListeningIs(h, e);
  }

  /** A listener is lost in a step exactly if the step drops it. */
  lemma PresentStep(h: Hub, e: Event, s: nat)
    requires Enabled(h, e) && PairingOk(h) && s < |h.pairing.listens|
    ensures Present(Next(h, e), s) <==> Present(h, s) && !Drops(h, e, s)
  {
    var p, turn := h.pairing, TurnOf(h, e);
    EventIs(h, e);
    assert AnsweredOnce(h, s);
    AnswerIs(h, e, s);
    NextAbout(h, e, ForListener(s));
    TableMoves(p, turn, s);
    HandMoves(p, turn, s);
    OneOf(p, s);
    if Waits(p, s) { DropsIs(h, e, s); }
    hide Next, Step, About, Enabled, TurnOf, Turned, TableIsOwn, PairingOk;
  }

  lemma {:induction false} ListensGrow(hubs: seq<Hub>, events: seq<Event>, j: nat, k: nat)
    requires IsRun(hubs, events) && j <= k < |hubs|
    ensures hubs[j].pairing.listens <= hubs[k].pairing.listens
    decreases k
  {
    hide IsRun, Enabled, Next;
    if j < k {
      RunSteps(hubs, events, k);
      ListensGrow(hubs, events, j, k - 1);
      PairingAlways(hubs, events, k - 1);
      EventIs(hubs[k - 1], events[k - 1]);
      hide PairingOk, TurnOf;
    }
  }

  lemma {:induction false} PresentAlways(hubs: seq<Hub>, events: seq<Event>, k: nat, s: nat)
    requires IsRun(hubs, events) && k < |hubs| && s < |hubs[k].pairing.listens|
    ensures |hubs| == |events| + 1 && (Present(hubs[k], s) <==> !Dropped(hubs, events, k, s))
  {
    hide IsRun, Enabled, Next, Present, Drops, PairingOk;
    RunStarts(hubs, events);
    if k > 0 {
      RunSteps(hubs, events, k);
      var h, e := hubs[k - 1], events[k - 1];
      PairingAlways(hubs, events, k - 1);
      PairingAlways(hubs, events, k);
      if s < |h.pairing.listens| {
        PresentAlways(hubs, events, k - 1, s);
        PresentStep(h, e, s);
        assert Dropped(hubs, events, k, s) <==> Dropped(hubs, events, k - 1, s) || Drops(h, e, s);
      } else {
        NewIsPresent(h, e, s);
        forall j | 0 <= j < k ensures !Drops(hubs[j], events[j], s) {
          ListensGrow(hubs, events, j, k - 1);
          NotDroppedYet(hubs[j], events[j], s);
        }
      }
    }
  }

  lemma NotDroppedYet(h: Hub, e: Event, s: nat)
    requires s >= |h.pairing.listens|
    ensures !Drops(h, e, s)
  {
  }

  lemma NewIsPresent(h: Hub, e: Event, s: nat)
    requires Enabled(h, e) && PairingOk(h) && |h.pairing.listens| <= s < |Next(h, e).pairing.listens|
    ensures Present(Next(h, e), s)
  {
    EventIs(h, e);
    hide Next, Enabled, TurnOf;
    NewListenerWaits(h.pairing, TurnOf(h, e));
  }

  /**
   In every run, with the rejection of a peer as two steps: each pair_listen is in exactly one of
   four places. It waits in the table; or the handler of a rejected peer holds it; or it has been
   answered, with one pair_done; or it was dropped while it waited, by a newer pair_listen for its
   code, by an older listener that was put back, or by the end of its connection.
   */
  lemma EachListenerIsSomewhere(hubs: seq<Hub>, events: seq<Event>, k: nat, s: nat)
    requires IsRun(hubs, events) && k < |hubs| && s < |Listens(hubs, events, k)|
    ensures var h := hubs[k]; var waits, held, answered, dropped :=
        Waits(h.pairing, s), InHand(h.pairing, s), Answered(h, s), Dropped(hubs, events, k, s);
      && (waits <==> !held && !answered && !dropped)
      && (held <==> !waits && !answered && !dropped)
      && (answered <==> !waits && !held && !dropped)
  {
    PairingAlways(hubs, events, k);
    PresentAlways(hubs, events, k, s);
    hide IsRun, Dropped;
    assert AnsweredOnce(hubs[k], s);
    OneOf(hubs[k].pairing, s);
  }

  /** In every run, pair_done messages inject into pair_listens: each answers one pair_listen,
      under its code and to its connection, and no two answer the same. */
  lemma PairDonesAnswerListens(hubs: seq<Hub>, events: seq<Event>, k: nat, s: nat)
    requires IsRun(hubs, events) && k < |hubs|
    ensures var out, listens := About(hubs[k].log, ForListener(s)), Listens(hubs, events, k);
      |out| <= 1 && (out != [] ==> s < |listens| && IsPairDone(out[0], listens[s]))
  {
    PairingAlways(hubs, events, k);
    hide IsRun;
    assert AnsweredOnce(hubs[k], s);
  }

  // ---- The newest listener ----

  /** An older listener is put back over s while that waits; or the connection of s ends. */
  ghost predicate Overwrites(h: Hub, e: Event, s: nat) {
    Waits(h.pairing, s) && e.PutBack? && e.holder in h.pairing.held && h.pairing.held[e.holder].code == h.pairing.listens[s].code
  }

  ghost predicate CutWhileWaiting(h: Hub, e: Event, s: nat) {
    Waits(h.pairing, s) && Cuts(h, e, h.pairing.listens[s].conn)
  }

  lemma SameListen(hubs: seq<Hub>, events: seq<Event>, j: nat, k: nat, s: nat)
    requires IsRun(hubs, events) && j <= k < |hubs| && s < |hubs[j].pairing.listens|
    ensures s < |hubs[k].pairing.listens| && hubs[j].pairing.listens[s] == hubs[k].pairing.listens[s]
  {
    hide IsRun;
    ListensGrow(hubs, events, j, k);
  }

  /** A pair_listen comes last when it comes. */
  lemma NewerComes(hubs: seq<Hub>, events: seq<Event>, j: nat, k: nat)
    requires IsRun(hubs, events) && j < k < |hubs| == |events| + 1 && Listening(hubs[j], events[j])
    ensures var n, listens := |hubs[j].pairing.listens|, hubs[k].pairing.listens;
      n < |listens| && listens[n].code == events[j].message.code
  {
    hide IsRun, Next, Enabled, PairingOk;
    RunSteps(hubs, events, j + 1);
    PairingAlways(hubs, events, j);
    ListenComes(hubs[j], events[j]);
    SameListen(hubs, events, j + 1, k, |hubs[j].pairing.listens|);
  }

  lemma ListenComes(h: Hub, e: Event)
    requires Enabled(h, e) && PairingOk(h) && Listening(h, e)
    ensures var n, listens := |h.pairing.listens|, Next(h, e).pairing.listens;
      |listens| == n + 1 && listens[n].code == e.message.code
  {
    EventIs(h, e);
    ListeningIs(h, e);
    hide Next, Enabled, TurnOf;
  }

  lemma NewestIsNotReplaced(hubs: seq<Hub>, events: seq<Event>, j: nat, k: nat, s: nat, code: Code)
    requires IsRun(hubs, events) && j < k < |hubs| == |events| + 1 && Newest(hubs[k].pairing.listens, code) == Some(s)
    requires Drops(hubs[j], events[j], s)
    ensures Overwrites(hubs[j], events[j], s) || CutWhileWaiting(hubs[j], events[j], s)
  {
    hide IsRun, Newest, Cuts, Listening;
    if Listening(hubs[j], events[j]) {
      NewerComes(hubs, events, j, k);
      ListeningShape(hubs[j], events[j]);
    }
    SameListen(hubs, events, j, k, s);
  }

  /**
   In every run: the newest pair_listen for a code waits in the table if and only if it has not been
   answered, is not held, and while it waited no older one was put back over it and its connection
   did not end.
   */
  lemma NewestListenerWaitsIff(hubs: seq<Hub>, events: seq<Event>, k: nat, code: Code)
    requires IsRun(hubs, events) && k < |hubs| && Newest(Listens(hubs, events, k), code).Some?
    ensures |hubs| == |events| + 1
    ensures var h, s := hubs[k], Newest(Listens(hubs, events, k), code).value;
      Waits(h.pairing, s) <==>
        && !Answered(h, s) && !InHand(h.pairing, s)
        && (forall j :: 0 <= j < k ==> !Overwrites(hubs[j], events[j], s))
        && (forall j :: 0 <= j < k ==> !CutWhileWaiting(hubs[j], events[j], s))
  {
    RunStarts(hubs, events);
    PairingAlways(hubs, events, k);
    var s := Newest(Listens(hubs, events, k), code).value;
    EachListenerIsSomewhere(hubs, events, k, s);
    hide IsRun, Waits, InHand, Answered, Newest, Cuts, Listening;
    if j :| 0 <= j < k && Drops(hubs[j], events[j], s) {
      NewestIsNotReplaced(hubs, events, j, k, s, code);
    }
    if j :| 0 <= j < k && (Overwrites(hubs[j], events[j], s) || CutWhileWaiting(hubs[j], events[j], s)) {
      OverwrittenDrops(hubs[j], events[j], s);
    }
  }

  lemma OverwrittenDrops(h: Hub, e: Event, s: nat)
    requires Overwrites(h, e, s) || CutWhileWaiting(h, e, s)
    ensures Drops(h, e, s)
  {
  }

  /** In every run, a pair message that is not rejected for its key is answered with a pair_done to
      the listener that waits for its code, with the peer's own token and name, and the peer is
      told so. */
  lemma ValidPeerPairs(hubs: seq<Hub>, events: seq<Event>, k: nat)
    requires IsRun(hubs, events) && k < |events| && events[k].Arrive? && events[k].message.Pair?
    requires Pairs(hubs[k], events[k], events[k].message.code)
    ensures var p := hubs[k].pairing; var s := p.listeners[events[k].message.code].stamp;
      && Waits(p, s) && !Answered(hubs[k], s)
      && s < |p.listens|
      && (var m := events[k].message;
          && About(hubs[k + 1].log, ForListener(s)) == [Sent(p.listens[s].conn, Q.Plain(PairDone(m.code, m.token, m.hostname)), ForListener(s))]
          && Sent(events[k].conn, Q.Plain(PairConfirmed(m.code)), Direct) in hubs[k + 1].log)
  {
    RunStarts(hubs, events);
    RunSteps(hubs, events, k + 1);
    PairingAlways(hubs, events, k);
    var h, e := hubs[k], events[k];
    var l := h.pairing.listeners[e.message.code];
    var s := l.stamp;
    assert AnsweredOnce(h, s) && IsListen(h.pairing, e.message.code, l);
    NextAbout(h, e, ForListener(s));
    O.PeerIsAnswered(h, e);
    var sends := Step(h, e).sends;
    assert hubs[k + 1].log == h.log + sends;
    hide IsRun, Next, About, Step, Enabled;
    var done := Sent(l.conn, Q.Plain(PairDone(e.message.code, e.message.token, e.message.hostname)), ForListener(s));
    var told := Sent(e.conn, Q.Plain(PairConfirmed(e.message.code)), Direct);
    assert sends == [done, told];
    AboutTwo(done, told, ForListener(s));
    assert [] + ([done] + []) == [done];
    assert sends[1] in h.log + sends;
  }

  // ---- Rejection as one step ----

  /** A listener that is taken out for a peer that is rejected is put back directly after. */
  ghost predicate PutsBackAtOnce(hubs: seq<Hub>, events: seq<Event>) {
    forall i :: 0 <= i < |events| && i < |hubs| && hubs[i].pairing.held != map[] ==> events[i].PutBack?
  }

  /** Only the newest listener of a code waits or is held, and at most one is held. */
  ghost predicate OnlyNewest(p: PairTable) {
    && (forall code :: code in p.listeners ==> Newest(p.listens, code) == Some(p.listeners[code].stamp))
    && (forall id :: id in p.held ==> p.held[id].code !in p.listeners && Newest(p.listens, p.held[id].code) == Some(p.held[id].listener.stamp))
    && (forall i, j :: i in p.held && j in p.held ==> i == j)
  }

  lemma OnlyNewestStep(p: PairTable, turn: Turn)
    requires OnlyNewest(p) && CanTurn(p, turn) && (p.held != map[] ==> turn.PutIn?)
    ensures OnlyNewest(Turned(p, turn))
  {
    hide Newest;
    if turn.Listened? {
      forall code ensures Newest(Turned(p, turn).listens, code) == if turn.code == code then Some(|p.listens|) else Newest(p.listens, code) {
        NewestAppend(p.listens, Listen(turn.code, turn.listener.conn), code);
      }
    }
  }

  lemma {:induction false} OnlyNewestAlways(hubs: seq<Hub>, events: seq<Event>, k: nat)
    requires IsRun(hubs, events) && k < |hubs| && PutsBackAtOnce(hubs, events)
    ensures OnlyNewest(hubs[k].pairing)
  {
    hide IsRun, Enabled, Next, Newest;
    RunStarts(hubs, events);
    if k > 0 {
      RunSteps(hubs, events, k);
      OnlyNewestAlways(hubs, events, k - 1);
      PairingAlways(hubs, events, k - 1);
      EventIs(hubs[k - 1], events[k - 1]);
      hide OnlyNewest, PairingOk;
      OnlyNewestStep(hubs[k - 1].pairing, TurnOf(hubs[k - 1], events[k - 1]));
    }
  }

  /** The connection registered and has ended. */
  predicate HasEnded(d: Directory, c: Conn) {
    c in d.peers && d.peers[c].phase == Gone && d.peers[c].registered
  }

  lemma EndedStep(h: Hub, e: Event, c: Conn)
    requires Enabled(h, e) && c in h.dir.peers
    ensures c in Next(h, e).dir.peers
    ensures HasEnded(Next(h, e).dir, c) <==> HasEnded(h.dir, c) || Cuts(h, e, c)
    ensures Listening(h, e) && e.conn == c ==> !HasEnded(h.dir, c)
  {
    N.DirectoryStep(h, e);
    hide Next;
  }

  /** When the pair_listen numbered s came. */
  lemma {:induction false} ListenedAt(hubs: seq<Hub>, events: seq<Event>, k: nat, s: nat) returns (i: nat)
    requires IsRun(hubs, events) && k < |hubs| && s < |hubs[k].pairing.listens|
    ensures i < k <= |events| && Listening(hubs[i], events[i]) && events[i].conn == hubs[k].pairing.listens[s].conn
    ensures |hubs[i].pairing.listens| == s
  {
    hide IsRun, Enabled, Next, Listening, PairingOk;
    RunStarts(hubs, events);
    if k == 0 {
      assert false;
    } else {
      RunSteps(hubs, events, k);
      var h, e := hubs[k - 1], events[k - 1];
      PairingAlways(hubs, events, k - 1);
      PairingAlways(hubs, events, k);
      ListeningShape(h, e);
      if s < |h.pairing.listens| { i := ListenedAt(hubs, events, k - 1, s); } else { i := k - 1; }
    }
  }

  lemma ListeningShape(h: Hub, e: Event)
    ensures Listening(h, e) ==> e.Arrive? && e.message.PairListen? && e.conn in h.dir.peers
  {
  }

  /** A connection that has ended did so at some step. */
  lemma {:induction false} EndedAt(hubs: seq<Hub>, events: seq<Event>, i: nat, k: nat, c: Conn) returns (j: nat)
    requires IsRun(hubs, events) && i <= k < |hubs| && c in hubs[i].dir.peers && !HasEnded(hubs[i].dir, c)
    ensures |hubs| == |events| + 1 && c in hubs[k].dir.peers
    ensures HasEnded(hubs[k].dir, c) ==> i <= j < k && Cuts(hubs[j], events[j], c)
    decreases k
  {
    hide IsRun, Enabled, Next, HasEnded, Cuts;
    RunStarts(hubs, events);
    j := 0;
    if i < k {
      RunSteps(hubs, events, k);
      j := EndedAt(hubs, events, i, k - 1, c);
      EndedStep(hubs[k - 1], events[k - 1], c);
      if !HasEnded(hubs[k - 1].dir, c) { j := k - 1; }
    }
  }

  lemma {:induction false} EndedStays(hubs: seq<Hub>, events: seq<Event>, j: nat, k: nat, c: Conn)
    requires IsRun(hubs, events) && j < k < |hubs| == |events| + 1 && Cuts(hubs[j], events[j], c)
    ensures c in hubs[k].dir.peers && HasEnded(hubs[k].dir, c)
    decreases k
  {
    RunSteps(hubs, events, k);
    hide IsRun, Enabled, Next, HasEnded;
    if j < k - 1 { EndedStays(hubs, events, j, k - 1, c); }
    EndedStep(hubs[k - 1], events[k - 1], c);
  }

  /** When nothing is held, a listener whose connection ended while it waited is cut off, and so it
      was in the table then. */
  lemma CutIffEnded(hubs: seq<Hub>, events: seq<Event>, k: nat, s: nat)
    requires IsRun(hubs, events) && k < |hubs| == |events| + 1 && PutsBackAtOnce(hubs, events) && s < |hubs[k].pairing.listens|
    requires !Answered(hubs[k], s)
    ensures (exists j :: 0 <= j < k && CutWhileWaiting(hubs[j], events[j], s)) ==> HasEnded(hubs[k].dir, hubs[k].pairing.listens[s].conn)
    ensures HasEnded(hubs[k].dir, hubs[k].pairing.listens[s].conn) ==> Dropped(hubs, events, k, s)
  {
    var c := hubs[k].pairing.listens[s].conn;
    hide IsRun, Enabled, Next, HasEnded, Cuts, Answered;
    if j :| 0 <= j < k && CutWhileWaiting(hubs[j], events[j], s) {
      ListensGrow(hubs, events, j, k);
      EndedStays(hubs, events, j, k, c);
    }
    if HasEnded(hubs[k].dir, c) { EndedWasDropped(hubs, events, k, s); }
  }

  lemma ListenedThen(hubs: seq<Hub>, events: seq<Event>, k: nat, s: nat) returns (i: nat)
    requires IsRun(hubs, events) && k < |hubs| == |events| + 1 && s < |hubs[k].pairing.listens|
    ensures i < k && s < |hubs[i + 1].pairing.listens| && events[i].Arrive?
    ensures var c := hubs[k].pairing.listens[s].conn; c in hubs[i].dir.peers && !HasEnded(hubs[i].dir, c)
  {
    hide IsRun, Enabled, Next, HasEnded, Listening, PairingOk;
    i := ListenedAt(hubs, events, k, s);
    RunSteps(hubs, events, i + 1);
    PairingAlways(hubs, events, i);
    ListenStep(hubs[i], events[i]);
  }

  /** The end of a listener's connection comes after its pair_listen. */
  lemma EndsLater(hubs: seq<Hub>, events: seq<Event>, k: nat, s: nat) returns (j: nat)
    requires IsRun(hubs, events) && k < |hubs| == |events| + 1 && s < |hubs[k].pairing.listens|
    requires HasEnded(hubs[k].dir, hubs[k].pairing.listens[s].conn)
    ensures j < k && s < |hubs[j].pairing.listens| && hubs[j].pairing.listens[s] == hubs[k].pairing.listens[s]
    ensures Cuts(hubs[j], events[j], hubs[k].pairing.listens[s].conn)
  {
    var c := hubs[k].pairing.listens[s].conn;
    hide IsRun, HasEnded, Cuts;
    var i := ListenedThen(hubs, events, k, s);
    j := EndedAt(hubs, events, i, k, c);
    CutsShape(hubs[j], events[j], c);
    SameListen(hubs, events, i + 1, j, s);
    SameListen(hubs, events, j, k, s);
  }

  /** A connection that makes a pair_listen has not ended. */
  lemma ListenStep(h: Hub, e: Event)
    requires Enabled(h, e) && PairingOk(h) && Listening(h, e)
    ensures e.Arrive? && e.conn in h.dir.peers && !HasEnded(h.dir, e.conn)
    ensures |Next(h, e).pairing.listens| == |h.pairing.listens| + 1
  {
    EventIs(h, e);
    ListeningIs(h, e);
    hide Next, TurnOf;
    NewListenerWaits(h.pairing, TurnOf(h, e));
  }

  lemma EndedWasDropped(hubs: seq<Hub>, events: seq<Event>, k: nat, s: nat)
    requires IsRun(hubs, events) && k < |hubs| == |events| + 1 && PutsBackAtOnce(hubs, events) && s < |hubs[k].pairing.listens|
    requires !Answered(hubs[k], s) && HasEnded(hubs[k].dir, hubs[k].pairing.listens[s].conn)
    ensures Dropped(hubs, events, k, s)
  {
    var j := EndsLater(hubs, events, k, s);
    CutsShape(hubs[j], events[j], hubs[k].pairing.listens[s].conn);
    NoneHeld(hubs[j], events[j], s);
    PairingAlways(hubs, events, j);
    hide IsRun, HasEnded, Cuts, Answered, Drops, Waits, InHand, PairingOk;
    EachListenerIsSomewhere(hubs, events, j, s);
    StaysAnswered(hubs, events, j, k, s);
    if Waits(hubs[j].pairing, s) {
      CutDrops(hubs[j], events[j], s);
    } else {
      assert Dropped(hubs, events, j, s);
    }
  }

  lemma NoneHeld(h: Hub, e: Event, s: nat)
    ensures h.pairing.held == map[] ==> !InHand(h.pairing, s)
  {
  }

  lemma CutsShape(h: Hub, e: Event, c: Conn)
    requires Cuts(h, e, c)
    ensures e.Down?
  {
  }

  lemma CutDrops(h: Hub, e: Event, s: nat)
    requires Waits(h.pairing, s) && Cuts(h, e, h.pairing.listens[s].conn)
    ensures Drops(h, e, s)
  {
  }

  lemma {:induction false} StaysAnswered(hubs: seq<Hub>, events: seq<Event>, j: nat, k: nat, s: nat)
    requires IsRun(hubs, events) && j <= k < |hubs|
    ensures Answered(hubs[j], s) ==> Answered(hubs[k], s)
    decreases k
  {
    hide IsRun, Enabled, Next, About;
    if j < k {
      RunSteps(hubs, events, k);
      StaysAnswered(hubs, events, j, k - 1, s);
      NextAbout(hubs[k - 1], events[k - 1], ForListener(s));
    }
  }

  /**
   With rejection as one step, whenever nothing is held: someone waits for a code exactly if its
   newest pair_listen has neither been answered nor been cut off, and then it is that one. So a peer
   is always paired with the newest listener, and a peer that is rejected for its key takes nothing
   from those that come after it.
   */
  lemma NewestListenerWaits(hubs: seq<Hub>, events: seq<Event>, k: nat, code: Code)
    requires IsRun(hubs, events) && k < |hubs| && PutsBackAtOnce(hubs, events) && hubs[k].pairing.held == map[]
    ensures var h, listens := hubs[k], Listens(hubs, events, k); var s := Newest(listens, code);
      && (code in h.pairing.listeners <==> s.Some? && !Answered(h, s.value) && !HasEnded(h.dir, listens[s.value].conn))
      && (code in h.pairing.listeners ==> h.pairing.listeners[code].stamp == s.value && h.pairing.listeners[code].conn == listens[s.value].conn)
  {
    RunStarts(hubs, events);
    PairingAlways(hubs, events, k);
    OnlyNewestAlways(hubs, events, k);
    var p, s := hubs[k].pairing, Newest(Listens(hubs, events, k), code);
    assert code in p.listeners ==> IsListen(p, code, p.listeners[code]);
    hide IsRun, Answered, Newest, HasEnded;
    if s.Some? {
      EachListenerIsSomewhere(hubs, events, k, s.value);
      if !Answered(hubs[k], s.value) { NotAnsweredNewest(hubs, events, k, code, s.value); }
    }
  }

  lemma NotAnsweredNewest(hubs: seq<Hub>, events: seq<Event>, k: nat, code: Code, s: nat)
    requires IsRun(hubs, events) && k < |hubs| == |events| + 1 && PutsBackAtOnce(hubs, events)
    requires Newest(hubs[k].pairing.listens, code) == Some(s) && !Answered(hubs[k], s)
    ensures Dropped(hubs, events, k, s) <==> HasEnded(hubs[k].dir, hubs[k].pairing.listens[s].conn)
  {
    CutIffEnded(hubs, events, k, s);
    hide IsRun, Answered, Newest, HasEnded, Drops;
    if j :| 0 <= j < k && Drops(hubs[j], events[j], s) {
      NewestIsNotReplaced(hubs, events, j, k, s, code);
      OnlyNewestAlways(hubs, events, j);
      NotOverwritten(hubs[j], events[j], s);
      assert CutWhileWaiting(hubs[j], events[j], s);
    }
  }

  lemma NotOverwritten(h: Hub, e: Event, s: nat)
    requires OnlyNewest(h.pairing)
    ensures !Overwrites(h, e, s)
  {
  }

  // ---- An older listener comes back ----

  function OldEvents(): seq<Event> {
    [Connect(1, true), Connect(2, true), Connect(3, true), Arrive(1, PairListen("c", true), S.Ids("x")),
     Arrive(3, Pair("c", "t", "", false), S.Ids("h")), Arrive(2, PairListen("c", false), S.Ids("y")), PutBack("h")]
  }

  ghost predicate ThreeAreUp(h: Hub) {
    h.dir == Directory({}, map[1 := Peer(true, Up, false, "", ""), 2 := Peer(true, Up, false, "", ""), 3 := Peer(true, Up, false, "", "")], map[])
  }

  lemma OldListens() returns (s: S.Scene)
    ensures S.Ok(s) && s.events == OldEvents()[..4] && |s.hubs| == 5 && ThreeAreUp(S.Now(s)) && S.Now(s).used == {"x"}
    ensures S.Now(s).pairing == PairTable(map["c" := Listener(1, true, 0)], [Listen("c", 1)], map[])
  {
    hide S.Ok;
    s := S.Start();
    s := S.Connects(s, 1, true);
    s := S.Connects(s, 2, true);
    s := S.Connects(s, 3, true);
    s := S.Paired(s, 1, PairListen("c", true), "x");
  }

  lemma OldIsHeld() returns (s: S.Scene)
    ensures S.Ok(s) && s.events == OldEvents()[..5] && |s.hubs| == 6 && ThreeAreUp(S.Now(s)) && S.Now(s).used == {"x", "h"}
    ensures S.Now(s).pairing == PairTable(map[], [Listen("c", 1)], map["h" := Held("c", Listener(1, true, 0))])
  {
    hide S.Ok;
    s := OldListens();
    s := S.Paired(s, 3, Pair("c", "t", "", false), "h");
  }

  /**
   A run in which a peer is rejected while a newer pair_listen comes in: the older listener is put
   back over the newer one, which is dropped, unanswered and with its connection up.
   */
  lemma OlderListenerReturns() returns (hubs: seq<Hub>)
    ensures IsRun(hubs, OldEvents()) && |hubs| == 8
    ensures hubs[7].pairing == PairTable(map["c" := Listener(1, true, 0)], [Listen("c", 1), Listen("c", 2)], map[])
    ensures Newest(hubs[7].pairing.listens, "c") == Some(1) && !Waits(hubs[7].pairing, 1)
    ensures Overwrites(hubs[6], OldEvents()[6], 1) && ThreeAreUp(hubs[7])
  {
    hide S.Ok, ThreeAreUp;
    var s := OldIsHeld();
    AllCanSend(S.Now(s));
    s := S.Paired(s, 2, PairListen("c", false), "y");
    assert S.Now(s).pairing
        == PairTable(map["c" := Listener(2, false, 1)], [Listen("c", 1), Listen("c", 2)], map["h" := Held("c", Listener(1, true, 0))]);
    AllCanSend(S.Now(s));
    s := S.PutsBack(s, "h");
    AllCanSend(S.Now(s));
    hubs := s.hubs;
    assert s.events == OldEvents();
    S.IsARun(s);
  }

  lemma AllCanSend(h: Hub)
    ensures ThreeAreUp(h) ==> forall c :: 1 <= c <= 3 ==> c in h.dir.peers && h.dir.peers[c] == Peer(true, Up, false, "", "")
    ensures forall g: Hub :: g.dir == h.dir ==> (ThreeAreUp(g) <==> ThreeAreUp(h))
  {
  }
}
