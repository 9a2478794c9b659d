/** Short runs of the hub, put together step by step, for inputs that show where a promise fails
    and that what a theorem asks for can be met. */
module Scenes {
  import opened Basics
  import opened Protocol
  import opened RelayModel

  datatype Scene = Scene(hubs: seq<Hub>, events: seq<Event>)

  ghost predicate Ok(s: Scene) {
    |s.hubs| == |s.events| + 1 && IsRun(s.hubs, s.events)
  }

  ghost function Now(s: Scene): Hub
    requires |s.hubs| == |s.events| + 1
  {
    s.hubs[|s.events|]
  }

  /** One event's ids and outcomes. */
  function Ids(id: Id): Env { Env([id], [true]) }

  lemma Start() returns (s: Scene)
    ensures Ok(s) && s.events == [] && Now(s) == Init({})
  {
    RunBegins({});
    s := Scene([Init({})], []);
  }

  lemma Then(s: Scene, e: Event) returns (s': Scene)
    requires Ok(s) && Enabled(Now(s), e)
    ensures Ok(s') && s'.events == s.events + [e] && s'.hubs == s.hubs + [Now(s')] && Now(s') == Next(Now(s), e)
  {
    hide IsRun, Enabled, Next;
    var h := Next(Now(s), e);
    RunGoesOn(s.hubs, s.events, e, h);
    s' := Scene(s.hubs + [h], s.events + [e]);
  }

  lemma Connects(s: Scene, c: Conn, authenticated: bool) returns (s': Scene)
    requires Ok(s) && c !in Now(s).dir.peers
    ensures Ok(s') && s'.events == s.events + [Connect(c, authenticated)] && s'.hubs == s.hubs + [Now(s')]
    ensures var h := Now(s);
      Now(s') == h.(dir := h.dir.(peers := h.dir.peers[c := Peer(authenticated, Up, false, "", "")]))
  {
    hide IsRun;
    s' := Then(s, Connect(c, authenticated));
    assert Now(s).log + [] == Now(s).log;
  }

  /** Connection c may send messages, with a new id if one is needed. */
  ghost predicate CanSend(h: Hub, c: Conn, id: Id) {
    c in h.dir.peers && h.dir.peers[c].phase == Up && h.dir.peers[c].authenticated && id !in h.used
  }

  function NameTaken(h: Hub, c: Conn, name: Name, token: Token, id: Id): Hub
    requires c in h.dir.peers
  {
    h.(dir := h.dir.(peers := h.dir.peers[c := h.dir.peers[c].(registered := true, name := name, token := token)],
                     clients := h.dir.clients[name := c]),
       used := h.used + {id}, log := h.log + [Tell(c, Registered(name), Direct)])
  }

  lemma Registers(s: Scene, c: Conn, name: Name, token: Token, id: Id) returns (s': Scene)
    requires Ok(s) && CanSend(Now(s), c, id) && name != "" && token != "" && name !in Now(s).dir.clients
    ensures Ok(s') && s'.events == s.events + [Arrive(c, Register(name, token), Ids(id))] && s'.hubs == s.hubs + [Now(s')]
    ensures Now(s') == NameTaken(Now(s), c, name, token, id)
  {
    hide IsRun;
    s' := Then(s, Arrive(c, Register(name, token), Ids(id)));
  }

  /** The hub after a message that is about requests, or about tunnels. */
  lemma Requested(s: Scene, c: Conn, m: Incoming, env: Env) returns (s': Scene)
    requires Ok(s) && |env.ids| == |env.oks| == 1 && CanSend(Now(s), c, env.ids[0]) && !m.ExecuteMulti? && OfRequests(Now(s), m)
    ensures Ok(s') && s'.events == s.events + [Arrive(c, m, env)] && s'.hubs == s.hubs + [Now(s')]
    ensures var h := Now(s); var g := h.(used := h.used + {env.ids[0]}); var o := HandleRequests(g, c, m, env);
      Now(s') == g.(requests := o.state, log := h.log + o.sends)
  {
    hide IsRun, HandleRequests;
    assert (set id | id in env.ids) == {env.ids[0]};
    s' := Then(s, Arrive(c, m, env));
  }

  lemma Tunneled(s: Scene, c: Conn, m: Incoming, env: Env) returns (s': Scene)
    requires Ok(s) && |env.ids| == |env.oks| == 1 && OfTunnels(m) && env.ids[0] !in Now(s).used
    requires c in Now(s).dir.peers && Now(s).dir.peers[c].phase == Up && (m.TunnelOpen? ==> Now(s).dir.peers[c].authenticated)
    ensures Ok(s') && s'.events == s.events + [Arrive(c, m, env)] && s'.hubs == s.hubs + [Now(s')]
    ensures var h := Now(s); var g := h.(used := h.used + {env.ids[0]}); var o := HandleTunnels(g, c, m, env);
      Now(s') == g.(tunnels := o.state, log := h.log + o.sends)
  {
    hide IsRun, HandleTunnels;
    assert (set id | id in env.ids) == {env.ids[0]};
    s' := Then(s, Arrive(c, m, env));
  }

  lemma Paired(s: Scene, c: Conn, m: Incoming, id: Id) returns (s': Scene)
    requires Ok(s) && OfPairing(m) && CanSend(Now(s), c, id)
    ensures Ok(s') && s'.events == s.events + [Arrive(c, m, Ids(id))] && s'.hubs == s.hubs + [Now(s')]
    ensures var h := Now(s); var g := h.(used := h.used + {id}); var o := HandlePairing(g, c, m, Ids(id));
      Now(s') == g.(pairing := o.state, log := h.log + o.sends)
  {
    hide IsRun, HandlePairing;
    assert (set x | x in Ids(id).ids) == {id};
    s' := Then(s, Arrive(c, m, Ids(id)));
  }

  lemma PutsBack(s: Scene, holder: Id) returns (s': Scene)
    requires Ok(s) && holder in Now(s).pairing.held
    ensures Ok(s') && s'.events == s.events + [PutBack(holder)] && s'.hubs == s.hubs + [Now(s')]
    ensures Now(s') == Now(s).(pairing := HandlePutBack(Now(s).pairing, holder))
  {
    hide IsRun, HandlePutBack;
    s' := Then(s, PutBack(holder));
    assert Now(s).log + [] == Now(s).log;
  }

  lemma IsARun(s: Scene)
    requires Ok(s)
    ensures IsRun(s.hubs, s.events) && |s.hubs| == |s.events| + 1
  {
  }
}
