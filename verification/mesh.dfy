/**
 * A mesh of servers joined by links. Each direction of a link is a first-in first-out wire of lines;
 * each handler is one atomic step, and steps of all servers interleave freely.
 */
module Mesh {
  import opened Servers
  import opened Rooms

  type Wire = (string, string)

  datatype World = World(servers: map<string, Server>, wires: map<Wire, seq<Line>>)

  datatype Action =
    | Act(at: string, command: Command)
    | Deliver(from: string, to: string)
    | LinkUp(a: string, b: string, trustA: string, trustB: string, burstA: seq<Line>, burstB: seq<Line>)
    | LinkDown(a: string, b: string)

  /** Every server is registered under its name, which is not empty. */
  ghost predicate Named(w: World) {
    forall a :: a in w.servers ==> w.servers[a].name == a && a != ""
  }

  predicate Linked(w: World, a: string, b: string) {
    a in w.servers && b in w.servers[a].links
  }

  /** A link joins two different servers, and both know of it. */
  ghost predicate LinksPaired(w: World) {
    forall a, b :: Linked(w, a, b) ==> a != b && Linked(w, b, a)
  }

  /** Every link has its two wires, and there are no others. */
  ghost predicate WiresMatch(w: World) {
    forall a, b :: (a, b) in w.wires <==> Linked(w, a, b)
  }

  ghost predicate Shaped(w: World) { Named(w) && LinksPaired(w) && WiresMatch(w) }

  ghost predicate Possible(w: World, act: Action) {
    match act
    case Act(a, _) => a in w.servers
    case Deliver(a, b) => (a, b) in w.wires && w.wires[(a, b)] != []
    case LinkUp(a, b, ta, tb, la, lb) =>
      && a in w.servers && b in w.servers && a != b && (a, b) !in w.wires
      && IsBurst(Connect(w.servers[a], b, ta), b, la) && IsBurst(Connect(w.servers[b], a, tb), a, lb)
    case LinkDown(a, b) => (a, b) in w.wires
  }

  /** The servers after both ends of an action changed. */
  function Both(w: World, a: string, sa: Server, b: string, sb: Server): map<string, Server> {
    w.servers[a := sa][b := sb]
  }

  function AfterAct(w: World, a: string, c: Command): World
    requires a in w.servers
  {
    World(w.servers[a := Do(w.servers[a], c)], SendAll(w, a, c))
  }

  /** The wires after server `a` has put the lines of command `c` on its links. */
  function SendAll(w: World, a: string, c: Command): map<Wire, seq<Line>>
    requires a in w.servers
  {
    map k | k in w.wires :: if k.0 == a then w.wires[k] + Emits(w.servers[a], c, k.1) else w.wires[k]
  }

  function AfterDeliver(w: World, a: string, b: string): World
    requires (a, b) in w.wires && w.wires[(a, b)] != [] && b in w.servers && a in w.servers[b].links
  {
    World(w.servers[b := Receive(w.servers[b], LinkTo(w.servers[b], a), w.wires[(a, b)][0])], SendOn(w, a, b))
  }

  /** The wires after `b` has taken a line from `a` and put what its handling raised on all of its links. */
  function SendOn(w: World, a: string, b: string): map<Wire, seq<Line>>
    requires (a, b) in w.wires && w.wires[(a, b)] != [] && b in w.servers && a in w.servers[b].links
  {
    var line := w.wires[(a, b)][0];
    var wires := w.wires[(a, b) := w.wires[(a, b)][1..]];
    map k | k in wires ::
      if k.0 == b then wires[k] + Forwards(w.servers[b], LinkTo(w.servers[b], a), line, k.1) else wires[k]
  }

  function AfterLinkUp(w: World, a: string, b: string, ta: string, tb: string, la: seq<Line>, lb: seq<Line>): World
    requires a in w.servers && b in w.servers
  {
    World(Both(w, a, Connect(w.servers[a], b, ta), b, Connect(w.servers[b], a, tb)),
          w.wires[(a, b) := la][(b, a) := lb])
  }

  function AfterLinkDown(w: World, a: string, b: string): World
    requires a in w.servers && b in w.servers
  {
    World(Both(w, a, Disconnect(w.servers[a], b), b, Disconnect(w.servers[b], a)),
          w.wires - {(a, b), (b, a)})
  }

  ghost function Next(w: World, act: Action): World
    requires Shaped(w) && Possible(w, act)
  {
    match act
    case Act(a, c) => AfterAct(w, a, c)
    case Deliver(a, b) => AfterDeliver(w, a, b)
    case LinkUp(a, b, ta, tb, la, lb) => AfterLinkUp(w, a, b, ta, tb, la, lb)
    case LinkDown(a, b) => AfterLinkDown(w, a, b)
  }

  lemma DoKeepsLinks(s: Server, c: Command)
    ensures Do(s, c).name == s.name && Do(s, c).links == s.links && Do(s, c).bots == s.bots
  {
  }

  lemma ReceiveKeepsLinks(s: Server, c: Conn, line: Line)
    ensures
      var r := Receive(s, c, line);
      r.name == s.name && r.links == s.links && r.bots == s.bots && r.clients == s.clients
  {
  }

  /** What came from a named peer is not sent on, not even if it claims to be from elsewhere. */
  lemma NothingForwarded(s: Server, c: Conn, line: Line, peer: string)
    requires PeerName(c) != ""
    ensures Forwards(s, c, line, peer) == []
  {
  }

  /** Hence taking a line takes it off its wire and puts nothing on any. */
  lemma NoSecondHop(w: World, a: string, b: string)
    requires Shaped(w) && (a, b) in w.wires && w.wires[(a, b)] != []
    ensures Linked(w, b, a) && SendOn(w, a, b) == w.wires[(a, b) := w.wires[(a, b)][1..]]
    ensures AfterDeliver(w, a, b).wires == w.wires[(a, b) := w.wires[(a, b)][1..]]
  {
    assert Linked(w, a, b) && Linked(w, b, a);
    var line, left := w.wires[(a, b)][0], w.wires[(a, b) := w.wires[(a, b)][1..]];
    forall k | k in left ensures left[k] + Forwards(w.servers[b], LinkTo(w.servers[b], a), line, k.1) == left[k] {
      NothingForwarded(w.servers[b], LinkTo(w.servers[b], a), line, k.1);
    }
  }

  lemma LinkUpShaped(w: World, a: string, b: string, ta: string, tb: string, la: seq<Line>, lb: seq<Line>)
    requires Shaped(w) && a in w.servers && b in w.servers && a != b
    ensures Shaped(AfterLinkUp(w, a, b, ta, tb, la, lb))
  {
    var w' := AfterLinkUp(w, a, b, ta, tb, la, lb);
    forall x, y ensures Linked(w', x, y) <==> Linked(w, x, y) || (x, y) == (a, b) || (x, y) == (b, a) {
    }
  }

  lemma LinkDownShaped(w: World, a: string, b: string)
    requires Shaped(w) && (a, b) in w.wires
    ensures Shaped(AfterLinkDown(w, a, b))
  {
    var w' := AfterLinkDown(w, a, b);
    assert Linked(w, a, b);
    forall x, y ensures Linked(w', x, y) <==> Linked(w, x, y) && (x, y) != (a, b) && (x, y) != (b, a) {
    }
  }

  /** A change at one server that leaves its name and links alone. */
  lemma StaysShaped(w: World, a: string, r: Server, w': World)
    requires Shaped(w) && a in w.servers && w'.servers == w.servers[a := r] && w'.wires.Keys == w.wires.Keys
    requires r.name == w.servers[a].name && r.links == w.servers[a].links
    ensures Shaped(w')
  {
    assert forall x, y :: Linked(w', x, y) <==> Linked(w, x, y);
    assert forall x, y :: (x, y) in w'.wires <==> (x, y) in w'.wires.Keys;
  }

  lemma NextShaped(w: World, act: Action)
    requires Shaped(w) && Possible(w, act)
    ensures Shaped(Next(w, act))
  {
    match act
    case Act(a, c) =>
      DoKeepsLinks(w.servers[a], c);
      hide Do, Shaped;
      StaysShaped(w, a, Do(w.servers[a], c), AfterAct(w, a, c));
    case Deliver(a, b) =>
      assert Linked(w, a, b);
      ReceiveKeepsLinks(w.servers[b], LinkTo(w.servers[b], a), w.wires[(a, b)][0]);
      hide Receive, Forwards, Shaped;
      StaysShaped(w, b, Receive(w.servers[b], LinkTo(w.servers[b], a), w.wires[(a, b)][0]), AfterDeliver(w, a, b));
    case LinkUp(a, b, ta, tb, la, lb) => hide IsBurst; LinkUpShaped(w, a, b, ta, tb, la, lb);
    case LinkDown(a, b) => LinkDownShaped(w, a, b);
  }

  /**
   * A refused handshake in the name of a linked peer unregisters the good link at one end only: that end
   * tells the peer nothing more, while the peer still counts on the link.
   */
  lemma RefusalUnpairs(w: World, a: string, b: string, c: Command)
    requires Shaped(w) && Linked(w, a, b)
    ensures var r := Unregister(w.servers[a], b);
      !LinksPaired(w.(servers := w.servers[a := r])) && Emits(r, c, b) == []
  {
    var w' := w.(servers := w.servers[a := Unregister(w.servers[a], b)]);
    assert Linked(w, b, a) && a != b;
    assert Linked(w', b, a) && !Linked(w', a, b);
  }

  // ---------------------------------------------------------------- runs

  ghost predicate Run(w: World, acts: seq<Action>)
    requires Shaped(w)
    decreases |acts|
  {
    acts == [] || (Possible(w, acts[0]) && (NextShaped(w, acts[0]); Run(Next(w, acts[0]), acts[1..])))
  }

  ghost function End(w: World, acts: seq<Action>): World
    requires Shaped(w) && Run(w, acts)
    decreases |acts|
  {
    if acts == [] then w else (NextShaped(w, acts[0]); End(Next(w, acts[0]), acts[1..]))
  }
}
