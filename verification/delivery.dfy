/**
 * Exactly-once delivery of channel messages: over any run, what a server heard from a peer plus what
 * is still on the wire is what the peer's own users said and its trust rules let out, never relayed
 * a second hop; and in a full mesh one message reaches every other member exactly once.
 */
module Delivery {
  import opened Text
  import opened Servers
  import opened Rooms
  import opened Events
  import opened Mesh
  import Trust

  /** Server `at` handed `msg`, which came from server `via`, to the clients `to`. */
  datatype Handed = Handed(at: string, via: string, msg: Line, to: set<string>)

  predicate ChannelMessage(l: Line) { l.SMsg? && StartsWith(l.target, "#") }

  /** The message a command says in a channel. */
  function Spoken(c: Command): Option<Line> {
    match c
    case Say(n, ch, text, notice, _) => Some(SMsg(ch, n, text, notice))
    case BotSay(n, ch, text, _) => Some(SMsg(ch, n, text, false))
    case _ => None
  }

  /** What an action hands to clients. */
  ghost function Hands(w: World, act: Action): seq<Handed>
    requires Shaped(w) && Possible(w, act)
  {
    match act
    case Act(a, c) =>
      if Accepted(w.servers[a], c) && Spoken(c).Some?
      then [Handed(a, a, Spoken(c).value, SayCopies(w.servers[a], c.nick, c.channel))] else []
    case Deliver(a, b) =>
      var l := w.wires[(a, b)][0];
      if ChannelMessage(l) then [Handed(b, a, l, Copies(w.servers[b], LinkTo(w.servers[b], a), l))] else []
    case _ => []
  }

  ghost function Log(w: World, acts: seq<Action>): seq<Handed>
    requires Shaped(w) && Run(w, acts)
    decreases |acts|
  {
    if acts == [] then [] else (NextShaped(w, acts[0]); Hands(w, acts[0]) + Log(Next(w, acts[0]), acts[1..]))
  }

  /** How often the log shows `msg` at `b`, coming from `a`. */
  function Heard(log: seq<Handed>, b: string, a: string, msg: Line): nat {
    if log == [] then 0
    else (if log[0].at == b && log[0].via == a && log[0].msg == msg then 1 else 0) + Heard(log[1..], b, a, msg)
  }

  /** How often server `a` itself said `msg` in a channel its link to `b` carries at that moment. */
  ghost function Uttered(w: World, acts: seq<Action>, a: string, b: string, msg: Line): nat
    requires Shaped(w) && Run(w, acts)
    decreases |acts|
  {
    if acts == [] then 0
    else (NextShaped(w, acts[0]); Utters(w, acts[0], a, b, msg) + Uttered(Next(w, acts[0]), acts[1..], a, b, msg))
  }

  function Utters(w: World, act: Action, a: string, b: string, msg: Line): nat {
    if act.Act? && act.at == a && a in w.servers && Accepted(w.servers[a], act.command)
       && Spoken(act.command) == Some(msg) && Trust.GoesOut(w.servers[a], b, msg.target)
    then 1 else 0
  }

  /** The link between `a` and `b` stays as it is. */
  predicate Steady(acts: seq<Action>, a: string, b: string) {
    forall i :: 0 <= i < |acts| && (acts[i].LinkUp? || acts[i].LinkDown?) ==> {acts[i].a, acts[i].b} != {a, b}
  }

  lemma {:induction false} HeardConcat(x: seq<Handed>, y: seq<Handed>, b: string, a: string, msg: Line)
    ensures Heard(x + y, b, a, msg) == Heard(x, b, a, msg) + Heard(y, b, a, msg)
  {
    if x == [] {
      assert x + y == y;
    } else {
      assert (x + y)[1..] == x[1..] + y;
      HeardConcat(x[1..], y, b, a, msg);
    }
  }

  function Pending(wire: seq<Line>, msg: Line): nat { multiset(wire)[msg] }

  lemma PendingConcat(x: seq<Line>, y: seq<Line>, msg: Line)
    ensures Pending(x + y, msg) == Pending(x, msg) + Pending(y, msg)
  {
  }

  lemma NotPending(lines: seq<Line>, msg: Line)
    requires msg !in lines
    ensures Pending(lines, msg) == 0
  {
    assert msg !in multiset(lines);
  }

  /** What a command that speaks puts on a link. */
  lemma SpokenLines(s: Server, c: Command, peer: string)
    requires peer in s.links && Accepted(s, c) && Spoken(c).Some?
    ensures Emits(s, c, peer) == If(StartsWith(c.channel, "#") ==> ShouldRelay(s, peer, c.channel), Spoken(c).value)
                               + (if c.Say? && c.notice then [] else Mentions(s, peer, Some(c.channel), c.mentions))
    ensures Spoken(c).value.SMsg? && Spoken(c).value.target == c.channel
  {
    hide Mentions;
  }

  /** A command puts `msg` on the link once if it says `msg` and the link carries it, else not at all. */
  lemma EmittedOnce(s: Server, c: Command, peer: string, msg: Line)
    requires peer in s.links && ChannelMessage(msg)
    ensures Pending(Emits(s, c, peer), msg) ==
            if Accepted(s, c) && Spoken(c) == Some(msg) && Trust.GoesOut(s, peer, msg.target) then 1 else 0
  {
    if Accepted(s, c) && Spoken(c).Some? {
      SpokenLines(s, c, peer);
      var l := Spoken(c).value;
      var rest := if c.Say? && c.notice then [] else Mentions(s, peer, Some(c.channel), c.mentions);
      PendingConcat(If(StartsWith(c.channel, "#") ==> ShouldRelay(s, peer, c.channel), l), rest, msg);
      NotPending(rest, msg);
      hide Emits;
    } else {
      NotEmitted(s, c, peer, msg);
      NotPending(Emits(s, c, peer), msg);
    }
  }

  lemma NotEmitted(s: Server, c: Command, peer: string, msg: Line)
    requires ChannelMessage(msg) && !(Accepted(s, c) && Spoken(c).Some?)
    ensures msg !in Emits(s, c, peer)
  {
    hide Mentions, ShouldRelay, Do;
  }

  /** A command at `x`. */
  lemma ActConserves(w: World, x: string, c: Command, a: string, b: string, msg: Line)
    requires Shaped(w) && x in w.servers && Linked(w, a, b) && ChannelMessage(msg)
    ensures (a, b) in w.wires && (a, b) in SendAll(w, x, c)
    ensures Pending(SendAll(w, x, c)[(a, b)], msg) == Pending(w.wires[(a, b)], msg) + Utters(w, Act(x, c), a, b, msg)
  {
    if x == a {
      EmittedOnce(w.servers[a], c, b, msg);
      PendingConcat(w.wires[(a, b)], Emits(w.servers[a], c, b), msg);
    }
  }

  /** What a delivery hands out. */
  lemma DeliveryHands(w: World, x: string, y: string, b: string, a: string, m: string, msg: Line)
    requires Shaped(w) && (x, y) in w.wires && w.wires[(x, y)] != [] && ChannelMessage(msg)
    ensures Heard(Hands(w, Deliver(x, y)), b, a, msg) == if (x, y) == (a, b) && w.wires[(x, y)][0] == msg then 1 else 0
    ensures CopiesGot(Hands(w, Deliver(x, y)), b, m, msg) ==
            if y == b && w.wires[(x, y)][0] == msg && Gets(w, x, b, m, msg) then 1 else 0
  {
    assert Linked(w, x, y) && Linked(w, y, x);
    var h := Hands(w, Deliver(x, y));
    assert h != [] ==> h[1..] == [];
    hide Copies;
  }

  /** What a delivery leaves in flight. */
  lemma DeliveryLeaves(w: World, x: string, y: string, k: Wire, msg: Line)
    requires Shaped(w) && (x, y) in w.wires && w.wires[(x, y)] != [] && k in w.wires
    ensures Linked(w, y, x) && k in AfterDeliver(w, x, y).wires
    ensures Pending(AfterDeliver(w, x, y).wires[k], msg) + (if k == (x, y) && w.wires[k][0] == msg then 1 else 0)
         == Pending(w.wires[k], msg)
    ensures forall l :: l in AfterDeliver(w, x, y).wires[k] ==> l in w.wires[k]
  {
    NoSecondHop(w, x, y);
    hide AfterDeliver;
    var wire := w.wires[(x, y)];
    assert wire == [wire[0]] + wire[1..];
    PendingConcat([wire[0]], wire[1..], msg);
    assert Pending([wire[0]], msg) == if wire[0] == msg then 1 else 0;
  }

  /** A line from `x` taken by `y`. */
  lemma DeliverConserves(w: World, x: string, y: string, a: string, b: string, msg: Line)
    requires Shaped(w) && Linked(w, a, b) && (x, y) in w.wires && w.wires[(x, y)] != [] && ChannelMessage(msg)
    ensures (a, b) in w.wires && Linked(w, y, x) && (a, b) in AfterDeliver(w, x, y).wires
    ensures Heard(Hands(w, Deliver(x, y)), b, a, msg) + Pending(AfterDeliver(w, x, y).wires[(a, b)], msg)
         == Pending(w.wires[(a, b)], msg)
  {
    DeliveryHands(w, x, y, b, a, "", msg);
    DeliveryLeaves(w, x, y, (a, b), msg);
  }

  /** Commands and changes of links hand nothing on from another server. */
  lemma NothingHeard(w: World, act: Action, a: string, b: string, msg: Line)
    requires Shaped(w) && Possible(w, act) && !act.Deliver? && a != b
    ensures Heard(Hands(w, act), b, a, msg) == 0
  {
    var h := Hands(w, act);
    assert h != [] ==> h[1..] == [] && h[0].at == h[0].via;
  }

  /** One action conserves the copies of `msg` between `a` and `b`. */
  lemma ActionConserves(w: World, act: Action, a: string, b: string, msg: Line)
    requires Shaped(w) && Possible(w, act) && Linked(w, a, b) && Steady([act], a, b) && ChannelMessage(msg)
    ensures Linked(Next(w, act), a, b) && (a, b) in Next(w, act).wires && (a, b) in w.wires
    ensures Heard(Hands(w, act), b, a, msg) + Pending(Next(w, act).wires[(a, b)], msg)
         == Pending(w.wires[(a, b)], msg) + Utters(w, act, a, b, msg)
  {
    assert [act][0] == act;
    NextShaped(w, act);
    if !act.Deliver? { NothingHeard(w, act, a, b, msg); }
    match act
    case Act(x, c) =>
      DoKeepsLinks(w.servers[x], c);
      ActConserves(w, x, c, a, b, msg);
      hide Do, SendAll, Hands, Utters, Emits, Heard;
    case Deliver(x, y) =>
      assert Linked(w, x, y);
      ReceiveKeepsLinks(w.servers[y], LinkTo(w.servers[y], x), w.wires[(x, y)][0]);
      DeliverConserves(w, x, y, a, b, msg);
      hide SendOn, Receive, Hands, Heard;
    case LinkUp(x, y, _, _, _, _) => hide Hands, Heard, IsBurst;
    case LinkDown(x, y) => hide Hands, Heard, Disconnect;
  }

  /**
   * Over any run that leaves the link between `a` and `b` alone: what `b` has been handed from `a`,
   * plus what is in flight, is what was in flight at the start plus what `a`'s own users said.
   */
  lemma {:induction false} MessagesConserved(w: World, acts: seq<Action>, a: string, b: string, msg: Line)
    requires Shaped(w) && Run(w, acts) && Linked(w, a, b) && Steady(acts, a, b) && ChannelMessage(msg)
    ensures Linked(End(w, acts), a, b) && (a, b) in End(w, acts).wires
    ensures Heard(Log(w, acts), b, a, msg) + Pending(End(w, acts).wires[(a, b)], msg)
         == Pending(w.wires[(a, b)], msg) + Uttered(w, acts, a, b, msg)
    decreases |acts|
  {
    if acts != [] {
      assert [acts[0]][0] == acts[0];
      assert forall i :: 0 <= i < |acts| - 1 ==> acts[1..][i] == acts[i + 1];
      ActionConserves(w, acts[0], a, b, msg);
      NextShaped(w, acts[0]);
      MessagesConserved(Next(w, acts[0]), acts[1..], a, b, msg);
      HeardConcat(Hands(w, acts[0]), Log(Next(w, acts[0]), acts[1..]), b, a, msg);
    }
  }

  // ---------------------------------------------------------------- one message in a full mesh

  /** Every two servers are linked with full trust, and `ch` is nowhere restricted. */
  ghost predicate FullMesh(w: World, ch: string) {
    && Shaped(w)
    && (forall a, b :: a in w.servers && b in w.servers && a != b ==>
      Linked(w, a, b) && w.servers[a].links[b] == "full")
    && (forall a :: a in w.servers && ch in w.servers[a].channels ==> !w.servers[a].channels[ch].restricted)
  }

  ghost predicate Quiet(w: World) {
    forall k :: k in w.wires ==> w.wires[k] == []
  }

  predicate OnlyDeliveries(acts: seq<Action>) {
    forall i :: 0 <= i < |acts| ==> acts[i].Deliver?
  }

  /** Lines that change nothing at the receiver. */
  ghost predicate OnlyTalk(w: World) {
    forall k, l :: k in w.wires && l in w.wires[k] ==> l.SMsg? || l.SMention?
  }

  /** How many copies of `msg` client `m` of server `b` got. */
  function CopiesGot(log: seq<Handed>, b: string, m: string, msg: Line): nat {
    if log == [] then 0
    else (if log[0].at == b && log[0].msg == msg && m in log[0].to then 1 else 0) + CopiesGot(log[1..], b, m, msg)
  }

  lemma {:induction false} CopiesConcat(x: seq<Handed>, y: seq<Handed>, b: string, m: string, msg: Line)
    ensures CopiesGot(x + y, b, m, msg) == CopiesGot(x, b, m, msg) + CopiesGot(y, b, m, msg)
  {
    if x == [] {
      assert x + y == y;
    } else {
      assert (x + y)[1..] == x[1..] + y;
      CopiesConcat(x[1..], y, b, m, msg);
    }
  }

  /** Whether client `m` of `b` gets a copy of `msg` each time it arrives from `a`. */
  predicate Gets(w: World, a: string, b: string, m: string, msg: Line)
  {
    b in w.servers && a in w.servers[b].links && m in Copies(w.servers[b], LinkTo(w.servers[b], a), msg)
  }

  /** Only `a` has `msg` on its way to `b`. */
  ghost predicate OnlyFrom(w: World, a: string, b: string, msg: Line) {
    forall x :: x != a && (x, b) in w.wires ==> msg !in w.wires[(x, b)]
  }

  /** Delivering talk changes no server. */
  lemma TalkChangesNothing(w: World, x: string, y: string)
    requires Shaped(w) && OnlyTalk(w) && (x, y) in w.wires && w.wires[(x, y)] != []
    ensures Linked(w, y, x) && AfterDeliver(w, x, y).servers == w.servers
  {
    assert Linked(w, x, y);
    var l := w.wires[(x, y)][0];
    var k := (x, y);
    assert k in w.wires && l in w.wires[k];
    assert l.SMsg? || l.SMention?;
    assert Receive(w.servers[y], LinkTo(w.servers[y], x), l) == w.servers[y];
  }

  lemma DrainStep(w: World, x: string, y: string, a: string, b: string, m: string, msg: Line)
    requires Shaped(w) && OnlyTalk(w) && (x, y) in w.wires && w.wires[(x, y)] != []
    requires (a, b) in w.wires && Linked(w, b, a) && OnlyFrom(w, a, b, msg) && ChannelMessage(msg)
    ensures Linked(w, y, x) && OnlyFrom(AfterDeliver(w, x, y), a, b, msg) && (a, b) in AfterDeliver(w, x, y).wires
    ensures CopiesGot(Hands(w, Deliver(x, y)), b, m, msg) ==
            if Gets(w, a, b, m, msg)
            then Pending(w.wires[(a, b)], msg) - Pending(AfterDeliver(w, x, y).wires[(a, b)], msg)
            else 0
  {
    DeliveryHands(w, x, y, b, a, m, msg);
    DeliveryLeaves(w, x, y, (a, b), msg);
    assert y == b && x != a ==> w.wires[(x, y)][0] != msg;
    NoSecondHop(w, x, y);
    hide AfterDeliver, Hands, CopiesGot, Gets, Pending;
  }

  /**
   * While only talk is delivered, every wire from `a` carries `msg` as often as its receiver still has
   * to hear it, so a client's copies are counted by the wire.
   */
  lemma {:induction false} DrainCounts(w: World, acts: seq<Action>, a: string, b: string, m: string, msg: Line)
    requires Shaped(w) && Run(w, acts) && OnlyDeliveries(acts) && OnlyTalk(w) && Linked(w, a, b) && ChannelMessage(msg)
    requires OnlyFrom(w, a, b, msg)
    ensures End(w, acts).servers == w.servers && End(w, acts).wires.Keys == w.wires.Keys && (a, b) in w.wires
    ensures CopiesGot(Log(w, acts), b, m, msg) ==
            if Gets(w, a, b, m, msg)
            then Pending(w.wires[(a, b)], msg) - Pending(End(w, acts).wires[(a, b)], msg)
            else 0
    decreases |acts|
  {
    assert (a, b) in w.wires && Linked(w, b, a);
    if acts == [] {
      assert CopiesGot(Log(w, acts), b, m, msg) == 0;
    } else {
      var act, w' := acts[0], Next(w, acts[0]);
      FirstDelivery(w, acts);
      TalkChangesNothing(w, act.from, act.to);
      DrainStep(w, act.from, act.to, a, b, m, msg);
      TalkStays(w, act.from, act.to);
      SameLinks(w, w', a, b, m, msg);
      hide *;
      DrainCounts(w', acts[1..], a, b, m, msg);
      CopiesConcat(Hands(w, act), Log(w', acts[1..]), b, m, msg);
    }
  }

  lemma SameLinks(w: World, w': World, a: string, b: string, m: string, msg: Line)
    requires w'.servers == w.servers && Shaped(w) && Shaped(w')
    ensures Linked(w', a, b) == Linked(w, a, b) && Gets(w', a, b, m, msg) == Gets(w, a, b, m, msg)
    ensures w'.wires.Keys == w.wires.Keys
  {
    assert forall x, y :: Linked(w', x, y) <==> Linked(w, x, y);
    forall k ensures k in w'.wires.Keys <==> k in w.wires.Keys { assert k == (k.0, k.1); }
  }

  lemma TalkStays(w: World, x: string, y: string)
    requires Shaped(w) && OnlyTalk(w) && (x, y) in w.wires && w.wires[(x, y)] != []
    ensures Linked(w, y, x) && OnlyTalk(AfterDeliver(w, x, y))
  {
    NoSecondHop(w, x, y);
    var w' := AfterDeliver(w, x, y);
    hide AfterDeliver;
    forall k, l | k in w'.wires && l in w'.wires[k] ensures l.SMsg? || l.SMention? {
      assert l in w.wires[k];
    }
  }

  /**
   * A message from a peer is handled by raising an event, and an event is told to every peer unless its
   * origin stops it. So a message that comes over any connection, registered or not, goes on a second hop
   * exactly when the peer at the other end has no name: before it has given one, or when that is empty.
   */
  lemma SecondHopIfNameless(s: Server, c: Conn, peer: string, msg: Line)
    requires ChannelMessage(msg) && Accepts(s, c, msg.target) && ShouldRelay(s, peer, msg.target)
    ensures Forwards(s, c, msg, peer) == if PeerName(c) == "" then [SMsg(msg.target, msg.nick, msg.text, false)] else []
  {
  }

  /**
   * A private message to somebody elsewhere reaches the peer he is at twice, as a line of its own and as the
   * relay of its event, and every other peer once.
   */
  lemma TellGoesTwice(s: Server, n: string, t: string, text: string, notice: bool, names: seq<string>, peer: string)
    requires n in s.clients && !StartsWith(t, "#") && t !in s.clients && t in s.remotes && peer in s.links
    ensures Pending(Emits(s, Tell(n, t, text, notice, names), peer), SMsg(t, n, text, notice)) ==
      if s.remotes[t] == peer then 2 else 1
  {
    var msg, e := SMsg(t, n, text, notice), Event(None, MessageEvent(t, n, text, notice), "");
    var direct, relayed := If(s.remotes[t] == peer, msg), Relay(s, peer, Some(e));
    var told := if notice then [] else Mentions(s, peer, None, names);
    assert relayed == [msg];
    assert Emits(s, Tell(n, t, text, notice, names), peer) == direct + relayed + told;
    NotPending(told, msg);
    PendingConcat(direct + relayed, told, msg);
    PendingConcat(direct, relayed, msg);
  }

  /** A private message to a client here would go on without its target. */
  lemma PrivateHopIfNameless(s: Server, c: Conn, peer: string, msg: Line)
    requires msg.SMsg? && !msg.notice && !StartsWith(msg.target, "#") && msg.target in s.clients && peer in s.links
    ensures Forwards(s, c, msg, peer) == if PeerName(c) == "" then [SMsg("", msg.nick, msg.text, false)] else []
  {
  }

  /** So does whatever an SEVENT says, and no origin written into it makes a difference. */
  lemma NoClaimCounts(s: Server, c: Conn, peer: string, claimed: string, e: Event, tag: string)
    ensures Forwards(s, c, SEvent(claimed, e), peer) == Forwards(s, c, SEvent("", e.(origin := tag)), peer)
    ensures Echoed(s, c, SEvent(claimed, e)).Some? ==> Echoed(s, c, SEvent(claimed, e)).value.origin == PeerName(c)
    ensures PeerName(c) != "" ==> Forwards(s, c, SEvent(claimed, e), peer) == []
    ensures PeerName(c) == "" && peer in s.links && e.channel.None? ==>
      Forwards(s, c, SEvent(claimed, e), peer) == LinkLines(s, peer, e.(origin := ""))
  {
    assert e.(origin := tag).(origin := PeerName(c)) == e.(origin := PeerName(c));
  }

  lemma TailOf(acts: seq<Action>)
    requires acts != []
    ensures OnlyDeliveries(acts) ==> OnlyDeliveries(acts[1..])
    ensures forall k :: multiset(acts)[k] == (if k == acts[0] then 1 else 0) + multiset(acts[1..])[k]
  {
    assert acts == [acts[0]] + acts[1..];
    assert forall i :: 0 <= i < |acts| - 1 ==> acts[1..][i] == acts[i + 1];
  }

  /** The first of a run of deliveries. */
  lemma FirstDelivery(w: World, acts: seq<Action>)
    requires Shaped(w) && Run(w, acts) && OnlyDeliveries(acts) && acts != []
    ensures var (x, y) := (acts[0].from, acts[0].to);
      && acts[0] == Deliver(x, y) && Possible(w, acts[0]) && (x, y) in w.wires && w.wires[(x, y)] != []
      && Linked(w, y, x)
      && Next(w, acts[0]) == AfterDeliver(w, x, y) && OnlyDeliveries(acts[1..])
    ensures Shaped(Next(w, acts[0])) && Run(Next(w, acts[0]), acts[1..])
    ensures Log(w, acts) == Hands(w, acts[0]) + Log(Next(w, acts[0]), acts[1..])
    ensures End(w, acts) == End(Next(w, acts[0]), acts[1..])
    ensures forall k :: multiset(acts)[k] == (if k == acts[0] then 1 else 0) + multiset(acts[1..])[k]
  {
    assert Possible(w, acts[0]) && acts[0].Deliver?;
    LogOfFirst(w, acts);
    hide Run, Log, End, AfterDeliver, Hands;
    NoSecondHop(w, acts[0].from, acts[0].to);
    TailOf(acts);
  }

  /** A delivery makes the wire it is from shorter by one line. */
  lemma DeliveryShortens(w: World, x: string, y: string, a: string, b: string)
    requires Shaped(w) && (x, y) in w.wires && w.wires[(x, y)] != [] && Linked(w, a, b)
    ensures Linked(w, y, x) && Linked(AfterDeliver(w, x, y), a, b)
    ensures (a, b) in w.wires && (a, b) in AfterDeliver(w, x, y).wires
    ensures (if (x, y) == (a, b) then 1 else 0) + |AfterDeliver(w, x, y).wires[(a, b)]| == |w.wires[(a, b)]|
  {
    NoSecondHop(w, x, y);
    ReceiveKeepsLinks(w.servers[y], LinkTo(w.servers[y], x), w.wires[(x, y)][0]);
    hide SendOn, Receive;
  }

  /** No delivery puts anything on any wire, so the lines in flight bound the deliveries that can follow. */
  lemma {:induction false} PropagationEnds(w: World, acts: seq<Action>, a: string, b: string)
    requires Shaped(w) && Run(w, acts) && OnlyDeliveries(acts) && Linked(w, a, b)
    ensures Linked(End(w, acts), a, b) && (a, b) in End(w, acts).wires
    ensures multiset(acts)[Deliver(a, b)] + |End(w, acts).wires[(a, b)]| == |w.wires[(a, b)]|
    decreases |acts|
  {
    if acts != [] {
      FirstDelivery(w, acts);
      DeliveryShortens(w, acts[0].from, acts[0].to, a, b);
      hide *;
      PropagationEnds(Next(w, acts[0]), acts[1..], a, b);
    }
  }

  /** In a full mesh every local member of the channel gets what arrives for it. */
  lemma MeshGets(w: World, a: string, b: string, m: string, ch: string, msg: Line)
    requires FullMesh(w, ch) && !TaskChannel(ch) && a in w.servers && b in w.servers && a != b
    requires ChannelMessage(msg) && msg.target == ch
    ensures Gets(w, a, b, m, msg) <==> ch in w.servers[b].channels && m in LocalNicks(w.servers[b].channels[ch])
  {
    assert Linked(w, a, b) && Linked(w, b, a);
    assert Accepts(w.servers[b], LinkTo(w.servers[b], a), ch);
  }

  /** What the sender's own server hands out. */
  lemma OwnCopies(w: World, a: string, c: Command, b: string, m: string)
    requires Shaped(w) && a in w.servers && c.Say? && Accepted(w.servers[a], c)
    ensures CopiesGot(Hands(w, Act(a, c)), b, m, SMsg(c.channel, c.nick, c.text, c.notice)) ==
            if b == a && m in SayCopies(w.servers[a], c.nick, c.channel) then 1 else 0
  {
    var h := Hands(w, Act(a, c));
    assert h == [Handed(a, a, SMsg(c.channel, c.nick, c.text, c.notice), SayCopies(w.servers[a], c.nick, c.channel))];
    assert h[1..] == [];
  }

  /** Of a message that is once on the wire from `a` to `b` and on no other to `b`, every local member gets one copy. */
  lemma OneCopyElsewhere(w: World, acts: seq<Action>, a: string, b: string, m: string, ch: string, msg: Line)
    requires FullMesh(w, ch) && !TaskChannel(ch) && a in w.servers && b in w.servers && a != b
    requires Run(w, acts) && OnlyDeliveries(acts) && OnlyTalk(w) && Quiet(End(w, acts))
    requires ChannelMessage(msg) && msg.target == ch && (a, b) in w.wires && Pending(w.wires[(a, b)], msg) == 1
    requires forall k :: k in w.wires && k.0 != a ==> w.wires[k] == []
    ensures CopiesGot(Log(w, acts), b, m, msg) ==
            if ch in w.servers[b].channels && m in LocalNicks(w.servers[b].channels[ch]) then 1 else 0
  {
    assert Linked(w, a, b);
    MeshGets(w, a, b, m, ch, msg);
    DrainCounts(w, acts, a, b, m, msg);
    assert End(w, acts).wires[(a, b)] == [];
    assert Pending([], msg) == 0;
  }

  /** What a message said in a full mesh leaves behind. */
  lemma Said(w: World, a: string, c: Command)
    requires c.Say? && FullMesh(w, c.channel) && Quiet(w) && !TaskChannel(c.channel) && a in w.servers
    requires Accepted(w.servers[a], c)
    ensures var w' := AfterAct(w, a, c);
      && w'.servers == w.servers && FullMesh(w', c.channel) && OnlyTalk(w')
      && (forall b :: b in w.servers && b != a ==>
            (a, b) in w'.wires && Pending(w'.wires[(a, b)], SMsg(c.channel, c.nick, c.text, c.notice)) == 1)
      && (forall k :: k in w'.wires && k.0 != a ==> w'.wires[k] == [])
  {
    SayStays(w.servers[a], c);
    NextShaped(w, Act(a, c));
    SaidWires(w, a, c.nick, c.channel, c.text, c.notice, c.mentions);
    var w' := AfterAct(w, a, c);
    assert w'.servers == w.servers[a := w.servers[a]] == w.servers;
    hide *;
    SameMesh(w, w', c.channel);
    AllWired(w', c.channel);
  }

  lemma SameMesh(w: World, w': World, ch: string)
    requires FullMesh(w, ch) && Shaped(w') && w'.servers == w.servers
    ensures FullMesh(w', ch)
  {
    forall x, y | x in w'.servers && y in w'.servers && x != y ensures Linked(w', x, y) { assert Linked(w, x, y); }
  }

  lemma AllWired(w: World, ch: string)
    requires FullMesh(w, ch)
    ensures forall a, b :: a in w.servers && b in w.servers && a != b ==> (a, b) in w.wires
  {
    forall a, b | a in w.servers && b in w.servers && a != b ensures (a, b) in w.wires { assert Linked(w, a, b); }
  }

  lemma SayStays(s: Server, c: Command)
    requires c.Say?
    ensures Do(s, c) == s
  {
  }

  /**
   * In a full mesh with nothing in flight, one message said by `n` at `a` and then delivered in any
   * order until nothing is in flight gives every local member of the channel on every server exactly
   * one copy, the sender and everybody else none.
   */
  lemma ExactlyOnce(w: World, a: string, n: string, ch: string, text: string, notice: bool, names: seq<string>,
                    acts: seq<Action>, b: string, m: string)
    requires FullMesh(w, ch) && Quiet(w) && !TaskChannel(ch) && a in w.servers && b in w.servers
    requires Accepted(w.servers[a], Say(n, ch, text, notice, names))
    requires var all := [Act(a, Say(n, ch, text, notice, names))] + acts;
             OnlyDeliveries(acts) && Run(w, all) && Quiet(End(w, all))
    ensures CopiesGot(Log(w, [Act(a, Say(n, ch, text, notice, names))] + acts), b, m, SMsg(ch, n, text, notice)) ==
            if ch in w.servers[b].channels && m in LocalNicks(w.servers[b].channels[ch]) && !(b == a && m == n)
            then 1 else 0
  {
    var c := Say(n, ch, text, notice, names);
    var all := [Act(a, c)] + acts;
    assert all[0] == Act(a, c) && all[1..] == acts;
    LogOfFirst(w, all);
    Said(w, a, c);
    var w' := AfterAct(w, a, c);
    CopiesConcat(Hands(w, Act(a, c)), Log(w', acts), b, m, SMsg(ch, n, text, notice));
    OwnCopies(w, a, c, b, m);
    if b == a {
      NothingComesBack(w', acts, a, m, SMsg(ch, n, text, notice));
    } else {
      OneCopyElsewhere(w', acts, a, b, m, ch, SMsg(ch, n, text, notice));
    }
  }

  lemma LogOfFirst(w: World, acts: seq<Action>)
    requires Shaped(w) && Run(w, acts) && acts != []
    ensures Shaped(Next(w, acts[0])) && Run(Next(w, acts[0]), acts[1..])
    ensures Log(w, acts) == Hands(w, acts[0]) + Log(Next(w, acts[0]), acts[1..])
    ensures End(w, acts) == End(Next(w, acts[0]), acts[1..])
  {
    NextShaped(w, acts[0]);
  }

  /** The wires right after the message was said. */
  lemma SaidWires(w: World, a: string, n: string, ch: string, text: string, notice: bool, names: seq<string>)
    requires FullMesh(w, ch) && Quiet(w) && !TaskChannel(ch) && a in w.servers
    requires Accepted(w.servers[a], Say(n, ch, text, notice, names))
    ensures var w' := AfterAct(w, a, Say(n, ch, text, notice, names));
            && OnlyTalk(w')
            && (forall b :: b in w.servers && b != a ==> Pending(w'.wires[(a, b)], SMsg(ch, n, text, notice)) == 1)
            && (forall k :: k in w'.wires && k.0 != a ==> w'.wires[k] == [])
  {
    var c := Say(n, ch, text, notice, names);
    var msg := SMsg(ch, n, text, notice);
    forall b | b in w.servers && b != a
      ensures (a, b) in SendAll(w, a, c) && Pending(SendAll(w, a, c)[(a, b)], msg) == 1
    {
      assert Linked(w, a, b);
      ActConserves(w, a, c, a, b, msg);
      assert w.wires[(a, b)] == [];
    }
    TalkOnly(w, a, c);
  }

  /** What a spoken message puts on quiet wires is talk. */
  lemma TalkOnly(w: World, a: string, c: Command)
    requires Shaped(w) && Quiet(w) && a in w.servers && c.Say?
    ensures OnlyTalk(AfterAct(w, a, c))
  {
    forall k, l | k in w.wires && l in SendAll(w, a, c)[k] ensures l.SMsg? || l.SMention? {
      assert w.wires[k] == [];
      if k.0 == a { SayIsTalk(w.servers[a], c, k.1); }
    }
    hide Emits, Do;
  }

  lemma SayIsTalk(s: Server, c: Command, peer: string)
    requires c.Say?
    ensures forall l :: l in Emits(s, c, peer) ==> l.SMsg? || l.SMention?
  {
    hide ShouldRelay, Trust.GoesOut, Accepted, Do;
  }

  /** A delivery to elsewhere hands `a` nothing, and puts nothing on wires that were empty. */
  lemma ElsewhereStep(w: World, x: string, y: string, a: string, m: string, msg: Line)
    requires Shaped(w) && (x, y) in w.wires && w.wires[(x, y)] != []
    requires forall k :: k in w.wires && k.0 != a ==> w.wires[k] == []
    ensures Linked(w, y, x) && CopiesGot(Hands(w, Deliver(x, y)), a, m, msg) == 0
    ensures forall k :: k in AfterDeliver(w, x, y).wires && k.0 != a ==> AfterDeliver(w, x, y).wires[k] == []
  {
    assert x == a && Linked(w, x, y);
    NoSecondHop(w, x, y);
    hide SendOn, Copies, Receive;
    var h := Hands(w, Deliver(x, y));
    assert h != [] ==> h[1..] == [];
  }

  /** The sender's own server hands the message out once: no peer sends it back. */
  lemma {:induction false} NothingComesBack(w: World, acts: seq<Action>, a: string, m: string, msg: Line)
    requires Shaped(w) && Run(w, acts) && OnlyDeliveries(acts) && OnlyTalk(w)
    requires forall k :: k in w.wires && k.0 != a ==> w.wires[k] == []
    ensures CopiesGot(Log(w, acts), a, m, msg) == 0
    decreases |acts|
  {
    if acts != [] {
      var x, y := acts[0].from, acts[0].to;
      FirstDelivery(w, acts);
      ElsewhereStep(w, x, y, a, m, msg);
      TalkStays(w, x, y);
      hide *;
      NothingComesBack(Next(w, acts[0]), acts[1..], a, m, msg);
      CopiesConcat(Hands(w, acts[0]), Log(Next(w, acts[0]), acts[1..]), a, m, msg);
    } else {
      assert Log(w, acts) == [];
    }
  }
}
