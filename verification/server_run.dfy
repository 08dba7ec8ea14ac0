/**
 * One server through time: local commands, lines from peers, links up and down, replays. Every event is
 * logged; what goes to a peer is its command's lines, the relay of its event, a burst or a replay.
 */
module ServerRun {
  import opened Text
  import opened Events
  import opened Servers
  import L = EventLog

  /** The server, all events it has raised, and the number remembered for each peer at its last drop. */
  datatype State = State(server: Server, history: seq<Event>, acked: map<string, nat>)

  /**
   * Everything that can happen to one server; lines may come before a handshake is over. `burst` is the burst it sends
   * when a link goes up.
   */
  datatype Input =
    | Command(command: Command)
    | FromPeer(conn: Conn, line: Line)
    | LinkUp(peer: string, trust: string, burst: seq<Line>)
    | LinkDown(peer: string)
    | Backfill(peer: string, claimed: int)

  ghost predicate Possible(st: State, i: Input) {
    match i
    case Command(_) => true
    case FromPeer(_, _) => true
    case LinkUp(p, trust, burst) => IsBurst(Connect(st.server, p, trust), p, burst)
    case LinkDown(p) => p in st.server.links
    case Backfill(p, _) => p in st.server.links
  }

  /** The event the input raises, if any. */
  function EventOf(s: Server, i: Input): Option<Event> {
    match i
    case Command(c) => Raised(s, c)
    case FromPeer(c, line) => Echoed(s, c, line)
    case LinkUp(_, _, _) => Some(SystemEvent(SERVER_LINK))
    case LinkDown(_) => Some(SystemEvent(SERVER_UNLINK))
    case Backfill(_, _) => None
  }

  function ServerAfter(s: Server, i: Input): Server {
    match i
    case Command(c) => Do(s, c)
    case FromPeer(c, line) => Receive(s, c, line)
    case LinkUp(p, trust, _) => Connect(s, p, trust)
    case LinkDown(p) => Disconnect(s, p)
    case Backfill(_, _) => s
  }

  function Logged(h: seq<Event>, e: Option<Event>): seq<Event> { if e.Some? then h + [e.value] else h }

  function Step(st: State, i: Input): State {
    State(ServerAfter(st.server, i), Logged(st.history, EventOf(st.server, i)),
          if i.LinkDown? then st.acked[i.peer := |st.history|] else st.acked)
  }

  function AckedOf(st: State, peer: string): nat { if peer in st.acked then st.acked[peer] else 0 }

  /** The replay over the log: own messages with higher numbers, as far as the link carries them now. */
  function Replay(s: Server, peer: string, log: seq<L.Entry>, above: int): seq<Line>
    decreases |log|
  {
    if log == [] then []
    else
      var (number, e) := log[|log| - 1];
      Replay(s, peer, log[..|log| - 1], above)
      + if number > above && !Federated(e) && e.body.MessageEvent? then LinkLines(s, peer, e) else []
  }

  /** What the input puts on the link to `peer`. */
  function Output(st: State, i: Input, peer: string): seq<Line> {
    match i
    case Command(c) => Emits(st.server, c, peer)
    case FromPeer(c, line) => Forwards(st.server, c, line, peer)
    case LinkUp(p, _, burst) =>
      (if p == peer then burst else []) + Relay(ServerAfter(st.server, i), peer, EventOf(st.server, i))
    case LinkDown(p) => Relay(ServerAfter(st.server, i), peer, EventOf(st.server, i))
    case Backfill(p, claimed) =>
      if p != peer then []
      else
        var acked := AckedOf(st, p);
        Replay(st.server, p, L.Window(st.history), if claimed > acked then claimed else acked)
  }

  ghost predicate Run(st: State, inputs: seq<Input>)
    decreases |inputs|
  {
    inputs == [] || (Possible(st, inputs[0]) && Run(Step(st, inputs[0]), inputs[1..]))
  }

  function Outputs(st: State, inputs: seq<Input>, peer: string): seq<Line>
    requires Run(st, inputs)
    decreases |inputs|
  {
    if inputs == [] then [] else Output(st, inputs[0], peer) + Outputs(Step(st, inputs[0]), inputs[1..], peer)
  }

  function Final(st: State, inputs: seq<Input>): State
    requires Run(st, inputs)
    decreases |inputs|
  {
    if inputs == [] then st else Final(Step(st, inputs[0]), inputs[1..])
  }
}
