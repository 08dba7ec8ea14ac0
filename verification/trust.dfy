/**
 * Who is told what, and who is believed, said in the channels' own flags: what is about a restricted channel
 * stays at home, what is about any other goes to fully trusted peers and to those it is shared with, and the
 * same peers are let in.
 */
module Trust {
  import opened Text
  import opened Events
  import opened Rooms
  import opened Servers
  import opened ServerRun
  import L = EventLog

  // ---------------------------------------------------------------- outwards

  /** The channel is there, is open, and is for the peer. */
  predicate GoesOut(s: Server, peer: string, ch: string) {
    && !StartsWith(ch, "#task-") && ch in s.channels && !s.channels[ch].restricted && peer in s.links
    && (s.links[peer] == "full" || (s.links[peer] == "restricted" && peer in s.channels[ch].sharedWith))
  }

  /** The channel on which it depends whether a line goes out: for an archived one the name it has got. */
  function Decider(line: Line): Option<string> {
    match line
    case SJoin(ch, _) => Some(ch)
    case SPart(ch, _) => Some(ch)
    case SMsg(t, _, _, _) => if StartsWith(t, "#") then Some(t) else None
    case STopic(ch, _) => Some(ch)
    case SRoomMeta(ch, _) => Some(ch)
    case SRoomArchive(_, newName) => Some(newName)
    case SEvent(_, e) => e.channel
    case _ => None
  }

  /** A line may go out; a mention notice goes to a ghost of the peer, on the channel if it is about one. */
  predicate Lawful(s: Server, peer: string, line: Line) {
    && (Decider(line).Some? ==> GoesOut(s, peer, Decider(line).value))
    && (line.SMention? ==>
      && line.target in s.remotes && s.remotes[line.target] == peer
      && (line.about.Some? && line.about.value in s.channels ==> HasMember(s, line.about.value, Ghost(line.target))))
  }

  predicate AllLawful(s: Server, peer: string, lines: seq<Line>) {
    forall l :: l in lines ==> Lawful(s, peer, l)
  }

  lemma LawfulConcat(s: Server, peer: string, a: seq<Line>, b: seq<Line>)
    requires AllLawful(s, peer, a) && AllLawful(s, peer, b)
    ensures AllLawful(s, peer, a + b)
  {
  }

  lemma NothingLawful(s: Server, peer: string)
    ensures AllLawful(s, peer, [])
  {
  }

  lemma LinkLinesLawful(s: Server, peer: string, e: Event)
    requires peer in s.links
    ensures AllLawful(s, peer, LinkLines(s, peer, e))
  {
  }

  lemma RelayLawful(s: Server, peer: string, e: Option<Event>)
    ensures AllLawful(s, peer, Relay(s, peer, e))
  {
    hide LinkLines, Lawful;
    if e.Some? && peer in s.links { LinkLinesLawful(s, peer, e.value); }
  }

  lemma MentionsLawful(s: Server, peer: string, ch: Option<string>, names: seq<string>)
    ensures AllLawful(s, peer, Mentions(s, peer, ch, names))
  {
  }

  lemma TellLawful(s: Server, n: string, t: string, text: string, notice: bool, peer: string)
    requires !StartsWith(t, "#")
    ensures Lawful(s, peer, SMsg(t, n, text, notice))
  {
  }

  /** Whatever a command puts on a link may go there. */
  lemma EmitsLawful(s: Server, c: Command, peer: string)
    ensures AllLawful(AtEvent(s, c), peer, Emits(s, c, peer))
  {
    var raised := Relay(AtEvent(s, c), peer, Raised(s, c));
    RelayLawful(AtEvent(s, c), peer, Raised(s, c));
    NothingLawful(s, peer);
    if Accepted(s, c) && peer in s.links {
      match c
      case Say(_, ch, _, _, names) =>
        MentionsLawful(s, peer, Some(ch), names);
        hide Relay, Raised, Mentions, Lawful;
        LawfulConcat(s, peer, raised, Mentions(s, peer, Some(ch), names));
        LawfulConcat(s, peer, raised, []);
      case BotSay(_, ch, _, names) =>
        MentionsLawful(s, peer, Some(ch), names);
        hide Relay, Raised, Mentions, Lawful;
        LawfulConcat(s, peer, raised, Mentions(s, peer, Some(ch), names));
      case Tell(n, t, text, notice, names) =>
        TellLawful(s, n, t, text, notice, peer);
        MentionsLawful(s, peer, None, names);
        hide Relay, Raised, Mentions, Lawful;
        var direct := If(t !in s.clients && t in s.remotes && s.remotes[t] == peer, SMsg(t, n, text, notice));
        LawfulConcat(s, peer, direct, raised);
        LawfulConcat(s, peer, direct + raised, Mentions(s, peer, None, names));
        LawfulConcat(s, peer, direct + raised, []);
      case _ =>
    }
  }

  lemma {:induction false} ReplayLawful(s: Server, peer: string, log: seq<L.Entry>, above: int)
    requires peer in s.links
    ensures AllLawful(s, peer, Replay(s, peer, log, above))
    decreases |log|
  {
    NothingLawful(s, peer);
    if log != [] {
      var e := log[|log| - 1].1;
      ReplayLawful(s, peer, log[..|log| - 1], above);
      LinkLinesLawful(s, peer, e);
      hide LinkLines, AllLawful;
      LawfulConcat(s, peer, Replay(s, peer, log[..|log| - 1], above), LinkLines(s, peer, e));
      LawfulConcat(s, peer, Replay(s, peer, log[..|log| - 1], above), []);
    }
  }

  lemma BurstLawful(s: Server, peer: string, lines: seq<Line>)
    requires IsBurst(s, peer, lines)
    ensures AllLawful(s, peer, lines)
  {
    var j, k :| 0 <= j <= k <= |lines| &&
      IsRoster(s, lines[..j]) && IsMembership(s, peer, lines[j..k]) && IsRoomInfo(s, peer, lines[k..]);
    forall i | 0 <= i < |lines| ensures Lawful(s, peer, lines[i]) {
      if i < j { assert lines[i] == lines[..j][i]; }
      else if i < k { assert lines[i] == lines[j..k][i - j]; }
      else { assert lines[i] == lines[k..][i - k]; }
    }
  }

  /** The server at the moment at which an input puts lines on links. */
  function Moment(s: Server, i: Input): Server {
    if i.Command? then AtEvent(s, i.command) else ServerAfter(s, i)
  }

  lemma OutputLawful(st: State, i: Input, peer: string)
    requires Possible(st, i)
    ensures AllLawful(Moment(st.server, i), peer, Output(st, i, peer))
  {
    var s := Moment(st.server, i);
    NothingLawful(s, peer);
    match i
    case Command(c) => EmitsLawful(st.server, c, peer);
    case FromPeer(c, line) => RelayLawful(s, peer, Echoed(st.server, c, line));
    case LinkUp(p, trust, burst) =>
      BurstLawful(s, p, burst);
      RelayLawful(s, peer, EventOf(st.server, i));
      hide AllLawful, Relay, IsBurst;
      LawfulConcat(s, peer, if p == peer then burst else [], Relay(s, peer, EventOf(st.server, i)));
    case LinkDown(p) => RelayLawful(s, peer, EventOf(st.server, i));
    case Backfill(p, claimed) =>
      var acked := AckedOf(st, p);
      ReplayLawful(s, p, L.Window(st.history), if claimed > acked then claimed else acked);
  }

  /** Everything that goes to the peer may go there when it does. */
  ghost predicate LawfulRun(st: State, inputs: seq<Input>, peer: string)
    decreases |inputs|
  {
    inputs == [] ||
    (AllLawful(Moment(st.server, inputs[0]), peer, Output(st, inputs[0], peer))
      && LawfulRun(Step(st, inputs[0]), inputs[1..], peer))
  }

  /**
   * Over every run of commands, lines, links and replays: a line about a channel goes on a link only while the
   * channel is registered and not restricted, and the link is full or the channel is shared with the peer.
   */
  lemma {:induction false} OnlyOpenChannelsLeave(st: State, inputs: seq<Input>, peer: string)
    requires Run(st, inputs)
    ensures LawfulRun(st, inputs, peer)
    decreases |inputs|
  {
    if inputs != [] {
      OutputLawful(st, inputs[0], peer);
      hide AllLawful, Output, Step, Moment, Possible;
      OnlyOpenChannelsLeave(Step(st, inputs[0]), inputs[1..], peer);
    }
  }

  /** What is said on a channel goes to a peer exactly if the channel is open and for that peer. */
  lemma SayGoesOut(s: Server, n: string, ch: string, text: string, notice: bool, names: seq<string>, peer: string)
    requires StartsWith(ch, "#") && HasMember(s, ch, Local(n)) && peer in s.links
    ensures SMsg(ch, n, text, notice) in Emits(s, Say(n, ch, text, notice, names), peer) <==> GoesOut(s, peer, ch)
  {
    var c, msg := Say(n, ch, text, notice, names), SMsg(ch, n, text, notice);
    var e := Event(Some(ch), MessageEvent("", n, text, notice), "");
    var told := if notice then [] else Mentions(s, peer, Some(ch), names);
    assert Emits(s, c, peer) == Relay(s, peer, Some(e)) + told;
    assert forall l :: l in told ==> l.SMention?;
    assert LinkLines(s, peer, e) == If(ShouldRelay(s, peer, ch), msg);
  }

  /** So does every other event of a channel, and an archived one by the name it has got. */
  lemma EventGoesOut(s: Server, peer: string, e: Event)
    requires e.channel.Some? && (e.body.MessageEvent? ==> StartsWith(e.channel.value, "#")) && !e.body.QuitEvent?
    requires peer in s.links
    ensures LinkLines(s, peer, e) != [] <==>
      GoesOut(s, peer, if e.body.ArchiveEvent? then e.body.newName else e.channel.value)
  {
  }

  /** The one line, if the channel goes out. */
  function IfOut(s: Server, peer: string, ch: string, line: Line): seq<Line> {
    if GoesOut(s, peer, ch) then [line] else []
  }

  /** What each command other than a message puts on a link, in so many words. */
  lemma CommandTells(s: Server, c: Command, peer: string)
    requires Accepted(s, c) && peer in s.links && !c.Say? && !c.BotSay? && !c.Tell?
    ensures Emits(s, c, peer) ==
      match c
      case Register(n) => [SNick(n)]
      case Join(n, ch) => if PeekNick(n) then [] else IfOut(Do(s, c), peer, ch, SJoin(ch, [n]))
      case Part(n, ch) => if PeekNick(n) then [] else IfOut(s, peer, ch, SPart(ch, n))
      case Quit(n) => [SQuitUser(n)]
      case Topic(n, ch) => IfOut(s, peer, ch, STopic(ch, n))
      case Annotate(ch, persistent) => IfOut(s, peer, ch, SRoomMeta(ch, persistent))
      case ArchiveRoom(ch) =>
        IfOut(Do(s, c), peer, ArchiveNameOf(s, ch), SRoomArchive(ch, ArchiveNameOf(s, ch)))
      case BotJoin(b, ch) => IfOut(Do(s, c), peer, ch, SJoin(ch, [b]))
      case BotPart(b, ch) => IfOut(s, peer, ch, SPart(ch, b))
      case Announce(kind, scope) =>
        var line := SEvent(s.name, Event(scope, OtherEvent(kind), ""));
        if scope.None? then [line] else IfOut(s, peer, scope.value, line)
      case _ => []
  {
    RelayedIsOpen(AtEvent(s, c), peer);
    LinksStay(s, c);
    hide ShouldRelay, GoesOut, Do, ArchiveNameOf, PeekNick;
  }

  lemma LinksStay(s: Server, c: Command)
    ensures AtEvent(s, c).links == s.links && AtEvent(s, c).name == s.name
  {
  }

  lemma RelayedIsOpen(s: Server, peer: string)
    ensures forall ch :: ShouldRelay(s, peer, ch) <==> GoesOut(s, peer, ch)
  {
  }

  /** A new peer is told of every local member of every channel that is open and for it. */
  lemma BurstTellsAll(s: Server, peer: string, lines: seq<Line>, n: string, ch: string)
    requires IsBurst(s, peer, lines) && GoesOut(s, peer, ch) && HasMember(s, ch, Local(n))
    ensures exists l :: l in lines && l.SJoin? && l.channel == ch && n in l.nicks
  {
    var j, k :| 0 <= j <= k <= |lines| &&
      IsRoster(s, lines[..j]) && IsMembership(s, peer, lines[j..k]) && IsRoomInfo(s, peer, lines[k..]);
    assert Local(n).nick in Announced(s, ch);
    var i :| 0 <= i < |lines[j..k]| && lines[j..k][i].SJoin? && lines[j..k][i].channel == ch;
    assert lines[j..k][i] == lines[j + i];
  }

  /** The mention notices of a message are for the mentioned ghosts of the peer, on the channel if it is on one. */
  lemma {:induction false} MentionsExactly(s: Server, peer: string, ch: Option<string>, names: seq<string>, t: string)
    ensures SMention(t, ch) in Mentions(s, peer, ch, names) <==>
      && t in names && t in s.remotes && s.remotes[t] == peer
      && (ch.Some? && ch.value in s.channels ==> HasMember(s, ch.value, Ghost(t)))
  {
    if names != [] {
      MentionsExactly(s, peer, ch, names[1..], t);
      assert names == [names[0]] + names[1..];
    }
  }

  /** Mention notices do not ask: a ghost that is already on a channel hears of it after it was restricted. */
  lemma MentionLeavesRestricted(text: string)
    ensures var room := Channel({Local("thor-a"), Ghost("spark-b")}, true, {}, false, false);
      var s := Server("thor", {"thor-a"}, {}, map["spark-b" := "spark"], map["#ops" := room], map["spark" := "full"]);
      Emits(s, Say("thor-a", "#ops", text, false, ["spark-b"]), "spark") == [SMention("spark-b", Some("#ops"))]
  {
    var room := Channel({Local("thor-a"), Ghost("spark-b")}, true, {}, false, false);
    var s := Server("thor", {"thor-a"}, {}, map["spark-b" := "spark"], map["#ops" := room], map["spark" := "full"]);
    assert ["spark-b"][1..] == [];
    assert Mentions(s, "spark", Some("#ops"), []) == [];
    assert Mentions(s, "spark", Some("#ops"), ["spark-b"]) == [SMention("spark-b", Some("#ops"))];
    assert StartsWith("#ops", "#") by { assert "#ops"[..1] == "#"; }
  }

  // ---------------------------------------------------------------- inwards

  /** The channel is closed to what comes over the connection. */
  predicate Shut(s: Server, c: Conn, ch: string) {
    || StartsWith(ch, "#task-")
    || (ch in s.channels && s.channels[ch].restricted)
    || (c.trust == "restricted" && (ch !in s.channels || c.peer.None? || c.peer.value !in s.channels[ch].sharedWith))
  }

  /** Lines about a channel that is closed to their sender change nothing, reach nobody and raise no event. */
  lemma ShutOut(s: Server, c: Conn, line: Line, ch: string)
    requires Shut(s, c, ch)
    ensures (line.SJoin? || line.SPart? || line.SRoomArchive?) && line.channel == ch ==> Receive(s, c, line) == s
    ensures line.SRoomMeta? && line.channel == ch && ch in s.channels && !StartsWith(ch, "#task-") ==>
      Receive(s, c, line) == s
    ensures line.SMsg? && line.target == ch && StartsWith(ch, "#") ==>
      Copies(s, c, line) == {} && Echoed(s, c, line).None?
    ensures line.SEvent? && line.event.channel == Some(ch) ==> Echoed(s, c, line).None?
  {
  }

  /** All other lines about channels are believed. */
  lemma LetIn(s: Server, c: Conn, line: Line, ch: string, n: string)
    requires !Shut(s, c, ch)
    ensures line.SJoin? && line.channel == ch ==>
      && ch in Receive(s, c, line).channels
      && (n in line.nicks && n in s.remotes ==> HasMember(Receive(s, c, line), ch, Ghost(n)))
    ensures line.SRoomMeta? && line.channel == ch ==>
      ch in Receive(s, c, line).channels && Receive(s, c, line).channels[ch].persistent == line.persistent
    ensures line == SPart(ch, n) && n in s.remotes ==> !HasMember(Receive(s, c, line), ch, Ghost(n))
    ensures line.SRoomArchive? && line.channel == ch && ch in s.channels ==>
      line.newName in Receive(s, c, line).channels && Receive(s, c, line).channels[line.newName].archived
      && (line.newName != ch ==> ch !in Receive(s, c, line).channels)
    ensures line.SMsg? && line.target == ch && StartsWith(ch, "#") && ch in s.channels ==>
      && (n in Copies(s, c, line) <==> HasMember(s, ch, Local(n)))
      && Echoed(s, c, line) == Some(Event(Some(ch), MessageEvent("", line.nick, line.text, false), PeerName(c)))
    ensures line.SEvent? && line.event.channel == Some(ch) ==>
      Echoed(s, c, line) == Some(line.event.(origin := PeerName(c)))
  {
    if n in Copies(s, c, line) && line.SMsg? && line.target == ch && ch in s.channels {
      var m :| m in s.channels[ch].members && m.Local? && m.nick == n;
      assert m == Local(n);
    }
    if HasMember(s, ch, Local(n)) { assert Local(n).nick in LocalNicks(s.channels[ch]); }
  }

  /** A private message raises an event exactly if it is no notice and for somebody connected here or the system. */
  lemma PrivateEchoed(s: Server, c: Conn, t: string, n: string, text: string, notice: bool)
    requires !StartsWith(t, "#")
    ensures Echoed(s, c, SMsg(t, n, text, notice)) ==
      if !notice && (t in s.clients || t == "system-" + s.name)
      then Some(Event(None, MessageEvent("", n, text, false), PeerName(c))) else None
    ensures Receive(s, c, SMsg(t, n, text, notice)) == s
  {
  }

  /** The input brings a ghost into a channel that is not closed to the connection it comes over. */
  predicate ComesIn(s: Server, i: Input, ch: string, n: string) {
    i.FromPeer? && i.line.SJoin? && i.line.channel == ch && n in i.line.nicks && n in s.remotes && !Shut(s, i.conn, ch)
  }

  predicate CameIn(st: State, inputs: seq<Input>, ch: string, n: string)
    decreases |inputs|
  {
    inputs != [] && (ComesIn(st.server, inputs[0], ch, n) || CameIn(Step(st, inputs[0]), inputs[1..], ch, n))
  }

  lemma OneGhostMore(s: Server, i: Input, ch: string, n: string)
    ensures HasMember(ServerAfter(s, i), ch, Ghost(n)) ==> HasMember(s, ch, Ghost(n)) || ComesIn(s, i, ch, n)
  {
    match i
    case Command(c) => CommandsBringNoGhost(s, c, ch, n);
    case FromPeer(c, line) => LinesBringGhosts(s, c, line, ch, n);
    case LinkDown(p) =>
    case _ =>
  }

  lemma CommandsBringNoGhost(s: Server, c: Command, ch: string, n: string)
    ensures HasMember(Do(s, c), ch, Ghost(n)) ==> HasMember(s, ch, Ghost(n))
  {
  }

  lemma LinesBringGhosts(s: Server, c: Conn, line: Line, ch: string, n: string)
    ensures HasMember(Receive(s, c, line), ch, Ghost(n)) ==>
      HasMember(s, ch, Ghost(n)) || ComesIn(s, FromPeer(c, line), ch, n)
  {
  }

  /**
   * Over every run: a ghost is on a channel only if it was there at the start, or was announced there over a
   * connection to which the channel was open at that moment.
   */
  lemma {:induction false} GhostsWereLetIn(st: State, inputs: seq<Input>, ch: string, n: string)
    requires Run(st, inputs)
    ensures HasMember(Final(st, inputs).server, ch, Ghost(n)) ==>
      HasMember(st.server, ch, Ghost(n)) || CameIn(st, inputs, ch, n)
    decreases |inputs|
  {
    if inputs != [] {
      OneGhostMore(st.server, inputs[0], ch, n);
      hide HasMember, ComesIn, Possible, ServerAfter;
      GhostsWereLetIn(Step(st, inputs[0]), inputs[1..], ch, n);
    }
  }

  /** At every line from a peer the channel is closed to it. */
  predicate StaysShut(st: State, inputs: seq<Input>, ch: string)
    decreases |inputs|
  {
    inputs == [] ||
    ((inputs[0].FromPeer? ==> Shut(st.server, inputs[0].conn, ch)) && StaysShut(Step(st, inputs[0]), inputs[1..], ch))
  }

  /** No line from a peer reaches anybody on the channel or raises an event about it. */
  predicate Unheard(st: State, inputs: seq<Input>, ch: string)
    decreases |inputs|
  {
    inputs == [] || (UnheardLine(st.server, inputs[0], ch) && Unheard(Step(st, inputs[0]), inputs[1..], ch))
  }

  predicate UnheardLine(s: Server, i: Input, ch: string) {
    i.FromPeer? ==>
      && (i.line.SMsg? && i.line.target == ch ==> Copies(s, i.conn, i.line) == {})
      && (EventOf(s, i).Some? ==> EventOf(s, i).value.channel != Some(ch))
  }

  lemma LineUnheard(s: Server, i: Input, ch: string)
    requires StartsWith(ch, "#") && (i.FromPeer? ==> Shut(s, i.conn, ch))
    ensures UnheardLine(s, i, ch)
  {
    if i.FromPeer? { ShutOut(s, i.conn, i.line, ch); }
  }

  /** Over every run in which a channel is closed to all who speak, no ghost comes in and nothing is heard. */
  lemma {:induction false} ShutChannelsAreQuiet(st: State, inputs: seq<Input>, ch: string, n: string)
    requires Run(st, inputs) && StartsWith(ch, "#") && StaysShut(st, inputs, ch)
    ensures Unheard(st, inputs, ch)
    ensures HasMember(Final(st, inputs).server, ch, Ghost(n)) ==> HasMember(st.server, ch, Ghost(n))
    decreases |inputs|
  {
    if inputs != [] {
      LineUnheard(st.server, inputs[0], ch);
      OneGhostMore(st.server, inputs[0], ch, n);
      hide HasMember, Possible, ServerAfter, UnheardLine, Shut;
      ShutChannelsAreQuiet(Step(st, inputs[0]), inputs[1..], ch, n);
    }
  }
}
