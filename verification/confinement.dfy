/**
 * Task channels stay on their server: whatever peers send and whatever local users do, no ghost is
 * ever a member of one and no line about one is sent, live, in a burst or in a replay.
 */
module Confinement {
  import opened Text
  import opened Events
  import opened Servers
  import opened Rooms
  import opened ServerRun
  import A = ArchiveNames
  import L = EventLog

  predicate NoTaskGhost(s: Server) {
    forall ch, m :: ch in s.channels && m in s.channels[ch].members && TaskChannel(ch) ==> !m.Ghost?
  }

  /** The channel a line tells the peer something about, if any. */
  function Scope(line: Line): Option<string> {
    match line
    case SJoin(ch, _) => Some(ch)
    case SPart(ch, _) => Some(ch)
    case SMsg(t, _, _, _) => Some(t)
    case SMention(_, about) => about
    case STopic(ch, _) => Some(ch)
    case SRoomMeta(ch, _) => Some(ch)
    case SRoomArchive(ch, _) => Some(ch)
    case SEvent(_, e) => e.channel
    case _ => None
  }

  predicate Confined(lines: seq<Line>) {
    forall l :: l in lines && Scope(l).Some? ==> !TaskChannel(Scope(l).value)
  }

  /** Any line at all, over a connection of any trust, registered or not. */
  lemma ReceiveKeepsTaskLocal(s: Server, c: Conn, line: Line)
    requires NoTaskGhost(s)
    ensures NoTaskGhost(Receive(s, c, line))
  {
  }

  lemma DoKeepsTaskLocal(s: Server, c: Command)
    requires NoTaskGhost(s)
    ensures NoTaskGhost(Do(s, c))
  {
  }

  lemma TaskStartsWithHash(t: string)
    requires TaskChannel(t)
    ensures StartsWith(t, "#")
  {
    assert t[..1] == t[..|TASK_PREFIX|][..1];
  }

  lemma MentionsConfined(s: Server, peer: string, ch: string, names: seq<string>)
    requires NoTaskGhost(s) && ch in s.channels
    ensures Confined(Mentions(s, peer, Some(ch), names))
  {
    forall l | l in Mentions(s, peer, Some(ch), names) ensures !TaskChannel(ch) {
      var m := Ghost(l.target);
      assert m in s.channels[ch].members && m.Ghost?;
    }
  }

  lemma ConfinedConcat(a: seq<Line>, b: seq<Line>)
    requires Confined(a) && Confined(b)
    ensures Confined(a + b)
  {
  }

  /** A task channel is archived as a task channel. */
  lemma ArchivedAsTask(s: Server, ch: string)
    requires TaskChannel(ch)
    ensures TaskChannel(ArchiveNameOf(s, ch))
  {
    var new' := A.NextArchiveName(s.channels.Keys, ch);
    assert ch + "-archived" <= new';
    assert new'[..|TASK_PREFIX|] == ch[..|TASK_PREFIX|];
  }

  /** An event that takes no task channel to a name that is none. */
  predicate KeepsTask(e: Event) {
    e.body.ArchiveEvent? && e.channel.Some? && TaskChannel(e.channel.value) ==> TaskChannel(e.body.newName)
  }

  lemma RaisedKeepsTask(s: Server, c: Command)
    requires Raised(s, c).Some?
    ensures KeepsTask(Raised(s, c).value)
  {
    if c.ArchiveRoom? && TaskChannel(c.channel) { ArchivedAsTask(s, c.channel); }
  }

  lemma EchoedKeepsTask(s: Server, c: Conn, line: Line)
    requires Echoed(s, c, line).Some?
    ensures KeepsTask(Echoed(s, c, line).value)
  {
  }

  /** The trust rules keep an event about a task channel from every link. */
  lemma LinkLinesConfined(s: Server, peer: string, e: Event)
    requires KeepsTask(e)
    ensures Confined(LinkLines(s, peer, e))
  {
    if e.body.MessageEvent? && TaskChannel(Target(e)) { TaskStartsWithHash(Target(e)); }
  }

  lemma RelayConfined(s: Server, peer: string, e: Option<Event>)
    requires e.Some? ==> KeepsTask(e.value)
    ensures Confined(Relay(s, peer, e))
  {
    hide LinkLines, KeepsTask;
    if e.Some? { LinkLinesConfined(s, peer, e.value); }
  }

  lemma EmitsConfined(s: Server, c: Command, peer: string)
    requires NoTaskGhost(s)
    ensures Confined(Emits(s, c, peer))
  {
    if Raised(s, c).Some? { RaisedKeepsTask(s, c); }
    RelayConfined(AtEvent(s, c), peer, Raised(s, c));
    if Accepted(s, c) && (c.Say? || c.BotSay?) {
      SpokenAbout(s, c);
      MentionsConfined(s, peer, c.channel, c.mentions);
      ConfinedConcat(Relay(s, peer, Raised(s, c)), Mentions(s, peer, Some(c.channel), c.mentions));
      ConfinedConcat(Relay(s, peer, Raised(s, c)), []);
    } else if Accepted(s, c) && c.Tell? {
      TellConfined(s, c, peer);
    }
    hide Relay, Raised, Mentions, Confined, NoTaskGhost;
    if !c.Tell? || !Accepted(s, c) { EmitsForm(s, c, peer); }
  }

  lemma SpokenAbout(s: Server, c: Command)
    requires Accepted(s, c) && (c.Say? || c.BotSay?)
    ensures c.channel in s.channels
  {
  }

  /** A private message names a nick, so it is about no channel. */
  lemma TellConfined(s: Server, c: Command, peer: string)
    requires Accepted(s, c) && c.Tell?
    ensures Confined(Emits(s, c, peer))
  {
    if TaskChannel(c.target) { TaskStartsWithHash(c.target); }
    forall l | l in Mentions(s, peer, None, c.mentions) ensures Scope(l).None? {}
  }

  /** A command's lines other than those of private messages. */
  lemma EmitsForm(s: Server, c: Command, peer: string)
    requires !c.Tell? || !Accepted(s, c)
    ensures Emits(s, c, peer) ==
      if !Accepted(s, c) || peer !in s.links then []
      else if c.Register? then [SNick(c.nick)]
      else if c.Say? && c.notice then Relay(AtEvent(s, c), peer, Raised(s, c)) + []
      else if c.Say? || c.BotSay? then
        Relay(AtEvent(s, c), peer, Raised(s, c)) + Mentions(s, peer, Some(c.channel), c.mentions)
      else Relay(AtEvent(s, c), peer, Raised(s, c))
    ensures c.Say? || c.BotSay? ==> AtEvent(s, c) == s
    ensures Confined([]) && (c.Register? ==> Confined([SNick(c.nick)]))
  {
    hide Relay, Raised, Mentions;
  }

  /** A replay is filtered by what the link carries when it is made, not when the message was said. */
  lemma {:induction false} ReplayConfined(s: Server, peer: string, log: seq<L.Entry>, above: int)
    ensures Confined(Replay(s, peer, log, above))
    decreases |log|
  {
    if log != [] {
      var e := log[|log| - 1].1;
      ReplayConfined(s, peer, log[..|log| - 1], above);
      NothingConfined();
      if e.body.MessageEvent? {
        LinkLinesConfined(s, peer, e);
        ConfinedConcat(Replay(s, peer, log[..|log| - 1], above), LinkLines(s, peer, e));
      }
      hide LinkLines, Confined;
      ConfinedConcat(Replay(s, peer, log[..|log| - 1], above), []);
    }
  }

  lemma NothingConfined()
    ensures Confined([])
  {
  }

  lemma BurstConfined(s: Server, peer: string, lines: seq<Line>)
    requires IsBurst(s, peer, lines)
    ensures Confined(lines)
  {
    var j, k :| 0 <= j <= k <= |lines| &&
      IsRoster(s, lines[..j]) && IsMembership(s, peer, lines[j..k]) && IsRoomInfo(s, peer, lines[k..]);
    forall i | 0 <= i < |lines| ensures Scope(lines[i]).Some? ==> !TaskChannel(Scope(lines[i]).value) {
      if i < j { assert lines[i] == lines[..j][i]; }
      else if i < k { assert lines[i] == lines[j..k][i - j]; }
      else { assert lines[i] == lines[k..][i - k]; }
    }
  }

  // ---------------------------------------------------------------- whole runs

  lemma StepKeepsTaskLocal(st: State, i: Input)
    requires NoTaskGhost(st.server) && Possible(st, i)
    ensures NoTaskGhost(Step(st, i).server)
  {
    match i
    case Command(c) => DoKeepsTaskLocal(st.server, c);
    case FromPeer(c, line) => ReceiveKeepsTaskLocal(st.server, c, line);
    case _ =>
  }

  lemma OutputConfined(st: State, i: Input, peer: string)
    requires NoTaskGhost(st.server) && Possible(st, i)
    ensures Confined(Output(st, i, peer))
  {
    hide Relay, Emits, Echoed, Replay, Confined, NoTaskGhost, IsBurst, Receive, Disconnect, L.Window;
    NothingConfined();
    match i
    case Command(c) => EmitsConfined(st.server, c, peer);
    case FromPeer(c, line) =>
      if Echoed(st.server, c, line).Some? { EchoedKeepsTask(st.server, c, line); }
      RelayConfined(Receive(st.server, c, line), peer, Echoed(st.server, c, line));
    case LinkUp(p, trust, burst) =>
      BurstConfined(Connect(st.server, p, trust), p, burst);
      RelayConfined(Connect(st.server, p, trust), peer, Some(SystemEvent(SERVER_LINK)));
      ConfinedConcat(burst, Relay(Connect(st.server, p, trust), peer, Some(SystemEvent(SERVER_LINK))));
      ConfinedConcat([], Relay(Connect(st.server, p, trust), peer, Some(SystemEvent(SERVER_LINK))));
    case LinkDown(p) => RelayConfined(Disconnect(st.server, p), peer, Some(SystemEvent(SERVER_UNLINK)));
    case Backfill(p, claimed) =>
      var acked := AckedOf(st, p);
      ReplayConfined(st.server, p, L.Window(st.history), if claimed > acked then claimed else acked);
  }

  /**
   * In every run, with arbitrary lines from peers of any trust and any log: no ghost in a task channel,
   * no line about one, be it relayed, in a burst or replayed.
   */
  lemma {:induction false} TaskChannelsConfined(st: State, inputs: seq<Input>, peer: string)
    requires NoTaskGhost(st.server) && Run(st, inputs)
    ensures NoTaskGhost(Final(st, inputs).server)
    ensures Confined(Outputs(st, inputs, peer))
    decreases |inputs|
  {
    if inputs != [] {
      StepKeepsTaskLocal(st, inputs[0]);
      OutputConfined(st, inputs[0], peer);
      hide NoTaskGhost, Step, Output, Confined, Possible;
      TaskChannelsConfined(Step(st, inputs[0]), inputs[1..], peer);
      ConfinedConcat(Output(st, inputs[0], peer), Outputs(Step(st, inputs[0]), inputs[1..], peer));
    } else {
      NothingConfined();
    }
  }
}
