/**
 * Replica agreement: applying the lines still on the wire to what a server knows about a peer gives
 * exactly the peer's own roster and channel membership, in every reachable state of a mesh.
 */
module Mirror {
  import opened Text
  import opened Servers
  import opened Rooms
  import opened Mesh

  /** Who is there, and who is where. */
  datatype View = View(roster: set<string>, at: set<(string, string)>)

  const NOBODY := View({}, {})

  /** A server's own clients and their membership of channels other than task channels. */
  function LocalView(s: Server): View {
    View(s.clients,
         set n, ch | n in s.clients && ch in s.channels && !TaskChannel(ch) && Local(n) in s.channels[ch].members ::
           (n, ch))
  }

  /** What a server knows of the clients of `peer`. */
  function RemoteView(s: Server, peer: string): View {
    View(set n | n in s.remotes && s.remotes[n] == peer,
         set n, ch | n in s.remotes && s.remotes[n] == peer && ch in s.channels && Ghost(n) in s.channels[ch].members ::
           (n, ch))
  }

  /** The meaning of a line from the peer whose view this is. */
  function Seen(v: View, line: Line): View {
    match line
    case SNick(n) => v.(roster := v.roster + {n})
    case SJoin(ch, ns) => v.(at := v.at + set n | n in ns && n in v.roster :: (n, ch))
    case SPart(ch, n) => v.(at := v.at - {(n, ch)})
    case SQuitUser(n) => View(v.roster - {n}, set p | p in v.at && p.0 != n)
    case SRoomArchive(ch, _) => v.(at := set p | p in v.at && p.1 != ch)
    case _ => v
  }

  function AllSeen(v: View, lines: seq<Line>): View
    decreases |lines|
  {
    if lines == [] then v else AllSeen(Seen(v, lines[0]), lines[1..])
  }

  lemma {:induction false} AllSeenConcat(v: View, a: seq<Line>, b: seq<Line>)
    ensures AllSeen(v, a + b) == AllSeen(AllSeen(v, a), b)
    decreases |a|
  {
    if a == [] {
      assert a + b == b;
    } else {
      assert (a + b)[1..] == a[1..] + b;
      AllSeenConcat(Seen(v, a[0]), a[1..], b);
    }
  }

  // ---------------------------------------------------------------- one command, one link: exactly when it is mirrored

  /** Members listed in channels are connected clients and running bots. */
  ghost predicate MembersKnown(s: Server) {
    && (forall ch, n :: ch in s.channels && Local(n) in s.channels[ch].members ==> n in s.clients)
    && (forall ch, n :: ch in s.channels && Bot(n) in s.channels[ch].members ==> n in s.bots)
    && (forall ch, n :: ch in s.channels && Ghost(n) in s.channels[ch].members ==> n in s.remotes)
    && s.clients !! s.bots
  }

  /**
   * The command changes the local view but says nothing of it to `peer`: a nick change, a connection
   * lost without QUIT, or a join, part or archive that the link does not carry.
   */
  predicate Unannounced(s: Server, c: Command, peer: string) {
    Accepted(s, c) && match c
      case Rename(_, _) => true
      case Vanish(_) => true
      case Join(n, ch) => !TaskChannel(ch) && (PeekNick(n) || !ShouldRelay(Do(s, c), peer, ch))
      case Part(n, ch) => !TaskChannel(ch) && (PeekNick(n) || !ShouldRelay(s, peer, ch))
      case ArchiveRoom(ch) =>
        !TaskChannel(ch) && LocalNicks(s.channels[ch]) != {} && !ShouldRelay(Do(s, c), peer, ArchiveNameOf(s, ch))
      case _ => false
  }

  lemma {:induction false} MentionsUnseen(v: View, s: Server, peer: string, ch: Option<string>, names: seq<string>)
    ensures AllSeen(v, Mentions(s, peer, ch, names)) == v
  {
    if names != [] {
      MentionsUnseen(v, s, peer, ch, names[1..]);
      var rest := Mentions(s, peer, ch, names[1..]);
      var all := Mentions(s, peer, ch, names);
      if all != rest { assert all[1..] == rest; }
    }
  }

  lemma OneSeen(v: View, line: Line)
    ensures AllSeen(v, [line]) == Seen(v, line)
  {
    assert [line][1..] == [];
  }

  lemma JoinMirrored(s: Server, n: string, ch: string)
    requires Accepted(s, Join(n, ch)) && !TaskChannel(ch)
    ensures LocalView(Do(s, Join(n, ch))) == LocalView(s).(at := LocalView(s).at + {(n, ch)})
    ensures (n, ch) !in LocalView(s).at
    ensures Seen(LocalView(s), SJoin(ch, [n])) == LocalView(Do(s, Join(n, ch)))
  {
    var v, v' := LocalView(s), LocalView(Do(s, Join(n, ch)));
    assert forall p :: p in v'.at <==> p in v.at || p == (n, ch);
    assert (set m | m in [n] && m in v.roster :: (m, ch)) == {(n, ch)};
  }

  lemma PartMirrored(s: Server, n: string, ch: string)
    requires MembersKnown(s) && Accepted(s, Part(n, ch)) && !TaskChannel(ch)
    ensures LocalView(Do(s, Part(n, ch))) == Seen(LocalView(s), SPart(ch, n))
    ensures (n, ch) in LocalView(s).at
  {
    var v, v' := LocalView(s), LocalView(Do(s, Part(n, ch)));
    var c := Without(s.channels[ch], {Local(n)});
    forall p ensures p in v'.at <==> p in v.at && p != (n, ch) {
      if p.1 == ch { assert Local(p.0) in c.members <==> Local(p.0) in s.channels[ch].members && p.0 != n; }
    }
  }

  lemma QuitMirrored(s: Server, n: string)
    requires n in s.clients
    ensures LocalView(s.(clients := s.clients - {n}, channels := Vacate(s.channels, {Local(n)}, true)))
         == Seen(LocalView(s), SQuitUser(n))
  {
    var v := LocalView(s);
    var v' := LocalView(s.(clients := s.clients - {n}, channels := Vacate(s.channels, {Local(n)}, true)));
    forall p ensures p in v'.at <==> p in v.at && p.0 != n {
      if p in v.at && p.0 != n {
        assert Local(p.0) in s.channels[p.1].members;
        assert !Emptied(s.channels[p.1], {Local(n)}, true);
      }
    }
  }

  lemma ArchiveMirrored(s: Server, ch: string)
    requires MembersKnown(s) && Accepted(s, ArchiveRoom(ch))
    ensures LocalView(Do(s, ArchiveRoom(ch))) == Seen(LocalView(s), SRoomArchive(ch, ArchiveNameOf(s, ch)))
    ensures LocalView(Do(s, ArchiveRoom(ch))) == LocalView(s) <==> TaskChannel(ch) || LocalNicks(s.channels[ch]) == {}
  {
    var v, v' := LocalView(s), LocalView(Do(s, ArchiveRoom(ch)));
    assert forall p :: p in v'.at <==> p in v.at && p.1 != ch;
    if !TaskChannel(ch) && LocalNicks(s.channels[ch]) != {} {
      var n :| n in LocalNicks(s.channels[ch]);
      assert Local(n) in s.channels[ch].members;
      assert (n, ch) in v.at;
    } else {
      assert forall p :: p in v.at && p.1 == ch ==> p.0 in LocalNicks(s.channels[ch]);
    }
  }

  /** The line about membership a command puts on the link, if any. */
  lemma MembershipLines(s: Server, c: Command, peer: string)
    requires Accepted(s, c) && peer in s.links
    ensures match c
            case Register(n) => Emits(s, c, peer) == [SNick(n)]
            case Quit(n) => Emits(s, c, peer) == [SQuitUser(n)]
            case Join(n, ch) => Emits(s, c, peer) == If(!PeekNick(n) && ShouldRelay(Do(s, c), peer, ch), SJoin(ch, [n]))
            case Part(n, ch) => Emits(s, c, peer) == If(!PeekNick(n) && ShouldRelay(s, peer, ch), SPart(ch, n))
            case ArchiveRoom(ch) =>
              Emits(s, c, peer) ==
              If(ShouldRelay(Do(s, c), peer, ArchiveNameOf(s, ch)), SRoomArchive(ch, ArchiveNameOf(s, ch)))
            case BotJoin(b, ch) => Emits(s, c, peer) == If(ShouldRelay(Do(s, c), peer, ch), SJoin(ch, [b]))
            case BotPart(b, ch) => Emits(s, c, peer) == If(ShouldRelay(s, peer, ch), SPart(ch, b))
            case Rename(_, _) => Emits(s, c, peer) == []
            case Vanish(_) => Emits(s, c, peer) == []
            case _ => true
  {
    hide ShouldRelay, PeekNick, ArchiveNameOf;
  }

  /** Joining and leaving. */
  lemma MemberMirrored(s: Server, c: Command, peer: string)
    requires MembersKnown(s) && peer in s.links && Accepted(s, c) && (c.Join? || c.Part?)
    ensures AllSeen(LocalView(s), Emits(s, c, peer)) == LocalView(Do(s, c)) <==> !Unannounced(s, c, peer)
  {
    var v := LocalView(s);
    MembershipLines(s, c, peer);
    hide Emits;
    match c
    case Join(n, ch) =>
      OneSeen(v, SJoin(ch, [n]));
      if TaskChannel(ch) { TaskUnseen(s, c, ch); } else { JoinMirrored(s, n, ch); }
    case Part(n, ch) =>
      OneSeen(v, SPart(ch, n));
      if TaskChannel(ch) { TaskUnseen(s, c, ch); } else { PartMirrored(s, n, ch); }
  }

  /** Connections coming and going, and nick changes. */
  lemma RosterMirrored(s: Server, c: Command, peer: string)
    requires MembersKnown(s) && peer in s.links && Accepted(s, c) && (c.Register? || c.Rename? || c.Quit? || c.Vanish?)
    ensures AllSeen(LocalView(s), Emits(s, c, peer)) == LocalView(Do(s, c)) <==> !Unannounced(s, c, peer)
  {
    var v := LocalView(s);
    MembershipLines(s, c, peer);
    hide Emits;
    match c
    case Register(n) => OneSeen(v, SNick(n));
    case Rename(n, n') => assert n' in LocalView(Do(s, c)).roster;
    case Vanish(n) => assert n !in LocalView(Do(s, c)).roster;
    case Quit(n) => OneSeen(v, SQuitUser(n)); QuitMirrored(s, n);
  }

  lemma BotMirrored(s: Server, c: Command, peer: string)
    requires MembersKnown(s) && peer in s.links && Accepted(s, c) && (c.BotJoin? || c.BotPart?)
    ensures AllSeen(LocalView(s), Emits(s, c, peer)) == LocalView(Do(s, c)) && !Unannounced(s, c, peer)
  {
    MembershipLines(s, c, peer);
    BotUnseen(s, c);
    OneSeen(LocalView(s), SJoin(c.channel, [c.nick]));
    OneSeen(LocalView(s), SPart(c.channel, c.nick));
    hide Emits, Seen, LocalView, Do;
  }

  lemma RoomMirrored(s: Server, c: Command, peer: string)
    requires MembersKnown(s) && peer in s.links && Accepted(s, c) && c.ArchiveRoom?
    ensures AllSeen(LocalView(s), Emits(s, c, peer)) == LocalView(Do(s, c)) <==> !Unannounced(s, c, peer)
  {
    MembershipLines(s, c, peer);
    OneSeen(LocalView(s), SRoomArchive(c.channel, ArchiveNameOf(s, c.channel)));
    ArchiveMirrored(s, c.channel);
    hide Emits, Seen, LocalView, Do;
  }

  /**
   * One command against one link of any trust: the peer's picture follows the command exactly when
   * the command is not one of the unannounced ones.
   */
  lemma MirroredIffAnnounced(s: Server, c: Command, peer: string)
    requires MembersKnown(s) && peer in s.links
    ensures AllSeen(LocalView(s), Emits(s, c, peer)) == LocalView(Do(s, c)) <==> !Unannounced(s, c, peer)
  {
    if Accepted(s, c) {
      if c.Join? || c.Part? {
        MemberMirrored(s, c, peer);
      } else if c.Register? || c.Rename? || c.Quit? || c.Vanish? {
        RosterMirrored(s, c, peer);
      } else if c.ArchiveRoom? {
        RoomMirrored(s, c, peer);
      } else if c.BotJoin? || c.BotPart? {
        BotMirrored(s, c, peer);
      } else {
        QuietUnseen(s, c, peer);
      }
    }
  }

  lemma TaskUnseen(s: Server, c: Command, ch: string)
    requires TaskChannel(ch) && (c.Join? || c.Part?) && c.channel == ch
    ensures LocalView(Do(s, c)) == LocalView(s)
  {
    var s' := Do(s, c);
    forall p ensures p in LocalView(s').at <==> p in LocalView(s).at {
      if p.1 != ch { assert p.1 in s'.channels <==> p.1 in s.channels; }
    }
  }

  lemma SameLocals(s: Server, c: Command, n: string, ch: string)
    requires (c.BotJoin? || c.BotPart?) && Accepted(s, c)
    ensures HasMember(Do(s, c), ch, Local(n)) <==> HasMember(s, ch, Local(n))
  {
    if c.BotPart? && ch == c.channel {
      assert Local(n) in Without(s.channels[ch], {Bot(c.nick)}).members <==> Local(n) in s.channels[ch].members;
    }
  }

  lemma BotUnseen(s: Server, c: Command)
    requires MembersKnown(s) && (c.BotJoin? || c.BotPart?) && Accepted(s, c)
    ensures LocalView(Do(s, c)) == LocalView(s)
    ensures Seen(LocalView(s), SJoin(c.channel, [c.nick])) == LocalView(s)
    ensures Seen(LocalView(s), SPart(c.channel, c.nick)) == LocalView(s)
  {
    var s' := Do(s, c);
    assert c.nick in s.bots;
    forall p ensures p in LocalView(s').at <==> p in LocalView(s).at {
      SameLocals(s, c, p.0, p.1);
    }
    assert (set n | n in [c.nick] && n in s.clients :: (n, c.channel)) == {};
    assert forall p :: p in LocalView(s).at ==> p.0 in s.clients;
  }

  predicate Unseen(line: Line) { line.SMsg? || line.SMention? || line.STopic? || line.SRoomMeta? || line.SEvent? }

  predicate QuietCommand(c: Command) {
    c.Say? || c.Tell? || c.Topic? || c.Restrict? || c.Share? || c.Annotate? || c.BotSay? || c.Announce?
  }

  lemma QuietLines(s: Server, c: Command, peer: string)
    requires QuietCommand(c)
    ensures forall l :: l in Emits(s, c, peer) ==> Unseen(l)
  {
    hide ShouldRelay, Do, Accepted;
  }

  lemma QuietStays(s: Server, c: Command)
    requires QuietCommand(c)
    ensures LocalView(Do(s, c)) == LocalView(s)
  {
    assert forall p :: p in LocalView(Do(s, c)).at <==> p in LocalView(s).at;
  }

  /** Messages, topics, modes and room metadata change no view on either side. */
  lemma QuietUnseen(s: Server, c: Command, peer: string)
    requires QuietCommand(c)
    ensures LocalView(Do(s, c)) == LocalView(s)
    ensures AllSeen(LocalView(s), Emits(s, c, peer)) == LocalView(s)
  {
    QuietStays(s, c);
    QuietLines(s, c, peer);
    hide *;
    UnseenLines(LocalView(s), Emits(s, c, peer));
  }

  lemma {:induction false} UnseenLines(v: View, lines: seq<Line>)
    requires forall l :: l in lines ==> Unseen(l)
    ensures AllSeen(v, lines) == v
    decreases |lines|
  {
    if lines != [] {
      assert lines[0] in lines;
      UnseenLines(v, lines[1..]);
    }
  }
}
