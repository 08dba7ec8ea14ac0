/**
 * Laws of one server over its commands and runs, said without its own tests: whose nicks are whose, who gets
 * on a channel, and which channels stay.
 */
module ServerLaws {
  import opened Text
  import opened Rooms
  import opened Servers
  import opened ServerRun

  // ---------------------------------------------------------------- nicks

  /** Clients have the server's name in front of their nicks, ghosts the name of the peer that announced them. */
  predicate NicksKept(s: Server) {
    && (forall n :: n in s.clients ==> StartsWith(n, s.name + "-") && |n| > |s.name| + 1 && !StartsWith(n, "system-"))
    && (forall n :: n in s.remotes ==> !StartsWith(n, "system-"))
    && (forall n :: n in s.remotes && s.remotes[n] != "" ==> StartsWith(n, s.remotes[n] + "-"))
  }

  lemma CommandKeepsNicks(s: Server, c: Command)
    requires NicksKept(s)
    ensures NicksKept(Do(s, c)) && Do(s, c).name == s.name
  {
    var s' := Do(s, c);
    assert s'.name == s.name && s'.remotes == s.remotes;
    assert forall n :: n in s'.clients ==> n in s.clients || FreeNick(s, n);
  }

  lemma LineKeepsNicks(s: Server, c: Conn, line: Line)
    requires NicksKept(s)
    ensures NicksKept(Receive(s, c, line)) && Receive(s, c, line).name == s.name
  {
    var s' := Receive(s, c, line);
    assert s'.name == s.name && s'.clients == s.clients;
    if line.SNick? {
      assert PeerName(c) != "" ==> NickPrefix(c) == PeerName(c) + "-";
    } else {
      assert forall n :: n in s'.remotes ==> n in s.remotes && s'.remotes[n] == s.remotes[n];
    }
  }

  lemma StepKeepsNicks(s: Server, i: Input)
    requires NicksKept(s)
    ensures NicksKept(ServerAfter(s, i)) && ServerAfter(s, i).name == s.name
  {
    hide NicksKept, Do, Receive, Disconnect, Connect;
    match i
    case Command(c) => CommandKeepsNicks(s, c);
    case FromPeer(c, line) => LineKeepsNicks(s, c, line);
    case LinkUp(p, trust, _) => LinksKeepNicks(s, p, trust);
    case LinkDown(p) => LinksKeepNicks(s, p, "");
    case Backfill(_, _) =>
  }

  lemma LinksKeepNicks(s: Server, p: string, trust: string)
    requires NicksKept(s)
    ensures NicksKept(Connect(s, p, trust)) && Connect(s, p, trust).name == s.name
    ensures NicksKept(Disconnect(s, p)) && Disconnect(s, p).name == s.name
  {
  }

  /** Over every run nobody takes a nick of another server or of the system. */
  lemma {:induction false} NicksStayKept(st: State, inputs: seq<Input>)
    requires Run(st, inputs) && NicksKept(st.server)
    ensures NicksKept(Final(st, inputs).server) && Final(st, inputs).server.name == st.server.name
    decreases |inputs|
  {
    if inputs != [] {
      StepKeepsNicks(st.server, inputs[0]);
      hide NicksKept, ServerAfter, Possible;
      NicksStayKept(Step(st, inputs[0]), inputs[1..]);
    }
  }

  /** Every other nick of that form can be had, unless somebody connected has it. */
  lemma NickGranted(s: Server, suffix: string)
    requires suffix != "" && !StartsWith(s.name + "-" + suffix, "system-")
    ensures var n := s.name + "-" + suffix;
      n in Do(s, Register(n)).clients && (n !in s.clients ==> Do(s, Register(n)) == s.(clients := s.clients + {n}))
  {
    var n := s.name + "-" + suffix;
    assert n[..|s.name + "-"|] == s.name + "-";
  }

  // ---------------------------------------------------------------- who gets on a channel

  /** A client gets on any channel whose name begins with a hash, unless the channel is archived. */
  lemma JoinExactly(s: Server, n: string, ch: string)
    requires n in s.clients && !HasMember(s, ch, Local(n))
    ensures HasMember(Do(s, Join(n, ch)), ch, Local(n)) <==>
      ch != "" && ch[0] == '#' && !(ch in s.channels && s.channels[ch].archived)
  {
    assert StartsWith(ch, "#") <==> ch != "" && ch[0] == '#' by {
      if ch != "" { assert ch[..1] == [ch[0]]; }
    }
  }

  /** The input by which a client gets on the channel under this nick: its own JOIN, or its change to the nick. */
  predicate GetsOn(s: Server, i: Input, ch: string, n: string) {
    && i.Command?
    && match i.command
       case Join(n', ch') => n' == n && ch' == ch && !(ch in s.channels && s.channels[ch].archived)
       case Rename(old', n') => n' == n && HasMember(s, ch, Local(old'))
       case _ => false
  }

  predicate GotOn(st: State, inputs: seq<Input>, ch: string, n: string)
    decreases |inputs|
  {
    inputs != [] && (GetsOn(st.server, inputs[0], ch, n) || GotOn(Step(st, inputs[0]), inputs[1..], ch, n))
  }

  lemma CommandGetsOn(s: Server, c: Command, ch: string, n: string)
    ensures HasMember(Do(s, c), ch, Local(n)) ==> HasMember(s, ch, Local(n)) || GetsOn(s, Command(c), ch, n)
  {
    if c.Rename? && Accepted(s, c) && ch in s.channels {
      assert Do(s, c).channels[ch] == WithNick(s.channels[ch], c.nick, c.newNick);
    }
  }

  lemma LineGetsNobodyOn(s: Server, c: Conn, line: Line, ch: string, n: string)
    ensures HasMember(Receive(s, c, line), ch, Local(n)) ==> HasMember(s, ch, Local(n))
  {
  }

  lemma OneMemberMore(s: Server, i: Input, ch: string, n: string)
    ensures HasMember(ServerAfter(s, i), ch, Local(n)) ==> HasMember(s, ch, Local(n)) || GetsOn(s, i, ch, n)
  {
    hide HasMember, GetsOn, Do, Receive;
    match i
    case Command(c) => CommandGetsOn(s, c, ch, n);
    case FromPeer(c, line) => LineGetsNobodyOn(s, c, line, ch, n);
    case LinkDown(p) => LossGetsNobodyOn(s, p, ch, n);
    case LinkUp(p, trust, _) => ConnectIs(s, p, trust, ch, n);
    case Backfill(_, _) =>
  }

  lemma LossGetsNobodyOn(s: Server, p: string, ch: string, n: string)
    ensures HasMember(Disconnect(s, p), ch, Local(n)) ==> HasMember(s, ch, Local(n))
  {
  }

  lemma ConnectIs(s: Server, p: string, trust: string, ch: string, n: string)
    ensures HasMember(Connect(s, p, trust), ch, Local(n)) <==> HasMember(s, ch, Local(n))
  {
  }

  /** Over every run a client is on a channel only by its own doing, and never by a JOIN to an archived one. */
  lemma {:induction false} MembersJoined(st: State, inputs: seq<Input>, ch: string, n: string)
    requires Run(st, inputs)
    ensures HasMember(Final(st, inputs).server, ch, Local(n)) ==>
      HasMember(st.server, ch, Local(n)) || GotOn(st, inputs, ch, n)
    decreases |inputs|
  {
    if inputs != [] {
      OneMemberMore(st.server, inputs[0], ch, n);
      hide HasMember, GetsOn, ServerAfter, Possible;
      MembersJoined(Step(st, inputs[0]), inputs[1..], ch, n);
    }
  }

  // ---------------------------------------------------------------- which channels stay

  /** After a local user leaves, a channel stays exactly if it is persistent or somebody else is on it. */
  lemma PersistentStays<T>(channels: map<string, Channel<T>>, ch: string, m: T)
    requires ch in channels && m in channels[ch].members
    ensures ch in Leave(channels, ch, m, true) <==> channels[ch].persistent || channels[ch].members != {m}
    ensures ch in Vacate(channels, {m}, true) <==> channels[ch].persistent || channels[ch].members != {m}
  {
    assert channels[ch].members - {m} == {} <==> channels[ch].members == {m};
    assert m in channels[ch].members * {m};
  }

  /** After a ghost leaves, it stays exactly if somebody else is on it. */
  lemma GhostsKeepNothing<T>(channels: map<string, Channel<T>>, ch: string, m: T)
    requires ch in channels && m in channels[ch].members
    ensures ch in Leave(channels, ch, m, false) <==> channels[ch].members != {m}
    ensures ch in Vacate(channels, {m}, false) <==> channels[ch].members != {m}
  {
    assert channels[ch].members - {m} == {} <==> channels[ch].members == {m};
    assert m in channels[ch].members * {m};
  }

  /** Whoever leaves, the others stay where they are and the channel is what it was. */
  lemma OthersStay<T>(channels: map<string, Channel<T>>, ch: string, m: T, other: string, x: T, keep: bool)
    requires ch in channels && other in channels && x in channels[other].members && x != m
    ensures other in Leave(channels, ch, m, keep) && x in Leave(channels, ch, m, keep)[other].members
    ensures other in Vacate(channels, {m}, keep) && x in Vacate(channels, {m}, keep)[other].members
    ensures var c, c' := channels[other], Vacate(channels, {m}, keep)[other];
      c'.restricted == c.restricted && c'.sharedWith == c.sharedWith && c'.persistent == c.persistent
      && c'.archived == c.archived
  {
    assert x in channels[other].members - {m};
  }

  /** Commands take a persistent channel away only by archiving it or by making it last no longer. */
  predicate Spares(c: Command, ch: string) {
    c != ArchiveRoom(ch) && c != Annotate(ch, false)
  }

  predicate AllSpare(cs: seq<Command>, ch: string) { forall i :: 0 <= i < |cs| ==> Spares(cs[i], ch) }

  lemma CommandSpares(s: Server, c: Command, ch: string)
    requires ch in s.channels && s.channels[ch].persistent && Spares(c, ch)
    requires c.ArchiveRoom? && c.channel in s.channels ==> ArchiveNameOf(s, c.channel) != ch
    ensures ch in Do(s, c).channels && Do(s, c).channels[ch].persistent
  {
  }

  function AllDone(s: Server, cs: seq<Command>): Server
    decreases |cs|
  {
    if cs == [] then s else AllDone(Do(s, cs[0]), cs[1..])
  }

  /** However local users and bots come and go, a persistent channel stays. */
  lemma {:induction false} PersistentChannelsStay(s: Server, cs: seq<Command>, ch: string)
    requires ch in s.channels && s.channels[ch].persistent && AllSpare(cs, ch)
    ensures ch in AllDone(s, cs).channels && AllDone(s, cs).channels[ch].persistent
    decreases |cs|
  {
    if cs != [] {
      CommandSpares(s, cs[0], ch);
      hide Do, Spares;
      assert forall i :: 0 <= i < |cs[1..]| ==> cs[1..][i] == cs[i + 1];
      PersistentChannelsStay(Do(s, cs[0]), cs[1..], ch);
    }
  }

  /** Restricting, sharing and annotating a channel set just that flag of just that channel. */
  lemma FlagsAreSet(s: Server, ch: string, on: bool, peer: string, other: string, peer': string)
    requires ch in s.channels
    ensures var c := Do(s, Restrict(ch, on)).channels[ch];
      c.restricted == on && c == s.channels[ch].(restricted := on)
    ensures var c := Do(s, Share(ch, peer, on)).channels[ch];
      && c == s.channels[ch].(sharedWith := c.sharedWith)
      && (peer' in c.sharedWith <==> if peer' == peer then on else peer' in s.channels[ch].sharedWith)
    ensures var c := Do(s, Annotate(ch, on)).channels[ch];
      c.persistent == on && c == s.channels[ch].(persistent := on)
    ensures forall c :: c in {Restrict(ch, on), Share(ch, peer, on), Annotate(ch, on)} ==>
      Do(s, c) == s.(channels := s.channels[ch := Do(s, c).channels[ch]])
  {
  }

  /** An archived channel is empty, keeps its other flags, and is under its new name only. */
  lemma ArchivedKeeps<T>(channels: map<string, Channel<T>>, ch: string, newName: string)
    requires ch in channels && newName !in channels
    ensures var after := Archived(channels, ch, newName);
      && after.Keys == channels.Keys - {ch} + {newName}
      && (forall other :: other in channels && other != ch ==> after[other] == channels[other])
      && after[newName].archived && after[newName].members == {}
      && after[newName].restricted == channels[ch].restricted && after[newName].sharedWith == channels[ch].sharedWith
      && after[newName].persistent == channels[ch].persistent
  {
  }

  // ---------------------------------------------------------------- probes

  /** What a dashboard probe does on a channel is not announced, what anybody else does is. */
  lemma ProbesAreSilent(s: Server, name: string, rest: string, ch: string, peer: string)
    requires '-' !in name && peer in s.links
    ensures var n := name + "-" + rest;
      && (Accepted(s, Part(n, ch)) && ShouldRelay(s, peer, ch) ==>
        (Emits(s, Part(n, ch), peer) == [] <==> StartsWith(rest, "_peek")))
      && (Accepted(s, Join(n, ch)) && ShouldRelay(Do(s, Join(n, ch)), peer, ch) ==>
        (Emits(s, Join(n, ch), peer) == [] <==> StartsWith(rest, "_peek")))
  {
    var n := name + "-" + rest;
    IndexOfIs(name, '-', rest);
    assert n == name + ['-'] + rest && n[|name| + 1..] == rest;
    assert PeekNick(n) <==> StartsWith(rest, "_peek");
  }
}
