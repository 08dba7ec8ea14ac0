/**
 * Replica agreement over whole runs of a mesh of fully trusting servers: what is in flight always
 * completes the receiver's picture of the sender, in both directions of every link.
 */
module MirrorMesh {
  import opened Text
  import opened Servers
  import opened Rooms
  import opened Events
  import opened Mesh
  import opened Mirror

  // ---------------------------------------------------------------- names

  /** Nicks that server `a` hands out. */
  predicate Owned(a: string, n: string) { StartsWith(n, a + "-") && !StartsWith(n, SYSTEM_PREFIX) }

  /** Nicks that may appear on a line from `a`: those of its clients, bots and system user. */
  predicate OwnName(a: string, n: string) { StartsWith(n, a + "-") || StartsWith(n, SYSTEM_PREFIX) }

  /** The nick prefixes of the two servers do not overlap. */
  predicate Apart(a: string, b: string) {
    !StartsWith(a + "-", b + "-") && !StartsWith(b + "-", a + "-")
  }

  lemma PrefixesNest(x: string, y: string, n: string)
    ensures StartsWith(n, x) && StartsWith(n, y) ==> StartsWith(x, y) || StartsWith(y, x)
  {
    if StartsWith(n, x) && StartsWith(n, y) {
      if |x| <= |y| { assert y[..|x|] == n[..|x|]; } else { assert x[..|y|] == n[..|y|]; }
    }
  }

  lemma OneOwner(a: string, b: string, n: string)
    requires Apart(a, b) && StartsWith(n, a + "-")
    ensures !StartsWith(n, b + "-")
  {
    PrefixesNest(a + "-", b + "-", n);
  }

  // ---------------------------------------------------------------- what holds at every server

  ghost predicate ServerOk(s: Server) {
    && MembersKnown(s)
    && (forall n :: n in s.clients ==> Owned(s.name, n))
    && (forall n :: n in s.bots ==> OwnName(s.name, n))
    && (forall n :: n in s.remotes ==> s.remotes[n] in s.links && Owned(s.remotes[n], n))
    && (forall p :: p in s.links ==> s.links[p] == "full")
    && (forall ch :: ch in s.channels ==> !s.channels[ch].restricted)
  }

  /** The peers of `s` and `s` itself have non-overlapping prefixes. */
  ghost predicate PeersApart(s: Server) {
    && (forall p :: p in s.links ==> Apart(p, s.name))
    && (forall p, q :: p in s.links && q in s.links && p != q ==> Apart(p, q))
  }

  /** A line server `a` sends in these runs. */
  predicate Honest(a: string, line: Line) {
    match line
    case SNick(n) => Owned(a, n)
    case SJoin(ch, ns) => !TaskChannel(ch) && forall i :: 0 <= i < |ns| ==> OwnName(a, ns[i])
    case SPart(ch, n) => !TaskChannel(ch) && OwnName(a, n)
    case SQuitUser(n) => Owned(a, n)
    case SRoomArchive(_, _) => false
    case _ => true
  }

  /** Commands whose effect the protocol carries in full. */
  predicate Tame(s: Server, c: Command) {
    match c
    case Register(n) => n !in s.bots
    case Rename(_, _) => false
    case Vanish(_) => false
    case ArchiveRoom(_) => false
    case Restrict(_, on) => !on
    case Join(n, _) => !PeekNick(n)
    case Part(n, _) => !PeekNick(n)
    case _ => true
  }

  // ---------------------------------------------------------------- receiving

  lemma KnownOwner(s: Server, a: string, n: string)
    requires ServerOk(s) && PeersApart(s) && a in s.links && OwnName(a, n) && n in s.remotes
    ensures s.remotes[n] == a
  {
    var p := s.remotes[n];
    if p != a { OneOwner(p, a, n); }
  }

  /** Membership after ghosts of `a` joined. */
  lemma JoinMembers(s: Server, a: string, ch: string, ns: seq<string>)
    requires ServerOk(s) && a in s.links && Honest(a, SJoin(ch, ns))
    ensures var r := Receive(s, LinkTo(s, a), SJoin(ch, ns));
      && r.name == s.name && r.clients == s.clients && r.bots == s.bots && r.remotes == s.remotes && r.links == s.links
      && (forall c :: c in r.channels ==> !r.channels[c].restricted)
      && forall m, c :: HasMember(r, c, m) <==>
           HasMember(s, c, m) || (c == ch && m.Ghost? && m.nick in ns && m.nick in s.remotes)
  {
    assert Accepts(s, LinkTo(s, a), ch);
  }

  lemma SeenJoin(v: View, ch: string, ns: seq<string>, p: (string, string))
    ensures Seen(v, SJoin(ch, ns)).roster == v.roster
    ensures p in Seen(v, SJoin(ch, ns)).at <==> p in v.at || (p.1 == ch && p.0 in ns && p.0 in v.roster)
  {
  }

  lemma ReceiveJoin(s: Server, a: string, ch: string, ns: seq<string>)
    requires ServerOk(s) && PeersApart(s) && a in s.links && Honest(a, SJoin(ch, ns))
    ensures var r := Receive(s, LinkTo(s, a), SJoin(ch, ns));
            ServerOk(r) && LocalView(r) == LocalView(s) && RemoteView(r, a) == Seen(RemoteView(s, a), SJoin(ch, ns))
            && forall q :: q != a ==> RemoteView(r, q) == RemoteView(s, q)
  {
    var r := Receive(s, LinkTo(s, a), SJoin(ch, ns));
    assert forall n :: n in ns ==> OwnName(a, n);
    hide *;
    JoinMembers(s, a, ch, ns);
    forall n | n in ns && n in s.remotes ensures s.remotes[n] == a { KnownOwner(s, a, n); }
    StillOk(s, r);
    SameLocalView(s, r);
    forall q | q != a ensures RemoteView(r, q) == RemoteView(s, q) { SameRemoteView(s, r, q); }
    forall p ensures p in RemoteView(r, a).at <==> p in Seen(RemoteView(s, a), SJoin(ch, ns)).at {
      InRemoteView(r, a, p);
      InRemoteView(s, a, p);
      SeenJoin(RemoteView(s, a), ch, ns, p);
    }
    SameRoster(s, r, a);
    SeenJoin(RemoteView(s, a), ch, ns, ("", ""));
  }

  lemma SameRoster(s: Server, r: Server, q: string)
    requires r.remotes == s.remotes
    ensures RemoteView(r, q).roster == RemoteView(s, q).roster
  {
  }

  /** The parts of `ServerOk` that a change of membership alone can break. */
  lemma StillOk(s: Server, r: Server)
    requires ServerOk(s)
    requires r.name == s.name && r.clients == s.clients && r.bots == s.bots && r.remotes == s.remotes
      && r.links == s.links
    requires forall c :: c in r.channels ==> !r.channels[c].restricted
    requires forall m, c :: HasMember(r, c, m) ==> HasMember(s, c, m) || (m.Ghost? && m.nick in s.remotes)
    ensures ServerOk(r)
  {
    forall m, ch | HasMember(r, ch, m)
      ensures match m case Local(n) => n in r.clients case Bot(n) => n in r.bots case Ghost(n) => n in r.remotes
    {
      assert HasMember(s, ch, m) || (m.Ghost? && m.nick in s.remotes);
    }
    MembersAreKnown(r);
  }

  lemma InRemoteView(s: Server, q: string, p: (string, string))
    ensures p in RemoteView(s, q).at <==> p.0 in s.remotes && s.remotes[p.0] == q && HasMember(s, p.1, Ghost(p.0))
  {
  }

  lemma InLocalView(s: Server, p: (string, string))
    ensures p in LocalView(s).at <==> p.0 in s.clients && !TaskChannel(p.1) && HasMember(s, p.1, Local(p.0))
  {
  }

  lemma SameLocalView(s: Server, r: Server)
    requires s.clients == r.clients
    requires forall n, c :: HasMember(r, c, Local(n)) <==> HasMember(s, c, Local(n))
    ensures LocalView(r) == LocalView(s)
  {
    forall p ensures p in LocalView(r).at <==> p in LocalView(s).at {
      InLocalView(r, p);
      InLocalView(s, p);
    }
  }

  lemma SameRemoteView(s: Server, r: Server, q: string)
    requires forall n :: (n in r.remotes && r.remotes[n] == q) <==> (n in s.remotes && s.remotes[n] == q)
    requires forall n, c :: n in s.remotes && s.remotes[n] == q ==>
      (HasMember(r, c, Ghost(n)) <==> HasMember(s, c, Ghost(n)))
    ensures RemoteView(r, q) == RemoteView(s, q)
  {
    assert RemoteView(r, q).roster == RemoteView(s, q).roster;
    forall p ensures p in RemoteView(r, q).at <==> p in RemoteView(s, q).at {
      InRemoteView(r, q, p);
      InRemoteView(s, q, p);
    }
  }

  lemma ReceiveNick(s: Server, a: string, n: string)
    requires ServerOk(s) && PeersApart(s) && a in s.links && Honest(a, SNick(n))
    ensures var r := Receive(s, LinkTo(s, a), SNick(n));
            ServerOk(r) && LocalView(r) == LocalView(s) && RemoteView(r, a) == Seen(RemoteView(s, a), SNick(n))
            && forall q :: q != a ==> RemoteView(r, q) == RemoteView(s, q)
  {
    var r := Receive(s, LinkTo(s, a), SNick(n));
    OneOwner(a, s.name, n);
    if n in s.remotes {
      KnownOwner(s, a, n);
      assert RemoteView(r, a).roster == Seen(RemoteView(s, a), SNick(n)).roster;
    } else {
      assert r.remotes == s.remotes[n := a];
      assert forall c :: !HasMember(s, c, Ghost(n));
      forall q | q != a ensures RemoteView(r, q) == RemoteView(s, q) { SameRemoteView(s, r, q); }
      forall p ensures p in RemoteView(r, a).at <==> p in RemoteView(s, a).at {
        InRemoteView(r, a, p);
        InRemoteView(s, a, p);
      }
      assert RemoteView(r, a).roster == RemoteView(s, a).roster + {n};
    }
  }

  /** Membership after a ghost of `a` parted. */
  lemma PartMembers(s: Server, a: string, ch: string, n: string)
    requires ServerOk(s) && a in s.links && Honest(a, SPart(ch, n))
    ensures var r := Receive(s, LinkTo(s, a), SPart(ch, n));
      && r.name == s.name && r.clients == s.clients && r.bots == s.bots && r.remotes == s.remotes && r.links == s.links
      && (forall c :: c in r.channels ==> !r.channels[c].restricted)
      && forall m, c :: HasMember(r, c, m) <==> HasMember(s, c, m) && !(n in s.remotes && c == ch && m == Ghost(n))
  {
    var r := Receive(s, LinkTo(s, a), SPart(ch, n));
    if n in s.remotes && ch in s.channels {
      assert Accepts(s, LinkTo(s, a), ch);
      assert forall m :: m in Without(s.channels[ch], {Ghost(n)}).members <==>
        m in s.channels[ch].members && m != Ghost(n);
    }
  }

  lemma SeenPart(v: View, ch: string, n: string, p: (string, string))
    ensures Seen(v, SPart(ch, n)).roster == v.roster
    ensures p in Seen(v, SPart(ch, n)).at <==> p in v.at && p != (n, ch)
  {
  }

  lemma ReceivePart(s: Server, a: string, ch: string, n: string)
    requires ServerOk(s) && PeersApart(s) && a in s.links && Honest(a, SPart(ch, n))
    ensures var r := Receive(s, LinkTo(s, a), SPart(ch, n));
            ServerOk(r) && LocalView(r) == LocalView(s) && RemoteView(r, a) == Seen(RemoteView(s, a), SPart(ch, n))
            && forall q :: q != a ==> RemoteView(r, q) == RemoteView(s, q)
  {
    var r := Receive(s, LinkTo(s, a), SPart(ch, n));
    assert OwnName(a, n);
    hide *;
    if n in s.remotes { KnownOwner(s, a, n); }
    PartMembers(s, a, ch, n);
    StillOk(s, r);
    SameLocalView(s, r);
    forall q | q != a ensures RemoteView(r, q) == RemoteView(s, q) { SameRemoteView(s, r, q); }
    forall p ensures p in RemoteView(r, a).at <==> p in Seen(RemoteView(s, a), SPart(ch, n)).at {
      InRemoteView(r, a, p);
      InRemoteView(s, a, p);
      SeenPart(RemoteView(s, a), ch, n, p);
    }
    SameRoster(s, r, a);
    SeenPart(RemoteView(s, a), ch, n, ("", ""));
  }

  /** Forgetting ghosts that all belong to one peer. */
  lemma VacateGhosts(s: Server, gone: set<string>)
    requires ServerOk(s)
    ensures
      var r := s.(remotes := s.remotes - gone, channels := Vacate(s.channels, set n | n in gone :: Ghost(n), false));
      ServerOk(r) && LocalView(r) == LocalView(s)
      && forall m, c :: HasMember(r, c, m) <==> HasMember(s, c, m) && !(m.Ghost? && m.nick in gone)
  {
    var ms := set n | n in gone :: Ghost(n);
    var r := s.(remotes := s.remotes - gone, channels := Vacate(s.channels, ms, false));
    forall m, c ensures HasMember(r, c, m) <==> HasMember(s, c, m) && !(m.Ghost? && m.nick in gone) {
      assert m in ms <==> m.Ghost? && m.nick in gone;
    }
    SameLocalView(s, r);
  }

  lemma SeenQuit(v: View, n: string, p: (string, string))
    ensures Seen(v, SQuitUser(n)).roster == v.roster - {n}
    ensures p in Seen(v, SQuitUser(n)).at <==> p in v.at && p.0 != n
  {
  }

  /** The server after a ghost of `a` quit. */
  lemma QuitMembers(s: Server, a: string, n: string)
    requires ServerOk(s) && a in s.links
    ensures var r := Receive(s, LinkTo(s, a), SQuitUser(n));
      && ServerOk(r) && LocalView(r) == LocalView(s) && r.remotes == s.remotes - {n}
      && forall m, c :: HasMember(r, c, m) <==> HasMember(s, c, m) && !(n in s.remotes && m == Ghost(n))
  {
    if n in s.remotes {
      VacateGhosts(s, {n});
      assert (set x | x in {n} :: Ghost(x)) == {Ghost(n)};
      hide ServerOk, LocalView, Vacate, HasMember;
    } else {
      assert s.remotes == s.remotes - {n};
    }
  }

  lemma RosterLess(s: Server, r: Server, q: string, n: string)
    requires r.remotes == s.remotes - {n}
    ensures RemoteView(r, q).roster == RemoteView(s, q).roster - {n}
  {
  }

  lemma ReceiveQuit(s: Server, a: string, n: string)
    requires ServerOk(s) && PeersApart(s) && a in s.links && Honest(a, SQuitUser(n))
    ensures var r := Receive(s, LinkTo(s, a), SQuitUser(n));
            ServerOk(r) && LocalView(r) == LocalView(s) && RemoteView(r, a) == Seen(RemoteView(s, a), SQuitUser(n))
            && forall q :: q != a ==> RemoteView(r, q) == RemoteView(s, q)
  {
    var r := Receive(s, LinkTo(s, a), SQuitUser(n));
    assert OwnName(a, n);
    hide *;
    if n in s.remotes { KnownOwner(s, a, n); }
    QuitMembers(s, a, n);
    forall q | q != a ensures RemoteView(r, q) == RemoteView(s, q) { SameRemoteView(s, r, q); }
    forall p ensures p in RemoteView(r, a).at <==> p in Seen(RemoteView(s, a), SQuitUser(n)).at {
      InRemoteView(r, a, p);
      InRemoteView(s, a, p);
      SeenQuit(RemoteView(s, a), n, p);
    }
    RosterLess(s, r, a, n);
    SeenQuit(RemoteView(s, a), n, ("", ""));
  }

  lemma ReceiveMeta(s: Server, a: string, ch: string, persistent: bool)
    requires ServerOk(s) && a in s.links
    ensures var r := Receive(s, LinkTo(s, a), SRoomMeta(ch, persistent));
            ServerOk(r) && LocalView(r) == LocalView(s) && forall q :: RemoteView(r, q) == RemoteView(s, q)
  {
    var r := Receive(s, LinkTo(s, a), SRoomMeta(ch, persistent));
    assert forall m, c :: HasMember(r, c, m) <==> HasMember(s, c, m);
    SameLocalView(s, r);
    forall q ensures RemoteView(r, q) == RemoteView(s, q) { SameRemoteView(s, r, q); }
  }

  /** An honest line means at the receiver what it means on paper, and nothing to other views. */
  lemma ReceiveHonest(s: Server, a: string, line: Line)
    requires ServerOk(s) && PeersApart(s) && a in s.links && Honest(a, line)
    ensures var r := Receive(s, LinkTo(s, a), line);
            ServerOk(r) && LocalView(r) == LocalView(s) && RemoteView(r, a) == Seen(RemoteView(s, a), line)
            && forall q :: q != a ==> RemoteView(r, q) == RemoteView(s, q)
  {
    match line
    case SNick(n) => ReceiveNick(s, a, n);
    case SJoin(ch, ns) => ReceiveJoin(s, a, ch, ns);
    case SPart(ch, n) => ReceivePart(s, a, ch, n);
    case SQuitUser(n) => ReceiveQuit(s, a, n);
    case SRoomMeta(ch, persistent) => ReceiveMeta(s, a, ch, persistent);
    case _ =>
  }

  // ---------------------------------------------------------------- local commands

  lemma LeaveMembers(s: Server, ch: string, gone: Member, ch': string, m: Member)
    requires ch in s.channels && gone in s.channels[ch].members
    ensures HasMember(s.(channels := Leave(s.channels, ch, gone, true)), ch', m)
       <==> HasMember(s, ch', m) && !(ch' == ch && m == gone)
  {
    assert m in Without(s.channels[ch], {gone}).members <==> m in s.channels[ch].members && m != gone;
  }

  lemma DoMember(s: Server, c: Command, ch: string, m: Member)
    requires Tame(s, c)
    ensures HasMember(Do(s, c), ch, m) <==> MemberAfter(s, c, ch, m)
  {
    if Accepted(s, c) {
      match c
      case Part(n, ch') => LeaveMembers(s, ch', Local(n), ch, m);
      case BotPart(n, ch') => LeaveMembers(s, ch', Bot(n), ch, m);
      case _ =>
    }
  }

  lemma AfterKnown(s: Server, c: Command, ch: string, m: Member)
    requires MembersKnown(s) && Tame(s, c) && MemberAfter(s, c, ch, m)
    ensures match m
            case Local(n) => n in Do(s, c).clients
            case Bot(n) => n in s.bots
            case Ghost(n) => n in s.remotes
  {
    assert HasMember(s, ch, m) ==>
      match m case Local(n) => n in s.clients case Bot(n) => n in s.bots case Ghost(n) => n in s.remotes;
  }

  lemma DoMembers(s: Server, c: Command)
    requires ServerOk(s) && Tame(s, c)
    ensures forall n, ch :: HasMember(Do(s, c), ch, Ghost(n)) <==> HasMember(s, ch, Ghost(n))
    ensures forall m, ch :: HasMember(Do(s, c), ch, m) ==>
              match m case Local(n) => n in Do(s, c).clients case Bot(n) => n in s.bots case Ghost(n) => n in s.remotes
  {
    forall m, ch ensures HasMember(Do(s, c), ch, m) <==> MemberAfter(s, c, ch, m) {
      DoMember(s, c, ch, m);
    }
    forall m, ch | MemberAfter(s, c, ch, m)
      ensures match m case Local(n) => n in Do(s, c).clients case Bot(n) => n in s.bots case Ghost(n) => n in s.remotes
    {
      AfterKnown(s, c, ch, m);
    }
  }

  /** Membership after a tame command. */
  predicate MemberAfter(s: Server, c: Command, ch: string, m: Member) {
    if !Accepted(s, c) then HasMember(s, ch, m) else match c
      case Join(n, ch') => HasMember(s, ch, m) || (ch == ch' && m == Local(n))
      case Part(n, ch') => HasMember(s, ch, m) && !(ch == ch' && m == Local(n))
      case Quit(n) => HasMember(s, ch, m) && m != Local(n)
      case BotJoin(n, ch') => HasMember(s, ch, m) || (ch == ch' && m == Bot(n))
      case BotPart(n, ch') => HasMember(s, ch, m) && !(ch == ch' && m == Bot(n))
      case _ => HasMember(s, ch, m)
  }

  lemma MembersAreKnown(r: Server)
    requires forall m, ch :: HasMember(r, ch, m) ==>
               match m case Local(n) => n in r.clients case Bot(n) => n in r.bots case Ghost(n) => n in r.remotes
    requires r.clients !! r.bots
    ensures MembersKnown(r)
  {
    forall n, ch | ch in r.channels && Local(n) in r.channels[ch].members
      ensures n in r.clients
    {
      assert HasMember(r, ch, Local(n));
    }
    forall n, ch | ch in r.channels && Bot(n) in r.channels[ch].members
      ensures n in r.bots
    {
      assert HasMember(r, ch, Bot(n));
    }
    forall n, ch | ch in r.channels && Ghost(n) in r.channels[ch].members
      ensures n in r.remotes
    {
      assert HasMember(r, ch, Ghost(n));
    }
  }

  lemma DoFlags(s: Server, c: Command)
    requires ServerOk(s) && Tame(s, c)
    ensures forall n :: n in Do(s, c).clients ==> Owned(s.name, n)
    ensures forall ch :: ch in Do(s, c).channels ==> !Do(s, c).channels[ch].restricted
    ensures Do(s, c).clients !! s.bots
  {
  }

  lemma DoTame(s: Server, c: Command)
    requires ServerOk(s) && Tame(s, c)
    ensures ServerOk(Do(s, c))
    ensures forall q :: RemoteView(Do(s, c), q) == RemoteView(s, q)
  {
    var r := Do(s, c);
    DoMembers(s, c);
    DoKeepsLinks(s, c);
    DoFlags(s, c);
    assert r.remotes == s.remotes;
    MembersAreKnown(r);
    forall q ensures RemoteView(r, q) == RemoteView(s, q) { SameRemoteView(s, r, q); }
  }

  /** An event server `a` raises in these runs. */
  predicate HonestEvent(a: string, e: Event) {
    match e.body
    case JoinEvent(n) => OwnName(a, n)
    case PartEvent(n) => OwnName(a, n)
    case QuitEvent(n) => Owned(a, n)
    case ArchiveEvent(_) => false
    case _ => true
  }

  lemma RaisedHonest(s: Server, c: Command)
    requires ServerOk(s) && Tame(s, c) && Raised(s, c).Some?
    ensures HonestEvent(s.name, Raised(s, c).value)
  {
    hide Do, ArchiveNameOf, PeekNick;
    match c
    case Part(n, ch) => assert HasMember(s, ch, Local(n));
    case BotPart(b, ch) => assert HasMember(s, ch, Bot(b));
    case _ =>
  }

  lemma RelayHonest(s: Server, peer: string, name: string, e: Option<Event>)
    requires e.Some? ==> HonestEvent(name, e.value)
    ensures forall l :: l in Relay(s, peer, e) ==> Honest(name, l)
  {
  }

  /** What a command puts on the link besides the relay of its event. */
  lemma EmitsFrom(s: Server, c: Command, peer: string, l: Line)
    requires l in Emits(s, c, peer)
    ensures || l in Relay(AtEvent(s, c), peer, Raised(s, c)) || l.SMsg? || l.SMention?
            || (c.Register? && Accepted(s, c) && l == SNick(c.nick))
  {
    hide Relay, Raised, Accepted, Do;
  }

  lemma EmitsHonest(s: Server, c: Command, peer: string)
    requires ServerOk(s) && Tame(s, c)
    ensures forall l :: l in Emits(s, c, peer) ==> Honest(s.name, l)
  {
    if Raised(s, c).Some? { RaisedHonest(s, c); }
    RelayHonest(AtEvent(s, c), peer, s.name, Raised(s, c));
    hide Emits, Relay, Raised, Do, AtEvent, ServerOk, Tame;
    forall l | l in Emits(s, c, peer) ensures Honest(s.name, l) { EmitsFrom(s, c, peer, l); }
  }

  lemma TameAnnounced(s: Server, c: Command, peer: string)
    requires ServerOk(s) && Tame(s, c) && peer in s.links
    ensures !Unannounced(s, c, peer)
  {
  }

  // ---------------------------------------------------------------- links

  lemma {:induction false} RosterSeen(s: Server, v: View, lines: seq<Line>)
    requires forall i :: 0 <= i < |lines| ==> lines[i].SNick?
    ensures AllSeen(v, lines) == v.(roster := v.roster + set i | 0 <= i < |lines| :: lines[i].nick)
    decreases |lines|
  {
    var names := set i | 0 <= i < |lines| :: lines[i].nick;
    if lines == [] {
      assert names == {};
    } else {
      var rest := lines[1..];
      RosterSeen(s, Seen(v, lines[0]), rest);
      var more := set i | 0 <= i < |rest| :: rest[i].nick;
      forall n ensures n in names <==> n == lines[0].nick || n in more {
        if n in names {
          var i :| 0 <= i < |lines| && lines[i].nick == n;
          if i > 0 { assert rest[i - 1].nick == n; }
        }
        if n in more {
          var i :| 0 <= i < |rest| && rest[i].nick == n;
          assert lines[i + 1].nick == n;
        }
        assert lines[0].nick in names;
      }
      assert v.roster + names == v.roster + {lines[0].nick} + more;
    }
  }

  /** The pairs a list of SJOIN lines adds. */
  ghost predicate Adds(v: View, lines: seq<Line>, p: (string, string)) {
    && p.0 in v.roster
    && exists i :: 0 <= i < |lines| && lines[i].SJoin? && lines[i].channel == p.1 && p.0 in lines[i].nicks
  }

  lemma {:induction false} JoinsSeen(v: View, lines: seq<Line>)
    requires forall i :: 0 <= i < |lines| ==> lines[i].SJoin?
    ensures AllSeen(v, lines).roster == v.roster
    ensures forall p :: p in AllSeen(v, lines).at <==> p in v.at || Adds(v, lines, p)
    decreases |lines|
  {
    if lines != [] {
      var rest, v' := lines[1..], Seen(v, lines[0]);
      JoinsSeen(v', rest);
      forall p
        ensures Adds(v, lines, p) <==>
          (p.0 in v.roster && p.1 == lines[0].channel && p.0 in lines[0].nicks) || Adds(v', rest, p)
      {
        if Adds(v, lines, p) {
          var i :| 0 <= i < |lines| && lines[i].SJoin? && lines[i].channel == p.1 && p.0 in lines[i].nicks;
          if i > 0 { assert rest[i - 1] == lines[i]; }
        }
        if Adds(v', rest, p) {
          var i :| 0 <= i < |rest| && rest[i].SJoin? && rest[i].channel == p.1 && p.0 in rest[i].nicks;
          assert lines[i + 1] == rest[i];
        }
      }
      forall p
        ensures p in v'.at <==> p in v.at || (p.0 in v.roster && p.1 == lines[0].channel && p.0 in lines[0].nicks)
      {
      }
    }
  }

  lemma BurstRoster(s: Server, roster: seq<Line>)
    requires IsRoster(s, roster)
    ensures AllSeen(NOBODY, roster) == View(s.clients, {})
  {
    RosterSeen(s, NOBODY, roster);
    var names := set i | 0 <= i < |roster| :: roster[i].nick;
    forall n ensures n in names <==> n in s.clients {
      if n in s.clients {
        assert SNick(n) in roster;
        var i :| 0 <= i < |roster| && roster[i] == SNick(n);
        assert roster[i].nick == n;
      }
    }
    assert names == s.clients && {} + names == names;
  }

  lemma BurstMembership(s: Server, peer: string, joins: seq<Line>)
    requires ServerOk(s) && peer in s.links && IsMembership(s, peer, joins)
    ensures AllSeen(View(s.clients, {}), joins) == LocalView(s)
  {
    var v := View(s.clients, {});
    JoinsSeen(v, joins);
    forall p ensures Adds(v, joins, p) <==> p in LocalView(s).at {
      InLocalView(s, p);
      var (n, ch) := p;
      if Adds(v, joins, p) {
        var i :| 0 <= i < |joins| && joins[i].SJoin? && joins[i].channel == ch && n in joins[i].nicks;
        assert n in Announced(s, ch);
        AnnouncedClient(s, ch, n);
      }
      if p in LocalView(s).at {
        AnnouncedClient(s, ch, n);
        assert ShouldRelay(s, peer, ch);
        var i :| 0 <= i < |joins| && joins[i].SJoin? && joins[i].channel == ch;
        assert n in joins[i].nicks;
      }
    }
  }

  lemma AnnouncedClient(s: Server, ch: string, n: string)
    requires MembersKnown(s) && n in s.clients && ch in s.channels
    ensures n in Announced(s, ch) <==> Local(n) in s.channels[ch].members
  {
    assert Bot(n) !in s.channels[ch].members;
    if Local(n) in s.channels[ch].members { assert !Local(n).Ghost?; }
  }

  lemma ThreeParts<T>(s: seq<T>, j: nat, k: nat)
    requires j <= k <= |s|
    ensures s == s[..j] + (s[j..k] + s[k..])
  {
  }

  /** The burst alone tells an ignorant peer everything. */
  lemma BurstSeen(s: Server, peer: string, lines: seq<Line>)
    requires ServerOk(s) && peer in s.links && IsBurst(s, peer, lines)
    ensures AllSeen(NOBODY, lines) == LocalView(s)
    ensures forall l :: l in lines ==> Honest(s.name, l)
  {
    var j, k :| 0 <= j <= k <= |lines| &&
      IsRoster(s, lines[..j]) && IsMembership(s, peer, lines[j..k]) && IsRoomInfo(s, peer, lines[k..]);
    var roster, joins, info := lines[..j], lines[j..k], lines[k..];
    BurstRoster(s, roster);
    BurstMembership(s, peer, joins);
    UnseenLines(LocalView(s), info);
    ThreeParts(lines, j, k);
    AllSeenConcat(NOBODY, roster, joins + info);
    AllSeenConcat(View(s.clients, {}), joins, info);
    BurstHonest(s, peer, roster, joins, info);
  }

  lemma BurstHonest(s: Server, peer: string, roster: seq<Line>, joins: seq<Line>, info: seq<Line>)
    requires ServerOk(s) && IsRoster(s, roster) && IsMembership(s, peer, joins) && IsRoomInfo(s, peer, info)
    ensures forall l :: l in roster + (joins + info) ==> Honest(s.name, l)
  {
    forall i | 0 <= i < |joins| ensures Honest(s.name, joins[i]) {
      var ch := joins[i].channel;
      forall k | 0 <= k < |joins[i].nicks| ensures OwnName(s.name, joins[i].nicks[k]) {
        assert joins[i].nicks[k] in Announced(s, ch);
      }
    }
  }

  lemma ConnectOk(s: Server, peer: string)
    requires ServerOk(s)
    ensures ServerOk(Connect(s, peer, "full")) && LocalView(Connect(s, peer, "full")) == LocalView(s)
    ensures forall q :: RemoteView(Connect(s, peer, "full"), q) == RemoteView(s, q)
  {
  }

  lemma UnlinkedUnknown(s: Server, peer: string)
    requires ServerOk(s) && peer !in s.links
    ensures RemoteView(s, peer) == NOBODY
  {
  }

  lemma DisconnectOk(s: Server, peer: string)
    requires ServerOk(s)
    ensures ServerOk(Disconnect(s, peer)) && LocalView(Disconnect(s, peer)) == LocalView(s)
    ensures forall q :: q != peer ==> RemoteView(Disconnect(s, peer), q) == RemoteView(s, q)
  {
    var r := Disconnect(s, peer);
    var gone := set n | n in s.remotes && s.remotes[n] == peer;
    VacateGhosts(s, gone);
    assert (set n | n in gone :: Ghost(n)) == GhostsOf(s, peer);
    assert s.remotes - gone == r.remotes;
    forall q | q != peer ensures RemoteView(r, q) == RemoteView(s, q) { SameRemoteView(s, r, q); }
  }

  // ---------------------------------------------------------------- the mesh

  ghost predicate Mirrored(w: World, a: string, b: string)
  {
    && a in w.servers && b in w.servers && (a, b) in w.wires
    && AllSeen(RemoteView(w.servers[b], a), w.wires[(a, b)]) == LocalView(w.servers[a])
    && forall l :: l in w.wires[(a, b)] ==> Honest(a, l)
  }

  ghost predicate NamesApart(w: World) {
    forall a, b :: a in w.servers && b in w.servers && a != b ==> Apart(a, b)
  }

  ghost predicate ServersOk(w: World) {
    forall a :: a in w.servers ==> ServerOk(w.servers[a])
  }

  ghost predicate LinksMirrored(w: World) {
    forall a, b :: Linked(w, a, b) ==> Mirrored(w, a, b)
  }

  ghost predicate MeshOk(w: World) {
    Shaped(w) && NamesApart(w) && ServersOk(w) && LinksMirrored(w)
  }

  predicate TameAction(w: World, act: Action) {
    match act
    case Act(a, c) => a in w.servers && Tame(w.servers[a], c)
    case LinkUp(_, _, ta, tb, _, _) => ta == "full" && tb == "full"
    case _ => true
  }

  lemma MeshPeers(w: World, a: string)
    requires MeshOk(w) && a in w.servers
    ensures PeersApart(w.servers[a])
  {
    forall p | p in w.servers[a].links ensures Linked(w, p, a) && p != a { assert Linked(w, a, p); }
  }

  /** The mesh after server `at`, now `r`, has put the lines `out` on its links. */
  lemma ActedLink(w: World, at: string, r: Server, out: map<string, seq<Line>>, w': World)
    requires LinksMirrored(w) && at in w.servers && w'.servers == w.servers[at := r] && w'.wires.Keys == w.wires.Keys
    requires r.links == w.servers[at].links && (forall q :: RemoteView(r, q) == RemoteView(w.servers[at], q))
    requires forall b :: Linked(w, at, b) ==>
      && b in out && AllSeen(LocalView(w.servers[at]), out[b]) == LocalView(r)
      && (forall l :: l in out[b] ==> Honest(at, l))
    requires forall k :: k in w.wires ==>
      w'.wires[k] == if k.0 == at && k.1 in out then w.wires[k] + out[k.1] else w.wires[k]
    ensures LinksMirrored(w')
  {
    forall a, b | Linked(w', a, b) ensures Mirrored(w', a, b) {
      assert Linked(w, a, b) && Mirrored(w, a, b);
      if a == at { AllSeenConcat(RemoteView(w.servers[b], a), w.wires[(a, b)], out[b]); }
    }
  }

  /** What a tame command puts on one link. */
  lemma SentTo(s: Server, c: Command, peer: string)
    requires ServerOk(s) && Tame(s, c) && peer in s.links
    ensures AllSeen(LocalView(s), Emits(s, c, peer)) == LocalView(Do(s, c))
    ensures forall l :: l in Emits(s, c, peer) ==> Honest(s.name, l)
  {
    EmitsHonest(s, c, peer);
    TameAnnounced(s, c, peer);
    MirroredIffAnnounced(s, c, peer);
  }

  /** What a tame command puts on all links. */
  lemma SentOut(s: Server, c: Command) returns (out: map<string, seq<Line>>)
    requires ServerOk(s) && Tame(s, c)
    ensures out.Keys == s.links.Keys && forall b :: b in s.links ==> out[b] == Emits(s, c, b)
    ensures forall b :: b in s.links ==>
      AllSeen(LocalView(s), out[b]) == LocalView(Do(s, c)) && (forall l :: l in out[b] ==> Honest(s.name, l))
  {
    out := map b | b in s.links :: Emits(s, c, b);
    forall b | b in s.links
      ensures AllSeen(LocalView(s), out[b]) == LocalView(Do(s, c)) && (forall l :: l in out[b] ==> Honest(s.name, l))
    {
      SentTo(s, c, b);
    }
  }

  /** Every link of a server has its wire. */
  lemma WiresOf(w: World, at: string)
    requires Shaped(w) && at in w.servers
    ensures w.servers[at].name == at
    ensures forall k :: k in w.wires && k.0 == at ==> k.1 in w.servers[at].links
    ensures forall b :: Linked(w, at, b) ==> b in w.servers[at].links
  {
    assert forall k :: k in w.wires && k.0 == at ==> Linked(w, at, k.1);
  }

  lemma ActMirrors(w: World, at: string, c: Command)
    requires MeshOk(w) && at in w.servers && Tame(w.servers[at], c)
    ensures MeshOk(AfterAct(w, at, c))
  {
    hide Do, Emits, ServerOk, LocalView, RemoteView, AllSeen, Honest, Tame, MembersKnown;
    NextShaped(w, Act(at, c));
    DoTame(w.servers[at], c);
    DoKeepsLinks(w.servers[at], c);
    var out := SentOut(w.servers[at], c);
    WiresOf(w, at);
    OneOk(w, at, Do(w.servers[at], c), AfterAct(w, at, c));
    ActedLink(w, at, Do(w.servers[at], c), out, AfterAct(w, at, c));
  }

  /** The mesh after server `to`, now `r`, has taken one line from `from`. */
  lemma DeliveredLink(w: World, from: string, to: string, r: Server, w': World)
    requires LinksMirrored(w) && (from, to) in w.wires && to in w.servers && w.wires[(from, to)] != [] && from != to
    requires w' == World(w.servers[to := r], w.wires[(from, to) := w.wires[(from, to)][1..]])
    requires LocalView(r) == LocalView(w.servers[to]) && r.links == w.servers[to].links
    requires RemoteView(r, from) == Seen(RemoteView(w.servers[to], from), w.wires[(from, to)][0])
    requires forall q :: q != from ==> RemoteView(r, q) == RemoteView(w.servers[to], q)
    ensures LinksMirrored(w')
  {
    forall a, b | Linked(w', a, b) ensures Mirrored(w', a, b) {
      assert Linked(w, a, b) && Mirrored(w, a, b);
    }
  }

  lemma DeliverMirrors(w: World, from: string, to: string)
    requires MeshOk(w) && (from, to) in w.wires && w.wires[(from, to)] != []
    ensures Linked(w, to, from) && MeshOk(AfterDeliver(w, from, to))
  {
    hide Receive, ServerOk, LocalView, RemoteView, Honest, Tame, MembersKnown, SendOn, AllSeen;
    assert Linked(w, from, to) && Mirrored(w, from, to);
    var line, s := w.wires[(from, to)][0], w.servers[to];
    assert line in w.wires[(from, to)];
    MeshPeers(w, to);
    ReceiveHonest(s, from, line);
    ReceiveKeepsLinks(s, LinkTo(s, from), line);
    NextShaped(w, Deliver(from, to));
    NoSecondHop(w, from, to);
    OneOk(w, to, Receive(s, LinkTo(s, from), line), AfterDeliver(w, from, to));
    DeliveredLink(w, from, to, Receive(s, LinkTo(s, from), line), AfterDeliver(w, from, to));
  }

  /** The mesh after `x` and `y`, now `rx` and `ry`, have linked and burst. */
  lemma JoinedLink(w: World, x: string, y: string, rx: Server, ry: Server, lx: seq<Line>, ly: seq<Line>, w': World)
    requires LinksMirrored(w) && x in w.servers && y in w.servers && x != y
    requires w' == World(Both(w, x, rx, y, ry), w.wires[(x, y) := lx][(y, x) := ly])
    requires rx.links.Keys == w.servers[x].links.Keys + {y} && ry.links.Keys == w.servers[y].links.Keys + {x}
    requires LocalView(rx) == LocalView(w.servers[x]) && (forall q :: RemoteView(rx, q) == RemoteView(w.servers[x], q))
    requires LocalView(ry) == LocalView(w.servers[y]) && (forall q :: RemoteView(ry, q) == RemoteView(w.servers[y], q))
    requires RemoteView(rx, y) == NOBODY && AllSeen(NOBODY, ly) == LocalView(ry)
      && (forall l :: l in ly ==> Honest(y, l))
    requires RemoteView(ry, x) == NOBODY && AllSeen(NOBODY, lx) == LocalView(rx)
      && (forall l :: l in lx ==> Honest(x, l))
    ensures LinksMirrored(w')
  {
    forall a, b | Linked(w', a, b) ensures Mirrored(w', a, b) {
      if (a, b) != (x, y) && (a, b) != (y, x) {
        assert Linked(w, a, b) && Mirrored(w, a, b);
      }
    }
  }

  /** One end of a new link: nothing changes but the link, and its burst tells the peer everything. */
  lemma Introduced(s: Server, peer: string, lines: seq<Line>)
    requires ServerOk(s) && peer !in s.links && IsBurst(Connect(s, peer, "full"), peer, lines)
    ensures var r := Connect(s, peer, "full");
      && ServerOk(r) && LocalView(r) == LocalView(s) && (forall q :: RemoteView(r, q) == RemoteView(s, q))
      && RemoteView(r, peer) == NOBODY && AllSeen(NOBODY, lines) == LocalView(r)
      && (forall l :: l in lines ==> Honest(s.name, l))
  {
    ConnectOk(s, peer);
    BurstSeen(Connect(s, peer, "full"), peer, lines);
    UnlinkedUnknown(s, peer);
  }

  lemma LinkUpMirrors(w: World, x: string, y: string, lx: seq<Line>, ly: seq<Line>)
    requires MeshOk(w) && Possible(w, LinkUp(x, y, "full", "full", lx, ly))
    ensures MeshOk(AfterLinkUp(w, x, y, "full", "full", lx, ly))
  {
    hide Do, Emits, ServerOk, LocalView, RemoteView, AllSeen, Honest, Tame, MembersKnown;
    var w' := AfterLinkUp(w, x, y, "full", "full", lx, ly);
    var rx, ry := Connect(w.servers[x], y, "full"), Connect(w.servers[y], x, "full");
    assert !Linked(w, x, y) && !Linked(w, y, x);
    NextShaped(w, LinkUp(x, y, "full", "full", lx, ly));
    Introduced(w.servers[x], y, lx);
    Introduced(w.servers[y], x, ly);
    BothOk(w, x, y, rx, ry, w');
    JoinedLink(w, x, y, rx, ry, lx, ly, w');
  }

  lemma OneOk(w: World, x: string, r: Server, w': World)
    requires ServersOk(w) && NamesApart(w) && x in w.servers && ServerOk(r)
    requires w'.servers == w.servers[x := r]
    ensures ServersOk(w') && NamesApart(w')
  {
    assert w'.servers.Keys == w.servers.Keys;
  }

  lemma BothOk(w: World, x: string, y: string, rx: Server, ry: Server, w': World)
    requires ServersOk(w) && NamesApart(w) && x in w.servers && y in w.servers && ServerOk(rx) && ServerOk(ry)
    requires w'.servers == Both(w, x, rx, y, ry)
    ensures ServersOk(w') && NamesApart(w')
  {
    hide ServerOk, Apart;
    assert w'.servers.Keys == w.servers.Keys;
  }

  /** The mesh after `x` and `y`, now `rx` and `ry`, have lost their link. */
  lemma PartedLink(w: World, x: string, y: string, rx: Server, ry: Server, w': World)
    requires LinksMirrored(w) && x in w.servers && y in w.servers && x != y
    requires w' == World(Both(w, x, rx, y, ry), w.wires - {(x, y), (y, x)})
    requires rx.links == w.servers[x].links - {y} && ry.links == w.servers[y].links - {x}
    requires LocalView(rx) == LocalView(w.servers[x])
    requires LocalView(ry) == LocalView(w.servers[y])
    requires forall q :: q != y ==> RemoteView(rx, q) == RemoteView(w.servers[x], q)
    requires forall q :: q != x ==> RemoteView(ry, q) == RemoteView(w.servers[y], q)
    ensures LinksMirrored(w')
  {
    forall a, b | Linked(w', a, b) ensures Mirrored(w', a, b) {
      assert Linked(w, a, b) && Mirrored(w, a, b);
    }
  }

  lemma LinkDownMirrors(w: World, x: string, y: string)
    requires MeshOk(w) && (x, y) in w.wires
    ensures MeshOk(AfterLinkDown(w, x, y))
  {
    hide Do, Emits, ServerOk, LocalView, RemoteView, AllSeen, Honest, Tame, MembersKnown;
    assert Linked(w, x, y);
    NextShaped(w, LinkDown(x, y));
    DisconnectOk(w.servers[x], y);
    DisconnectOk(w.servers[y], x);
    var rx, ry, w' := Disconnect(w.servers[x], y), Disconnect(w.servers[y], x), AfterLinkDown(w, x, y);
    BothOk(w, x, y, rx, ry, w');
    PartedLink(w, x, y, rx, ry, w');
  }

  lemma NextMirrors(w: World, act: Action)
    requires MeshOk(w) && Possible(w, act) && TameAction(w, act)
    ensures MeshOk(Next(w, act))
  {
    match act
    case Act(a, c) => ActMirrors(w, a, c);
    case Deliver(a, b) => DeliverMirrors(w, a, b);
    case LinkUp(a, b, ta, tb, la, lb) => LinkUpMirrors(w, a, b, la, lb);
    case LinkDown(a, b) => LinkDownMirrors(w, a, b);
  }

  ghost predicate TameRun(w: World, acts: seq<Action>)
    requires Shaped(w) && Run(w, acts)
    decreases |acts|
  {
    acts == [] || (TameAction(w, acts[0]) && (NextShaped(w, acts[0]); TameRun(Next(w, acts[0]), acts[1..])))
  }

  /** Separate servers, nobody linked yet. */
  ghost predicate Unlinked(w: World) {
    && Named(w) && w.wires == map[]
    && (forall a :: a in w.servers ==> w.servers[a].links == map[] && ServerOk(w.servers[a]))
    && (forall a, b :: a in w.servers && b in w.servers && a != b ==> Apart(a, b))
  }

  lemma {:induction false} RunMirrors(w: World, acts: seq<Action>)
    requires MeshOk(w) && Run(w, acts) && TameRun(w, acts)
    ensures MeshOk(End(w, acts))
    decreases |acts|
  {
    if acts != [] {
      NextMirrors(w, acts[0]);
      RunMirrors(Next(w, acts[0]), acts[1..]);
    }
  }

  /**
   * From separate servers, after any run of tame actions by all of them: for both directions of every
   * link, the receiver's picture plus the lines in flight is exactly the sender's roster and membership;
   * with nothing in flight the picture is exact; and nothing is remembered of a server not linked.
   */
  lemma ReplicasAgree(w: World, acts: seq<Action>, a: string, b: string)
    requires Unlinked(w) && Shaped(w) && Run(w, acts) && TameRun(w, acts)
    requires a in End(w, acts).servers && b in End(w, acts).servers
    ensures var e := End(w, acts);
            && (Linked(e, a, b) ==>
                  && (a, b) in e.wires
                  && AllSeen(RemoteView(e.servers[b], a), e.wires[(a, b)]) == LocalView(e.servers[a])
                  && (e.wires[(a, b)] == [] ==> RemoteView(e.servers[b], a) == LocalView(e.servers[a])))
            && (!Linked(e, a, b) ==> RemoteView(e.servers[b], a) == NOBODY)
  {
    assert forall x, y :: !Linked(w, x, y);
    RunMirrors(w, acts);
    var e := End(w, acts);
    if Linked(e, a, b) {
      assert Mirrored(e, a, b);
    } else {
      assert !Linked(e, b, a);
      UnlinkedUnknown(e.servers[b], a);
    }
  }
}
