/**
 * One federated server as a value: local clients, bots, ghosts of remote clients, channels, links;
 * what a local command does and which lines it puts on a link; what a line from a peer does.
 */
module Servers {
  import opened Text
  import opened Rooms
  import opened Events
  import opened ArchiveNames

  const SYSTEM_PREFIX := "system-"
  const TASK_PREFIX := "#task-"

  predicate TaskChannel(ch: string) { StartsWith(ch, TASK_PREFIX) }

  /** A channel member: a connected client, a server-side bot, or the ghost of a remote client. */
  datatype Member = Local(nick: string) | Bot(nick: string) | Ghost(nick: string)

  /** `remotes` maps a ghost's nick to the peer that announced it, `links` a peer to its trust level. */
  datatype Server = Server(
    name: string, clients: set<string>, bots: set<string>, remotes: map<string, string>,
    channels: map<string, Channel<Member>>, links: map<string, string>)

  // ---------------------------------------------------------------- trust

  /** Whether events of channel `ch` go out over the link to `peer`. */
  predicate ShouldRelay(s: Server, peer: string, ch: string) {
    && !TaskChannel(ch) && ch in s.channels && !s.channels[ch].restricted
    && peer in s.links
    && (s.links[peer] == "full" || (s.links[peer] == "restricted" && peer in s.channels[ch].sharedWith))
  }

  /** A connection to another server, registered or not: the name the peer has given, if any yet, and its trust. */
  datatype Conn = Conn(peer: Option<string>, trust: string)

  /** The registered link to `peer`. */
  function LinkTo(s: Server, peer: string): Conn
    requires peer in s.links
  {
    Conn(Some(peer), s.links[peer])
  }

  /** What is put into an origin and tested there for truth. */
  function PeerName(c: Conn): string { if c.peer.Some? then c.peer.value else "" }

  /** What the nicks a peer announces begin with, which before it has given its name is the text of no name. */
  function NickPrefix(c: Conn): string { (if c.peer.Some? then c.peer.value else "None") + "-" }

  /** A channel is shared with the peer, or the peer needs no sharing. */
  predicate Shared(c: Conn, ch: Channel<Member>) {
    c.trust == "restricted" ==> c.peer.Some? && c.peer.value in ch.sharedWith
  }

  /** Whether membership and messages for `ch` are accepted over `c`. */
  predicate Accepts(s: Server, c: Conn, ch: string) {
    && !TaskChannel(ch)
    && if ch in s.channels then !s.channels[ch].restricted && Shared(c, s.channels[ch]) else c.trust != "restricted"
  }

  // ---------------------------------------------------------------- lines between servers

  datatype Line =
    | SNick(nick: string)
    | SJoin(channel: string, nicks: seq<string>)
    | SPart(channel: string, nick: string)
    | SQuitUser(nick: string)
    | SMsg(target: string, nick: string, text: string, notice: bool)
    | SMention(target: string, about: Option<string>)
    | STopic(channel: string, nick: string)
    | SRoomMeta(channel: string, persistent: bool)
    | SRoomArchive(channel: string, newName: string)
    | SEvent(claimed: string, event: Event)

  /** What a line received over `c` does to the server. */
  function Receive(s: Server, c: Conn, line: Line): Server {
    match line
    case SNick(n) =>
      if StartsWith(n, SYSTEM_PREFIX) || !StartsWith(n, NickPrefix(c)) || n in s.clients || n in s.remotes then s
      else s.(remotes := s.remotes[n := PeerName(c)])
    case SJoin(ch, ns) =>
      if !Accepts(s, c, ch) then s
      else s.(channels := WithMembers(s.channels, ch, KnownGhosts(s, ns)))
    case SPart(ch, n) =>
      if n !in s.remotes || ch !in s.channels || !Accepts(s, c, ch) then s
      else s.(channels := Leave(s.channels, ch, Ghost(n), false))
    case SQuitUser(n) =>
      if n !in s.remotes then s
      else s.(remotes := s.remotes - {n}, channels := Vacate(s.channels, {Ghost(n)}, false))
    case SRoomMeta(ch, persistent) =>
      if ch in s.channels && (s.channels[ch].restricted || !Shared(c, s.channels[ch])) then s
      else s.(channels := s.channels[ch := ChannelOr(s.channels, ch).(persistent := persistent)])
    case SRoomArchive(ch, newName) =>
      if ch !in s.channels || !Accepts(s, c, ch) then s
      else s.(channels := Archived(s.channels, ch, newName))
    case _ => s
  }

  function KnownGhosts(s: Server, ns: seq<string>): set<Member> {
    set n | n in ns && n in s.remotes :: Ghost(n)
  }

  /** The local clients that get a copy of a channel message arriving over `c`. */
  function Copies(s: Server, c: Conn, line: Line): set<string> {
    if line.SMsg? && StartsWith(line.target, "#") && Accepts(s, c, line.target) && line.target in s.channels
    then LocalNicks(s.channels[line.target])
    else {}
  }

  function LocalNicks(c: Channel<Member>): set<string> {
    set m | m in c.members && m.Local? :: m.nick
  }

  // ---------------------------------------------------------------- links

  /** The link to `peer` goes up with the given trust. */
  function Connect(s: Server, peer: string, trust: string): Server {
    s.(links := s.links[peer := trust])
  }

  /** The link to `peer` is no longer registered, though nothing else of it has gone. */
  function Unregister(s: Server, peer: string): Server {
    s.(links := s.links - {peer})
  }

  function GhostsOf(s: Server, peer: string): set<Member> {
    set n | n in s.remotes && s.remotes[n] == peer :: Ghost(n)
  }

  /** The link to `peer` is gone: its ghosts leave every channel and are forgotten. */
  function Disconnect(s: Server, peer: string): Server {
    s.(links := s.links - {peer},
       remotes := map n | n in s.remotes && s.remotes[n] != peer :: s.remotes[n],
       channels := Vacate(s.channels, GhostsOf(s, peer), false))
  }

  /**
   * The burst to `peer`: every client, then the local members of every relayable channel, then
   * topics and room metadata of relayable channels; sets are listed in any order.
   */
  ghost predicate IsBurst(s: Server, peer: string, lines: seq<Line>) {
    exists j, k :: 0 <= j <= k <= |lines| &&
      IsRoster(s, lines[..j]) && IsMembership(s, peer, lines[j..k]) && IsRoomInfo(s, peer, lines[k..])
  }

  predicate IsRoomInfo(s: Server, peer: string, lines: seq<Line>) {
    forall i :: 0 <= i < |lines| ==>
      (lines[i].STopic? || lines[i].SRoomMeta?) && ShouldRelay(s, peer, lines[i].channel)
  }

  ghost predicate IsRoster(s: Server, lines: seq<Line>) {
    && (forall i :: 0 <= i < |lines| ==> lines[i].SNick? && lines[i].nick in s.clients)
    && (forall n :: n in s.clients ==> SNick(n) in lines)
  }

  ghost predicate IsMembership(s: Server, peer: string, lines: seq<Line>) {
    && (forall i :: 0 <= i < |lines| ==>
          && lines[i].SJoin? && ShouldRelay(s, peer, lines[i].channel)
          && (forall n :: n in lines[i].nicks <==> n in Announced(s, lines[i].channel)))
    && (forall ch :: ch in s.channels && ShouldRelay(s, peer, ch) && Announced(s, ch) != {} ==>
          exists i :: 0 <= i < |lines| && lines[i].SJoin? && lines[i].channel == ch)
  }

  /** The nicks a burst lists for a channel: every member that is not a ghost. */
  function Announced(s: Server, ch: string): set<string> {
    set m | m in ChannelOr(s.channels, ch).members && !m.Ghost? :: m.nick
  }

  // ---------------------------------------------------------------- local commands

  datatype Command =
    | Register(nick: string)
    | Rename(nick: string, newNick: string)
    | Join(nick: string, channel: string)
    | Part(nick: string, channel: string)
    | Quit(nick: string)
    | Vanish(nick: string)
    | Say(nick: string, channel: string, text: string, notice: bool, mentions: seq<string>)
    | Tell(nick: string, target: string, text: string, notice: bool, mentions: seq<string>)
    | Topic(nick: string, channel: string)
    | Restrict(channel: string, on: bool)
    | Share(channel: string, peer: string, on: bool)
    | Annotate(channel: string, persistent: bool)
    | ArchiveRoom(channel: string)
    | BotJoin(nick: string, channel: string)
    | BotPart(nick: string, channel: string)
    | BotSay(nick: string, channel: string, text: string, mentions: seq<string>)
    | Announce(kind: string, scope: Option<string>)

  /** A nick the NICK command accepts. */
  predicate FreeNick(s: Server, n: string) {
    && !StartsWith(n, SYSTEM_PREFIX) && StartsWith(n, s.name + "-") && |n| > |s.name| + 1 && n !in s.clients
  }

  predicate HasMember(s: Server, ch: string, m: Member) {
    ch in s.channels && m in s.channels[ch].members
  }

  /** Dashboard probes, whose joins and parts are not announced. */
  predicate PeekNick(n: string) {
    var i := IndexOf(n, '-');
    StartsWith(if i < |n| then n[i + 1..] else n, "_peek")
  }

  /** The command is not refused by its handler. The JOIN access list is left to the caller. */
  predicate Accepted(s: Server, c: Command) {
    match c
    case Register(n) => FreeNick(s, n)
    case Rename(n, n') => n in s.clients && FreeNick(s, n')
    case Join(n, ch) =>
      n in s.clients && StartsWith(ch, "#") && !ChannelOr(s.channels, ch).archived && !HasMember(s, ch, Local(n))
    case Part(n, ch) => HasMember(s, ch, Local(n))
    case Quit(n) => n in s.clients
    case Vanish(n) => n in s.clients
    case Say(n, ch, _, _, _) => StartsWith(ch, "#") && HasMember(s, ch, Local(n))
    case Tell(n, t, _, _, _) =>
      n in s.clients && !StartsWith(t, "#") && (t in s.clients || t in s.remotes || t in s.bots)
    case Topic(n, ch) => HasMember(s, ch, Local(n))
    case Restrict(ch, _) => ch in s.channels
    case Share(ch, _, _) => ch in s.channels
    case Annotate(ch, _) => ch in s.channels
    case ArchiveRoom(ch) => ch in s.channels
    case BotJoin(b, ch) => b in s.bots && !HasMember(s, ch, Bot(b))
    case BotPart(b, ch) => HasMember(s, ch, Bot(b))
    case BotSay(b, ch, _, _) => b in s.bots && ch in s.channels
    case Announce(_, _) => true
  }

  /** The name a channel would be archived under now. */
  function ArchiveNameOf(s: Server, ch: string): string { NextArchiveName(s.channels.Keys, ch) }

  function WithNick(c: Channel<Member>, old': string, new': string): Channel<Member> {
    if Local(old') in c.members then c.(members := c.members - {Local(old')} + {Local(new')}) else c
  }

  function Do(s: Server, c: Command): Server {
    if !Accepted(s, c) then s else match c
      case Register(n) => s.(clients := s.clients + {n})
      case Rename(n, n') =>
        s.(clients := s.clients - {n} + {n'},
           channels := map ch | ch in s.channels :: WithNick(s.channels[ch], n, n'))
      case Join(n, ch) => s.(channels := WithMembers(s.channels, ch, {Local(n)}))
      case Part(n, ch) => s.(channels := Leave(s.channels, ch, Local(n), true))
      case Quit(n) => s.(clients := s.clients - {n}, channels := Vacate(s.channels, {Local(n)}, true))
      case Vanish(n) => s.(clients := s.clients - {n}, channels := Vacate(s.channels, {Local(n)}, true))
      case Restrict(ch, on) => s.(channels := s.channels[ch := s.channels[ch].(restricted := on)])
      case Share(ch, peer, on) =>
        var shared := s.channels[ch].sharedWith;
        s.(channels := s.channels[ch := s.channels[ch].(sharedWith := if on then shared + {peer} else shared - {peer})])
      case Annotate(ch, persistent) => s.(channels := s.channels[ch := s.channels[ch].(persistent := persistent)])
      case ArchiveRoom(ch) => s.(channels := Archived(s.channels, ch, ArchiveNameOf(s, ch)))
      case BotJoin(b, ch) => s.(channels := WithMembers(s.channels, ch, {Bot(b)}))
      case BotPart(b, ch) => s.(channels := Leave(s.channels, ch, Bot(b), true))
      case _ => s
  }

  function If(b: bool, line: Line): (r: seq<Line>)
    ensures forall l :: l in r ==> b && l == line
  {
    if b then [line] else []
  }

  /**
   * Mention notices that cross the link to `peer`: the mentioned ghosts of that peer, in the channel if there is one.
   */
  function Mentions(s: Server, peer: string, ch: Option<string>, names: seq<string>): (r: seq<Line>)
    ensures forall l :: l in r ==> l.SMention? && l.about == ch && l.target in s.remotes && s.remotes[l.target] == peer
    ensures forall l :: l in r && ch.Some? && ch.value in s.channels ==> Ghost(l.target) in s.channels[ch.value].members
  {
    if names == [] then []
    else
      var n := names[0];
      If(n in s.remotes && s.remotes[n] == peer
        && (ch.Some? && ch.value in s.channels ==> Ghost(n) in s.channels[ch.value].members),
         SMention(n, ch))
      + Mentions(s, peer, ch, names[1..])
  }

  // ---------------------------------------------------------------- events and their relay

  /** The event an accepted command raises, which is the server's own. */
  function Raised(s: Server, c: Command): Option<Event> {
    if !Accepted(s, c) then None else match c
      case Join(n, ch) => if PeekNick(n) then None else Some(Event(Some(ch), JoinEvent(n), ""))
      case Part(n, ch) => if PeekNick(n) then None else Some(Event(Some(ch), PartEvent(n), ""))
      case Quit(n) => Some(Event(None, QuitEvent(n), ""))
      case Say(n, ch, text, notice, _) => Some(Event(Some(ch), MessageEvent("", n, text, notice), ""))
      case Tell(n, t, text, notice, _) => Some(Event(None, MessageEvent(t, n, text, notice), ""))
      case Topic(n, ch) => Some(Event(Some(ch), TopicEvent(n), ""))
      case Annotate(ch, persistent) => Some(Event(Some(ch), MetaEvent(persistent), ""))
      case ArchiveRoom(ch) => Some(Event(Some(ch), ArchiveEvent(ArchiveNameOf(s, ch)), ""))
      case BotJoin(b, ch) => Some(Event(Some(ch), JoinEvent(b), ""))
      case BotPart(b, ch) => Some(Event(Some(ch), PartEvent(b), ""))
      case BotSay(b, ch, text, _) => Some(Event(Some(ch), MessageEvent("", b, text, false), ""))
      case Announce(kind, scope) => Some(Event(scope, OtherEvent(kind), ""))
      case _ => None
  }

  /**
   * The event raised by a line over `c`: a message for a channel or a client there is, or whatever
   * an SEVENT says. Its origin is the peer, whoever it claims to be from, and none while the peer has no name.
   */
  function Echoed(s: Server, c: Conn, line: Line): Option<Event> {
    match line
    case SMsg(t, n, text, notice) =>
      if StartsWith(t, "#") then
        if Accepts(s, c, t) && t in s.channels
        then Some(Event(Some(t), MessageEvent("", n, text, false), PeerName(c))) else None
      else if !notice && (t in s.clients || t == SYSTEM_PREFIX + s.name)
      then Some(Event(None, MessageEvent("", n, text, false), PeerName(c))) else None
    case SEvent(_, e) =>
      if e.channel.Some? && !Accepts(s, c, e.channel.value) then None else Some(e.(origin := PeerName(c)))
    case _ => None
  }

  /** Whether the link to `peer` carries what is about the event's channel. */
  predicate ChannelCarried(s: Server, peer: string, e: Event) {
    e.channel.Some? && ShouldRelay(s, peer, e.channel.value)
  }

  function ChannelOf(e: Event): string { if e.channel.Some? then e.channel.value else "" }

  /** What the link to `peer` makes of an event, by its kind and the trust rules. */
  function LinkLines(s: Server, peer: string, e: Event): seq<Line> {
    match e.body
    case JoinEvent(n) => If(ChannelCarried(s, peer, e), SJoin(ChannelOf(e), [n]))
    case PartEvent(n) => If(ChannelCarried(s, peer, e), SPart(ChannelOf(e), n))
    case QuitEvent(n) => [SQuitUser(n)]
    case MessageEvent(_, n, text, notice) =>
      If(StartsWith(Target(e), "#") ==> ShouldRelay(s, peer, Target(e)), SMsg(Target(e), n, text, notice))
    case TopicEvent(n) => If(ChannelCarried(s, peer, e), STopic(ChannelOf(e), n))
    case MetaEvent(persistent) => If(ChannelCarried(s, peer, e), SRoomMeta(ChannelOf(e), persistent))
    case ArchiveEvent(new') => If(e.channel.Some? && ShouldRelay(s, peer, new'), SRoomArchive(ChannelOf(e), new'))
    case OtherEvent(_) => If(e.channel.None? || ChannelCarried(s, peer, e), SEvent(s.name, e))
  }

  /** What raising an event puts on the link to `peer`: nothing if the event came from a peer. */
  function Relay(s: Server, peer: string, e: Option<Event>): seq<Line> {
    if e.None? || Federated(e.value) || peer !in s.links then [] else LinkLines(s, peer, e.value)
  }

  /** What handling a line that came over `c` puts on the link to `peer`. */
  function Forwards(s: Server, c: Conn, line: Line, peer: string): seq<Line> {
    Relay(Receive(s, c, line), peer, Echoed(s, c, line))
  }

  /** The server as it is when the event of the command is raised: parting and quitting come after. */
  function AtEvent(s: Server, c: Command): Server {
    if c.Join? || c.BotJoin? || c.ArchiveRoom? then Do(s, c) else s
  }

  /** The lines an accepted command puts on the link to `peer`. */
  function Emits(s: Server, c: Command, peer: string): seq<Line> {
    if !Accepted(s, c) || peer !in s.links then [] else match c
      case Register(n) => [SNick(n)]
      case Say(_, ch, _, notice, names) =>
        Relay(s, peer, Raised(s, c)) + (if notice then [] else Mentions(s, peer, Some(ch), names))
      case Tell(n, t, text, notice, names) =>
        If(t !in s.clients && t in s.remotes && s.remotes[t] == peer, SMsg(t, n, text, notice))
        + Relay(s, peer, Raised(s, c))
        + (if notice then [] else Mentions(s, peer, None, names))
      case BotSay(_, ch, _, names) => Relay(s, peer, Raised(s, c)) + Mentions(s, peer, Some(ch), names)
      case _ => Relay(AtEvent(s, c), peer, Raised(s, c))
  }

  /** The other local members of the channel, who get a copy of what `n` says there. */
  function SayCopies(s: Server, n: string, ch: string): set<string> {
    if ch in s.channels then LocalNicks(s.channels[ch]) - {n} else {}
  }
}
