/**
 * Whole runs on the objects: connections, links and bots come, act and go in any order, each step does to the
 * channels what it should, and membership stays two-sided, names stay unique and every channel stays registered
 * under its name throughout.
 */
module ObjectRuns {
  import opened Text
  import opened Membership
  import A = ArchiveNames
  import R = Rooms
  import S = Servers

  /**
   * What can happen to a server. Connections, links and bots are numbered in the order of their coming; a
   * connection registers once both its nick and its user are known.
   */
  datatype Step =
    | Connects
    | TakesNick(conn: nat, nick: string)
    | Registers(conn: nat)
    | Joins(conn: nat, channel: string, admitted: bool)
    | Parts(conn: nat, channel: string)
    | SetsModes(conn: nat, channel: string, modestring: string, params: seq<string>)
    | Closes(conn: nat)
    | Opens(peer: Option<string>, restricted: bool)
    | Handshakes(link: nat, passwordFits: bool)
    | Hears(link: nat, line: S.Line)
    | Hangs(link: nat)
    | ArchivesRoom(channel: string, permitted: bool)
    | StartsBot(nick: string, configured: seq<string>)
    | BotJoins(bot: nat, channel: string)
    | BotParts(bot: nat, channel: string)

  /** Steps by which no ghost comes, no room is archived and no bot parts. */
  predicate LocalStep(step: Step) {
    !step.Handshakes? && !step.Hears? && !step.Hangs? && !step.ArchivesRoom? && !step.BotParts?
  }

  class Host {
    const server: IRCd
    /** Connections; null once closed. */
    var conns: seq<Client?>
    /** Links, registered or not, open or closed. */
    var links: seq<Link>
    var bots: seq<Client>
    ghost var owned: set<object>

    ghost predicate Valid()
      reads this, server, server.live, server.rooms
    {
      && server.Valid() && server.BotsAgree()
      && (forall i :: 0 <= i < |conns| && conns[i] != null ==> conns[i] in server.live && conns[i].kind == Local)
      && (forall i, j :: 0 <= i < j < |conns| && conns[i] != null ==> conns[i] != conns[j])
      && (forall i :: 0 <= i < |bots| ==> bots[i] in server.live && bots[i].kind == Bot)
      && server.live <= owned && server.rooms <= owned && this !in owned && server !in owned
    }

    lemma Holds()
      ensures Valid() <==>
        && server.Valid() && server.BotsAgree()
        && (forall i :: 0 <= i < |conns| && conns[i] != null ==> conns[i] in server.live && conns[i].kind == Local)
        && (forall i, j :: 0 <= i < j < |conns| && conns[i] != null ==> conns[i] != conns[j])
        && (forall i :: 0 <= i < |bots| ==> bots[i] in server.live && bots[i].kind == Bot)
        && server.live <= owned && server.rooms <= owned && this !in owned && server !in owned
    {
    }

    constructor (name: string)
      ensures Valid() && fresh(owned) && fresh(server) && server.LocalRun()
    {
      hide IRCd.Valid, IRCd.BotsAgree, IRCd.LocalRun, IRCd.Flat;
      server := new IRCd(name);
      conns, links, bots, owned := [], [], [], {};
      new;
      var b := server.BootstrapSystem();
      owned := {b} + server.rooms;
    }

    /** What the server has come to hold is owned. */
    ghost method Own()
      modifies `owned
      ensures owned == old(owned) + server.live + server.rooms
    {
      owned := owned + server.live + server.rooms;
    }

    // -------------------------------------------------------------- what a step does to the channels

    /** The connection of that number, if there was one and it is still open. */
    function Conn(i: nat): Client?
      reads this
    {
      if i < |conns| then conns[i] else null
    }

    /** The channels after the loss of a link. */
    ghost function Left(link: Link): map<string, R.Channel<Client>>
      reads server, server.channels.Values, server.live
    {
      R.Vacate(server.Flat(), server.Over(link), false)
    }

    /** The channels after a line over a link. */
    ghost function Heard(link: Link, line: S.Line): map<string, R.Channel<Client>>
      reads server, server.channels.Values
    {
      var flat := server.Flat();
      match line
      case SJoin(ch, nicks) =>
        if server.Trusts(link, ch) then R.WithMembers(flat, ch, server.Known(nicks)) else flat
      case SPart(ch, nick) =>
        if nick in server.remoteClients && ch in server.channels && server.Trusts(link, ch)
        then R.Leave(flat, ch, server.remoteClients[nick], false) else flat
      case SQuitUser(nick) => R.Vacate(flat, server.Entry(nick), false)
      case SRoomMeta(ch, persistent) =>
        if ch in server.channels && !server.Heeds(link, server.channels[ch]) then flat
        else flat[ch := R.ChannelOr(flat, ch).(persistent := persistent)]
      case SRoomArchive(ch, newName) =>
        if ch in server.channels && server.Trusts(link, ch) then R.Archived(flat, ch, newName) else flat
      case _ => flat
    }

    /** The channels after a step other than the start of a bot (`BotStarted`) and MODE (`SameMembers`). */
    ghost function FlatAfter(step: Step): map<string, R.Channel<Client>>
      requires Valid()
      reads this, server, server.live, server.rooms
    {
      var flat := server.Flat();
      match step
      case Joins(i, ch, admitted) =>
        var c := Conn(i);
        if c != null && server.Enters(c, ch, admitted) then R.WithMembers(flat, ch, {c}) else flat
      case Parts(i, ch) =>
        var c := Conn(i);
        if c != null && ch in server.channels && c in server.channels[ch].members then R.Leave(flat, ch, c, true)
        else flat
      case Closes(i) =>
        var c := Conn(i);
        if c != null then R.Vacate(flat, {c}, true) else flat
      case Handshakes(i, passwordFits) =>
        if i < |links| && !(passwordFits && links[i].peerName !in server.links && links[i].peerName != server.name)
        then Left(links[i]) else flat
      case Hears(i, line) => if i < |links| then Heard(links[i], line) else flat
      case Hangs(i) => if i < |links| then Left(links[i]) else flat
      case ArchivesRoom(ch, permitted) =>
        if permitted && ch in server.channels
        then R.Archived(flat, ch, A.NextArchiveName(server.channels.Keys, ch)) else flat
      case BotJoins(i, ch) => if i < |bots| then R.WithMembers(flat, ch, {bots[i]}) else flat
      case BotParts(i, ch) =>
        if i < |bots| && ch in server.channels && bots[i] in server.channels[ch].members
        then R.Leave(flat, ch, bots[i], true) else flat
      case _ => flat
    }

    /** A bot may take the name. */
    predicate NameFree(nick: string)
      reads server
    {
      nick !in server.clients && nick !in server.remoteClients && nick !in server.bots
    }

    /** Unless its name was taken a bot was started, and it joined its channels. */
    twostate predicate BotStarted(nick: string, configured: seq<string>)
      reads this, bots, server, server.channels.Values
    {
      if old(NameFree(nick))
      then
        && bots != [] && bots == old(bots) + [bots[|bots| - 1]] && bots[|bots| - 1].nick == nick
        && server.Flat() == R.JoinAll(old(server.Flat()), configured, bots[|bots| - 1])
      else bots == old(bots) && server.Flat() == old(server.Flat())
    }

    /** The same users on the same channels. */
    twostate predicate SameMembers()
      reads server, server.channels.Values
    {
      && server.channels == old(server.channels)
      && forall n :: n in server.channels ==> server.channels[n].members == old(server.channels[n].members)
    }

    // -------------------------------------------------------------- connections

    method Connect()
      requires Valid()
      modifies this, server
      ensures Valid() && fresh(owned - old(owned)) && (old(server.LocalRun()) ==> server.LocalRun())
      ensures server.Flat() == old(FlatAfter(Connects))
    {
      hide IRCd.Valid, IRCd.BotsAgree, IRCd.LocalRun;
      var c := server.Accept();
      conns := conns + [c];
      Own();
    }

    method TakeNick(i: nat, nick: string)
      requires Valid()
      modifies this, server, owned
      ensures Valid() && owned == old(owned) && (old(server.LocalRun()) ==> server.LocalRun())
      ensures server.Flat() == old(FlatAfter(TakesNick(i, nick)))
    {
      hide IRCd.Valid, IRCd.BotsAgree, IRCd.LocalRun, IRCd.LegalNick;
      var c := Conn(i);
      if c != null {
        var _ := server.HandleNick(c, nick);
      }
    }

    /** Whatever a handler touches belongs to what the server holds. */
    lemma Reach(c: Client, chName: string)
      requires server.Valid() && c in server.live
      ensures server.RoomsOf(chName) <= server.rooms && c.channels <= server.rooms
    {
    }

    lemma RoomsReached(chName: string)
      requires server.Valid()
      ensures server.RoomsOf(chName) <= server.rooms
    {
    }

    lemma GhostsReached(nick: string, nicks: seq<string>, link: Link)
      requires server.Valid()
      ensures server.Entry(nick) <= server.live && server.Known(nicks) <= server.live
        && server.Over(link) <= server.live
      ensures forall c :: c in server.Entry(nick) || c in server.Over(link) ==> c.kind == Ghost
    {
    }

    method Register(i: nat)
      requires Valid()
      modifies this, server, owned
      ensures Valid() && fresh(owned - old(owned)) && (old(server.LocalRun()) ==> server.LocalRun())
      ensures server.Flat() == old(FlatAfter(Registers(i)))
    {
      hide IRCd.Valid, IRCd.BotsAgree, IRCd.LocalRun, IRCd.Flat;
      var c := Conn(i);
      if c != null && c.nick != "" {
        c.registered := true;
      }
    }

    method Join(i: nat, chName: string, admitted: bool)
      requires Valid()
      modifies this, server, owned
      ensures Valid() && fresh(owned - old(owned)) && (old(server.LocalRun()) ==> server.LocalRun())
      ensures server.Flat() == old(FlatAfter(Joins(i, chName, admitted)))
    {
      hide IRCd.Valid, IRCd.BotsAgree, IRCd.LocalRun, IRCd.Flat, IRCd.Enters, IRCd.RoomsOf;
      var c := Conn(i);
      if c != null {
        Reach(c, chName);
        server.HandleJoin(c, chName, admitted);
        Own();
      }
    }

    method Part(i: nat, chName: string)
      requires Valid()
      modifies this, server, owned
      ensures Valid() && fresh(owned - old(owned)) && (old(server.LocalRun()) ==> server.LocalRun())
      ensures server.Flat() == old(FlatAfter(Parts(i, chName)))
    {
      hide IRCd.Valid, IRCd.BotsAgree, IRCd.LocalRun, IRCd.Flat, Channel.Succeeds, IRCd.RoomsOf;
      var c := Conn(i);
      if c != null {
        Reach(c, chName);
        var _ := server.HandlePart(c, chName);
        Own();
      }
    }

    method SetModes(i: nat, chName: string, modestring: string, params: seq<string>)
      requires Valid()
      modifies this, server, owned
      ensures Valid() && fresh(owned - old(owned)) && (old(server.LocalRun()) ==> server.LocalRun())
      ensures SameMembers()
    {
      hide IRCd.Valid, IRCd.BotsAgree, IRCd.LocalRun, IRCd.Flat, Channel.Executed, IRCd.RoomsOf, IRCd.Present;
      var c := Conn(i);
      if c != null {
        Reach(c, chName);
        var _, _ := server.HandleChannelMode(c, chName, modestring, params);
      }
    }

    method Close(i: nat)
      requires Valid()
      modifies this, server, owned
      ensures Valid() && fresh(owned - old(owned)) && (old(server.LocalRun()) ==> server.LocalRun())
      ensures server.Flat() == old(FlatAfter(Closes(i)))
    {
      hide IRCd.Valid, IRCd.BotsAgree, IRCd.LocalRun, IRCd.Flat, Channel.Succeeds, IRCd.RoomsOf;
      var c := Conn(i);
      if c != null {
        Reach(c, "");
        server.RemoveClient(c);
        conns := conns[i := null];
        Own();
      }
    }

    // -------------------------------------------------------------- links

    method Open(peer: Option<string>, restricted: bool)
      requires Valid()
      modifies this
      ensures Valid() && owned == old(owned) && (old(server.LocalRun()) ==> server.LocalRun())
      ensures server.Flat() == old(FlatAfter(Opens(peer, restricted)))
    {
      hide IRCd.Valid, IRCd.BotsAgree, IRCd.LocalRun;
      var link: Link;
      if peer.Some? {
        link := new Link(peer.value, restricted);
      } else {
        link := new Link.Nameless(restricted);
      }
      links := links + [link];
    }

    lemma LeftIs(link: Link)
      ensures Left(link) == R.Vacate(server.Flat(), server.Over(link), false)
    {
    }

    method CloseLink(link: Link)
      requires Valid()
      modifies this, server, owned
      ensures Valid() && fresh(owned - old(owned))
      ensures server.Flat() == old(Left(link))
    {
      hide *;
      Holds();
      LeftIs(link);
      GhostsReached("", [], link);
      server.RemoveLink(link);
      Own();
      Holds();
    }

    /** A refused handshake closes the connection. */
    method Handshake(i: nat, passwordFits: bool)
      requires Valid()
      modifies this, server, owned
      ensures Valid() && fresh(owned - old(owned))
      ensures server.Flat() == old(FlatAfter(Handshakes(i, passwordFits)))
    {
      if i < |links| {
        var ok := server.CompleteHandshake(links[i], passwordFits);
        if !ok {
          CloseLink(links[i]);
        }
      }
    }

    /** The line would archive a channel under a name an occupied one has. */
    predicate Displaces(step: Step)
      reads this, server, server.channels.Values
    {
      && step.Hears? && step.link < |links| && step.line.SRoomArchive?
      && step.line.channel in server.channels && server.Trusts(links[step.link], step.line.channel)
      && !server.ArchiveNameFree(step.line.channel, step.line.newName)
    }

    method HearNick(link: Link, nick: string)
      requires Valid()
      modifies this, server, owned
      ensures Valid() && fresh(owned - old(owned))
      ensures server.Flat() == old(Heard(link, S.SNick(nick)))
    {
      hide IRCd.Valid, IRCd.BotsAgree, IRCd.LocalRun, IRCd.Flat, LinksOk, IsRegistered;
      server.HandleSnick(link, nick);
      Own();
    }

    lemma HeardJoin(link: Link, chName: string, nicks: seq<string>)
      ensures Heard(link, S.SJoin(chName, nicks)) ==
        if server.Trusts(link, chName) then R.WithMembers(server.Flat(), chName, server.Known(nicks))
        else server.Flat()
    {
    }

    method HearJoin(link: Link, chName: string, nicks: seq<string>)
      requires Valid()
      modifies this, server, owned
      ensures Valid() && fresh(owned - old(owned))
      ensures server.Flat() == old(Heard(link, S.SJoin(chName, nicks)))
    {
      hide *;
      Holds();
      HeardJoin(link, chName, nicks);
      RoomsReached(chName);
      GhostsReached("", nicks, link);
      server.HandleSjoin(link, chName, nicks);
      Own();
      Holds();
    }

    lemma HeardPart(link: Link, chName: string, nick: string)
      ensures Heard(link, S.SPart(chName, nick)) ==
        if nick in server.remoteClients && chName in server.channels && server.Trusts(link, chName)
        then server.FlatAt(chName); R.Leave(server.Flat(), chName, server.remoteClients[nick], false)
        else server.Flat()
    {
    }

    method HearPart(link: Link, chName: string, nick: string)
      requires Valid()
      modifies this, server, owned
      ensures Valid() && fresh(owned - old(owned))
      ensures server.Flat() == old(Heard(link, S.SPart(chName, nick)))
    {
      hide *;
      Holds();
      HeardPart(link, chName, nick);
      RoomsReached(chName);
      GhostsReached(nick, [], link);
      server.HandleSpart(link, chName, nick);
      Own();
      Holds();
    }

    lemma HeardQuit(link: Link, nick: string)
      ensures Heard(link, S.SQuitUser(nick)) == R.Vacate(server.Flat(), server.Entry(nick), false)
    {
    }

    method HearQuit(link: Link, nick: string)
      requires Valid()
      modifies this, server, owned
      ensures Valid() && fresh(owned - old(owned))
      ensures server.Flat() == old(Heard(link, S.SQuitUser(nick)))
    {
      hide *;
      Holds();
      HeardQuit(link, nick);
      GhostsReached(nick, [], link);
      server.HandleSquituser(nick);
      Own();
      Holds();
    }

    lemma HeardMeta(link: Link, chName: string, persistent: bool)
      ensures Heard(link, S.SRoomMeta(chName, persistent)) ==
        if chName in server.channels && !server.Heeds(link, server.channels[chName]) then server.Flat()
        else server.Flat()[chName := R.ChannelOr(server.Flat(), chName).(persistent := persistent)]
    {
    }

    method HearMeta(link: Link, chName: string, persistent: bool)
      requires Valid()
      modifies this, server, owned
      ensures Valid() && fresh(owned - old(owned))
      ensures server.Flat() == old(Heard(link, S.SRoomMeta(chName, persistent)))
    {
      hide *;
      Holds();
      HeardMeta(link, chName, persistent);
      RoomsReached(chName);
      server.HandleSroommeta(link, chName, persistent);
      Own();
      Holds();
    }

    lemma HeardArchive(link: Link, chName: string, newName: string)
      ensures Heard(link, S.SRoomArchive(chName, newName)) ==
        if chName in server.channels && server.Trusts(link, chName)
        then server.FlatAt(chName); R.Archived(server.Flat(), chName, newName)
        else server.Flat()
    {
    }

    method HearArchive(link: Link, chName: string, newName: string)
      requires Valid()
      requires chName in server.channels && server.Trusts(link, chName) ==> server.ArchiveNameFree(chName, newName)
      modifies this, server, owned
      ensures Valid() && fresh(owned - old(owned))
      ensures server.Flat() == old(Heard(link, S.SRoomArchive(chName, newName)))
    {
      hide *;
      Holds();
      HeardArchive(link, chName, newName);
      RoomsReached(chName);
      server.HandleSroomarchive(link, chName, newName);
      Own();
      Holds();
    }

    /** A line that came over a link, whether or not the link is registered. */
    method Hear(i: nat, line: S.Line)
      requires Valid() && !Displaces(Hears(i, line))
      modifies this, server, owned
      ensures Valid() && fresh(owned - old(owned))
      ensures server.Flat() == old(FlatAfter(Hears(i, line)))
    {
      if i < |links| {
        match line
        case SNick(nick) => HearNick(links[i], nick);
        case SJoin(chName, nicks) => HearJoin(links[i], chName, nicks);
        case SPart(chName, nick) => HearPart(links[i], chName, nick);
        case SQuitUser(nick) => HearQuit(links[i], nick);
        case SRoomMeta(chName, persistent) => HearMeta(links[i], chName, persistent);
        case SRoomArchive(chName, newName) => HearArchive(links[i], chName, newName);
        case _ =>
      }
    }

    // -------------------------------------------------------------- rooms and bots

    lemma ArchivesAfter(chName: string, permitted: bool)
      requires Valid()
      ensures FlatAfter(ArchivesRoom(chName, permitted)) ==
        if permitted && chName in server.channels
        then server.FlatAt(chName); R.Archived(server.Flat(), chName, A.NextArchiveName(server.channels.Keys, chName))
        else server.Flat()
    {
    }

    method ArchiveRoom(chName: string, permitted: bool)
      requires Valid()
      modifies this, server, owned
      ensures Valid() && fresh(owned - old(owned))
      ensures server.Flat() == old(FlatAfter(ArchivesRoom(chName, permitted)))
    {
      hide *;
      Holds();
      ArchivesAfter(chName, permitted);
      RoomsReached(chName);
      var _ := server.HandleRoomarchive(chName, permitted);
      Own();
      Holds();
    }

    method StartBot(nick: string, configured: seq<string>)
      requires Valid()
      modifies this, server, owned
      ensures Valid() && fresh(owned - old(owned)) && (old(server.LocalRun()) ==> server.LocalRun())
      ensures BotStarted(nick, configured)
    {
      hide IRCd.Valid, IRCd.BotsAgree, IRCd.LocalRun, IRCd.Flat, Valid, R.JoinAll;
      Holds();
      var b := server.StartBot(nick, configured);
      if b != null {
        bots := bots + [b];
      }
      Own();
      Holds();
    }

    method BotJoin(i: nat, chName: string)
      requires Valid()
      modifies this, server, owned
      ensures Valid() && fresh(owned - old(owned)) && (old(server.LocalRun()) ==> server.LocalRun())
      ensures server.Flat() == old(FlatAfter(BotJoins(i, chName)))
    {
      hide IRCd.Valid, IRCd.BotsAgree, IRCd.LocalRun, IRCd.Flat, IRCd.RoomsOf;
      if i < |bots| {
        RoomsReached(chName);
        server.JoinChannel(bots[i], chName);
        Own();
      }
    }

    method BotPart(i: nat, chName: string)
      requires Valid()
      modifies this, server, owned
      ensures Valid() && fresh(owned - old(owned))
      ensures server.Flat() == old(FlatAfter(BotParts(i, chName)))
    {
      hide IRCd.Valid, IRCd.BotsAgree, IRCd.LocalRun, IRCd.Flat, IRCd.RoomsOf, Channel.CanSpare;
      if i < |bots| {
        RoomsReached(chName);
        server.PartChannel(bots[i], chName);
        Own();
      }
    }

    // -------------------------------------------------------------- runs

    /** A step keeps everything consistent and does to the channels what `FlatAfter` says of the state before. */
    method Perform(step: Step)
      requires Valid() && !Displaces(step)
      modifies this, server, owned
      ensures Valid() && fresh(owned - old(owned))
      ensures LocalStep(step) && old(server.LocalRun()) ==> server.LocalRun()
      ensures !step.SetsModes? && !step.StartsBot? ==> server.Flat() == old(FlatAfter(step))
      ensures step.SetsModes? ==> SameMembers()
      ensures step.StartsBot? ==> BotStarted(step.nick, step.configured)
    {
      hide Valid;
      match step
      case Connects => Connect();
      case TakesNick(i, nick) => TakeNick(i, nick);
      case Registers(i) => Register(i);
      case Joins(i, chName, admitted) => Join(i, chName, admitted);
      case Parts(i, chName) => Part(i, chName);
      case SetsModes(i, chName, modestring, params) => SetModes(i, chName, modestring, params);
      case Closes(i) => Close(i);
      case Opens(peer, restricted) => Open(peer, restricted);
      case Handshakes(i, passwordFits) => Handshake(i, passwordFits);
      case Hears(i, line) => Hear(i, line);
      case Hangs(i) => if i < |links| { CloseLink(links[i]); }
      case ArchivesRoom(chName, permitted) => ArchiveRoom(chName, permitted);
      case StartsBot(nick, configured) => StartBot(nick, configured);
      case BotJoins(i, chName) => BotJoin(i, chName);
      case BotParts(i, chName) => BotPart(i, chName);
    }

    /**
     * Any steps in any order, up to the first that would archive a channel under the name of an occupied one:
     * membership is two-sided, names are unique and channels registered all along; and if no ghost came, no
     * room was archived and no bot parted, then every channel with local members has an operator, operators
     * and voiced users are members, and no channel is empty but the persistent ones.
     */
    method Run(steps: seq<Step>) returns (done: nat)
      requires Valid()
      modifies this, server, owned
      ensures Valid() && fresh(owned - old(owned))
      ensures done <= |steps| && (done < |steps| ==> Displaces(steps[done]))
      ensures old(server.LocalRun()) && (forall k :: 0 <= k < done ==> LocalStep(steps[k])) ==> server.LocalRun()
    {
      hide Valid, LocalStep, Displaces;
      done := 0;
      while done < |steps| && !Displaces(steps[done])
        invariant Valid() && fresh(owned - old(owned)) && done <= |steps|
        invariant old(server.LocalRun()) && (forall k :: 0 <= k < done ==> LocalStep(steps[k])) ==> server.LocalRun()
      {
        Perform(steps[done]);
        done := done + 1;
      }
    }
  }
}
