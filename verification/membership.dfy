/**
 * The server's objects as they are updated in place: clients, channels and the maps that register
 * them. Membership is kept on both sides, in the channel and in the client.
 */
module Membership {
  import opened Text
  import opened Names
  import opened ChannelModes
  import R = Rooms
  import A = ArchiveNames

  /** A connection, a server-side bot, or the ghost of a client of a peer. */
  datatype Kind = Local | Bot | Ghost

  /** A link to a peer; a link of restricted trust carries only channels shared explicitly. */
  class Link {
    /** Empty while the peer has not given its name. */
    const peerName: string
    const named: bool
    const restricted: bool

    constructor (peerName: string, restricted: bool)
      ensures this.peerName == peerName && named && this.restricted == restricted
    {
      this.peerName, this.named, this.restricted := peerName, true, restricted;
    }

    constructor Nameless(restricted: bool)
      ensures peerName == "" && !named && this.restricted == restricted
    {
      this.peerName, this.named, this.restricted := "", false, restricted;
    }

    function Name(): Option<string> { if named || peerName != "" then Some(peerName) else None }

    /** What the nicks announced over the link begin with; the text of no name is "None". */
    function NickPrefix(): string { (if Name().Some? then peerName else "None") + "-" }
  }

  class Client {
    const kind: Kind
    /** The link a ghost came over. */
    const link: Link?
    var nick: string
    var registered: bool
    var channels: set<Channel>

    constructor (kind: Kind, nick: string, link: Link?)
      ensures this.kind == kind && this.nick == nick && this.link == link && !registered && channels == {}
    {
      this.kind, this.nick, this.link, registered, channels := kind, nick, link, false, {};
    }
  }

  class Channel {
    var name: string
    var members: set<Client>
    var operators: set<Client>
    var voiced: set<Client>
    var restricted: bool
    var sharedWith: set<string>
    var persistent: bool
    var archived: bool

    constructor (name: string)
      ensures this.name == name && members == operators == voiced == {} && !persistent && !archived
      ensures !restricted && sharedWith == {}
    {
      this.name, members, operators, voiced := name, {}, {}, {};
      restricted, sharedWith, persistent, archived := false, {}, false, false;
    }

    /** The channel as a value. */
    function Value(): R.Channel<Client>
      reads `members, `restricted, `sharedWith, `persistent, `archived
    {
      R.Channel(members, restricted, sharedWith, persistent, archived)
    }

    function LocalMembers(): set<Client>
      reads this
    {
      set m | m in members && m.kind == Local
    }

    /** Operators and voiced users are members, and someone local means someone in charge. */
    ghost predicate Governed()
      reads this
    {
      operators <= members && voiced <= members && (LocalMembers() != {} ==> operators != {})
    }

    ghost predicate LocallyGoverned()
      reads this
    {
      Governed() && forall m :: m in members ==> m.kind != Ghost
    }

    function Flags(): Modes<Client>
      reads this
    {
      Modes(operators, voiced, restricted, sharedWith)
    }

    /** The mode-character loop. */
    method ApplyModeString(present: map<string, Client>, modestring: string, params: seq<string>)
      returns (applied: string, appliedParams: seq<string>)
      modifies this`operators, this`voiced, this`restricted, this`sharedWith
      ensures var r := ApplyModes(present, Start(old(Flags()), params), modestring);
              Flags() == r.modes && applied == r.applied && appliedParams == r.params
    {
      var adding, queue := true, params;
      applied, appliedParams := "", [];
      for i := 0 to |modestring|
        invariant ApplyModes(present, ModeRun(adding, queue, Flags(), applied, appliedParams), modestring[i..])
               == ApplyModes(present, Start(old(Flags()), params), modestring)
      {
        var ch := modestring[i];
        ghost var run := ModeRun(adding, queue, Flags(), applied, appliedParams);
        assert modestring[i..][1..] == modestring[i + 1..];
        if ch == '+' {
          adding := true;
        } else if ch == '-' {
          adding := false;
        } else if ch == 'R' {
          restricted := adding;
          applied := applied + [Sign(adding), ch];
        } else if TakesParam(ch) && queue != [] {
          var param := queue[0];
          queue := queue[1..];
          if ch == 'S' {
            sharedWith := Toggle(sharedWith, param, adding);
          } else if param in present {
            if ch == 'o' {
              operators := Toggle(operators, present[param], adding);
            } else {
              voiced := Toggle(voiced, present[param], adding);
            }
          }
          if ch == 'S' || param in present {
            applied, appliedParams := applied + [Sign(adding), ch], appliedParams + [param];
          }
        }
        assert ModeRun(adding, queue, Flags(), applied, appliedParams) == ApplyChar(present, run, ch);
      }
    }

    /**
     * What is left by a run `r` of the mode characters: its flags, but when no operator is left the
     * member whose nick sorts first is made one. This is not announced.
     */
    ghost predicate Executed(r: ModeRun<Client>, applied: string, appliedParams: seq<string>)
      reads this, members
    {
      && applied == r.applied && appliedParams == r.params
      && Flags() == r.modes.(operators := operators)
      && if r.modes.operators == {} && members != {}
         then exists p :: p in members && FirstByNick(p, members) && operators == {p}
         else operators == r.modes.operators
    }

    /** The mode characters are applied, then an operator is made if none is left. */
    method ExecuteMode(present: map<string, Client>, modestring: string, params: seq<string>)
      returns (applied: string, appliedParams: seq<string>)
      requires forall n :: n in present ==> present[n] in members
      modifies this`operators, this`voiced, this`restricted, this`sharedWith
      ensures Executed(ApplyModes(present, Start(old(Flags()), params), modestring), applied, appliedParams)
      ensures old(LocallyGoverned()) ==> LocallyGoverned()
    {
      if LocallyGoverned() {
        ModesStayWithin(present, Start(Flags(), params), modestring, members);
      }
      applied, appliedParams := ApplyModeString(present, modestring, params);
      if operators == {} && members != {} {
        var p := MinByNick(members);
        operators := operators + {p};
      }
    }

    /** Only the first local joiner becomes operator. */
    method Add(c: Client)
      modifies this`members, this`operators
      ensures members == old(members) + {c}
      ensures operators == if old(LocalMembers()) == {} && c.kind != Ghost then old(operators) + {c} else old(operators)
      ensures old(Governed()) ==> Governed()
    {
      if LocalMembers() == {} {
        if c.kind != Ghost {
          operators := operators + {c};
        }
      }
      members := members + {c};
      assert LocalMembers() - {c} == old(LocalMembers()) - {c};
    }

    /** The removal of a ghost does not look at the operators; that of a client hands on the last one's place. */
    ghost predicate OperatorsAfter(was: set<Client>, c: Client)
      reads this, members
    {
      if c.kind == Ghost then operators == was else Succeeds(was, c)
    }

    /** The last operator's place goes to the local member whose nick sorts first. */
    ghost predicate Succeeds(was: set<Client>, c: Client)
      reads this, members
    {
      if was == {c} && LocalMembers() != {}
      then exists p :: p in LocalMembers() && FirstByNick(p, LocalMembers()) && operators == {p}
      else operators == was - {c}
    }

    /** Without `b` nobody is left in charge of nobody, and no status is left behind. */
    ghost predicate CanSpare(b: Client)
      reads this
    {
      b !in voiced && (operators == {b} ==> LocalMembers() <= {b})
    }

    method Remove(c: Client)
      modifies this`members, this`operators, this`voiced
      ensures members == old(members) - {c} && voiced == old(voiced) - {c}
      ensures Succeeds(old(operators), c)
      ensures old(Governed()) ==> Governed()
    {
      members := members - {c};
      var wasOp := c in operators;
      operators := operators - {c};
      voiced := voiced - {c};
      if wasOp && operators == {} {
        var locals := LocalMembers();
        if locals != {} {
          var p := MinByNick(locals);
          operators := operators + {p};
        }
      }
      assert old(Governed()) && operators == {} ==> LocalMembers() == {} by {
        assert LocalMembers() <= old(LocalMembers());
      }
    }
  }

  ghost predicate FirstByNick(p: Client, s: set<Client>)
    reads p, s
  {
    p in s && forall q :: q in s ==> !Less(q.nick, p.nick)
  }

  lemma MinusOne<T>(all: set<T>, doomed: set<T>, todo: set<T>, x: T)
    requires x in todo
    ensures all - (doomed - (todo - {x})) == all - (doomed - todo) - (if x in doomed then {x} else {})
  {
  }

  lemma MoveOne<T>(s: set<T>, all: set<T>, done: set<T>, todo: set<T>, x: T)
    requires done + todo == all && x in todo
    ensures (done + {x}) + (todo - {x}) == all
    ensures s - done - {x} == s - (done + {x})
  {
  }

  method MinByNick(s: set<Client>) returns (p: Client)
    requires s != {}
    ensures FirstByNick(p, s)
  {
    p :| p in s;
    var todo := s - {p};
    LessTotal(p.nick, p.nick);
    while todo != {}
      invariant p in s && todo <= s && forall q :: q in s - todo ==> !Less(q.nick, p.nick)
      decreases |todo|
    {
      var q :| q in todo;
      if Less(q.nick, p.nick) {
        forall r | r in s - todo ensures !Less(r.nick, q.nick) {
          LessChain(r.nick, q.nick, p.nick);
        }
        LessTotal(q.nick, q.nick);
        p := q;
      }
      todo := todo - {q};
    }
  }

  lemma LessChain(a: string, b: string, c: string)
    requires !Less(a, c) && Less(b, c)
    ensures !Less(a, b)
  {
    if Less(a, b) { LessTransitive(a, b, c); }
  }

  /** The nick of a server's own user. */
  function SystemNick(server: string): string { "system-" + server }

  lemma SystemNickIs(server: string)
    ensures SystemNick(server) != "" && StartsWith(SystemNick(server), "system-")
  {
  }

  // ---------------------------------------------------------------- links and the ghosts that came over them

  /** Links are registered under their peers' names, and every ghost came over a registered link. */
  ghost predicate LinksOk(live: set<Client>, links: map<string, Link>) {
    && (forall p :: p in links ==> p != "" && links[p].peerName == p)
    && (forall c :: c in live && c.kind == Ghost ==>
          c.link != null && c.link.peerName in links && links[c.link.peerName] == c.link)
  }

  /** The links after `link` has closed: whatever is registered under the name of its peer goes. */
  function LinksWithout(links: map<string, Link>, link: Link): map<string, Link> {
    if link.peerName != "" && link.peerName in links then links - {link.peerName} else links
  }

  predicate IsRegistered(links: map<string, Link>, link: Link) {
    link.peerName in links && links[link.peerName] == link
  }

  /** A new ghost has a registered link exactly if it came over one. */
  lemma OneMoreGhost(live: set<Client>, links: map<string, Link>, rc: Client, link: Link)
    requires LinksOk(live, links) && rc !in live && rc.kind == Ghost && rc.link == link
    ensures LinksOk(live + {rc}, links) <==> IsRegistered(links, link)
  {
  }

  function GhostsOver(live: set<Client>, link: Link): set<Client> {
    set c | c in live && c.kind == Ghost && c.link == link
  }

  /** Closing `link` takes no other link's registration, or only that of one without ghosts. */
  predicate Dispensable(live: set<Client>, links: map<string, Link>, link: Link) {
    link.peerName in links && links[link.peerName] != link ==> GhostsOver(live, links[link.peerName]) == {}
  }

  lemma ClosedExact(live: set<Client>, links: map<string, Link>, link: Link)
    requires LinksOk(live, links)
    ensures LinksOk(live - GhostsOver(live, link), LinksWithout(links, link)) <==> Dispensable(live, links, link)
  {
    var live', links' := live - GhostsOver(live, link), LinksWithout(links, link);
    if !Dispensable(live, links, link) {
      var c :| c in GhostsOver(live, links[link.peerName]);
      assert c in live' && c.link.peerName !in links';
    } else {
      assert forall c :: c in live && c.kind == Ghost ==>
        (c in GhostsOver(live, c.link) && links[c.link.peerName] == c.link);
    }
  }

  // ---------------------------------------------------------------- the server

  class IRCd {
    const name: string
    var clients: map<string, Client>
    var remoteClients: map<string, Client>
    var channels: map<string, Channel>
    /** The running bots; the server's own user is among the clients. */
    var bots: map<string, Client>
    var links: map<string, Link>
    /** Every client with a connection, every running bot, every ghost. */
    ghost var live: set<Client>
    /** Every channel object that is registered. */
    ghost var rooms: set<Channel>

    ghost predicate Valid()
      reads `clients, `remoteClients, `channels, `live, `rooms
      reads live`nick, live`channels, rooms`name, rooms`members
    {
      RoomsNamed() && NicksAgree() && TwoSided()
    }

    lemma ValidIs()
      ensures Valid() <==> RoomsNamed() && NicksAgree() && TwoSided()
    {
    }

    /** A registered channel object is the one its name leads to. */
    ghost predicate RoomsNamed()
      reads `channels, `rooms, rooms`name
    {
      && (forall n :: n in channels ==> channels[n] in rooms && channels[n].name == n)
      && (forall ch :: ch in rooms ==> ch.name in channels && channels[ch.name] == ch)
    }

    /** The client maps and the clients' own nicks agree, both ways. */
    ghost predicate NicksAgree()
      reads `clients, `remoteClients, `live, live`nick
    {
      && (forall n :: n in clients ==>
        clients[n] in live && clients[n].nick == n && clients[n].kind != Ghost && n != "")
      && (forall n :: n in remoteClients ==>
        remoteClients[n] in live && remoteClients[n].nick == n && remoteClients[n].kind == Ghost)
      && (forall c :: c in live && c.kind == Local && c.nick != "" ==> c.nick in clients && clients[c.nick] == c)
      && (forall c :: c in live && c.kind == Ghost ==> c.nick in remoteClients && remoteClients[c.nick] == c)
    }

    /** So do the running bots and their names; the server's own user has a name apart from theirs. */
    ghost predicate BotsAgree()
      reads `bots, `clients, `live, live`nick
    {
      && (forall n :: n in bots ==> bots[n] in live && bots[n].nick == n && bots[n].kind == Bot)
      && (forall b :: b in live && b.kind == Bot ==>
            (b.nick in bots && bots[b.nick] == b) || (b.nick in clients && clients[b.nick] == b))
      && (forall n :: n in bots && n in clients ==> clients[n].kind == Local)
    }

    /** A live client lists a channel exactly when the channel is registered and lists the client. */
    ghost predicate TwoSided()
      reads `live, `rooms, live`channels, rooms`members
    {
      && (forall c, ch :: c in live && ch in c.channels ==> ch in rooms && c in ch.members)
      && (forall c, ch :: ch in rooms && c in ch.members ==> c in live && ch in c.channels)
    }

    /** The registered channels as values. */
    function Flat(): map<string, R.Channel<Client>>
      reads `channels, channels.Values`members, channels.Values`restricted, channels.Values`sharedWith
      reads channels.Values`persistent, channels.Values`archived
    {
      map n | n in channels :: channels[n].Value()
    }

    lemma FlatAt(n: string)
      ensures n in Flat() <==> n in channels
      ensures n in channels ==> Flat()[n] == channels[n].Value() && Flat()[n].members == channels[n].members
    {
    }

    /** No ghosts on any channel, every channel governed, none empty but the persistent ones. */
    ghost predicate LocalRun()
      reads `rooms, rooms
    {
      forall ch :: ch in rooms ==> ch.LocallyGoverned() && (ch.members == {} ==> ch.persistent)
    }

    constructor (name: string)
      ensures Valid() && BotsAgree() && LocalRun() && this.name == name
      ensures clients == map[] && remoteClients == map[] && channels == map[] && bots == map[] && links == map[]
      ensures live == {} && rooms == {}
    {
      this.name := name;
      clients, remoteClients, channels, bots, links, live, rooms := map[], map[], map[], map[], map[], {}, {};
    }

    // -------------------------------------------------------------- connections and nicks

    /** Somebody on no channel becomes known. */
    ghost method Greet(c: Client)
      requires TwoSided() && c !in live && c.channels == {}
      modifies this`live
      ensures TwoSided() && live == old(live) + {c} && (c.kind != Bot && old(BotsAgree()) ==> BotsAgree())
      ensures c.kind == Bot && old(NicksAgree()) ==> NicksAgree()
    {
      live := live + {c};
    }

    method Accept() returns (c: Client)
      requires Valid()
      modifies this`live
      ensures Valid() && fresh(c) && live == old(live) + {c} && c.kind == Local && c.nick == "" && c.channels == {}
      ensures old(LocalRun()) ==> LocalRun()
      ensures old(BotsAgree()) ==> BotsAgree()
    {
      c := new Client(Local, "", null);
      hide RoomsNamed, TwoSided, LocalRun, BotsAgree;
      Greet(c);
    }

    predicate LegalNick(nick: string)
      reads this
    {
      && !StartsWith(nick, "system-") && StartsWith(nick, name + "-") && |nick| > |name| + 1
      && nick !in clients
    }

    /** The client maps and nicks agree but for `c`, which is in no map. */
    ghost predicate NicksAgreeBut(c: Client)
      reads `clients, `remoteClients, `live, live`nick
    {
      && (forall n :: n in clients ==>
        clients[n] in live - {c} && clients[n].nick == n && clients[n].kind != Ghost && n != "")
      && (forall n :: n in remoteClients ==>
            remoteClients[n] in live - {c} && remoteClients[n].nick == n && remoteClients[n].kind == Ghost)
      && (forall d :: d in live - {c} && d.kind == Local && d.nick != "" ==> d.nick in clients && clients[d.nick] == d)
      && (forall d :: d in live - {c} && d.kind == Ghost ==> d.nick in remoteClients && remoteClients[d.nick] == d)
    }

    /** The nick of `c` is free again. */
    method Unlist(c: Client)
      requires NicksAgree() && c in live && c.kind == Local
      modifies this`clients
      ensures clients == old(clients) - {c.nick} && NicksAgreeBut(c)
      ensures old(BotsAgree()) ==> BotsAgree()
    {
      if c.nick != "" && c.nick in clients {
        clients := clients - {c.nick};
      }
    }

    /** `c` takes a nick nobody has. */
    method TakeNick(c: Client, nick: string)
      requires NicksAgreeBut(c) && c in live && c.kind == Local && nick != "" && nick !in clients
      modifies this`clients, c`nick
      ensures NicksAgree() && c.nick == nick && clients == old(clients)[nick := c]
      ensures old(BotsAgree()) ==> BotsAgree()
    {
      c.nick := nick;
      clients := clients[nick := c];
    }

    /** NICK: refused unless legal and free; otherwise the old entry goes and the new one comes. */
    method HandleNick(c: Client, nick: string) returns (ok: bool)
      requires Valid() && c in live && c.kind == Local
      modifies this`clients, c`nick
      ensures Valid() && ok == old(LegalNick(nick))
      ensures ok ==> c.nick == nick && clients == (old(clients) - {old(c.nick)})[nick := c]
      ensures !ok ==> c.nick == old(c.nick) && clients == old(clients)
      ensures old(LocalRun()) ==> LocalRun()
      ensures old(BotsAgree()) ==> BotsAgree()
    {
      ok := LegalNick(nick);
      hide RoomsNamed, NicksAgree, NicksAgreeBut, BotsAgree, TwoSided, LocalRun;
      if ok {
        Unlist(c);
        TakeNick(c, nick);
      }
    }

    // -------------------------------------------------------------- joining and leaving

    method GetOrCreate(chName: string) returns (ch: Channel)
      requires Valid()
      modifies this`channels, this`rooms
      ensures Valid() && chName in channels && channels[chName] == ch && ch in rooms && ch.name == chName
      ensures chName in old(channels) ==> channels == old(channels) && rooms == old(rooms)
      ensures chName !in old(channels) ==>
        fresh(ch) && channels == old(channels)[chName := ch] && rooms == old(rooms) + {ch}
        && ch.members == ch.operators == ch.voiced == {} && !ch.persistent && !ch.archived && ch.LocallyGoverned()
      ensures Flat() == if chName in old(channels) then old(Flat()) else old(Flat())[chName := R.NewChannel()]
    {
      hide NicksAgree;
      if chName !in channels {
        ch := new Channel(chName);
        channels := channels[chName := ch];
        rooms := rooms + {ch};
      }
      ch := channels[chName];
    }

    /** The channel objects registered under the name, none or one. */
    ghost function RoomsOf(chName: string): set<Channel>
      reads `channels
    {
      if chName in channels then {channels[chName]} else {}
    }

    method AddTo(ch: Channel, c: Client)
      requires RoomsNamed() && ch in rooms
      modifies ch`members, ch`operators
      ensures ch.members == old(ch.members) + {c}
      ensures ch.operators ==
        if old(ch.LocalMembers()) == {} && c.kind != Ghost then old(ch.operators) + {c} else old(ch.operators)
      ensures old(ch.LocallyGoverned()) && c.kind != Ghost ==> ch.LocallyGoverned()
      ensures Flat() == R.WithMembers(old(Flat()), ch.name, {c})
    {
      assert forall n :: n in channels && n != ch.name ==> channels[n] != ch;
      ch.Add(c);
    }

    method RemoveFrom(ch: Channel, c: Client)
      requires RoomsNamed() && ch in rooms
      modifies ch`members, ch`operators, ch`voiced
      ensures ch.members == old(ch.members) - {c}
      ensures ch.Succeeds(old(ch.operators), c) && ch.voiced == old(ch.voiced) - {c}
      ensures old(ch.LocallyGoverned()) ==> ch.LocallyGoverned()
      ensures Flat() == old(Flat())[ch.name := R.Without(old(Flat())[ch.name], {c})]
    {
      assert forall n :: n in channels && n != ch.name ==> channels[n] != ch;
      ch.Remove(c);
    }

    /** One client enters one channel, on both sides. */
    method Enter(c: Client, ch: Channel)
      requires Valid() && c in live && ch in rooms && c !in ch.members
      modifies ch`members, ch`operators, c`channels
      ensures Valid()
      ensures ch.members == old(ch.members) + {c} && c.channels == old(c.channels) + {ch}
      ensures ch.operators ==
        if old(ch.LocalMembers()) == {} && c.kind != Ghost then old(ch.operators) + {c} else old(ch.operators)
      ensures Flat() == R.WithMembers(old(Flat()), ch.name, {c})
      ensures old(ch.LocallyGoverned()) && c.kind == Local ==> ch.LocallyGoverned()
    {
      hide Flat;
      AddTo(ch, c);
      c.channels := c.channels + {ch};
    }

    /** One client leaves one channel, on both sides. */
    method Depart(c: Client, ch: Channel)
      requires Valid() && c in live && ch in rooms && c in ch.members
      modifies ch`members, ch`operators, ch`voiced, c`channels
      ensures Valid()
      ensures ch.members == old(ch.members) - {c} && c.channels == old(c.channels) - {ch}
      ensures ch.Succeeds(old(ch.operators), c) && ch.voiced == old(ch.voiced) - {c}
      ensures Flat() == old(Flat())[ch.name := R.Without(old(Flat())[ch.name], {c})]
      ensures old(ch.LocallyGoverned()) ==> ch.LocallyGoverned()
    {
      hide Flat;
      RemoveFrom(ch, c);
      c.channels := c.channels - {ch};
    }

    method Unregister(ch: Channel, keepPersistent: bool)
      requires RoomsNamed() && ch in rooms
      modifies this`channels, this`rooms
      ensures RoomsNamed()
      ensures if ch.members == {} && !(keepPersistent && ch.persistent)
              then channels == old(channels) - {ch.name} && rooms == old(rooms) - {ch}
                && Flat() == old(Flat()) - {ch.name}
              else channels == old(channels) && rooms == old(rooms) && Flat() == old(Flat())
    {
      if ch.members == {} && !(keepPersistent && ch.persistent) {
        assert ch.name in channels;
        channels := channels - {ch.name};
        rooms := rooms - {ch};
      }
    }

    /** An empty channel is unregistered, under the name it is registered by. */
    method CloseIfEmpty(ch: Channel, keepPersistent: bool)
      requires Valid() && ch in rooms
      modifies this`channels, this`rooms
      ensures Valid()
      ensures if ch.members == {} && !(keepPersistent && ch.persistent)
              then channels == old(channels) - {ch.name} && rooms == old(rooms) - {ch}
                && Flat() == old(Flat()) - {ch.name}
              else channels == old(channels) && rooms == old(rooms) && Flat() == old(Flat())
    {
      hide Flat;
      Unregister(ch, keepPersistent);
    }

    /** The channel, new if need be, gets the client. */
    method JoinRoom(c: Client, chName: string)
      requires Valid() && c in live && c.kind == Local && !(chName in channels && c in channels[chName].members)
      modifies this`channels, this`rooms, c`channels, RoomsOf(chName)`members, RoomsOf(chName)`operators
      ensures Valid() && Flat() == R.WithMembers(old(Flat()), chName, {c})
      ensures chName in channels && c.channels == old(c.channels) + {channels[chName]}
      ensures chName in old(channels) ==> channels == old(channels)
      ensures channels[chName].operators ==
        if chName !in old(channels) then {c}
        else if old(channels[chName].LocalMembers()) == {} then old(channels[chName].operators) + {c}
        else old(channels[chName].operators)
      ensures old(LocalRun()) ==> LocalRun()
      ensures fresh(rooms - old(rooms))
    {
      FlatAt(chName);
      hide Flat, RoomsNamed, NicksAgree, TwoSided;
      var ch := GetOrCreate(chName);
      Enter(c, ch);
    }

    /** JOIN by a registered client the access list admits. */
    method HandleJoin(c: Client, chName: string, admitted: bool)
      requires Valid() && c in live && c.kind == Local
      modifies this`channels, this`rooms, c`channels, RoomsOf(chName)`members, RoomsOf(chName)`operators
      ensures Valid()
      ensures Flat() ==
        if old(Enters(c, chName, admitted)) then R.WithMembers(old(Flat()), chName, {c}) else old(Flat())
      ensures chName in old(channels) ==> channels == old(channels)
      ensures if old(Enters(c, chName, admitted))
              then chName in channels && c.channels == old(c.channels) + {channels[chName]}
                   && channels[chName].operators == (if chName !in old(channels) then {c}
                        else if old(channels[chName].LocalMembers()) == {} then old(channels[chName].operators) + {c}
                        else old(channels[chName].operators))
              else c.channels == old(c.channels)
      ensures old(LocalRun()) ==> LocalRun()
      ensures fresh(rooms - old(rooms))
    {
      if !c.registered || !StartsWith(chName, "#") {
        return;
      }
      if chName in channels && channels[chName].archived {
        return;
      }
      if !admitted {
        return;
      }
      if chName in channels && c in channels[chName].members {
        return;
      }
      JoinRoom(c, chName);
    }

    predicate Enters(c: Client, chName: string, admitted: bool)
      reads this, c, RoomsOf(chName)
    {
      && c.registered && StartsWith(chName, "#") && admitted
      && !(chName in channels && (channels[chName].archived || c in channels[chName].members))
    }

    /** One client leaves one channel, which is unregistered if that leaves it empty. */
    method LeaveRoom(c: Client, ch: Channel)
      requires Valid() && c in live && ch in rooms && c in ch.members
      modifies this`channels, this`rooms, c`channels, ch`members, ch`operators, ch`voiced
      ensures Valid() && Flat() == R.Leave(old(Flat()), ch.name, c, true)
      ensures ch.members == old(ch.members) - {c} && c.channels == old(c.channels) - {ch}
      ensures ch.Succeeds(old(ch.operators), c) && ch.voiced == old(ch.voiced) - {c}
      ensures rooms == if ch.members == {} && !ch.persistent then old(rooms) - {ch} else old(rooms)
      ensures old(ch.LocallyGoverned()) ==> ch.LocallyGoverned()
    {
      Registered(ch);
      R.LeaveIs(Flat(), ch.name, c, true);
      hide *;
      Depart(c, ch);
      Registered(ch);
      CloseIfEmpty(ch, true);
    }

    lemma LocalRunHas(ch: Channel)
      requires LocalRun() && ch in rooms
      ensures ch.LocallyGoverned()
    {
    }

    /** A local run goes on when one channel changes, stays governed and goes if emptied. */
    twostate lemma StillLocalRun(ch: Channel)
      requires old(LocalRun()) && rooms <= old(rooms) && ch.LocallyGoverned()
      requires ch in rooms && ch.members == {} ==> ch.persistent
      requires forall o :: o in rooms && o != ch ==> unchanged(o)
      ensures LocalRun()
    {
    }

    lemma Registered(ch: Channel)
      requires Valid() && ch in rooms
      ensures ch.name in channels && channels[ch.name] == ch && ch.name in Flat()
      ensures Flat()[ch.name].members == ch.members && Flat()[ch.name].persistent == ch.persistent
    {
    }

    lemma RoomsKnown(chName: string)
      requires Valid()
      ensures RoomsOf(chName) == if chName in channels then {channels[chName]} else {}
      ensures RoomsOf(chName) <= rooms && forall ch :: ch in RoomsOf(chName) ==> ch.name == chName
    {
    }

    /** PART: answered with an error unless the client is on the channel. */
    method HandlePart(c: Client, chName: string) returns (ok: bool)
      requires Valid() && c in live && c.kind == Local
      modifies this`channels, this`rooms, c`channels
      modifies RoomsOf(chName)`members, RoomsOf(chName)`operators, RoomsOf(chName)`voiced
      ensures Valid() && ok == (chName in old(channels) && c in old(channels[chName].members))
      ensures Flat() == if ok then R.Leave(old(Flat()), chName, c, true) else old(Flat())
      ensures if ok
              then var ch := old(channels[chName]);
                   && c.channels == old(c.channels) - {ch}
                   && ch.Succeeds(old(channels[chName].operators), c) && ch.voiced == old(channels[chName].voiced) - {c}
              else c.channels == old(c.channels)
      ensures old(LocalRun()) ==> LocalRun()
      ensures fresh(rooms - old(rooms))
    {
      RoomsKnown(chName);
      hide Flat, Valid, LocalRun, Channel.LocallyGoverned, Channel.Succeeds;
      ok := chName in channels && c in channels[chName].members;
      if ok {
        var ch := channels[chName];
        if LocalRun() { LocalRunHas(ch); }
        LeaveRoom(c, ch);
        if old(LocalRun()) { StillLocalRun(ch); }
      }
    }

    // -------------------------------------------------------------- a client or ghost going away

    /** Whether a channel `c` is on survives its leaving. */
    predicate Survives(ch: Channel, c: Client, keepPersistent: bool)
      reads ch
    {
      ch.members != {c} || (keepPersistent && ch.persistent)
    }

    /** The channels that go when `c` leaves all of its own. */
    ghost function Doomed(c: Client, keepPersistent: bool): set<Channel>
      reads c, c.channels
    {
      set ch | ch in c.channels && !Survives(ch, c, keepPersistent)
    }

    ghost function GovernedRooms(): set<Channel>
      reads this, rooms
    {
      set ch | ch in rooms && ch.LocallyGoverned()
    }

    /** One round of the leaving loop. */
    method LeaveOne(c: Client, ch: Channel, keepPersistent: bool)
      requires RoomsNamed() && ch in rooms && c in ch.members
      modifies this`channels, this`rooms, ch`members, ch`operators, ch`voiced
      ensures RoomsNamed()
      ensures ch.members == old(ch.members) - {c}
      ensures rooms == old(rooms) - (if old(Survives(ch, c, keepPersistent)) then {} else {ch})
      ensures channels == if ch in rooms then old(channels) else old(channels) - {ch.name}
      ensures ch.OperatorsAfter(old(ch.operators), c)
      ensures old(ch.LocallyGoverned()) && c.kind == Local ==> ch.LocallyGoverned()
    {
      if c.kind == Ghost {
        ch.members := ch.members - {c};
      } else {
        ch.Remove(c);
      }
      if ch.members == {} && !(keepPersistent && ch.persistent) {
        assert ch.name in channels;
        channels := channels - {ch.name};
        rooms := rooms - {ch};
      }
    }

    /** The leaving loop: `c` leaves every channel it lists; those emptied by it are unregistered. */
    method LeaveEach(c: Client, keepPersistent: bool)
      requires RoomsNamed() && c.channels <= rooms
      requires forall ch :: ch in rooms ==> (c in ch.members <==> ch in c.channels)
      modifies this`channels, this`rooms, c.channels`members, c.channels`operators, c.channels`voiced
      ensures RoomsNamed()
      ensures forall ch :: ch in old(rooms) ==> ch.members == old(ch.members) - {c}
      ensures rooms == old(rooms) - old(Doomed(c, keepPersistent))
      ensures c.kind == Local ==> forall ch :: ch in old(GovernedRooms()) ==> ch.LocallyGoverned()
      ensures forall ch :: ch in c.channels ==> ch.OperatorsAfter(old(ch.operators), c)
    {
      var todo := c.channels;
      ghost var doomed, governed := Doomed(c, keepPersistent), GovernedRooms();
      hide RoomsNamed, Channel.OperatorsAfter, Channel.LocallyGoverned;
      while todo != {}
        invariant todo <= c.channels
        invariant RoomsNamed()
        invariant forall ch :: ch in todo ==> unchanged(ch)
        invariant forall ch :: ch in old(rooms) - todo ==> ch.members == old(ch.members) - {c}
        invariant rooms == old(rooms) - (doomed - todo)
        invariant forall ch :: ch in c.channels - todo ==> ch.OperatorsAfter(old(ch.operators), c)
        invariant c.kind == Local ==> forall ch :: ch in governed - todo ==> ch.LocallyGoverned()
        decreases |todo|
      {
        var ch :| ch in todo;
        assert Survives(ch, c, keepPersistent) == (ch !in doomed);
        MinusOne(old(rooms), doomed, todo, ch);
        LeaveOne(c, ch, keepPersistent);
        todo := todo - {ch};
      }
    }

    /** What the leaving loop comes to. */
    method LeaveRooms(c: Client, keepPersistent: bool)
      requires RoomsNamed() && c.channels <= rooms
      requires forall ch :: ch in rooms ==> (c in ch.members <==> ch in c.channels)
      modifies this`channels, this`rooms, c.channels`members, c.channels`operators, c.channels`voiced
      ensures RoomsNamed() && Flat() == R.Vacate(old(Flat()), {c}, keepPersistent)
      ensures forall ch :: ch in old(rooms) ==> ch.members == old(ch.members) - {c}
      ensures rooms == old(rooms) - old(Doomed(c, keepPersistent))
      ensures forall ch :: ch in c.channels ==> ch.OperatorsAfter(old(ch.operators), c)
      ensures c.kind == Local ==> forall ch :: ch in old(GovernedRooms()) ==> ch.LocallyGoverned()
    {
      ghost var flat, doomed, objects, was := Flat(), Doomed(c, keepPersistent), channels, rooms;
      forall n | n in flat
        ensures objects[n] in was && objects[n].name == n
        ensures R.Emptied(flat[n], {c}, keepPersistent) <==> objects[n] in doomed
      {
        R.EmptiedByOne(flat[n], c, keepPersistent);
      }
      LeaveEach(c, keepPersistent);
      forall n | n in objects ensures n in channels <==> objects[n] in rooms {
        assert objects[n].name == n;
      }
      forall n | n in channels ensures n in objects && channels[n] == objects[n] {
        assert channels[n] in was;
      }
      assert forall n :: n in channels ==> channels[n].Value() == R.Without(flat[n], {c});
      R.VacateIs(flat, Flat(), c, keepPersistent);
    }

    /** Clients other than bots come and go without the bots noticing. */
    ghost method Forget(c: Client)
      requires c.kind != Bot
      modifies this`live
      ensures live == old(live) - {c} && (old(BotsAgree()) ==> BotsAgree())
      ensures old(NicksAgreeBut(c)) ==> NicksAgree()
    {
      live := live - {c};
    }

    /** `c` leaves everything it is on, for good. */
    method LeaveAll(c: Client, keepPersistent: bool)
      requires RoomsNamed() && TwoSided() && c in live && c.kind != Bot
      modifies this`channels, this`rooms, this`live, c`channels
      modifies c.channels`members, c.channels`operators, c.channels`voiced
      ensures RoomsNamed() && TwoSided() && live == old(live) - {c} && (old(BotsAgree()) ==> BotsAgree())
      ensures old(NicksAgreeBut(c)) ==> NicksAgree()
      ensures Flat() == R.Vacate(old(Flat()), {c}, keepPersistent)
      ensures forall ch :: ch in old(rooms) ==> ch.members == old(ch.members) - {c}
      ensures rooms == old(rooms) - old(Doomed(c, keepPersistent))
      ensures forall ch :: ch in old(c.channels) ==> ch.OperatorsAfter(old(ch.operators), c)
      ensures c.kind == Local && keepPersistent && old(LocalRun()) ==> LocalRun()
    {
      hide Flat, RoomsNamed, Channel.OperatorsAfter, BotsAgree, NicksAgree, NicksAgreeBut;
      LeaveRooms(c, keepPersistent);
      if c.kind == Ghost {
        c.channels := {};
      }
      Forget(c);
    }

    /** The connection of `c` has gone. */
    method RemoveClient(c: Client)
      requires Valid() && c in live && c.kind == Local
      modifies this`clients, this`channels, this`rooms, this`live, c`channels
      modifies c.channels`members, c.channels`operators, c.channels`voiced
      ensures Valid() && live == old(live) - {c}
      ensures clients == old(clients) - {c.nick}
      ensures Flat() == R.Vacate(old(Flat()), {c}, true)
      ensures forall ch :: ch in old(c.channels) ==> ch.Succeeds(old(ch.operators), c)
      ensures old(LocalRun()) ==> LocalRun()
      ensures old(BotsAgree()) ==> BotsAgree()
      ensures fresh(rooms - old(rooms))
    {
      hide Flat, RoomsNamed, TwoSided, LocalRun, BotsAgree, NicksAgree, NicksAgreeBut, Channel.Succeeds;
      Unlist(c);
      LeaveAll(c, true);
    }

    // -------------------------------------------------------------- what peers announce

    /** Whether a line about `chName` from `link` is accepted. */
    predicate Trusts(link: Link, chName: string)
      reads this, RoomsOf(chName)
    {
      if StartsWith(chName, "#task-") then false
      else if chName in channels then
        !channels[chName].restricted
          && (link.restricted ==> link.Name().Some? && link.peerName in channels[chName].sharedWith)
      else !link.restricted
    }

    /** The channel is closed to the peer: a task channel, restricted, or not shared with one that needs it to be. */
    predicate ShutTo(link: Link, chName: string)
      reads this, RoomsOf(chName)
    {
      || StartsWith(chName, "#task-")
      || (chName in channels && channels[chName].restricted)
      || (link.restricted
          && (chName !in channels || link.Name().None? || link.peerName !in channels[chName].sharedWith))
    }

    /** SNICK: a new ghost, unless the nick is reserved, foreign to the peer, or known. */
    method HandleSnick(link: Link, nick: string)
      requires Valid()
      modifies this`remoteClients, this`live
      ensures Valid()
      ensures if StartsWith(nick, "system-") || !StartsWith(nick, link.NickPrefix())
                 || nick in clients || nick in old(remoteClients)
              then remoteClients == old(remoteClients) && live == old(live)
              else nick in remoteClients && fresh(remoteClients[nick]) && remoteClients[nick].link == link
                   && remoteClients[nick].kind == Ghost && remoteClients[nick].channels == {}
                   && remoteClients == old(remoteClients)[nick := remoteClients[nick]]
                   && live == old(live) + {remoteClients[nick]}
      ensures old(LinksOk(live, links)) ==> (LinksOk(live, links) <==> live == old(live) || IsRegistered(links, link))
      ensures old(LocalRun()) ==> LocalRun()
      ensures old(BotsAgree()) ==> BotsAgree()
    {
      if StartsWith(nick, "system-") || !StartsWith(nick, link.NickPrefix()) {
        return;
      }
      if nick in clients || nick in remoteClients {
        return;
      }
      hide RoomsNamed, TwoSided, LocalRun, BotsAgree, NicksAgree, LinksOk, IsRegistered;
      var rc := new Client(Ghost, nick, link);
      if LinksOk(live, links) { OneMoreGhost(live, links, rc, link); }
      AddGhost(rc);
    }

    method AddGhost(rc: Client)
      requires NicksAgree() && TwoSided() && rc !in live && rc.kind == Ghost && rc.channels == {}
        && rc.nick !in remoteClients
      modifies this`remoteClients, this`live
      ensures NicksAgree() && TwoSided() && (old(BotsAgree()) ==> BotsAgree())
      ensures remoteClients == old(remoteClients)[rc.nick := rc] && live == old(live) + {rc}
    {
      hide TwoSided, BotsAgree;
      Greet(rc);
      remoteClients := remoteClients[rc.nick := rc];
    }

    /** The ghost of that nick, if there is one. */
    ghost function Entry(nick: string): set<Client>
      reads `remoteClients
    {
      if nick in remoteClients then {remoteClients[nick]} else {}
    }

    /** The ghosts among `nicks`. */
    ghost function Known(nicks: seq<string>): set<Client>
      reads `remoteClients
    {
      set n | n in nicks && n in remoteClients :: remoteClients[n]
    }

    /** One ghost or bot is added to one channel, on both sides, and gets no status there. */
    method EnterQuietly(c: Client, ch: Channel)
      requires Valid() && c in live && ch in rooms
      modifies ch`members, c`channels
      ensures Valid()
      ensures ch.members == old(ch.members) + {c} && c.channels == old(c.channels) + {ch}
      ensures Flat() == R.WithMembers(old(Flat()), ch.name, {c})
    {
      hide Flat;
      AddQuietly(ch, c);
      c.channels := c.channels + {ch};
    }

    method AddQuietly(ch: Channel, c: Client)
      requires RoomsNamed() && ch in rooms
      modifies ch`members
      ensures ch.members == old(ch.members) + {c} && Flat() == R.WithMembers(old(Flat()), ch.name, {c})
    {
      assert forall n :: n in channels && n != ch.name ==> channels[n] != ch;
      ch.members := ch.members + {c};
    }

    method JoinRemoteNick(ch: Channel, nick: string)
      requires Valid() && ch in rooms
      modifies ch`members, Entry(nick)`channels
      ensures Valid() && Flat() == R.WithMembers(old(Flat()), ch.name, Entry(nick))
      ensures forall c :: c in Entry(nick) ==> c.channels == old(c.channels) + {ch}
    {
      FlatAt(ch.name);
      if Entry(nick) <= ch.members {
        R.JoinNobody(Flat(), ch.name, Entry(nick));
      }
      hide Flat;
      if nick in remoteClients {
        var rc := remoteClients[nick];
        if rc !in ch.members {
          EnterQuietly(rc, ch);
        }
      }
    }

    method JoinRemoteNicks(ch: Channel, nicks: seq<string>)
      requires Valid() && ch in rooms
      modifies ch`members, Known(nicks)`channels
      ensures Valid() && Flat() == R.WithMembers(old(Flat()), ch.name, Known(nicks))
      ensures forall c :: c in Known(nicks) ==> c.channels == old(c.channels) + {ch}
    {
      FlatAt(ch.name);
      R.JoinNobody(Flat(), ch.name, Known([]));
      hide Flat, Valid;
      for i := 0 to |nicks|
        invariant Valid() && Flat() == R.WithMembers(old(Flat()), ch.name, Known(nicks[..i]))
        invariant forall c :: c in Known(nicks) ==>
          c.channels == if c in Known(nicks[..i]) then old(c.channels) + {ch} else old(c.channels)
      {
        KnownNext(nicks, i);
        R.JoinTwice(old(Flat()), ch.name, Known(nicks[..i]), Entry(nicks[i]));
        JoinRemoteNick(ch, nicks[i]);
      }
      assert nicks[..|nicks|] == nicks;
    }

    lemma KnownNext(nicks: seq<string>, i: nat)
      requires i < |nicks|
      ensures Known(nicks[..i + 1]) == Known(nicks[..i]) + Entry(nicks[i])
    {
    }

    /** SJOIN: the channel comes to exist if it did not, and the ghosts named enter it. */
    method HandleSjoin(link: Link, chName: string, nicks: seq<string>)
      requires Valid()
      modifies this`channels, this`rooms, RoomsOf(chName)`members, Known(nicks)`channels
      ensures Valid()
      ensures Flat() ==
        if old(Trusts(link, chName)) then R.WithMembers(old(Flat()), chName, Known(nicks)) else old(Flat())
      ensures chName in old(channels) || !old(Trusts(link, chName)) ==> channels == old(channels)
      ensures if old(Trusts(link, chName))
              then chName in channels && forall c :: c in Known(nicks) ==>
                c.channels == old(c.channels) + {channels[chName]}
              else forall c :: c in Known(nicks) ==> unchanged(c)
      ensures old(Trusts(link, chName)) <==> !old(ShutTo(link, chName))
      ensures fresh(rooms - old(rooms))
    {
      FlatAt(chName);
      hide Flat;
      if Trusts(link, chName) {
        var ch := GetOrCreate(chName);
        JoinRemoteNicks(ch, nicks);
      }
    }

    method DropFrom(ch: Channel, c: Client)
      requires RoomsNamed() && ch in rooms
      modifies ch`members
      ensures ch.members == old(ch.members) - {c}
      ensures Flat() == old(Flat())[ch.name := R.Without(old(Flat())[ch.name], {c})]
    {
      assert forall n :: n in channels && n != ch.name ==> channels[n] != ch;
      ch.members := ch.members - {c};
    }

    /** One ghost or bot leaves one channel, on both sides, and nobody is promoted. */
    method LeaveQuietly(c: Client, ch: Channel)
      requires Valid() && c in live && ch in rooms
      modifies ch`members, c`channels
      ensures Valid()
      ensures ch.members == old(ch.members) - {c} && c.channels == old(c.channels) - {ch}
      ensures Flat() == old(Flat())[ch.name := R.Without(old(Flat())[ch.name], {c})]
    {
      hide Flat;
      DropFrom(ch, c);
      c.channels := c.channels - {ch};
    }

    /** Whether what `link` says about a channel there is counts: it is not restricted, and shared if need be. */
    predicate Heeds(link: Link, ch: Channel)
      reads ch
    {
      !ch.restricted && (link.restricted ==> link.Name().Some? && link.peerName in ch.sharedWith)
    }

    /** SROOMMETA: the channel comes to exist if it did not, and is kept or not as the peer says. */
    method HandleSroommeta(link: Link, chName: string, persistent: bool)
      requires Valid()
      modifies this`channels, this`rooms, RoomsOf(chName)`persistent
      ensures Valid() && fresh(rooms - old(rooms))
      ensures Flat() ==
        if chName in old(channels) && !old(Heeds(link, channels[chName])) then old(Flat())
        else old(Flat())[chName := R.ChannelOr(old(Flat()), chName).(persistent := persistent)]
    {
      FlatAt(chName);
      hide Flat, RoomsNamed, NicksAgree, TwoSided;
      if chName in channels && !Heeds(link, channels[chName]) {
        return;
      }
      var ch := GetOrCreate(chName);
      Keep(ch, persistent);
    }

    method Keep(ch: Channel, persistent: bool)
      requires Valid() && ch in rooms
      modifies ch`persistent
      ensures Valid() && Flat() == old(Flat())[ch.name := old(Flat())[ch.name].(persistent := persistent)]
    {
      assert forall n :: n in channels && n != ch.name ==> channels[n] != ch;
      hide NicksAgree, TwoSided;
      ch.persistent := persistent;
    }

    /** A ghost leaves one channel, and an empty channel goes. */
    method GhostLeaves(rc: Client, ch: Channel)
      requires Valid() && rc in live && ch in rooms
      modifies this`channels, this`rooms, ch`members, rc`channels
      ensures Valid() && rc.channels == old(rc.channels) - {ch} && Flat() == R.Leave(old(Flat()), ch.name, rc, false)
      ensures fresh(rooms - old(rooms))
    {
      Registered(ch);
      R.LeaveIs(Flat(), ch.name, rc, false);
      hide *;
      LeaveQuietly(rc, ch);
      Registered(ch);
      CloseIfEmpty(ch, false);
    }

    lemma EntryOf(nick: string)
      ensures Entry(nick) == if nick in remoteClients then {remoteClients[nick]} else {}
    {
    }

    /** SPART: the ghost leaves; an empty channel goes, even a persistent one. */
    method HandleSpart(link: Link, chName: string, nick: string)
      requires Valid()
      modifies this`channels, this`rooms, RoomsOf(chName)`members, Entry(nick)`channels
      ensures Valid()
      ensures if nick in remoteClients && chName in old(channels) && old(Trusts(link, chName))
              then var rc, ch := remoteClients[nick], old(channels[chName]);
                   rc.channels == old(remoteClients[nick].channels) - {ch}
                     && Flat() == R.Leave(old(Flat()), chName, rc, false)
              else Flat() == old(Flat()) && forall rc :: rc in Entry(nick) ==> unchanged(rc)
      ensures old(Trusts(link, chName)) <==> !old(ShutTo(link, chName))
      ensures fresh(rooms - old(rooms))
    {
      if nick !in remoteClients || chName !in channels || !Trusts(link, chName) {
        return;
      }
      RoomsKnown(chName);
      assert remoteClients[nick] in live;
      hide *;
      EntryOf(nick);
      GhostLeaves(remoteClients[nick], channels[chName]);
    }

    method UnlistGhost(rc: Client)
      requires NicksAgree() && rc in live && rc.kind == Ghost
      modifies this`remoteClients
      ensures remoteClients == old(remoteClients) - {rc.nick} && NicksAgreeBut(rc)
    {
      remoteClients := remoteClients - {rc.nick};
    }

    /** A ghost goes, from its channels and from the server. */
    method RemoveGhost(rc: Client)
      requires Valid() && rc in live && rc.kind == Ghost
      modifies this`remoteClients, this`channels, this`rooms, this`live, rc`channels
      modifies rooms`members, rooms`operators, rooms`voiced
      ensures Valid() && live == old(live) - {rc} && rooms <= old(rooms)
      ensures Flat() == R.Vacate(old(Flat()), {rc}, false)
      ensures forall ch :: ch in old(rc.channels) && old(ch.operators <= ch.members) ==>
        (ch.operators <= ch.members <==> rc !in old(ch.operators))
      ensures old(BotsAgree()) ==> BotsAgree()
    {
      hide Flat, RoomsNamed, LocalRun, BotsAgree, NicksAgree, NicksAgreeBut, Channel.Succeeds;
      assert rc.channels <= rooms;
      UnlistGhost(rc);
      LeaveAll(rc, false);
    }

    /** SQUITUSER: an unknown nick is ignored. */
    method HandleSquituser(nick: string)
      requires Valid()
      modifies this`remoteClients, this`channels, this`rooms, this`live, Entry(nick)`channels
      modifies rooms`members, rooms`operators, rooms`voiced
      ensures Valid() && live == old(live) - old(Entry(nick)) && remoteClients == old(remoteClients) - {nick}
      ensures Flat() == R.Vacate(old(Flat()), old(Entry(nick)), false)
      ensures nick !in old(remoteClients) ==>
        live == old(live) && remoteClients == old(remoteClients) && Flat() == old(Flat())
      ensures old(BotsAgree()) ==> BotsAgree()
      ensures fresh(rooms - old(rooms))
    {
      if nick in remoteClients {
        RemoveGhost(remoteClients[nick]);
      } else {
        R.VacateNobody(Flat(), false);
      }
    }

    method RemoveGhosts(gone: set<Client>)
      requires Valid() && forall rc :: rc in gone ==> rc in live && rc.kind == Ghost
      modifies this`remoteClients, this`channels, this`rooms, this`live, gone`channels
      modifies rooms`members, rooms`operators, rooms`voiced
      ensures Valid() && live == old(live) - gone
      ensures Flat() == R.Vacate(old(Flat()), gone, false)
      ensures old(BotsAgree()) ==> BotsAgree()
      ensures fresh(rooms - old(rooms))
    {
      hide *;
      var todo := gone;
      ghost var done: set<Client> := {};
      R.VacateNobody(Flat(), false);
      while todo != {}
        invariant Valid() && todo <= live && done + todo == gone && rooms <= old(rooms)
        invariant old(BotsAgree()) ==> BotsAgree()
        invariant live == old(live) - done && Flat() == R.Vacate(old(Flat()), done, false)
        decreases |todo|
      {
        var rc :| rc in todo;
        MoveOne(old(live), gone, done, todo, rc);
        R.VacateTwice(old(Flat()), done, {rc});
        RemoveGhost(rc);
        todo, done := todo - {rc}, done + {rc};
      }
    }

    /** The loss of a link: all ghosts that came over it go, and the channels they leave empty. */
    method DisconnectRemoteClients(link: Link)
      requires Valid()
      modifies this`remoteClients, this`channels, this`rooms, this`live, Over(link)`channels
      modifies rooms`members, rooms`operators, rooms`voiced
      ensures Valid() && live == old(live) - old(Over(link))
      ensures remoteClients ==
        map n | n in old(remoteClients) && old(remoteClients)[n].link != link :: old(remoteClients)[n]
      ensures Flat() == R.Vacate(old(Flat()), old(Over(link)), false)
      ensures old(BotsAgree()) ==> BotsAgree()
      ensures fresh(rooms - old(rooms))
    {
      hide Flat, RoomsNamed, TwoSided;
      var toRemove := set n | n in remoteClients && remoteClients[n].link == link :: remoteClients[n];
      assert toRemove == Over(link);
      RemoveGhosts(toRemove);
    }

    /** The ghosts that came over `link`. */
    ghost function Over(link: Link): set<Client>
      reads `live
    {
      GhostsOver(live, link)
    }

    /** The end of a handshake: refused without effect for a wrong password, a name in use, or our own name. */
    method CompleteHandshake(link: Link, passwordFits: bool) returns (ok: bool)
      modifies this`links
      ensures ok <==> passwordFits && link.peerName !in old(links) && link.peerName != name
      ensures links == if ok then old(links)[link.peerName := link] else old(links)
      ensures old(LinksOk(live, links)) && link.peerName != "" ==> LinksOk(live, links)
    {
      ok := passwordFits && link.peerName !in links && link.peerName != name;
      if ok {
        links := links[link.peerName := link];
      }
    }

    /**
     * A link object has closed, also one whose handshake was refused: the registration under its peer's
     * name goes, and the ghosts that came over it. Every ghost still has its link exactly when that
     * registration was its own or that of a link without ghosts.
     */
    method RemoveLink(link: Link)
      requires Valid()
      modifies this`links, this`remoteClients, this`channels, this`rooms, this`live, Over(link)`channels
      modifies rooms`members, rooms`operators, rooms`voiced
      ensures Valid() && links == LinksWithout(old(links), link) && live == old(live) - old(Over(link))
      ensures remoteClients ==
        map n | n in old(remoteClients) && old(remoteClients)[n].link != link :: old(remoteClients)[n]
      ensures Flat() == R.Vacate(old(Flat()), old(Over(link)), false)
      ensures old(BotsAgree()) ==> BotsAgree()
      ensures old(LinksOk(live, links)) ==> (LinksOk(live, links) <==> old(Dispensable(live, links, link)))
      ensures fresh(rooms - old(rooms))
    {
      if LinksOk(live, links) { ClosedExact(live, links, link); }
      hide *;
      OverIs(link);
      Deregister(link);
      assert Over(link) == old(Over(link)) && Flat() == old(Flat()) && (old(BotsAgree()) ==> BotsAgree());
      DisconnectRemoteClients(link);
    }

    method Deregister(link: Link)
      modifies this`links
      ensures links == LinksWithout(old(links), link)
    {
      if link.peerName != "" && link.peerName in links {
        links := links - {link.peerName};
      }
    }

    lemma OverIs(link: Link)
      ensures Over(link) == GhostsOver(live, link)
    {
    }

    /** Whether a channel can take the archive name without another one losing its registration. */
    predicate ArchiveNameFree(chName: string, archiveName: string)
      reads this, RoomsOf(archiveName)
    {
      archiveName == chName || archiveName !in channels || channels[archiveName].members == {}
    }

    method PartLocalMembers(ch: Channel)
      requires TwoSided() && ch in rooms
      modifies ch.members`channels
      ensures forall c :: c in ch.members ==> c.channels == old(c.channels) - {ch}
    {
      var todo := ch.members;
      while todo != {}
        invariant todo <= ch.members
        invariant forall c :: c in ch.members ==>
          c.channels == if c in todo then old(c.channels) else old(c.channels) - {ch}
        decreases |todo|
      {
        var m :| m in todo;
        m.channels := m.channels - {ch};
        todo := todo - {m};
      }
    }

    method ClearMembers(ch: Channel)
      requires RoomsNamed() && ch in rooms
      modifies ch`members, ch`operators, ch`voiced
      ensures ch.members == ch.operators == ch.voiced == {}
      ensures Flat() == old(Flat())[ch.name := old(Flat())[ch.name].(members := {})]
    {
      assert forall n :: n in channels && n != ch.name ==> channels[n] != ch;
      ch.members, ch.operators, ch.voiced := {}, {}, {};
    }

    /** The channel is registered under its archive name, taking the place of any channel of that name. */
    method RegisterArchive(ch: Channel, newName: string)
      requires RoomsNamed() && ch !in rooms
      modifies this`channels, this`rooms, ch`name, ch`archived
      ensures RoomsNamed() && rooms == old(rooms) - old(RoomsOf(newName)) + {ch} && ch.name == newName && ch.archived
      ensures channels == old(channels)[newName := ch]
      ensures Flat() == old(Flat())[newName := old(ch.Value()).(archived := true)]
    {
      assert forall n :: n in channels ==> channels[n] != ch;
      ch.name := newName;
      ch.archived := true;
      rooms := rooms - RoomsOf(newName) + {ch};
      channels := channels[newName := ch];
    }

    /** The channel is emptied and moves to its archive name. */
    method RenameToArchive(ch: Channel, archiveName: string)
      requires RoomsNamed() && ch in rooms
      modifies this`channels, this`rooms, ch
      ensures RoomsNamed() && rooms == old(rooms) - (old(RoomsOf(archiveName)) - {ch})
      ensures Flat() == R.Archived(old(Flat()), old(ch.name), archiveName)
      ensures channels == (old(channels) - {old(ch.name)})[archiveName := ch]
      ensures ch.name == archiveName && ch.archived && ch.members == ch.operators == ch.voiced == {}
    {
      FlatAt(ch.name);
      R.ArchivedIs(Flat(), ch.name, archiveName);
      hide Flat;
      ClearMembers(ch);
      Unregister(ch, false);
      RegisterArchive(ch, archiveName);
    }

    /** Everybody is taken off the channel, and it moves. */
    method MoveToArchive(ch: Channel, archiveName: string)
      requires RoomsNamed() && TwoSided() && ch in rooms
      modifies this`channels, this`rooms, ch, live`channels
      ensures RoomsNamed() && rooms == old(rooms) - (old(RoomsOf(archiveName)) - {ch})
      ensures Flat() == R.Archived(old(Flat()), old(ch.name), archiveName)
      ensures channels == (old(channels) - {old(ch.name)})[archiveName := ch]
      ensures ch.name == archiveName && ch.archived && ch.members == ch.operators == ch.voiced == {}
      ensures forall c :: c in live ==> c.channels == old(c.channels) - {ch}
    {
      hide Flat, RoomsNamed;
      PartLocalMembers(ch);
      RenameToArchive(ch, archiveName);
    }

    /** Membership stays two-sided exactly when the archived channel displaces nobody. */
    method ArchiveChannel(ch: Channel, archiveName: string)
      requires RoomsNamed() && TwoSided() && ch in rooms
      modifies this`channels, this`rooms, ch, live`channels
      ensures RoomsNamed()
      ensures Flat() == R.Archived(old(Flat()), old(ch.name), archiveName)
      ensures channels == (old(channels) - {old(ch.name)})[archiveName := ch]
      ensures ch.name == archiveName && ch.archived && ch.members == ch.operators == ch.voiced == {}
      ensures forall c :: c in live ==> c.channels == old(c.channels) - {ch}
      ensures TwoSided() <==> forall o :: o in old(RoomsOf(archiveName)) && o != ch ==> old(o.members) == {}
      ensures fresh(rooms - old(rooms))
    {
      ghost var lost := RoomsOf(archiveName) - {ch};
      assert lost <= rooms;
      hide Flat, RoomsNamed;
      MoveToArchive(ch, archiveName);
      if o :| o in lost && o.members != {} {
        ghost var m :| m in o.members;
        StrayMember(o, m);
      }
    }

    /** A channel that lost its registration but is still listed. */
    lemma StrayMember(o: Channel, m: Client)
      requires m in live && o in m.channels && o !in rooms
      ensures !TwoSided()
    {
    }

    /**
     * SROOMARCHIVE: everyone is taken off the channel, which goes on, empty, under its archive name.
     * The server stays consistent exactly when no occupied channel had that name.
     */
    method HandleSroomarchive(link: Link, chName: string, archiveName: string)
      requires Valid()
      modifies this`channels, this`rooms, RoomsOf(chName), live`channels
      ensures chName !in old(channels) || !old(Trusts(link, chName)) ==>
        Flat() == old(Flat()) && (forall c :: c in live ==> c.channels == old(c.channels)) && Valid()
      ensures chName in old(channels) && old(Trusts(link, chName)) ==>
        var ch := old(channels[chName]);
        && channels == (old(channels) - {chName})[archiveName := ch]
        && ch.name == archiveName && ch.archived && ch.members == ch.operators == ch.voiced == {}
        && (forall c :: c in live ==> c.channels == old(c.channels) - {ch})
        && Flat() == R.Archived(old(Flat()), chName, archiveName)
        && (Valid() <==> old(ArchiveNameFree(chName, archiveName)))
      ensures old(Trusts(link, chName)) <==> !old(ShutTo(link, chName))
      ensures fresh(rooms - old(rooms))
    {
      if chName in channels && Trusts(link, chName) {
        var ch := channels[chName];
        assert ch in rooms && ch.name == chName;
        assert archiveName != chName && archiveName in channels ==> channels[archiveName] != ch;
        hide Flat, RoomsNamed, NicksAgree, TwoSided;
        ArchiveChannel(ch, archiveName);
      }
    }

    /** ROOMARCHIVE by somebody permitted: the channel goes on, empty, under the next free archive name. */
    method HandleRoomarchive(chName: string, permitted: bool) returns (archiveName: string)
      requires Valid()
      modifies this`channels, this`rooms, RoomsOf(chName), live`channels
      ensures Valid()
      ensures if permitted && chName in old(channels)
              then archiveName == A.NextArchiveName(old(channels).Keys, chName)
                   && Flat() == R.Archived(old(Flat()), chName, archiveName)
                   && channels == (old(channels) - {chName})[archiveName := old(channels)[chName]]
                   && (forall c :: c in live ==> c.channels == old(c.channels) - {old(channels)[chName]})
              else Flat() == old(Flat()) && forall c :: c in live ==> c.channels == old(c.channels)
      ensures fresh(rooms - old(rooms))
    {
      archiveName := chName;
      if chName in channels && permitted {
        hide *;
        archiveName := A.FindArchiveName(channels.Keys, chName);
        ArchiveAs(chName, archiveName);
      }
    }

    /** The channel is archived under a name no channel has. */
    method ArchiveAs(chName: string, archiveName: string)
      requires Valid() && chName in channels && archiveName !in channels
      modifies this`channels, this`rooms, RoomsOf(chName), live`channels
      ensures Valid() && Flat() == R.Archived(old(Flat()), chName, archiveName)
      ensures channels == (old(channels) - {chName})[archiveName := old(channels)[chName]]
      ensures forall c :: c in live ==> c.channels == old(c.channels) - {old(channels)[chName]}
      ensures fresh(rooms - old(rooms))
    {
      var ch := channels[chName];
      assert ch in rooms && ch.name == chName;
      ValidIs();
      hide *;
      RoomsKnown(chName);
      RoomsKnown(archiveName);
      ArchiveChannel(ch, archiveName);
      ValidIs();
    }

    // -------------------------------------------------------------- bots

    /** The server's own user becomes known, among the clients. */
    method AddSystemUser(b: Client)
      requires NicksAgree() && BotsAgree() && TwoSided() && b !in live && b.kind == Bot && b.channels == {}
      requires b.nick != "" && b.nick !in clients && b.nick !in bots
      modifies this`live, this`clients
      ensures NicksAgree() && BotsAgree() && TwoSided() && live == old(live) + {b}
        && clients == old(clients)[b.nick := b]
    {
      hide TwoSided;
      Greet(b);
      clients := clients[b.nick := b];
    }

    method NewSystemUser() returns (b: Client)
      requires Valid() && BotsAgree() && SystemNick(name) !in clients && SystemNick(name) !in bots
      modifies this`clients, this`live
      ensures Valid() && BotsAgree() && fresh(b) && b.kind == Bot && b.nick == SystemNick(name) && b.channels == {}
      ensures clients == old(clients)[b.nick := b] && live == old(live) + {b}
      ensures (old(LocalRun()) ==> LocalRun())
    {
      hide *;
      b := new Client(Bot, SystemNick(name), null);
      SystemNickIs(name);
      NewcomerNowhere(b, "#system");
      AddSystemUser(b);
      NewcomerNowhere(b, "#system");
    }

    method SeatSystemUser(b: Client)
      requires Valid() && b in live && b.kind == Bot && b.channels == {}
      modifies this`channels, this`rooms, b`channels, RoomsOf("#system")
      ensures Valid() && "#system" in channels && b.channels == {channels["#system"]}
        && b !in channels["#system"].operators
      ensures Flat() == var joined := R.WithMembers(old(Flat()), "#system", {b});
                        joined["#system" := joined["#system"].(persistent := true, archived := false)]
      ensures old(LocalRun()) ==> LocalRun()
      ensures rooms == old(rooms) + {channels["#system"]}
      ensures "#system" !in old(channels) ==> fresh(channels["#system"])
    {
      hide *;
      NewcomerNowhere(b, "#system");
      JoinQuietly(b, "#system");
      NewcomerNowhere(b, "#system");
      FlatAt("#system");
      Retain(channels["#system"]);
    }

    /** At the start the server's own user comes up on the system channel, which stays and is not archived. */
    method BootstrapSystem() returns (b: Client)
      requires Valid() && BotsAgree() && SystemNick(name) !in clients && SystemNick(name) !in bots
      modifies this`clients, this`channels, this`rooms, this`live, RoomsOf("#system")
      ensures Valid() && BotsAgree() && fresh(b) && b.kind == Bot && b.nick == SystemNick(name)
      ensures clients == old(clients)[b.nick := b] && live == old(live) + {b}
      ensures "#system" in channels && b.channels == {channels["#system"]} && b !in channels["#system"].operators
      ensures Flat() == var joined := R.WithMembers(old(Flat()), "#system", {b});
                        joined["#system" := joined["#system"].(persistent := true, archived := false)]
      ensures old(LocalRun()) ==> LocalRun()
      ensures rooms == old(rooms) + {channels["#system"]}
      ensures "#system" !in old(channels) ==> fresh(channels["#system"])
    {
      hide *;
      b := NewSystemUser();
      SeatSystemUser(b);
    }

    lemma NewcomerNowhere(b: Client, chName: string)
      ensures TwoSided() && RoomsNamed() && b.channels == {} ==> !(chName in channels && b in channels[chName].members)
      ensures Valid() <==> RoomsNamed() && NicksAgree() && TwoSided()
      ensures RoomsOf(chName) == if chName in channels then {channels[chName]} else {}
      ensures RoomsNamed() && chName in channels ==> channels[chName] in rooms && channels[chName].name == chName
    {
    }

    /** The channel is kept, empty or not, and is open. */
    method Retain(ch: Channel)
      requires RoomsNamed() && ch in rooms
      modifies ch`persistent, ch`archived
      ensures ch.persistent && !ch.archived
      ensures Flat() == old(Flat())[ch.name := old(ch.Value()).(persistent := true, archived := false)]
      ensures old(LocalRun()) ==> LocalRun()
    {
      assert forall n :: n in channels && n != ch.name ==> channels[n] != ch;
      ch.persistent, ch.archived := true, false;
    }

    method AddBot(b: Client)
      requires NicksAgree() && BotsAgree() && TwoSided() && b !in live && b.kind == Bot && b.channels == {}
      requires b.nick !in clients && b.nick !in bots
      modifies this`live, this`bots
      ensures NicksAgree() && BotsAgree() && TwoSided() && live == old(live) + {b} && bots == old(bots)[b.nick := b]
    {
      hide TwoSided, NicksAgree;
      Greet(b);
      bots := bots[b.nick := b];
    }

    /** A bot with a name of its own becomes known. */
    method NewBot(nick: string) returns (b: Client)
      requires Valid() && BotsAgree() && nick !in clients && nick !in bots
      modifies this`live, this`bots
      ensures Valid() && BotsAgree() && (old(LocalRun()) ==> LocalRun())
      ensures fresh(b) && b.kind == Bot && b.nick == nick && live == old(live) + {b} && bots == old(bots)[nick := b]
    {
      hide RoomsNamed, TwoSided, LocalRun, BotsAgree, NicksAgree;
      b := new Client(Bot, nick, null);
      AddBot(b);
    }

    method JoinConfigured(b: Client, configured: seq<string>)
      requires Valid() && BotsAgree() && b in live && b.kind == Bot
      modifies this`channels, this`rooms, b`channels, rooms`members, rooms`operators
      ensures Valid() && BotsAgree() && (old(LocalRun()) ==> LocalRun())
      ensures Flat() == R.JoinAll(old(Flat()), configured, b)
      ensures fresh(rooms - old(rooms))
    {
      hide *;
      R.JoinAllIs(Flat(), configured, 0, b);
      for i := 0 to |configured|
        invariant Valid() && BotsAgree() && fresh(rooms - old(rooms)) && (old(LocalRun()) ==> LocalRun())
        invariant Flat() == R.JoinAll(old(Flat()), configured[..i], b)
      {
        R.JoinAllIs(old(Flat()), configured, i, b);
        RoomsKnown(configured[i]);
        JoinChannel(b, configured[i]);
      }
      assert configured[..|configured|] == configured;
    }

    method LaunchBot(nick: string, configured: seq<string>) returns (b: Client)
      requires Valid() && BotsAgree() && nick !in clients && nick !in bots
      modifies this`live, this`bots, this`channels, this`rooms, rooms`members, rooms`operators
      ensures Valid() && BotsAgree() && (old(LocalRun()) ==> LocalRun())
      ensures fresh(b) && b.kind == Bot && b.nick == nick && live == old(live) + {b} && bots == old(bots)[nick := b]
      ensures Flat() == R.JoinAll(old(Flat()), configured, b)
      ensures fresh(rooms - old(rooms))
    {
      hide *;
      b := NewBot(nick);
      JoinConfigured(b, configured);
    }

    /** A server-side bot comes to life and joins its channels, unless its name is taken. */
    method StartBot(nick: string, configured: seq<string>) returns (b: Client?)
      requires Valid() && BotsAgree()
      modifies this`live, this`bots, this`channels, this`rooms, rooms`members, rooms`operators
      ensures Valid() && BotsAgree() && (old(LocalRun()) ==> LocalRun())
      ensures if nick in clients || nick in remoteClients || nick in old(bots)
              then b == null && live == old(live) && bots == old(bots) && Flat() == old(Flat())
              else b != null && fresh(b) && b.kind == Bot && b.nick == nick
                   && live == old(live) + {b} && bots == old(bots)[nick := b]
                   && Flat() == R.JoinAll(old(Flat()), configured, b)
      ensures fresh(rooms - old(rooms))
    {
      if nick in clients || nick in remoteClients || nick in bots {
        return null;
      }
      hide *;
      b := LaunchBot(nick, configured);
    }

    /** The bot gets on the channel, on both sides, and is no operator there. */
    method Seat(b: Client, ch: Channel)
      requires Valid() && b in live && b.kind == Bot && ch in rooms && b !in ch.members
      modifies ch`members, ch`operators, b`channels
      ensures Valid()
      ensures ch.members == old(ch.members) + {b} && b.channels == old(b.channels) + {ch}
        && ch.operators == old(ch.operators) - {b}
      ensures Flat() == R.WithMembers(old(Flat()), ch.name, {b})
      ensures old(ch.LocallyGoverned()) ==> ch.LocallyGoverned()
    {
      assert (ch.members + {b}) * ch.members == ch.members;
      hide Flat, RoomsNamed, NicksAgree, TwoSided;
      EnterQuietly(b, ch);
      assert ch.LocalMembers() == old(ch.LocalMembers());
      ch.operators := ch.operators - {b};
    }

    /** The channel, new if need be, gets the bot, never as an operator. */
    method JoinQuietly(b: Client, chName: string)
      requires Valid() && b in live && b.kind == Bot && !(chName in channels && b in channels[chName].members)
      modifies this`channels, this`rooms, b`channels, RoomsOf(chName)`members, RoomsOf(chName)`operators
      ensures Valid() && chName in channels && Flat() == R.WithMembers(old(Flat()), chName, {b})
      ensures chName in old(channels) ==> channels == old(channels)
      ensures fresh(rooms - old(rooms)) && (chName !in old(channels) ==> fresh(channels[chName]))
      ensures rooms == old(rooms) + {channels[chName]}
      ensures b.channels == old(b.channels) + {channels[chName]}
      ensures channels[chName].operators ==
        if chName in old(channels) then old(channels[chName].operators) - {b} else {}
      ensures old(LocalRun()) ==> LocalRun()
    {
      FlatAt(chName);
      hide Flat, RoomsNamed, NicksAgree, TwoSided, Channel.LocallyGoverned;
      var ch := GetOrCreate(chName);
      Seat(b, ch);
    }

    /** A bot joins, once. */
    method JoinChannel(b: Client, chName: string)
      requires Valid() && b in live && b.kind == Bot
      modifies this`channels, this`rooms, b`channels, RoomsOf(chName)`members, RoomsOf(chName)`operators
      ensures Valid() && chName in channels && Flat() == R.WithMembers(old(Flat()), chName, {b})
      ensures b.channels == old(b.channels) + {channels[chName]}
      ensures !(chName in old(channels) && b in old(channels[chName].members)) ==> b !in channels[chName].operators
      ensures fresh(rooms - old(rooms)) && (old(LocalRun()) ==> LocalRun())
    {
      if chName in channels && b in channels[chName].members {
        R.JoinNobody(Flat(), chName, {b});
        assert channels[chName] in b.channels;
        return;
      }
      JoinQuietly(b, chName);
    }

    /** The bot gets off the channel, on both sides, and no operator is promoted in its place. */
    method Unseat(b: Client, ch: Channel)
      requires Valid() && b in live && ch in rooms && b in ch.members
      modifies ch`members, ch`operators, b`channels
      ensures Valid()
      ensures ch.members == old(ch.members) - {b} && b.channels == old(b.channels) - {ch}
        && ch.operators == old(ch.operators) - {b}
      ensures Flat() == old(Flat())[ch.name := R.Without(old(Flat())[ch.name], {b})]
      ensures old(ch.LocallyGoverned()) ==> (ch.LocallyGoverned() <==> old(ch.CanSpare(b)))
    {
      hide Flat, RoomsNamed, NicksAgree, TwoSided;
      LeaveQuietly(b, ch);
      assert ch.LocalMembers() == old(ch.LocalMembers()) - {b};
      ch.operators := ch.operators - {b};
    }

    method PartFrom(b: Client, ch: Channel)
      requires Valid() && b in live && ch in rooms && b in ch.members
      modifies this`channels, this`rooms, b`channels, ch`members, ch`operators
      ensures Valid() && Flat() == R.Leave(old(Flat()), ch.name, b, true)
      ensures b.channels == old(b.channels) - {ch} && ch.operators == old(ch.operators) - {b}
      ensures ch.members == old(ch.members) - {b}
      ensures rooms == if ch.members == {} && !ch.persistent then old(rooms) - {ch} else old(rooms)
      ensures old(ch.LocallyGoverned()) ==> (ch.LocallyGoverned() <==> old(ch.CanSpare(b)))
    {
      Registered(ch);
      R.LeaveIs(Flat(), ch.name, b, true);
      hide *;
      Unseat(b, ch);
      Registered(ch);
      CloseIfEmpty(ch, true);
    }

    /** Parting leaves every channel governed exactly if this one could spare the bot. */
    method PartGoverned(b: Client, ch: Channel)
      requires Valid() && b in live && ch in rooms && b in ch.members
      modifies this`channels, this`rooms, b`channels, ch`members, ch`operators
      ensures Valid() && Flat() == R.Leave(old(Flat()), ch.name, b, true)
      ensures b.channels == old(b.channels) - {ch} && ch.operators == old(ch.operators) - {b}
      ensures old(LocalRun()) ==> (LocalRun() <==> ch !in rooms || old(ch.CanSpare(b)))
      ensures fresh(rooms - old(rooms))
    {
      hide Flat, Valid, Channel.LocallyGoverned, Channel.CanSpare;
      PartFrom(b, ch);
    }

    /** A bot parts; no operator is promoted in its place. */
    method PartChannel(b: Client, chName: string)
      requires Valid() && b in live && b.kind == Bot
      modifies this`channels, this`rooms, b`channels, RoomsOf(chName)`members, RoomsOf(chName)`operators
      ensures Valid()
      ensures if chName in old(channels) && b in old(channels[chName].members)
              then var ch := old(channels[chName]);
                   b.channels == old(b.channels) - {ch} && ch.operators == old(channels[chName].operators) - {b}
                   && Flat() == R.Leave(old(Flat()), chName, b, true)
                   && (old(LocalRun()) ==> (LocalRun() <==> ch !in rooms || old(channels[chName].CanSpare(b))))
              else Flat() == old(Flat()) && b.channels == old(b.channels) && (old(LocalRun()) ==> LocalRun())
      ensures fresh(rooms - old(rooms))
    {
      RoomsKnown(chName);
      hide *;
      if chName in channels && b in channels[chName].members {
        PartGoverned(b, channels[chName]);
      }
    }

    // -------------------------------------------------------------- channel modes

    /** The local clients and bots a MODE on `ch` can name, by nick. */
    function Present(ch: Channel): map<string, Client>
      reads this, ch
    {
      map n | n in clients && clients[n] in ch.members :: clients[n]
    }

    /** MODE by `c`: refused, changing nothing, unless `c` is an operator of the channel. */
    method HandleChannelMode(c: Client, chName: string, modestring: string, params: seq<string>)
      returns (applied: string, appliedParams: seq<string>)
      requires Valid() && c in live
      modifies RoomsOf(chName)`operators, RoomsOf(chName)`voiced, RoomsOf(chName)`restricted, RoomsOf(chName)`sharedWith
      ensures Valid()
      ensures chName in channels && c in old(channels[chName].operators) ==>
        var ch := channels[chName];
        ch.Executed(ApplyModes(Present(ch), Start(old(ch.Flags()), params), modestring), applied, appliedParams)
      ensures !(chName in channels && c in old(channels[chName].operators)) ==>
        applied == "" && (chName in channels ==> unchanged(channels[chName]))
      ensures old(LocalRun()) ==> LocalRun()
    {
      applied, appliedParams := "", [];
      if chName in channels && c in channels[chName].operators {
        var ch := channels[chName];
        applied, appliedParams := ch.ExecuteMode(Present(ch), modestring, params);
      }
    }
  }

  /** A server linked to a peer of which it has a ghost. */
  method LinkedWithGhost() returns (s: IRCd, good: Link, ghost rc: Client)
    ensures s.Valid() && fresh(s) && fresh(rc) && s.name == "spark" && good.peerName == "thor"
    ensures s.links == map["thor" := good] && s.remoteClients == map["thor-ori" := rc] && s.live == {rc}
      && s.rooms == {}
    ensures LinksOk(s.live, s.links) && rc.kind == Ghost && rc.link == good
  {
    s := new IRCd("spark");
    good := new Link("thor", false);
    NoLinks();
    OriIsThors();
    hide *;
    var ok := s.CompleteHandshake(good, true);
    assert s.links == map["thor" := good];
    NamedPrefix(good);
    s.HandleSnick(good, "thor-ori");
    rc := s.remoteClients["thor-ori"];
    OneGhost(s.links, good, rc);
  }

  lemma NoLinks()
    ensures LinksOk({}, map[])
  {
  }

  lemma NamedPrefix(link: Link)
    ensures link.named ==> link.NickPrefix() == link.peerName + "-"
    ensures link.peerName != "" ==> link.NickPrefix() == link.peerName + "-"
  {
  }

  lemma OriIsThors()
    ensures StartsWith("thor-ori", "thor" + "-") && !StartsWith("thor-ori", "system-")
  {
    assert "thor-ori"[..5] == "thor" + "-" && "thor-ori"[..7][0] != "system-"[0];
  }

  lemma OneGhost(links: map<string, Link>, good: Link, rc: Client)
    ensures links == map["thor" := good] && good.peerName == "thor" && rc.kind == Ghost && rc.link == good ==>
      LinksOk({rc}, links)
  {
  }

  /**
   * A peer is linked and has a ghost here. A second connection in its name is refused, and in closing takes
   * the registration of the good link with it: the ghost stays, and nothing will be told to its peer.
   */
  method RefusedDuplicateUnlinks() returns (s: IRCd, ok: bool)
    ensures !ok && s.Valid() && s.links == map[] && "thor-ori" in s.remoteClients && !LinksOk(s.live, s.links)
  {
    var good;
    ghost var rc;
    s, good, rc := LinkedWithGhost();
    var second := new Link("thor", false);
    hide *;
    ok := s.CompleteHandshake(second, true);
    Stranded(s, good, second, rc);
    s.RemoveLink(second);
    Stranded(s, good, second, rc);
  }

  lemma Stranded(s: IRCd, good: Link, second: Link, rc: Client)
    requires good.peerName == second.peerName == "thor" && good != second && rc.link == good && rc.kind == Ghost
    ensures LinksWithout(map["thor" := good], second) == map[]
    ensures s.live == {rc} ==> s.Over(second) == {} && GhostsOver(s.live, second) == {}
    ensures rc in s.live && s.links == map[] ==> !LinksOk(s.live, s.links)
  {
    assert map["thor" := good] - {"thor"} == map[];
  }
}
