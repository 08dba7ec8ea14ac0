/**
 * The server's objects refine the server as a value: every handler that updates clients, ghosts and
 * channels in place changes the abstract server exactly as the functions on values say.
 */
module Refinement {
  import opened Text
  import opened Membership
  import R = Rooms
  import S = Servers
  import A = ArchiveNames

  // ---------------------------------------------------------------- the abstract server

  function Abs(c: Client): S.Member
    reads c`nick
  {
    match c.kind
    case Local => S.Local(c.nick)
    case Bot => S.Bot(c.nick)
    case Ghost => S.Ghost(c.nick)
  }

  /** What everybody on the server is called. */
  ghost function Names(s: IRCd): map<Client, S.Member>
    reads s`live, s.live`nick
  {
    map c | c in s.live :: Abs(c)
  }

  function BotsOf(names: map<Client, S.Member>): set<string> {
    set c | c in names && names[c].Bot? :: names[c].nick
  }

  /** Ghosts by nick, with the peers they belong to. */
  function RemotesOf(ghosts: map<string, Client>): map<string, string> {
    map n | n in ghosts && ghosts[n].link != null :: ghosts[n].link.peerName
  }

  /** A link object as the connection it is. */
  function ConnOf(link: Link): S.Conn { S.Conn(link.Name(), Trust(link)) }

  function Trust(link: Link): string { if link.restricted then "restricted" else "full" }

  /** The connected clients; the server's own user is listed with them but is one of the bots. */
  function LocalsOf(clients: map<string, Client>): set<string> {
    set n | n in clients && clients[n].kind == Local
  }

  function Trusts(links: map<string, Link>): map<string, string> { map p | p in links :: Trust(links[p]) }

  /** The server as a value. */
  ghost function View(s: IRCd): S.Server
    reads s, s.live, s.channels.Values
  {
    S.Server(s.name, LocalsOf(s.clients), BotsOf(Names(s)), RemotesOf(s.remoteClients),
             R.AllRenamed(s.Flat(), Names(s)), Trusts(s.links))
  }

  lemma ViewParts(s: IRCd)
    ensures View(s) == S.Server(
      s.name, LocalsOf(s.clients), BotsOf(Names(s)), RemotesOf(s.remoteClients),
      R.AllRenamed(s.Flat(), Names(s)), Trusts(s.links))
  {
  }

  /** Registration is one step and only registered clients are on channels; bots have names of their own. */
  ghost predicate Proper(s: IRCd)
    reads s`live, s`clients, s.live`nick, s.live`registered, s.live`channels
  {
    Seated(s) && BotsDiffer(Names(s)) && SystemNamed(s.clients) && CameOver(s.live)
  }

  ghost predicate Seated(s: IRCd)
    reads s`live, s.live`nick, s.live`registered, s.live`channels
  {
    forall c :: c in s.live && c.kind == Local ==>
      (c.registered <==> c.nick != "") && (c.channels != {} ==> c.registered)
  }

  /** Every ghost came over some link. */
  predicate CameOver(live: set<Client>) {
    forall c :: c in live && c.kind == Ghost ==> c.link != null
  }

  lemma CameOverStays(live: set<Client>, gone: set<Client>)
    requires CameOver(live)
    ensures CameOver(live - gone)
    ensures forall rc: Client :: rc.link != null ==> CameOver(live + {rc})
  {
  }

  ghost predicate BotsDiffer(names: map<Client, S.Member>) {
    forall b, d :: b in names && d in names && names[b].Bot? && names[b] == names[d] ==> b == d
  }

  /** Only the server's own user, whose nick nobody can take, is listed with the connected clients. */
  predicate SystemNamed(clients: map<string, Client>) {
    forall n :: n in clients && clients[n].kind != Local ==> StartsWith(n, "system-")
  }

  lemma ProperParts(s: IRCd)
    ensures Proper(s) <==>
      && BotsDiffer(Names(s)) && SystemNamed(s.clients) && CameOver(s.live)
      && (forall c :: c in s.live && c.kind == Local ==>
        (c.registered <==> c.nick != "") && (c.channels != {} ==> c.registered))
  {
  }

  /** Bots are kept apart by the check made when one is started. */
  lemma BotsKeptApart(s: IRCd)
    requires s.BotsAgree()
    ensures BotsDiffer(Names(s))
  {
    forall b, d | b in s.live && d in s.live && b.kind == Bot && d.kind == Bot && Abs(b) == Abs(d) ensures b == d {
      assert b.nick in s.bots || b.nick in s.clients;
    }
  }

  /** A registered client is the one its nick leads to. */
  lemma NickKnown(s: IRCd, c: Client)
    requires s.Valid() && Proper(s) && c in s.live && c.kind == Local && c.registered
    ensures c.nick in s.clients && s.clients[c.nick] == c && c.nick != "" && c.nick in View(s).clients
  {
  }

  lemma LinksStay(live: set<Client>, links: map<string, Link>, gone: set<Client>)
    ensures LinksOk(live, links) ==> LinksOk(live - gone, links)
  {
  }

  /** The names tell members of channels apart from everybody else. */
  lemma NamesTell(s: IRCd, ms: set<Client>)
    requires s.Valid() && Proper(s) && ms <= s.live && forall c :: c in ms ==> c.kind == Local ==> c.nick != ""
    ensures R.TellsApart(Names(s), ms)
  {
  }

  lemma MembersTold(s: IRCd)
    requires s.Valid() && Proper(s)
    ensures R.AllTold(s.Flat(), Names(s))
  {
    forall n | n in s.channels ensures R.TellsApart(Names(s), s.channels[n].members) {
      var ch := s.channels[n];
      forall c | c in ch.members ensures c in s.live && (c.kind == Local ==> c.nick != "") {
        assert ch in c.channels;
      }
      NamesTell(s, ch.members);
    }
  }

  lemma NamesAre(s: IRCd)
    ensures Names(s).Keys == s.live && forall c :: c in s.live ==> Names(s)[c] == Abs(c)
  {
  }

  lemma NamesLeft(s: IRCd, names: map<Client, S.Member>, gone: set<Client>)
    requires s.live == names.Keys - gone && forall c :: c in s.live ==> names[c] == Abs(c)
    ensures Names(s) == names - gone && forall c :: c in s.live ==> c in names && names[c] == Abs(c)
  {
  }

  lemma AbsIs(c: Client)
    ensures Abs(c) == match c.kind case Local => S.Local(c.nick) case Bot => S.Bot(c.nick) case Ghost => S.Ghost(c.nick)
  {
  }

  /** Channels list live clients only, so what others are called does not matter. */
  lemma OnlyMembersCount(s: IRCd, names: map<Client, S.Member>)
    requires s.Valid() && forall c :: c in s.live ==> c in names && names[c] == Abs(c)
    ensures R.AllRenamed(s.Flat(), names) == R.AllRenamed(s.Flat(), Names(s))
  {
    forall ch | ch in s.Flat()
      ensures R.Image(s.Flat()[ch].members, names) == R.Image(s.Flat()[ch].members, Names(s))
    {
      assert s.channels[ch] in s.rooms;
    }
  }

  // ---------------------------------------------------------------- the commands under the clients' names

  /** A channel lists a client's name exactly when it lists the client. */
  lemma MemberNamed<T, U>(ch: R.Channel<T>, names: map<T, U>, m: T)
    requires R.TellsApart(names, ch.members) && m in names
    ensures names[m] in R.Renamed(ch, names).members <==> m in ch.members
  {
  }

  /** `v` is the abstract server whose channels `flat` lists members called `names`. */
  ghost predicate Shows(v: S.Server, flat: map<string, R.Channel<Client>>, names: map<Client, S.Member>) {
    v.channels == R.AllRenamed(flat, names) && R.AllTold(flat, names)
  }

  lemma DoJoin(v: S.Server, flat: map<string, R.Channel<Client>>, names: map<Client, S.Member>, c: Client, n: string,
               chName: string)
    requires Shows(v, flat, names) && c in names && names[c] == S.Local(n) && n in v.clients
    ensures S.Do(v, S.Join(n, chName)) ==
      if StartsWith(chName, "#") && !(chName in flat && (flat[chName].archived || c in flat[chName].members))
      then v.(channels := R.AllRenamed(R.WithMembers(flat, chName, {c}), names)) else v
  {
    if chName in flat { MemberNamed(flat[chName], names, c); }
    R.RenamedJoin(flat, names, chName, {c});
    assert R.Image({c}, names) == {S.Local(n)};
  }

  lemma DoPart(v: S.Server, flat: map<string, R.Channel<Client>>, names: map<Client, S.Member>, c: Client, n: string,
               chName: string)
    requires Shows(v, flat, names) && c in names && names[c] == S.Local(n)
    ensures S.Do(v, S.Part(n, chName)) ==
      if chName in flat && c in flat[chName].members
      then v.(channels := R.AllRenamed(R.Leave(flat, chName, c, true), names)) else v
  {
    if chName in flat {
      MemberNamed(flat[chName], names, c);
      if c in flat[chName].members { R.RenamedLeave(flat, names, chName, c, true); }
    }
  }

  lemma DoQuit(v: S.Server, flat: map<string, R.Channel<Client>>, names: map<Client, S.Member>, c: Client, n: string)
    requires Shows(v, flat, names) && c in names && names[c] == S.Local(n) && n in v.clients
    ensures S.Do(v, S.Quit(n)) ==
      v.(clients := v.clients - {n}, channels := R.AllRenamed(R.Vacate(flat, {c}, true), names))
    ensures S.Do(v, S.Vanish(n)) == S.Do(v, S.Quit(n))
  {
    R.RenamedVacate(flat, names, {c}, true);
    assert R.Image({c}, names) == {S.Local(n)};
  }

  // ---------------------------------------------------------------- local commands

  /** JOIN. */
  method Join(s: IRCd, c: Client, chName: string, admitted: bool)
    requires s.Valid() && Proper(s) && c in s.live && c.kind == Local && c.registered
    modifies s`channels, s`rooms, c`channels, s.RoomsOf(chName)`members, s.RoomsOf(chName)`operators
    ensures s.Valid() && Proper(s)
    ensures View(s) == if admitted then S.Do(old(View(s)), S.Join(c.nick, chName)) else old(View(s))
  {
    hide *;
    ViewParts(s);
    ProperParts(s);
    NamesAre(s);
    AbsIs(c);
    NickKnown(s, c);
    s.FlatAt(chName);
    MembersTold(s);
    EntersIs(s, c, chName, admitted);
    ShowsIs(View(s), s.Flat(), Names(s));
    DoJoin(View(s), s.Flat(), Names(s), c, c.nick, chName);
    s.HandleJoin(c, chName, admitted);
    ViewParts(s);
    ProperParts(s);
  }

  lemma ShowsIs(v: S.Server, flat: map<string, R.Channel<Client>>, names: map<Client, S.Member>)
    requires v.channels == R.AllRenamed(flat, names) && R.AllTold(flat, names)
    ensures Shows(v, flat, names)
  {
  }

  lemma EntersIs(s: IRCd, c: Client, chName: string, admitted: bool)
    ensures s.Enters(c, chName, admitted) <==>
      c.registered && StartsWith(chName, "#") && admitted
      && !(chName in s.Flat() && (s.Flat()[chName].archived || c in s.Flat()[chName].members))
  {
  }

  /** PART. */
  method Part(s: IRCd, c: Client, chName: string)
    requires s.Valid() && Proper(s) && c in s.live && c.kind == Local && c.registered
    modifies s`channels, s`rooms, c`channels
    modifies s.RoomsOf(chName)`members, s.RoomsOf(chName)`operators, s.RoomsOf(chName)`voiced
    ensures s.Valid() && Proper(s)
    ensures View(s) == S.Do(old(View(s)), S.Part(c.nick, chName))
  {
    hide *;
    ViewParts(s);
    ProperParts(s);
    NamesAre(s);
    AbsIs(c);
    s.FlatAt(chName);
    MembersTold(s);
    ShowsIs(View(s), s.Flat(), Names(s));
    DoPart(View(s), s.Flat(), Names(s), c, c.nick, chName);
    var ok := s.HandlePart(c, chName);
    ViewParts(s);
    ProperParts(s);
  }

  /** The loss of a client's connection, by QUIT or without. */
  method Remove(s: IRCd, c: Client)
    requires s.Valid() && Proper(s) && c in s.live && c.kind == Local && c.registered
    modifies s`clients, s`channels, s`rooms, s`live, c`channels
    modifies c.channels`members, c.channels`operators, c.channels`voiced
    ensures s.Valid() && Proper(s)
    ensures View(s) == S.Do(old(View(s)), S.Quit(c.nick)) == S.Do(old(View(s)), S.Vanish(c.nick))
  {
    hide *;
    ViewParts(s);
    ProperParts(s);
    NamesAre(s);
    AbsIs(c);
    NickKnown(s, c);
    MembersTold(s);
    ShowsIs(View(s), s.Flat(), Names(s));
    DoQuit(View(s), s.Flat(), Names(s), c, c.nick);
    ghost var view, names := View(s), Names(s);
    LocalsStay(s.clients, c.nick, c.nick, c);
    CameOverStays(s.live, {c});
    s.RemoveClient(c);
    assert LocalsOf(s.clients) == view.clients - {c.nick};
    NamesLeft(s, names, {c});
    BotsStay(names, {c}, c, names[c]);
    OnlyMembersCount(s, names);
    ViewParts(s);
    ProperParts(s);
  }

  /** Bots are not affected by what happens to others. */
  lemma BotsStay(names: map<Client, S.Member>, gone: set<Client>, c: Client, m: S.Member)
    requires BotsDiffer(names) && forall d :: d in gone && d in names ==> !names[d].Bot?
    ensures BotsOf(names - gone) == BotsOf(names) && BotsDiffer(names - gone)
    ensures !m.Bot? && (c in names ==> !names[c].Bot?) ==>
      BotsOf(names[c := m]) == BotsOf(names) && BotsDiffer(names[c := m])
  {
    var names' := names[c := m];
    if !m.Bot? && (c in names ==> !names[c].Bot?) {
      assert forall d :: d in names && names[d].Bot? ==> d in names' && names'[d] == names[d];
    }
    assert forall d :: d in names && names[d].Bot? ==> d in names - gone;
  }

  lemma LocalsStay(clients: map<string, Client>, old': string, nick: string, c: Client)
    requires SystemNamed(clients) && c.kind == Local
    ensures SystemNamed(clients - {old'}) && SystemNamed((clients - {old'})[nick := c])
    ensures LocalsOf(clients - {old'}) == LocalsOf(clients) - {old'}
    ensures LocalsOf((clients - {old'})[nick := c]) == LocalsOf(clients) - {old'} + {nick}
  {
  }

  // ---------------------------------------------------------------- nicks

  lemma DoRename(v: S.Server, flat: map<string, R.Channel<Client>>, names: map<Client, S.Member>, c: Client, n: string,
                 n': string)
    requires Shows(v, flat, names) && c in names && names[c] == S.Local(n) && n in v.clients && S.FreeNick(v, n')
    ensures S.Do(v, S.Rename(n, n')) ==
      v.(clients := v.clients - {n} + {n'}, channels := R.AllRenamed(flat, names[c := S.Local(n')]))
  {
    forall ch | ch in flat
      ensures S.WithNick(R.Renamed(flat[ch], names), n, n') == R.Renamed(flat[ch], names[c := S.Local(n')])
    {
      ChannelRenamed(flat[ch], names, c, n, n');
    }
    hide S.WithNick, R.Renamed, R.TellsApart;
  }

  /** In one channel the new name takes the place of the old. */
  lemma ChannelRenamed(ch: R.Channel<Client>, names: map<Client, S.Member>, c: Client, n: string, n': string)
    requires R.TellsApart(names, ch.members) && c in names && names[c] == S.Local(n)
    ensures S.WithNick(R.Renamed(ch, names), n, n') == R.Renamed(ch, names[c := S.Local(n')])
  {
    var ms, names' := ch.members, names[c := S.Local(n')];
    MemberNamed(ch, names, c);
    assert forall m :: m in ms && m != c ==> names'[m] == names[m] && names[m] != S.Local(n);
    assert R.Image(ms, names') == R.Image(ms - {c}, names) + (if c in ms then {S.Local(n')} else {});
    R.ImageMinus(ms, {c}, names);
    assert R.Image({c}, names) == {S.Local(n)};
  }

  lemma FreeIs(s: IRCd, nick: string)
    requires SystemNamed(s.clients)
    ensures s.LegalNick(nick) <==> S.FreeNick(View(s), nick)
    ensures s.LegalNick(nick) ==> nick != "" && nick !in s.clients
  {
  }

  /** NICK by a registered client. */
  method Rename(s: IRCd, c: Client, nick: string)
    requires s.Valid() && Proper(s) && c in s.live && c.kind == Local && c.registered
    modifies s`clients, c`nick
    ensures s.Valid() && Proper(s)
    ensures View(s) == S.Do(old(View(s)), S.Rename(old(c.nick), nick))
  {
    hide *;
    ViewParts(s);
    ProperParts(s);
    NamesAre(s);
    AbsIs(c);
    NickKnown(s, c);
    MembersTold(s);
    ShowsIs(View(s), s.Flat(), Names(s));
    FreeIs(s, nick);
    ghost var view, names, old' := View(s), Names(s), c.nick;
    if S.FreeNick(view, nick) {
      DoRename(view, s.Flat(), names, c, c.nick, nick);
    } else {
      Refused(view, c.nick, nick);
    }
    LocalsStay(s.clients, c.nick, nick, c);
    var ok := s.HandleNick(c, nick);
    NamesAre(s);
    AbsIs(c);
    ViewParts(s);
    ProperParts(s);
    assert Names(s) == if ok then names[c := S.Local(nick)] else names;
    BotsStay(names, {}, c, S.Local(nick));
    assert LocalsOf(s.clients) == if ok then view.clients - {old'} + {nick} else view.clients;
  }

  lemma Refused(v: S.Server, n: string, n': string)
    requires !S.FreeNick(v, n')
    ensures S.Do(v, S.Rename(n, n')) == v == S.Do(v, S.Register(n'))
  {
  }

  lemma DoRegister(v: S.Server, n: string)
    requires S.FreeNick(v, n)
    ensures S.Do(v, S.Register(n)) == v.(clients := v.clients + {n})
  {
  }

  /** NICK and USER by a fresh connection. */
  method Register(s: IRCd, c: Client, nick: string)
    requires s.Valid() && Proper(s) && c in s.live && c.kind == Local && !c.registered
    modifies s`clients, c`nick, c`registered
    ensures s.Valid() && Proper(s)
    ensures View(s) == S.Do(old(View(s)), S.Register(nick))
  {
    hide *;
    ViewParts(s);
    ProperParts(s);
    NamesAre(s);
    AbsIs(c);
    FreeIs(s, nick);
    NotSeated(s, c);
    ghost var view, names := View(s), Names(s);
    if S.FreeNick(view, nick) {
      DoRegister(view, nick);
    } else {
      Refused(view, c.nick, nick);
    }
    LocalsStay(s.clients, c.nick, nick, c);
    var ok := s.HandleNick(c, nick);
    if ok {
      c.registered := true;
    }
    NamesAre(s);
    AbsIs(c);
    assert Names(s) == if ok then names[c := S.Local(nick)] else names;
    BotsStay(names, {}, c, S.Local(nick));
    NobodyLists(s, c, names);
    ViewParts(s);
    ProperParts(s);
    assert LocalsOf(s.clients) == if ok then view.clients + {nick} else view.clients;
  }

  lemma NotSeated(s: IRCd, c: Client)
    requires s.Valid() && Proper(s) && c in s.live && c.kind == Local && !c.registered
    ensures c.nick == "" && "" !in s.clients && "" !in View(s).clients && c.channels == {}
  {
  }

  /** A client on no channel can be called anything. */
  lemma NobodyLists(s: IRCd, c: Client, names: map<Client, S.Member>)
    requires s.Valid() && c in s.live && c.channels == {}
    requires forall d :: d in s.live && d != c ==> d in names && names[d] == Abs(d)
    ensures R.AllRenamed(s.Flat(), names) == R.AllRenamed(s.Flat(), Names(s))
  {
    forall ch | ch in s.Flat()
      ensures R.Image(s.Flat()[ch].members, names) == R.Image(s.Flat()[ch].members, Names(s))
    {
      assert s.channels[ch] in s.rooms && c !in s.channels[ch].members;
    }
  }

  // ---------------------------------------------------------------- lines from peers

  /** The ghosts of the abstract server are those of the objects. */
  lemma RemotesAre(s: IRCd)
    requires s.Valid() && CameOver(s.live)
    ensures RemotesOf(s.remoteClients).Keys == s.remoteClients.Keys
    ensures forall n :: n in s.remoteClients ==>
      && s.remoteClients[n] in s.live && s.remoteClients[n].kind == Ghost && s.remoteClients[n].nick == n
      && s.remoteClients[n].link != null && RemotesOf(s.remoteClients)[n] == s.remoteClients[n].link.peerName
    ensures forall c :: c in s.live && c.kind == Ghost ==> c.nick in s.remoteClients && s.remoteClients[c.nick] == c
  {
  }

  lemma RemotesPut(ghosts: map<string, Client>, n: string, rc: Client)
    requires rc.link != null
    ensures RemotesOf(ghosts[n := rc]) == RemotesOf(ghosts)[n := rc.link.peerName]
    ensures RemotesOf(ghosts - {n}) == RemotesOf(ghosts) - {n}
  {
  }

  lemma TrustIs(s: IRCd, link: Link, chName: string)
    ensures s.Trusts(link, chName) <==> S.Accepts(View(s), ConnOf(link), chName)
    ensures link.NickPrefix() == S.NickPrefix(ConnOf(link)) && link.peerName == S.PeerName(ConnOf(link))
  {
  }

  lemma KnownIs(s: IRCd, nicks: seq<string>)
    requires s.Valid() && CameOver(s.live)
    ensures s.Known(nicks) <= s.live && forall c :: c in s.Known(nicks) ==> c.kind == Ghost
    ensures R.Image(s.Known(nicks), Names(s)) == S.KnownGhosts(View(s), nicks)
  {
    RemotesAre(s);
    forall n | n in nicks && n in s.remoteClients ensures S.Ghost(n) in R.Image(s.Known(nicks), Names(s)) {
      assert s.remoteClients[n] in s.Known(nicks);
    }
  }

  /** One ghost. */
  lemma EntryIs(s: IRCd, nick: string)
    requires s.Valid() && CameOver(s.live)
    ensures s.Entry(nick) == if nick in s.remoteClients then {s.remoteClients[nick]} else {}
    ensures nick in RemotesOf(s.remoteClients) <==> nick in s.remoteClients
    ensures nick in s.remoteClients ==>
      var rc := s.remoteClients[nick];
      rc in s.live && rc.kind == Ghost && rc.link != null && Names(s)[rc] == S.Ghost(nick)
  {
  }

  lemma ReceiveNick(v: S.Server, c: S.Conn, n: string)
    ensures S.Receive(v, c, S.SNick(n)) ==
      if StartsWith(n, "system-") || !StartsWith(n, S.NickPrefix(c)) || n in v.clients || n in v.remotes then v
      else v.(remotes := v.remotes[n := S.PeerName(c)])
  {
  }

  lemma ReceiveJoin(v: S.Server, flat: map<string, R.Channel<Client>>, names: map<Client, S.Member>, c: S.Conn,
                    chName: string, nicks: seq<string>, known: set<Client>)
    requires Shows(v, flat, names) && R.Image(known, names) == S.KnownGhosts(v, nicks)
    ensures S.Receive(v, c, S.SJoin(chName, nicks)) ==
      if S.Accepts(v, c, chName) then v.(channels := R.AllRenamed(R.WithMembers(flat, chName, known), names)) else v
  {
    R.RenamedJoin(flat, names, chName, known);
  }

  lemma ReceivePart(v: S.Server, flat: map<string, R.Channel<Client>>, names: map<Client, S.Member>, c: S.Conn,
                    chName: string, n: string, rc: Client)
    requires Shows(v, flat, names) && rc in names && names[rc] == S.Ghost(n)
    ensures S.Receive(v, c, S.SPart(chName, n)) ==
      if n in v.remotes && chName in flat && S.Accepts(v, c, chName)
      then v.(channels := R.AllRenamed(R.Leave(flat, chName, rc, false), names)) else v
  {
    if chName in flat { R.RenamedLeave(flat, names, chName, rc, false); }
  }

  lemma ReceiveQuit(v: S.Server, flat: map<string, R.Channel<Client>>, names: map<Client, S.Member>, c: S.Conn,
                    n: string, rc: Client)
    requires Shows(v, flat, names) && rc in names && names[rc] == S.Ghost(n) && n in v.remotes
    ensures S.Receive(v, c, S.SQuitUser(n)) ==
      v.(remotes := v.remotes - {n}, channels := R.AllRenamed(R.Vacate(flat, {rc}, false), names))
  {
    R.RenamedVacate(flat, names, {rc}, false);
    assert R.Image({rc}, names) == {S.Ghost(n)};
  }

  lemma ReceiveUnknown(v: S.Server, c: S.Conn, chName: string, n: string)
    requires n !in v.remotes
    ensures S.Receive(v, c, S.SQuitUser(n)) == v == S.Receive(v, c, S.SPart(chName, n))
  {
  }

  /** A nick a peer may announce is known here just if a connected client has it. */
  lemma NickTaken(s: IRCd, nick: string)
    requires SystemNamed(s.clients) && !StartsWith(nick, "system-")
    ensures nick in s.clients <==> nick in View(s).clients
  {
  }

  /** A new ghost is on no channel and changes nothing else. */
  lemma GhostCame(s: IRCd, rc: Client, names: map<Client, S.Member>)
    requires s.Valid() && rc in s.live && rc.kind == Ghost && rc.link != null && rc.channels == {}
    requires rc !in names && s.live == names.Keys + {rc} && forall c :: c in names ==> names[c] == Abs(c)
    requires BotsDiffer(names) && CameOver(names.Keys)
    ensures CameOver(s.live) && BotsDiffer(Names(s)) && BotsOf(Names(s)) == BotsOf(names)
    ensures R.AllRenamed(s.Flat(), Names(s)) == R.AllRenamed(s.Flat(), names)
  {
    hide *;
    AbsIs(rc);
    NamesAre(s);
    CameOverStays(names.Keys, {});
    assert Names(s) == names[rc := S.Ghost(rc.nick)];
    BotsStay(names, {}, rc, S.Ghost(rc.nick));
    NobodyLists(s, rc, names);
  }

  /** SNICK. */
  method Snick(s: IRCd, link: Link, nick: string)
    requires s.Valid() && Proper(s)
    modifies s`remoteClients, s`live
    ensures s.Valid() && Proper(s)
    ensures old(LinksOk(s.live, s.links)) ==>
      (LinksOk(s.live, s.links) <==> s.live == old(s.live) || IsRegistered(s.links, link))
    ensures View(s) == S.Receive(old(View(s)), ConnOf(link), S.SNick(nick))
  {
    hide *;
    ViewParts(s);
    ProperParts(s);
    NamesAre(s);
    EntryIs(s, nick);
    ghost var view, names := View(s), Names(s);
    TrustIs(s, link, "");
    ReceiveNick(view, ConnOf(link), nick);
    if !StartsWith(nick, "system-") { NickTaken(s, nick); }
    ghost var ghosts := s.remoteClients;
    s.HandleSnick(link, nick);
    ViewParts(s);
    if s.live != names.Keys {
      var rc := s.remoteClients[nick];
      GhostCame(s, rc, names);
      ProperParts(s);
      RemotesPut(ghosts, nick, rc);
    }
  }

  /** SJOIN. */
  method Sjoin(s: IRCd, link: Link, chName: string, nicks: seq<string>)
    requires s.Valid() && Proper(s)
    modifies s`channels, s`rooms, s.RoomsOf(chName)`members, s.Known(nicks)`channels
    ensures s.Valid() && Proper(s) && (old(LinksOk(s.live, s.links)) ==> LinksOk(s.live, s.links))
    ensures View(s) == S.Receive(old(View(s)), ConnOf(link), S.SJoin(chName, nicks))
  {
    hide *;
    ViewParts(s);
    ProperParts(s);
    MembersTold(s);
    KnownIs(s, nicks);
    TrustIs(s, link, chName);
    ShowsIs(View(s), s.Flat(), Names(s));
    ReceiveJoin(View(s), s.Flat(), Names(s), ConnOf(link), chName, nicks, s.Known(nicks));
    s.HandleSjoin(link, chName, nicks);
    ViewParts(s);
    ProperParts(s);
  }

  /** SPART. */
  method Spart(s: IRCd, link: Link, chName: string, nick: string)
    requires s.Valid() && Proper(s)
    modifies s`channels, s`rooms, s.RoomsOf(chName)`members, s.Entry(nick)`channels
    ensures s.Valid() && Proper(s) && (old(LinksOk(s.live, s.links)) ==> LinksOk(s.live, s.links))
    ensures View(s) == S.Receive(old(View(s)), ConnOf(link), S.SPart(chName, nick))
  {
    hide *;
    ViewParts(s);
    ProperParts(s);
    NamesAre(s);
    EntryIs(s, nick);
    MembersTold(s);
    s.FlatAt(chName);
    TrustIs(s, link, chName);
    ShowsIs(View(s), s.Flat(), Names(s));
    if nick in s.remoteClients {
      ReceivePart(View(s), s.Flat(), Names(s), ConnOf(link), chName, nick, s.remoteClients[nick]);
    } else {
      ReceiveUnknown(View(s), ConnOf(link), chName, nick);
    }
    s.HandleSpart(link, chName, nick);
    ViewParts(s);
    ProperParts(s);
  }

  /** SQUITUSER for a ghost there is. */
  method KnownGhostQuits(s: IRCd, link: Link, nick: string)
    requires s.Valid() && Proper(s)
    requires nick in s.remoteClients
    modifies s`remoteClients, s`channels, s`rooms, s`live, s.Entry(nick)`channels
    modifies s.rooms`members, s.rooms`operators, s.rooms`voiced
    ensures s.Valid() && Proper(s) && (old(LinksOk(s.live, s.links)) ==> LinksOk(s.live, s.links))
    ensures View(s) == S.Receive(old(View(s)), ConnOf(link), S.SQuitUser(nick))
  {
    hide *;
    ViewParts(s);
    ProperParts(s);
    NamesAre(s);
    EntryIs(s, nick);
    MembersTold(s);
    TrustIs(s, link, "");
    ShowsIs(View(s), s.Flat(), Names(s));
    ghost var names, ghosts, rc := Names(s), s.remoteClients, s.remoteClients[nick];
    ReceiveQuit(View(s), s.Flat(), names, ConnOf(link), nick, rc);
    RemotesPut(ghosts, nick, rc);
    BotsStay(names, {rc}, rc, names[rc]);
    LinksStay(s.live, s.links, {rc});
    CameOverStays(s.live, {rc});
    s.HandleSquituser(nick);
    NamesLeft(s, names, {rc});
    OnlyMembersCount(s, names);
    ViewParts(s);
    ProperParts(s);
  }

  /** SQUITUSER. */
  method Squituser(s: IRCd, link: Link, nick: string)
    requires s.Valid() && Proper(s)
    modifies s`remoteClients, s`channels, s`rooms, s`live, s.Entry(nick)`channels
    modifies s.rooms`members, s.rooms`operators, s.rooms`voiced
    ensures s.Valid() && Proper(s) && (old(LinksOk(s.live, s.links)) ==> LinksOk(s.live, s.links))
    ensures View(s) == S.Receive(old(View(s)), ConnOf(link), S.SQuitUser(nick))
  {
    hide *;
    if nick in s.remoteClients {
      KnownGhostQuits(s, link, nick);
    } else {
      ProperParts(s);
      EntryIs(s, nick);
      ViewParts(s);
      TrustIs(s, link, "");
      ReceiveUnknown(View(s), ConnOf(link), "", nick);
      s.HandleSquituser(nick);
      ViewParts(s);
    }
  }

  lemma ReceiveMeta(v: S.Server, flat: map<string, R.Channel<Client>>, names: map<Client, S.Member>, c: S.Conn,
                    chName: string, persistent: bool)
    requires Shows(v, flat, names)
    ensures S.Receive(v, c, S.SRoomMeta(chName, persistent)) ==
      if chName in flat && (v.channels[chName].restricted || !S.Shared(c, v.channels[chName])) then v
      else v.(channels := R.AllRenamed(flat[chName := R.ChannelOr(flat, chName).(persistent := persistent)], names))
  {
    assert R.Image<Client, S.Member>({}, names) == {};
  }

  lemma HeedsIs(s: IRCd, link: Link, chName: string)
    ensures chName in s.channels ==> chName in View(s).channels
    ensures chName in s.channels ==>
      (s.Heeds(link, s.channels[chName]) <==>
       !View(s).channels[chName].restricted && S.Shared(ConnOf(link), View(s).channels[chName]))
  {
  }

  /** SROOMMETA. */
  method Sroommeta(s: IRCd, link: Link, chName: string, persistent: bool)
    requires s.Valid() && Proper(s)
    modifies s`channels, s`rooms, s.RoomsOf(chName)`persistent
    ensures s.Valid() && Proper(s)
    ensures View(s) == S.Receive(old(View(s)), ConnOf(link), S.SRoomMeta(chName, persistent))
  {
    hide *;
    ViewParts(s);
    ProperParts(s);
    MembersTold(s);
    s.FlatAt(chName);
    HeedsIs(s, link, chName);
    ShowsIs(View(s), s.Flat(), Names(s));
    ReceiveMeta(View(s), s.Flat(), Names(s), ConnOf(link), chName, persistent);
    s.HandleSroommeta(link, chName, persistent);
    ViewParts(s);
    ProperParts(s);
  }

  lemma DisconnectIs(v: S.Server, flat: map<string, R.Channel<Client>>, names: map<Client, S.Member>, peer: string,
                     gone: set<Client>)
    requires Shows(v, flat, names) && gone <= names.Keys && R.Image(gone, names) == S.GhostsOf(v, peer)
    ensures S.Disconnect(v, peer) == v.(
      links := v.links - {peer},
      remotes := (map n | n in v.remotes && v.remotes[n] != peer :: v.remotes[n]),
      channels := R.AllRenamed(R.Vacate(flat, gone, false), names))
  {
    R.RenamedVacate(flat, names, gone, false);
  }

  lemma OverIs(s: IRCd, link: Link)
    requires s.Valid() && LinksOk(s.live, s.links) && IsRegistered(s.links, link)
    ensures s.Over(link) <= s.live
      && (forall c :: c in s.Over(link) <==> c in s.live && c.kind == Ghost && c.link == link)
    ensures R.Image(s.Over(link), Names(s)) == S.GhostsOf(View(s), link.peerName)
  {
    RemotesAre(s);
    var v := View(s);
    forall n | n in v.remotes && v.remotes[n] == link.peerName ensures S.Ghost(n) in R.Image(s.Over(link), Names(s)) {
      assert s.remoteClients[n] in s.Over(link);
    }
  }

  lemma RemotesLeft(s: IRCd, link: Link)
    requires s.Valid() && LinksOk(s.live, s.links) && IsRegistered(s.links, link)
    ensures var ghosts := s.remoteClients;
      RemotesOf(map n | n in ghosts && ghosts[n].link != link :: ghosts[n]) ==
      map n | n in RemotesOf(ghosts) && RemotesOf(ghosts)[n] != link.peerName :: RemotesOf(ghosts)[n]
  {
    RemotesAre(s);
  }

  lemma TrustsLeft(links: map<string, Link>, link: Link)
    requires forall p :: p in links ==> p != ""
    ensures Trusts(LinksWithout(links, link)) == Trusts(links) - {link.peerName}
  {
  }

  lemma LinkNames(live: set<Client>, links: map<string, Link>)
    requires LinksOk(live, links)
    ensures forall p :: p in links ==> p != ""
  {
  }

  /** The loss of a registered link. */
  method LinkDown(s: IRCd, link: Link)
    requires s.Valid() && Proper(s) && LinksOk(s.live, s.links) && IsRegistered(s.links, link)
    modifies s`links, s`remoteClients, s`channels, s`rooms, s`live, s.Over(link)`channels
    modifies s.rooms`members, s.rooms`operators, s.rooms`voiced
    ensures s.Valid() && Proper(s) && LinksOk(s.live, s.links)
    ensures View(s) == S.Disconnect(old(View(s)), link.peerName)
  {
    hide *;
    ViewParts(s);
    ProperParts(s);
    NamesAre(s);
    MembersTold(s);
    OverIs(s, link);
    s.OverIs(link);
    ShowsIs(View(s), s.Flat(), Names(s));
    ghost var names, gone := Names(s), s.Over(link);
    DisconnectIs(View(s), s.Flat(), names, link.peerName, gone);
    RemotesLeft(s, link);
    LinkNames(s.live, s.links);
    TrustsLeft(s.links, link);
    NobodyABot(names, gone);
    CameOverStays(s.live, gone);
    OwnDispensable(s.live, s.links, link);
    s.RemoveLink(link);
    NamesLeft(s, names, gone);
    OnlyMembersCount(s, names);
    ViewParts(s);
    ProperParts(s);
  }

  lemma OwnDispensable(live: set<Client>, links: map<string, Link>, link: Link)
    ensures IsRegistered(links, link) ==> Dispensable(live, links, link)
    ensures LinksOk(live, links) && !IsRegistered(links, link) ==> GhostsOver(live, link) == {}
  {
  }

  /**
   * The close of a link that is not registered, as after a refused handshake: no ghost goes, but whatever
   * link is registered under the name of its peer is no longer.
   */
  method RefusedDown(s: IRCd, link: Link)
    requires s.Valid() && Proper(s) && LinksOk(s.live, s.links) && !IsRegistered(s.links, link)
    modifies s`links, s`remoteClients, s`channels, s`rooms, s`live, s.Over(link)`channels
    modifies s.rooms`members, s.rooms`operators, s.rooms`voiced
    ensures s.Valid() && Proper(s) && (LinksOk(s.live, s.links) <==> old(Dispensable(s.live, s.links, link)))
    ensures View(s) == S.Unregister(old(View(s)), link.peerName)
  {
    hide *;
    ViewParts(s);
    ProperParts(s);
    NamesAre(s);
    s.OverIs(link);
    OwnDispensable(s.live, s.links, link);
    LinkNames(s.live, s.links);
    TrustsLeft(s.links, link);
    NoneLeft(s, link);
    R.VacateNobody(s.Flat(), false);
    UnregisterIs(View(s), link.peerName);
    ghost var names := Names(s);
    s.RemoveLink(link);
    NamesLeft(s, names, {});
    OnlyMembersCount(s, names);
    ViewParts(s);
    ProperParts(s);
    assert names - {} == names;
  }

  lemma UnregisterIs(v: S.Server, peer: string)
    ensures S.Unregister(v, peer) == v.(links := v.links - {peer})
  {
  }

  /** Nobody goes with a link over which nobody came. */
  lemma NoneLeft(s: IRCd, link: Link)
    requires s.Valid() && GhostsOver(s.live, link) == {}
    ensures (map n | n in s.remoteClients && s.remoteClients[n].link != link :: s.remoteClients[n]) == s.remoteClients
  {
    forall n | n in s.remoteClients ensures s.remoteClients[n].link != link {
      assert s.remoteClients[n] in s.live && s.remoteClients[n] !in GhostsOver(s.live, link);
    }
  }

  lemma NobodyABot(names: map<Client, S.Member>, gone: set<Client>)
    requires BotsDiffer(names) && forall d :: d in gone && d in names ==> names[d] == Abs(d) && d.kind == Ghost
    ensures BotsOf(names - gone) == BotsOf(names) && BotsDiffer(names - gone)
  {
    assert forall d :: d in names && names[d].Bot? ==> d in names - gone;
  }

  lemma ReceiveArchive(v: S.Server, flat: map<string, R.Channel<Client>>, names: map<Client, S.Member>, c: S.Conn,
                       chName: string, newName: string)
    requires Shows(v, flat, names)
    ensures S.Receive(v, c, S.SRoomArchive(chName, newName)) ==
      if chName in flat && S.Accepts(v, c, chName)
      then v.(channels := R.AllRenamed(R.Archived(flat, chName, newName), names)) else v
  {
    if chName in flat { R.RenamedArchive(flat, names, chName, newName); }
  }

  /**
   * SROOMARCHIVE, to whatever name. A channel that had the name is gone from the server as a value too; the
   * objects of its members still list it, so these stay consistent exactly if it had none.
   */
  method Archive(s: IRCd, link: Link, chName: string, newName: string)
    requires s.Valid() && Proper(s)
    modifies s`channels, s`rooms, s.RoomsOf(chName), s.live`channels
    ensures Proper(s) && (old(LinksOk(s.live, s.links)) ==> LinksOk(s.live, s.links))
    ensures View(s) == S.Receive(old(View(s)), ConnOf(link), S.SRoomArchive(chName, newName))
    ensures s.Valid() <==> old(!(chName in s.channels && s.Trusts(link, chName)) || s.ArchiveNameFree(chName, newName))
  {
    hide *;
    ViewParts(s);
    ProperParts(s);
    MembersTold(s);
    s.FlatAt(chName);
    TrustIs(s, link, chName);
    ShowsIs(View(s), s.Flat(), Names(s));
    ReceiveArchive(View(s), s.Flat(), Names(s), ConnOf(link), chName, newName);
    s.HandleSroomarchive(link, chName, newName);
    ViewParts(s);
    ProperParts(s);
  }

  lemma DoArchive(v: S.Server, flat: map<string, R.Channel<Client>>, names: map<Client, S.Member>, chName: string)
    requires Shows(v, flat, names)
    ensures S.Do(v, S.ArchiveRoom(chName)) ==
      if chName in flat
      then v.(channels := R.AllRenamed(R.Archived(flat, chName, A.NextArchiveName(flat.Keys, chName)), names)) else v
  {
    assert v.channels.Keys == flat.Keys;
    if chName in flat { R.RenamedArchive(flat, names, chName, A.NextArchiveName(flat.Keys, chName)); }
  }

  /** ROOMARCHIVE. */
  method ArchiveLocally(s: IRCd, chName: string, permitted: bool)
    requires s.Valid() && Proper(s)
    modifies s`channels, s`rooms, s.RoomsOf(chName), s.live`channels
    ensures s.Valid() && Proper(s)
    ensures View(s) == if permitted then S.Do(old(View(s)), S.ArchiveRoom(chName)) else old(View(s))
  {
    hide *;
    ViewParts(s);
    ProperParts(s);
    MembersTold(s);
    s.FlatAt(chName);
    SameKeys(s);
    ShowsIs(View(s), s.Flat(), Names(s));
    DoArchive(View(s), s.Flat(), Names(s), chName);
    var name := s.HandleRoomarchive(chName, permitted);
    ViewParts(s);
    ProperParts(s);
  }

  lemma SameKeys(s: IRCd)
    ensures s.Flat().Keys == s.channels.Keys
  {
  }

  // ---------------------------------------------------------------- the start

  /** A started server has its own user on the system channel, and nothing else. */
  method Start(name: string) returns (s: IRCd)
    ensures fresh(s) && s.Valid() && s.BotsAgree() && s.LocalRun() && Proper(s) && LinksOk(s.live, s.links)
    ensures View(s) == S.Server(name, {}, {SystemNick(name)}, map[],
      map["#system" := R.Channel({S.Bot(SystemNick(name))}, false, {}, true, false)], map[])
  {
    s := new IRCd(name);
    NoRooms(s);
    assert LinksOk(s.live, s.links);
    hide *;
    var b := s.BootstrapSystem();
    StartedView(s, b);
    StartedProper(s, b);
    NoGhosts(s, b);
  }

  lemma NoRooms(s: IRCd)
    ensures s.channels == map[] ==> s.Flat() == map[] && s.RoomsOf("#system") == {}
  {
  }

  lemma NoGhosts(s: IRCd, b: Client)
    ensures s.live == {b} && b.kind == Bot && s.links == map[] ==> LinksOk(s.live, s.links)
  {
  }

  lemma StartedProper(s: IRCd, b: Client)
    ensures s.live == {b} && b.kind == Bot && s.clients == map[SystemNick(s.name) := b] ==> Proper(s)
  {
    SystemNickIs(s.name);
  }

  lemma SystemRoom(flat: map<string, R.Channel<Client>>, b: Client, names: map<Client, S.Member>, m: S.Member)
    requires flat == var joined := R.WithMembers(map[], "#system", {b});
                     joined["#system" := joined["#system"].(persistent := true, archived := false)]
    requires names == map[b := m]
    ensures R.AllRenamed(flat, names) == map["#system" := R.Channel({m}, false, {}, true, false)]
  {
    var room := R.NewChannel<Client>();
    assert room.members + {b} == {b};
    assert R.WithMembers(map[], "#system", {b}) == map["#system" := R.Channel({b}, false, {}, false, false)];
    assert flat == map["#system" := R.Channel({b}, false, {}, true, false)];
    assert R.Image({b}, names) == {m};
    assert R.Renamed(flat["#system"], names) == R.Channel({m}, false, {}, true, false);
  }

  lemma StartedView(s: IRCd, b: Client)
    requires s.live == {b} && b.kind == Bot && b.nick == SystemNick(s.name) && s.links == map[]
      && s.remoteClients == map[]
    requires s.clients == map[b.nick := b]
    requires s.Flat() == var joined := R.WithMembers(map[], "#system", {b});
                         joined["#system" := joined["#system"].(persistent := true, archived := false)]
    ensures View(s) == S.Server(s.name, {}, {SystemNick(s.name)}, map[],
      map["#system" := R.Channel({S.Bot(SystemNick(s.name))}, false, {}, true, false)], map[])
  {
    var names := Names(s);
    assert names == map[b := S.Bot(b.nick)];
    assert BotsOf(names) == {b.nick} by { assert names[b].Bot?; }
    assert LocalsOf(s.clients) == {};
    SystemRoom(s.Flat(), b, names, S.Bot(b.nick));
    assert RemotesOf(s.remoteClients) == map[] && Trusts(s.links) == map[];
  }

  // ---------------------------------------------------------------- bots

  lemma DoBots(v: S.Server, flat: map<string, R.Channel<Client>>, names: map<Client, S.Member>, b: Client, n: string,
               chName: string)
    requires Shows(v, flat, names) && b in names && names[b] == S.Bot(n) && n in v.bots
    requires chName in flat && b in flat[chName].members ==> R.WithMembers(flat, chName, {b}) == flat
    ensures S.Do(v, S.BotJoin(n, chName)) == v.(channels := R.AllRenamed(R.WithMembers(flat, chName, {b}), names))
    ensures S.Do(v, S.BotPart(n, chName)) ==
      if chName in flat && b in flat[chName].members
      then v.(channels := R.AllRenamed(R.Leave(flat, chName, b, true), names)) else v
  {
    R.RenamedJoin(flat, names, chName, {b});
    assert R.Image({b}, names) == {S.Bot(n)};
    if chName in flat {
      MemberNamed(flat[chName], names, b);
      if b in flat[chName].members { R.RenamedLeave(flat, names, chName, b, true); }
    }
  }

  lemma BotKnown(s: IRCd, b: Client)
    requires b in s.live && b.kind == Bot
    ensures b in Names(s) && Names(s)[b] == S.Bot(b.nick) && b.nick in BotsOf(Names(s))
  {
  }

  /** A bot joins. */
  method BotJoin(s: IRCd, b: Client, chName: string)
    requires s.Valid() && Proper(s) && b in s.live && b.kind == Bot
    modifies s`channels, s`rooms, b`channels, s.RoomsOf(chName)`members, s.RoomsOf(chName)`operators
    ensures s.Valid() && Proper(s)
    ensures View(s) == S.Do(old(View(s)), S.BotJoin(b.nick, chName))
  {
    hide *;
    ViewParts(s);
    ProperParts(s);
    BotKnown(s, b);
    MembersTold(s);
    ShowsIs(View(s), s.Flat(), Names(s));
    if chName in s.Flat() && b in s.Flat()[chName].members { R.JoinNobody(s.Flat(), chName, {b}); }
    DoBots(View(s), s.Flat(), Names(s), b, b.nick, chName);
    s.JoinChannel(b, chName);
    ViewParts(s);
    ProperParts(s);
  }

  /** A bot parts. */
  method BotPart(s: IRCd, b: Client, chName: string)
    requires s.Valid() && Proper(s) && b in s.live && b.kind == Bot
    modifies s`channels, s`rooms, b`channels, s.RoomsOf(chName)`members, s.RoomsOf(chName)`operators
    ensures s.Valid() && Proper(s)
    ensures View(s) == S.Do(old(View(s)), S.BotPart(b.nick, chName))
  {
    hide *;
    ViewParts(s);
    ProperParts(s);
    BotKnown(s, b);
    MembersTold(s);
    s.FlatAt(chName);
    ShowsIs(View(s), s.Flat(), Names(s));
    if chName in s.Flat() && b in s.Flat()[chName].members { R.JoinNobody(s.Flat(), chName, {b}); }
    DoBots(View(s), s.Flat(), Names(s), b, b.nick, chName);
    s.PartChannel(b, chName);
    ViewParts(s);
    ProperParts(s);
  }
}
