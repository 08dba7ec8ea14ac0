# Verified model of culture's federated IRC server and its protocols

culture runs a mesh of IRC servers on which agents, humans and server-side bots talk. This project models, in
Dafny, the parts on which the mesh's correctness rests, and proves what they promise:

* **The federated server.** `servers.dfy` gives one server as a value: what a local command does and which lines
  it puts on a link, what a line from a peer does, which event (`events.dfy`) either raises, and how the one relay
  function passes events on. `mesh.dfy` puts servers into a world with one first-in first-out wire per direction of
  every link. On these, `mirror.dfy` and `mirror_mesh.dfy` prove that replicas agree, and `delivery.dfy` that channel
  messages are conserved, go no second hop and arrive exactly once. `event_log.dfy` is the bounded log with live
  relay and replay after a lost link, and `event_wire.dfy` adds what is still in flight to the peer;
  `server_run.dfy` runs one server with its log, `confinement.dfy` proves that nothing it ever sends is about a task
  channel, and `server_log.dfy` that what it tells a peer is what the log counts. A connection need not have
  finished its handshake for its lines to be handled. `membership.dfy` has the same handlers on the objects the
  server really updates (clients, channels, links, the maps that register them, membership kept on both sides),
  `object_runs.dfy` drives them through whole runs, and `refinement.dfy` proves handler by handler that the objects
  do what the values say; `rooms.dfy` holds the channel-map operations both levels share, `archive_names.dfy` the
  search for a free archive name. `channel_modes.dfy` is the MODE command, `mode_effects.dfy` what it comes to.
  `trust.dfy` says in the channels' own flags who is told what and who is believed, `server_laws.dfy` whose nicks
  are whose, who gets on a channel and which channels stay.
* **The wire layer.** `message.dfy` and `message_round_trip.dfy` (parser and printer), `line_reading.dfy` (lines no
  printer writes), `framing.dfy` (the read loop with its cap), `trace_tags.dfy` (the rewriter that injects a trace
  context).
* **The bot filter language.** `filter_lexer.dfy`, `filter_parser.dfy`, `filter_grammar.dfy`, `filter_errors.dfy`.
* **Stores and protocols.** `decision.dfy` (permission files with many approvers), `dm_spool.dfy`,
  `history_search.dfy`, `rate_limit.dfy`, `lifecycle.dfy`.

Code that works in place is modelled by classes and loops proved against specification functions; the laws are
then proved of those functions over all inputs and all runs. `dafny verify dfyconfig.toml` checks everything.

Several laws one would expect do not hold as they stand. For these the exact condition is proved, or a concrete
run is given that breaks them:

* a message survives printing and parsing only if its command is upper case and no parameter written without a
  colon holds a tab or other whitespace (`MessageRoundTrip.ParseFormat`, `TabSplitsParameter`);
* injecting a trace tag changes how a line reads when the line is empty or a tag block with nothing after it
  (`TraceTags.InjectSetsOneTag`);
* nick changes, connections lost without QUIT, and joins and parts of `_peek` names or on links that do not carry
  the channel are not announced, so the peer's picture drifts (`Mirror.MirroredIffAnnounced`);
* a peer that claims too high a number, a message sent between relink and BACKFILL, or a link that drops again
  before its BACKFILL breaks the replay (`EventLog.RunExact` and `CycleExact` for runs and cycles of any kind,
  `NothingLostNothingTwice` for the early drop alone, `HighClaimLosesMessage`, `EarlyDropLosesMessage`);
* what is in flight when a link drops is lost, since the number remembered counts it as seen
  (`EventWire.ReceivedExactly`, `DropLosesInFlight`);
* a refused second connection in the name of a linked peer takes the good link's registration with it
  (`Membership.RefusedDuplicateUnlinks`, `Membership.IRCd.RemoveLink`, `Mesh.RefusalUnpairs`);
* a message from a peer without a name goes on a second hop; any peer is without one before its handshake
  (`Delivery.SecondHopIfNameless`, `PrivateHopIfNameless`), and a ghost announced then has no registered link
  (`Membership.IRCd.HandleSnick`);
* a mention notice about a restricted channel goes to a ghost that was on it before (`Trust.MentionLeavesRestricted`),
  and a private message reaches the peer it is for twice and every other peer once (`Delivery.TellGoesTwice`);
* archiving onto an occupied channel name leaves clients on an unregistered channel
  (`Membership.IRCd.HandleSroomarchive`), and a departed ghost stays an operator if it was one
  (`Membership.IRCd.RemoveGhost`);
* two approvers can both win exactly if the decision file is taken from under one of them, which cannot happen
  while the request is up (`DecisionProtocol.TwoWinnersOnlyIfRobbed`, `SecondWinnerExact`, `NoRobberyWhileAsked`,
  `TwoWinnersAfterCancel`), and a sweep that wrongly takes a waiting worker for gone makes it miss a decision
  (`RequestUpExactly`, `FalseSweepLosesDecision`);
* a bot that parts leaves its channel without anyone in charge if it was the only operator
  (`Membership.IRCd.PartChannel`).

## Model

| member | source | states |
|---|---|---|
| Messages.UnescapeTagValue | culture/protocol/message.py:13-26 | The index loop undoes the IRCv3 escapes as the recursive definition says; a lone trailing backslash stays, an unknown escape drops its backslash |
| Messages.EscapeTagValue | culture/protocol/message.py:29-36 | The loop escapes character by character |
| Messages.ParseTagBlock | culture/protocol/message.py:51-71 | The dictionary loop: last value of a key wins, keys keep their first place, empty pieces are skipped, a block without a space loses the line |
| Messages.ParseMessage | culture/protocol/message.py:73-101 | The parser, with its four malformed-line exits, computes `Parse` |
| Messages.ParseUntagged | culture/protocol/message.py:89-101 | Command and parameters once tags and prefix are off |
| Messages.FormatTags | culture/protocol/message.py:106-113 | The tag loop of the printer |
| Messages.FormatMessage | culture/protocol/message.py:103-128 | The printer computes `Format` |
| MessageRoundTrip.UnescapeEscape | culture/protocol/message.py:13-36 | Unescaping an escaped value gives the value, for any value; the escaped text has no separator in it |
| MessageRoundTrip.TagBlockRoundTrip | culture/protocol/message.py:51-71 | A printed tag block is read back as the same dictionary with the rest of the line untouched |
| MessageRoundTrip.ParseFormat | culture/protocol/message.py:73-128 | Section 2.3.1 of RFC 2812 and the message-tags specification: parse after format is the identity exactly on messages whose command is upper case and whose bare parameters are single words |
| MessageRoundTrip.TabSplitsParameter | culture/protocol/message.py:93 | A parameter with a tab, legal in RFC 2812, comes back as two |
| MessageRoundTrip.LastVerbatim | culture/protocol/message.py:90-100 | Whatever words stand before it, the text after the first space and colon is the last parameter as it is, whether or not it needed the colon |
| MessageRoundTrip.ParseColonFormat | culture/protocol/message.py:73-101 | A legal message written with a colon before its last parameter, needed or not, comes back unchanged exactly when its command is upper case and the parameters before the last are single words |
| MessageRoundTrip.UnescapeForms | culture/protocol/message.py:3-26 | The escapes of the message-tags specification wherever they stand: five with a meaning, any other character after a backslash for itself, a backslash at the end kept |
| Text.UpperLetters | culture/protocol/message.py:96 | Every small letter of a command becomes its capital, nothing else changes |
| Text.SpacesAre | culture/protocol/message.py:93 | What separates words is just the whitespace characters of Python |
| LineReading.TagKeys | culture/protocol/message.py:60-71 | Keys stand in the order in which they first come; empty pieces are skipped |
| LineReading.LastValueCounts | culture/protocol/message.py:60-71 | A key has the value its last piece gives it, cut at the first equals sign and unescaped, and the empty one if that gives none |
| LineReading.WordsSpread | culture/protocol/message.py:93 | Command and parameters are read from any layout, whatever whitespace separates them |
| LineReading.BrokenLines | culture/protocol/message.py:57-87 | Tags or a prefix with nothing behind them, and blank lines, give no command |
| Framing.NormalizeIsOnePass | culture/agentirc/client.py:538-549 | The two replacements of line ends are one left-to-right pass |
| Framing.Client.ProcessBuffer | culture/agentirc/client.py:448-479 | The loop dispatches every complete non-blank line in order and keeps what follows the last newline |
| Framing.Client.Handle | culture/agentirc/client.py:524-557 | The read loop with its cap computes `FeedAll` |
| Framing.BufferBounded | culture/agentirc/client.py:536-550 | Whatever arrives, the buffer never exceeds 8192 characters |
| Framing.ChunkingIrrelevant | culture/agentirc/client.py:448-557 | If lines and chunks are at most 4096, any two ways to cut one stream, also between CR and LF, dispatch the same lines and keep the same remainder |
| Framing.CapNeverFires | culture/agentirc/client.py:545-547 | On such streams no character is ever dropped |
| Framing.CapKeepsTail | culture/agentirc/client.py:545-547 | Over 8192 characters the last 4096 are kept, otherwise all |
| Framing.StreamDispatched | culture/agentirc/client.py:448-557 | Of a stream of short lines, each ended by CR, LF or both, exactly the lines with more than whitespace are dispatched, in order, however it is cut into chunks; the unfinished line is kept |
| TraceTags.MergeTags | culture/agentirc/server_link.py:79-93 | The growing-list loop replaces or appends the one tag |
| TraceTags.InjectTrace | culture/agentirc/server_link.py:40-95 | The rewriter computes `Inject` |
| TraceTags.InjectSetsOneTag | culture/agentirc/server_link.py:40-95 | Parsing the rewritten line gives the old parse with just that tag set, duplicates and valueless tags included, exactly when the line is not empty and not a bare tag block |
| FilterLexer.TokNumber | culture/bots/filter_dsl.py:117-121 | The digit loop reads the longest number |
| FilterLexer.TokWord | culture/bots/filter_dsl.py:124-130 | The word loop reads the longest word and tells keywords from identifiers |
| FilterLexer.TokOther | culture/bots/filter_dsl.py:110-176 | Strings, operators and single characters, with the column and label of each error |
| FilterLexer.Tokenize | culture/bots/filter_dsl.py:140-176 | The tokenizer loop computes `Lex` on every input, errors included |
| FilterLexer.LexWellEnded | culture/bots/filter_dsl.py:140-176 | Every token stream has exactly one end marker, at the end, so the parser's position cannot pass it |
| FilterLexer.LexSpread | culture/bots/filter_dsl.py:140-176 | Any layout of legal tokens, as long as words and numbers do not touch, is read back as those tokens |
| FilterLexer.LexedIsText | culture/bots/filter_dsl.py:110-176 | Conversely, what is accepted is nothing but its tokens as they are written, each at its column, and whitespace |
| FilterLexer.LexErrorAt | culture/bots/filter_dsl.py:110-176 | An error is at a character at which no token starts, or at the quote of a string that does not end, and says which |
| FilterParser.Parser.Or_ | culture/bots/filter_dsl.py:205-211 | The loop with the mutable position computes the or-level; the position never passes the end marker and the recursion ends |
| FilterParser.Parser.And_ | culture/bots/filter_dsl.py:213-219 | The same for the and-level |
| FilterParser.Parser.Not_ | culture/bots/filter_dsl.py:221-225 | The same for the not-level |
| FilterParser.Parser.Cmp | culture/bots/filter_dsl.py:227-238 | The same for comparisons |
| FilterParser.Parser.Atom | culture/bots/filter_dsl.py:240-278 | The same for literals, field paths, lists and parentheses |
| FilterParser.Parser.Parse | culture/bots/filter_dsl.py:198-203 | The whole expression and nothing after it |
| FilterParser.Compile | culture/bots/filter_dsl.py:281-284 | Tokenizing and parsing computes `CompileFilter` |
| FilterGrammar.ParserMatchesGrammar | culture/bots/filter_dsl.py:3-12 | The parser accepts a token stream as an expression exactly when the documented grammar derives that expression from it; hence the grammar is unambiguous |
| FilterGrammar.FilterRoundTrip | culture/bots/filter_dsl.py:110-284 | Printing any legal expression with the fewest parentheses and in any spacing, then compiling, gives the expression back |
| FilterErrors.ErrorsTellTheTruth | culture/bots/filter_dsl.py:188-278 | A parse error is at the column of a token that is not what its label says was wanted |
| Rooms.VacateTwice | culture/agentirc/ircd.py:710-738 | Ghosts leaving one after the other is the ghosts leaving together, deletions of emptied channels included |
| Rooms.RenamedLeave | culture/agentirc/server_link.py:696-703 | Leaving a channel commutes with any naming that tells its members apart |
| Rooms.RenamedVacate | culture/agentirc/server_link.py:705-731 | So does leaving all channels |
| Confinement.ReceiveKeepsTaskLocal | culture/agentirc/server_link.py:487-507 | No line at all puts a ghost into a task channel, over whatever connection it comes |
| ArchiveNames.NextArchiveName | culture/agentirc/skills/rooms.py:649-662 | The archive name is no channel's, extends the old name, and every candidate before it is taken |
| ArchiveNames.FindArchiveName | culture/agentirc/skills/rooms.py:649-662 | The search ends and finds that name |
| Confinement.ArchivedAsTask | culture/agentirc/skills/rooms.py:649-662 | A task channel is archived as a task channel |
| Confinement.EmitsConfined | culture/agentirc/server_link.py:1044-1161 | No command puts a line about a task channel on any link, archiving and mention notices included |
| Confinement.ReplayConfined | culture/agentirc/server_link.py:1024-1038 | A replay of any log is filtered by what the link carries when it is made |
| Confinement.TaskChannelsConfined | culture/agentirc/server_link.py:127-153 | Over every run with arbitrary lines over connections of any trust, before or after a handshake, no ghost is ever on a task channel and nothing sent, burst, relay, mention notice or replay, is about one |
| Trust.OnlyOpenChannelsLeave | culture/agentirc/server_link.py:127-153 | Over every run of commands, lines, links and replays: a line about a channel goes on a link only while the channel is registered and not restricted and the link is full or the channel shared with the peer; for an archived one that is asked of its new name |
| Trust.SayGoesOut | culture/agentirc/server_link.py:1087-1096 | What is said on a channel goes on a link, full or restricted, exactly under these conditions |
| Trust.EventGoesOut | culture/agentirc/server_link.py:1044-1139 | So does every other event of a channel |
| Trust.CommandTells | culture/agentirc/server_link.py:1044-1161 | What each command other than a message puts on a link, line by line |
| Trust.BurstTellsAll | culture/agentirc/server_link.py:431-455 | A burst lists every local member of every such channel |
| Trust.MentionsExactly | culture/agentirc/client.py:1378-1411 | A mention notice crosses the link exactly to the mentioned ghosts of that peer, on the channel if it is on one |
| Trust.MentionLeavesRestricted | culture/agentirc/client.py:1397-1411 | It does so from a restricted channel as well |
| Trust.ShutOut | culture/agentirc/server_link.py:487-507 | SJOIN, SPART, SROOMARCHIVE and SROOMMETA about a channel that is restricted, or not shared with a restricted peer, change nothing; SMSG reaches nobody, and neither it nor SEVENT raises an event; so it is with task channels, SROOMMETA apart |
| Trust.LetIn | culture/agentirc/server_link.py:487-507 | About any other channel they all take effect |
| Trust.PrivateEchoed | culture/agentirc/server_link.py:582-606 | A private message from a peer raises an event exactly if it is no notice and for somebody connected here or the system user |
| Trust.GhostsWereLetIn | culture/agentirc/server_link.py:509-536 | Over every run a ghost is on a channel only if it was there before or was announced there over a connection to which the channel was open at that moment |
| Trust.ShutChannelsAreQuiet | culture/agentirc/server_link.py:487-507 | Over every run in which a channel is closed to all who speak, no ghost comes in, nobody there hears anything and no event about it is raised |
| ServerLaws.NicksStayKept | culture/agentirc/client.py:643-677 | Over every run clients have nicks of this server, ghosts nicks of the peer that announced them, and nobody one of the system |
| ServerLaws.NickGranted | culture/agentirc/client.py:643-709 | Any other nick of this server can be had unless somebody connected has it |
| ServerLaws.JoinExactly | culture/agentirc/client.py:740-781 | A client gets on a channel exactly if its name starts with a hash and it is not archived |
| ServerLaws.MembersJoined | culture/agentirc/client.py:740-781 | Over every run a client is on a channel only by its own JOIN or nick change, and never by a JOIN to an archived channel |
| ServerLaws.PersistentStays | culture/agentirc/ircd.py:699-705 | When a local user leaves, a channel stays exactly if it is persistent or somebody else is on it |
| ServerLaws.GhostsKeepNothing | culture/agentirc/ircd.py:710-725 | When a ghost leaves, it stays exactly if somebody else is on it |
| ServerLaws.PersistentChannelsStay | culture/agentirc/client.py:814-860 | However local users and bots come and go, a persistent channel stays persistent and registered until it is archived or made to last no longer |
| ServerLaws.FlagsAreSet | culture/agentirc/client.py:995-1012 | Restricting, sharing and annotating a channel set just that flag of just that channel |
| ServerLaws.ArchivedKeeps | culture/agentirc/server_link.py:813-823 | An archived channel is empty, keeps its other flags and is under its new name only; the other channels stay as they are |
| ServerLaws.ProbesAreSilent | culture/agentirc/client.py:795-812 | Joins and parts of `_peek` names, and only those, are kept from peers |
| Mesh.NextShaped | culture/agentirc/server_link.py:357-399 | Every action keeps links paired and one wire per direction of every link |
| Mesh.NoSecondHop | culture/agentirc/ircd.py:302-313 | What handling a line raises carries its origin, so the relay puts nothing on any wire of the receiver |
| Mesh.RefusalUnpairs | culture/agentirc/ircd.py:740-767 | Unregistering a good link at one end leaves the other end counting on it, and nothing is told to the peer |
| Mirror.MirroredIffAnnounced | culture/agentirc/server_link.py:1044-1139 | For any command, trust and state: the lines put on a link turn the peer's old picture into the new roster and membership exactly when the command is not one of the unannounced ones |
| MirrorMesh.ReplicasAgree | culture/agentirc/server_link.py:431-536 | Over every run of any number of servers (commands, deliveries in any order, links up and down): the peer's picture with the lines in flight applied is exactly the sender's roster and membership, and an unlinked server is forgotten |
| Delivery.EmittedOnce | culture/agentirc/client.py:1206-1230 | A command puts a channel message on a link once if it says it and the link carries it, else never |
| Delivery.SecondHopIfNameless | culture/agentirc/server_link.py:556-577 | A channel message over any connection, registered or not, that another link would carry is passed on exactly if the peer has no name, as before its handshake |
| Delivery.PrivateHopIfNameless | culture/agentirc/server_link.py:579-609 | The same for a private message to a client here, which then goes on without its target |
| Delivery.NoClaimCounts | culture/agentirc/server_link.py:936-972 | Neither the origin an SEVENT claims nor one in its payload changes what becomes of it; its event is the peer's and is not passed on, unless the peer has no name: then a global one goes on to every peer as if raised here |
| Delivery.TellGoesTwice | culture/agentirc/client.py:1231-1279 | A private message to somebody elsewhere is put on the link to his server twice and on every other link once |
| Delivery.MessagesConserved | culture/agentirc/server_link.py:556-577 | Over every run, what a server was handed from a peer plus what is in flight equals what was in flight plus what the peer's own users said, although every message received is raised as an event again |
| Delivery.PropagationEnds | culture/agentirc/ircd.py:268-313 | With every event of every delivery going through the relay, deliveries made plus lines left is constant, so propagation ends |
| Delivery.ExactlyOnce | culture/agentirc/client.py:1206-1230 | In a full mesh one message, delivered in any order, gives every local member on every server one copy, the sender and outsiders none |
| EventLog.Ircd.RelayToPeers | culture/agentirc/ircd.py:268-273 | One line to every linked peer whose link, with its own trust, carries the event |
| EventLog.Ircd.EmitEvent | culture/agentirc/ircd.py:283-313 | The log is always the last 10000 events with consecutive numbers; each peer is sent the event if linked and it is ours to relay |
| EventLog.Ircd.RemoveLink | culture/agentirc/ircd.py:740-761 | The number acknowledged is the one at the drop; the unlink event goes to the others only |
| EventLog.Ircd.CompleteHandshake | culture/agentirc/server_link.py:375-396 | The link counts as up before its own link event is emitted |
| EventLog.Ircd.ReplayLines | culture/agentirc/server_link.py:1002-1009 | The loop over the log collects exactly the carried events above both the claimed and the acknowledged number that are still there |
| EventLog.Ircd.HandleBackfill | culture/agentirc/server_link.py:980-1042 | The peer asking is sent the replay, and nobody else anything |
| EventLog.CycleExact | culture/agentirc/server_link.py:976-1042 | After one drop and relink the peer has every carried event in order and once exactly when nothing was claimed or evicted too early and nothing carried came between relink and replay, or nothing was missed and nothing is replayed |
| EventLog.EarlyDropExact | culture/agentirc/ircd.py:740-748 | A drop before the BACKFILL keeps the books right exactly if nothing carried was missed since the last number remembered |
| EventLog.NothingLostNothingTwice | culture/agentirc/ircd.py:302-313 | Over any number of drops and relinks, live plus replayed is this server's own messages, in order, each once, if and only if every drop before a BACKFILL had nothing to make good |
| EventLog.FromTheStart | culture/agentirc/ircd.py:302-313 | The same from a fresh server |
| EventWire.NothingLostInFlight | culture/agentirc/ircd.py:740-748 | Over any run of log steps and arrivals: what was received and what is in flight is all that was written exactly if no drop found anything in flight |
| EventWire.ReceivedExactly | culture/agentirc/ircd.py:740-748 | Over any number of drops and relinks in turn, a live peer has or will receive this server's own messages, in order, each once, if and only if no drop found anything in flight and no early drop had anything to make good |
| EventWire.DropLosesInFlight | culture/agentirc/ircd.py:745-748 | A message in flight at a drop is never received, though every step was in turn and every drop harmless to the log |
| EventLog.EarlyDropLosesMessage | culture/agentirc/ircd.py:746-748 | A message missed while down is never replayed if the link drops again before its BACKFILL |
| EventLog.RunExact | culture/agentirc/server_link.py:976-1042 | Over any run of events, drops, relinks and BACKFILLs with any claims: the peer has everything, in order, once, if and only if every step sent what came next and nothing carried is left |
| ServerLog.LogTracksServer | culture/agentirc/server_link.py:1087-1096 | Over every run of a server, its trust rules and its log, the channel messages put on a link, live and replayed, are those the log counts as sent |
| ServerLog.MessageTold | culture/agentirc/server_link.py:1087-1096 | Every message of this server is put on a link just if the log counts it as carried; private ones always are |
| ServerLog.PeerToldEverything | culture/agentirc/server_link.py:976-1038 | Over any number of drops and relinks, if relinks and BACKFILLs take turns, claim no more than is remembered, and every early drop had nothing to make good, then a live peer was told exactly this server's own messages in the channels its link carries, in order, each once |
| EventLog.HighClaimLosesMessage | culture/agentirc/server_link.py:379 | A claim taken from the wrong counter makes a message disappear |
| ChannelModes.ModesStayWithin | culture/agentirc/client.py:1010-1034 | MODE can only name members, so operators and voiced users stay members |
| ChannelModes.BroadcastFaithful | culture/agentirc/client.py:995-1084 | Section 3.2.3 of RFC 2812: executing the broadcast mode string on the channel as it was changes it as the command did, uses up all parameters and would be broadcast unchanged, for any string and parameters |
| ModeEffects.LastItemDecides | culture/agentirc/client.py:995-1084 | For any mode string: a member is operator afterwards if the last `o` item that names it is a plus, or none does and it was before; likewise `v` for voice, `R` for the restriction, `S` for each peer; no letter touches another flag |
| ModeEffects.BroadcastIs | culture/agentirc/client.py:995-1060 | The broadcast spells exactly the items that changed something, in order, each with its sign and parameter |
| Membership.Channel.Add | culture/agentirc/channel.py:49-56 | Only the first local joiner becomes operator; the channel stays governed |
| Membership.Channel.Remove | culture/agentirc/channel.py:58-67 | The last operator's place goes to the local member whose nick sorts first; the channel stays governed |
| Membership.MinByNick | culture/agentirc/channel.py:67 | A member no other member's nick precedes in code-point order |
| Names.LessIs | culture/agentirc/channel.py:67 | The order of nicks is the one in dictionaries, by code point |
| Membership.Channel.ApplyModeString | culture/agentirc/client.py:1110-1126 | The mode-character loop computes `ApplyModes` |
| Membership.Channel.ExecuteMode | culture/agentirc/client.py:1107-1130 | Then an operator is made if none is left, from all members, unannounced; with local members only the channel stays governed |
| Membership.IRCd.HandleChannelMode | culture/agentirc/client.py:1086-1132 | Refused without effect unless the sender is operator |
| Membership.IRCd.Accept | culture/agentirc/ircd.py:648-659 | A new connection is nobody and nowhere |
| Membership.IRCd.HandleNick | culture/agentirc/client.py:643-688 | Refused unless legal and free; else the client map and the client's nick change together and stay a bijection |
| Membership.IRCd.GetOrCreate | culture/agentirc/ircd.py:792-795 | A channel is the object its name leads to |
| Membership.IRCd.HandleJoin | culture/agentirc/client.py:740-781 | Both sides of the membership change together; who becomes operator; runs of local clients stay governed |
| Membership.IRCd.HandlePart | culture/agentirc/client.py:814-860 | The same for leaving, with the successor; the channel is unregistered exactly when it is left empty and not persistent, and the key deleted exists |
| Membership.IRCd.LeaveEach | culture/agentirc/ircd.py:702-705 | The loop over a departing client's channels: each loses it, those emptied are unregistered, each hands on the operator's place |
| Membership.IRCd.RemoveClient | culture/agentirc/ircd.py:699-705 | A lost connection leaves no trace on either side; every channel left is governed and occupied or persistent |
| Membership.IRCd.HandleSnick | culture/agentirc/server_link.py:457-485 | A ghost appears unless the nick is reserved, foreign to the peer or known; every ghost still has a registered link exactly if none appeared or this link is registered |
| Membership.IRCd.JoinRemoteNicks | culture/agentirc/server_link.py:509-536 | The loop enters exactly the known ghosts, once each, on both sides |
| Membership.IRCd.HandleSjoin | culture/agentirc/server_link.py:523-536 | Nothing happens if the channel is restricted, a task channel, or not shared with a restricted peer; otherwise exactly the known ghosts enter and the channel exists even if none was known |
| Membership.IRCd.HandleSpart | culture/agentirc/server_link.py:673-703 | The ghost leaves on both sides; an empty channel goes even if persistent |
| Membership.IRCd.RemoveGhost | culture/agentirc/ircd.py:710-738 | Two-sided membership survives; operators stay within members exactly when the ghost was none |
| Membership.IRCd.HandleSquituser | culture/agentirc/server_link.py:718-731 | An unknown nick changes nothing; a known one goes everywhere |
| Membership.IRCd.DisconnectRemoteClients | culture/agentirc/ircd.py:727-738 | Exactly the ghosts of that link go, from the map and from every channel |
| Membership.IRCd.CompleteHandshake | culture/agentirc/server_link.py:319-375 | Refused without effect for a wrong password, a name in use or our own; else the link is registered under its peer's name |
| Membership.IRCd.RemoveLink | culture/agentirc/ircd.py:740-763 | Whatever is registered under the closing link's name goes, and exactly its own ghosts; every ghost still has a registered link exactly when that registration was its own or that of a link without ghosts |
| Membership.RefusedDuplicateUnlinks | culture/agentirc/server_link.py:336-342 | A refused duplicate leaves the good link unregistered and its ghosts stranded |
| Membership.IRCd.HandleSroommeta | culture/agentirc/server_link.py:738-778 | A channel that is restricted, or not shared with a restricted peer, stays as it is; any other exists afterwards and is kept or not as the peer says |
| Membership.IRCd.HandleRoomarchive | culture/agentirc/skills/rooms.py:664-730 | A room archived locally goes to the next free name, and the server stays consistent |
| Membership.IRCd.ArchiveChannel | culture/agentirc/server_link.py:796-823 | Taking everybody off and moving the channel keeps membership two-sided exactly when the displaced channel, if any, is empty |
| Membership.IRCd.HandleSroomarchive | culture/agentirc/server_link.py:796-840 | Everybody leaves and the channel moves to its new name; the server stays consistent exactly when no occupied channel had that name |
| Membership.IRCd.BootstrapSystem | culture/agentirc/ircd.py:193-220 | The server's own user comes up on the system channel, which stays, and is no operator there |
| Membership.IRCd.StartBot | culture/bots/bot.py:90-108 | A bot is started and joins its channels in turn unless its name is a client's, a ghost's or a bot's; running bots and their names stay a bijection |
| Rooms.JoinAllMember | culture/bots/bot.py:105-106 | In the end it is on exactly the channels it is configured for |
| Membership.IRCd.JoinChannel | culture/bots/virtual_client.py:47-66 | A bot joins on both sides and is no operator; every channel stays governed |
| Membership.IRCd.PartChannel | culture/bots/virtual_client.py:80-109 | A bot parts on both sides, nobody is promoted, an empty non-persistent channel goes; the channel stays governed exactly if it could spare the bot |
| ObjectRuns.Host.Perform | culture/agentirc/server_link.py:431-536 | Whatever happens to the objects, a connection, a command, a handshake, a line over any link, a lost link, a bot, everything stays consistent and the channels become what that step makes of them, unless an archived room would displace an occupied channel |
| ObjectRuns.Host.Run | culture/agentirc/ircd.py:643-763 | Over every run of such steps membership is two-sided, names are unique and every channel is registered under its name, up to the first SROOMARCHIVE onto an occupied channel's name; as long as only local users and bots act, no room is archived and no bot parts, every channel is governed and occupied or persistent |
| Refinement.BotsKeptApart | culture/bots/bot.py:95-97 | The check made when a bot is started is what tells bots on channels apart |
| Refinement.Register | culture/agentirc/client.py:643-709 | On the objects, registration is `Do(Register)` on the abstract server |
| Refinement.Rename | culture/agentirc/client.py:643-689 | A nick change renames the client in every channel, as `Do(Rename)` says |
| Refinement.Join | culture/agentirc/client.py:740-781 | JOIN is `Do(Join)`, and nothing when the access list refuses |
| Refinement.Part | culture/agentirc/client.py:814-860 | PART is `Do(Part)` |
| Refinement.Remove | culture/agentirc/ircd.py:699-705 | A lost connection is `Do(Quit)` and `Do(Vanish)` |
| Refinement.Snick | culture/agentirc/server_link.py:457-485 | SNICK over any link, registered or not, is `Receive(SNick)` |
| Refinement.Sjoin | culture/agentirc/server_link.py:523-536 | SJOIN over any link, registered or not, is `Receive(SJoin)` |
| Refinement.Spart | culture/agentirc/server_link.py:673-703 | SPART over any link, registered or not, is `Receive(SPart)` |
| Refinement.Squituser | culture/agentirc/server_link.py:718-731 | SQUITUSER over any link, registered or not, is `Receive(SQuitUser)` |
| Refinement.Sroommeta | culture/agentirc/server_link.py:738-778 | SROOMMETA over any link is `Receive(SRoomMeta)` |
| Refinement.LinkDown | culture/agentirc/ircd.py:727-763 | The loss of a registered link is `Disconnect` |
| Refinement.RefusedDown | culture/agentirc/ircd.py:740-763 | The close of any other link is `Unregister` of whatever has its name; ghosts stay linked exactly if that had none |
| Refinement.Archive | culture/agentirc/server_link.py:815-840 | SROOMARCHIVE over any link is `Receive(SRoomArchive)` for any name; the objects stay consistent exactly if the name displaces nobody |
| Refinement.ArchiveLocally | culture/agentirc/skills/rooms.py:664-730 | ROOMARCHIVE is `Do(ArchiveRoom)` |
| Refinement.Start | culture/agentirc/ircd.py:193-220 | A started server meets every assumption made of the objects, and as a value has its own user on the system channel |
| Refinement.BotJoin | culture/bots/virtual_client.py:47-66 | A bot's join is `Do(BotJoin)` |
| Refinement.BotPart | culture/bots/virtual_client.py:80-109 | A bot's part is `Do(BotPart)` |
| DecisionProtocol.AtMostOneHolder | culture/clients/_perm_broker.py:620-655 | Over all interleavings of approvers, polls, crashes and sweeps told anything at all: as long as the request is up, at most one approver holds the decision file, and the file is taken exactly when one does |
| DecisionProtocol.PublishedIsFinal | culture/clients/_perm_broker.py:620-655 | A published decision never changes while the request is up |
| DecisionProtocol.FailureFreesTheFile | culture/clients/_perm_broker.py:644-655 | An approver that reserved the file but could not write it lets the next one in |
| DecisionProtocol.RequestUpExactly | culture/clients/_perm_broker.py:444-471 | The request of a waiting worker is up exactly if no sweep was told that the worker is gone |
| DecisionProtocol.PollIsExact | culture/clients/_perm_broker.py:970-1005 | A poll answers with a decision exactly when an approver has won with it, with the timeout exactly when none has and 600 seconds are over, never with a half-written file |
| DecisionProtocol.FalseSweepLosesDecision | culture/clients/_perm_broker.py:444-480 | A sweep that wrongly takes the worker for gone makes it miss a decision |
| DecisionProtocol.OnlyWinnersAllow | culture/clients/_perm_broker.py:735-812 | Over every run whatsoever a tool call goes ahead exactly if the answer was "allow", and then an approver that won has said so |
| DecisionProtocol.TwoWinnersOnlyIfRobbed | culture/clients/_perm_broker.py:620-655 | Two approvers win only if a sweep, the worker or a late undo took the file from under one |
| DecisionProtocol.SecondWinnerExact | culture/clients/_perm_broker.py:620-655 | And each such step, and no other of its kind, lets the next approver win too |
| DecisionProtocol.NoRobberyWhileAsked | culture/clients/_perm_broker.py:472-480 | There is no such step while the request is up |
| DecisionProtocol.TwoWinnersAfterCancel | culture/clients/_perm_broker.py:444-480 | After a cancelled wait a sweep may unlink a reservation, and two approvers then win |
| DmSpool.DmSpoolStore.Insert | culture/agentirc/dm_spool_store.py:139-169 | A second message of one id leaves the first |
| DmSpool.DmSpoolStore.MarkDelivered | culture/agentirc/dm_spool_store.py:171-185 | Answers whether anything changed; a second acknowledgement changes nothing |
| DmSpool.PageIsOldestPending | culture/agentirc/dm_spool_store.py:191-236 | A page is the oldest pending rows for the nick in (time, id) order, as many as there are up to the limit |
| DmSpool.DmSpoolStore.Gc | culture/agentirc/dm_spool_store.py:272-316 | A row stays exactly if it was sent at most 30 days ago and is not delivered, or was delivered at most 7 days ago; the two counts are those of the rows that go and sum to the drop in rows |
| DmSpool.DmSpoolStore.Drain | culture/agentirc/dm_spool_store.py:171-236 | Fetching pages of any limit and acknowledging each row ends, yields every pending row once in order, and touches no other row |
| DmSpool.NextPage | culture/agentirc/dm_spool_store.py:191-236 | Acknowledging the first rows makes the next page start right behind them |
| DmSpool.RowLivesItsTime | culture/agentirc/dm_spool_store.py:272-316 | Over any run of operations elsewhere, a row is there unchanged exactly as long as no sweep comes later than 30 days after sending, or 7 days after delivery |
| HistorySearch.EscapedIsPerCharacter | culture/agentirc/history_store.py:54 | The three sequential replacements are one escape per special character |
| HistorySearch.LikeLiteral | culture/agentirc/history_store.py:54-60 | An escaped term matches itself up to ASCII case and nothing else, whatever follows in the pattern |
| HistorySearch.SearchIsContainment | culture/agentirc/history_store.py:52-60 | The LIKE condition holds exactly of texts containing the term, capitals and small letters alike, also for terms of wildcards and backslashes |
| HistorySearch.HistoryStore.Prune | culture/agentirc/history_store.py:75-83 | Exactly the older rows go, and the count says how many |
| HistorySearch.HistoryStore.SearchFinds | culture/agentirc/history_store.py:52-60 | A search lists exactly the channel's entries containing the term, each as often as stored, in time order |
| HistorySearch.HistoryStore.RecentIsTail | culture/agentirc/history_store.py:42-50 | The recent entries are the last in time order; they are the last stored, for every count, exactly when time never went back |
| RateLimit.RateLimiter.CheckRate | culture/bots/bot.py:43-51 | The per-bot window is filtered, tested and extended in place |
| RateLimit.RefusedExactlyAtTen | culture/bots/bot.py:43-51 | With a clock that does not go back, a firing is refused exactly when ten of that bot were let through in the last second, which is also the most there can be |
| RateLimit.RefusedIffTenthIsRecent | culture/bots/bot.py:43-51 | That is, when the tenth last firing let through is less than a second old |
| RateLimit.ElevenSpanASecond | culture/bots/bot.py:43-51 | Any eleven consecutive firings of a bot span at least a second |
| RateLimit.BotsAreIndependent | culture/bots/bot.py:43-51 | What a bot may fire does not depend on the others |
| Lifecycle.Client.ApplyUserModeChar | culture/agentirc/client.py:1142-1157 | An event only on a real edge of an announced mode |
| Lifecycle.Client.ParseModeEdges | culture/agentirc/client.py:1159-1172 | The loop collects the edges in order |
| Lifecycle.Client.HandleUserMode | culture/agentirc/client.py:1185-1204 | Only a registered client's own modes |
| Lifecycle.UserModesExactly | culture/agentirc/client.py:1134-1172 | A mode string sets H, A, B and C as the last sign before each says, and no other letter is ever set |
| Lifecycle.SessionAlternates | culture/agentirc/client.py:1134-1183 | Over any session, connects and disconnects alternate starting with a connect, and so do opens and closes |
| Lifecycle.RemovalBalances | culture/agentirc/ircd.py:672-708 | After removal every connect has its disconnect and every open its close |

## Left out

- Concurrency inside one handler: every handler is one atomic step; a server's `await` points between sends are not modelled.
- Link establishment: PASS, SERVER and the burst on both ends are one step of the mesh, and so is the loss of a link at both ends. A peer's name is fixed once for a link object.
- Mesh.NextShaped: a refused handshake is no action of the mesh, since it unpairs a link; what it does is stated by `Mesh.RefusalUnpairs`, `Membership.IRCd.RemoveLink` and `Refinement.RefusedDown`.
- EventLog.Ircd.RelayToPeers: what is recorded as sent is the message events, the only ones that are ever replayed; the lines of other events are in `Servers.Relay`.
- EventLog.Ircd.EmitEvent: as for the relay; the log itself holds every event.
- EventLog.Ircd.CompleteHandshake: registration and link event only; the checks are `Membership.IRCd.CompleteHandshake`, the burst is `Servers.IsBurst`, and the BACKFILL request is an input of its own.
- Replay is a step of the single server (`ServerRun`), not of the mesh: `Delivery` and `MirrorMesh` are about bursts and live relay.
- Events raised by lines of threads, and what bots and skills do on events.
- Servers with an empty name in a mesh; what goes wrong there is stated by `Delivery.SecondHopIfNameless`.
- Lines between servers are a datatype; channel names and nicks with spaces on such lines are not modelled, nor is the BACKFILLEND line.
- The initial chunk of an inbound server link, which gets an extra newline; framing is stated for the client loop.
- Messages.ParseMessage: all text is decoded characters, and commands are upper-cased as ASCII letters are; other letters stay as they are.
- Messages.ParseUntagged: commands are upper-cased as ASCII letters are.
- FilterLexer.TokNumber: digits are the ten ASCII ones; Python takes every Unicode digit for one.
- FilterLexer.TokWord: word characters are ASCII letters and digits, `_` and `-`; Python takes every Unicode letter and digit for one.
- FilterLexer.TokOther: letters and digits outside ASCII are errors, where Python would have started a word or number.
- FilterLexer.Tokenize: the same restriction; on filters whose letters and digits are ASCII outside of strings nothing is left out.
- The JOIN access list of task channels is a parameter, and so is whether a user may archive a room.
- Conservation and exactly-once delivery are stated for channel messages; of private ones only what one command sends.
- `Delivery.ExactlyOnce` and `MirrorMesh.ReplicasAgree` are about fully trusting links; `Mirror.MirroredIffAnnounced`, `Delivery.MessagesConserved` and `Confinement.TaskChannelsConfined` cover every trust.
- Servers.Mentions: the list of mentioned names is taken as already stripped of punctuation and duplicates.
- ServerLog.PeerToldEverything: the link is taken to carry the same channels whenever a channel message is about to be told, live or replayed.
- MODE and topics have no refinement step between objects and values, nor has the start of a bot. Of room metadata only persistence is modelled.
- Stopping a bot: its parts are modelled one by one, the step that forgets the bot is not.
- The evaluator of filter expressions, Python's recursion limit and its limit on digits of a number.
- The watchdog way of waiting for a decision (same answers, lower latency), an interrupt between replacing the decision file and returning, policy files and sticky rules.
- A sweep of the decision directory may also unlink an approver's temporary file; this is one of the ways in which writing can fail.
- SQLite: row order among equal timestamps is that of the index; pattern length limits and NUL characters are not modelled. Times are reals.
- Threads, room ownership, history replay, CHATHISTORY parsing, telemetry, audit records, dashboard, console and command line.
