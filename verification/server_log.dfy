/**
 * What a server really tells a peer about its channels, live and in replays, is what the log's view of
 * that peer says: the conditions under which a drop loses nothing hold of the server with its trust rules.
 */
module ServerLog {
  import opened Text
  import opened Events
  import opened Servers
  import opened ServerRun
  import L = EventLog

  /** A channel message on a link. */
  predicate ChannelLine(l: Line) { l.SMsg? && StartsWith(l.target, "#") }

  /** The channel messages among the lines. */
  function ChannelLines(lines: seq<Line>): seq<Line> {
    if lines == [] then []
    else
      var l := lines[|lines| - 1];
      ChannelLines(lines[..|lines| - 1]) + if ChannelLine(l) then [l] else []
  }

  predicate ChannelMessage(e: Event) { e.body.MessageEvent? && StartsWith(Target(e), "#") }

  /** The line a channel message becomes. */
  function MessageLines(e: Event): seq<Line> {
    if ChannelMessage(e) then [SMsg(Target(e), e.body.nick, e.body.text, e.body.notice)] else []
  }

  /** The lines of the channel messages among numbered events. */
  function LinesOf(entries: seq<L.Entry>): seq<Line> {
    if entries == [] then [] else LinesOf(entries[..|entries| - 1]) + MessageLines(entries[|entries| - 1].1)
  }

  lemma {:induction false} ChannelLinesConcat(a: seq<Line>, b: seq<Line>)
    ensures ChannelLines(a + b) == ChannelLines(a) + ChannelLines(b)
  {
    if b == [] {
      assert a + b == a;
    } else {
      assert (a + b)[..|a + b| - 1] == a + b[..|b| - 1];
      ChannelLinesConcat(a, b[..|b| - 1]);
    }
  }

  lemma {:induction false} LinesOfConcat(a: seq<L.Entry>, b: seq<L.Entry>)
    ensures LinesOf(a + b) == LinesOf(a) + LinesOf(b)
  {
    if b == [] {
      assert a + b == a;
    } else {
      assert (a + b)[..|a + b| - 1] == a + b[..|b| - 1];
      LinesOfConcat(a, b[..|b| - 1]);
    }
  }

  lemma {:induction false} NoChannelLines(lines: seq<Line>)
    requires forall l :: l in lines ==> !ChannelLine(l)
    ensures ChannelLines(lines) == []
  {
    if lines != [] { NoChannelLines(lines[..|lines| - 1]); }
  }

  lemma OneLine(l: Line)
    ensures ChannelLines([l]) == if ChannelLine(l) then [l] else []
    ensures ChannelLines([]) == []
  {
    assert [l][..0] == [];
  }

  lemma OneEntry(n: nat, e: Event)
    ensures LinesOf([(n, e)]) == MessageLines(e) && LinesOf([]) == []
  {
    assert [(n, e)][..0] == [];
  }

  // ---------------------------------------------------------------- the trust rules and the log's view of them

  /** For what `e` says, the link carries just the channels in `relay`. */
  predicate SameTrust(relay: set<string>, s: Server, peer: string, e: Event) {
    ChannelMessage(e) && !Federated(e) ==> (Target(e) in relay <==> ShouldRelay(s, peer, Target(e)))
  }

  /** The link makes of an event what the log counts it for. */
  lemma LinkTells(relay: set<string>, s: Server, peer: string, e: Event)
    requires SameTrust(relay, s, peer, e) && !Federated(e)
    ensures ChannelLines(LinkLines(s, peer, e)) == if L.Carried(relay, e) then MessageLines(e) else []
  {
    hide ShouldRelay;
    if ChannelMessage(e) {
      OneLine(SMsg(Target(e), e.body.nick, e.body.text, e.body.notice));
    } else {
      NoChannelLines(LinkLines(s, peer, e));
    }
  }

  /** Every message of this server's own is told just if the log counts it as carried, to whomever it is said. */
  lemma MessageTold(relay: set<string>, s: Server, peer: string, e: Event)
    requires peer in s.links && SameTrust(relay, s, peer, e) && e.body.MessageEvent? && e.origin == ""
    ensures Relay(s, peer, Some(e)) ==
      if L.Carried(relay, e) then [SMsg(Target(e), e.body.nick, e.body.text, e.body.notice)] else []
    ensures !StartsWith(Target(e), "#") ==> L.Carried(relay, e)
  {
    hide ShouldRelay;
  }

  lemma RelayTells(relay: set<string>, s: Server, peer: string, e: Event)
    requires peer in s.links ==> SameTrust(relay, s, peer, e)
    ensures ChannelLines(Relay(s, peer, Some(e))) ==
      if peer in s.links && L.Carried(relay, e) then MessageLines(e) else []
  {
    hide LinkLines, MessageLines, SameTrust;
    if peer in s.links && !Federated(e) { LinkTells(relay, s, peer, e); }
  }

  /** The log holds the events of `h` after the first `lo`. */
  predicate Holds(log: seq<L.Entry>, h: seq<Event>, lo: nat) {
    lo + |log| <= |h| && forall i :: 0 <= i < |log| ==> log[i] == (lo + i + 1, h[lo + i])
  }

  lemma HoldsLess(log: seq<L.Entry>, h: seq<Event>, lo: nat)
    requires Holds(log, h, lo) && log != []
    ensures var n := lo + |log|;
      Holds(log[..|log| - 1], h, lo) && n <= |h| && log[|log| - 1] == (n, h[n - 1]) && h[n - 1] in h
  {
  }

  /** The replay over the log is the log's replay of what it counts as carried. */
  lemma {:induction false} ReplayTells(relay: set<string>, s: Server, peer: string, h: seq<Event>, lo: nat,
                                       log: seq<L.Entry>, above: int, from: nat)
    requires lo + |log| <= |h| && Holds(log, h, lo) && forall e :: e in h ==> SameTrust(relay, s, peer, e)
    requires from == if above > lo then above else lo
    ensures ChannelLines(Replay(s, peer, log, above)) == LinesOf(L.Between(relay, h, from, lo + |log|))
    decreases |log|
  {
    hide *;
    if log == [] {
      Nothings(s, peer, above);
      L.BetweenNothing(relay, h, from, lo);
    } else {
      HoldsLess(log, h, lo);
      var n, less := lo + |log|, log[..|log| - 1];
      ReplayTells(relay, s, peer, h, lo, less, above, from);
      L.BetweenNext(relay, h, from, n - 1);
      ReplayNext(s, peer, log, above);
      OneReplayed(relay, s, peer, Replay(s, peer, less, above), L.Between(relay, h, from, n - 1), n, h[n - 1], above);
    }
  }

  /** One more event of the log, replayed or not. */
  lemma OneReplayed(relay: set<string>, s: Server, peer: string, before: seq<Line>, entries: seq<L.Entry>,
                    n: nat, e: Event, above: int)
    requires SameTrust(relay, s, peer, e) && ChannelLines(before) == LinesOf(entries)
    ensures
      ChannelLines(before + if n > above && !Federated(e) && e.body.MessageEvent? then LinkLines(s, peer, e) else []) ==
      LinesOf(if n > above && L.Carried(relay, e) then entries + [(n, e)] else entries)
  {
    hide *;
    CarriedIs(relay, e);
    if n > above && !Federated(e) && e.body.MessageEvent? {
      OneTold(relay, s, peer, before, entries, n, e);
      assert entries + [] == entries;
    } else {
      assert before + [] == before;
    }
  }

  /** One more event replayed is one more told. */
  lemma OneTold(relay: set<string>, s: Server, peer: string, before: seq<Line>, entries: seq<L.Entry>, n: nat, e: Event)
    requires SameTrust(relay, s, peer, e) && !Federated(e) && ChannelLines(before) == LinesOf(entries)
    ensures ChannelLines(before + LinkLines(s, peer, e)) ==
      LinesOf(entries + if L.Carried(relay, e) then [(n, e)] else [])
  {
    LinkTells(relay, s, peer, e);
    hide *;
    ChannelLinesConcat(before, LinkLines(s, peer, e));
    OneEntry(n, e);
    LinesOfConcat(entries, if L.Carried(relay, e) then [(n, e)] else []);
  }

  lemma Nothings(s: Server, peer: string, above: int)
    ensures Replay(s, peer, [], above) == [] && ChannelLines([]) == [] && LinesOf([]) == []
  {
  }

  lemma ReplayNext(s: Server, peer: string, log: seq<L.Entry>, above: int)
    requires log != []
    ensures var (number, e) := log[|log| - 1];
      Replay(s, peer, log, above) == Replay(s, peer, log[..|log| - 1], above) +
        if number > above && !Federated(e) && e.body.MessageEvent? then LinkLines(s, peer, e) else []
  {
  }

  lemma CarriedIs(relay: set<string>, e: Event)
    ensures L.Carried(relay, e) ==> e.body.MessageEvent? && !Federated(e)
  {
  }

  // ---------------------------------------------------------------- one input

  /** The log's view of `peer`, which has been sent `sent`. */
  function TrackFor(st: State, peer: string, sent: seq<L.Entry>): L.Track {
    L.Track(st.history, AckedOf(st, peer), peer in st.server.links, sent)
  }

  /** What the input is to that view. */
  function StepsFor(s: Server, i: Input, peer: string): seq<L.Step> {
    match i
    case LinkUp(p, _, _) => [if p == peer then L.Relinks else L.Happens(SystemEvent(SERVER_LINK))]
    case LinkDown(p) => [if p == peer then L.Drops else L.Happens(SystemEvent(SERVER_UNLINK))]
    case Backfill(p, claimed) => if p == peer then [L.Backfills(claimed)] else []
    case _ => if EventOf(s, i).Some? then [L.Happens(EventOf(s, i).value)] else []
  }

  /** Whenever a channel message is about to be told, live or replayed, the link carries just `relay`. */
  ghost predicate Agrees(relay: set<string>, st: State, i: Input, peer: string) {
    match i
    case Backfill(p, _) => p == peer ==> forall e :: e in st.history ==> SameTrust(relay, st.server, peer, e)
    case Command(c) =>
      EventOf(st.server, i).Some? && peer in st.server.links ==>
        SameTrust(relay, AtEvent(st.server, c), peer, EventOf(st.server, i).value)
    case FromPeer(_, _) =>
      EventOf(st.server, i).Some? && peer in st.server.links ==>
        SameTrust(relay, ServerAfter(st.server, i), peer, EventOf(st.server, i).value)
    case _ => true
  }

  /** Besides the relay of its event a command tells no channel message. */
  lemma CommandTells(s: Server, c: Command, peer: string)
    ensures ChannelLines(Emits(s, c, peer)) == ChannelLines(Relay(AtEvent(s, c), peer, Raised(s, c)))
    ensures AtEvent(s, c).links == s.links
  {
    hide ShouldRelay, ArchiveNameOf, LinkLines, ChannelLines, Do;
    AtEventLinks(s, c);
    var relayed := Relay(AtEvent(s, c), peer, Raised(s, c));
    NoChannelLines([]);
    if Accepted(s, c) && peer in s.links {
      match c
      case Register(n) => NoChannelLines([SNick(n)]);
      case Say(_, ch, _, notice, names) =>
        NoChannelLines(Mentions(s, peer, Some(ch), names));
        ChannelLinesConcat(relayed, if notice then [] else Mentions(s, peer, Some(ch), names));
      case BotSay(_, ch, _, names) =>
        NoChannelLines(Mentions(s, peer, Some(ch), names));
        ChannelLinesConcat(relayed, Mentions(s, peer, Some(ch), names));
      case Tell(n, t, text, notice, names) =>
        var direct := If(t !in s.clients && t in s.remotes && s.remotes[t] == peer, SMsg(t, n, text, notice));
        NoChannelLines(direct);
        NoChannelLines(Mentions(s, peer, None, names));
        ChannelLinesConcat(direct, relayed);
        ChannelLinesConcat(direct + relayed, if notice then [] else Mentions(s, peer, None, names));
      case _ =>
    }
  }

  lemma AtEventLinks(s: Server, c: Command)
    ensures AtEvent(s, c).links == s.links && Do(s, c).links == s.links
  {
  }

  /** One event raised. */
  lemma HappensTells(relay: set<string>, t: L.Track, e: Event, told: seq<Line>)
    requires told == if t.up && L.Carried(relay, e) then MessageLines(e) else []
    ensures LinesOf(L.Emit(relay, t, e).sent) == LinesOf(t.sent) + told
  {
    hide L.Carried;
    var n := |t.history| + 1;
    OneEntry(n, e);
    LinesOfConcat(t.sent, [(n, e)]);
    LinesOfConcat(t.sent, []);
  }

  /** The log's view of the peer after the input, and what the peer was told by it. */
  ghost predicate Tells(relay: set<string>, st: State, i: Input, peer: string, sent: seq<L.Entry>) {
    var after := L.Final(relay, TrackFor(st, peer, sent), StepsFor(st.server, i, peer));
    && after == TrackFor(Step(st, i), peer, after.sent)
    && LinesOf(after.sent) == LinesOf(sent) + ChannelLines(Output(st, i, peer))
  }

  lemma OneStep(relay: set<string>, t: L.Track, s: L.Step)
    ensures L.Final(relay, t, [s]) == L.Take(relay, t, s)
    ensures L.Final(relay, t, []) == t
  {
    assert [s][1..] == [];
  }

  /** An input that only raises an event, or none. */
  lemma EventTells(relay: set<string>, st: State, i: Input, peer: string, sent: seq<L.Entry>, e: Option<Event>)
    requires Possible(st, i) && (i.Command? || i.FromPeer?) && e == EventOf(st.server, i)
    requires Step(st, i).server.links == st.server.links
    requires ChannelLines(Output(st, i, peer)) ==
      if e.Some? && peer in st.server.links && L.Carried(relay, e.value) then MessageLines(e.value) else []
    ensures Tells(relay, st, i, peer, sent)
  {
    var t := TrackFor(st, peer, sent);
    hide L.Carried, EventOf, Output, ServerAfter, LinesOf, ChannelLines, MessageLines;
    if e.Some? {
      OneStep(relay, t, L.Happens(e.value));
      HappensTells(relay, t, e.value, ChannelLines(Output(st, i, peer)));
    } else {
      OneStep(relay, t, L.Drops);
      assert LinesOf(sent) + [] == LinesOf(sent);
    }
  }

  lemma CommandStep(relay: set<string>, st: State, i: Input, peer: string, sent: seq<L.Entry>)
    requires i.Command? && Agrees(relay, st, i, peer)
    ensures Tells(relay, st, i, peer, sent)
  {
    var s, c := st.server, i.command;
    CommandTells(s, c, peer);
    AtEventLinks(s, c);
    var e := Raised(s, c);
    hide L.Carried, Raised, Emits, MessageLines, ChannelLines, LinkLines, SameTrust, Do;
    if e.Some? {
      RelayTells(relay, AtEvent(s, c), peer, e.value);
    } else {
      NoChannelLines([]);
    }
    EventTells(relay, st, i, peer, sent, e);
  }

  lemma FromPeerStep(relay: set<string>, st: State, i: Input, peer: string, sent: seq<L.Entry>)
    requires i.FromPeer? && Possible(st, i) && Agrees(relay, st, i, peer)
    ensures Tells(relay, st, i, peer, sent)
  {
    var s := st.server;
    ReceiveLinks(s, i.conn, i.line);
    var e := Echoed(s, i.conn, i.line);
    hide L.Carried, Echoed, Receive, MessageLines, ChannelLines, LinkLines, SameTrust;
    if e.Some? {
      RelayTells(relay, Receive(s, i.conn, i.line), peer, e.value);
    } else {
      NoChannelLines([]);
    }
    EventTells(relay, st, i, peer, sent, e);
  }

  lemma ReceiveLinks(s: Server, c: Conn, line: Line)
    ensures Receive(s, c, line).links == s.links
  {
  }

  /** Links going up and down tell no channel message. */
  lemma LinkStep(relay: set<string>, st: State, i: Input, peer: string, sent: seq<L.Entry>)
    requires (i.LinkUp? || i.LinkDown?) && Possible(st, i)
    ensures Tells(relay, st, i, peer, sent)
  {
    var t := TrackFor(st, peer, sent);
    LinkSilent(st, i, peer);
    assert LinesOf(sent) + [] == LinesOf(sent);
    hide IsBurst, Output, ChannelLines, LinesOf, L.Between, Disconnect;
    if i.LinkUp? {
      L.RelinkIs(relay, t);
      OneStep(relay, t, L.Relinks);
      OneStep(relay, t, L.Happens(SystemEvent(SERVER_LINK)));
    } else {
      if t.up { L.DropIs(relay, t); }
      OneStep(relay, t, L.Drops);
      OneStep(relay, t, L.Happens(SystemEvent(SERVER_UNLINK)));
      DisconnectLinks(st.server, i.peer);
    }
    assert sent + [] == sent;
  }

  lemma DisconnectLinks(s: Server, p: string)
    ensures Disconnect(s, p).links == s.links - {p}
  {
  }

  lemma LinkSilent(st: State, i: Input, peer: string)
    requires (i.LinkUp? || i.LinkDown?) && Possible(st, i)
    ensures ChannelLines(Output(st, i, peer)) == []
  {
    if i.LinkUp? {
      BurstSilent(Connect(st.server, i.peer, i.trust), i.peer, i.burst);
    }
    hide IsBurst, ShouldRelay;
    NoChannelLines(Output(st, i, peer));
  }

  lemma BurstSilent(s: Server, peer: string, lines: seq<Line>)
    requires IsBurst(s, peer, lines)
    ensures forall l :: l in lines ==> !ChannelLine(l)
  {
    var j, k :| 0 <= j <= k <= |lines| &&
      IsRoster(s, lines[..j]) && IsMembership(s, peer, lines[j..k]) && IsRoomInfo(s, peer, lines[k..]);
    forall x | 0 <= x < |lines| ensures !ChannelLine(lines[x]) {
      if x < j { assert lines[x] == lines[..j][x]; }
      else if x < k { assert lines[x] == lines[j..k][x - j]; }
      else { assert lines[x] == lines[k..][x - k]; }
    }
  }

  lemma WindowHolds(h: seq<Event>)
    ensures Holds(L.Window(h), h, L.Evicted(h)) && L.Evicted(h) + |L.Window(h)| == |h|
  {
    L.LogIs(h, L.Window(h));
    hide L.Window, L.Evicted;
  }

  /** The replay `peer` asked for. */
  lemma ReplayAdds(relay: set<string>, s: Server, peer: string, t: L.Track, log: seq<L.Entry>, claimed: int)
    requires forall e :: e in t.history ==> SameTrust(relay, s, peer, e)
    requires Holds(log, t.history, L.Evicted(t.history)) && L.Evicted(t.history) + |log| == |t.history|
    ensures var after := L.Backfill(relay, t, claimed);
      && after == t.(sent := after.sent)
      && LinesOf(after.sent) ==
        LinesOf(t.sent) + ChannelLines(Replay(s, peer, log, if claimed > t.acked then claimed else t.acked))
  {
    hide *;
    var above := if claimed > t.acked then claimed else t.acked;
    L.ReplayFromIs(t, claimed);
    ReplayTells(relay, s, peer, t.history, L.Evicted(t.history), log, above, L.ReplayFrom(t, claimed));
    L.BackfillIs(relay, t, claimed);
    L.TakeBackfills(relay, t, claimed);
    LinesOfConcat(t.sent, L.Between(relay, t.history, L.ReplayFrom(t, claimed), |t.history|));
  }

  lemma BackfillStep(relay: set<string>, st: State, i: Input, peer: string, sent: seq<L.Entry>)
    requires i.Backfill? && Possible(st, i) && Agrees(relay, st, i, peer)
    ensures Tells(relay, st, i, peer, sent)
  {
    var t := TrackFor(st, peer, sent);
    BackfillForm(st, i, peer, sent);
    TellsIs(relay, st, i, peer, sent);
    hide *;
    if i.peer == peer {
      AgreesBackfill(relay, st, i, peer);
      WindowHolds(st.history);
      ReplayAdds(relay, st.server, peer, t, L.Window(st.history), i.claimed);
      OneStep(relay, t, L.Backfills(i.claimed));
      L.TakeBackfills(relay, t, i.claimed);
    } else {
      OneLine(SNick(""));
      OneStep(relay, t, L.Drops);
      assert LinesOf(sent) + [] == LinesOf(sent);
    }
  }

  lemma TellsIs(relay: set<string>, st: State, i: Input, peer: string, sent: seq<L.Entry>)
    requires Possible(st, i)
    ensures var after := L.Final(relay, TrackFor(st, peer, sent), StepsFor(st.server, i, peer));
      Tells(relay, st, i, peer, sent) <==>
        && after == TrackFor(Step(st, i), peer, after.sent)
        && LinesOf(after.sent) == LinesOf(sent) + ChannelLines(Output(st, i, peer))
  {
    hide L.Final, LinesOf, ChannelLines;
  }

  lemma AgreesBackfill(relay: set<string>, st: State, i: Input, peer: string)
    requires i.Backfill? && i.peer == peer && Agrees(relay, st, i, peer)
    ensures forall e :: e in st.history ==> SameTrust(relay, st.server, peer, e)
  {
  }

  lemma BackfillForm(st: State, i: Input, peer: string, sent: seq<L.Entry>)
    requires i.Backfill?
    ensures Step(st, i) == st && StepsFor(st.server, i, peer) == if i.peer == peer then [L.Backfills(i.claimed)] else []
    ensures var t := TrackFor(st, peer, sent);
      && t.history == st.history && t.sent == sent
      && (forall more :: TrackFor(st, peer, more) == L.Track(t.history, t.acked, t.up, more))
      && Output(st, i, peer) ==
           if i.peer != peer then []
           else Replay(st.server, peer, L.Window(st.history), if i.claimed > t.acked then i.claimed else t.acked)
  {
    hide Replay, L.Window;
  }

  // ---------------------------------------------------------------- whole runs

  function AllSteps(st: State, inputs: seq<Input>, peer: string): seq<L.Step>
    requires Run(st, inputs)
    decreases |inputs|
  {
    if inputs == [] then [] else StepsFor(st.server, inputs[0], peer) + AllSteps(Step(st, inputs[0]), inputs[1..], peer)
  }

  ghost predicate AllAgree(relay: set<string>, st: State, inputs: seq<Input>, peer: string)
    requires Run(st, inputs)
    decreases |inputs|
  {
    inputs == [] || (Agrees(relay, st, inputs[0], peer) && AllAgree(relay, Step(st, inputs[0]), inputs[1..], peer))
  }

  lemma {:induction false} FinalConcat(relay: set<string>, t: L.Track, a: seq<L.Step>, b: seq<L.Step>)
    ensures L.Final(relay, t, a + b) == L.Final(relay, L.Final(relay, t, a), b)
    decreases |a|
  {
    if a == [] {
      assert a + b == b;
    } else {
      hide L.Take;
      assert (a + b)[1..] == a[1..] + b;
      FinalConcat(relay, L.Take(relay, t, a[0]), a[1..], b);
    }
  }

  /**
   * Over every run of a server with its trust rules: the log's view of a peer keeps up with the server,
   * and the channel messages put on the link are those the view counts as sent.
   */
  lemma {:induction false} LogTracksServer(relay: set<string>, st: State, inputs: seq<Input>, peer: string,
                                           sent: seq<L.Entry>)
    requires Run(st, inputs) && AllAgree(relay, st, inputs, peer)
    ensures var after := L.Final(relay, TrackFor(st, peer, sent), AllSteps(st, inputs, peer));
      && after == TrackFor(Final(st, inputs), peer, after.sent)
      && LinesOf(after.sent) == LinesOf(sent) + ChannelLines(Outputs(st, inputs, peer))
    decreases |inputs|
  {
    if inputs == [] {
      NoChannelLines([]);
      assert LinesOf(sent) + [] == LinesOf(sent);
    } else {
      var i, st' := inputs[0], Step(st, inputs[0]);
      InputTells(relay, st, i, peer, sent);
      var mid := L.Final(relay, TrackFor(st, peer, sent), StepsFor(st.server, i, peer));
      hide Agrees, Output, StepsFor, LinesOf, ChannelLines, L.Final, Possible;
      LogTracksServer(relay, st', inputs[1..], peer, mid.sent);
      FinalConcat(relay, TrackFor(st, peer, sent), StepsFor(st.server, i, peer), AllSteps(st', inputs[1..], peer));
      ChannelLinesConcat(Output(st, i, peer), Outputs(st', inputs[1..], peer));
      Assoc(LinesOf(sent), ChannelLines(Output(st, i, peer)), ChannelLines(Outputs(st', inputs[1..], peer)));
    }
  }

  lemma InputTells(relay: set<string>, st: State, i: Input, peer: string, sent: seq<L.Entry>)
    requires Possible(st, i) && Agrees(relay, st, i, peer)
    ensures Tells(relay, st, i, peer, sent)
  {
    hide Tells, Agrees;
    match i
    case Command(_) => CommandStep(relay, st, i, peer, sent);
    case FromPeer(_, _) => FromPeerStep(relay, st, i, peer, sent);
    case LinkUp(_, _, _) => LinkStep(relay, st, i, peer, sent);
    case LinkDown(_) => LinkStep(relay, st, i, peer, sent);
    case Backfill(_, _) => BackfillStep(relay, st, i, peer, sent);
  }

  /** A server just started, linked to nobody. */
  predicate JustStarted(st: State) { st.server.links == map[] && st.history == [] && st.acked == map[] }

  lemma TrackIs(st: State, peer: string, sent: seq<L.Entry>)
    ensures TrackFor(st, peer, sent).history == st.history && TrackFor(st, peer, sent).sent == sent
  {
  }

  /**
   * Any number of drops and relinks of the link to `peer`. It comes back only while down; between a relink and
   * the peer's one BACKFILL, whose claim is no higher than what is remembered and reaches no further back
   * than the log, nothing carried happens; and whenever it drops before that BACKFILL nothing carried had
   * been missed. Then, whenever the link is live, the channel messages the peer was told are the server's own
   * in the channels its link carries, in order, each once.
   */
  lemma PeerToldEverything(relay: set<string>, st: State, inputs: seq<Input>, peer: string)
    requires JustStarted(st) && Run(st, inputs) && AllAgree(relay, st, inputs, peer)
    requires var steps := AllSteps(st, inputs, peer);
      L.Orderly(relay, L.START, L.Down, steps) && L.FinalPhase(L.Down, steps) == L.Live
        && L.AllHarmless(relay, L.START, L.Down, steps)
    ensures var h := Final(st, inputs).history;
      ChannelLines(Outputs(st, inputs, peer)) == LinesOf(L.Between(relay, h, 0, |h|))
  {
    assert TrackFor(st, peer, []) == L.START && LinesOf([]) == [];
    hide *;
    LogTracksServer(relay, st, inputs, peer, []);
    L.FromTheStart(relay, AllSteps(st, inputs, peer));
    TrackIs(Final(st, inputs), peer, L.Final(relay, L.START, AllSteps(st, inputs, peer)).sent);
  }
}
