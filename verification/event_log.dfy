/**
 * The bounded event log of a server and what each peer is sent from it: live while linked, replayed
 * by BACKFILL after a relink. Exactly when all that there was to write to the peer was written, in order
 * and once; what of it arrives is another matter (EventWire).
 */
module EventLog {
  import opened Text
  import opened Events

  const LOG_SIZE := 10000

  /** An event with its sequence number. */
  type Entry = (nat, Event)

  /** A message this server's own users sent, in a channel the link carries or to a nick. */
  predicate Carried(relay: set<string>, e: Event) {
    e.body.MessageEvent? && !Federated(e) && (StartsWith(Target(e), "#") ==> Target(e) in relay)
  }

  /** The carried events numbered above `a` and up to `b`, in order. */
  function Between(relay: set<string>, h: seq<Event>, a: nat, b: nat): seq<Entry>
    requires b <= |h|
    decreases b
  {
    if b <= a then [] else Between(relay, h, a, b - 1) + (if Carried(relay, h[b - 1]) then [(b, h[b - 1])] else [])
  }

  /** What the log holds after the events `h`: the last ten thousand of them, numbered consecutively. */
  function Window(h: seq<Event>): (r: seq<Entry>)
    ensures |r| == if |h| < 10000 then |h| else 10000
    ensures forall i :: 0 <= i < |r| ==> r[i] == (Evicted(h) + i + 1, h[Evicted(h) + i])
  {
    seq(|h| - Evicted(h), i requires 0 <= i < |h| - Evicted(h) => (Evicted(h) + i + 1, h[Evicted(h) + i]))
  }

  /** The log takes one more event and, when full, drops its first. */
  lemma WindowNext(h: seq<Event>, e: Event)
    ensures var log := Window(h) + [(|h| + 1, e)];
      Window(h + [e]) == if |log| > LOG_SIZE then log[1..] else log
  {
  }

  /** How many of the events `h` have dropped out of the log. */
  function Evicted(h: seq<Event>): nat { if |h| <= LOG_SIZE then 0 else |h| - LOG_SIZE }

  // ---------------------------------------------------------------- one peer's point of view

  /** All events so far, the number persisted at the last drop, the link's state, what the peer was sent. */
  datatype Track = Track(history: seq<Event>, acked: nat, up: bool, sent: seq<Entry>)

  /** A server that has just started. */
  const START := Track([], 0, false, [])

  function Emit(relay: set<string>, t: Track, e: Event): Track {
    var n := |t.history| + 1;
    t.(history := t.history + [e], sent := t.sent + if t.up && Carried(relay, e) then [(n, e)] else [])
  }

  function Drop(relay: set<string>, t: Track): Track {
    if !t.up then t else Emit(relay, t.(acked := |t.history|, up := false), SystemEvent(SERVER_UNLINK))
  }

  function Relink(relay: set<string>, t: Track): Track {
    Emit(relay, t.(up := true), SystemEvent(SERVER_LINK))
  }

  /** Where a replay starts: above what the peer claims, what it was known to have, and what was evicted. */
  function ReplayFrom(t: Track, claimed: int): nat {
    var known := if claimed > t.acked then claimed else t.acked;
    if known > Evicted(t.history) then known else Evicted(t.history)
  }

  function Backfill(relay: set<string>, t: Track, claimed: int): Track {
    t.(sent := t.sent + Between(relay, t.history, ReplayFrom(t, claimed), |t.history|))
  }

  // ---------------------------------------------------------------- the server object

  class Ircd {
    var lastSeq: nat
    var eventLog: seq<Entry>
    var links: set<string>
    var ackedSeq: map<string, nat>
    /** Lines written to each peer; the number of an event is not part of its line. */
    var sent: map<string, seq<Entry>>
    /** The channels each peer's link carries. */
    const relay: map<string, set<string>>
    ghost var history: seq<Event>

    ghost predicate Valid()
      reads this
    {
      lastSeq == |history| && eventLog == Window(history)
    }

    ghost function TrackOf(peer: string): Track
      reads this
    {
      Track(history, AckedOf(peer), peer in links, SentTo(peer))
    }

    function AckedOf(peer: string): nat
      reads this
    {
      if peer in ackedSeq then ackedSeq[peer] else 0
    }

    function SentTo(peer: string): seq<Entry>
      reads this
    {
      if peer in sent then sent[peer] else []
    }

    function RelayOf(peer: string): set<string> { if peer in relay then relay[peer] else {} }

    constructor (relay: map<string, set<string>>)
      ensures Valid() && this.relay == relay && history == []
      ensures forall p :: TrackOf(p) == START
    {
      lastSeq, eventLog, links, ackedSeq, sent := 0, [], {}, map[], map[];
      history := [];
      this.relay := relay;
    }

    method NextSeq() returns (n: nat)
      modifies this`lastSeq
      ensures lastSeq == old(lastSeq) + 1 == n
    {
      lastSeq := lastSeq + 1;
      n := lastSeq;
    }

    /** One line to one peer, if its link carries the event. */
    method RelayTo(p: string, n: nat, e: Event)
      modifies this`sent
      ensures SentTo(p) == old(SentTo(p)) + if Carried(RelayOf(p), e) then [(n, e)] else []
      ensures forall q :: q != p ==> SentTo(q) == old(SentTo(q))
    {
      hide Carried;
      if Carried(RelayOf(p), e) {
        sent := sent[p := SentTo(p) + [(n, e)]];
      }
    }

    /** One line to every linked peer whose link carries the event. */
    method RelayToPeers(n: nat, e: Event)
      modifies this`sent
      ensures forall p :: SentTo(p) == old(SentTo(p)) + if p in links && Carried(RelayOf(p), e) then [(n, e)] else []
    {
      hide Carried, SentTo, RelayOf;
      var todo := links;
      while todo != {}
        invariant todo <= links
        invariant forall p :: p in links - todo ==>
          SentTo(p) == old(SentTo(p)) + if Carried(RelayOf(p), e) then [(n, e)] else []
        invariant forall p :: p !in links || p in todo ==> SentTo(p) == old(SentTo(p))
        decreases |todo|
      {
        var p :| p in todo;
        RelayTo(p, n, e);
        todo := todo - {p};
      }
    }

    /** Number, log and relay one event to every linked peer; federated events are not relayed. */
    method EmitEvent(e: Event)
      requires Valid()
      modifies this
      ensures Valid() && links == old(links) && ackedSeq == old(ackedSeq) && history == old(history) + [e]
      ensures forall p :: TrackOf(p) == Emit(RelayOf(p), old(TrackOf(p)), e)
    {
      assert Federated(e) ==> forall p :: !Carried(RelayOf(p), e);
      hide Window, Evicted, Carried;
      WindowNext(history, e);
      var n := NextSeq();
      eventLog := eventLog + [(n, e)];
      if |eventLog| > LOG_SIZE {
        eventLog := eventLog[1..];
      }
      history := history + [e];
      if !Federated(e) {
        RelayToPeers(n, e);
      }
    }

    /** The link to `peer` is gone: remember how far it saw us, then announce the loss to the others. */
    method RemoveLink(peer: string)
      requires Valid()
      modifies this
      ensures Valid()
      ensures TrackOf(peer) == Drop(RelayOf(peer), old(TrackOf(peer)))
      ensures forall p :: p != peer ==>
        TrackOf(p) ==
          if peer in old(links) then Emit(RelayOf(p), old(TrackOf(p)), SystemEvent(SERVER_UNLINK))
          else old(TrackOf(p))
    {
      if peer in links {
        links := links - {peer};
        ackedSeq := ackedSeq[peer := lastSeq];
        EmitEvent(SystemEvent(SERVER_UNLINK));
      }
    }

    method CompleteHandshake(peer: string)
      requires Valid()
      modifies this
      ensures Valid()
      ensures TrackOf(peer) == Relink(RelayOf(peer), old(TrackOf(peer)))
      ensures forall p :: p != peer ==> TrackOf(p) == Emit(RelayOf(p), old(TrackOf(p)), SystemEvent(SERVER_LINK))
    {
      links := links + {peer};
      EmitEvent(SystemEvent(SERVER_LINK));
    }

    lemma ReplayStart(peer: string, claimed: int, effective: int)
      requires Valid() && effective == if claimed > AckedOf(peer) then claimed else AckedOf(peer)
      ensures eventLog == Window(history)
      ensures ReplayFrom(TrackOf(peer), claimed) == if effective > Evicted(history) then effective else Evicted(history)
    {
    }

    /** The replay loop over the log. */
    method ReplayLines(peer: string, claimed: int) returns (lines: seq<Entry>)
      requires Valid()
      ensures lines == Between(RelayOf(peer), history, ReplayFrom(TrackOf(peer), claimed), |history|)
    {
      hide *;
      var acked := AckedOf(peer);
      var effective := if claimed > acked then claimed else acked;
      ReplayStart(peer, claimed, effective);
      ghost var from, lo := ReplayFrom(TrackOf(peer), claimed), Evicted(history);
      LogIs(history, eventLog);
      lines := [];
      BetweenNothing(RelayOf(peer), history, from, lo);
      for i := 0 to |eventLog|
        invariant lines == Between(RelayOf(peer), history, from, lo + i)
      {
        var (number, event) := eventLog[i];
        assert number == lo + i + 1 && event == history[lo + i];
        BetweenNext(RelayOf(peer), history, from, lo + i);
        if number > effective && Carried(RelayOf(peer), event) {
          lines := lines + [(number, event)];
        }
      }
    }

    /** BACKFILL from `peer`, claiming to have seen everything up to `claimed`. */
    method HandleBackfill(peer: string, claimed: int)
      requires Valid()
      modifies this`sent
      ensures Valid()
      ensures TrackOf(peer) == Backfill(RelayOf(peer), old(TrackOf(peer)), claimed)
      ensures forall p :: p != peer ==> TrackOf(p) == old(TrackOf(p))
    {
      var lines := ReplayLines(peer, claimed);
      sent := sent[peer := SentTo(peer) + lines];
    }
  }

  lemma BetweenNothing(relay: set<string>, h: seq<Event>, a: nat, b: nat)
    requires b <= a && b <= |h|
    ensures Between(relay, h, a, b) == []
  {
  }

  lemma LogIs(h: seq<Event>, log: seq<Entry>)
    ensures log == Window(h) ==>
      && Evicted(h) + |log| == |h|
      && forall i :: 0 <= i < |log| ==> log[i] == (Evicted(h) + i + 1, h[Evicted(h) + i])
  {
  }

  lemma BetweenNext(relay: set<string>, h: seq<Event>, a: nat, b: nat)
    requires b < |h|
    ensures Between(relay, h, a, b + 1) ==
      if b + 1 > a && Carried(relay, h[b]) then Between(relay, h, a, b) + [(b + 1, h[b])] else Between(relay, h, a, b)
  {
  }

  // ---------------------------------------------------------------- lists of carried events

  /** The entries are numbered above `a` and up to `b`, and carried. */
  predicate EntriesOf(r: seq<Entry>, relay: set<string>, h: seq<Event>, a: nat, b: nat)
    requires b <= |h|
  {
    forall i :: 0 <= i < |r| ==> a < r[i].0 <= b && r[i].1 == h[r[i].0 - 1] && Carried(relay, r[i].1)
  }

  lemma EntriesNext(r: seq<Entry>, relay: set<string>, h: seq<Event>, a: nat, b: nat)
    requires b < |h| && EntriesOf(r, relay, h, a, b)
    ensures EntriesOf(r, relay, h, a, b + 1)
    ensures a <= b && Carried(relay, h[b]) ==> EntriesOf(r + [(b + 1, h[b])], relay, h, a, b + 1)
  {
    hide Carried;
  }

  lemma BetweenNumbers(relay: set<string>, h: seq<Event>, a: nat, b: nat)
    requires b <= |h|
    ensures var r := Between(relay, h, a, b); forall i :: 0 <= i < |r| ==> a < r[i].0 <= b
  {
    hide Between, Carried;
    BetweenEntries(relay, h, a, b);
  }

  lemma {:induction false} BetweenEntries(relay: set<string>, h: seq<Event>, a: nat, b: nat)
    requires b <= |h|
    ensures EntriesOf(Between(relay, h, a, b), relay, h, a, b)
    decreases b
  {
    if a < b {
      BetweenEntries(relay, h, a, b - 1);
      BetweenNext(relay, h, a, b - 1);
      EntriesNext(Between(relay, h, a, b - 1), relay, h, a, b - 1);
      hide *;
    }
  }

  lemma {:induction false} BetweenSplit(relay: set<string>, h: seq<Event>, a: nat, m: nat, b: nat)
    requires a <= m <= b <= |h|
    ensures Between(relay, h, a, b) == Between(relay, h, a, m) + Between(relay, h, m, b)
    decreases b
  {
    if m < b { BetweenSplit(relay, h, a, m, b - 1); }
  }

  lemma {:induction false} BetweenExtend(relay: set<string>, h: seq<Event>, more: seq<Event>, a: nat, b: nat)
    requires b <= |h|
    ensures Between(relay, h + more, a, b) == Between(relay, h, a, b)
    decreases b
  {
    if a < b {
      assert (h + more)[b - 1] == h[b - 1];
      BetweenExtend(relay, h, more, a, b - 1);
    }
  }

  /** No carried event is numbered above `a` and up to `b`. */
  predicate Silent(relay: set<string>, h: seq<Event>, a: nat, b: nat) {
    forall i :: a <= i < b && i < |h| ==> !Carried(relay, h[i])
  }

  lemma {:induction false} SilentIsEmpty(relay: set<string>, h: seq<Event>, a: nat, b: nat)
    requires b <= |h|
    ensures Silent(relay, h, a, b) <==> Between(relay, h, a, b) == []
    decreases b
  {
    hide *;
    if a < b {
      SilentIsEmpty(relay, h, a, b - 1);
      SilentNext(relay, h, a, b - 1);
      BetweenNext(relay, h, a, b - 1);
    } else {
      SilentNothing(relay, h, a, b);
      BetweenNothing(relay, h, a, b);
    }
  }

  lemma SilentNext(relay: set<string>, h: seq<Event>, a: nat, b: nat)
    requires a <= b < |h|
    ensures Silent(relay, h, a, b + 1) <==> Silent(relay, h, a, b) && !Carried(relay, h[b])
  {
    hide Carried;
  }

  lemma SilentNothing(relay: set<string>, h: seq<Event>, a: nat, b: nat)
    requires b <= a
    ensures Silent(relay, h, a, b)
  {
  }

  // ---------------------------------------------------------------- one drop, one relink, one backfill

  lemma EmitIs(relay: set<string>, t: Track, e: Event)
    ensures var n := |t.history| + 1;
      && Emit(relay, t, e) == t.(history := t.history + [e], sent := Emit(relay, t, e).sent)
      && Emit(relay, t, e).sent == if t.up && Carried(relay, e) then t.sent + [(n, e)] else t.sent
  {
    hide Carried;
    assert t.sent + [] == t.sent;
  }

  /** Everything there is to send after one more event. */
  lemma DueNext(relay: set<string>, h: seq<Event>, e: Event)
    ensures var due := Between(relay, h, 0, |h|);
      && Between(relay, h + [e], 0, |h| + 1) == (if Carried(relay, e) then due + [(|h| + 1, e)] else due)
      && (|h| + 1, e) !in due
  {
    hide *;
    BetweenExtend(relay, h, [e], 0, |h|);
    BetweenNext(relay, h + [e], 0, |h|);
    BetweenNumbers(relay, h, 0, |h|);
  }

  lemma DropIs(relay: set<string>, t: Track)
    requires t.up
    ensures Drop(relay, t) == Track(t.history + [SystemEvent(SERVER_UNLINK)], |t.history|, false, t.sent)
  {
    assert t.sent + [] == t.sent;
  }

  /** The peer has been sent every carried event numbered up to `n`, in order, each once, and nothing else. */
  predicate HasAllUpTo(relay: set<string>, t: Track, n: nat) {
    n <= |t.history| && t.sent == Between(relay, t.history, 0, n)
  }

  function EmitAll(relay: set<string>, t: Track, es: seq<Event>): Track
    decreases |es|
  {
    if es == [] then t else EmitAll(relay, Emit(relay, t, es[0]), es[1..])
  }

  /** One event while the link is up adds its number to the list, if it is carried. */
  lemma EmitSent(relay: set<string>, t: Track, e: Event, more: seq<Event>)
    requires t.up
    ensures var h := t.history + [e] + more;
            Emit(relay, t, e).sent + Between(relay, h, |t.history| + 1, |h|) ==
              t.sent + Between(relay, h, |t.history|, |h|)
  {
    var n, h := |t.history|, t.history + [e] + more;
    BetweenSplit(relay, h, n, n + 1, |h|);
    assert Between(relay, h, n, n) == [];
    assert h[n] == e;
    Assoc(t.sent, Between(relay, h, n, n + 1), Between(relay, h, n + 1, |h|));
  }

  lemma {:induction false} EmitAllSent(relay: set<string>, t: Track, es: seq<Event>)
    ensures var r := EmitAll(relay, t, es);
            && r.history == t.history + es && r.acked == t.acked && r.up == t.up
            && r.sent == t.sent + if t.up then Between(relay, t.history + es, |t.history|, |t.history| + |es|) else []
    decreases |es|
  {
    hide *;
    var h := t.history;
    EmitAllIs(relay, t, es);
    Assoc(t.sent, [], []);
    if es == [] {
      assert h + es == h;
      BetweenNothing(relay, h, |h|, |h|);
    } else {
      EmitAllSent(relay, Emit(relay, t, es[0]), es[1..]);
      EmitIs(relay, t, es[0]);
      HeadTail(h, es);
      if t.up { EmitSent(relay, t, es[0], es[1..]); }
    }
  }

  lemma HeadTail<T>(h: seq<T>, es: seq<T>)
    requires es != []
    ensures h + [es[0]] + es[1..] == h + es
  {
  }

  lemma EmitAllIs(relay: set<string>, t: Track, es: seq<Event>)
    ensures EmitAll(relay, t, es) == if es == [] then t else EmitAll(relay, Emit(relay, t, es[0]), es[1..])
  {
    hide Emit;
  }

  /**
   * From a drop on: `down` happens while the link is down, then it comes back, `early` happens before
   * the peer's BACKFILL is handled, then the replay.
   */
  function Cycle(relay: set<string>, t: Track, down: seq<Event>, early: seq<Event>, claimed: int): Track {
    Backfill(relay, EmitAll(relay, Relink(relay, EmitAll(relay, t, down)), early), claimed)
  }

  /** The link event itself is carried to nobody. */
  lemma RelinkIs(relay: set<string>, t: Track)
    ensures Relink(relay, t) == Track(t.history + [SystemEvent(SERVER_LINK)], t.acked, true, t.sent)
  {
    assert t.sent + [] == t.sent;
  }

  lemma BackfillIs(relay: set<string>, t: Track, claimed: int)
    ensures var after := Backfill(relay, t, claimed);
      && after.history == t.history && after.acked == t.acked && after.up == t.up
      && ReplayFrom(after, claimed) == ReplayFrom(t, claimed)
      && after.sent == t.sent + Between(relay, t.history, ReplayFrom(t, claimed), |t.history|)
  {
  }

  lemma ReplayFromIs(t: Track, claimed: int)
    ensures var known := if claimed > t.acked then claimed else t.acked;
      ReplayFrom(t, claimed) == if known > Evicted(t.history) then known else Evicted(t.history)
  {
  }

  lemma CycleIs(relay: set<string>, t: Track, down: seq<Event>, early: seq<Event>, claimed: int)
    ensures Cycle(relay, t, down, early, claimed) ==
      Backfill(relay, EmitAll(relay, Relink(relay, EmitAll(relay, t, down)), early), claimed)
    ensures HasAllUpTo(relay, t, t.acked) ==> t.acked <= |t.history| && t.sent == Between(relay, t.history, 0, t.acked)
  {
  }

  /** What the peer has been sent after the cycle: what it had, what it saw live, what was replayed. */
  lemma CycleSent(relay: set<string>, t: Track, down: seq<Event>, early: seq<Event>, claimed: int)
    requires !t.up && t.acked <= |t.history| && HasAllUpTo(relay, t, t.acked)
    ensures var h := t.history + down + [SystemEvent(SERVER_LINK)] + early;
            var u := |t.history| + |down| + 1;
            var after := Cycle(relay, t, down, early, claimed);
            && after.history == h && after.acked == t.acked
            && after.sent == Between(relay, h, 0, t.acked)
              + (Between(relay, h, u, |h|) + Between(relay, h, ReplayFrom(after, claimed), |h|))
  {
    hide *;
    var missed := EmitAll(relay, t, down);
    var up := Relink(relay, missed);
    var before := EmitAll(relay, up, early);
    CycleIs(relay, t, down, early, claimed);
    EmitAllSent(relay, t, down);
    RelinkIs(relay, missed);
    EmitAllSent(relay, up, early);
    BackfillIs(relay, before, claimed);
    var h, later := up.history + early, down + [SystemEvent(SERVER_LINK)] + early;
    BetweenExtend(relay, t.history, later, 0, t.acked);
    Assoc(t.sent, [], []);
    Assoc(t.history, down, [SystemEvent(SERVER_LINK)]);
    Assoc(t.history, down + [SystemEvent(SERVER_LINK)], early);
    assert up.history == t.history + down + [SystemEvent(SERVER_LINK)] && h == t.history + later;
    Assoc(t.sent, Between(relay, h, |up.history|, |h|), Between(relay, h, ReplayFrom(before, claimed), |h|));
  }

  /** Two lists of numbered events starting in different stretches differ. */
  lemma ListsAgree(base: seq<Entry>, missed: seq<Entry>, live: seq<Entry>, replay: seq<Entry>)
    requires missed != [] && live != [] ==> missed[0] != live[0]
    ensures base + (live + replay) == base + (missed + live) <==>
              (live == [] && missed == replay) || (missed == [] && replay == [])
  {
    SamePrefix(base, live + replay, missed + live);
    if live == [] {
      assert live + replay == replay && missed + live == missed;
    } else if missed == [] {
      assert missed + live == live;
      AddsNothing(live, replay);
    } else {
      assert (live + replay)[0] == live[0] && (missed + live)[0] == missed[0];
    }
  }

  /**
   * The peer ends a cycle with every carried event in order, each once, exactly when either nothing
   * carried happened between relink and replay and nothing carried since the drop was claimed or
   * evicted, or nothing carried was missed while down and nothing is left to replay.
   */
  lemma CycleExact(relay: set<string>, t: Track, down: seq<Event>, early: seq<Event>, claimed: int)
    requires !t.up && t.acked <= |t.history| && HasAllUpTo(relay, t, t.acked)
    ensures var after := Cycle(relay, t, down, early, claimed);
            var h, u, e := after.history, |t.history| + |down| + 1, ReplayFrom(after, claimed);
            HasAllUpTo(relay, after, |h|) <==>
              || (Silent(relay, h, u, |h|) && Silent(relay, h, t.acked, e))
              || (Silent(relay, h, t.acked, u) && Silent(relay, h, e, |h|))
  {
    CycleSent(relay, t, down, early, claimed);
    var after := Cycle(relay, t, down, early, claimed);
    var h, u, a, e := after.history, |t.history| + |down| + 1, t.acked, ReplayFrom(after, claimed);
    var n := |h|;
    var missed, live, replay := Between(relay, h, a, u), Between(relay, h, u, n), Between(relay, h, e, n);
    BetweenSplit(relay, h, 0, a, n);
    BetweenSplit(relay, h, a, u, n);
    SilentIsEmpty(relay, h, a, u);
    SilentIsEmpty(relay, h, u, n);
    SilentIsEmpty(relay, h, if e < n then e else n, n);
    BetweenNumbers(relay, h, a, u);
    BetweenNumbers(relay, h, u, n);
    ListsAgree(Between(relay, h, 0, a), missed, live, replay);
    if live == [] { ReplayWhole(relay, h, a, u, e); }
  }

  /** With nothing live, the replay is all that was missed exactly when it starts early enough. */
  lemma ReplayWhole(relay: set<string>, h: seq<Event>, a: nat, u: nat, e: nat)
    requires a <= u <= |h| && a <= e && Between(relay, h, u, |h|) == []
    ensures Between(relay, h, a, u) == Between(relay, h, e, |h|) <==> Silent(relay, h, a, e)
  {
    var n := |h|;
    var e' := if e < n then e else n;
    BetweenSplit(relay, h, a, u, n);
    BetweenSplit(relay, h, a, e', n);
    SilentIsEmpty(relay, h, a, e');
    assert Between(relay, h, a, u) + [] == Between(relay, h, a, u);
    AddsNothingBefore(Between(relay, h, a, e'), Between(relay, h, e', n));
  }

  lemma SamePrefix<T>(p: seq<T>, x: seq<T>, y: seq<T>)
    ensures p + x == p + y <==> x == y
  {
    assert (p + x)[|p|..] == x && (p + y)[|p|..] == y;
  }

  lemma AddsNothingBefore<T>(x: seq<T>, y: seq<T>)
    ensures x + y == y <==> x == []
  {
    assert |x + y| == |x| + |y|;
    assert [] + y == y;
  }

  lemma AddsNothing<T>(x: seq<T>, y: seq<T>)
    ensures x + y == x <==> y == []
  {
    assert |x + y| == |x| + |y|;
    assert x + [] == x;
  }

  // ---------------------------------------------------------------- whole runs

  datatype Step = Happens(event: Event) | Drops | Relinks | Backfills(claimed: int)

  function Take(relay: set<string>, t: Track, s: Step): Track {
    match s
    case Happens(e) => Emit(relay, t, e)
    case Drops => Drop(relay, t)
    case Relinks => Relink(relay, t)
    case Backfills(claimed) => Backfill(relay, t, claimed)
  }

  lemma TakeBackfills(relay: set<string>, t: Track, claimed: int)
    ensures Take(relay, t, Backfills(claimed)) == Backfill(relay, t, claimed)
    ensures Backfill(relay, t, claimed).up == t.up
  {
  }

  datatype Phase = Down | Waiting | Live

  /** The claim is no higher than what the peer is known to have, and the log still holds the rest. */
  predicate Recoverable(t: Track, claimed: int) {
    claimed <= t.acked && |t.history| - t.acked <= 10000
  }

  /**
   * The step is in turn: a link drops while up and comes back only while down; between a relink and its
   * one recoverable BACKFILL nothing carried happens. The link may also drop before the BACKFILL.
   */
  predicate InTurn(relay: set<string>, t: Track, phase: Phase, s: Step) {
    match s
    case Happens(e) => phase == Waiting ==> !Carried(relay, e)
    case Drops => phase != Down
    case Relinks => phase == Down
    case Backfills(claimed) => phase == Waiting && Recoverable(t, claimed)
  }

  /** A link that drops before its BACKFILL has nothing to make good. */
  predicate Harmless(relay: set<string>, t: Track, phase: Phase, s: Step) {
    s.Drops? && phase == Waiting ==> Silent(relay, t.history, t.acked, |t.history|)
  }

  function PhaseAfter(phase: Phase, s: Step): Phase {
    match s
    case Happens(_) => phase
    case Drops => Down
    case Relinks => Waiting
    case Backfills(_) => Live
  }

  predicate Orderly(relay: set<string>, t: Track, phase: Phase, steps: seq<Step>)
    decreases |steps|
  {
    steps == [] ||
    (InTurn(relay, t, phase, steps[0])
      && Orderly(relay, Take(relay, t, steps[0]), PhaseAfter(phase, steps[0]), steps[1..]))
  }

  function Final(relay: set<string>, t: Track, steps: seq<Step>): Track
    decreases |steps|
  {
    if steps == [] then t else Final(relay, Take(relay, t, steps[0]), steps[1..])
  }

  function FinalPhase(phase: Phase, steps: seq<Step>): Phase
    decreases |steps|
  {
    if steps == [] then phase else FinalPhase(PhaseAfter(phase, steps[0]), steps[1..])
  }

  /** Live: everything was sent. Down or waiting: everything up to the last drop was. */
  predicate InStep(relay: set<string>, t: Track, phase: Phase) {
    && t.acked <= |t.history| && (t.up <==> phase != Down)
    && (phase == Live ==> HasAllUpTo(relay, t, |t.history|))
    && (phase != Live ==> HasAllUpTo(relay, t, t.acked))
  }

  lemma HappensKeeps(relay: set<string>, t: Track, phase: Phase, e: Event)
    requires InStep(relay, t, phase) && InTurn(relay, t, phase, Happens(e))
    ensures InStep(relay, Emit(relay, t, e), phase)
  {
    hide Between, Carried, Emit;
    EmitIs(relay, t, e);
    DueNext(relay, t.history, e);
    BetweenExtend(relay, t.history, [e], 0, t.acked);
  }

  lemma DropsKeeps(relay: set<string>, t: Track)
    requires InStep(relay, t, Live)
    ensures InStep(relay, Drop(relay, t), Down)
  {
    hide Between, Carried, Drop;
    DropIs(relay, t);
    BetweenExtend(relay, t.history, [SystemEvent(SERVER_UNLINK)], 0, |t.history|);
  }

  lemma RelinksKeeps(relay: set<string>, t: Track)
    requires InStep(relay, t, Down)
    ensures InStep(relay, Relink(relay, t), Waiting)
  {
    hide Between, Carried, Relink;
    RelinkIs(relay, t);
    BetweenExtend(relay, t.history, [SystemEvent(SERVER_LINK)], 0, t.acked);
  }

  lemma BackfillsKeeps(relay: set<string>, t: Track, claimed: int)
    requires InStep(relay, t, Waiting) && Recoverable(t, claimed)
    ensures InStep(relay, Backfill(relay, t, claimed), Live)
  {
    hide Between, Carried, Backfill;
    BackfillIs(relay, t, claimed);
    BetweenSplit(relay, t.history, 0, t.acked, |t.history|);
    assert ReplayFrom(t, claimed) == t.acked;
  }

  /** A drop before the BACKFILL counts as sent what never was, unless nothing carried was missed. */
  lemma EarlyDropExact(relay: set<string>, t: Track)
    requires InStep(relay, t, Waiting)
    ensures InStep(relay, Drop(relay, t), Down) <==> Silent(relay, t.history, t.acked, |t.history|)
    ensures !InStep(relay, Drop(relay, t), Down) ==> Behind(relay, Drop(relay, t), Down)
  {
    hide Between, Carried, Drop;
    DropIs(relay, t);
    var h, n := t.history, |t.history|;
    BetweenExtend(relay, h, [SystemEvent(SERVER_UNLINK)], 0, n);
    BetweenSplit(relay, h, 0, t.acked, n);
    SilentIsEmpty(relay, h, t.acked, n);
    AddsNothing(t.sent, Between(relay, h, t.acked, n));
  }

  /** The number up to which the peer is taken to have been sent everything. */
  function Owed(t: Track, phase: Phase): nat { if phase == Live then |t.history| else t.acked }

  /** The peer has been sent fewer events than it is taken to have been. */
  predicate Behind(relay: set<string>, t: Track, phase: Phase) {
    && t.acked <= |t.history| && (t.up <==> phase != Down)
    && |t.sent| < |Between(relay, t.history, 0, Owed(t, phase))|
  }

  lemma HappensBehind(relay: set<string>, t: Track, phase: Phase, e: Event)
    requires Behind(relay, t, phase) && InTurn(relay, t, phase, Happens(e))
    ensures Behind(relay, Emit(relay, t, e), phase)
  {
    hide Between, Carried, Emit;
    EmitIs(relay, t, e);
    DueNext(relay, t.history, e);
    BetweenExtend(relay, t.history, [e], 0, Owed(t, phase));
  }

  lemma DropsBehind(relay: set<string>, t: Track, phase: Phase)
    requires Behind(relay, t, phase) && phase != Down
    ensures Behind(relay, Drop(relay, t), Down)
  {
    hide Between, Carried, Drop;
    DropIs(relay, t);
    BetweenExtend(relay, t.history, [SystemEvent(SERVER_UNLINK)], 0, |t.history|);
    BetweenSplit(relay, t.history, 0, t.acked, |t.history|);
  }

  lemma RelinksBehind(relay: set<string>, t: Track)
    requires Behind(relay, t, Down)
    ensures Behind(relay, Relink(relay, t), Waiting)
  {
    hide Between, Carried, Relink;
    RelinkIs(relay, t);
    BetweenExtend(relay, t.history, [SystemEvent(SERVER_LINK)], 0, t.acked);
  }

  lemma BackfillsBehind(relay: set<string>, t: Track, claimed: int)
    requires Behind(relay, t, Waiting) && Recoverable(t, claimed)
    ensures Behind(relay, Backfill(relay, t, claimed), Live)
  {
    hide Between, Carried, Backfill;
    BackfillIs(relay, t, claimed);
    BetweenSplit(relay, t.history, 0, t.acked, |t.history|);
    assert ReplayFrom(t, claimed) == t.acked;
  }

  /** What was once skipped is never made good. */
  lemma StepStaysBehind(relay: set<string>, t: Track, phase: Phase, s: Step)
    requires Behind(relay, t, phase) && InTurn(relay, t, phase, s)
    ensures Behind(relay, Take(relay, t, s), PhaseAfter(phase, s))
  {
    hide Behind, Emit, Drop, Relink, Backfill, Recoverable, Carried;
    match s
    case Happens(e) => HappensBehind(relay, t, phase, e);
    case Drops => DropsBehind(relay, t, phase);
    case Relinks => RelinksBehind(relay, t);
    case Backfills(claimed) => BackfillsBehind(relay, t, claimed);
  }

  lemma BehindIsNotInStep(relay: set<string>, t: Track, phase: Phase)
    requires Behind(relay, t, phase)
    ensures !InStep(relay, t, phase)
  {
  }

  /** One step of a run that has lost nothing so far. */
  lemma StepExact(relay: set<string>, t: Track, phase: Phase, s: Step)
    requires InStep(relay, t, phase) && InTurn(relay, t, phase, s)
    ensures InStep(relay, Take(relay, t, s), PhaseAfter(phase, s)) <==> Harmless(relay, t, phase, s)
    ensures !Harmless(relay, t, phase, s) ==> Behind(relay, Take(relay, t, s), PhaseAfter(phase, s))
  {
    hide InStep, Behind, Emit, Drop, Relink, Backfill, Recoverable, Carried;
    match s
    case Happens(e) => HappensKeeps(relay, t, phase, e);
    case Drops => if phase == Live { DropsKeeps(relay, t); } else { EarlyDropExact(relay, t); }
    case Relinks => RelinksKeeps(relay, t);
    case Backfills(claimed) => BackfillsKeeps(relay, t, claimed);
  }

  /** Every drop before a BACKFILL had nothing to make good. */
  predicate AllHarmless(relay: set<string>, t: Track, phase: Phase, steps: seq<Step>)
    decreases |steps|
  {
    steps == [] ||
    (Harmless(relay, t, phase, steps[0])
      && AllHarmless(relay, Take(relay, t, steps[0]), PhaseAfter(phase, steps[0]), steps[1..]))
  }

  lemma {:induction false} RunStaysBehind(relay: set<string>, t: Track, phase: Phase, steps: seq<Step>)
    requires Behind(relay, t, phase) && Orderly(relay, t, phase, steps)
    ensures Behind(relay, Final(relay, t, steps), FinalPhase(phase, steps))
    decreases |steps|
  {
    if steps != [] {
      hide Behind, InTurn, Take;
      StepStaysBehind(relay, t, phase, steps[0]);
      RunStaysBehind(relay, Take(relay, t, steps[0]), PhaseAfter(phase, steps[0]), steps[1..]);
    }
  }

  /**
   * Over any number of drops and relinks: what the peer was sent, live or replayed, is exactly this
   * server's own carried messages, in order, each once, if and only if whenever the link dropped before
   * its BACKFILL nothing carried had been missed.
   */
  lemma {:induction false} NothingLostNothingTwice(relay: set<string>, t: Track, phase: Phase, steps: seq<Step>)
    requires InStep(relay, t, phase) && Orderly(relay, t, phase, steps)
    ensures InStep(relay, Final(relay, t, steps), FinalPhase(phase, steps)) <==> AllHarmless(relay, t, phase, steps)
    decreases |steps|
  {
    if steps != [] {
      hide InStep, InTurn, Harmless, Take;
      var t', phase' := Take(relay, t, steps[0]), PhaseAfter(phase, steps[0]);
      StepExact(relay, t, phase, steps[0]);
      if Harmless(relay, t, phase, steps[0]) {
        NothingLostNothingTwice(relay, t', phase', steps[1..]);
      } else {
        RunStaysBehind(relay, t', phase', steps[1..]);
        BehindIsNotInStep(relay, Final(relay, t', steps[1..]), FinalPhase(phase', steps[1..]));
      }
    }
  }

  /** From a server that has just started, whenever the link is live. */
  lemma FromTheStart(relay: set<string>, steps: seq<Step>)
    requires Orderly(relay, START, Down, steps) && FinalPhase(Down, steps) == Live
    ensures var t := Final(relay, START, steps);
      t.sent == Between(relay, t.history, 0, |t.history|) <==> AllHarmless(relay, START, Down, steps)
  {
    NothingLostNothingTwice(relay, START, Down, steps);
    FinalCounts(relay, START, Down, steps);
  }

  /** The numbers and the phase keep track of the link. */
  lemma {:induction false} FinalCounts(relay: set<string>, t: Track, phase: Phase, steps: seq<Step>)
    requires Orderly(relay, t, phase, steps) && t.acked <= |t.history| && (t.up <==> phase != Down)
    ensures var f := Final(relay, t, steps); f.acked <= |f.history| && (f.up <==> FinalPhase(phase, steps) != Down)
    decreases |steps|
  {
    if steps != [] {
      hide Carried, Between;
      FinalCounts(relay, Take(relay, t, steps[0]), PhaseAfter(phase, steps[0]), steps[1..]);
    }
  }

  /** An event raised while the link is down, and one nobody is sent. */
  lemma QuietSteps(relay: set<string>, t: Track, e: Event)
    ensures !t.up ==> Emit(relay, t, e) == t.(history := t.history + [e])
    ensures t.sent == [] ==> Drop(relay, t).sent == [] && Relink(relay, t).sent == []
  {
    assert t.sent + [] == t.sent;
  }

  lemma TakeIs(relay: set<string>, t: Track, e: Event, claimed: int)
    ensures Take(relay, t, Happens(e)) == Emit(relay, t, e)
    ensures Take(relay, t, Drops) == Drop(relay, t)
    ensures Take(relay, t, Relinks) == Relink(relay, t)
    ensures Take(relay, t, Backfills(claimed)) == Backfill(relay, t, claimed)
  {
  }

  lemma NothingReplayed(relay: set<string>, t: Track, claimed: int)
    requires Between(relay, t.history, ReplayFrom(t, claimed), |t.history|) == []
    ensures Backfill(relay, t, claimed) == t
  {
    hide Between;
    assert t.sent + [] == t.sent;
  }

  /** The states of the run that loses `m`. */
  lemma EarlyDropStates(relay: set<string>, m: Event)
    requires Carried(relay, m)
    ensures var link, unlink := SystemEvent(SERVER_LINK), SystemEvent(SERVER_UNLINK);
      && Take(relay, START, Happens(m)) == Track([m], 0, false, [])
      && Take(relay, Track([m], 0, false, []), Relinks) == Track([m, link], 0, true, [])
      && Take(relay, Track([m, link], 0, true, []), Drops) == Track([m, link, unlink], 2, false, [])
      && Take(relay, Track([m, link, unlink], 2, false, []), Relinks) == Track([m, link, unlink, link], 2, true, [])
      && Take(relay, Track([m, link, unlink, link], 2, true, []), Backfills(0)) ==
        Track([m, link, unlink, link], 2, true, [])
  {
    var link, unlink := SystemEvent(SERVER_LINK), SystemEvent(SERVER_UNLINK);
    var missed, back := Track([m], 0, false, []), Track([m, link], 0, true, []);
    var gone, again := Track([m, link, unlink], 2, false, []), Track([m, link, unlink, link], 2, true, []);
    assert START == Track([], 0, false, []) && ReplayFrom(again, 0) == 2;
    hide *;
    QuietSteps(relay, START, m);
    TakeIs(relay, START, m, 0);
    RelinkIs(relay, missed);
    TakeIs(relay, missed, m, 0);
    DropIs(relay, back);
    TakeIs(relay, back, m, 0);
    RelinkIs(relay, gone);
    TakeIs(relay, gone, m, 0);
    BetweenFour(relay, m);
    NothingReplayed(relay, again, 0);
    TakeIs(relay, again, m, 0);
  }

  lemma EarlyDropTurns(relay: set<string>, m: Event)
    requires Carried(relay, m)
    ensures var link, unlink := SystemEvent(SERVER_LINK), SystemEvent(SERVER_UNLINK);
      && InTurn(relay, START, Down, Happens(m)) && InTurn(relay, Track([m], 0, false, []), Down, Relinks)
      && InTurn(relay, Track([m, link], 0, true, []), Waiting, Drops)
      && !Harmless(relay, Track([m, link], 0, true, []), Waiting, Drops)
      && InTurn(relay, Track([m, link, unlink], 2, false, []), Down, Relinks)
      && InTurn(relay, Track([m, link, unlink, link], 2, true, []), Waiting, Backfills(0))
      && Harmless(relay, START, Down, Happens(m)) && Harmless(relay, Track([m], 0, false, []), Down, Relinks)
  {
    hide Carried;
    var h := [m, SystemEvent(SERVER_LINK)];
    assert h[0] == m;
    assert !Silent(relay, h, 0, 2);
  }

  lemma OpsCarried(m: Event)
    requires m.channel == Some("#ops") && m.body.MessageEvent? && m.origin == ""
    ensures Carried({"#ops"}, m)
  {
    assert "#ops"[..1] == "#";
  }

  /** A message sent while the link was down is lost for good if the link drops again before the BACKFILL. */
  lemma EarlyDropLosesMessage(text: string)
    ensures var m := Event(Some("#ops"), MessageEvent("", "spark-ori", text, false), "");
            var run := [Happens(m), Relinks, Drops, Relinks, Backfills(0)];
            var t := Final({"#ops"}, START, run);
            && Orderly({"#ops"}, START, Down, run) && FinalPhase(Down, run) == Live
            && !AllHarmless({"#ops"}, START, Down, run)
            && t.sent == [] && Between({"#ops"}, t.history, 0, |t.history|) == [(1, m)]
  {
    hide *;
    var relay := {"#ops"};
    var m := Event(Some("#ops"), MessageEvent("", "spark-ori", text, false), "");
    OpsCarried(m);
    EarlyDropStates(relay, m);
    EarlyDropTurns(relay, m);
    BetweenFour(relay, m);
    var link, unlink := SystemEvent(SERVER_LINK), SystemEvent(SERVER_UNLINK);
    var missed, back := Track([m], 0, false, []), Track([m, link], 0, true, []);
    var gone := Track([m, link, unlink], 2, false, []);
    var again := Track([m, link, unlink, link], 2, true, []);
    var r1: seq<Step> := [Backfills(0)];
    var r2 := [Relinks] + r1;
    var r3 := [Drops] + r2;
    var r4 := [Relinks] + r3;
    assert r1 == [Backfills(0)] + [];
    FirstStep(relay, again, Waiting, Backfills(0), []);
    FirstStep(relay, gone, Down, Relinks, r1);
    FirstStep(relay, back, Waiting, Drops, r2);
    FirstStep(relay, missed, Down, Relinks, r3);
    FirstStep(relay, START, Down, Happens(m), r4);
    Ended(relay, again, Live);
    assert [Happens(m)] + r4 == [Happens(m), Relinks, Drops, Relinks, Backfills(0)];
  }

  lemma Ended(relay: set<string>, t: Track, phase: Phase)
    ensures Final(relay, t, []) == t && FinalPhase(phase, []) == phase
    ensures Orderly(relay, t, phase, []) && AllHarmless(relay, t, phase, [])
    ensures PhaseAfter(Waiting, Backfills(0)) == Live && PhaseAfter(Down, Relinks) == Waiting
    ensures PhaseAfter(Waiting, Drops) == Down
    ensures forall e :: PhaseAfter(Down, Happens(e)) == Down
  {
  }

  lemma FirstStep(relay: set<string>, t: Track, phase: Phase, s: Step, rest: seq<Step>)
    ensures var t', phase', steps := Take(relay, t, s), PhaseAfter(phase, s), [s] + rest;
      && steps == [s] + rest
      && Final(relay, t, steps) == Final(relay, t', rest) && FinalPhase(phase, steps) == FinalPhase(phase', rest)
      && (Orderly(relay, t, phase, steps) <==> InTurn(relay, t, phase, s) && Orderly(relay, t', phase', rest))
      && (AllHarmless(relay, t, phase, steps) <==> Harmless(relay, t, phase, s) && AllHarmless(relay, t', phase', rest))
  {
    assert ([s] + rest)[1..] == rest;
  }

  /** Of these four events the first alone is carried. */
  lemma BetweenFour(relay: set<string>, m: Event)
    requires Carried(relay, m)
    ensures var h := [m, SystemEvent(SERVER_LINK), SystemEvent(SERVER_UNLINK), SystemEvent(SERVER_LINK)];
      Between(relay, h, 0, 4) == [(1, m)] && Between(relay, h, 2, 4) == []
  {
    var h := [m, SystemEvent(SERVER_LINK), SystemEvent(SERVER_UNLINK), SystemEvent(SERVER_LINK)];
    assert Between(relay, h, 0, 0) == [] && Between(relay, h, 0, 1) == [(1, m)];
    assert Between(relay, h, 0, 3) == Between(relay, h, 0, 2) == Between(relay, h, 0, 1);
    assert Between(relay, h, 2, 3) == [];
  }

  // ---------------------------------------------------------------- runs of any kind

  /** The number of the last event sent. */
  function LastSent(t: Track): nat { if t.sent == [] then 0 else t.sent[|t.sent| - 1].0 }

  /** What was sent so far is the beginning of what there was to send. */
  predicate InOrder(relay: set<string>, t: Track) {
    t.sent <= Between(relay, t.history, 0, |t.history|)
  }

  /**
   * What the step sends is what comes next: an event sent live leaves nothing behind it, and a replay, if
   * it has anything to send, starts right behind the last event sent.
   */
  predicate Timely(relay: set<string>, t: Track, s: Step) {
    match s
    case Happens(e) => t.up && Carried(relay, e) ==> Silent(relay, t.history, LastSent(t), |t.history|)
    case Backfills(claimed) =>
      var from := ReplayFrom(t, claimed);
      || Silent(relay, t.history, from, |t.history|)
      || (from >= LastSent(t) && Silent(relay, t.history, LastSent(t), from))
    case _ => true
  }

  predicate AllTimely(relay: set<string>, t: Track, steps: seq<Step>)
    decreases |steps|
  {
    steps == [] || (Timely(relay, t, steps[0]) && AllTimely(relay, Take(relay, t, steps[0]), steps[1..]))
  }

  /** The numbers go up. */
  predicate Rises(r: seq<Entry>) {
    forall i, j :: 0 <= i < j < |r| ==> r[i].0 < r[j].0
  }

  lemma RisesNext(r: seq<Entry>, e: Entry)
    requires Rises(r) && forall i :: 0 <= i < |r| ==> r[i].0 < e.0
    ensures Rises(r + [e])
  {
  }

  lemma {:induction false} BetweenRises(relay: set<string>, h: seq<Event>, a: nat, b: nat)
    requires b <= |h|
    ensures Rises(Between(relay, h, a, b))
    decreases b
  {
    hide *;
    if a < b {
      BetweenRises(relay, h, a, b - 1);
      BetweenNext(relay, h, a, b - 1);
      BetweenNumbers(relay, h, a, b - 1);
      RisesNext(Between(relay, h, a, b - 1), (b, h[b - 1]));
    } else {
      BetweenNothing(relay, h, a, b);
      RisesNothing();
    }
  }

  lemma RisesNothing()
    ensures Rises([])
  {
  }

  /** A beginning of rising entries ends where its last number says. */
  lemma CutAt(sent: seq<Entry>, first: seq<Entry>, rest: seq<Entry>, l: nat)
    requires sent != [] && sent <= first + rest && Rises(first + rest) && sent[|sent| - 1].0 == l
    requires forall i :: 0 <= i < |first| ==> first[i].0 <= l
    requires forall i :: 0 <= i < |rest| ==> rest[i].0 > l
    ensures sent == first
  {
    var all, k := first + rest, |sent|;
    assert all[k - 1].0 == l;
    forall i | |first| <= i < |all| ensures all[i].0 > l {
      assert all[i] == rest[i - |first|];
    }
    assert |first| > 0 ==> all[|first| - 1] == first[|first| - 1];
  }

  lemma LastSentIs(t: Track)
    ensures LastSent(t) == if t.sent == [] then 0 else t.sent[|t.sent| - 1].0
  {
  }

  /** What is still to be sent is what came after the last event sent. */
  lemma StillToSend(relay: set<string>, t: Track)
    requires InOrder(relay, t)
    ensures LastSent(t) <= |t.history|
    ensures Between(relay, t.history, 0, |t.history|) == t.sent + Between(relay, t.history, LastSent(t), |t.history|)
  {
    hide *;
    var h, n, l := t.history, |t.history|, LastSent(t);
    InOrderIs(relay, t);
    LastSentIs(t);
    BetweenNumbers(relay, h, 0, n);
    if t.sent == [] {
      Assoc(Between(relay, h, 0, n), [], []);
    } else {
      assert t.sent[|t.sent| - 1] == Between(relay, h, 0, n)[|t.sent| - 1];
      BetweenSplit(relay, h, 0, l, n);
      BetweenRises(relay, h, 0, n);
      BetweenNumbers(relay, h, 0, l);
      BetweenNumbers(relay, h, l, n);
      CutAt(t.sent, Between(relay, h, 0, l), Between(relay, h, l, n), l);
    }
  }

  /** The last event sent was a carried one. */
  lemma LastCarried(relay: set<string>, t: Track)
    requires InOrder(relay, t) && LastSent(t) > 0
    ensures LastSent(t) <= |t.history| && Carried(relay, t.history[LastSent(t) - 1])
  {
    hide Between, Carried;
    BetweenEntries(relay, t.history, 0, |t.history|);
    assert t.sent[|t.sent| - 1] == Between(relay, t.history, 0, |t.history|)[|t.sent| - 1];
  }

  /** Adding one more event at the end. */
  lemma PrefixGrows<T>(x: seq<T>, y: seq<T>, e: T)
    requires x <= y
    ensures x <= y + [e]
    ensures e !in y ==> (x + [e] <= y + [e] <==> x == y)
  {
    if e !in y && |x| < |y| { assert (y + [e])[|x|] == y[|x|] && (x + [e])[|x|] == e; }
  }

  lemma InOrderIs(relay: set<string>, t: Track)
    ensures InOrder(relay, t) <==> t.sent <= Between(relay, t.history, 0, |t.history|)
  {
  }

  lemma TimelyIs(relay: set<string>, t: Track, e: Event, claimed: int)
    ensures Timely(relay, t, Happens(e)) <==>
      (t.up && Carried(relay, e) ==> Silent(relay, t.history, LastSent(t), |t.history|))
    ensures var from := ReplayFrom(t, claimed);
      Timely(relay, t, Backfills(claimed)) <==>
        || Silent(relay, t.history, from, |t.history|)
        || (from >= LastSent(t) && Silent(relay, t.history, LastSent(t), from))
  {
    hide Carried, Silent, ReplayFrom, LastSent;
  }

  lemma HappensExact(relay: set<string>, t: Track, e: Event)
    requires InOrder(relay, t)
    ensures InOrder(relay, Emit(relay, t, e)) <==> Timely(relay, t, Happens(e))
  {
    hide *;
    var h, n, last := t.history, |t.history|, LastSent(t);
    InOrderIs(relay, t);
    InOrderIs(relay, Emit(relay, t, e));
    EmitIs(relay, t, e);
    TimelyIs(relay, t, e, 0);
    DueNext(relay, h, e);
    StillToSend(relay, t);
    SilentIsEmpty(relay, h, last, n);
    AddsNothing(t.sent, Between(relay, h, last, n));
    PrefixGrows(t.sent, Between(relay, h, 0, n), (n + 1, e));
  }

  /** A replay that starts at `from`, when what is to be sent starts at `last`. */
  lemma ReplayFits(relay: set<string>, h: seq<Event>, from: nat, last: nat)
    requires last <= |h| && (last > 0 ==> Carried(relay, h[last - 1]))
    ensures Between(relay, h, from, |h|) <= Between(relay, h, last, |h|) <==>
              Silent(relay, h, from, |h|) || (from >= last && Silent(relay, h, last, from))
  {
    hide *;
    var n := |h|;
    var replay, due := Between(relay, h, from, n), Between(relay, h, last, n);
    SilentIsEmpty(relay, h, from, n);
    if from >= last && from <= n {
      SilentIsEmpty(relay, h, last, from);
      BetweenSplit(relay, h, last, from, n);
      BetweenNumbers(relay, h, last, from);
      BetweenNumbers(relay, h, from, n);
      BehindFits(Between(relay, h, last, from), replay, from);
    } else if from < last {
      EarlyReplay(relay, h, from, last);
    } else {
      BetweenNothing(relay, h, from, n);
    }
  }

  /** A replay from before the last event sent sends that event again. */
  lemma EarlyReplay(relay: set<string>, h: seq<Event>, from: nat, last: nat)
    requires from < last <= |h| && Carried(relay, h[last - 1])
    ensures |Between(relay, h, from, |h|)| > |Between(relay, h, last, |h|)|
  {
    hide *;
    BetweenSplit(relay, h, from, last, |h|);
    BetweenNext(relay, h, from, last - 1);
  }

  /** What is numbered above `from` begins a list that starts with what is not only if there is no such start. */
  lemma BehindFits(skipped: seq<Entry>, replay: seq<Entry>, from: nat)
    requires forall i :: 0 <= i < |skipped| ==> skipped[i].0 <= from
    requires forall i :: 0 <= i < |replay| ==> replay[i].0 > from
    ensures replay <= skipped + replay <==> replay == [] || skipped == []
  {
    if skipped == [] {
      assert skipped + replay == replay;
    } else if replay != [] {
      assert (skipped + replay)[0] == skipped[0] && replay[0].0 > from;
    }
  }

  lemma SamePrefixes<T>(p: seq<T>, x: seq<T>, y: seq<T>)
    ensures p + x <= p + y <==> x <= y
  {
    assert (p + x)[|p|..] == x && (p + y)[|p|..] == y;
    assert |x| <= |y| ==> (p + y)[..|p + x|] == p + y[..|x|];
    assert |x| <= |y| ==> (p + y[..|x|])[|p|..] == y[..|x|];
  }

  lemma BackfillsExact(relay: set<string>, t: Track, claimed: int)
    requires InOrder(relay, t)
    ensures InOrder(relay, Backfill(relay, t, claimed)) <==> Timely(relay, t, Backfills(claimed))
  {
    hide *;
    var h, from := t.history, ReplayFrom(t, claimed);
    InOrderIs(relay, t);
    InOrderIs(relay, Backfill(relay, t, claimed));
    BackfillIs(relay, t, claimed);
    TimelyIs(relay, t, SystemEvent(SERVER_LINK), claimed);
    StillToSend(relay, t);
    if LastSent(t) > 0 { LastCarried(relay, t); }
    ReplayFits(relay, h, from, LastSent(t));
    SamePrefixes(t.sent, Between(relay, h, from, |h|), Between(relay, h, LastSent(t), |h|));
  }

  /** Raising an event nobody is sent. */
  lemma SystemInOrder(relay: set<string>, t: Track, kind: string, t': Track)
    requires InOrder(relay, t) && t'.history == t.history + [SystemEvent(kind)] && t'.sent == t.sent
    ensures InOrder(relay, t')
  {
    hide Between, Carried;
    BetweenExtend(relay, t.history, [SystemEvent(kind)], 0, |t.history|);
    BetweenNext(relay, t.history + [SystemEvent(kind)], 0, |t.history|);
  }

  lemma LinkStepsExact(relay: set<string>, t: Track)
    requires InOrder(relay, t)
    ensures InOrder(relay, Drop(relay, t)) && InOrder(relay, Relink(relay, t))
  {
    hide InOrder, Between, Carried;
    RelinkIs(relay, t);
    SystemInOrder(relay, t, SERVER_LINK, Relink(relay, t));
    if t.up {
      DropIs(relay, t);
      SystemInOrder(relay, t, SERVER_UNLINK, Drop(relay, t));
    }
  }

  lemma TakeExact(relay: set<string>, t: Track, s: Step)
    requires InOrder(relay, t)
    ensures InOrder(relay, Take(relay, t, s)) <==> Timely(relay, t, s)
  {
    match s
    case Happens(e) => HappensExact(relay, t, e);
    case Drops => LinkStepsExact(relay, t);
    case Relinks => LinkStepsExact(relay, t);
    case Backfills(claimed) => BackfillsExact(relay, t, claimed);
  }

  /** Only events there were have been sent. */
  predicate SentKnown(t: Track) {
    forall i :: 0 <= i < |t.sent| ==> t.sent[i].0 <= |t.history|
  }

  /** What was sent out of order stays so. */
  lemma StaysDisordered(sent: seq<Entry>, more: seq<Entry>, due: seq<Entry>, later: seq<Entry>)
    requires !(sent <= due) && |later| <= 1 && (later != [] ==> later[0] !in sent)
    ensures !(sent + more <= due + later)
  {
    if |sent| <= |due| {
      var i :| 0 <= i < |sent| && sent[i] != due[i];
      assert (sent + more)[i] != (due + later)[i];
    } else if later != [] {
      assert (sent + more)[|due|] == sent[|due|] && (due + later)[|due|] == later[0];
    }
  }

  /** A step adds at most one event to the history and only adds to what was sent. */
  lemma TakeAdds(relay: set<string>, t: Track, s: Step) returns (more: seq<Entry>, later: seq<Entry>)
    requires SentKnown(t)
    ensures var t' := Take(relay, t, s);
      && SentKnown(t') && t'.sent == t.sent + more && |later| <= 1 && (later != [] ==> later[0].0 == |t.history| + 1)
      && Between(relay, t'.history, 0, |t'.history|) == Between(relay, t.history, 0, |t.history|) + later
  {
    hide *;
    match s
    case Happens(e) =>
      TakeIs(relay, t, e, 0);
      more, later := EmitAdds(relay, t, e);
    case Drops =>
      TakeIs(relay, t, SystemEvent(SERVER_LINK), 0);
      more, later := DropAdds(relay, t);
    case Relinks =>
      TakeIs(relay, t, SystemEvent(SERVER_LINK), 0);
      more, later := RelinkAdds(relay, t);
    case Backfills(claimed) =>
      TakeIs(relay, t, SystemEvent(SERVER_LINK), claimed);
      BackfillIs(relay, t, claimed);
      more, later := Between(relay, t.history, ReplayFrom(t, claimed), |t.history|), [];
      BetweenNumbers(relay, t.history, ReplayFrom(t, claimed), |t.history|);
      KnownAdds(t, more, |t.history|, Backfill(relay, t, claimed));
      assert Between(relay, t.history, 0, |t.history|) + [] == Between(relay, t.history, 0, |t.history|);
  }

  lemma KnownAdds(t: Track, more: seq<Entry>, n: nat, t': Track)
    requires SentKnown(t) && |t.history| <= |t'.history| && t'.sent == t.sent + more && n <= |t'.history|
    requires forall i :: 0 <= i < |more| ==> more[i].0 <= n
    ensures SentKnown(t')
  {
  }

  lemma EmitAdds(relay: set<string>, t: Track, e: Event) returns (more: seq<Entry>, later: seq<Entry>)
    requires SentKnown(t)
    ensures var t' := Emit(relay, t, e);
      && SentKnown(t') && t'.sent == t.sent + more && |later| <= 1 && (later != [] ==> later[0].0 == |t.history| + 1)
      && Between(relay, t'.history, 0, |t'.history|) == Between(relay, t.history, 0, |t.history|) + later
  {
    hide *;
    var n := |t.history| + 1;
    EmitIs(relay, t, e);
    DueNext(relay, t.history, e);
    more, later := OneOrNone(t.up && Carried(relay, e), (n, e)), OneOrNone(Carried(relay, e), (n, e));
    AddsOneOrNone(t.sent, t.up && Carried(relay, e), (n, e));
    AddsOneOrNone(Between(relay, t.history, 0, |t.history|), Carried(relay, e), (n, e));
    OneOrNoneIs(t.up && Carried(relay, e), (n, e));
    OneOrNoneIs(Carried(relay, e), (n, e));
    KnownAdds(t, more, n, Emit(relay, t, e));
  }

  function OneOrNone(b: bool, e: Entry): seq<Entry> { if b then [e] else [] }

  lemma OneOrNoneIs(b: bool, e: Entry)
    ensures |OneOrNone(b, e)| <= 1 && forall i :: 0 <= i < |OneOrNone(b, e)| ==> OneOrNone(b, e)[i] == e
  {
  }

  lemma AddsOneOrNone(x: seq<Entry>, b: bool, e: Entry)
    ensures x + OneOrNone(b, e) == if b then x + [e] else x
  {
  }

  lemma RelinkAdds(relay: set<string>, t: Track) returns (more: seq<Entry>, later: seq<Entry>)
    requires SentKnown(t)
    ensures var t' := Relink(relay, t);
      && SentKnown(t') && t'.sent == t.sent + more && |later| <= 1 && (later != [] ==> later[0].0 == |t.history| + 1)
      && Between(relay, t'.history, 0, |t'.history|) == Between(relay, t.history, 0, |t.history|) + later
  {
    assert Relink(relay, t) == Emit(relay, t.(up := true), SystemEvent(SERVER_LINK));
    assert SentKnown(t.(up := true));
    hide *;
    more, later := EmitAdds(relay, t.(up := true), SystemEvent(SERVER_LINK));
  }

  lemma DropAdds(relay: set<string>, t: Track) returns (more: seq<Entry>, later: seq<Entry>)
    requires SentKnown(t)
    ensures var t' := Drop(relay, t);
      && SentKnown(t') && t'.sent == t.sent + more && |later| <= 1 && (later != [] ==> later[0].0 == |t.history| + 1)
      && Between(relay, t'.history, 0, |t'.history|) == Between(relay, t.history, 0, |t.history|) + later
  {
    if t.up {
      var d := t.(acked := |t.history|, up := false);
      assert Drop(relay, t) == Emit(relay, d, SystemEvent(SERVER_UNLINK)) && SentKnown(d);
      hide *;
      more, later := EmitAdds(relay, d, SystemEvent(SERVER_UNLINK));
    } else {
      assert Drop(relay, t) == t;
      hide *;
      more, later := [], [];
      assert t.sent + [] == t.sent;
      assert Between(relay, t.history, 0, |t.history|) + [] == Between(relay, t.history, 0, |t.history|);
    }
  }

  lemma {:induction false} DisorderStays(relay: set<string>, t: Track, steps: seq<Step>)
    requires SentKnown(t) && !InOrder(relay, t)
    ensures !InOrder(relay, Final(relay, t, steps))
    decreases |steps|
  {
    if steps != [] {
      var more, later := TakeAdds(relay, t, steps[0]);
      StaysDisordered(t.sent, more, Between(relay, t.history, 0, |t.history|), later);
      hide Take, Between;
      DisorderStays(relay, Take(relay, t, steps[0]), steps[1..]);
    }
  }

  /**
   * Over any run of events, drops, relinks and BACKFILLs with any claims: in the end the peer has been
   * sent every carried event, in order, each once, if and only if every step sent what came next and
   * nothing carried came after the last event sent.
   */
  lemma {:induction false} RunExact(relay: set<string>, t: Track, steps: seq<Step>)
    requires SentKnown(t) && InOrder(relay, t)
    ensures var f := Final(relay, t, steps);
      f.sent == Between(relay, f.history, 0, |f.history|) <==>
        AllTimely(relay, t, steps) && Silent(relay, f.history, LastSent(f), |f.history|)
    decreases |steps|
  {
    if steps == [] {
      StillToSend(relay, t);
      SilentIsEmpty(relay, t.history, LastSent(t), |t.history|);
      AddsNothing(t.sent, Between(relay, t.history, LastSent(t), |t.history|));
    } else {
      var more, later := TakeAdds(relay, t, steps[0]);
      TakeExact(relay, t, steps[0]);
      hide Take, Timely, Between, Silent, Carried;
      if Timely(relay, t, steps[0]) {
        RunExact(relay, Take(relay, t, steps[0]), steps[1..]);
      } else {
        DisorderStays(relay, Take(relay, t, steps[0]), steps[1..]);
      }
    }
  }

  /**
   * The claim a peer really makes is its own number, not ours, and may be too high: a message sent
   * while the link was down is then never replayed.
   */
  lemma HighClaimLosesMessage()
    ensures var t := Track([], 0, false, []);
            var m := Event(Some("#ops"), MessageEvent("", "spark-ori", "hello", false), "");
            var after := Backfill({"#ops"}, Relink({"#ops"}, Emit({"#ops"}, t, m)), 5);
            after.sent == [] && Between({"#ops"}, after.history, 0, |after.history|) != []
  {
    var t := Track([], 0, false, []);
    var m := Event(Some("#ops"), MessageEvent("", "spark-ori", "hello", false), "");
    var relay := {"#ops"};
    var up := Relink(relay, Emit(relay, t, m));
    assert up.history == [m, SystemEvent(SERVER_LINK)];
    assert "#ops"[..1] == "#";
    assert Carried(relay, up.history[0]);
    SilentIsEmpty(relay, up.history, 0, 2);
  }
}
