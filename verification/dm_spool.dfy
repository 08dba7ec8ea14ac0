/**
 * The spool of direct messages for nicks that are offline: one shared table, read in pages by whoever
 * drains it, and swept by a retention policy.
 */
module DmSpool {
  import opened Text
  import opened Names

  /** A row; its key in the table is the message id. */
  datatype Row = Row(sender: string, recipient: string, ts: real, payload: string, tags: string,
                     deliveredAt: Option<real>)

  type Table = map<string, Row>

  const DELIVERED_TTL: real := 604800.0
  const UNDELIVERED_TTL: real := 2592000.0

  // ---------------------------------------------------------------- what the statements mean

  /** `ORDER BY ts_server ASC, msg_id ASC`. */
  predicate Before(t: Table, a: string, b: string)
    requires a in t && b in t
  {
    t[a].ts < t[b].ts || (t[a].ts == t[b].ts && Less(a, b))
  }

  predicate First(t: Table, s: set<string>, a: string)
    requires s <= t.Keys
  {
    a in s && forall b :: b in s && b != a ==> Before(t, a, b)
  }

  lemma {:induction false} FirstExists(t: Table, s: set<string>)
    requires s <= t.Keys && s != {}
    ensures exists a :: First(t, s, a)
    decreases |s|
  {
    var a :| a in s;
    if s == {a} {
      assert First(t, s, a);
    } else {
      FirstExists(t, s - {a});
      var b :| First(t, s - {a}, b);
      LessTotal(a, b);
      if Before(t, a, b) {
        forall c | c in s && c != a && c != b ensures Before(t, a, c) {
          assert Before(t, b, c);
          if Less(a, b) && Less(b, c) { LessTransitive(a, b, c); }
        }
        assert First(t, s, a);
      } else {
        assert First(t, s, b);
      }
    }
  }

  lemma FirstUnique(t: Table, s: set<string>, a: string, b: string)
    requires s <= t.Keys && First(t, s, a) && First(t, s, b)
    ensures a == b
  {
    LessTotal(a, b);
  }

  function FirstOf(t: Table, s: set<string>): (a: string)
    requires s <= t.Keys && s != {}
    ensures First(t, s, a)
  {
    FirstExists(t, s);
    assert forall a, b :: First(t, s, a) && First(t, s, b) ==> a == b by {
      forall a, b | First(t, s, a) && First(t, s, b) ensures a == b { FirstUnique(t, s, a, b); }
    }
    var a :| a in s && First(t, s, a);
    a
  }

  function Ordered(t: Table, s: set<string>): seq<string>
    requires s <= t.Keys
    decreases |s|
  {
    if s == {} then [] else [FirstOf(t, s)] + Ordered(t, s - {FirstOf(t, s)})
  }

  /** The rows for `nick` that have not been delivered. */
  function Pending(t: Table, nick: string): set<string> {
    set a | a in t && t[a].recipient == nick && t[a].deliveredAt.None?
  }

  function Take<T>(s: seq<T>, n: int): seq<T> {
    if n <= 0 then [] else if |s| <= n then s else s[..n]
  }

  /** One page of the drain. */
  function Page(t: Table, nick: string, limit: int): seq<string> {
    Take(Ordered(t, Pending(t, nick)), limit)
  }

  function Inserted(t: Table, id: string, row: Row): Table {
    if id in t then t else t[id := row.(deliveredAt := None)]
  }

  function Marked(t: Table, id: string, now: real): Table {
    if id in t && t[id].deliveredAt.None? then t[id := t[id].(deliveredAt := Some(now))] else t
  }

  predicate DeliveredExpired(row: Row, now: real) {
    row.deliveredAt.Some? && row.deliveredAt.value < now - DELIVERED_TTL
  }

  predicate UndeliveredExpired(row: Row, now: real) {
    row.deliveredAt.None? && row.ts < now - UNDELIVERED_TTL
  }

  function Collected(t: Table, now: real): Table {
    map a | a in t && !DeliveredExpired(t[a], now) && !UndeliveredExpired(t[a], now) :: t[a]
  }

  /** What the policy promises: 30 days for a message not delivered, 7 days from its delivery for any other. */
  predicate InTime(row: Row, now: real) {
    if row.deliveredAt.None? then now - row.ts <= 30.0 * 86400.0 else now - row.deliveredAt.value <= 7.0 * 86400.0
  }

  /** A sweep leaves exactly the rows whose time is not up. */
  lemma CollectedInTime(t: Table, now: real)
    ensures Collected(t, now) == map a | a in t && InTime(t[a], now) :: t[a]
  {
    assert forall a :: a in t ==>
      (!DeliveredExpired(t[a], now) && !UndeliveredExpired(t[a], now) <==> InTime(t[a], now));
  }

  lemma CollectedIs(t: Table, expired: set<string>, abandoned: set<string>, now: real)
    requires forall a :: a in expired <==> a in t && DeliveredExpired(t[a], now)
    requires forall a :: a in abandoned <==> a in t && UndeliveredExpired(t[a], now)
    ensures t - expired - abandoned == Collected(t, now)
    ensures |expired| + |abandoned| == |t| - |Collected(t, now)|
  {
    assert t - expired - abandoned == Collected(t, now);
    assert Collected(t, now).Keys == t.Keys - (expired + abandoned);
    assert expired !! abandoned && expired + abandoned <= t.Keys;
    hide *;
    Counts(t.Keys, expired, abandoned);
  }

  lemma Counts(all: set<string>, x: set<string>, y: set<string>)
    requires x !! y && x + y <= all
    ensures |x| + |y| == |all| - |all - (x + y)|
  {
  }

  // ---------------------------------------------------------------- the store

  class DmSpoolStore {
    var rows: Table

    constructor ()
      ensures rows == map[]
    {
      rows := map[];
    }

    /** A second message of the same id is ignored. */
    method Insert(id: string, sender: string, recipient: string, ts: real, payload: string, tags: string)
      modifies this
      ensures rows == Inserted(old(rows), id, Row(sender, recipient, ts, payload, tags, None))
    {
      if id !in rows {
        rows := rows[id := Row(sender, recipient, ts, payload, tags, None)];
      }
    }

    method MarkDelivered(id: string, now: real) returns (updated: bool)
      modifies this
      ensures rows == Marked(old(rows), id, now) && updated == (rows != old(rows))
    {
      updated := id in rows && rows[id].deliveredAt.None?;
      if updated {
        rows := rows[id := rows[id].(deliveredAt := Some(now))];
      }
    }

    function QueryForNick(nick: string, limit: int): seq<string>
      reads this
    {
      if limit <= 0 then [] else Page(rows, nick, limit)
    }

    /** `DELETE ... WHERE delivered_at < cutoff`, then `DELETE ... WHERE ts_server < cutoff`, with their row counts. */
    method Gc(now: real) returns (delivered: nat, undelivered: nat)
      modifies this
      ensures rows == map a | a in old(rows) && InTime(old(rows)[a], now) :: old(rows)[a]
      ensures rows == Collected(old(rows), now)
      ensures delivered == |set a | a in old(rows) && DeliveredExpired(old(rows)[a], now)|
      ensures undelivered == |set a | a in old(rows) && UndeliveredExpired(old(rows)[a], now)|
      ensures delivered + undelivered == |old(rows)| - |rows|
    {
      ghost var t := rows;
      var expired := set a | a in rows && DeliveredExpired(rows[a], now);
      rows := rows - expired;
      delivered := |expired|;
      var abandoned := set a | a in rows && UndeliveredExpired(rows[a], now);
      rows := rows - abandoned;
      undelivered := |abandoned|;
      assert abandoned == set a | a in t && UndeliveredExpired(t[a], now);
      CollectedIs(t, expired, abandoned, now);
      CollectedInTime(t, now);
    }

    method Acknowledge(page: seq<string>, now: real)
      modifies this
      ensures rows == MarkedAll(old(rows), page, now)
    {
      for i := 0 to |page|
        invariant rows == MarkedAll(old(rows), page[..i], now)
      {
        MarkOneMore(old(rows), page[..i], page[i], now);
        var _ := MarkDelivered(page[i], now);
        assert page[..i + 1] == page[..i] + [page[i]];
      }
      assert page[..|page|] == page;
    }

    lemma QueryIs(nick: string, limit: int)
      ensures limit >= 1 ==> QueryForNick(nick, limit) == Page(rows, nick, limit)
    {
    }

    /** What a reconnecting bridge does: fetch a page, acknowledge each row, until a page is empty. */
    method Drain(nick: string, limit: int, now: real) returns (drained: seq<string>)
      requires limit >= 1
      modifies this
      ensures drained == Ordered(old(rows), Pending(old(rows), nick))
      ensures rows == DrainedTable(old(rows), nick, now) && Pending(rows, nick) == {}
    {
      ghost var was, all := rows, Ordered(rows, Pending(rows, nick));
      hide *;
      drained := [];
      ghost var n := 0;
      NothingMarked(was, nick, now);
      NextPage(was, nick, limit, 0, now);
      QueryIs(nick, limit);
      var page := QueryForNick(nick, limit);
      assert all[..0] == [];
      while page != []
        invariant n <= |all| && drained == all[..n] && rows == MarkedAll(was, drained, now)
        invariant page == Take(all[n..], limit)
        decreases |all| - n
      {
        MarkTwice(was, drained, page, now);
        Acknowledge(page, now);
        TakeNext(all, n, limit);
        drained, n := drained + page, n + |page|;
        NextPage(was, nick, limit, n, now);
        QueryIs(nick, limit);
        page := QueryForNick(nick, limit);
      }
      TakeNext(all, n, limit);
      assert all[..n] == all;
      AllMarked(was, nick, now);
    }
  }

  // ---------------------------------------------------------------- the drain

  /** The table with the rows listed marked. */
  function MarkedAll(t: Table, ids: seq<string>, now: real): Table {
    map a | a in t :: if a in ids && t[a].deliveredAt.None? then t[a].(deliveredAt := Some(now)) else t[a]
  }

  /** After the drain every row for the nick is delivered, the others are as they were. */
  function DrainedTable(t: Table, nick: string, now: real): Table {
    map a | a in t ::
      if t[a].recipient == nick && t[a].deliveredAt.None? then t[a].(deliveredAt := Some(now)) else t[a]
  }

  lemma MarkOneMore(t: Table, ids: seq<string>, id: string, now: real)
    ensures Marked(MarkedAll(t, ids, now), id, now) == MarkedAll(t, ids + [id], now)
  {
  }

  lemma TakeNext<T>(all: seq<T>, n: nat, limit: int)
    requires n <= |all|
    ensures var page := Take(all[n..], limit); n + |page| <= |all| && all[..n] + page == all[..n + |page|]
    ensures limit >= 1 && Take(all[n..], limit) == [] ==> n == |all|
  {
  }

  lemma NothingMarked(t: Table, nick: string, now: real)
    ensures MarkedAll(t, [], now) == t && Pending(DrainedTable(t, nick, now), nick) == {}
  {
  }

  lemma AllMarked(t: Table, nick: string, now: real)
    ensures MarkedAll(t, Ordered(t, Pending(t, nick)), now) == DrainedTable(t, nick, now)
  {
    OrderedIs(t, Pending(t, nick));
  }

  lemma MarkTwice(t: Table, a: seq<string>, b: seq<string>, now: real)
    ensures MarkedAll(MarkedAll(t, a, now), b, now) == MarkedAll(t, a + b, now)
  {
  }

  /** The list is a strictly ascending enumeration of the set: each element once. */
  lemma {:induction false} OrderedIs(t: Table, s: set<string>)
    requires s <= t.Keys
    ensures |Ordered(t, s)| == |s| && forall a :: a in Ordered(t, s) <==> a in s
    ensures forall i, j :: 0 <= i < j < |Ordered(t, s)| ==>
      Ordered(t, s)[i] in t && Ordered(t, s)[j] in t && Before(t, Ordered(t, s)[i], Ordered(t, s)[j])
    decreases |s|
  {
    if s != {} {
      OrderedIs(t, s - {FirstOf(t, s)});
    }
  }

  lemma {:induction false} OrderedSame(t: Table, t': Table, s: set<string>)
    requires s <= t.Keys && s <= t'.Keys && forall a :: a in s ==> t[a].ts == t'[a].ts
    ensures Ordered(t, s) == Ordered(t', s)
    decreases |s|
  {
    if s != {} {
      assert First(t', s, FirstOf(t, s));
      FirstUnique(t', s, FirstOf(t, s), FirstOf(t', s));
      OrderedSame(t, t', s - {FirstOf(t, s)});
    }
  }

  /** Leaving out the first `n` leaves the rest in the same order. */
  lemma {:induction false} OrderedDrop(t: Table, s: set<string>, n: nat, rest: set<string>)
    requires s <= t.Keys && n <= |Ordered(t, s)|
    requires forall a :: a in rest <==> a in s && a !in Ordered(t, s)[..n]
    ensures Ordered(t, rest) == Ordered(t, s)[n..]
    decreases n
  {
    if n == 0 {
      assert rest == s;
    } else {
      var m, all := FirstOf(t, s), Ordered(t, s);
      assert all[1..] == Ordered(t, s - {m});
      assert all[..n] == [m] + all[1..][..n - 1];
      OrderedDrop(t, s - {m}, n - 1, rest);
      assert all[1..][n - 1..] == all[n..];
    }
  }

  /** Marking the first `n` rows makes the next page start right behind them. */
  lemma NextPage(t: Table, nick: string, limit: int, n: nat, now: real)
    requires n <= |Ordered(t, Pending(t, nick))|
    ensures var all := Ordered(t, Pending(t, nick));
            Page(MarkedAll(t, all[..n], now), nick, limit) == Take(all[n..], limit)
  {
    var all := Ordered(t, Pending(t, nick));
    var t' := MarkedAll(t, all[..n], now);
    OrderedDrop(t, Pending(t, nick), n, Pending(t', nick));
    OrderedSame(t, t', Pending(t', nick));
  }

  /** A page is the oldest rows still pending, as many as there are up to the limit, oldest first. */
  lemma PageIsOldestPending(t: Table, nick: string, limit: nat)
    ensures var page, pending := Page(t, nick, limit), Pending(t, nick);
      && |page| == (if |pending| <= limit then |pending| else limit)
      && (forall i :: 0 <= i < |page| ==> page[i] in pending)
      && (forall i, j :: 0 <= i < j < |page| ==> Before(t, page[i], page[j]))
      && (forall i, a :: 0 <= i < |page| && a in pending && a !in page ==>
        Before(t, page[i], a) && t[page[i]].ts <= t[a].ts)
  {
    var all, page := Ordered(t, Pending(t, nick)), Page(t, nick, limit);
    OrderedIs(t, Pending(t, nick));
    assert page == all[..|page|];
    forall i, a | 0 <= i < |page| && a in Pending(t, nick) && a !in page ensures Before(t, page[i], a) {
      var j :| 0 <= j < |all| && all[j] == a;
      assert forall k :: 0 <= k < |page| ==> page[k] == all[k];
    }
  }

  // ---------------------------------------------------------------- over whole runs

  datatype Op =
    | OpInsert(id: string, row: Row)
    | OpMark(id: string, now: real)
    | OpGc(now: real)
    | OpDrain(nick: string, now: real)

  function Apply(t: Table, op: Op): Table {
    match op
    case OpInsert(id, row) => Inserted(t, id, row)
    case OpMark(id, now) => Marked(t, id, now)
    case OpGc(now) => Collected(t, now)
    case OpDrain(nick, now) => DrainedTable(t, nick, now)
  }

  function Run(t: Table, ops: seq<Op>): Table
    decreases |ops|
  {
    if ops == [] then t else Run(Apply(t, ops[0]), ops[1..])
  }

  /**
   * Operations that are not about this row: inserting another, marking another, draining another nick, or any sweep.
   */
  predicate Elsewhere(ops: seq<Op>, id: string, row: Row) {
    forall i :: 0 <= i < |ops| ==>
      match ops[i]
      case OpInsert(a, _) => a != id
      case OpMark(a, _) => a != id
      case OpDrain(nick, _) => nick != row.recipient
      case OpGc(_) => true
  }

  predicate SweptInTime(ops: seq<Op>, row: Row) {
    forall i :: 0 <= i < |ops| && ops[i].OpGc? ==> InTime(row, ops[i].now)
  }

  /**
   * Whatever happens around it, a row is there unchanged exactly as long as no sweep comes more than 30 days after
   * it was sent or, once it is delivered, more than 7 days after that.
   */
  lemma {:induction false} RowLivesItsTime(t: Table, ops: seq<Op>, id: string, row: Row)
    requires Elsewhere(ops, id, row) && (id in t ==> t[id] == row)
    ensures id in Run(t, ops) <==> id in t && SweptInTime(ops, row)
    ensures id in Run(t, ops) ==> Run(t, ops)[id] == row
    decreases |ops|
  {
    if ops != [] {
      var t' := Apply(t, ops[0]);
      assert match ops[0] case OpInsert(a, _) => a != id case OpMark(a, _) => a != id
             case OpDrain(nick, _) => nick != row.recipient case OpGc(_) => true;
      assert id in t' <==> id in t && (ops[0].OpGc? ==> InTime(row, ops[0].now));
      assert ops == [ops[0]] + ops[1..];
      RowLivesItsTime(t', ops[1..], id, row);
      assert SweptInTime(ops, row) <==> (ops[0].OpGc? ==> InTime(row, ops[0].now)) && SweptInTime(ops[1..], row);
    }
  }
}
