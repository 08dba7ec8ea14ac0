/**
 * The history table: text search through SQL's LIKE with an escaped term, and the most recent entries.
 */
module HistorySearch {
  import opened Text

  // ---------------------------------------------------------------- LIKE

  /** LIKE ignores the case of ASCII letters, and of those only. */
  function Fold(c: char): char {
    if 'A' <= c <= 'Z' then (c as int + 32) as char else c
  }

  predicate Same(a: string, b: string) {
    |a| == |b| && forall i :: 0 <= i < |a| ==> Fold(a[i]) == Fold(b[i])
  }

  /** `text LIKE pattern ESCAPE '\'`. An escape at the end of the pattern matches nothing. */
  predicate Like(pattern: string, text: string)
    decreases |pattern| + |text|
  {
    if pattern == "" then text == ""
    else if pattern[0] == '\\' then
      |pattern| >= 2 && text != "" && Fold(pattern[1]) == Fold(text[0]) && Like(pattern[2..], text[1..])
    else if pattern[0] == '%' then
      Like(pattern[1..], text) || (text != "" && Like(pattern, text[1..]))
    else if pattern[0] == '_' then
      text != "" && Like(pattern[1..], text[1..])
    else
      text != "" && Fold(pattern[0]) == Fold(text[0]) && Like(pattern[1..], text[1..])
  }

  /** Python's `s.replace(c, by)` for a single character. */
  function Replace(s: string, c: char, with: string): string {
    if s == "" then "" else (if s[0] == c then with else [s[0]]) + Replace(s[1..], c, with)
  }

  /** The three replacements, one after the other. */
  function Escaped(term: string): string {
    Replace(Replace(Replace(term, '\\', "\\\\"), '%', "\\%"), '_', "\\_")
  }

  function LikePattern(term: string): string { "%" + Escaped(term) + "%" }

  predicate Special(c: char) { c == '\\' || c == '%' || c == '_' }

  function EscapedChar(c: char): string { if Special(c) then ['\\', c] else [c] }

  /** One escape per special character. */
  function EscapedEach(term: string): string {
    if term == "" then "" else EscapedChar(term[0]) + EscapedEach(term[1..])
  }

  lemma {:induction false} ReplaceConcat(a: string, b: string, c: char, with: string)
    ensures Replace(a + b, c, with) == Replace(a, c, with) + Replace(b, c, with)
  {
    if a == "" {
      assert a + b == b;
    } else {
      assert (a + b)[1..] == a[1..] + b;
      ReplaceConcat(a[1..], b, c, with);
    }
  }

  lemma ReplaceChars(x: char, y: char, c: char, with: string)
    requires y != c
    ensures Replace([y], c, with) == [y]
    ensures x != c ==> Replace([x, y], c, with) == [x, y]
    ensures Replace([c], c, with) == with
  {
    assert [y][1..] == "" && [c][1..] == "" && [x, y][1..] == [y];
  }

  /** Backslashes first: the escapes that later replacements put in are not escaped again. */
  lemma {:induction false} EscapedIsPerCharacter(term: string)
    ensures Escaped(term) == EscapedEach(term)
  {
    if term != "" {
      var c, rest := term[0], term[1..];
      var one := Replace([c], '\\', "\\\\");
      var two := Replace(one, '%', "\\%");
      assert term == [c] + rest;
      ReplaceConcat([c], rest, '\\', "\\\\");
      ReplaceConcat(one, Replace(rest, '\\', "\\\\"), '%', "\\%");
      ReplaceConcat(two, Replace(Replace(rest, '\\', "\\\\"), '%', "\\%"), '_', "\\_");
      EscapedIsPerCharacter(rest);
      EscapedOne(c);
    }
  }

  lemma EscapedOne(c: char)
    ensures Escaped([c]) == EscapedChar(c)
  {
    if c == '\\' {
      ReplaceChars('\\', '%', '\\', "\\\\");
      ReplaceChars('\\', '\\', '%', "\\%");
      ReplaceChars('\\', '\\', '_', "\\_");
    } else if c == '%' {
      ReplaceChars('%', '%', '\\', "\\\\");
      ReplaceChars('%', '\\', '%', "\\%");
      ReplaceChars('\\', '%', '_', "\\_");
    } else if c == '_' {
      ReplaceChars('_', '_', '\\', "\\\\");
      ReplaceChars('_', '_', '%', "\\%");
      ReplaceChars('_', '\\', '_', "\\_");
    } else {
      ReplaceChars(c, c, '\\', "\\\\");
      ReplaceChars(c, c, '%', "\\%");
      ReplaceChars(c, c, '_', "\\_");
    }
  }

  lemma {:induction false} LikeAnything(text: string)
    ensures Like("%", text)
  {
    assert "%"[1..] == "";
    if text != "" { LikeAnything(text[1..]); }
  }

  /** An escaped character matches itself, up to ASCII case, and nothing else. */
  lemma LikeChar(c: char, rest: string, text: string)
    ensures Like(EscapedChar(c) + rest, text) <==> text != "" && Fold(c) == Fold(text[0]) && Like(rest, text[1..])
  {
    var pattern := EscapedChar(c) + rest;
    assert pattern[|EscapedChar(c)|..] == rest;
  }

  /** An escaped term matches itself and nothing else, whatever pattern follows it. */
  lemma {:induction false} LikeLiteral(term: string, rest: string, text: string)
    ensures Like(EscapedEach(term) + rest, text) <==>
            |term| <= |text| && Same(text[..|term|], term) && Like(rest, text[|term|..])
    decreases |term|
  {
    if term == "" {
      assert EscapedEach(term) + rest == rest && text[0..] == text;
    } else {
      var c := term[0];
      assert EscapedEach(term) + rest == EscapedChar(c) + (EscapedEach(term[1..]) + rest);
      hide Like, EscapedEach, EscapedChar, Same;
      LikeChar(c, EscapedEach(term[1..]) + rest, text);
      if text != "" {
        LikeLiteral(term[1..], rest, text[1..]);
        if |term| <= |text| { SameCons(text, term); }
        assert |term| <= |text| ==> text[1..][|term| - 1..] == text[|term|..];
      }
    }
  }

  lemma SameCons(text: string, term: string)
    requires term != "" && |term| <= |text|
    ensures Same(text[..|term|], term) <==>
            Fold(text[0]) == Fold(term[0]) && Same(text[1..][..|term| - 1], term[1..])
  {
    var a, b := text[..|term|], text[1..][..|term| - 1];
    assert forall i :: 0 <= i < |b| ==> b[i] == a[i + 1] && term[1..][i] == term[i + 1];
    if Fold(text[0]) == Fold(term[0]) && Same(b, term[1..]) {
      forall i | 0 <= i < |a| ensures Fold(a[i]) == Fold(term[i]) {
        if i > 0 { assert Fold(b[i - 1]) == Fold(term[1..][i - 1]); }
      }
    }
  }

  /** The same character, or a capital and its small letter. */
  ghost predicate SameLetter(a: char, b: char) {
    a == b || exists i :: 0 <= i < 26 && {CAPITALS[i], SMALL[i]} == {a, b}
  }

  lemma FoldedIs(a: char, b: char)
    ensures Fold(a) == Fold(b) <==> SameLetter(a, b)
  {
    Alphabet();
    if Fold(a) == Fold(b) && a != b {
      var i := (if 'A' <= a <= 'Z' then a - 'A' else b - 'A') as int;
      assert {CAPITALS[i], SMALL[i]} == {a, b};
    }
  }

  ghost predicate OccursAt(term: string, text: string, i: nat) {
    i + |term| <= |text| && forall k :: 0 <= k < |term| ==> SameLetter(text[i..i + |term|][k], term[k])
  }

  lemma OccursIs(term: string, text: string, i: nat)
    ensures OccursAt(term, text, i) <==> i + |term| <= |text| && Same(text[i..i + |term|], term)
  {
    hide SameLetter, Fold;
    if i + |term| <= |text| {
      var part := text[i..i + |term|];
      forall k | 0 <= k < |term| ensures Fold(part[k]) == Fold(term[k]) <==> SameLetter(part[k], term[k]) {
        FoldedIs(part[k], term[k]);
      }
    }
  }

  /** The text contains the term, up to the case of ASCII letters. */
  ghost predicate Contains(term: string, text: string) {
    exists i: nat :: OccursAt(term, text, i)
  }

  lemma SliceLater(text: string, i: nat, j: nat)
    requires 1 <= i <= j <= |text|
    ensures text[1..][i - 1..j - 1] == text[i..j]
  {
    var a, b := text[1..][i - 1..j - 1], text[i..j];
    assert |a| == |b| && forall k :: 0 <= k < |a| ==> a[k] == b[k];
  }

  lemma OccursLater(term: string, text: string, i: nat)
    requires i >= 1 && text != ""
    ensures OccursAt(term, text, i) <==> OccursAt(term, text[1..], i - 1)
  {
    hide SameLetter;
    if i + |term| <= |text| {
      SliceLater(text, i, i + |term|);
      assert text[1..][i - 1..i - 1 + |term|] == text[i..i + |term|];
    }
  }

  lemma {:induction false} LikeAnywhere(term: string, text: string)
    ensures Like("%" + (EscapedEach(term) + "%"), text) <==> Contains(term, text)
    decreases |text|
  {
    var rest := EscapedEach(term) + "%";
    var pattern := "%" + rest;
    assert pattern[1..] == rest;
    LikeLiteral(term, "%", text);
    if |term| <= |text| { LikeAnything(text[|term|..]); }
    hide SameLetter;
    assert Like(rest, text) <==> OccursAt(term, text, 0) by {
      OccursIs(term, text, 0);
      assert |term| <= |text| ==> text[0..0 + |term|] == text[..|term|];
    }
    if text != "" {
      LikeAnywhere(term, text[1..]);
      forall i: nat | i >= 1 ensures OccursAt(term, text, i) <==> OccursAt(term, text[1..], i - 1) {
        OccursLater(term, text, i);
      }
      if Contains(term, text[1..]) {
        var i: nat :| OccursAt(term, text[1..], i);
        OccursLater(term, text, i + 1);
      }
    }
  }

  /**
   * The search condition holds exactly of the texts that contain the term, whatever wildcards and
   * backslashes the term is made of; capitals and small letters are not told apart.
   */
  lemma SearchIsContainment(term: string, text: string)
    ensures Like(LikePattern(term), text) <==> Contains(term, text)
  {
    EscapedIsPerCharacter(term);
    assert LikePattern(term) == "%" + (EscapedEach(term) + "%");
    LikeAnywhere(term, text);
  }

  // ---------------------------------------------------------------- the table

  datatype Entry = Entry(channel: string, nick: string, text: string, timestamp: real)

  function Filter(rows: seq<Entry>, keep: Entry -> bool): seq<Entry> {
    if rows == [] then [] else (if keep(rows[0]) then [rows[0]] else []) + Filter(rows[1..], keep)
  }

  function InsertByTime(sorted: seq<Entry>, e: Entry): seq<Entry>
    decreases |sorted|
  {
    if sorted == [] || sorted[|sorted| - 1].timestamp <= e.timestamp then sorted + [e]
    else InsertByTime(sorted[..|sorted| - 1], e) + [sorted[|sorted| - 1]]
  }

  /** `ORDER BY timestamp, id`: the order of the table's index. */
  function ByTime(rows: seq<Entry>): seq<Entry>
    decreases |rows|
  {
    if rows == [] then [] else InsertByTime(ByTime(rows[..|rows| - 1]), rows[|rows| - 1])
  }

  predicate InTimeOrder(rows: seq<Entry>) {
    forall i, j :: 0 <= i < j < |rows| ==> rows[i].timestamp <= rows[j].timestamp
  }

  function Reversed<T>(s: seq<T>): seq<T>
    decreases |s|
  {
    if s == [] then [] else [s[|s| - 1]] + Reversed(s[..|s| - 1])
  }

  /** `LIMIT n`: a negative limit is none. */
  function Limit<T>(s: seq<T>, n: int): seq<T> {
    if n < 0 || |s| <= n then s else s[..n]
  }

  function Tail<T>(s: seq<T>, n: int): seq<T> {
    if n < 0 || |s| <= n then s else s[|s| - n..]
  }

  class HistoryStore {
    /** The rows in the order of their ids. */
    var rows: seq<Entry>

    constructor ()
      ensures rows == []
    {
      rows := [];
    }

    method Append(channel: string, nick: string, text: string, timestamp: real)
      modifies this
      ensures rows == old(rows) + [Entry(channel, nick, text, timestamp)]
    {
      rows := rows + [Entry(channel, nick, text, timestamp)];
    }

    method Prune(cutoff: real) returns (deleted: nat)
      modifies this
      ensures rows == Filter(old(rows), (e: Entry) => e.timestamp >= cutoff)
      ensures deleted == |old(rows)| - |rows|
    {
      FilterWithin(rows, (e: Entry) => e.timestamp >= cutoff);
      var kept := Filter(rows, (e: Entry) => e.timestamp >= cutoff);
      deleted := |rows| - |kept|;
      rows := kept;
    }

    /** Newest first, limited, and turned around again. */
    function GetRecent(channel: string, count: int): seq<Entry>
      reads this
    {
      Reversed(Limit(Reversed(ByTime(Filter(rows, (e: Entry) => e.channel == channel))), count))
    }

    function Search(channel: string, term: string): seq<Entry>
      reads this
    {
      ByTime(Filter(rows, (e: Entry) => e.channel == channel && Like(LikePattern(term), e.text)))
    }

    /**
     * A search finds the channel's entries whose text contains the term, each as often as it is stored,
     * and lists them in time order.
     */
    lemma SearchFinds(channel: string, term: string, e: Entry)
      ensures multiset(Search(channel, term))[e] ==
              if e.channel == channel && Contains(term, e.text) then multiset(rows)[e] else 0
      ensures InTimeOrder(Search(channel, term))
    {
      var keep := (e: Entry) => e.channel == channel && Like(LikePattern(term), e.text);
      SearchIsContainment(term, e.text);
      FilterCounts(rows, keep, e);
      ByTimeSorts(Filter(rows, keep));
    }

    /**
     * The most recent entries are the last ones stored for the channel, exactly when time never went back among those.
     */
    lemma RecentIsTail(channel: string, count: int)
      ensures var stored := Filter(rows, (e: Entry) => e.channel == channel);
        && GetRecent(channel, count) == Tail(ByTime(stored), count)
        && (InTimeOrder(stored) ==> GetRecent(channel, count) == Tail(stored, count))
        && (GetRecent(channel, -1) == stored <==> InTimeOrder(stored))
    {
      var stored := Filter(rows, (e: Entry) => e.channel == channel);
      ReversedTail(ByTime(stored), count);
      ReversedTail(ByTime(stored), -1);
      ByTimeSorts(stored);
      if InTimeOrder(stored) { ByTimeSame(stored); }
    }
  }

  lemma {:induction false} FilterWithin(rows: seq<Entry>, keep: Entry -> bool)
    ensures |Filter(rows, keep)| <= |rows|
  {
    if rows != [] { FilterWithin(rows[1..], keep); }
  }

  lemma {:induction false} FilterCounts(rows: seq<Entry>, keep: Entry -> bool, e: Entry)
    ensures multiset(Filter(rows, keep))[e] == if keep(e) then multiset(rows)[e] else 0
  {
    if rows != [] {
      FilterCounts(rows[1..], keep, e);
      assert rows == [rows[0]] + rows[1..];
    }
  }

  lemma {:induction false} InsertSorts(sorted: seq<Entry>, e: Entry)
    requires InTimeOrder(sorted)
    ensures InTimeOrder(InsertByTime(sorted, e))
    ensures multiset(InsertByTime(sorted, e)) == multiset(sorted) + multiset{e}
    decreases |sorted|
  {
    if sorted != [] && sorted[|sorted| - 1].timestamp > e.timestamp {
      var init, last := sorted[..|sorted| - 1], sorted[|sorted| - 1];
      assert sorted == init + [last];
      var put := InsertByTime(init, e);
      assert InsertByTime(sorted, e) == put + [last];
      hide InsertByTime;
      InsertSorts(init, e);
      forall i | 0 <= i < |put| ensures put[i].timestamp <= last.timestamp {
        assert put[i] in multiset(put);
        assert put[i] in init || put[i] == e;
      }
      assert InTimeOrder(put + [last]);
    }
  }

  lemma {:induction false} ByTimeSorts(rows: seq<Entry>)
    ensures InTimeOrder(ByTime(rows)) && multiset(ByTime(rows)) == multiset(rows)
    decreases |rows|
  {
    if rows != [] {
      var init, last := rows[..|rows| - 1], rows[|rows| - 1];
      assert rows == init + [last];
      ByTimeSorts(init);
      InsertSorts(ByTime(init), last);
    }
  }

  lemma {:induction false} ByTimeSame(rows: seq<Entry>)
    requires InTimeOrder(rows)
    ensures ByTime(rows) == rows
    decreases |rows|
  {
    hide *;
    ByTimeIs(rows);
    if rows != [] {
      OrderLess(rows);
      ByTimeSame(rows[..|rows| - 1]);
    }
  }

  lemma ByTimeIs(rows: seq<Entry>)
    ensures ByTime(rows) == if rows == [] then [] else InsertByTime(ByTime(rows[..|rows| - 1]), rows[|rows| - 1])
  {
    hide InsertByTime;
  }

  /** The last of ordered rows belongs at the end. */
  lemma OrderLess(rows: seq<Entry>)
    requires InTimeOrder(rows) && rows != []
    ensures InTimeOrder(rows[..|rows| - 1]) && InsertByTime(rows[..|rows| - 1], rows[|rows| - 1]) == rows
  {
    assert rows == rows[..|rows| - 1] + [rows[|rows| - 1]];
  }

  lemma {:induction false} ReversedConcat<T>(a: seq<T>, b: seq<T>)
    ensures Reversed(a + b) == Reversed(b) + Reversed(a)
    decreases |b|
  {
    if b == [] {
      assert a + b == a;
    } else {
      assert (a + b)[..|a + b| - 1] == a + b[..|b| - 1];
      ReversedConcat(a, b[..|b| - 1]);
    }
  }

  lemma {:induction false} ReversedTwice<T>(s: seq<T>)
    ensures Reversed(Reversed(s)) == s && |Reversed(s)| == |s|
    decreases |s|
  {
    if s != [] {
      var init, last := s[..|s| - 1], [s[|s| - 1]];
      ReversedTwice(init);
      ReversedConcat(last, Reversed(init));
      assert last[..0] == [];
      assert s == init + last;
    }
  }

  lemma ReversedTail<T>(s: seq<T>, n: int)
    ensures Reversed(Limit(Reversed(s), n)) == Tail(s, n)
  {
    ReversedTwice(s);
    if 0 <= n < |s| {
      var a, b := s[..|s| - n], s[|s| - n..];
      assert s == a + b;
      ReversedConcat(a, b);
      ReversedTwice(b);
      assert Reversed(s)[..n] == Reversed(b);
    }
  }
}
