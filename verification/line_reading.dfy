/**
 * What the parser makes of lines no printer writes: repeated and empty tags, runs of whitespace, lines that
 * break off.
 */
module LineReading {
  import opened Text
  import opened Messages
  import opened MessageRoundTrip

  // ---------------------------------------------------------------- tags

  /** A piece of a tag block up to its first equals sign, or all of it. */
  function KeyOf(piece: string): string { piece[..IndexOf(piece, '=')] }

  function ValueOf(piece: string): string {
    var i := IndexOf(piece, '=');
    if i < |piece| then Unescape(piece[i + 1..]) else ""
  }

  function Keys(d: seq<Tag>): seq<string> {
    if d == [] then [] else [d[0].key] + Keys(d[1..])
  }

  /** The keys in the order in which they first come. */
  function FirstKeys(pieces: seq<string>): seq<string> {
    if pieces == [] then []
    else
      var before, piece := FirstKeys(pieces[..|pieces| - 1]), pieces[|pieces| - 1];
      if piece == "" || KeyOf(piece) in before then before else before + [KeyOf(piece)]
  }

  /** The `i`-th piece has the key and no later one has it. */
  predicate LastWith(pieces: seq<string>, i: nat, key: string) {
    && i < |pieces| && pieces[i] != "" && KeyOf(pieces[i]) == key
    && forall j :: i < j < |pieces| && pieces[j] != "" ==> KeyOf(pieces[j]) != key
  }

  lemma {:induction false} KeysHas(d: seq<Tag>, k: string)
    ensures k in Keys(d) <==> exists i :: 0 <= i < |d| && d[i].key == k
  {
    if d != [] {
      KeysHas(d[1..], k);
      assert forall i :: 0 <= i < |d[1..]| ==> d[1..][i] == d[i + 1];
      if i :| 0 <= i < |d| && d[i].key == k {
        assert i > 0 ==> d[1..][i - 1].key == k;
      }
    }
  }

  /** Setting a key gives it the value, leaves the others alone, and adds the key at the end if it is new. */
  lemma {:induction false} DictSetIs(d: seq<Tag>, k: string, v: string, t: Tag)
    ensures Keys(DictSet(d, k, v)) == if k in Keys(d) then Keys(d) else Keys(d) + [k]
    ensures t.key != k ==> (t in DictSet(d, k, v) <==> t in d)
    ensures Tag(k, v) in DictSet(d, k, v)
  {
    if d != [] {
      assert d == [d[0]] + d[1..];
      if d[0].key != k {
        DictSetIs(d[1..], k, v, t);
        var rest := DictSet(d[1..], k, v);
        assert ([d[0]] + rest)[1..] == rest;
      }
    }
  }

  lemma {:induction false} AddPiecesLast(d: seq<Tag>, pieces: seq<string>, piece: string)
    ensures AddPieces(d, pieces + [piece]) == AddPiece(AddPieces(d, pieces), piece)
    decreases |pieces|
  {
    if pieces == [] {
      AddPiecesCons(d, piece, []);
      assert [] + [piece] == [piece] + [];
    } else {
      assert (pieces + [piece])[1..] == pieces[1..] + [piece];
      AddPiecesLast(AddPiece(d, pieces[0]), pieces[1..], piece);
    }
  }

  lemma AddPieceIs(d: seq<Tag>, piece: string)
    ensures AddPiece(d, piece) == if piece == "" then d else DictSet(d, KeyOf(piece), ValueOf(piece))
  {
    assert piece[..|piece|] == piece;
  }

  /** Empty pieces are skipped and keys keep the place where they first came. */
  lemma {:induction false} TagKeys(pieces: seq<string>)
    ensures Keys(AddPieces([], pieces)) == FirstKeys(pieces)
  {
    if pieces != [] {
      var front, piece := pieces[..|pieces| - 1], pieces[|pieces| - 1];
      assert pieces == front + [piece];
      TagKeys(front);
      AddPiecesLast([], front, piece);
      AddPieceIs(AddPieces([], front), piece);
      DictSetIs(AddPieces([], front), KeyOf(piece), ValueOf(piece), Tag("", ""));
    }
  }

  /** The value of a key is the one its last piece gives it, unescaped, and empty if it gives none. */
  lemma {:induction false} LastValueCounts(pieces: seq<string>, i: nat, key: string)
    requires LastWith(pieces, i, key)
    ensures Tag(key, ValueOf(pieces[i])) in AddPieces([], pieces)
  {
    var n := |pieces| - 1;
    var front, piece := pieces[..n], pieces[n];
    assert pieces == front + [piece];
    AddPiecesLast([], front, piece);
    AddPieceIs(AddPieces([], front), piece);
    DictSetIs(AddPieces([], front), KeyOf(piece), ValueOf(piece), Tag(key, ValueOf(pieces[i])));
    if i < n {
      assert LastWith(front, i, key);
      LastValueCounts(front, i, key);
    }
  }

  // ---------------------------------------------------------------- words

  /** The words with the runs of whitespace around them. */
  function Spread(gaps: seq<string>, words: seq<string>): string
    requires |gaps| == |words| + 1
  {
    if words == [] then gaps[0] else gaps[0] + words[0] + Spread(gaps[1..], words[1..])
  }

  /** Whitespace all over, and some between any two words. */
  predicate Gaps(gaps: seq<string>) {
    && (forall i :: 0 <= i < |gaps| ==> Blank(gaps[i]))
    && (forall i :: 0 < i < |gaps| - 1 ==> gaps[i] != "")
  }

  lemma {:induction false} SkipBlank(gap: string, rest: string)
    requires Blank(gap)
    ensures Words(gap + rest) == Words(rest)
  {
    if gap == "" {
      assert gap + rest == rest;
    } else {
      assert (gap + rest)[1..] == gap[1..] + rest;
      SkipBlank(gap[1..], rest);
    }
  }

  lemma FirstWord(word: string, rest: string)
    requires word != "" && NoSpaceIn(word) && (rest == "" || IsSpace(rest[0]))
    ensures Words(word + rest) == [word] + Words(rest)
  {
    WordLengthIs(word, rest);
    assert (word + rest)[..|word|] == word && (word + rest)[|word|..] == rest;
  }

  /** Words are read back from any layout, so runs of whitespace of any kind separate the parameters of a line. */
  lemma {:induction false} WordsSpread(gaps: seq<string>, words: seq<string>)
    requires |gaps| == |words| + 1 && Gaps(gaps) && AllWords(words)
    ensures Words(Spread(gaps, words)) == words
  {
    if words == [] {
      SkipBlank(gaps[0], "");
      assert gaps[0] + "" == gaps[0];
    } else {
      var rest := Spread(gaps[1..], words[1..]);
      assert gaps[0] + words[0] + rest == gaps[0] + (words[0] + rest);
      WordsSpread(gaps[1..], words[1..]);
      SkipBlank(gaps[0], words[0] + rest);
      SpreadStarts(gaps[1..], words[1..]);
      if rest != "" && words[1..] == [] { assert gaps[1] == rest; }
      FirstWord(words[0], rest);
    }
  }

  lemma SpreadStarts(gaps: seq<string>, words: seq<string>)
    requires |gaps| == |words| + 1 && (forall i :: 0 <= i < |gaps| ==> Blank(gaps[i]))
    requires words != [] ==> gaps[0] != ""
    ensures var s := Spread(gaps, words); s == "" || IsSpace(s[0])
  {
  }

  // ---------------------------------------------------------------- lines that break off

  /** Tags or a prefix with nothing after them leave no command, and neither does a blank line. */
  lemma BrokenLines(word: string, gap: string)
    requires ' ' !in word && !EndsLine(word) && Blank(gap)
    ensures Parse("@" + word) == Message(None, "", [], [])
    ensures Parse(":" + word) == Message(None, "", [], [])
    ensures Parse(gap) == Message(None, "", [], [])
  {
    IndexOfNone("@" + word, ' ');
    IndexOfNone(":" + word, ' ');
    BlankLine(gap);
  }

  lemma BlankLine(gap: string)
    requires Blank(gap)
    ensures Parse(gap) == Message(None, "", [], [])
  {
    var line := StripLineEnd(gap);
    assert Blank(line) && line[..|line|] == line;
    assert TrailingAt(line) == |line|;
    SkipBlank(line, "");
    assert line + "" == line;
  }
}
