/**
 * The trace context every federated line carries: `InjectTrace` rewrites the tag block of a line
 * without parsing it, and the parser reads the result as the same message with one tag set.
 */
module TraceTags {
  import opened Text
  import opened Messages
  import MessageRoundTrip

  const TRACE_TAG := "culture.dev/traceparent"

  function TracePiece(tp: string): string { TRACE_TAG + "=" + tp }

  predicate IsTrace(piece: string) { piece[..IndexOf(piece, '=')] == TRACE_TAG }

  /** The pieces of the block with every traceparent tag replaced. */
  function Replaced(pieces: seq<string>, tp: string): (r: seq<string>)
    ensures |r| == |pieces|
  {
    if pieces == [] then []
    else [if IsTrace(pieces[0]) then TracePiece(tp) else pieces[0]] + Replaced(pieces[1..], tp)
  }

  predicate AnyTrace(pieces: seq<string>) {
    exists i :: 0 <= i < |pieces| && IsTrace(pieces[i])
  }

  function DropEmpty(pieces: seq<string>): seq<string> {
    if pieces == [] then []
    else (if pieces[0] == "" then [] else [pieces[0]]) + DropEmpty(pieces[1..])
  }

  function MergedPieces(pieces: seq<string>, tp: string): seq<string> {
    Replaced(pieces, tp) + (if AnyTrace(pieces) then [] else [TracePiece(tp)])
  }

  function Inject(line: string, tp: string): string {
    if line == "" then line
    else if line[0] != '@' then "@" + TracePiece(tp) + " " + line
    else
      var space := IndexOf(line, ' ');
      if space == |line| then line + ";" + TracePiece(tp)
      else "@" + Join(MergedPieces(DropEmpty(Split(line[1..space], ';')), tp), ";") + " " + line[space + 1..]
  }

  /** The tag loop of `InjectTrace`. */
  method MergeTags(tags: seq<string>, tp: string) returns (newTags: seq<string>)
    ensures newTags == MergedPieces(tags, tp)
  {
    var replaced := false;
    newTags := [];
    assert tags[0..] == tags;
    for i := 0 to |tags|
      invariant replaced == AnyTrace(tags[..i])
      invariant newTags + Replaced(tags[i..], tp) == Replaced(tags, tp)
    {
      AnyTraceStep(tags, i);
      ReplacedStep(tags, i, tp);
      hide Replaced, AnyTrace;
      Assoc(newTags, [if IsTrace(tags[i]) then TracePiece(tp) else tags[i]], Replaced(tags[i + 1..], tp));
      if tags[i][..IndexOf(tags[i], '=')] == TRACE_TAG {
        newTags := newTags + [TracePiece(tp)];
        replaced := true;
      } else {
        newTags := newTags + [tags[i]];
      }
    }
    assert tags[..|tags|] == tags;
    if !replaced {
      newTags := newTags + [TracePiece(tp)];
    }
  }

  lemma ReplacedStep(tags: seq<string>, i: nat, tp: string)
    requires i < |tags|
    ensures Replaced(tags[i..], tp) ==
      [if IsTrace(tags[i]) then TracePiece(tp) else tags[i]] + Replaced(tags[i + 1..], tp)
  {
    assert tags[i..][1..] == tags[i + 1..];
  }

  lemma AnyTraceStep(tags: seq<string>, i: nat)
    requires i < |tags|
    ensures AnyTrace(tags[..i + 1]) == (AnyTrace(tags[..i]) || IsTrace(tags[i]))
  {
    assert tags[..i + 1][i] == tags[i];
    assert forall k :: 0 <= k < i ==> tags[..i + 1][k] == tags[..i][k];
  }

  method InjectTrace(line: string, tp: string) returns (r: string)
    ensures r == Inject(line, tp)
  {
    if line == "" {
      return line;
    }
    if !StartsWith(line, "@") {
      return "@" + TracePiece(tp) + " " + line;
    }
    var space := IndexOf(line, ' ');
    if space == |line| {
      return line + ";" + TracePiece(tp);
    }
    var newTags := MergeTags(DropEmpty(Split(line[1..space], ';')), tp);
    r := "@" + Join(newTags, ";") + " " + line[space + 1..];
  }

  // ---------------------------------------------------------------- what the parser makes of it

  /** A trace context value: no separators, no escapes (`00-<hex>-<hex>-<hex>` in practice). */
  predicate TraceValue(tp: string) {
    ' ' !in tp && ';' !in tp && '\\' !in tp && '\r' !in tp && '\n' !in tp
  }

  lemma {:induction false} UnescapePlain(s: string)
    requires '\\' !in s
    ensures Unescape(s) == s
  {
    if s != "" { UnescapePlain(s[1..]); }
  }

  lemma AddTracePiece(d: seq<Tag>, tp: string)
    requires TraceValue(tp)
    ensures AddPiece(d, TracePiece(tp)) == DictSet(d, TRACE_TAG, tp)
  {
    var piece := TracePiece(tp);
    assert '=' !in TRACE_TAG;
    assert piece == TRACE_TAG + ['='] + tp;
    IndexOfIs(TRACE_TAG, '=', tp);
    assert piece[..|TRACE_TAG|] == TRACE_TAG && piece[|TRACE_TAG| + 1..] == tp;
    UnescapePlain(tp);
  }

  /** The key a non-empty piece sets, and the value it sets it to. */
  function PieceKey(piece: string): string { piece[..IndexOf(piece, '=')] }

  function PieceValue(piece: string): string {
    var i := IndexOf(piece, '=');
    if i < |piece| then Unescape(piece[i + 1..]) else ""
  }

  lemma AddPieceSets(d: seq<Tag>, piece: string)
    requires piece != ""
    ensures AddPiece(d, piece) == DictSet(d, PieceKey(piece), PieceValue(piece))
  {
    var i := IndexOf(piece, '=');
    if i == |piece| { assert piece[..i] == piece; }
  }

  lemma {:induction false} DictSetTwice(d: seq<Tag>, k: string, v: string, w: string)
    ensures DictSet(DictSet(d, k, v), k, w) == DictSet(d, k, w)
  {
    if d != [] && d[0].key != k {
      DictSetTwice(d[1..], k, v, w);
      assert ([d[0]] + DictSet(d[1..], k, v))[1..] == DictSet(d[1..], k, v);
    }
  }

  lemma {:induction false} DictSetHas(d: seq<Tag>, k: string, v: string, j: string)
    ensures HasKey(DictSet(d, k, v), j) <==> j == k || HasKey(d, j)
  {
    var r := DictSet(d, k, v);
    if d == [] {
      assert r[0].key == k;
    } else if d[0].key == k {
      assert forall i :: 0 < i < |d| ==> r[i] == d[i];
      assert r[0].key == k && d[0].key == k;
    } else {
      var tail := DictSet(d[1..], k, v);
      DictSetHas(d[1..], k, v, j);
      assert HasKey(r, j) <==> d[0].key == j || HasKey(tail, j) by { HasKeyCons(d[0], tail, j); }
      assert d == [d[0]] + d[1..];
      HasKeyCons(d[0], d[1..], j);
    }
  }

  lemma HasKeyCons(t: Tag, d: seq<Tag>, j: string)
    ensures HasKey([t] + d, j) <==> t.key == j || HasKey(d, j)
  {
    var r := [t] + d;
    assert r[0] == t;
    assert forall i :: 0 <= i < |d| ==> r[i + 1] == d[i];
  }

  /** Setting a key that is already there commutes with setting any other key. */
  lemma {:induction false} DictSetSwap(d: seq<Tag>, k: string, v: string, j: string, w: string)
    requires k != j && HasKey(d, k)
    ensures DictSet(DictSet(d, k, v), j, w) == DictSet(DictSet(d, j, w), k, v)
  {
    assert d != [];
    assert d == [d[0]] + d[1..];
    HasKeyCons(d[0], d[1..], k);
    if d[0].key != k && d[0].key != j {
      DictSetSwap(d[1..], k, v, j, w);
      assert DictSet(d, k, v)[1..] == DictSet(d[1..], k, v);
      assert DictSet(d, j, w)[1..] == DictSet(d[1..], j, w);
    } else if d[0].key == j {
      assert DictSet(d, j, w)[1..] == d[1..];
      assert DictSet(d, k, v)[1..] == DictSet(d[1..], k, v);
    } else {
      assert DictSet(d, k, v)[1..] == d[1..];
      assert DictSet(d, j, w)[1..] == DictSet(d[1..], j, w);
    }
  }

  lemma {:induction false} SkipEmpty(d: seq<Tag>, pieces: seq<string>)
    ensures AddPieces(d, DropEmpty(pieces)) == AddPieces(d, pieces)
    ensures forall i :: 0 <= i < |DropEmpty(pieces)| ==> DropEmpty(pieces)[i] != "" && DropEmpty(pieces)[i] in pieces
    decreases |pieces|
  {
    if pieces != [] {
      SkipEmpty(AddPiece(d, pieces[0]), pieces[1..]);
      var rest := DropEmpty(pieces[1..]);
      if pieces[0] != "" {
        assert ([pieces[0]] + rest)[1..] == rest;
      } else {
        assert DropEmpty(pieces) == rest;
      }
      assert forall p :: p in pieces[1..] ==> p in pieces;
    }
  }

  predicate NonEmpty(pieces: seq<string>) {
    forall i :: 0 <= i < |pieces| ==> pieces[i] != ""
  }

  /** Once the key is in the dictionary, replacing later pieces only fixes its value. */
  lemma {:induction false} ReplacedAfter(d: seq<Tag>, pieces: seq<string>, tp: string)
    requires TraceValue(tp) && NonEmpty(pieces) && HasKey(d, TRACE_TAG)
    ensures AddPieces(DictSet(d, TRACE_TAG, tp), Replaced(pieces, tp)) == DictSet(AddPieces(d, pieces), TRACE_TAG, tp)
    decreases |pieces|
  {
    if pieces != [] {
      var p, rest := pieces[0], pieces[1..];
      var r := Replaced(pieces, tp);
      assert r[1..] == Replaced(rest, tp);
      AddPieceSets(d, p);
      DictSetHas(d, PieceKey(p), PieceValue(p), TRACE_TAG);
      ReplacedAfter(AddPiece(d, p), rest, tp);
      var d' := DictSet(d, TRACE_TAG, tp);
      if IsTrace(p) {
        AddTracePiece(d', tp);
        DictSetTwice(d, TRACE_TAG, tp, tp);
        DictSetTwice(d, TRACE_TAG, PieceValue(p), tp);
      } else {
        AddPieceSets(d', p);
        DictSetSwap(d, TRACE_TAG, tp, PieceKey(p), PieceValue(p));
      }
    }
  }

  lemma AnyTraceCons(p: string, rest: seq<string>)
    ensures AnyTrace([p] + rest) == (IsTrace(p) || AnyTrace(rest))
  {
    var all := [p] + rest;
    assert all[0] == p;
    assert forall i :: 0 <= i < |rest| ==> rest[i] == all[i + 1];
  }

  lemma MergedCons(p: string, rest: seq<string>, tp: string)
    ensures MergedPieces([p] + rest, tp) ==
            if IsTrace(p) then [TracePiece(tp)] + Replaced(rest, tp) else [p] + MergedPieces(rest, tp)
  {
    AnyTraceCons(p, rest);
    assert ([p] + rest)[1..] == rest;
  }

  lemma {:induction false} MergedSets(d: seq<Tag>, pieces: seq<string>, tp: string)
    requires TraceValue(tp) && NonEmpty(pieces) && !HasKey(d, TRACE_TAG)
    ensures AddPieces(d, MergedPieces(pieces, tp)) == DictSet(AddPieces(d, pieces), TRACE_TAG, tp)
    decreases |pieces|
  {
    var all := MergedPieces(pieces, tp);
    if pieces == [] {
      AddTracePiece(d, tp);
      assert all == [TracePiece(tp)] && all[1..] == [];
    } else {
      var p, rest := pieces[0], pieces[1..];
      assert pieces == [p] + rest;
      MergedCons(p, rest, tp);
      AddPieceSets(d, p);
      DictSetHas(d, PieceKey(p), PieceValue(p), TRACE_TAG);
      if IsTrace(p) {
        assert all[1..] == Replaced(rest, tp);
        AddTracePiece(d, tp);
        DictSetTwice(d, TRACE_TAG, PieceValue(p), tp);
        ReplacedAfter(AddPiece(d, p), rest, tp);
      } else {
        assert all[1..] == MergedPieces(rest, tp);
        MergedSets(AddPiece(d, p), rest, tp);
      }
    }
  }

  lemma {:induction false} ReplacedAvoids(pieces: seq<string>, tp: string, c: char)
    requires Avoids(pieces, c) && c !in TracePiece(tp)
    ensures Avoids(Replaced(pieces, tp), c)
  {
    if pieces != [] { ReplacedAvoids(pieces[1..], tp, c); }
  }

  lemma MergedAvoids(pieces: seq<string>, tp: string)
    requires TraceValue(tp) && Avoids(pieces, ';') && Avoids(pieces, ' ')
    ensures Avoids(MergedPieces(pieces, tp), ';') && Avoids(MergedPieces(pieces, tp), ' ')
  {
    assert ';' !in TRACE_TAG && ' ' !in TRACE_TAG;
    ReplacedAvoids(pieces, tp, ';');
    ReplacedAvoids(pieces, tp, ' ');
  }

  lemma {:induction false} SplitAvoids(s: string, c: char, b: char)
    requires b !in s
    ensures Avoids(Split(s, c), b)
    decreases |s|
  {
    var i := IndexOf(s, c);
    if i < |s| { SplitAvoids(s[i + 1..], c, b); }
  }

  /** How a line with a tag block and something after it is read. */
  lemma ParseBlock(blob: string, rest: string)
    requires ' ' !in blob
    ensures Parse("@" + blob + " " + rest) == ParseBody(AddPieces([], Split(blob, ';')), StripLineEnd(rest))
  {
    var head, body := "@" + blob + " ", StripLineEnd(rest);
    assert !EndsLine(head);
    StripLineEndSuffix(head, rest);
    hide *;
    MessageRoundTrip.ReadBlock(blob, body);
    MessageRoundTrip.ParseIs("@" + blob + " " + rest);
  }

  /** The block written by `Inject`, read back. */
  lemma ParseMerged(pieces: seq<string>, rest: string)
    requires |pieces| > 0 && Avoids(pieces, ';') && Avoids(pieces, ' ')
    ensures Parse("@" + Join(pieces, ";") + " " + rest) == ParseBody(AddPieces([], pieces), StripLineEnd(rest))
  {
    JoinAvoids(pieces, ";", ' ');
    SplitJoin(pieces, ';');
    ParseBlock(Join(pieces, ";"), rest);
  }

  /** `m` with its traceparent tag set to `tp` and nothing else changed. */
  function WithTrace(m: Message, tp: string): Message {
    m.(tags := DictSet(m.tags, "culture.dev/traceparent", tp))
  }

  lemma ParseNoBlock(line: string)
    requires line != "" && line[0] != '@'
    ensures Parse(line) == ParseBody([], StripLineEnd(line))
  {
    hide ParseBody;
  }

  /** A block of the one piece. */
  lemma OnePiece(tp: string)
    requires TraceValue(tp)
    ensures Join([TracePiece(tp)], ";") == TracePiece(tp)
    ensures Avoids([TracePiece(tp)], ';') && Avoids([TracePiece(tp)], ' ')
    ensures AddPieces([], [TracePiece(tp)]) == DictSet([], TRACE_TAG, tp)
  {
    assert ';' !in TRACE_TAG && ' ' !in TRACE_TAG;
    AddTracePiece([], tp);
    assert [TracePiece(tp)][1..] == [];
  }

  lemma InjectIntoUntagged(line: string, tp: string)
    requires TraceValue(tp) && line != "" && line[0] != '@'
    ensures Parse(Inject(line, tp)) == WithTrace(Parse(line), tp)
  {
    assert Inject(line, tp) == "@" + TracePiece(tp) + " " + line;
    hide *;
    ParseNoBlock(line);
    OnePiece(tp);
    ParseMerged([TracePiece(tp)], line);
    WithTraceBody([], StripLineEnd(line), tp);
  }

  /** Tags never influence how the rest of the line is read. */
  lemma WithTraceBody(tags: seq<Tag>, body: string, tp: string)
    ensures ParseBody(DictSet(tags, TRACE_TAG, tp), body) == WithTrace(ParseBody(tags, body), tp)
  {
  }

  lemma InjectIntoBlock(line: string, tp: string)
    requires TraceValue(tp) && line != "" && line[0] == '@' && ' ' in line
    ensures Parse(Inject(line, tp)) == WithTrace(Parse(line), tp)
  {
    var space := IndexOf(line, ' ');
    var blob, rest := line[1..space], line[space + 1..];
    var pieces := DropEmpty(Split(blob, ';'));
    assert line == "@" + blob + " " + rest;
    assert ' ' !in blob;
    assert Inject(line, tp) == "@" + Join(MergedPieces(pieces, tp), ";") + " " + rest;
    hide *;
    ParseBlock(blob, rest);
    MergePieces(blob, pieces, tp);
    ParseMerged(MergedPieces(pieces, tp), rest);
    WithTraceBody(AddPieces([], Split(blob, ';')), StripLineEnd(rest), tp);
  }

  /** The pieces written for a block, and what they add up to. */
  lemma MergePieces(blob: string, pieces: seq<string>, tp: string)
    requires TraceValue(tp) && ' ' !in blob && pieces == DropEmpty(Split(blob, ';'))
    ensures var merged := MergedPieces(pieces, tp);
      && |merged| > 0 && Avoids(merged, ';') && Avoids(merged, ' ')
      && AddPieces([], merged) == DictSet(AddPieces([], Split(blob, ';')), TRACE_TAG, tp)
  {
    JoinSplit(blob, ';');
    SplitAvoids(blob, ';', ' ');
    SkipEmpty([], Split(blob, ';'));
    MergedAvoids(pieces, tp);
    MergedSets([], pieces, tp);
  }

  /**
   * Injecting a trace context sets that one tag of the parsed message, and changes nothing else,
   * exactly when the line is not empty and is not a tag block with nothing after it.
   */
  lemma InjectSetsOneTag(line: string, tp: string)
    requires TraceValue(tp)
    ensures Parse(Inject(line, tp)) == WithTrace(Parse(line), tp) <==> line != "" && (line[0] == '@' ==> ' ' in line)
  {
    if line != "" && line[0] == '@' && ' ' in line {
      InjectIntoBlock(line, tp);
    } else if line != "" && line[0] != '@' {
      InjectIntoUntagged(line, tp);
    } else if line == "" {
      assert Parse(line).tags == [];
    } else {
      InjectWithoutBody(line, tp);
    }
  }

  lemma InjectWithoutBody(line: string, tp: string)
    requires TraceValue(tp) && line != "" && line[0] == '@' && ' ' !in line
    ensures Parse(Inject(line, tp)).tags == [] == Parse(line).tags
  {
    var out := Inject(line, tp);
    IndexOfNone(line, ' ');
    assert ' ' !in TRACE_TAG;
    assert ' ' !in out;
    NoBodyNoTags(line);
    NoBodyNoTags(out);
  }

  lemma NoBodyNoTags(line: string)
    requires line != "" && line[0] == '@' && ' ' !in line
    ensures Parse(line).tags == []
  {
    var s := StripLineEnd(line);
    assert forall k :: 0 <= k < |s| ==> s[k] == line[k] && line[k] in line;
    IndexOfNone(s, ' ');
  }
}
