/**
 * The documented grammar of the filter language as a relation, the proof that the parser accepts
 * exactly what it derives, and the round trip from expression to text and back.
 */
module FilterGrammar {
  import opened FilterLexer
  import opened FilterParser

  // ---------------------------------------------------------------- the documented grammar

  /** `w` is an or_expr for `e`: `and_expr ('or' and_expr)*`, grouped to the left. */
  ghost predicate DerivesOr(e: Expr, w: seq<Token>)
    decreases |w|, 5
  {
    || DerivesAnd(e, w)
    || (e.Or? && exists i :: 0 <= i < |w| && OrAt(e, w, i))
  }

  ghost predicate OrAt(e: Expr, w: seq<Token>, i: nat)
    requires e.Or? && i < |w|
    decreases |w|, 0
  {
    w[i] == KW("or") && DerivesOr(e.left, w[..i]) && DerivesAnd(e.right, w[i + 1..])
  }

  /** `and_expr := not_expr ('and' not_expr)*`. */
  ghost predicate DerivesAnd(e: Expr, w: seq<Token>)
    decreases |w|, 4
  {
    || DerivesNot(e, w)
    || (e.And? && exists i :: 0 <= i < |w| && AndAt(e, w, i))
  }

  ghost predicate AndAt(e: Expr, w: seq<Token>, i: nat)
    requires e.And? && i < |w|
    decreases |w|, 0
  {
    w[i] == KW("and") && DerivesAnd(e.left, w[..i]) && DerivesNot(e.right, w[i + 1..])
  }

  /** `not_expr := 'not' not_expr | cmp_expr`. */
  ghost predicate DerivesNot(e: Expr, w: seq<Token>)
    decreases |w|, 3
  {
    || DerivesCmp(e, w)
    || (e.Not? && w != [] && w[0] == KW("not") && DerivesNot(e.expr, w[1..]))
  }

  /** `cmp_expr := atom (('==' | '!=' | 'in') atom)?`. */
  ghost predicate DerivesCmp(e: Expr, w: seq<Token>)
    decreases |w|, 2
  {
    || DerivesAtom(e, w)
    || (e.Compare? && exists i :: 0 <= i < |w| && CmpAt(e, w, i))
  }

  ghost predicate CmpAt(e: Expr, w: seq<Token>, i: nat)
    requires e.Compare? && i < |w|
    decreases |w|, 0
  {
    && (w[i] == KW("in") || w[i] == OP("==") || w[i] == OP("!="))
    && e.op == ComparisonName(w[i]) && DerivesAtom(e.left, w[..i]) && DerivesAtom(e.right, w[i + 1..])
  }

  /** `atom := STRING | NUMBER | LIST | IDENT ('.' IDENT)* | '(' expr ')'`. */
  ghost predicate DerivesAtom(e: Expr, w: seq<Token>)
    decreases |w|, 1
  {
    || (|w| == 1 && w[0].STRING? && e == Literal(Text(w[0].text)))
    || (|w| == 1 && w[0].NUMBER? && e == Literal(Number(w[0].value)))
    || (e.FieldRef? && e.parts != [] && w == PartTokens(e.parts))
    || (e.ListExpr? && |w| >= 2 && w[0] == LBR && w[|w| - 1] == RBR && DerivesItems(e.items, w[1..|w| - 1]))
    || (|w| >= 2 && w[0] == LP && w[|w| - 1] == RP && DerivesOr(e, w[1..|w| - 1]))
  }

  /** `[atom (',' atom)*]`, grouped to the left. */
  ghost predicate DerivesItems(items: seq<Expr>, w: seq<Token>)
    decreases |w|, 2
  {
    if items == [] then w == []
    else if |items| == 1 then DerivesAtom(items[0], w)
    else exists i :: 0 <= i < |w| && ItemAt(items, w, i)
  }

  ghost predicate ItemAt(items: seq<Expr>, w: seq<Token>, i: nat)
    requires |items| > 1 && i < |w|
    decreases |w|, 0
  {
    w[i] == COMMA && DerivesItems(items[..|items| - 1], w[..i]) && DerivesAtom(items[|items| - 1], w[i + 1..])
  }

  function PartTokens(parts: seq<string>): (w: seq<Token>)
    ensures parts != [] ==> |w| == 2 * |parts| - 1 && w[0] == IDENT(parts[0])
  {
    if parts == [] then []
    else if |parts| == 1 then [IDENT(parts[0])]
    else PartTokens(parts[..|parts| - 1]) + [DOT, IDENT(parts[|parts| - 1])]
  }

  // ---------------------------------------------------------------- a word of tokens inside the stream

  /** The tokens of `ts` in `[from, to)`. */
  function Slice(ts: seq<Lexeme>, from: nat, to: nat): (w: seq<Token>)
    requires from <= to <= |ts|
    ensures |w| == to - from
  {
    Tokens(ts[from..to])
  }

  lemma SliceAt(ts: seq<Lexeme>, from: nat, mid: nat, to: nat)
    requires from <= mid < to <= |ts|
    ensures Slice(ts, from, to)[mid - from] == ts[mid].tok
    ensures Slice(ts, from, to)[..mid - from] == Slice(ts, from, mid)
    ensures Slice(ts, from, to)[mid - from + 1..] == Slice(ts, mid + 1, to)
  {
  }

  lemma SliceInner(ts: seq<Lexeme>, from: nat, to: nat)
    requires from + 2 <= to <= |ts|
    ensures var w := Slice(ts, from, to);
            w[0] == ts[from].tok && w[|w| - 1] == ts[to - 1].tok && w[1..|w| - 1] == Slice(ts, from + 1, to - 1)
  {
    var inner := ts[from + 1..to - 1];
    assert forall k :: 0 <= k < |inner| ==> inner[k] == ts[from..to][k + 1];
  }

  lemma SliceExtend(ts: seq<Lexeme>, from: nat, mid: nat)
    requires from <= mid && mid + 2 <= |ts|
    ensures Slice(ts, from, mid + 2) == Slice(ts, from, mid) + [ts[mid].tok, ts[mid + 1].tok]
  {
  }

  lemma Around<T>(a: seq<T>, t: T, b: seq<T>)
    ensures var w := a + [t] + b; w[..|a|] == a && w[|a|] == t && w[|a| + 1..] == b
  {
  }

  // ---------------------------------------------------------------- soundness

  lemma {:induction false} OrSound(ts: seq<Lexeme>, pos: nat)
    requires WellEnded(ts) && pos < |ts|
    ensures var r := ParseOr(ts, pos); r.Ok? ==> DerivesOr(r.value.0, Slice(ts, pos, r.value.1))
    decreases |ts| - pos, 5
  {
    AndSound(ts, pos);
    var r := ParseAnd(ts, pos);
    if r.Ok? { OrRestSound(ts, pos, r.value.0, r.value.1); }
  }

  lemma {:induction false} OrRestSound(ts: seq<Lexeme>, from: nat, left: Expr, pos: nat)
    requires WellEnded(ts) && from < pos < |ts| && DerivesOr(left, Slice(ts, from, pos))
    ensures var r := OrRest(ts, left, pos); r.Ok? ==> DerivesOr(r.value.0, Slice(ts, from, r.value.1))
    decreases |ts| - pos, 6
  {
    if ts[pos].tok == KW("or") {
      AndSound(ts, pos + 1);
      var r := ParseAnd(ts, pos + 1);
      if r.Ok? {
        var (right, p) := r.value;
        SliceAt(ts, from, pos, p);
        assert OrAt(Or(left, right), Slice(ts, from, p), pos - from);
        OrRestSound(ts, from, Or(left, right), p);
      }
    }
  }

  lemma {:induction false} AndSound(ts: seq<Lexeme>, pos: nat)
    requires WellEnded(ts) && pos < |ts|
    ensures var r := ParseAnd(ts, pos); r.Ok? ==> DerivesAnd(r.value.0, Slice(ts, pos, r.value.1))
    decreases |ts| - pos, 4
  {
    NotSound(ts, pos);
    var r := ParseNot(ts, pos);
    if r.Ok? { AndRestSound(ts, pos, r.value.0, r.value.1); }
  }

  lemma {:induction false} AndRestSound(ts: seq<Lexeme>, from: nat, left: Expr, pos: nat)
    requires WellEnded(ts) && from < pos < |ts| && DerivesAnd(left, Slice(ts, from, pos))
    ensures var r := AndRest(ts, left, pos); r.Ok? ==> DerivesAnd(r.value.0, Slice(ts, from, r.value.1))
    decreases |ts| - pos, 6
  {
    if ts[pos].tok == KW("and") {
      NotSound(ts, pos + 1);
      var r := ParseNot(ts, pos + 1);
      if r.Ok? {
        var (right, p) := r.value;
        SliceAt(ts, from, pos, p);
        assert AndAt(And(left, right), Slice(ts, from, p), pos - from);
        AndRestSound(ts, from, And(left, right), p);
      }
    }
  }

  lemma {:induction false} NotSound(ts: seq<Lexeme>, pos: nat)
    requires WellEnded(ts) && pos < |ts|
    ensures var r := ParseNot(ts, pos); r.Ok? ==> DerivesNot(r.value.0, Slice(ts, pos, r.value.1))
    decreases |ts| - pos, 3
  {
    if ts[pos].tok == KW("not") {
      NotSound(ts, pos + 1);
      var r := ParseNot(ts, pos + 1);
      if r.Ok? { SliceAt(ts, pos, pos, r.value.1); }
    } else {
      CmpSound(ts, pos);
    }
  }

  lemma {:induction false} CmpSound(ts: seq<Lexeme>, pos: nat)
    requires WellEnded(ts) && pos < |ts|
    ensures var r := ParseCmp(ts, pos); r.Ok? ==> DerivesCmp(r.value.0, Slice(ts, pos, r.value.1))
    decreases |ts| - pos, 2
  {
    hide DerivesOr, DerivesAnd, DerivesNot, DerivesAtom, ParseOr, ParseAnd, ParseNot, ParseAtom;
    AtomSound(ts, pos);
    var l := ParseAtom(ts, pos);
    if l.Ok? && IsComparison(ts[l.value.1].tok) {
      var (left, p) := l.value;
      AtomSound(ts, p + 1);
      var r := ParseAtom(ts, p + 1);
      if r.Ok? {
        var (right, q) := r.value;
        SliceAt(ts, pos, p, q);
        assert LegalToken(ts[p].tok);
        assert CmpAt(Compare(ComparisonName(ts[p].tok), left, right), Slice(ts, pos, q), p - pos);
      }
    }
  }

  lemma {:induction false} ListSound(ts: seq<Lexeme>, pos: nat)
    requires WellEnded(ts) && pos < |ts| && ts[pos].tok == LBR
    ensures var r := ParseAtom(ts, pos); r.Ok? ==> DerivesAtom(r.value.0, Slice(ts, pos, r.value.1))
    decreases |ts| - pos, 0
  {
    hide DerivesOr, DerivesAnd, DerivesNot, DerivesCmp, ParseOr, ParseAnd, ParseNot, ParseCmp, OrRest, ItemsRest,
      PartsRest;
    if ts[pos + 1].tok == RBR {
      SliceInner(ts, pos, pos + 2);
    } else {
      AtomSound(ts, pos + 1);
      var a := ParseAtom(ts, pos + 1);
      if a.Ok? { ItemsSound(ts, pos, [a.value.0], a.value.1); }
    }
  }

  lemma {:induction false} AtomSound(ts: seq<Lexeme>, pos: nat)
    requires WellEnded(ts) && pos < |ts|
    ensures var r := ParseAtom(ts, pos); r.Ok? ==> DerivesAtom(r.value.0, Slice(ts, pos, r.value.1))
    decreases |ts| - pos, 1
  {
    hide DerivesOr, DerivesAnd, DerivesNot, DerivesCmp, ParseOr, ParseAnd, ParseNot, ParseCmp, OrRest, ItemsRest,
      PartsRest;
    var r := ParseAtom(ts, pos);
    match ts[pos].tok
    case LP =>
      OrSound(ts, pos + 1);
      if r.Ok? {
        SliceInner(ts, pos, r.value.1);
      }
    case LBR => ListSound(ts, pos);
    case IDENT(w) => PartsSound(ts, pos, ts[pos].col, [w], pos + 1);
    case _ =>
  }

  /** One more item on the right. */
  lemma ItemsMore(ts: seq<Lexeme>, items: seq<Expr>, e: Expr, from: nat, pos: nat, end: nat)
    requires from <= pos < end <= |ts| && ts[pos].tok == COMMA && items != []
    requires DerivesItems(items, Slice(ts, from, pos)) && DerivesAtom(e, Slice(ts, pos + 1, end))
    ensures DerivesItems(items + [e], Slice(ts, from, end))
  {
    hide DerivesAtom;
    var more := items + [e];
    SliceAt(ts, from, pos, end);
    assert more[..|more| - 1] == items;
    assert ItemAt(more, Slice(ts, from, end), pos - from);
  }

  lemma ListCloses(ts: seq<Lexeme>, items: seq<Expr>, from: nat, pos: nat)
    requires from + 1 <= pos < |ts| && ts[from].tok == LBR && ts[pos].tok == RBR
    requires DerivesItems(items, Slice(ts, from + 1, pos))
    ensures DerivesAtom(ListExpr(items), Slice(ts, from, pos + 1))
  {
    hide DerivesItems;
    SliceInner(ts, from, pos + 1);
  }

  lemma {:induction false} ItemsSound(ts: seq<Lexeme>, from: nat, items: seq<Expr>, pos: nat)
    requires WellEnded(ts) && from + 1 < pos < |ts| && ts[from].tok == LBR && items != []
    requires DerivesItems(items, Slice(ts, from + 1, pos))
    ensures var r := ItemsRest(ts, items, pos); r.Ok? ==> DerivesAtom(r.value.0, Slice(ts, from, r.value.1))
    decreases |ts| - pos, 0
  {
    hide DerivesOr, DerivesAnd, DerivesNot, DerivesCmp, ParseOr, ParseAnd, ParseNot, ParseCmp, ParseAtom, DerivesAtom,
      DerivesItems;
    if ts[pos].tok == COMMA {
      AtomSound(ts, pos + 1);
      var a := ParseAtom(ts, pos + 1);
      if a.Ok? {
        var (e, p) := a.value;
        ItemsMore(ts, items, e, from + 1, pos, p);
        ItemsSound(ts, from, items + [e], p);
      }
    } else if ts[pos].tok == RBR {
      ListCloses(ts, items, from, pos);
    }
  }

  lemma PartTokensAppend(parts: seq<string>, name: string)
    requires parts != []
    ensures PartTokens(parts + [name]) == PartTokens(parts) + [DOT, IDENT(name)]
  {
    assert (parts + [name])[..|parts|] == parts;
  }

  lemma {:induction false} PartsSound(ts: seq<Lexeme>, from: nat, col: nat, parts: seq<string>, pos: nat)
    requires WellEnded(ts) && from < pos < |ts| && parts != [] && Slice(ts, from, pos) == PartTokens(parts)
    ensures var r := PartsRest(ts, col, parts, pos); r.Ok? ==> DerivesAtom(r.value.0, Slice(ts, from, r.value.1))
    decreases |ts| - pos
  {
    if ts[pos].tok == DOT && ts[pos + 1].tok.IDENT? {
      var name := ts[pos + 1].tok.name;
      SliceExtend(ts, from, pos);
      PartTokensAppend(parts, name);
      PartsSound(ts, from, col, parts + [name], pos + 2);
    }
  }

  // ---------------------------------------------------------------- completeness

  /** A token that cannot extend an atom. */
  predicate EndsAtom(t: Token) { t != DOT && t != LP }

  predicate EndsNot(t: Token) { EndsAtom(t) && !IsComparison(t) }

  predicate EndsAnd(t: Token) { EndsNot(t) && t != KW("and") }

  /** One more operand on the right. */
  lemma OrExtends(ts: seq<Lexeme>, e: Expr, pos: nat, mid: nat, end: nat)
    requires WellEnded(ts) && pos < mid < end < |ts| && e.Or? && ts[mid].tok == KW("or")
    requires ParseOr(ts, pos) == OrRest(ts, e.left, mid) && ParseAnd(ts, mid + 1) == AndRest(ts, e.right, end)
    requires ts[end].tok != KW("and")
    ensures ParseOr(ts, pos) == OrRest(ts, e, end)
  {
  }

  lemma AndExtends(ts: seq<Lexeme>, e: Expr, pos: nat, mid: nat, end: nat)
    requires WellEnded(ts) && pos < mid < end < |ts| && e.And? && ts[mid].tok == KW("and")
    requires ParseAnd(ts, pos) == AndRest(ts, e.left, mid) && ParseNot(ts, mid + 1) == Ok((e.right, end))
    ensures ParseAnd(ts, pos) == AndRest(ts, e, end)
  {
  }

  lemma CmpExtends(ts: seq<Lexeme>, e: Expr, pos: nat, mid: nat, end: nat)
    requires WellEnded(ts) && pos < mid < end < |ts| && e.Compare? && IsComparison(ts[mid].tok)
    requires e.op == ComparisonName(ts[mid].tok)
    requires ParseAtom(ts, pos) == Ok((e.left, mid)) && ParseAtom(ts, mid + 1) == Ok((e.right, end))
    ensures ParseCmp(ts, pos) == Ok((e, end))
  {
  }

  lemma {:induction false} OrComplete(ts: seq<Lexeme>, e: Expr, pos: nat, end: nat)
    requires WellEnded(ts) && pos <= end < |ts| && DerivesOr(e, Slice(ts, pos, end)) && EndsAnd(ts[end].tok)
    ensures pos < end && ParseOr(ts, pos) == OrRest(ts, e, end)
    decreases end - pos, 5
  {
    hide DerivesAnd, DerivesNot, DerivesCmp, DerivesAtom, ParseAnd, ParseNot, ParseCmp, ParseAtom, OrRest;
    var w := Slice(ts, pos, end);
    if DerivesAnd(e, w) {
      AndComplete(ts, e, pos, end);
    } else {
      var i :| 0 <= i < |w| && OrAt(e, w, i);
      SliceAt(ts, pos, pos + i, end);
      OrComplete(ts, e.left, pos, pos + i);
      AndComplete(ts, e.right, pos + i + 1, end);
      OrExtends(ts, e, pos, pos + i, end);
    }
  }

  lemma {:induction false} AndComplete(ts: seq<Lexeme>, e: Expr, pos: nat, end: nat)
    requires WellEnded(ts) && pos <= end < |ts| && DerivesAnd(e, Slice(ts, pos, end)) && EndsNot(ts[end].tok)
    ensures pos < end && ParseAnd(ts, pos) == AndRest(ts, e, end)
    decreases end - pos, 4
  {
    hide DerivesOr, DerivesNot, DerivesCmp, DerivesAtom, ParseOr, ParseNot, ParseCmp, ParseAtom, AndRest;
    var w := Slice(ts, pos, end);
    if DerivesNot(e, w) {
      NotComplete(ts, e, pos, end);
    } else {
      var i :| 0 <= i < |w| && AndAt(e, w, i);
      SliceAt(ts, pos, pos + i, end);
      AndComplete(ts, e.left, pos, pos + i);
      NotComplete(ts, e.right, pos + i + 1, end);
      AndExtends(ts, e, pos, pos + i, end);
    }
  }

  lemma {:induction false} NotComplete(ts: seq<Lexeme>, e: Expr, pos: nat, end: nat)
    requires WellEnded(ts) && pos <= end < |ts| && DerivesNot(e, Slice(ts, pos, end)) && EndsNot(ts[end].tok)
    ensures pos < end && ParseNot(ts, pos) == Ok((e, end))
    decreases end - pos, 3
  {
    hide DerivesOr, DerivesAnd, DerivesCmp, DerivesAtom, ParseOr, ParseAnd, ParseCmp, ParseAtom;
    var w := Slice(ts, pos, end);
    if DerivesCmp(e, w) {
      CmpComplete(ts, e, pos, end);
    } else {
      SliceAt(ts, pos, pos, end);
      NotComplete(ts, e.expr, pos + 1, end);
    }
  }

  lemma CmpSplit(e: Expr, w: seq<Token>) returns (i: nat)
    requires DerivesCmp(e, w) && !DerivesAtom(e, w)
    ensures e.Compare? && i < |w| && IsComparison(w[i]) && e.op == ComparisonName(w[i])
    ensures DerivesAtom(e.left, w[..i]) && DerivesAtom(e.right, w[i + 1..])
  {
    hide DerivesAtom;
    i :| 0 <= i < |w| && CmpAt(e, w, i);
  }

  lemma AtomAlone(ts: seq<Lexeme>, e: Expr, pos: nat, end: nat)
    requires WellEnded(ts) && pos < end < |ts| && ParseAtom(ts, pos) == Ok((e, end)) && !IsComparison(ts[end].tok)
    ensures ParseCmp(ts, pos) == Ok((e, end))
  {
  }

  lemma {:induction false} CmpComplete(ts: seq<Lexeme>, e: Expr, pos: nat, end: nat)
    requires WellEnded(ts) && pos <= end < |ts| && DerivesCmp(e, Slice(ts, pos, end)) && EndsNot(ts[end].tok)
    ensures pos < end && ParseCmp(ts, pos) == Ok((e, end)) && ts[pos].tok != KW("not")
    decreases end - pos, 2
  {
    hide DerivesOr, DerivesAnd, DerivesNot, DerivesCmp, DerivesAtom, ParseOr, ParseAnd, ParseNot, ParseCmp, ParseAtom;
    var w := Slice(ts, pos, end);
    if DerivesAtom(e, w) {
      AtomComplete(ts, e, pos, end);
      AtomAlone(ts, e, pos, end);
    } else {
      var i := CmpSplit(e, w);
      SliceAt(ts, pos, pos + i, end);
      AtomComplete(ts, e.left, pos, pos + i);
      AtomComplete(ts, e.right, pos + i + 1, end);
      CmpExtends(ts, e, pos, pos + i, end);
    }
  }

  lemma {:induction false} AtomComplete(ts: seq<Lexeme>, e: Expr, pos: nat, end: nat)
    requires WellEnded(ts) && pos <= end < |ts| && DerivesAtom(e, Slice(ts, pos, end)) && EndsAtom(ts[end].tok)
    ensures pos < end && ParseAtom(ts, pos) == Ok((e, end)) && ts[pos].tok != KW("not") && ts[pos].tok != RBR
    decreases end - pos, 1
  {
    hide DerivesOr, DerivesAnd, DerivesNot, DerivesCmp, ParseOr, ParseAnd, ParseNot, ParseCmp;
    hide ParseAtom, OrRest, ItemsRest, PartsRest, ParseItems, DerivesItems;
    var w := Slice(ts, pos, end);
    assert w != [] && w[0] == ts[pos].tok by { SliceAt(ts, pos, pos, end); }
    if w[0] == LP {
      SliceInner(ts, pos, end);
      OrComplete(ts, e, pos + 1, end - 1);
      ParenParsed(ts, e, pos, end - 1);
    } else if w[0] == LBR {
      SliceInner(ts, pos, end);
      if e.items != [] {
        ItemsComplete(ts, e.items, pos + 1, end - 1);
        ItemsRestCloses(ts, e.items, pos, end - 1);
      } else {
        NoItems(Slice(ts, pos + 1, end - 1));
        EmptyParsed(ts, pos);
      }
    } else if e.FieldRef? {
      PartsComplete(ts, ts[pos].col, e.parts, pos, end);
      FieldParsed(ts, e.parts, pos, end);
    } else {
      LiteralParsed(ts, pos);
    }
  }

  lemma LiteralParsed(ts: seq<Lexeme>, pos: nat)
    requires WellEnded(ts) && pos < |ts|
    ensures ts[pos].tok.STRING? ==> ParseAtom(ts, pos) == Ok((Literal(Text(ts[pos].tok.text)), pos + 1))
    ensures ts[pos].tok.NUMBER? ==> ParseAtom(ts, pos) == Ok((Literal(Number(ts[pos].tok.value)), pos + 1))
  {
    hide ParseOr, ItemsRest, PartsRest;
  }

  lemma ParenParsed(ts: seq<Lexeme>, e: Expr, pos: nat, end: nat)
    requires WellEnded(ts) && pos + 1 < |ts| && end < |ts| && ts[pos].tok == LP && ts[end].tok == RP
    requires ParseOr(ts, pos + 1) == OrRest(ts, e, end)
    ensures ParseAtom(ts, pos) == Ok((e, end + 1))
  {
    hide ParseOr;
  }

  lemma EmptyParsed(ts: seq<Lexeme>, pos: nat)
    requires WellEnded(ts) && pos + 1 < |ts| && ts[pos].tok == LBR && ts[pos + 1].tok == RBR
    ensures ParseAtom(ts, pos) == Ok((ListExpr([]), pos + 2))
  {
  }

  lemma FieldParsed(ts: seq<Lexeme>, parts: seq<string>, pos: nat, end: nat)
    requires WellEnded(ts) && pos + 1 < |ts| && end < |ts| && EndsAtom(ts[end].tok) && parts != []
    requires ts[pos].tok == IDENT(parts[0])
    requires PartsRest(ts, ts[pos].col, [parts[0]], pos + 1) == PartsRest(ts, ts[pos].col, parts, end)
    ensures ParseAtom(ts, pos) == Ok((FieldRef(parts), end))
  {
  }

  lemma NoItems(w: seq<Token>)
    requires DerivesItems([], w)
    ensures w == []
  {
  }

  /** The first item, then the rest of the list. */
  function ParseItems(ts: seq<Lexeme>, pos: nat): Parsed
    requires WellEnded(ts) && pos < |ts|
  {
    match ParseAtom(ts, pos)
    case Err(c, x) => Err(c, x)
    case Ok((e, p)) => ItemsRest(ts, [e], p)
  }

  /** A list of several items is a shorter list, a comma and an item. */
  lemma LastItem(items: seq<Expr>, w: seq<Token>) returns (i: nat)
    requires |items| > 1 && DerivesItems(items, w)
    ensures i < |w| && w[i] == COMMA && DerivesItems(items[..|items| - 1], w[..i])
    ensures DerivesAtom(items[|items| - 1], w[i + 1..])
  {
    hide DerivesAtom;
    i :| 0 <= i < |w| && ItemAt(items, w, i);
  }

  lemma OneItem(ts: seq<Lexeme>, items: seq<Expr>, pos: nat, end: nat)
    requires WellEnded(ts) && pos < |ts| && end < |ts| && |items| == 1 && ParseAtom(ts, pos) == Ok((items[0], end))
    ensures ParseItems(ts, pos) == ItemsRest(ts, items, end)
  {
    assert items == [items[0]];
  }

  lemma ItemsAre(items: seq<Expr>, w: seq<Token>)
    requires |items| == 1
    ensures DerivesItems(items, w) <==> DerivesAtom(items[0], w)
  {
  }

  lemma {:induction false} ItemsComplete(ts: seq<Lexeme>, items: seq<Expr>, pos: nat, end: nat)
    requires WellEnded(ts) && pos <= end < |ts| && items != [] && DerivesItems(items, Slice(ts, pos, end))
    requires EndsAtom(ts[end].tok)
    ensures pos < end && ParseItems(ts, pos) == ItemsRest(ts, items, end) && ts[pos].tok != RBR
    decreases end - pos, 2
  {
    hide DerivesOr, DerivesAnd, DerivesNot, DerivesCmp, ParseOr, ParseAnd, ParseNot, ParseCmp, DerivesAtom, ParseAtom,
      ItemsRest, ParseItems, DerivesItems;
    if |items| == 1 {
      ItemsAre(items, Slice(ts, pos, end));
      AtomComplete(ts, items[0], pos, end);
      OneItem(ts, items, pos, end);
    } else {
      var i := LastItem(items, Slice(ts, pos, end));
      SliceAt(ts, pos, pos + i, end);
      var n := |items| - 1;
      ItemsComplete(ts, items[..n], pos, pos + i);
      AtomComplete(ts, items[n], pos + i + 1, end);
      ItemsRestStep(ts, items, pos + i, end);
    }
  }

  lemma ItemsRestStep(ts: seq<Lexeme>, items: seq<Expr>, mid: nat, end: nat)
    requires WellEnded(ts) && mid + 1 < |ts| && end < |ts| && ts[mid].tok == COMMA && items != []
    requires ParseAtom(ts, mid + 1) == Ok((items[|items| - 1], end))
    ensures ItemsRest(ts, items[..|items| - 1], mid) == ItemsRest(ts, items, end)
  {
    assert items[..|items| - 1] + [items[|items| - 1]] == items;
  }

  lemma ItemsRestCloses(ts: seq<Lexeme>, items: seq<Expr>, pos: nat, end: nat)
    requires WellEnded(ts) && pos + 1 < end < |ts| && ts[pos].tok == LBR && ts[end].tok == RBR
    requires ts[pos + 1].tok != RBR && ParseItems(ts, pos + 1) == ItemsRest(ts, items, end)
    ensures ParseAtom(ts, pos) == Ok((ListExpr(items), end + 1))
  {
  }

  lemma FrontAndLast<T>(s: seq<T>)
    requires s != []
    ensures s[..|s| - 1] + [s[|s| - 1]] == s
  {
  }

  /** A path of several names is a shorter path, a dot and a name. */
  lemma LastPart(ts: seq<Lexeme>, parts: seq<string>, pos: nat, end: nat)
    requires pos <= end <= |ts| && |parts| > 1 && Slice(ts, pos, end) == PartTokens(parts)
    ensures pos + 2 <= end && Slice(ts, pos, end - 2) == PartTokens(parts[..|parts| - 1])
    ensures ts[end - 2].tok == DOT && ts[end - 1].tok == IDENT(parts[|parts| - 1])
  {
    hide *;
    var front, name := parts[..|parts| - 1], parts[|parts| - 1];
    FrontAndLast(parts);
    PartTokensAppend(front, name);
    assert |Slice(ts, pos, end)| == |PartTokens(front)| + 2;
    SliceExtend(ts, pos, end - 2);
    AppendedPair(Slice(ts, pos, end - 2), ts[end - 2].tok, ts[end - 1].tok, PartTokens(front), DOT, IDENT(name));
  }

  lemma {:induction false} PartsComplete(ts: seq<Lexeme>, col: nat, parts: seq<string>, pos: nat, end: nat)
    requires WellEnded(ts) && pos <= end < |ts| && parts != [] && Slice(ts, pos, end) == PartTokens(parts)
    ensures pos < end && ts[pos].tok == IDENT(parts[0])
    ensures PartsRest(ts, col, [parts[0]], pos + 1) == PartsRest(ts, col, parts, end)
    decreases |parts|
  {
    hide PartsRest;
    var n := |parts| - 1;
    if n > 0 {
      hide PartTokens;
      LastPart(ts, parts, pos, end);
      PartsComplete(ts, col, parts[..n], pos, end - 2);
      FrontAndLast(parts);
      PartsRestStep(ts, col, parts[..n], parts[n], end - 2);
    } else {
      SliceAt(ts, pos, pos, end);
      assert parts == [parts[0]];
    }
  }

  lemma AppendedPair<T>(a: seq<T>, t: T, u: T, b: seq<T>, x: T, y: T)
    requires a + [t, u] == b + [x, y]
    ensures a == b && t == x && u == y
  {
    var w := a + [t, u];
    assert |a| == |b|;
    assert w[|a|] == t && w[|a| + 1] == u;
    assert w[..|a|] == a && (b + [x, y])[..|b|] == b;
  }

  lemma PartsRestStep(ts: seq<Lexeme>, col: nat, parts: seq<string>, name: string, pos: nat)
    requires WellEnded(ts) && pos + 2 < |ts| && ts[pos].tok == DOT && ts[pos + 1].tok == IDENT(name)
    ensures PartsRest(ts, col, parts, pos) == PartsRest(ts, col, parts + [name], pos + 2)
  {
  }

  /**
   * The parser accepts a token stream with result `e` exactly when the documented grammar derives
   * `e` from it. In particular the grammar is unambiguous.
   */
  lemma ParserMatchesGrammar(ts: seq<Lexeme>, e: Expr)
    requires WellEnded(ts)
    ensures ParseAll(ts) == Ok(e) <==> DerivesOr(e, Slice(ts, 0, |ts| - 1))
  {
    if ParseAll(ts) == Ok(e) {
      OrSound(ts, 0);
    }
    if DerivesOr(e, Slice(ts, 0, |ts| - 1)) {
      OrComplete(ts, e, 0, |ts| - 1);
    }
  }

  // ---------------------------------------------------------------- printing

  predicate LegalIdent(w: string) { LegalWord(w) && w !in KEYWORDS }

  /** Legal identifiers, quote-free strings, known operators. */
  predicate LegalExpr(e: Expr) {
    match e
    case Literal(Text(s)) => '\'' !in s
    case Literal(Number(_)) => true
    case FieldRef(parts) => parts != [] && forall i :: 0 <= i < |parts| ==> LegalIdent(parts[i])
    case ListExpr(items) => forall i :: 0 <= i < |items| ==> LegalExpr(items[i])
    case Compare(op, l, r) => (op == "==" || op == "!=" || op == "in") && LegalExpr(l) && LegalExpr(r)
    case And(l, r) => LegalExpr(l) && LegalExpr(r)
    case Or(l, r) => LegalExpr(l) && LegalExpr(r)
    case Not(x) => LegalExpr(x)
  }

  /** Binding strength: 0 or, 1 and, 2 not, 3 comparison, 4 atom. */
  function Level(e: Expr): nat {
    match e
    case Or(_, _) => 0
    case And(_, _) => 1
    case Not(_) => 2
    case Compare(_, _, _) => 3
    case _ => 4
  }

  function OpToken(op: string): Token { if op == "in" then KW("in") else OP(op) }

  function PrintBody(e: Expr): seq<Token>
    decreases e, 0
  {
    match e
    case Literal(Text(s)) => [STRING(s)]
    case Literal(Number(n)) => [NUMBER(n)]
    case FieldRef(parts) => PartTokens(parts)
    case ListExpr(items) => [LBR] + PrintItems(items) + [RBR]
    case Compare(op, l, r) => Print(l, 4) + [OpToken(op)] + Print(r, 4)
    case And(l, r) => Print(l, 1) + [KW("and")] + Print(r, 2)
    case Or(l, r) => Print(l, 0) + [KW("or")] + Print(r, 1)
    case Not(x) => [KW("not")] + Print(x, 2)
  }

  /** `e` where the grammar expects something that binds at least as strongly as `level`. */
  function Print(e: Expr, level: nat): seq<Token>
    decreases e, 1
  {
    if Level(e) < level then [LP] + PrintBody(e) + [RP] else PrintBody(e)
  }

  function PrintItems(items: seq<Expr>): seq<Token>
    decreases items, 0
  {
    if items == [] then []
    else if |items| == 1 then Print(items[0], 4)
    else PrintItems(items[..|items| - 1]) + [COMMA] + Print(items[|items| - 1], 4)
  }

  ghost predicate Derives(e: Expr, level: nat, w: seq<Token>) {
    if level == 0 then DerivesOr(e, w)
    else if level == 1 then DerivesAnd(e, w)
    else if level == 2 then DerivesNot(e, w)
    else if level == 3 then DerivesCmp(e, w)
    else DerivesAtom(e, w)
  }

  /** What binds strongly can stand where less is asked for. */
  lemma {:induction false} Weaken(e: Expr, high: nat, low: nat, w: seq<Token>)
    requires low <= high <= 4 && Derives(e, high, w)
    ensures Derives(e, low, w)
    decreases high
  {
    if low < high {
      assert Derives(e, high - 1, w);
      Weaken(e, high - 1, low, w);
    }
  }

  lemma CompareDerives(e: Expr, a: seq<Token>, b: seq<Token>)
    requires LegalExpr(e) && e.Compare? && DerivesAtom(e.left, a) && DerivesAtom(e.right, b)
    ensures DerivesCmp(e, a + [OpToken(e.op)] + b)
  {
    hide DerivesAtom;
    Around(a, OpToken(e.op), b);
    assert CmpAt(e, a + [OpToken(e.op)] + b, |a|);
  }

  lemma AndDerives(e: Expr, a: seq<Token>, b: seq<Token>)
    requires e.And? && DerivesAnd(e.left, a) && DerivesNot(e.right, b)
    ensures DerivesAnd(e, a + [KW("and")] + b)
  {
    hide DerivesNot;
    Around(a, KW("and"), b);
    assert AndAt(e, a + [KW("and")] + b, |a|);
  }

  lemma OrDerives(e: Expr, a: seq<Token>, b: seq<Token>)
    requires e.Or? && DerivesOr(e.left, a) && DerivesAnd(e.right, b)
    ensures DerivesOr(e, a + [KW("or")] + b)
  {
    hide DerivesAnd;
    Around(a, KW("or"), b);
    assert OrAt(e, a + [KW("or")] + b, |a|);
  }

  lemma ListDerives(items: seq<Expr>, w: seq<Token>)
    requires DerivesItems(items, w)
    ensures DerivesAtom(ListExpr(items), [LBR] + w + [RBR])
  {
    hide DerivesItems;
    assert ([LBR] + w + [RBR])[1..|w| + 1] == w;
  }

  lemma NotDerives(e: Expr, w: seq<Token>)
    requires e.Not? && DerivesNot(e.expr, w)
    ensures DerivesNot(e, [KW("not")] + w)
  {
    hide DerivesCmp;
    assert ([KW("not")] + w)[1..] == w;
  }

  lemma LeafDerives(e: Expr)
    requires LegalExpr(e) && (e.Literal? || e.FieldRef?)
    ensures DerivesAtom(e, PrintBody(e))
  {
  }

  lemma {:induction false} PrintBodyDerives(e: Expr)
    requires LegalExpr(e)
    ensures Derives(e, Level(e), PrintBody(e))
    decreases e, 0
  {
    hide DerivesOr, DerivesAnd, DerivesNot, DerivesCmp, DerivesAtom, DerivesItems;
    match e
    case ListExpr(items) =>
      PrintItemsDerives(items);
      ListDerives(items, PrintItems(items));
    case Compare(op, l, r) =>
      PrintDerives(l, 4);
      PrintDerives(r, 4);
      CompareDerives(e, Print(l, 4), Print(r, 4));
    case And(l, r) =>
      PrintDerives(l, 1);
      PrintDerives(r, 2);
      AndDerives(e, Print(l, 1), Print(r, 2));
    case Or(l, r) =>
      PrintDerives(l, 0);
      PrintDerives(r, 1);
      OrDerives(e, Print(l, 0), Print(r, 1));
    case Not(x) =>
      PrintDerives(x, 2);
      NotDerives(e, Print(x, 2));
    case _ =>
      LeafDerives(e);
  }

  lemma {:induction false} PrintDerives(e: Expr, level: nat)
    requires LegalExpr(e) && level <= 4
    ensures Derives(e, level, Print(e, level))
    decreases e, 1
  {
    PrintBodyDerives(e);
    if Level(e) < level {
      var w := Print(e, level);
      assert w[1..|w| - 1] == PrintBody(e);
      Weaken(e, Level(e), 0, PrintBody(e));
      assert DerivesAtom(e, w);
      Weaken(e, 4, level, w);
    } else {
      Weaken(e, Level(e), level, PrintBody(e));
    }
  }

  lemma {:induction false} PrintItemsDerives(items: seq<Expr>)
    requires forall i :: 0 <= i < |items| ==> LegalExpr(items[i])
    ensures DerivesItems(items, PrintItems(items))
    decreases items, 0
  {
    var n := |items| - 1;
    if n == 0 {
      PrintDerives(items[0], 4);
    } else if n > 0 {
      PrintItemsDerives(items[..n]);
      PrintDerives(items[n], 4);
      Around(PrintItems(items[..n]), COMMA, Print(items[n], 4));
      assert ItemAt(items, PrintItems(items), |PrintItems(items[..n])|);
    }
  }

  predicate AllLegal(w: seq<Token>) {
    forall i :: 0 <= i < |w| ==> LegalToken(w[i])
  }

  lemma {:induction false} PartTokensLegal(parts: seq<string>)
    requires forall i :: 0 <= i < |parts| ==> LegalIdent(parts[i])
    ensures AllLegal(PartTokens(parts))
  {
    if |parts| > 1 { PartTokensLegal(parts[..|parts| - 1]); }
  }

  lemma LegalAround(a: seq<Token>, t: Token, b: seq<Token>)
    requires AllLegal(a) && AllLegal(b) && LegalToken(t)
    ensures AllLegal(a + [t] + b)
  {
  }

  lemma {:induction false} PrintBodyLegal(e: Expr)
    requires LegalExpr(e)
    ensures AllLegal(PrintBody(e))
    decreases e, 0
  {
    match e
    case FieldRef(parts) => PartTokensLegal(parts);
    case ListExpr(items) => PrintItemsLegal(items);
    case Compare(op, l, r) =>
      PrintLegal(l, 4);
      PrintLegal(r, 4);
      LegalAround(Print(l, 4), OpToken(op), Print(r, 4));
    case And(l, r) =>
      PrintLegal(l, 1);
      PrintLegal(r, 2);
      LegalAround(Print(l, 1), KW("and"), Print(r, 2));
    case Or(l, r) =>
      PrintLegal(l, 0);
      PrintLegal(r, 1);
      LegalAround(Print(l, 0), KW("or"), Print(r, 1));
    case Not(x) => PrintLegal(x, 2);
    case _ =>
  }

  lemma {:induction false} PrintLegal(e: Expr, level: nat)
    requires LegalExpr(e)
    ensures AllLegal(Print(e, level))
    decreases e, 1
  {
    PrintBodyLegal(e);
  }

  lemma {:induction false} PrintItemsLegal(items: seq<Expr>)
    requires forall i :: 0 <= i < |items| ==> LegalExpr(items[i])
    ensures AllLegal(PrintItems(items))
    decreases items, 0
  {
    var n := |items| - 1;
    if n == 0 {
      PrintLegal(items[0], 4);
    } else if n > 0 {
      PrintItemsLegal(items[..n]);
      PrintLegal(items[n], 4);
    }
  }

  /**
   * Printing a legal expression with the fewest parentheses, in any spacing, and compiling the text
   * gives the expression back.
   */
  lemma FilterRoundTrip(e: Expr, gaps: seq<string>)
    requires LegalExpr(e) && Layout(gaps, Print(e, 0))
    ensures CompileFilter(Spread(gaps, Print(e, 0))) == Ok(e)
  {
    var src := Spread(gaps, Print(e, 0));
    PrintLegal(e, 0);
    LexSpread(gaps, Print(e, 0), 0);
    LexWellEnded(src, 0);
    var ts := Lex(src, 0).value;
    assert Slice(ts, 0, |ts| - 1) == Tokens(ts)[..|ts| - 1];
    PrintDerives(e, 0);
    ParserMatchesGrammar(ts, e);
  }
}
