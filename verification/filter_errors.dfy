/** Where the parser of the filter language stops, and what it says it wanted there. */
module FilterErrors {
  import opened FilterLexer
  import opened FilterParser

  /** A value cannot start with the token. */
  predicate NoValue(t: Token) {
    !t.STRING? && !t.NUMBER? && !t.IDENT? && t != LP && t != LBR
  }

  /** The `i`-th token is not what the label asks for; for a call, it is the name that is called. */
  predicate Unwanted(ts: seq<Lexeme>, i: nat, expected: string) {
    i < |ts| &&
    (|| (expected == "value" && NoValue(ts[i].tok))
     || (expected == ")" && ts[i].tok != RP)
     || (expected == "]" && ts[i].tok != RBR && ts[i].tok != COMMA)
     || (expected == "identifier after '.'" && i > 0 && ts[i - 1].tok == DOT && !ts[i].tok.IDENT?)
     || (expected == "end of expression" && ts[i].tok != END)
     || (expected == "operator or end of expression" && Called(ts, i)))
  }

  /** A dotted name that starts at the `i`-th token has an opening parenthesis after it. */
  predicate Called(ts: seq<Lexeme>, i: nat) {
    exists j :: i < j < |ts| && PathTo(ts, i, j) && ts[j].tok == LP
  }

  /** The tokens from the `i`-th up to the `j`-th are names with dots between them. */
  predicate PathTo(ts: seq<Lexeme>, i: nat, j: nat) {
    && i < j <= |ts| && (j - i) % 2 == 1
    && forall k :: i <= k < j ==> if (k - i) % 2 == 0 then ts[k].tok.IDENT? else ts[k].tok == DOT
  }

  /** An error is at the column of a token that is not what was wanted. */
  ghost predicate Told(ts: seq<Lexeme>, r: Parsed) {
    r.Err? ==> exists i: nat :: Unwanted(ts, i, r.expected) && ts[i].col == r.col
  }

  lemma Tells(ts: seq<Lexeme>, i: nat, expected: string, r: Parsed)
    requires Unwanted(ts, i, expected) && r == Err(ts[i].col, expected)
    ensures Told(ts, r)
  {
  }

  lemma {:induction false} OrTold(ts: seq<Lexeme>, pos: nat)
    requires WellEnded(ts) && pos < |ts|
    ensures Told(ts, ParseOr(ts, pos))
    decreases |ts| - pos, 5
  {
    AndTold(ts, pos);
    var r := ParseAnd(ts, pos);
    if r.Ok? { OrRestTold(ts, r.value.0, r.value.1); }
  }

  lemma {:induction false} OrRestTold(ts: seq<Lexeme>, left: Expr, pos: nat)
    requires WellEnded(ts) && pos < |ts|
    ensures Told(ts, OrRest(ts, left, pos))
    decreases |ts| - pos, 6
  {
    if ts[pos].tok == KW("or") {
      AndTold(ts, pos + 1);
      var r := ParseAnd(ts, pos + 1);
      if r.Ok? { OrRestTold(ts, Or(left, r.value.0), r.value.1); }
    }
  }

  lemma {:induction false} AndTold(ts: seq<Lexeme>, pos: nat)
    requires WellEnded(ts) && pos < |ts|
    ensures Told(ts, ParseAnd(ts, pos))
    decreases |ts| - pos, 4
  {
    NotTold(ts, pos);
    var r := ParseNot(ts, pos);
    if r.Ok? { AndRestTold(ts, r.value.0, r.value.1); }
  }

  lemma {:induction false} AndRestTold(ts: seq<Lexeme>, left: Expr, pos: nat)
    requires WellEnded(ts) && pos < |ts|
    ensures Told(ts, AndRest(ts, left, pos))
    decreases |ts| - pos, 6
  {
    if ts[pos].tok == KW("and") {
      NotTold(ts, pos + 1);
      var r := ParseNot(ts, pos + 1);
      if r.Ok? { AndRestTold(ts, And(left, r.value.0), r.value.1); }
    }
  }

  lemma {:induction false} NotTold(ts: seq<Lexeme>, pos: nat)
    requires WellEnded(ts) && pos < |ts|
    ensures Told(ts, ParseNot(ts, pos))
    decreases |ts| - pos, 3
  {
    if ts[pos].tok == KW("not") { NotTold(ts, pos + 1); } else { CmpTold(ts, pos); }
  }

  lemma {:induction false} CmpTold(ts: seq<Lexeme>, pos: nat)
    requires WellEnded(ts) && pos < |ts|
    ensures Told(ts, ParseCmp(ts, pos))
    decreases |ts| - pos, 2
  {
    AtomTold(ts, pos);
    var r := ParseAtom(ts, pos);
    if r.Ok? && IsComparison(ts[r.value.1].tok) { AtomTold(ts, r.value.1 + 1); }
  }

  lemma {:induction false} AtomTold(ts: seq<Lexeme>, pos: nat)
    requires WellEnded(ts) && pos < |ts|
    ensures Told(ts, ParseAtom(ts, pos))
    decreases |ts| - pos, 1
  {
    hide Told;
    match ts[pos].tok
    case STRING(_) => NoError(ts, ParseAtom(ts, pos));
    case NUMBER(_) => NoError(ts, ParseAtom(ts, pos));
    case LP =>
      OrTold(ts, pos + 1);
      ParenTold(ts, pos);
    case LBR => ListTold(ts, pos);
    case IDENT(w) => PartsTold(ts, pos, [w], pos + 1);
    case _ => Tells(ts, pos, "value", ParseAtom(ts, pos));
  }

  lemma NoError(ts: seq<Lexeme>, r: Parsed)
    requires r.Ok?
    ensures Told(ts, r)
  {
  }

  lemma ParenTold(ts: seq<Lexeme>, pos: nat)
    requires WellEnded(ts) && pos + 1 < |ts| && ts[pos].tok == LP && Told(ts, ParseOr(ts, pos + 1))
    ensures Told(ts, ParseAtom(ts, pos))
  {
    var r := ParseOr(ts, pos + 1);
    if r.Ok? && ts[r.value.1].tok != RP { Tells(ts, r.value.1, ")", ParseAtom(ts, pos)); }
  }

  lemma {:induction false} ListTold(ts: seq<Lexeme>, pos: nat)
    requires WellEnded(ts) && pos + 1 < |ts| && ts[pos].tok == LBR
    ensures Told(ts, ParseAtom(ts, pos))
    decreases |ts| - pos, 0
  {
    if ts[pos + 1].tok != RBR {
      AtomTold(ts, pos + 1);
      var r := ParseAtom(ts, pos + 1);
      if r.Ok? { ItemsTold(ts, [r.value.0], r.value.1); }
    }
  }

  lemma {:induction false} ItemsTold(ts: seq<Lexeme>, items: seq<Expr>, pos: nat)
    requires WellEnded(ts) && pos < |ts|
    ensures Told(ts, ItemsRest(ts, items, pos))
    decreases |ts| - pos, 0
  {
    if ts[pos].tok == COMMA {
      AtomTold(ts, pos + 1);
      var r := ParseAtom(ts, pos + 1);
      if r.Ok? { ItemsTold(ts, items + [r.value.0], r.value.1); }
    } else if ts[pos].tok != RBR {
      Tells(ts, pos, "]", ItemsRest(ts, items, pos));
    }
  }

  lemma {:induction false} PartsTold(ts: seq<Lexeme>, from: nat, parts: seq<string>, pos: nat)
    requires WellEnded(ts) && pos < |ts| && PathTo(ts, from, pos)
    ensures Told(ts, PartsRest(ts, ts[from].col, parts, pos))
    decreases |ts| - pos
  {
    var r := PartsRest(ts, ts[from].col, parts, pos);
    if ts[pos].tok == DOT {
      if ts[pos + 1].tok.IDENT? {
        PartsTold(ts, from, parts + [ts[pos + 1].tok.name], pos + 2);
      } else {
        Tells(ts, pos + 1, "identifier after '.'", r);
      }
    } else if ts[pos].tok == LP {
      assert Called(ts, from);
      Tells(ts, from, "operator or end of expression", r);
    }
  }

  /** A filter that is refused is refused at a token that is not what the error says was wanted. */
  lemma ErrorsTellTheTruth(ts: seq<Lexeme>)
    requires WellEnded(ts) && ParseAll(ts).Err?
    ensures exists i: nat :: Unwanted(ts, i, ParseAll(ts).expected) && ts[i].col == ParseAll(ts).col
  {
    OrTold(ts, 0);
    var r := ParseOr(ts, 0);
    if r.Ok? { assert Unwanted(ts, r.value.1, "end of expression"); }
  }
}
