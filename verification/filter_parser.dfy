/** The recursive-descent parser of the bot filter language: functions, and the stateful parser over them. */
module FilterParser {
  import opened FilterLexer

  datatype Value = Text(s: string) | Number(n: nat)

  datatype Expr =
    | Literal(value: Value)
    | FieldRef(parts: seq<string>)
    | ListExpr(items: seq<Expr>)
    | Compare(op: string, left: Expr, right: Expr)
    | And(left: Expr, right: Expr)
    | Or(left: Expr, right: Expr)
    | Not(expr: Expr)

  /** An expression and the position after it, or a FilterParseError. */
  type Parsed = Result<(Expr, nat)>

  predicate Advances(r: Parsed, ts: seq<Lexeme>, pos: nat) {
    r.Ok? ==> pos < r.value.1 < |ts|
  }

  // ---------------------------------------------------------------- the grammar's procedures, as functions

  function ParseOr(ts: seq<Lexeme>, pos: nat): (r: Parsed)
    requires WellEnded(ts) && pos < |ts|
    ensures Advances(r, ts, pos)
    decreases |ts| - pos, 5
  {
    match ParseAnd(ts, pos)
    case Err(c, x) => Err(c, x)
    case Ok((left, p)) => OrRest(ts, left, p)
  }

  function OrRest(ts: seq<Lexeme>, left: Expr, pos: nat): (r: Parsed)
    requires WellEnded(ts) && pos < |ts|
    ensures r.Ok? ==> pos <= r.value.1 < |ts|
    decreases |ts| - pos, 6
  {
    if ts[pos].tok != KW("or") then Ok((left, pos))
    else match ParseAnd(ts, pos + 1)
      case Err(c, x) => Err(c, x)
      case Ok((right, p)) => OrRest(ts, Or(left, right), p)
  }

  function ParseAnd(ts: seq<Lexeme>, pos: nat): (r: Parsed)
    requires WellEnded(ts) && pos < |ts|
    ensures Advances(r, ts, pos)
    decreases |ts| - pos, 4
  {
    match ParseNot(ts, pos)
    case Err(c, x) => Err(c, x)
    case Ok((left, p)) => AndRest(ts, left, p)
  }

  function AndRest(ts: seq<Lexeme>, left: Expr, pos: nat): (r: Parsed)
    requires WellEnded(ts) && pos < |ts|
    ensures r.Ok? ==> pos <= r.value.1 < |ts|
    decreases |ts| - pos, 6
  {
    if ts[pos].tok != KW("and") then Ok((left, pos))
    else match ParseNot(ts, pos + 1)
      case Err(c, x) => Err(c, x)
      case Ok((right, p)) => AndRest(ts, And(left, right), p)
  }

  function ParseNot(ts: seq<Lexeme>, pos: nat): (r: Parsed)
    requires WellEnded(ts) && pos < |ts|
    ensures Advances(r, ts, pos)
    decreases |ts| - pos, 3
  {
    if ts[pos].tok == KW("not") then
      match ParseNot(ts, pos + 1)
      case Err(c, x) => Err(c, x)
      case Ok((e, p)) => Ok((Not(e), p))
    else ParseCmp(ts, pos)
  }

  predicate IsComparison(t: Token) { t.OP? || t == KW("in") }

  function ComparisonName(t: Token): string
    requires IsComparison(t)
  {
    if t.OP? then t.op else "in"
  }

  function ParseCmp(ts: seq<Lexeme>, pos: nat): (r: Parsed)
    requires WellEnded(ts) && pos < |ts|
    ensures Advances(r, ts, pos)
    decreases |ts| - pos, 2
  {
    match ParseAtom(ts, pos)
    case Err(c, x) => Err(c, x)
    case Ok((left, p)) =>
      if !IsComparison(ts[p].tok) then Ok((left, p))
      else match ParseAtom(ts, p + 1)
        case Err(c, x) => Err(c, x)
        case Ok((right, q)) => Ok((Compare(ComparisonName(ts[p].tok), left, right), q))
  }

  function ParseAtom(ts: seq<Lexeme>, pos: nat): (r: Parsed)
    requires WellEnded(ts) && pos < |ts|
    ensures Advances(r, ts, pos)
    decreases |ts| - pos, 1
  {
    match ts[pos].tok
    case STRING(s) => Ok((Literal(Text(s)), pos + 1))
    case NUMBER(n) => Ok((Literal(Number(n)), pos + 1))
    case LP =>
      (match ParseOr(ts, pos + 1)
       case Err(c, x) => Err(c, x)
       case Ok((e, p)) => if ts[p].tok == RP then Ok((e, p + 1)) else Err(ts[p].col, ")"))
    case LBR =>
      if ts[pos + 1].tok == RBR then Ok((ListExpr([]), pos + 2))
      else (match ParseAtom(ts, pos + 1)
            case Err(c, x) => Err(c, x)
            case Ok((e, p)) => ItemsRest(ts, [e], p))
    case IDENT(w) => PartsRest(ts, ts[pos].col, [w], pos + 1)
    case _ => Err(ts[pos].col, "value")
  }

  /** More list items, then the closing bracket. */
  function ItemsRest(ts: seq<Lexeme>, items: seq<Expr>, pos: nat): (r: Parsed)
    requires WellEnded(ts) && pos < |ts|
    ensures Advances(r, ts, pos)
    decreases |ts| - pos, 0
  {
    if ts[pos].tok == COMMA then
      match ParseAtom(ts, pos + 1)
      case Err(c, x) => Err(c, x)
      case Ok((e, p)) => ItemsRest(ts, items + [e], p)
    else if ts[pos].tok == RBR then Ok((ListExpr(items), pos + 1))
    else Err(ts[pos].col, "]")
  }

  /** More parts of a field reference; a parenthesis right after it is a refused call. */
  function PartsRest(ts: seq<Lexeme>, col: nat, parts: seq<string>, pos: nat): (r: Parsed)
    requires WellEnded(ts) && pos < |ts|
    ensures r.Ok? ==> pos <= r.value.1 < |ts|
    decreases |ts| - pos
  {
    if ts[pos].tok == DOT then
      if ts[pos + 1].tok.IDENT? then PartsRest(ts, col, parts + [ts[pos + 1].tok.name], pos + 2)
      else Err(ts[pos + 1].col, "identifier after '.'")
    else if ts[pos].tok == LP then Err(col, "operator or end of expression")
    else Ok((FieldRef(parts), pos))
  }

  function ParseAll(ts: seq<Lexeme>): Result<Expr>
    requires WellEnded(ts)
  {
    match ParseOr(ts, 0)
    case Err(c, x) => Err(c, x)
    case Ok((e, p)) => if p == |ts| - 1 then Ok(e) else Err(ts[p].col, "end of expression")
  }

  function CompileFilter(source: string): Result<Expr> {
    match Lex(source, 0)
    case Err(c, x) => Err(c, x)
    case Ok(ts) =>
      LexWellEnded(source, 0);
      ParseAll(ts)
  }

  // ---------------------------------------------------------------- the parser object

  /** `r` is the outcome of the step whose specification is `spec`; on success the position agrees too. */
  predicate Outcome(r: Result<Expr>, pos: nat, spec: Parsed) {
    match spec
    case Ok((e, p)) => r == Ok(e) && pos == p
    case Err(c, x) => r == Err(c, x)
  }

  class Parser {
    const tokens: seq<Lexeme>
    var pos: nat

    /** The position never passes the end marker. */
    predicate Valid()
      reads this
    {
      WellEnded(tokens) && pos < |tokens|
    }

    constructor (tokens: seq<Lexeme>)
      requires WellEnded(tokens)
      ensures Valid() && this.tokens == tokens && pos == 0
    {
      this.tokens, pos := tokens, 0;
    }

    method Consume() returns (tok: Token)
      requires Valid() && tokens[pos].tok != END
      modifies this
      ensures Valid() && pos == old(pos) + 1 && tok == tokens[old(pos)].tok
    {
      tok := tokens[pos].tok;
      pos := pos + 1;
    }

    method Or_() returns (r: Result<Expr>)
      requires Valid()
      modifies this
      ensures Valid() && old(pos) <= pos && Outcome(r, pos, ParseOr(tokens, old(pos)))
      decreases |tokens| - pos, 5
    {
      r := And_();
      while r.Ok? && tokens[pos].tok == KW("or")
        invariant Valid() && old(pos) <= pos && (r.Ok? ==> old(pos) < pos)
        invariant match r
                  case Ok(left) => ParseOr(tokens, old(pos)) == OrRest(tokens, left, pos)
                  case Err(c, x) => ParseOr(tokens, old(pos)) == Err(c, x)
        decreases r.Ok?, |tokens| - pos
      {
        var left := r.value;
        var _ := Consume();
        var right := And_();
        if right.Err? {
          return right;
        }
        r := Ok(Or(left, right.value));
      }
    }

    method And_() returns (r: Result<Expr>)
      requires Valid()
      modifies this
      ensures Valid() && old(pos) <= pos && Outcome(r, pos, ParseAnd(tokens, old(pos)))
      decreases |tokens| - pos, 4
    {
      r := Not_();
      while r.Ok? && tokens[pos].tok == KW("and")
        invariant Valid() && old(pos) <= pos && (r.Ok? ==> old(pos) < pos)
        invariant match r
                  case Ok(left) => ParseAnd(tokens, old(pos)) == AndRest(tokens, left, pos)
                  case Err(c, x) => ParseAnd(tokens, old(pos)) == Err(c, x)
        decreases r.Ok?, |tokens| - pos
      {
        var left := r.value;
        var _ := Consume();
        var right := Not_();
        if right.Err? {
          return right;
        }
        r := Ok(And(left, right.value));
      }
    }

    method Not_() returns (r: Result<Expr>)
      requires Valid()
      modifies this
      ensures Valid() && old(pos) <= pos && Outcome(r, pos, ParseNot(tokens, old(pos)))
      decreases |tokens| - pos, 3
    {
      if tokens[pos].tok == KW("not") {
        var _ := Consume();
        r := Not_();
        if r.Ok? {
          r := Ok(Not(r.value));
        }
      } else {
        r := Cmp();
      }
    }

    method Cmp() returns (r: Result<Expr>)
      requires Valid()
      modifies this
      ensures Valid() && old(pos) <= pos && Outcome(r, pos, ParseCmp(tokens, old(pos)))
      decreases |tokens| - pos, 2
    {
      r := Atom();
      if r.Ok? && IsComparison(tokens[pos].tok) {
        var left := r.value;
        var tok := Consume();
        r := Atom();
        if r.Ok? {
          r := Ok(Compare(ComparisonName(tok), left, r.value));
        }
      }
    }

    method Atom() returns (r: Result<Expr>)
      requires Valid()
      modifies this
      ensures Valid() && old(pos) <= pos && Outcome(r, pos, ParseAtom(tokens, old(pos)))
      decreases |tokens| - pos, 1
    {
      var lexeme := tokens[pos];
      match lexeme.tok {
        case STRING(s) =>
          var _ := Consume();
          return Ok(Literal(Text(s)));
        case NUMBER(n) =>
          var _ := Consume();
          return Ok(Literal(Number(n)));
        case LP =>
          var _ := Consume();
          r := Or_();
          if r.Ok? {
            if tokens[pos].tok != RP {
              return Err(tokens[pos].col, ")");
            }
            var _ := Consume();
          }
        case LBR =>
          var _ := Consume();
          r := Items();
        case IDENT(w) =>
          var _ := Consume();
          r := Parts(lexeme.col, w);
        case _ => return Err(lexeme.col, "value");
      }
    }

    /** The list branch of `Atom`, after its opening bracket. */
    method Items() returns (r: Result<Expr>)
      requires Valid() && pos > 0 && tokens[pos - 1].tok == LBR
      modifies this
      ensures Valid() && old(pos) <= pos && Outcome(r, pos, ParseAtom(tokens, old(pos) - 1))
      decreases |tokens| - pos, 2
    {
      var items: seq<Expr> := [];
      if tokens[pos].tok != RBR {
        r := Atom();
        if r.Err? {
          return;
        }
        items := [r.value];
        while tokens[pos].tok == COMMA
          invariant Valid() && old(pos) < pos
          invariant ParseAtom(tokens, old(pos) - 1) == ItemsRest(tokens, items, pos)
          decreases |tokens| - pos
        {
          var _ := Consume();
          r := Atom();
          if r.Err? {
            return;
          }
          items := items + [r.value];
        }
        if tokens[pos].tok != RBR {
          return Err(tokens[pos].col, "]");
        }
      }
      var _ := Consume();
      r := Ok(ListExpr(items));
    }

    /** The identifier branch of `Atom`, after the first identifier. */
    method Parts(col: nat, first: string) returns (r: Result<Expr>)
      requires Valid()
      modifies this
      ensures Valid() && old(pos) <= pos && Outcome(r, pos, PartsRest(tokens, col, [first], old(pos)))
    {
      var parts := [first];
      while tokens[pos].tok == DOT
        invariant Valid() && old(pos) <= pos
        invariant PartsRest(tokens, col, [first], old(pos)) == PartsRest(tokens, col, parts, pos)
        decreases |tokens| - pos
      {
        var _ := Consume();
        if !tokens[pos].tok.IDENT? {
          return Err(tokens[pos].col, "identifier after '.'");
        }
        var ident := Consume();
        parts := parts + [ident.name];
      }
      if tokens[pos].tok == LP {
        return Err(col, "operator or end of expression");
      }
      r := Ok(FieldRef(parts));
    }

    method Parse() returns (r: Result<Expr>)
      requires Valid() && pos == 0
      modifies this
      ensures Valid() && r == ParseAll(tokens)
    {
      r := Or_();
      if r.Ok? && tokens[pos].tok != END {
        r := Err(tokens[pos].col, "end of expression");
      }
    }
  }

  method Compile(source: string) returns (r: Result<Expr>)
    ensures r == CompileFilter(source)
  {
    var tokens := Tokenize(source);
    if tokens.Err? {
      return Err(tokens.col, tokens.expected);
    }
    LexWellEnded(source, 0);
    var parser := new Parser(tokens.value);
    r := parser.Parse();
  }
}
