/** Tokens of the bot filter language, the tokenizer, and why the spacing of a filter is irrelevant. */
module FilterLexer {
  import opened Text

  datatype Token =
    | STRING(text: string)
    | NUMBER(value: nat)
    | IDENT(name: string)
    | OP(op: string)
    | KW(word: string)
    | LP | RP | LBR | RBR | COMMA | DOT | END

  /** A token and the column it starts at. */
  datatype Lexeme = Lexeme(tok: Token, col: nat)

  /** `Err` is the program's FilterParseError: a column and what was expected there. */
  datatype Result<+T> = Ok(value: T) | Err(col: nat, expected: string)

  const KEYWORDS := {"and", "or", "not", "in"}

  predicate IsAlpha(c: char) { 'a' <= c <= 'z' || 'A' <= c <= 'Z' }

  predicate IsWordStart(c: char) { IsAlpha(c) || c == '_' }

  predicate IsWordChar(c: char) { IsAlpha(c) || IsDigit(c) || c == '_' || c == '-' }

  /** Length of the longest prefix of `s` made of digits. */
  function DigitRun(s: string): (n: nat)
    ensures n <= |s| && forall k :: 0 <= k < n ==> IsDigit(s[k])
    ensures n < |s| ==> !IsDigit(s[n])
  {
    if s == "" || !IsDigit(s[0]) then 0
    else
      var n := 1 + DigitRun(s[1..]);
      assert forall k :: 0 < k < n ==> s[k] == s[1..][k - 1];
      n
  }

  /** Length of the longest prefix of `s` made of word characters. */
  function WordRun(s: string): (n: nat)
    ensures n <= |s| && forall k :: 0 <= k < n ==> IsWordChar(s[k])
    ensures n < |s| ==> !IsWordChar(s[n])
  {
    if s == "" || !IsWordChar(s[0]) then 0
    else
      var n := 1 + WordRun(s[1..]);
      assert forall k :: 0 < k < n ==> s[k] == s[1..][k - 1];
      n
  }

  function WordToken(w: string): Token {
    if w in KEYWORDS then KW(w) else IDENT(w)
  }

  function SimpleToken(c: char): Option<Token> {
    if c == '(' then Some(LP)
    else if c == ')' then Some(RP)
    else if c == '[' then Some(LBR)
    else if c == ']' then Some(RBR)
    else if c == ',' then Some(COMMA)
    else if c == '.' then Some(DOT)
    else None
  }

  /** The token at the front of `s`, which starts with neither a space nor the end, and its length. */
  function FirstToken(s: string, col: nat): (r: Result<(Token, nat)>)
    requires s != "" && !IsSpace(s[0])
    ensures r.Ok? ==> 0 < r.value.1 <= |s| && LegalToken(r.value.0)
  {
    var c := s[0];
    if c == '\'' then
      var close := IndexOf(s[1..], '\'');
      if close == |s| - 1 then Err(col, "closing quote") else Ok((STRING(s[1..close + 1]), close + 2))
    else if IsDigit(c) then
      var n := DigitRun(s);
      Ok((NUMBER(DecimalValue(s[..n])), n))
    else if IsWordStart(c) then
      var n := WordRun(s);
      Ok((WordToken(s[..n]), n))
    else if |s| > 1 && (c == '=' || c == '!') && s[1] == '=' then Ok((OP(s[..2]), 2))
    else match SimpleToken(c)
      case Some(t) => Ok((t, 1))
      case None => Err(col, "operator / identifier")
  }

  function Prepend(x: Lexeme, r: Result<seq<Lexeme>>): Result<seq<Lexeme>> {
    match r
    case Ok(xs) => Ok([x] + xs)
    case Err(c, e) => Err(c, e)
  }

  /** All tokens of `s`, whose first character is in column `col`. */
  function Lex(s: string, col: nat): Result<seq<Lexeme>>
    decreases |s|
  {
    if s == "" then Ok([Lexeme(END, col)])
    else if IsSpace(s[0]) then Lex(s[1..], col + 1)
    else match FirstToken(s, col)
      case Err(c, e) => Err(c, e)
      case Ok((t, n)) => Prepend(Lexeme(t, col), Lex(s[n..], col + n))
  }

  method TokNumber(src: string, i: nat) returns (tok: Token, j: nat)
    requires i < |src| && IsDigit(src[i])
    ensures FirstToken(src[i..], i) == Ok((tok, j - i)) && i < j <= |src|
  {
    j := i;
    while j < |src| && IsDigit(src[j])
      invariant i <= j <= |src| && forall k :: i <= k < j ==> IsDigit(src[k])
    {
      j := j + 1;
    }
    assert DigitRun(src[i..]) == j - i;
    assert src[i..][..j - i] == src[i..j];
    tok := NUMBER(DecimalValue(src[i..j]));
  }

  method TokWord(src: string, i: nat) returns (tok: Token, j: nat)
    requires i < |src| && IsWordStart(src[i])
    ensures FirstToken(src[i..], i) == Ok((tok, j - i)) && i < j <= |src|
  {
    j := i;
    while j < |src| && IsWordChar(src[j])
      invariant i <= j <= |src| && forall k :: i <= k < j ==> IsWordChar(src[k])
    {
      j := j + 1;
    }
    assert WordRun(src[i..]) == j - i;
    assert src[i..][..j - i] == src[i..j];
    tok := WordToken(src[i..j]);
  }

  /** The other tokens: quoted strings, operators, single characters. */
  method TokOther(src: string, i: nat) returns (r: Result<(Token, nat)>)
    requires i < |src| && !IsSpace(src[i]) && !IsDigit(src[i]) && !IsWordStart(src[i])
    ensures FirstToken(src[i..], i) == match r case Ok((t, j)) => Ok((t, j - i)) case Err(c, e) => Err(c, e)
    ensures r.Ok? ==> i < r.value.1 <= |src|
  {
    var ch := src[i];
    if ch == '\'' {
      assert src[i..][1..] == src[i + 1..];
      var end := i + 1 + IndexOf(src[i + 1..], '\'');
      if end == |src| {
        return Err(i, "closing quote");
      }
      assert src[i..][1..end - i] == src[i + 1..end];
      return Ok((STRING(src[i + 1..end]), end + 1));
    }
    if i + 1 < |src| && (src[i..i + 2] == "==" || src[i..i + 2] == "!=") {
      assert src[i..][..2] == src[i..i + 2];
      return Ok((OP(src[i..i + 2]), i + 2));
    }
    match SimpleToken(ch) {
      case Some(t) => return Ok((t, i + 1));
      case None => return Err(i, "operator / identifier");
    }
  }

  method Tokenize(src: string) returns (r: Result<seq<Lexeme>>)
    ensures r == Lex(src, 0)
  {
    hide *;
    var tokens: seq<Lexeme> := [];
    var i, n := 0, |src|;
    LexStart(src);
    while i < n
      invariant 0 <= i <= n
      invariant Lex(src, 0) == Append(tokens, Lex(src[i..], i))
    {
      var ch := src[i];
      if IsSpace(ch) {
        LexSpace(src, i);
        i := i + 1;
        continue;
      }
      var tok, j;
      if IsDigit(ch) {
        tok, j := TokNumber(src, i);
      } else if IsWordStart(ch) {
        tok, j := TokWord(src, i);
      } else {
        var other := TokOther(src, i);
        if other.Err? {
          LexError(tokens, src, i, other.col, other.expected);
          return Err(other.col, other.expected);
        }
        tok, j := other.value.0, other.value.1;
      }
      LexToken(tokens, src, i, tok, j);
      tokens := tokens + [Lexeme(tok, i)];
      i := j;
    }
    LexEnd(tokens, src);
    r := Ok(tokens + [Lexeme(END, n)]);
  }

  lemma LexSpace(src: string, i: nat)
    requires i < |src| && IsSpace(src[i])
    ensures Lex(src[i..], i) == Lex(src[i + 1..], i + 1)
  {
    assert src[i..][1..] == src[i + 1..];
  }

  lemma LexError(front: seq<Lexeme>, src: string, i: nat, col: nat, expected: string)
    requires i < |src| && !IsSpace(src[i]) && FirstToken(src[i..], i) == Err(col, expected)
    ensures Append(front, Lex(src[i..], i)) == Err(col, expected)
  {
  }

  lemma LexEnd(front: seq<Lexeme>, src: string)
    ensures Append(front, Lex(src[|src|..], |src|)) == Ok(front + [Lexeme(END, |src|)])
  {
  }

  lemma LexStart(src: string)
    ensures Lex(src, 0) == Append([], Lex(src[0..], 0))
  {
    assert src[0..] == src;
    var r := Lex(src, 0);
    if r.Ok? { assert [] + r.value == r.value; }
  }

  function Append(front: seq<Lexeme>, r: Result<seq<Lexeme>>): Result<seq<Lexeme>> {
    match r
    case Ok(xs) => Ok(front + xs)
    case Err(c, e) => Err(c, e)
  }

  lemma AppendPrepend(front: seq<Lexeme>, x: Lexeme, r: Result<seq<Lexeme>>)
    ensures Append(front, Prepend(x, r)) == Append(front + [x], r)
  {
    if r.Ok? { Assoc(front, [x], r.value); }
  }

  lemma LexCons(s: string, col: nat, tok: Token, n: nat)
    requires s != "" && !IsSpace(s[0]) && FirstToken(s, col) == Ok((tok, n))
    ensures Lex(s, col) == Prepend(Lexeme(tok, col), Lex(s[n..], col + n))
  {
  }

  lemma LexToken(front: seq<Lexeme>, src: string, i: nat, tok: Token, j: nat)
    requires i < j <= |src| && !IsSpace(src[i]) && FirstToken(src[i..], i) == Ok((tok, j - i))
    ensures Append(front, Lex(src[i..], i)) == Append(front + [Lexeme(tok, i)], Lex(src[j..], j))
  {
    hide *;
    LexCons(src[i..], i, tok, j - i);
    AppendPrepend(front, Lexeme(tok, i), Lex(src[j..], j));
    assert src[i..][j - i..] == src[j..];
  }

  // ---------------------------------------------------------------- legal tokens

  predicate LegalWord(w: string) {
    w != "" && IsWordStart(w[0]) && forall k :: 0 <= k < |w| ==> IsWordChar(w[k])
  }

  /** What the tokenizer produces before the end marker. */
  predicate LegalToken(t: Token) {
    match t
    case STRING(s) => '\'' !in s
    case IDENT(w) => LegalWord(w) && w !in KEYWORDS
    case KW(w) => w in KEYWORDS
    case OP(o) => o == "==" || o == "!="
    case END => false
    case _ => true
  }

  /** Legal tokens, then the end marker: the shape of every tokenizer result. */
  predicate WellEnded(ts: seq<Lexeme>) {
    && |ts| > 0 && ts[|ts| - 1].tok == END
    && forall i :: 0 <= i < |ts| - 1 ==> LegalToken(ts[i].tok)
  }

  lemma {:induction false} LexWellEnded(s: string, col: nat)
    ensures Lex(s, col).Ok? ==> WellEnded(Lex(s, col).value)
    decreases |s|
  {
    if s != "" {
      if IsSpace(s[0]) {
        LexWellEnded(s[1..], col + 1);
      } else if FirstToken(s, col).Ok? {
        var (t, n) := FirstToken(s, col).value;
        LexWellEnded(s[n..], col + n);
      }
    }
  }

  // ---------------------------------------------------------------- printing tokens

  function TokenText(t: Token): string {
    match t
    case STRING(s) => "'" + s + "'"
    case NUMBER(n) => Decimal(n)
    case IDENT(w) => w
    case OP(o) => o
    case KW(w) => w
    case LP => "("
    case RP => ")"
    case LBR => "["
    case RBR => "]"
    case COMMA => ","
    case DOT => "."
    case END => ""
  }

  /** Two neighbours that would run together without a space. */
  predicate NeedsGap(t: Token, u: Token) {
    || ((t.IDENT? || t.KW?) && (u.IDENT? || u.KW? || u.NUMBER?))
    || (t.NUMBER? && u.NUMBER?)
  }

  /** `gaps[i]` goes before token `i`, the last one after the last token. */
  predicate Layout(gaps: seq<string>, ts: seq<Token>) {
    && |gaps| == |ts| + 1
    && (forall i :: 0 <= i < |gaps| ==> Blank(gaps[i]))
    && (forall i :: 0 <= i < |ts| - 1 && NeedsGap(ts[i], ts[i + 1]) ==> gaps[i + 1] != "")
  }

  function Spread(gaps: seq<string>, ts: seq<Token>): string
    requires |gaps| == |ts| + 1
  {
    if ts == [] then gaps[0] else gaps[0] + (TokenText(ts[0]) + Spread(gaps[1..], ts[1..]))
  }

  function Tokens(xs: seq<Lexeme>): (r: seq<Token>)
    ensures |r| == |xs| && forall i :: 0 <= i < |xs| ==> r[i] == xs[i].tok
  {
    seq(|xs|, i requires 0 <= i < |xs| => xs[i].tok)
  }

  lemma {:induction false} SkipBlank(gap: string, s: string, col: nat)
    requires Blank(gap)
    ensures Lex(gap + s, col) == Lex(s, col + |gap|)
  {
    if gap == "" {
      assert gap + s == s;
    } else {
      assert (gap + s)[1..] == gap[1..] + s;
      SkipBlank(gap[1..], s, col + 1);
    }
  }

  /** `rest` does not continue token `t`. */
  predicate Separate(t: Token, rest: string) {
    rest != "" ==>
      && (t.IDENT? || t.KW? ==> !IsWordChar(rest[0]))
      && (t.NUMBER? ==> !IsDigit(rest[0]))
  }

  lemma KeywordsAreWords(w: string)
    requires w in KEYWORDS
    ensures LegalWord(w)
  {
  }

  lemma DigitRunIs(w: string, rest: string)
    requires (forall k :: 0 <= k < |w| ==> IsDigit(w[k])) && (rest != "" ==> !IsDigit(rest[0]))
    ensures DigitRun(w + rest) == |w|
  {
    var s := w + rest;
    assert forall k :: 0 <= k < |w| ==> s[k] == w[k];
    assert rest != "" ==> s[|w|] == rest[0];
  }

  lemma WordRunIs(w: string, rest: string)
    requires (forall k :: 0 <= k < |w| ==> IsWordChar(w[k])) && (rest != "" ==> !IsWordChar(rest[0]))
    ensures WordRun(w + rest) == |w|
  {
    var s := w + rest;
    assert forall k :: 0 <= k < |w| ==> s[k] == w[k];
    assert rest != "" ==> s[|w|] == rest[0];
  }

  lemma WordTokenText(w: string, rest: string, col: nat)
    requires LegalWord(w) && (rest != "" ==> !IsWordChar(rest[0]))
    ensures !IsSpace(w[0]) && FirstToken(w + rest, col) == Ok((WordToken(w), |w|))
  {
    WordRunIs(w, rest);
    assert (w + rest)[..|w|] == w;
  }

  lemma NumberTokenText(n: nat, rest: string, col: nat)
    requires rest != "" ==> !IsDigit(rest[0])
    ensures FirstToken(Decimal(n) + rest, col) == Ok((NUMBER(n), |Decimal(n)|))
  {
    var w := Decimal(n);
    DigitRunIs(w, rest);
    assert (w + rest)[..|w|] == w;
    DecimalRoundTrip(n);
  }

  lemma StringTokenText(x: string, rest: string, col: nat)
    requires '\'' !in x
    ensures FirstToken("'" + x + "'" + rest, col) == Ok((STRING(x), |x| + 2))
  {
    var s := "'" + x + "'" + rest;
    assert s[1..] == x + ['\''] + rest;
    IndexOfIs(x, '\'', rest);
    assert s[1..|x| + 1] == x;
  }

  lemma SymbolTokenText(t: Token, rest: string, col: nat)
    requires LegalToken(t) && (t.OP? || t.LP? || t.RP? || t.LBR? || t.RBR? || t.COMMA? || t.DOT?)
    ensures TokenText(t) != "" && !IsSpace(TokenText(t)[0])
    ensures FirstToken(TokenText(t) + rest, col) == Ok((t, |TokenText(t)|))
  {
    var s := TokenText(t) + rest;
    assert s[0] == TokenText(t)[0];
    if t.OP? {
      assert s[1] == '=' && s[..2] == t.op;
    }
  }

  /** The tokenizer reads back a printed token that is kept apart from what follows. */
  lemma FirstTokenText(t: Token, rest: string, col: nat)
    requires LegalToken(t) && Separate(t, rest)
    ensures TokenText(t) != "" && !IsSpace(TokenText(t)[0])
    ensures FirstToken(TokenText(t) + rest, col) == Ok((t, |TokenText(t)|))
  {
    hide FirstToken, DecimalValue, Decimal;
    match t
    case STRING(x) => StringTokenText(x, rest, col);
    case NUMBER(n) => NumberTokenText(n, rest, col);
    case IDENT(w) => WordTokenText(w, rest, col);
    case KW(w) =>
      KeywordsAreWords(w);
      WordTokenText(w, rest, col);
    case _ => SymbolTokenText(t, rest, col);
  }

  lemma SeparateSpread(t: Token, gaps: seq<string>, ts: seq<Token>)
    requires |gaps| == |ts| + 1 && Blank(gaps[0])
    requires ts != [] ==> LegalToken(ts[0]) && (NeedsGap(t, ts[0]) ==> gaps[0] != "")
    ensures Separate(t, Spread(gaps, ts))
  {
    var s := Spread(gaps, ts);
    if gaps[0] != "" {
      assert s[0] == gaps[0][0] && IsSpace(s[0]);
    } else if ts != [] {
      var u := ts[0];
      FirstTokenText(u, "", 0);
      assert s[0] == TokenText(u)[0];
    }
  }

  /**
   * Tokenizing any layout of legal tokens gives those tokens and the end marker, whatever the
   * spacing, as long as two words or two numbers do not touch.
   */
  lemma {:induction false} LexSpread(gaps: seq<string>, ts: seq<Token>, col: nat)
    requires Layout(gaps, ts) && forall i :: 0 <= i < |ts| ==> LegalToken(ts[i])
    ensures Lex(Spread(gaps, ts), col).Ok?
    ensures Tokens(Lex(Spread(gaps, ts), col).value) == ts + [END]
    decreases |ts|
  {
    var col' := col + |gaps[0]|;
    if ts == [] {
      assert ts + [END] == [END];
      hide FirstToken, Lex, Tokens;
      NoTokens(gaps[0], col);
    } else {
      LayoutTail(gaps, ts);
      hide *;
      var rest, text := Spread(gaps[1..], ts[1..]), TokenText(ts[0]);
      SeparateSpread(ts[0], gaps[1..], ts[1..]);
      FirstTokenText(ts[0], rest, col');
      SkipBlank(gaps[0], text + rest, col);
      LexSpread(gaps[1..], ts[1..], col' + |text|);
      OneMoreToken(ts[0], text, rest, col');
      assert ts + [END] == [ts[0]] + (ts[1..] + [END]);
    }
  }

  lemma LayoutTail(gaps: seq<string>, ts: seq<Token>)
    requires Layout(gaps, ts) && ts != [] && forall i :: 0 <= i < |ts| ==> LegalToken(ts[i])
    ensures |gaps| == |ts| + 1 && Blank(gaps[0]) && Blank(gaps[1]) && LegalToken(ts[0]) && Layout(gaps[1..], ts[1..])
    ensures Spread(gaps, ts) == gaps[0] + (TokenText(ts[0]) + Spread(gaps[1..], ts[1..]))
    ensures forall i :: 0 <= i < |ts[1..]| ==> LegalToken(ts[1..][i])
    ensures |ts| > 1 ==> LegalToken(ts[1]) && (NeedsGap(ts[0], ts[1]) ==> gaps[1] != "")
  {
    hide LegalToken, TokenText, NeedsGap, Blank;
  }

  lemma NoTokens(gap: string, col: nat)
    requires Blank(gap)
    ensures Lex(gap, col).Ok? && Tokens(Lex(gap, col).value) == [END]
  {
    SkipBlank(gap, "", col);
    assert gap + "" == gap;
    EndOnly(col + |gap|);
  }

  lemma EndOnly(col: nat)
    ensures Lex("", col) == Ok([Lexeme(END, col)]) && Tokens([Lexeme(END, col)]) == [END]
  {
    assert [Lexeme(END, col)][1..] == [];
    assert Tokens([]) == [];
  }

  lemma OneMoreToken(t: Token, text: string, rest: string, col: nat)
    requires text != "" && !IsSpace(text[0]) && FirstToken(text + rest, col) == Ok((t, |text|))
    requires Lex(rest, col + |text|).Ok?
    ensures Lex(text + rest, col).Ok?
    ensures Tokens(Lex(text + rest, col).value) == [t] + Tokens(Lex(rest, col + |text|).value)
  {
    hide *;
    var s, tail := text + rest, Lex(rest, col + |text|);
    assert s[0] == text[0] && s[|text|..] == rest;
    LexCons(s, col, t, |text|);
    PrependOk(Lexeme(t, col), tail);
    TokensCons(Lexeme(t, col), tail.value);
  }

  lemma PrependOk(x: Lexeme, r: Result<seq<Lexeme>>)
    requires r.Ok?
    ensures Prepend(x, r) == Ok([x] + r.value)
  {
  }

  lemma TokensCons(x: Lexeme, xs: seq<Lexeme>)
    ensures Tokens([x] + xs) == [x.tok] + Tokens(xs)
  {
    assert ([x] + xs)[1..] == xs;
  }

  // ---------------------------------------------------------------- what tokens stand for

  predicate WordStart(c: char) { 'a' <= c <= 'z' || 'A' <= c <= 'Z' || c == '_' }

  /** The text a token is written as; numbers may have leading zeros. */
  predicate Spells(tok: Token, w: string) {
    match tok
    case STRING(text) => w == "'" + text + "'" && '\'' !in text
    case NUMBER(value) =>
      w != "" && (forall i :: 0 <= i < |w| ==> '0' <= w[i] <= '9') && value == DecimalValue(w)
    case IDENT(name) => w == name && IsName(w) && w != "and" && w != "or" && w != "not" && w != "in"
    case KW(word) => w == word && (w == "and" || w == "or" || w == "not" || w == "in")
    case OP(op) => w == op && (w == "==" || w == "!=")
    case LP => w == "("
    case RP => w == ")"
    case LBR => w == "["
    case RBR => w == "]"
    case COMMA => w == ","
    case DOT => w == "."
    case END => w == ""
  }

  predicate IsName(w: string) {
    && w != "" && WordStart(w[0])
    && forall i :: 0 <= i < |w| ==> WordStart(w[i]) || '0' <= w[i] <= '9' || w[i] == '-'
  }

  /** The text from column `col` on is the tokens, each at its column, with nothing but whitespace around them. */
  predicate Reads(s: string, col: nat, ts: seq<Lexeme>)
    decreases |ts|, 1
  {
    && ts != [] && col <= ts[0].col <= col + |s|
    && var gap := ts[0].col - col;
    && Blank(s[..gap])
    && if ts[0].tok == END then |ts| == 1 && gap == |s|
       else exists n :: 0 < n <= |s| - gap && ReadsAfter(s, ts, gap, n)
  }

  predicate ReadsAfter(s: string, ts: seq<Lexeme>, gap: nat, n: nat)
    requires ts != [] && gap + n <= |s|
    decreases |ts|, 0
  {
    Spells(ts[0].tok, s[gap..gap + n]) && Reads(s[gap + n..], ts[0].col + n, ts[1..])
  }

  lemma FirstSpelled(s: string, col: nat)
    requires s != "" && !IsSpace(s[0]) && FirstToken(s, col).Ok?
    ensures var (t, n) := FirstToken(s, col).value; t != END && n <= |s| && Spells(t, s[..n])
  {
    var (t, n) := FirstToken(s, col).value;
    if s[0] == '\'' {
      assert s[..n] == "'" + t.text + "'";
    } else if IsDigit(s[0]) {
      assert forall i :: 0 <= i < n ==> s[..n][i] == s[i] && IsDigit(s[i]);
    } else if IsWordStart(s[0]) {
      assert forall i :: 0 <= i < n ==> s[..n][i] == s[i] && IsWordChar(s[i]);
    }
  }

  lemma SpaceBefore(s: string, col: nat, ts: seq<Lexeme>)
    requires s != "" && IsSpace(s[0]) && Reads(s[1..], col + 1, ts)
    ensures Reads(s, col, ts)
  {
    hide Spells;
    var gap := ts[0].col - col;
    assert s[..gap] == [s[0]] + s[1..][..gap - 1];
    if ts[0].tok != END {
      var n :| 0 < n <= |s| - gap && ReadsAfter(s[1..], ts, gap - 1, n);
      assert s[1..][gap - 1..gap - 1 + n] == s[gap..gap + n] && s[1..][gap - 1 + n..] == s[gap + n..];
      assert ReadsAfter(s, ts, gap, n);
    }
  }

  lemma TokenBefore(s: string, col: nat, t: Token, n: nat, ts: seq<Lexeme>)
    requires 0 < n <= |s| && t != END && Spells(t, s[..n]) && Reads(s[n..], col + n, ts)
    ensures Reads(s, col, [Lexeme(t, col)] + ts)
  {
    hide Spells;
    var all := [Lexeme(t, col)] + ts;
    assert all[1..] == ts && s[0..0 + n] == s[..n] && s[0 + n..] == s[n..];
    assert ReadsAfter(s, all, 0, n);
  }

  lemma LexTokenIs(s: string, col: nat, t: Token, n: nat)
    requires s != "" && !IsSpace(s[0]) && FirstToken(s, col) == Ok((t, n))
    requires var rest := Lex(s[n..], col + n); rest.Ok? ==> Reads(s[n..], col + n, rest.value)
    ensures Lex(s, col).Ok? ==> Reads(s, col, Lex(s, col).value)
  {
    FirstSpelled(s, col);
    LexCons(s, col, t, n);
    hide *;
    var rest := Lex(s[n..], col + n);
    PrependIs(Lexeme(t, col), rest);
    if rest.Ok? { TokenBefore(s, col, t, n, rest.value); }
  }

  lemma PrependIs(x: Lexeme, r: Result<seq<Lexeme>>)
    ensures Prepend(x, r).Ok? <==> r.Ok?
    ensures r.Ok? ==> Prepend(x, r).value == [x] + r.value
  {
  }

  lemma LexSpaceIs(s: string, col: nat)
    requires s != "" && IsSpace(s[0])
    requires var rest := Lex(s[1..], col + 1); rest.Ok? ==> Reads(s[1..], col + 1, rest.value)
    ensures Lex(s, col).Ok? ==> Reads(s, col, Lex(s, col).value)
  {
    if Lex(s, col).Ok? { SpaceBefore(s, col, Lex(s, col).value); }
  }

  lemma LexNothing(col: nat)
    ensures Lex("", col) == Ok([Lexeme(END, col)]) && Reads("", col, [Lexeme(END, col)])
  {
  }

  lemma LexOk(s: string, col: nat)
    requires s != "" && !IsSpace(s[0]) && Lex(s, col).Ok?
    ensures FirstToken(s, col).Ok?
  {
  }

  /** Whatever is accepted is a text of the language: its tokens, at their columns, and whitespace. */
  lemma {:induction false} LexedIsText(s: string, col: nat)
    ensures Lex(s, col).Ok? ==> Reads(s, col, Lex(s, col).value)
    decreases |s|
  {
    hide *;
    if s == "" {
      LexNothing(col);
    } else if IsSpace(s[0]) {
      LexedIsText(s[1..], col + 1);
      LexSpaceIs(s, col);
    } else if Lex(s, col).Ok? {
      LexOk(s, col);
      var (t, n) := FirstToken(s, col).value;
      LexedIsText(s[n..], col + n);
      LexTokenIs(s, col, t, n);
    }
  }

  /** No token starts here. */
  predicate StartsNothing(s: string) {
    && s != "" && !IsSpace(s[0]) && s[0] != '\'' && !('0' <= s[0] <= '9') && !WordStart(s[0])
    && s[0] != '(' && s[0] != ')' && s[0] != '[' && s[0] != ']' && s[0] != ',' && s[0] != '.'
    && !StartsWith(s, "==") && !StartsWith(s, "!=")
  }

  /** At the `k`-th character no token starts, or a string starts that does not end. */
  predicate FailsAt(s: string, k: nat, expected: string) {
    k < |s| && if s[k] == '\'' then '\'' !in s[k + 1..] && expected == "closing quote"
               else StartsNothing(s[k..]) && expected == "operator / identifier"
  }

  lemma FailsLater(s: string, n: nat, k: nat, expected: string)
    requires n <= |s| && FailsAt(s[n..], k, expected)
    ensures FailsAt(s, n + k, expected)
  {
    hide StartsNothing;
    assert s[n..][k..] == s[n + k..] && s[n..][k + 1..] == s[n + k + 1..];
  }

  lemma FirstError(s: string, col: nat)
    requires s != "" && !IsSpace(s[0]) && FirstToken(s, col).Err?
    ensures FirstToken(s, col).col == col && FailsAt(s, 0, FirstToken(s, col).expected)
  {
    assert s[0..] == s;
    assert forall k :: 0 <= k < |s[1..]| ==> s[1..][k] == s[k + 1];
  }

  /** What is refused is refused where no token starts or a string does not end. */
  lemma {:induction false} LexErrorAt(s: string, col: nat)
    ensures Lex(s, col).Err? ==>
      Lex(s, col).col >= col && FailsAt(s, Lex(s, col).col - col, Lex(s, col).expected)
    decreases |s|
  {
    hide FailsAt;
    if s != "" && Lex(s, col).Err? {
      var c, x := Lex(s, col).col, Lex(s, col).expected;
      if IsSpace(s[0]) {
        LexErrorAt(s[1..], col + 1);
        FailsLater(s, 1, c - col - 1, x);
      } else if FirstToken(s, col).Err? {
        FirstError(s, col);
      } else {
        var n := FirstToken(s, col).value.1;
        LexErrorAt(s[n..], col + n);
        FailsLater(s, n, c - col - n, x);
      }
    }
  }
}
