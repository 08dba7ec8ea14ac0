/**
 * Parsing undoes formatting: which messages that section 2.3.1 of RFC 2812 and the
 * IRCv3 tag grammar allow come back unchanged, and exactly which do not.
 */
module MessageRoundTrip {
  import opened Text
  import opened Messages

  // ---------------------------------------------------------------- legal messages

  predicate Letter(c: char) { 'a' <= c <= 'z' || 'A' <= c <= 'Z' }

  predicate Digit(c: char) { '0' <= c <= '9' }

  predicate KeyChar(c: char) { Letter(c) || Digit(c) || c == '-' || c == '.' || c == '/' || c == '+' }

  predicate LegalKey(k: string) {
    k != "" && forall i :: 0 <= i < |k| ==> KeyChar(k[i])
  }

  predicate LegalTags(d: seq<Tag>) {
    DistinctKeys(d) && forall i :: 0 <= i < |d| ==> LegalKey(d[i].key)
  }

  predicate Printable(s: string) {
    '\0' !in s && '\r' !in s && '\n' !in s
  }

  predicate LegalCommand(c: string) {
    || (c != "" && forall i :: 0 <= i < |c| ==> Letter(c[i]))
    || (|c| == 3 && forall i :: 0 <= i < |c| ==> Digit(c[i]))
  }

  predicate LegalMiddle(p: string) {
    p != "" && p[0] != ':' && Printable(p) && ' ' !in p
  }

  predicate LegalPrefix(p: Option<string>) {
    p.Some? ==> p.value != "" && Printable(p.value) && ' ' !in p.value
  }

  predicate LegalParams(ps: seq<string>) {
    && (forall i :: 0 <= i < |ps| - 1 ==> LegalMiddle(ps[i]))
    && (ps != [] ==> Printable(ps[|ps| - 1]))
  }

  /** The message grammar of RFC 2812 and IRCv3: tag values are arbitrary, the last parameter nearly so. */
  predicate Legal(m: Message) {
    LegalTags(m.tags) && LegalPrefix(m.prefix) && LegalCommand(m.command) && LegalParams(m.params)
  }

  /** The parameters written without a leading colon. */
  function BareParams(ps: seq<string>): seq<string> {
    if ps == [] then []
    else if NeedsColon(ps[|ps| - 1]) then ps[..|ps| - 1]
    else ps
  }

  /** Upper-case command, and no tab or other Python whitespace in a parameter written without a colon. */
  predicate Survives(m: Message) {
    UpperCase(m.command) && AllWords(BareParams(m.params))
  }

  // ---------------------------------------------------------------- tags

  lemma UnescapeOne(c: char, rest: string)
    ensures Unescape(EscapeChar(c) + rest) == [c] + Unescape(rest)
  {
    var e := EscapeChar(c);
    assert (e + rest)[|e|..] == rest;
  }

  lemma {:induction false} UnescapeEscape(v: string)
    ensures Unescape(Escape(v)) == v
  {
    if v != "" {
      UnescapeEscape(v[1..]);
      UnescapeOne(v[0], Escape(v[1..]));
      hide Unescape, EscapeChar;
      assert v == [v[0]] + v[1..];
    }
  }

  /**
   * The escapes of the message-tags specification, wherever they stand: five have a meaning, any other character
   * after a backslash stands for itself, and a backslash at the end is kept.
   */
  lemma UnescapeForms(c: char, rest: string)
    ensures Unescape("\\" + [c] + rest) ==
      [match c case ':' => ';' case 's' => ' ' case 'r' => '\r' case 'n' => '\n' case _ => c] + Unescape(rest)
    ensures c != '\\' ==> Unescape([c] + rest) == [c] + Unescape(rest)
    ensures Unescape("\\") == "\\" && Unescape("") == ""
  {
    assert ("\\" + [c] + rest)[2..] == rest && ([c] + rest)[1..] == rest && "\\"[1..] == "";
  }

  lemma {:induction false} EscapeAvoids(v: string)
    ensures ';' !in Escape(v) && ' ' !in Escape(v)
  {
    if v != "" { EscapeAvoids(v[1..]); }
  }

  lemma TagPieceLegal(t: Tag)
    requires LegalKey(t.key)
    ensures TagPiece(t) != "" && ';' !in TagPiece(t) && ' ' !in TagPiece(t)
  {
    EscapeAvoids(t.value);
  }

  lemma {:induction false} TagPiecesLegal(d: seq<Tag>)
    requires forall i :: 0 <= i < |d| ==> LegalKey(d[i].key)
    ensures Avoids(TagPieces(d), ';') && Avoids(TagPieces(d), ' ')
  {
    if d != [] {
      TagPieceLegal(d[0]);
      TagPiecesLegal(d[1..]);
    }
  }

  lemma AddTagPiece(d: seq<Tag>, t: Tag)
    requires LegalKey(t.key) && !HasKey(d, t.key)
    ensures AddPiece(d, TagPiece(t)) == d + [t]
  {
    assert '=' !in t.key;
    DictSetNew(d, t.key, t.value);
    if t.value == "" {
      IndexOfNone(t.key, '=');
    } else {
      IndexOfIs(t.key, '=', Escape(t.value));
      var piece := TagPiece(t);
      assert piece == t.key + ['='] + Escape(t.value);
      assert piece[..|t.key|] == t.key && piece[|t.key| + 1..] == Escape(t.value);
      UnescapeEscape(t.value);
    }
  }

  lemma {:induction false} AddTagPieces(d: seq<Tag>, more: seq<Tag>)
    requires LegalTags(d + more)
    ensures AddPieces(d, TagPieces(more)) == d + more
    decreases |more|
  {
    if more == [] {
      assert d + more == d;
    } else {
      var t := more[0];
      NextTag(d, more);
      AddTagPieces(d + [t], more[1..]);
      AddTagPiece(d, t);
      AddPiecesCons(d, TagPiece(t), TagPieces(more[1..]));
      assert TagPieces(more) == [TagPiece(t)] + TagPieces(more[1..]);
    }
  }

  lemma NextTag(d: seq<Tag>, more: seq<Tag>)
    requires LegalTags(d + more) && more != []
    ensures LegalKey(more[0].key) && !HasKey(d, more[0].key) && (d + [more[0]]) + more[1..] == d + more
  {
    var all := d + more;
    assert all[|d|] == more[0];
    assert forall i :: 0 <= i < |d| ==> all[i] == d[i];
  }

  lemma AddPiecesCons(d: seq<Tag>, piece: string, pieces: seq<string>)
    ensures AddPieces(d, [piece] + pieces) == AddPieces(AddPiece(d, piece), pieces)
  {
    assert ([piece] + pieces)[1..] == pieces;
  }

  lemma TagBlockRoundTrip(d: seq<Tag>, body: string)
    requires d != [] && LegalTags(d)
    ensures TagBlock("@" + Join(TagPieces(d), ";") + " " + body) == (d, body)
  {
    var blob := Join(TagPieces(d), ";");
    assert [] + d == d;
    hide LegalTags, TagPieces, Join, Split, AddPieces;
    TagPiecesLegal(d);
    JoinAvoids(TagPieces(d), ";", ' ');
    SplitJoin(TagPieces(d), ';');
    AddTagPieces([], d);
    ReadBlock(blob, body);
  }

  lemma ReadBlock(blob: string, body: string)
    requires ' ' !in blob
    ensures TagBlock("@" + blob + " " + body) == (AddPieces([], Split(blob, ';')), body)
  {
    hide Split, AddPieces;
    var line := "@" + blob + " " + body;
    assert line == ("@" + blob) + [' '] + body;
    IndexOfIs("@" + blob, ' ', body);
    assert line[1..|blob| + 1] == blob && line[|blob| + 2..] == body;
  }

  // ---------------------------------------------------------------- command and parameters

  /** The line after tags and prefix. */
  function CommandLine(m: Message): string {
    Join([m.command] + WireParams(m.params), " ")
  }

  predicate NoColonStart(ws: seq<string>) {
    forall i :: 0 <= i < |ws| ==> ws[i] != "" && ws[i][0] != ':' && ' ' !in ws[i]
  }

  predicate HasSpaceColon(s: string) {
    exists k :: 0 <= k < |s| - 1 && s[k] == ' ' && s[k + 1] == ':'
  }

  lemma {:induction false} NoSpaceColon(ws: seq<string>)
    requires NoColonStart(ws)
    ensures !HasSpaceColon(Join(ws, " "))
    ensures ws != [] ==> Join(ws, " ") != "" && Join(ws, " ")[0] == ws[0][0]
  {
    if |ws| > 1 {
      NoSpaceColon(ws[1..]);
      var s, rest := Join(ws, " "), Join(ws[1..], " ");
      var n := |ws[0]|;
      assert s == ws[0] + " " + rest;
      assert forall k :: 0 <= k < n ==> s[k] == ws[0][k] && s[k] in ws[0];
      assert forall k :: n < k < |s| ==> s[k] == rest[k - n - 1];
    } else if |ws| == 1 {
      assert forall k :: 0 <= k < |ws[0]| ==> ws[0][k] in ws[0];
    }
  }

  lemma TrailingAfter(head: string, last: string)
    requires !HasSpaceColon(head)
    ensures TrailingAt(head) == |head|
    ensures TrailingAt(head + " :" + last) == |head|
  {
    var s := head + " :" + last;
    assert s[|head|] == ' ' && s[|head| + 1] == ':';
    assert forall k :: 0 <= k < |head| ==> s[k] == head[k];
  }

  lemma BareNoColonStart(m: Message)
    requires Legal(m)
    ensures NoColonStart([m.command] + BareParams(m.params))
  {
  }

  /** The command line is the bare words, then the trailing parameter if it needs its colon. */
  lemma CommandLineShape(m: Message)
    requires Legal(m)
    ensures var bare := Join([m.command] + BareParams(m.params), " ");
            CommandLine(m) == if m.params != [] && NeedsColon(m.params[|m.params| - 1])
                              then bare + " :" + m.params[|m.params| - 1] else bare
  {
    var ps := m.params;
    if ps != [] {
      var last := ps[|ps| - 1];
      if NeedsColon(last) {
        assert [m.command] + WireParams(ps) == ([m.command] + BareParams(ps)) + [":" + last];
        JoinAppend([m.command] + BareParams(ps), [":" + last], " ");
      } else {
        assert WireParams(ps) == ps;
      }
    }
  }

  function BareLine(m: Message): string {
    Join([m.command] + BareParams(m.params), " ")
  }

  function Trailing(ps: seq<string>): seq<string> {
    if ps != [] && NeedsColon(ps[|ps| - 1]) then [ps[|ps| - 1]] else []
  }

  lemma ParseCommandParts(m: Message)
    requires Legal(m)
    ensures var words := Words(BareLine(m));
            ParseCommand(m.tags, m.prefix, CommandLine(m)) ==
            if words == [] then Message(m.prefix, "", [], m.tags)
            else Message(m.prefix, Upper(words[0]), words[1..] + Trailing(m.params), m.tags)
  {
    var line, head := CommandLine(m), BareLine(m);
    CommandLineShape(m);
    BareNoColonStart(m);
    NoSpaceColon([m.command] + BareParams(m.params));
    var last := if Trailing(m.params) == [] then "" else Trailing(m.params)[0];
    TrailingAfter(head, last);
    var t := TrailingAt(line);
    assert line[..t] == head;
    assert t < |line| ==> line[t + 2..] == last;
  }

  /** Splitting at whitespace gives the command and the bare parameters back exactly when they are words. */
  lemma WordsSurvive(command: string, bare: seq<string>, words: seq<string>, trailing: seq<string>)
    requires LegalCommand(command) && words == Words(Join([command] + bare, " "))
    ensures (words != [] && Upper(words[0]) == command && words[1..] + trailing == bare + trailing) <==>
            (Upper(command) == command && AllWords(bare))
  {
    if AllWords(bare) {
      CommandIsWord(command, bare);
      WordsJoin([command] + bare);
      assert words[1..] == bare;
    } else if words != [] {
      SameFront(words[1..], bare, trailing);
      assert AllWords(words);
      assert AllWords(words[1..]);
    }
  }

  lemma CommandIsWord(command: string, bare: seq<string>)
    requires LegalCommand(command) && AllWords(bare)
    ensures AllWords([command] + bare)
  {
  }

  lemma SameFront<T>(a: seq<T>, b: seq<T>, c: seq<T>)
    ensures a + c == b + c <==> a == b
  {
    if a + c == b + c {
      assert |a| == |b|;
      assert (a + c)[..|a|] == a && (b + c)[..|b|] == b;
    }
  }

  lemma ParseCommandLine(m: Message)
    requires Legal(m)
    ensures ParseCommand(m.tags, m.prefix, CommandLine(m)) == m <==> Survives(m)
  {
    var bare, words := BareParams(m.params), Words(BareLine(m));
    UpperCaseIs(m.command);
    hide UpperCase;
    ParseCommandParts(m);
    assert bare + Trailing(m.params) == m.params;
    hide ParseCommand, CommandLine, Words, BareParams, Trailing, Join;
    WordsSurvive(m.command, bare, words, Trailing(m.params));
  }

  // ---------------------------------------------------------------- the whole line

  function BodyLine(m: Message): string {
    if m.prefix.None? then CommandLine(m) else ":" + m.prefix.value + " " + CommandLine(m)
  }

  function WholeLine(m: Message): string {
    if m.tags == [] then BodyLine(m) else "@" + Join(TagPieces(m.tags), ";") + " " + BodyLine(m)
  }

  lemma FormatShape(m: Message)
    requires Legal(m)
    ensures Format(m) == WholeLine(m) + "\r\n"
  {
    var cmd := [m.command] + WireParams(m.params);
    var body := PrefixParts(m.prefix) + cmd;
    assert WireParts(m) == TagParts(m.tags) + body;
    if m.prefix.Some? {
      JoinAppend([":" + m.prefix.value], cmd, " ");
    } else {
      assert body == cmd;
    }
    assert Join(body, " ") == BodyLine(m);
    if m.tags != [] {
      JoinAppend(TagParts(m.tags), body, " ");
    } else {
      assert WireParts(m) == body;
    }
  }

  lemma CommandLineEnds(m: Message)
    requires Legal(m)
    ensures CommandLine(m) != "" && CommandLine(m)[0] == m.command[0] && !EndsLine(CommandLine(m))
  {
    var ps := WireParams(m.params);
    if ps == [] {
      assert [m.command] + ps == [m.command];
    } else {
      var n := |ps| - 1;
      var front := [m.command] + ps[..n];
      assert [m.command] + ps == front + [ps[n]];
      JoinAppend(front, [ps[n]], " ");
      assert Join(front, " ") != "" && Join(front, " ")[0] == m.command[0] by {
        if |front| > 1 { assert front[0] == m.command; }
      }
      var last := m.params[n];
      assert forall i :: 0 <= i < |last| ==> last[i] in last;
    }
  }

  /** A prefix without a space is read up to the first space. */
  lemma PrefixRead(tags: seq<Tag>, p: string, rest: string)
    requires ' ' !in p
    ensures ParseBody(tags, ":" + p + " " + rest) == ParseCommand(tags, Some(p), rest)
  {
    hide ParseCommand;
    var line := ":" + p + " " + rest;
    assert line == (":" + p) + [' '] + rest;
    IndexOfIs(":" + p, ' ', rest);
    assert line[1..|p| + 1] == p && line[|p| + 2..] == rest;
  }

  lemma ParseBodyLine(m: Message)
    requires Legal(m)
    ensures ParseBody(m.tags, BodyLine(m)) == ParseCommand(m.tags, m.prefix, CommandLine(m))
    ensures BodyLine(m) != "" && BodyLine(m)[0] != '@' && !EndsLine(BodyLine(m))
  {
    hide CommandLine, ParseCommand, IndexOf;
    CommandLineEnds(m);
    if m.prefix.Some? { PrefixRead(m.tags, m.prefix.value, CommandLine(m)); }
  }

  /** The whole line splits into the tags and the rest. */
  lemma WholeLineRead(m: Message)
    requires Legal(m) && BodyLine(m) != "" && BodyLine(m)[0] != '@' && !EndsLine(BodyLine(m))
    ensures !EndsLine(WholeLine(m)) && TagBlock(WholeLine(m)) == (m.tags, BodyLine(m))
  {
    hide BodyLine, AddPieces, Split;
    if m.tags != [] { TagBlockRoundTrip(m.tags, BodyLine(m)); }
  }

  lemma ParseIs(line: string)
    ensures Parse(line) == ParseBody(TagBlock(StripLineEnd(line)).0, TagBlock(StripLineEnd(line)).1)
  {
  }

  /**
   * A legal message comes back from the wire unchanged exactly when its command is upper case and no
   * parameter written without a colon holds whitespace other than the space (RFC 2812 allows a tab there).
   */
  lemma ParseFormat(m: Message)
    requires Legal(m)
    ensures Parse(Format(m)) == m <==> Survives(m)
  {
    hide *;
    FormatShape(m);
    ParseBodyLine(m);
    WholeLineRead(m);
    StripCrLf(WholeLine(m));
    ParseIs(Format(m));
    ParseCommandLine(m);
  }

  /** The legal message `PRIVMSG a<TAB>b` is not read back as it was written. */
  lemma TabSplitsParameter()
    ensures var m := Message(None, "PRIVMSG", ["a\tb"], []);
            Legal(m) && Parse(Format(m)) != m
  {
    var m := Message(None, "PRIVMSG", ["a\tb"], []);
    assert IsSpace("a\tb"[1]);
    assert !NoSpaceIn("a\tb");
    assert BareParams(m.params)[0] == "a\tb";
    ParseFormat(m);
  }

  // ---------------------------------------------------------------- the last parameter

  /**
   * Whatever stands before it, the text after the first space and colon is the last parameter as it is,
   * whether or not it needed the colon.
   */
  lemma LastVerbatim(head: string, last: string)
    requires Words(head) != [] && head[0] != '@' && head[0] != ':' && !HasSpaceColon(head) && !EndsLine(last)
    ensures Parse(head + " :" + last) == Message(None, Upper(Words(head)[0]), Words(head)[1..] + [last], [])
  {
    var line := head + " :" + last;
    TrailingAfter(head, last);
    assert line[0] == head[0] && line[..|head|] == head && line[|head| + 2..] == last;
    assert !EndsLine(line) by {
      if last == "" { assert line[|line| - 1] == ':'; } else { assert line[|line| - 1] == last[|last| - 1]; }
    }
  }

  /** The words in front of the last parameter. */
  function Front(m: Message): seq<string>
    requires m.params != []
  {
    [m.command] + m.params[..|m.params| - 1]
  }

  function ColonLine(m: Message): string
    requires m.params != []
  {
    Join(Front(m), " ") + " :" + m.params[|m.params| - 1]
  }

  function ColonBody(m: Message): string
    requires m.params != []
  {
    if m.prefix.Some? then ":" + m.prefix.value + " " + ColonLine(m) else ColonLine(m)
  }

  /** The message printed with a colon before its last parameter, as any sender may. */
  function ColonFormat(m: Message): string
    requires m.params != []
  {
    TagText(m.tags) + ColonBody(m) + "\r\n"
  }

  function TagText(tags: seq<Tag>): string {
    if tags == [] then "" else "@" + Join(TagPieces(tags), ";") + " "
  }

  lemma ColonParts(m: Message)
    requires Legal(m) && m.params != []
    ensures var words, last := Words(Join(Front(m), " ")), m.params[|m.params| - 1];
      ParseCommand(m.tags, m.prefix, ColonLine(m)) ==
      if words == [] then Message(m.prefix, "", [], m.tags)
      else Message(m.prefix, Upper(words[0]), words[1..] + [last], m.tags)
  {
    var last, head, line := m.params[|m.params| - 1], Join(Front(m), " "), ColonLine(m);
    NoSpaceColon(Front(m));
    hide Join, Words;
    TrailingAfter(head, last);
    assert line[..|head|] == head && line[|head| + 2..] == last;
  }

  lemma ColonLineStarts(m: Message)
    requires Legal(m) && m.params != []
    ensures ColonLine(m) != "" && ColonLine(m)[0] != '@' && ColonLine(m)[0] != ':'
  {
    NoSpaceColon(Front(m));
    hide Join;
    assert ColonLine(m)[0] == Join(Front(m), " ")[0];
  }

  lemma FrontIs(m: Message)
    requires Legal(m) && m.params != []
    ensures var n := |m.params| - 1;
      Front(m) == [m.command] + m.params[..n] && m.params[..n] + [m.params[n]] == m.params
    ensures LegalCommand(m.command)
  {
  }

  lemma ColonLineRead(m: Message)
    requires Legal(m) && m.params != []
    ensures ParseCommand(m.tags, m.prefix, ColonLine(m)) == m <==>
      UpperCase(m.command) && AllWords(m.params[..|m.params| - 1])
  {
    hide *;
    var n := |m.params| - 1;
    FrontIs(m);
    ColonParts(m);
    UpperCaseIs(m.command);
    WordsSurvive(m.command, m.params[..n], Words(Join(Front(m), " ")), [m.params[n]]);
  }

  lemma ColonLineEnds(m: Message)
    requires Legal(m) && m.params != []
    ensures !EndsLine(ColonLine(m))
  {
    var line, last := ColonLine(m), m.params[|m.params| - 1];
    if last == "" {
      assert line[|line| - 1] == ':';
    } else {
      assert line[|line| - 1] == last[|last| - 1] && last[|last| - 1] in last;
    }
  }

  lemma ReadTags(tags: seq<Tag>, body: string)
    requires LegalTags(tags) && body != "" && body[0] != '@' && !EndsLine(body)
    ensures TagBlock(TagText(tags) + body) == (tags, body) && !EndsLine(TagText(tags) + body)
  {
    hide AddPieces, Split, Join;
    if tags == [] {
      assert TagText(tags) + body == body;
    } else {
      TagBlockRoundTrip(tags, body);
      assert TagText(tags) + body == "@" + Join(TagPieces(tags), ";") + " " + body;
    }
  }

  /**
   * A legal message written with a colon before its last parameter, needed or not, comes back unchanged exactly
   * when its command is upper case and no parameter before the last holds whitespace other than the space.
   */
  lemma ParseColonFormat(m: Message)
    requires Legal(m) && m.params != []
    ensures Parse(ColonFormat(m)) == m <==> UpperCase(m.command) && AllWords(m.params[..|m.params| - 1])
  {
    hide *;
    ColonLineRead(m);
    ColonLineStarts(m);
    ColonLineEnds(m);
    ColonBodyRead(m);
    LegalParts(m);
    ReadTags(m.tags, ColonBody(m));
    ColonFormatIs(m);
    StripCrLf(TagText(m.tags) + ColonBody(m));
    ParseIs(ColonFormat(m));
  }

  lemma LegalParts(m: Message)
    requires Legal(m)
    ensures LegalTags(m.tags)
  {
  }

  lemma ColonFormatIs(m: Message)
    requires m.params != []
    ensures ColonFormat(m) == (TagText(m.tags) + ColonBody(m)) + "\r\n"
  {
  }

  lemma ColonBodyRead(m: Message)
    requires Legal(m) && m.params != []
    requires ColonLine(m) != "" && ColonLine(m)[0] != '@' && ColonLine(m)[0] != ':' && !EndsLine(ColonLine(m))
    ensures ParseBody(m.tags, ColonBody(m)) == ParseCommand(m.tags, m.prefix, ColonLine(m))
    ensures ColonBody(m) != "" && ColonBody(m)[0] != '@' && !EndsLine(ColonBody(m))
  {
    hide ParseCommand, ColonLine, IndexOf;
    if m.prefix.Some? {
      PrefixRead(m.tags, m.prefix.value, ColonLine(m));
      assert ColonBody(m)[|ColonBody(m)| - 1] == ColonLine(m)[|ColonLine(m)| - 1];
    }
  }
}
