/**
 * An IRC message on the wire: section 2.3.1 of RFC 2812 plus the tag block of the
 * IRCv3 Message Tags specification. The methods follow the loops of the program;
 * each is proved against the function of the same purpose above it.
 */
module Messages {
  import opened Text

  datatype Tag = Tag(key: string, value: string)

  /** `tags` lists the dictionary's entries in insertion order. */
  datatype Message = Message(prefix: Option<string>, command: string, params: seq<string>, tags: seq<Tag>)

  // ---------------------------------------------------------------- dictionary

  /** `d[k] = v` on a Python dictionary: an existing key keeps its place. */
  function DictSet(d: seq<Tag>, k: string, v: string): (r: seq<Tag>)
    ensures |d| <= |r| <= |d| + 1
  {
    if d == [] then [Tag(k, v)]
    else if d[0].key == k then [Tag(k, v)] + d[1..]
    else [d[0]] + DictSet(d[1..], k, v)
  }

  predicate HasKey(d: seq<Tag>, k: string) {
    exists i :: 0 <= i < |d| && d[i].key == k
  }

  predicate DistinctKeys(d: seq<Tag>) {
    forall i, j :: 0 <= i < j < |d| ==> d[i].key != d[j].key
  }

  lemma {:induction false} DictSetNew(d: seq<Tag>, k: string, v: string)
    requires !HasKey(d, k)
    ensures DictSet(d, k, v) == d + [Tag(k, v)]
  {
    if d != [] {
      assert forall i :: 0 <= i < |d[1..]| ==> d[1..][i] == d[i + 1];
      DictSetNew(d[1..], k, v);
    }
  }

  // ---------------------------------------------------------------- tag values

  /** What the character after a backslash stands for; unknown escapes drop the backslash. */
  function UnescapeChar(c: char): char {
    if c == ':' then ';'
    else if c == 's' then ' '
    else if c == '\\' then '\\'
    else if c == 'r' then '\r'
    else if c == 'n' then '\n'
    else c
  }

  function EscapeChar(c: char): string {
    if c == ';' then "\\:"
    else if c == ' ' then "\\s"
    else if c == '\\' then "\\\\"
    else if c == '\r' then "\\r"
    else if c == '\n' then "\\n"
    else [c]
  }

  function Unescape(s: string): string {
    if s == "" then ""
    else if s[0] == '\\' && |s| > 1 then [UnescapeChar(s[1])] + Unescape(s[2..])
    else [s[0]] + Unescape(s[1..])
  }

  function Escape(s: string): string {
    if s == "" then "" else EscapeChar(s[0]) + Escape(s[1..])
  }

  lemma UnescapeStep(value: string, i: nat)
    requires i < |value|
    ensures Unescape(value[i..]) ==
      if value[i] == '\\' && i + 1 < |value| then [UnescapeChar(value[i + 1])] + Unescape(value[i + 2..])
      else [value[i]] + Unescape(value[i + 1..])
  {
    assert value[i..][1..] == value[i + 1..];
    if i + 1 < |value| { assert value[i..][2..] == value[i + 2..]; }
  }

  method UnescapeTagValue(value: string) returns (out: string)
    ensures out == Unescape(value)
  {
    out := "";
    var i := 0;
    assert value[0..] == value;
    while i < |value|
      invariant 0 <= i <= |value|
      invariant out + Unescape(value[i..]) == Unescape(value)
    {
      UnescapeStep(value, i);
      hide Unescape;
      if value[i] == '\\' && i + 1 < |value| {
        Assoc(out, [UnescapeChar(value[i + 1])], Unescape(value[i + 2..]));
        out := out + [UnescapeChar(value[i + 1])];
        i := i + 2;
      } else {
        Assoc(out, [value[i]], Unescape(value[i + 1..]));
        out := out + [value[i]];
        i := i + 1;
      }
    }
  }

  method EscapeTagValue(value: string) returns (out: string)
    ensures out == Escape(value)
  {
    out := "";
    for i := 0 to |value|
      invariant out + Escape(value[i..]) == Escape(value)
    {
      assert value[i..][1..] == value[i + 1..];
      assert out + (EscapeChar(value[i]) + Escape(value[i + 1..])) ==
        (out + EscapeChar(value[i])) + Escape(value[i + 1..]);
      out := out + EscapeChar(value[i]);
    }
  }

  // ---------------------------------------------------------------- parsing

  /** One `;`-separated piece of a tag block, stored into the dictionary read so far. */
  function AddPiece(d: seq<Tag>, piece: string): seq<Tag> {
    var i := IndexOf(piece, '=');
    if piece == "" then d
    else if i < |piece| then DictSet(d, piece[..i], Unescape(piece[i + 1..]))
    else DictSet(d, piece, "")
  }

  function AddPieces(d: seq<Tag>, pieces: seq<string>): seq<Tag>
    decreases |pieces|
  {
    if pieces == [] then d else AddPieces(AddPiece(d, pieces[0]), pieces[1..])
  }

  /** The tag dictionary and the rest of the line; a block with no space after it loses the line. */
  function TagBlock(line: string): (seq<Tag>, string) {
    var i := IndexOf(line, ' ');
    if line == "" || line[0] != '@' then ([], line)
    else if i == |line| then ([], "")
    else (AddPieces([], Split(line[1..i], ';')), line[i + 1..])
  }

  /** Position of the first space followed by a colon, or `|s|`. */
  function TrailingAt(s: string): (i: nat)
    ensures i <= |s|
    ensures i < |s| ==> i + 1 < |s| && s[i] == ' ' && s[i + 1] == ':'
    ensures forall k :: 0 <= k < i && k + 1 < |s| ==> !(s[k] == ' ' && s[k + 1] == ':')
  {
    if s == "" then 0
    else if |s| > 1 && s[0] == ' ' && s[1] == ':' then 0
    else
      var i := 1 + TrailingAt(s[1..]);
      assert forall k :: 0 < k < |s| ==> s[k] == s[1..][k - 1];
      i
  }

  /** Command and parameters, once tags and prefix are off the line. */
  function ParseCommand(tags: seq<Tag>, prefix: Option<string>, line: string): Message {
    var t := TrailingAt(line);
    var words := Words(line[..t]);
    if words == [] then Message(prefix, "", [], tags)
    else Message(prefix, Upper(words[0]), words[1..] + (if t < |line| then [line[t + 2..]] else []), tags)
  }

  function ParseBody(tags: seq<Tag>, line: string): Message {
    if line != "" && line[0] == ':' then
      var i := IndexOf(line, ' ');
      if i == |line| then Message(None, "", [], tags)
      else ParseCommand(tags, Some(line[1..i]), line[i + 1..])
    else ParseCommand(tags, None, line)
  }

  function Parse(line: string): Message {
    var (tags, body) := TagBlock(StripLineEnd(line));
    ParseBody(tags, body)
  }

  method ParseTagBlock(line: string) returns (tags: seq<Tag>, rest: string)
    ensures (tags, rest) == TagBlock(line)
  {
    if !StartsWith(line, "@") {
      return [], line;
    }
    var space := IndexOf(line, ' ');
    if space == |line| {
      return [], "";
    }
    var pieces := Split(line[1..space], ';');
    rest := line[space + 1..];
    tags := [];
    for n := 0 to |pieces|
      invariant AddPieces(tags, pieces[n..]) == AddPieces([], pieces)
    {
      var piece := pieces[n];
      assert pieces[n..][1..] == pieces[n + 1..];
      if piece == "" {
        continue;
      }
      var eq := IndexOf(piece, '=');
      if eq < |piece| {
        var value := UnescapeTagValue(piece[eq + 1..]);
        tags := DictSet(tags, piece[..eq], value);
      } else {
        tags := DictSet(tags, piece, "");
      }
    }
  }

  method ParseMessage(raw: string) returns (m: Message)
    ensures m == Parse(raw)
  {
    var line := StripLineEnd(raw);
    var tags;
    tags, line := ParseTagBlock(line);
    ghost var parsed := ParseBody(tags, line);
    assert parsed == Parse(raw);
    if line == "" {
      assert Words(line) == [];
      return Message(None, "", [], tags);
    }
    var prefix := None;
    if line[0] == ':' {
      var space := IndexOf(line, ' ');
      if space == |line| {
        return Message(None, "", [], tags);
      }
      prefix, line := Some(line[1..space]), line[space + 1..];
    }
    m := ParseUntagged(tags, prefix, line);
  }

  /** The tail of `ParseMessage`: trailing parameter, command, middle parameters. */
  method ParseUntagged(tags: seq<Tag>, prefix: Option<string>, unread: string) returns (m: Message)
    ensures m == ParseCommand(tags, prefix, unread)
  {
    var line, trailing := unread, None;
    var t := TrailingAt(line);
    if t < |line| {
      line, trailing := line[..t], Some(line[t + 2..]);
    }
    assert line == unread[..t];
    var parts := Words(line);
    if parts == [] {
      return Message(prefix, "", [], tags);
    }
    var params := parts[1..];
    if trailing.Some? {
      params := params + [trailing.value];
    }
    return Message(prefix, Upper(parts[0]), params, tags);
  }

  // ---------------------------------------------------------------- formatting

  function TagPiece(t: Tag): string {
    if t.value == "" then t.key else t.key + "=" + Escape(t.value)
  }

  function TagPieces(d: seq<Tag>): (r: seq<string>)
    ensures |r| == |d|
  {
    if d == [] then [] else [TagPiece(d[0])] + TagPieces(d[1..])
  }

  /** Whether the last parameter is written with a leading colon. */
  predicate NeedsColon(last: string) {
    ' ' in last || last == "" || last[0] == ':'
  }

  function WireParams(params: seq<string>): (r: seq<string>)
    ensures |r| == |params|
  {
    if params == [] then []
    else
      var last := params[|params| - 1];
      params[..|params| - 1] + [if NeedsColon(last) then ":" + last else last]
  }

  function WireParts(m: Message): (r: seq<string>)
    ensures |r| > 0
  {
    TagParts(m.tags) + PrefixParts(m.prefix) + [m.command] + WireParams(m.params)
  }

  function TagParts(tags: seq<Tag>): seq<string> {
    if tags == [] then [] else ["@" + Join(TagPieces(tags), ";")]
  }

  function PrefixParts(prefix: Option<string>): seq<string> {
    if prefix.None? || prefix.value == "" then [] else [":" + prefix.value]
  }

  function Format(m: Message): string {
    Join(WireParts(m), " ") + "\r\n"
  }

  lemma TagPiecesStep(tags: seq<Tag>, i: nat)
    requires i < |tags|
    ensures TagPieces(tags[i..]) == [TagPiece(tags[i])] + TagPieces(tags[i + 1..])
  {
    assert tags[i..][1..] == tags[i + 1..];
  }

  /** The tag loop of `FormatMessage`. */
  method FormatTags(tags: seq<Tag>) returns (pieces: seq<string>)
    ensures pieces == TagPieces(tags)
  {
    pieces := [];
    assert tags[0..] == tags;
    for i := 0 to |tags|
      invariant pieces + TagPieces(tags[i..]) == TagPieces(tags)
    {
      var tag := tags[i];
      TagPiecesStep(tags, i);
      hide TagPieces;
      Assoc(pieces, [TagPiece(tag)], TagPieces(tags[i + 1..]));
      if tag.value == "" {
        pieces := pieces + [tag.key];
      } else {
        var escaped := EscapeTagValue(tag.value);
        pieces := pieces + [tag.key + "=" + escaped];
      }
    }
  }

  method FormatMessage(m: Message) returns (line: string)
    ensures line == Format(m)
  {
    var parts: seq<string> := [];
    if m.tags != [] {
      var pieces := FormatTags(m.tags);
      parts := parts + ["@" + Join(pieces, ";")];
    }
    assert parts == TagParts(m.tags);
    if m.prefix.Some? && m.prefix.value != "" {
      parts := parts + [":" + m.prefix.value];
    }
    parts := parts + [m.command];
    ghost var head := parts;
    assert head == TagParts(m.tags) + PrefixParts(m.prefix) + [m.command];
    if m.params != [] {
      for i := 0 to |m.params| - 1
        invariant parts == head + m.params[..i]
      {
        parts := parts + [m.params[i]];
      }
      var last := m.params[|m.params| - 1];
      if ' ' in last || last == "" || last[0] == ':' {
        parts := parts + [":" + last];
      } else {
        parts := parts + [last];
      }
    }
    assert parts == head + WireParams(m.params);
    line := Join(parts, " ") + "\r\n";
  }
}
