/**
 * The client read loop: chunks are appended to a buffer, line ends are normalised, complete
 * lines are dispatched and the rest is kept. Chunk boundaries turn out not to matter.
 */
module Framing {
  import opened Text

  const CAP := 8192
  const TAIL := 4096

  // ---------------------------------------------------------------- line ends

  /** `s.replace("\r\n", "\n")`. */
  function ReplaceCrLf(s: string): string {
    if s == "" then ""
    else if |s| > 1 && s[0] == '\r' && s[1] == '\n' then "\n" + ReplaceCrLf(s[2..])
    else [s[0]] + ReplaceCrLf(s[1..])
  }

  /** `s.replace("\r", "\n")`. */
  function ReplaceCr(s: string): string {
    if s == "" then "" else [if s[0] == '\r' then '\n' else s[0]] + ReplaceCr(s[1..])
  }

  function Normalize(s: string): string { ReplaceCr(ReplaceCrLf(s)) }

  /** The same in one pass. */
  function OnePass(s: string): string {
    if s == "" then ""
    else if |s| > 1 && s[0] == '\r' && s[1] == '\n' then "\n" + OnePass(s[2..])
    else [if s[0] == '\r' then '\n' else s[0]] + OnePass(s[1..])
  }

  lemma {:induction false} NormalizeIsOnePass(s: string)
    ensures Normalize(s) == OnePass(s)
    ensures |Normalize(s)| <= |s| && '\r' !in Normalize(s)
  {
    if s != "" {
      if |s| > 1 && s[0] == '\r' && s[1] == '\n' {
        NormalizeIsOnePass(s[2..]);
        assert ("\n" + ReplaceCrLf(s[2..]))[1..] == ReplaceCrLf(s[2..]);
      } else {
        NormalizeIsOnePass(s[1..]);
        assert ([s[0]] + ReplaceCrLf(s[1..]))[1..] == ReplaceCrLf(s[1..]);
      }
    }
  }

  lemma OnePassStep(s: string)
    requires s != ""
    ensures |s| > 1 && s[0] == '\r' && s[1] == '\n' ==> OnePass(s) == ['\n'] + OnePass(s[2..])
    ensures !(|s| > 1 && s[0] == '\r' && s[1] == '\n') ==>
      OnePass(s) == [if s[0] == '\r' then '\n' else s[0]] + OnePass(s[1..])
  {
  }

  lemma DropOfConcat(a: string, b: string, k: nat)
    requires k <= |a|
    ensures (a + b)[k..] == a[k..] + b
  {
  }

  /** Normalising in two parts differs from normalising at once only at a CR LF cut in two. */
  lemma {:induction false} NormalizeConcat(a: string, b: string)
    ensures OnePass(a + b) == OnePass(a) + OnePass(if Cut(a, b) then b[1..] else b)
  {
    var s, b' := a + b, if Cut(a, b) then b[1..] else b;
    if a == "" {
      assert s == b;
      assert OnePass("") + OnePass(b) == OnePass(b);
    } else {
      OnePassStep(s);
      OnePassStep(a);
      assert OnePass("") == "";
      hide OnePass;
      if |a| > 1 && a[0] == '\r' && a[1] == '\n' {
        DropOfConcat(a, b, 2);
        NormalizeConcat(a[2..], b);
        assert a[2..] != "" ==> Cut(a[2..], b) == Cut(a, b);
        Assoc(['\n'], OnePass(a[2..]), OnePass(b'));
      } else if |a| == 1 && Cut(a, b) {
        assert s[2..] == b[1..];
        assert a[1..] == "";
        Assoc(['\n'], "", OnePass(b'));
      } else {
        DropOfConcat(a, b, 1);
        NormalizeConcat(a[1..], b);
        Assoc([if a[0] == '\r' then '\n' else a[0]], OnePass(a[1..]), OnePass(b'));
      }
    }
  }

  predicate Cut(a: string, b: string) {
    a != "" && a[|a| - 1] == '\r' && b != "" && b[0] == '\n'
  }

  lemma {:induction false} NormalizeNothing(s: string)
    requires '\r' !in s
    ensures OnePass(s) == s
  {
    if s != "" { NormalizeNothing(s[1..]); }
  }

  // ---------------------------------------------------------------- lines

  function Kept(line: string): seq<string> {
    if Blank(line) then [] else [line]
  }

  /** The non-blank complete lines of `s`, in order. */
  function Lines(s: string): seq<string>
    decreases |s|
  {
    var i := IndexOf(s, '\n');
    if i == |s| then []
    else Kept(s[..i]) + Lines(s[i + 1..])
  }

  /** What follows the last newline. */
  function Rest(s: string): (r: string)
    ensures '\n' !in r && |r| <= |s|
    decreases |s|
  {
    var i := IndexOf(s, '\n');
    if i == |s| then s else Rest(s[i + 1..])
  }

  /** One round of splitting. */
  lemma FirstLine(s: string, before: seq<string>)
    ensures var i := IndexOf(s, '\n');
      if i < |s|
      then Rest(s) == Rest(s[i + 1..])
           && before + Lines(s) == (if Blank(s[..i]) then before else before + [s[..i]]) + Lines(s[i + 1..])
      else Rest(s) == s && before + Lines(s) == before
  {
    hide IndexOf, Blank;
    var i := IndexOf(s, '\n');
    if i < |s| {
      Assoc(before, Kept(s[..i]), Lines(s[i + 1..]));
      Assoc(before, [], []);
    }
  }

  lemma SplitAt(s: string, i: nat)
    requires i < |s|
    ensures s == s[..i] + [s[i]] + s[i + 1..]
  {
  }

  lemma SplitConcat(s: string, i: nat, t: string)
    requires i < |s|
    ensures s + t == s[..i] + [s[i]] + (s[i + 1..] + t)
  {
  }

  /** A line, a newline and more text. */
  lemma LinesCons(line: string, more: string)
    requires '\n' !in line
    ensures Lines(line + ['\n'] + more) == Kept(line) + Lines(more)
    ensures Rest(line + ['\n'] + more) == Rest(more)
  {
    var s := line + ['\n'] + more;
    IndexOfIs(line, '\n', more);
    assert s[..|line|] == line && s[|line| + 1..] == more;
  }

  lemma {:induction false} LinesConcat(a: string, b: string)
    ensures Lines(a + b) == Lines(a) + Lines(Rest(a) + b)
    ensures Rest(a + b) == Rest(Rest(a) + b)
    decreases |a|
  {
    hide *;
    if '\n' in a {
      var line, tail := CutLine(a, b);
      LinesCons(line, tail);
      LinesCons(line, tail + b);
      LinesConcat(tail, b);
      Assoc(Kept(line), Lines(tail), Lines(Rest(tail) + b));
    } else {
      NoLine(a);
      Assoc([], Lines(a), Lines(a + b));
    }
  }

  /** The text up to the first newline, and the text behind it. */
  lemma CutLine(a: string, b: string) returns (line: string, tail: string)
    requires '\n' in a
    ensures '\n' !in line && a == line + ['\n'] + tail && a + b == line + ['\n'] + (tail + b) && |tail| < |a|
  {
    var i := IndexOf(a, '\n');
    line, tail := a[..i], a[i + 1..];
    assert forall k :: 0 <= k < |line| ==> line[k] == a[k];
    SplitAt(a, i);
    SplitConcat(a, i, b);
  }

  lemma NoLine(a: string)
    requires '\n' !in a
    ensures Lines(a) == [] && Rest(a) == a
  {
    IndexOfNone(a, '\n');
  }

  lemma {:induction false} RestOfEnded(a: string)
    requires a != "" && a[|a| - 1] == '\n'
    ensures Rest(a) == ""
    decreases |a|
  {
    var i := IndexOf(a, '\n');
    assert i < |a|;
    if i + 1 < |a| { RestOfEnded(a[i + 1..]); }
  }

  lemma {:induction false} RestAvoids(a: string, c: char)
    requires c !in a
    ensures c !in Rest(a)
    decreases |a|
  {
    var i := IndexOf(a, '\n');
    if i < |a| { RestAvoids(a[i + 1..], c); }
  }

  // ---------------------------------------------------------------- the loop

  /** One pass of the read loop, before dispatch. */
  function Absorb(buffer: string, chunk: string): string {
    var b := buffer + chunk;
    Normalize(if |b| > CAP then b[|b| - TAIL..] else b)
  }

  datatype Reader = Reader(buffer: string, dispatched: seq<string>)

  function Feed(r: Reader, chunk: string): Reader {
    var b := Absorb(r.buffer, chunk);
    Reader(Rest(b), r.dispatched + Lines(b))
  }

  /** The text read before the loop starts is normalised and processed without the cap. */
  function Start(initial: string): Reader {
    Reader(Rest(Normalize(initial)), Lines(Normalize(initial)))
  }

  function FeedAll(r: Reader, chunks: seq<string>): Reader
    decreases |chunks|
  {
    if chunks == [] then r else FeedAll(Feed(r, chunks[0]), chunks[1..])
  }

  function Concat(chunks: seq<string>): string {
    if chunks == [] then "" else chunks[0] + Concat(chunks[1..])
  }

  class Client {
    var buffer: string
    var dispatched: seq<string>

    constructor ()
      ensures buffer == "" && dispatched == []
    {
      buffer, dispatched := "", [];
    }

    /** Split off and dispatch every complete line. */
    method ProcessBuffer()
      modifies this
      ensures buffer == Rest(old(buffer))
      ensures dispatched == old(dispatched) + Lines(old(buffer))
    {
      hide Lines, Rest;
      var i := IndexOf(buffer, '\n');
      while i < |buffer|
        invariant i == IndexOf(buffer, '\n')
        invariant Rest(buffer) == Rest(old(buffer))
        invariant dispatched + Lines(buffer) == old(dispatched) + Lines(old(buffer))
        decreases |buffer|
      {
        var line := buffer[..i];
        FirstLine(buffer, dispatched);
        buffer := buffer[i + 1..];
        if !Blank(line) {
          dispatched := dispatched + [line];
        }
        i := IndexOf(buffer, '\n');
      }
      FirstLine(buffer, dispatched);
    }

    /** The connection loop over an initial text and the chunks read after it. */
    method Handle(initial: string, chunks: seq<string>)
      requires buffer == "" && dispatched == []
      modifies this
      ensures Reader(buffer, dispatched) == FeedAll(Start(initial), chunks)
    {
      hide FeedAll, Lines, Rest, Normalize, Absorb;
      buffer := Normalize(initial);
      ProcessBuffer();
      assert [] + Lines(Normalize(initial)) == Lines(Normalize(initial));
      assert Reader(buffer, dispatched) == Start(initial);
      assert chunks[0..] == chunks;
      for n := 0 to |chunks|
        invariant FeedAll(Reader(buffer, dispatched), chunks[n..]) == FeedAll(Start(initial), chunks)
      {
        FeedNext(Reader(buffer, dispatched), chunks, n);
        AbsorbIs(buffer, chunks[n]);
        buffer := buffer + chunks[n];
        if |buffer| > CAP {
          buffer := buffer[|buffer| - TAIL..];
        }
        buffer := Normalize(buffer);
        ProcessBuffer();
      }
      FeedNothing(Reader(buffer, dispatched), chunks);
    }
  }

  lemma AbsorbIs(buffer: string, chunk: string)
    ensures Absorb(buffer, chunk) ==
      Normalize(if |buffer + chunk| > CAP then (buffer + chunk)[|buffer + chunk| - TAIL..] else buffer + chunk)
  {
  }

  lemma FeedNext(r: Reader, chunks: seq<string>, n: nat)
    requires n < |chunks|
    ensures FeedAll(r, chunks[n..]) == FeedAll(Feed(r, chunks[n]), chunks[n + 1..])
  {
    assert chunks[n..][1..] == chunks[n + 1..];
  }

  lemma FeedNothing(r: Reader, chunks: seq<string>)
    ensures FeedAll(r, chunks[|chunks|..]) == r
  {
  }

  // ---------------------------------------------------------------- bounds

  /** No read yields more than 4096 characters. */
  predicate Chunked(chunks: seq<string>) {
    forall i :: 0 <= i < |chunks| ==> |chunks[i]| <= 4096
  }

  /** No input makes the buffer exceed its cap. */
  lemma {:induction false} BufferBounded(r: Reader, chunks: seq<string>)
    requires |r.buffer| <= 8192
    ensures |FeedAll(r, chunks).buffer| <= 8192
    ensures forall c :: |Absorb(FeedAll(r, chunks).buffer, c)| <= 8192
    decreases |chunks|
  {
    forall b: string, c ensures |Absorb(b, c)| <= 8192 {
      var t := b + c;
      NormalizeIsOnePass(if |t| > CAP then t[|t| - TAIL..] else t);
    }
    if chunks != [] { BufferBounded(Feed(r, chunks[0]), chunks[1..]); }
  }

  /** Over the cap only the last 4096 characters are kept, at or under it all of them. */
  lemma CapKeepsTail(head: string, tail: string, buffer: string, chunk: string)
    requires buffer + chunk == head + tail
    ensures |head + tail| > 8192 && |tail| == 4096 ==> Absorb(buffer, chunk) == Normalize(tail)
    ensures |head + tail| <= 8192 ==> Absorb(buffer, chunk) == Normalize(head + tail)
  {
    hide Normalize;
    assert (head + tail)[|head|..] == tail;
  }

  // ---------------------------------------------------------------- chunking does not matter

  predicate IsEnd(c: char) { c == '\r' || c == '\n' }

  /** Position just after the last line end, 0 if there is none. */
  function LastEnd(s: string): (i: nat)
    ensures i <= |s|
    ensures forall k :: i <= k < |s| ==> !IsEnd(s[k])
    ensures i > 0 ==> IsEnd(s[i - 1])
  {
    if s == "" then 0
    else if IsEnd(s[|s| - 1]) then |s|
    else LastEnd(s[..|s| - 1])
  }

  /** No line of the stream, finished or not, is longer than 4096 characters. */
  predicate ShortLines(s: string) {
    forall n :: 0 <= n <= |s| ==> n - LastEnd(s[..n]) <= 4096
  }

  /** What processing the whole stream at once gives. */
  function Whole(stream: string): Reader { Start(stream) }

  lemma {:induction false} OnePassEnded(s: string)
    requires s != "" && IsEnd(s[|s| - 1])
    ensures OnePass(s) != "" && OnePass(s)[|OnePass(s)| - 1] == '\n'
    decreases |s|
  {
    var a, b := s[..|s| - 1], s[|s| - 1..];
    assert s == a + b;
    NormalizeConcat(a, b);
    if Cut(a, b) {
      assert OnePass(b[1..]) == "";
      OnePassEnded(a);
    } else {
      assert OnePass(b) == [if b[0] == '\r' then '\n' else b[0]] + OnePass(b[1..]);
    }
  }

  /** Of text that ends a line, followed by text without line ends, the latter remains. */
  lemma RestAfterEnd(a: string, b: string)
    requires (a == "" || IsEnd(a[|a| - 1])) && '\r' !in b && '\n' !in b
    ensures Rest(Normalize(a + b)) == b
  {
    assert !Cut(a, b) by { assert b != "" ==> b[0] in b; }
    hide *;
    NormalizeIsOnePass(a + b);
    NormalizeConcat(a, b);
    NormalizeNothing(b);
    IndexOfNone(b, '\n');
    RestOfUnended(b);
    if a != "" {
      OnePassEnded(a);
      LinesConcat(OnePass(a), b);
      RestOfEnded(OnePass(a));
      assert "" + b == b;
    } else {
      NormalizeNothing(a);
      assert a + b == b;
    }
  }

  /** The kept remainder is exactly the text after the last line end read. */
  lemma RestIsTail(s: string)
    ensures Rest(Normalize(s)) == s[LastEnd(s)..]
  {
    var i := LastEnd(s);
    assert s == s[..i] + s[i..];
    assert forall k :: i <= k < |s| ==> !IsEnd(s[k]);
    hide *;
    NoEnds(s, i);
    RestAfterEnd(s[..i], s[i..]);
  }

  lemma NoEnds(s: string, i: nat)
    requires i <= |s| && forall k :: i <= k < |s| ==> !IsEnd(s[k])
    ensures '\r' !in s[i..] && '\n' !in s[i..]
  {
    assert forall k :: 0 <= k < |s[i..]| ==> s[i..][k] == s[i + k];
  }

  lemma RestOfUnended(s: string)
    requires IndexOf(s, '\n') == |s|
    ensures Rest(s) == s
  {
  }

  /** Text appended to a kept remainder is normalised on its own. */
  lemma NormalizeAfterRest(rest: string, c: string)
    requires '\r' !in rest
    ensures Normalize(rest + c) == rest + OnePass(c)
  {
    NormalizeIsOnePass(rest + c);
    NormalizeConcat(rest, c);
    NormalizeNothing(rest);
  }

  lemma LinesOfNewline(x: string)
    ensures Lines("\n" + x) == Lines(x) && Rest("\n" + x) == Rest(x)
  {
    assert "" + ['\n'] + x == "\n" + x;
    LinesCons("", x);
  }

  /** The whole-stream meaning of `p + c`, from the remainder of `p`. */
  lemma WholeConcat(p: string, c: string)
    ensures var rest := Rest(Normalize(p));
            Whole(p + c) == Reader(Rest(rest + OnePass(c)), Lines(Normalize(p)) + Lines(rest + OnePass(c)))
  {
    var rest := Rest(Normalize(p));
    NormalizeIsOnePass(p);
    NormalizeIsOnePass(p + c);
    NormalizeConcat(p, c);
    var x := OnePass(if Cut(p, c) then c[1..] else c);
    LinesConcat(OnePass(p), x);
    if Cut(p, c) {
      OnePassEnded(p);
      RestOfEnded(OnePass(p));
      assert OnePass(c) == "\n" + x;
      assert rest + OnePass(c) == "\n" + x && rest + x == x;
      LinesOfNewline(x);
    }
  }

  /** One more chunk: the incremental step agrees with the whole-stream meaning. */
  lemma FeedStep(p: string, c: string)
    requires |p| - LastEnd(p) <= 4096 && |c| <= 4096
    ensures Feed(Whole(p), c) == Whole(p + c)
  {
    var rest := Rest(Normalize(p));
    RestIsTail(p);
    assert |rest + c| <= 8192;
    NormalizeIsOnePass(p);
    RestAvoids(Normalize(p), '\r');
    NormalizeAfterRest(rest, c);
    WholeConcat(p, c);
  }

  lemma {:induction false} FeedAllFrom(p: string, chunks: seq<string>)
    requires Chunked(chunks) && ShortLines(p + Concat(chunks))
    ensures FeedAll(Whole(p), chunks) == Whole(p + Concat(chunks))
    decreases |chunks|
  {
    var s := p + Concat(chunks);
    if chunks == [] {
      assert s == p;
    } else {
      assert s[..|p|] == p;
      FeedStep(p, chunks[0]);
      assert (p + chunks[0]) + Concat(chunks[1..]) == s;
      FeedAllFrom(p + chunks[0], chunks[1..]);
    }
  }

  /**
   * Any two ways of cutting one stream of short lines into chunks dispatch the same lines and keep
   * the same remainder: those of the whole stream.
   */
  lemma ChunkingIrrelevant(initial: string, chunks: seq<string>, initial': string, chunks': seq<string>)
    requires initial + Concat(chunks) == initial' + Concat(chunks')
    requires Chunked(chunks) && Chunked(chunks') && ShortLines(initial + Concat(chunks))
    ensures FeedAll(Start(initial), chunks) == FeedAll(Start(initial'), chunks') == Whole(initial + Concat(chunks))
  {
    FeedAllFrom(initial, chunks);
    FeedAllFrom(initial', chunks');
  }

  /** On such streams the cap never drops a character. */
  lemma {:induction false} CapNeverFires(initial: string, chunks: seq<string>, n: nat)
    requires n < |chunks| && Chunked(chunks) && ShortLines(initial + Concat(chunks))
    ensures |FeedAll(Start(initial), chunks[..n]).buffer + chunks[n]| <= 8192
  {
    var p := initial + Concat(chunks[..n]);
    ConcatSplit(chunks, n);
    var s := initial + Concat(chunks);
    assert s == p + Concat(chunks[n..]);
    assert s[..|p|] == p;
    assert ShortLines(p) by {
      forall k | 0 <= k <= |p| ensures k - LastEnd(p[..k]) <= 4096 {
        assert p[..k] == s[..k];
      }
    }
    FeedAllFrom(initial, chunks[..n]);
    RestIsTail(p);
    assert p[..|p|] == p;
  }

  lemma {:induction false} ConcatSplit(chunks: seq<string>, n: nat)
    requires n <= |chunks|
    ensures Concat(chunks) == Concat(chunks[..n]) + Concat(chunks[n..])
  {
    if n > 0 {
      assert chunks[1..][..n - 1] == chunks[..n][1..] && chunks[1..][n - 1..] == chunks[n..];
      ConcatSplit(chunks[1..], n - 1);
    } else {
      assert chunks[n..] == chunks;
    }
  }

  // ---------------------------------------------------------------- what is dispatched

  predicate LineEnd(e: string) { e == "\n" || e == "\r" || e == "\r\n" }

  predicate OneLine(s: string) { '\r' !in s && '\n' !in s }

  /** Lines with an ending of any kind each, and a line that has not ended. */
  function Stream(lines: seq<string>, ends: seq<string>, rest: string): string
    requires |lines| == |ends|
  {
    if lines == [] then rest else lines[0] + ends[0] + Stream(lines[1..], ends[1..], rest)
  }

  function NonBlank(lines: seq<string>): seq<string> {
    if lines == [] then []
    else (if exists i :: 0 <= i < |lines[0]| && !IsSpace(lines[0][i]) then [lines[0]] else []) + NonBlank(lines[1..])
  }

  lemma KeptIs(line: string)
    ensures Kept(line) == if exists i :: 0 <= i < |line| && !IsSpace(line[i]) then [line] else []
  {
  }

  lemma OnePassText(line: string, after: string)
    requires OneLine(line)
    ensures OnePass(line + after) == line + OnePass(after)
  {
    assert !Cut(line, after) by { assert line != "" ==> line[|line| - 1] in line; }
    hide *;
    NormalizeNothing(line);
    NormalizeConcat(line, after);
  }

  /** A CR before a LF that belongs to an empty line swallows that line, which would not be dispatched. */
  lemma OnePassEnd(end: string, more: string) returns (x: string)
    requires LineEnd(end)
    ensures OnePass(end + more) == "\n" + x
    ensures OnePass(more) == x || OnePass(more) == "\n" + x
  {
    var after := end + more;
    assert after[|end|..] == more;
    OnePassStep(after);
    if end == "\r" && more != "" && more[0] == '\n' {
      OnePassStep(more);
      x := OnePass(more[1..]);
      assert after[2..] == more[1..];
    } else {
      x := OnePass(more);
    }
  }

  /** A line, its end and more text, normalised. */
  lemma OnePassLine(line: string, end: string, more: string)
    requires OneLine(line) && LineEnd(end)
    ensures var s := OnePass(line + end + more);
      Lines(s) == Kept(line) + Lines(OnePass(more)) && Rest(s) == Rest(OnePass(more))
  {
    assert '\n' !in line;
    hide *;
    OnePassText(line, end + more);
    var x := OnePassEnd(end, more);
    assert line + end + more == line + (end + more) && line + ("\n" + x) == line + ['\n'] + x;
    LinesCons(line, x);
    LinesOfNewline(x);
  }

  lemma {:induction false} StreamLines(lines: seq<string>, ends: seq<string>, rest: string)
    requires |lines| == |ends| && OneLine(rest)
    requires forall i :: 0 <= i < |lines| ==> OneLine(lines[i]) && LineEnd(ends[i])
    ensures var s := OnePass(Stream(lines, ends, rest)); Lines(s) == NonBlank(lines) && Rest(s) == rest
  {
    if lines == [] {
      NormalizeNothing(rest);
      NoLine(rest);
    } else {
      StreamLines(lines[1..], ends[1..], rest);
      OnePassLine(lines[0], ends[0], Stream(lines[1..], ends[1..], rest));
      KeptIs(lines[0]);
    }
  }

  /**
   * However a stream of short lines is cut into chunks, and whichever way each line ends, exactly its lines are
   * dispatched, in order, except those without anything but whitespace; the text after the last end is kept.
   */
  lemma StreamDispatched(lines: seq<string>, ends: seq<string>, rest: string, initial: string, chunks: seq<string>)
    requires |lines| == |ends| && OneLine(rest)
    requires forall i :: 0 <= i < |lines| ==> OneLine(lines[i]) && LineEnd(ends[i])
    requires initial + Concat(chunks) == Stream(lines, ends, rest) && Chunked(chunks)
    requires ShortLines(Stream(lines, ends, rest))
    ensures FeedAll(Start(initial), chunks) == Reader(rest, NonBlank(lines))
  {
    FeedAllFrom(initial, chunks);
    NormalizeIsOnePass(Stream(lines, ends, rest));
    StreamLines(lines, ends, rest);
  }
}
