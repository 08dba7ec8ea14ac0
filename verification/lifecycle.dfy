/**
 * User modes and the lifecycle events their edges emit: agents connect and disconnect, consoles open
 * and close.
 */
module Lifecycle {
  import M = ModeEffects

  /** `mode` is 'A' for an agent or 'C' for a console; `up` tells connect and open from disconnect and close. */
  datatype Event = Edge(mode: char, up: bool)

  predicate Valid(ch: char) { ch == 'H' || ch == 'A' || ch == 'B' || ch == 'C' }

  predicate Announced(ch: char) { ch == 'A' || ch == 'C' }

  function WithMode(modes: set<char>, ch: char, adding: bool): set<char> {
    if !Valid(ch) then modes else if adding then modes + {ch} else modes - {ch}
  }

  function EdgeEvents(modes: set<char>, ch: char, adding: bool): seq<Event> {
    if Valid(ch) && (ch in modes) != adding && Announced(ch) then [Edge(ch, adding)] else []
  }

  datatype Parse = Parse(modes: set<char>, adding: bool, events: seq<Event>)

  function ParseChar(p: Parse, ch: char): Parse {
    if ch == '+' then p.(adding := true)
    else if ch == '-' then p.(adding := false)
    else Parse(WithMode(p.modes, ch, p.adding), p.adding, p.events + EdgeEvents(p.modes, ch, p.adding))
  }

  function ParseChars(p: Parse, s: string): Parse
    decreases |s|
  {
    if s == "" then p else ParseChars(ParseChar(p, s[0]), s[1..])
  }

  function RemovalEvents(modes: set<char>): seq<Event> {
    (if 'A' in modes then [Edge('A', false)] else []) + (if 'C' in modes then [Edge('C', false)] else [])
  }

  class Client {
    var nick: string
    var registered: bool
    var modes: set<char>

    constructor (nick: string)
      ensures this.nick == nick && !registered && modes == {}
    {
      this.nick, registered, modes := nick, false, {};
    }

    method ApplyUserModeChar(ch: char, adding: bool) returns (event: seq<Event>)
      modifies this`modes
      ensures modes == WithMode(old(modes), ch, adding) && event == EdgeEvents(old(modes), ch, adding)
    {
      if !Valid(ch) {
        return [];
      }
      var had := ch in modes;
      if adding {
        modes := modes + {ch};
      } else {
        modes := modes - {ch};
      }
      if had == adding {
        return [];
      }
      return if Announced(ch) then [Edge(ch, adding)] else [];
    }

    method ParseModeEdges(modestring: string) returns (pending: seq<Event>)
      modifies this`modes
      ensures var p := ParseChars(Parse(old(modes), true, []), modestring); modes == p.modes && pending == p.events
    {
      pending := [];
      var adding := true;
      for i := 0 to |modestring|
        invariant ParseChars(Parse(modes, adding, pending), modestring[i..])
               == ParseChars(Parse(old(modes), true, []), modestring)
      {
        assert modestring[i..][1..] == modestring[i + 1..];
        if modestring[i] == '+' {
          adding := true;
        } else if modestring[i] == '-' {
          adding := false;
        } else {
          var event := ApplyUserModeChar(modestring[i], adding);
          pending := pending + event;
        }
      }
    }

    /** MODE on a nick: only a registered client's own, and then each edge is emitted in order. */
    method HandleUserMode(target: string, modestring: string) returns (emitted: seq<Event>)
      modifies this`modes
      ensures if registered && target == nick
              then var p := ParseChars(Parse(old(modes), true, []), modestring); modes == p.modes && emitted == p.events
              else modes == old(modes) && emitted == []
    {
      emitted := [];
      if registered && target == nick {
        emitted := ParseModeEdges(modestring);
      }
    }
  }

  // ---------------------------------------------------------------- what a mode string does

  function About(ch: char): M.Item -> bool { (item: M.Item) => item.letter == ch }

  predicate UserMode(ch: char) { ch == 'H' || ch == 'A' || ch == 'B' || ch == 'C' }

  lemma {:induction false} LastSignDecides(p: Parse, s: string, ch: char)
    ensures ch in ParseChars(p, s).modes <==>
      if UserMode(ch) then M.Decided(M.Items(p.adding, s, []), About(ch), ch in p.modes) else ch in p.modes
    decreases |s|
  {
    if s == "" {
      M.DecidedNone(About(ch), ch in p.modes);
    } else {
      var p' := ParseChar(p, s[0]);
      LastSignDecides(p', s[1..], ch);
      if s[0] !in "+-" && s[0] !in "ovS" {
        M.DecidedCons(M.Item(p.adding, s[0], ""), M.Items(p.adding, s[1..], []), About(ch), ch in p.modes);
      }
    }
  }

  /** A mode string sets H, A, B and C as the last sign before each says, and no other letter is ever set. */
  lemma UserModesExactly(modes: set<char>, modestring: string, ch: char)
    ensures ch in ParseChars(Parse(modes, true, []), modestring).modes <==>
      if UserMode(ch) then M.Decided(M.Items(true, modestring, []), About(ch), ch in modes) else ch in modes
  {
    LastSignDecides(Parse(modes, true, []), modestring, ch);
  }

  // ---------------------------------------------------------------- whole sessions

  /** The modes and all events after a session of mode strings. */
  function Session(strings: seq<string>): (set<char>, seq<Event>)
    decreases |strings|
  {
    if strings == [] then ({}, [])
    else
      var (modes, events) := Session(strings[..|strings| - 1]);
      var p := ParseChars(Parse(modes, true, []), strings[|strings| - 1]);
      (p.modes, events + p.events)
  }

  /** The ups and downs of one mode. */
  function Edges(events: seq<Event>, mode: char): seq<bool> {
    if events == [] then []
    else if events[0].mode == mode then [events[0].up] + Edges(events[1..], mode)
    else Edges(events[1..], mode)
  }

  /** Up, down, up, down, ... */
  predicate Alternates(edges: seq<bool>) {
    forall i :: 0 <= i < |edges| ==> (edges[i] <==> i % 2 == 0)
  }

  function Count(edges: seq<bool>, up: bool): nat {
    if edges == [] then 0 else (if edges[0] == up then 1 else 0) + Count(edges[1..], up)
  }

  /** The events so far alternate and the mode is set exactly when the last was an up. */
  predicate InStep(modes: set<char>, events: seq<Event>, mode: char) {
    Alternates(Edges(events, mode)) && (mode in modes <==> |Edges(events, mode)| % 2 == 1)
  }

  lemma {:induction false} EdgesConcat(a: seq<Event>, b: seq<Event>, mode: char)
    ensures Edges(a + b, mode) == Edges(a, mode) + Edges(b, mode)
  {
    if a == [] {
      assert a + b == b;
    } else {
      assert (a + b)[1..] == a[1..] + b;
      EdgesConcat(a[1..], b, mode);
    }
  }

  lemma CharInStep(before: seq<Event>, p: Parse, ch: char, mode: char)
    requires Announced(mode) && InStep(p.modes, before + p.events, mode)
    ensures InStep(ParseChar(p, ch).modes, before + ParseChar(p, ch).events, mode)
  {
    if ch != '+' && ch != '-' {
      var event := EdgeEvents(p.modes, ch, p.adding);
      assert before + (p.events + event) == (before + p.events) + event;
      EdgesConcat(before + p.events, event, mode);
      assert event != [] ==> event[1..] == [];
    }
  }

  lemma {:induction false} StringInStep(before: seq<Event>, p: Parse, s: string, mode: char)
    requires Announced(mode) && InStep(p.modes, before + p.events, mode)
    ensures InStep(ParseChars(p, s).modes, before + ParseChars(p, s).events, mode)
    decreases |s|
  {
    if s != "" {
      CharInStep(before, p, s[0], mode);
      StringInStep(before, ParseChar(p, s[0]), s[1..], mode);
    }
  }

  /** In any session connects and disconnects alternate, starting with a connect, and so do opens and closes. */
  lemma {:induction false} SessionAlternates(strings: seq<string>, mode: char)
    requires mode == 'A' || mode == 'C'
    ensures InStep(Session(strings).0, Session(strings).1, mode)
    decreases |strings|
  {
    if strings != [] {
      var before := Session(strings[..|strings| - 1]);
      SessionAlternates(strings[..|strings| - 1], mode);
      assert before.1 + [] == before.1;
      StringInStep(before.1, Parse(before.0, true, []), strings[|strings| - 1], mode);
    }
  }

  lemma {:induction false} AlternatingCounts(edges: seq<bool>, up: bool)
    requires forall i :: 0 <= i < |edges| ==> (edges[i] <==> (i % 2 == 0) == up)
    ensures Count(edges, up) == (|edges| + 1) / 2 && Count(edges, !up) == |edges| / 2
  {
    if edges != [] {
      assert forall i :: 0 <= i < |edges[1..]| ==> edges[1..][i] == edges[i + 1];
      AlternatingCounts(edges[1..], !up);
    }
  }

  /** Once the client is removed, every connect has its disconnect and every open its close. */
  lemma RemovalBalances(strings: seq<string>, mode: char)
    requires mode == 'A' || mode == 'C'
    ensures var (modes, events) := Session(strings);
            var edges := Edges(events + RemovalEvents(modes), mode);
            Alternates(edges) && Count(edges, true) == Count(edges, false)
  {
    hide *;
    var (modes, events) := Session(strings);
    SessionAlternates(strings, mode);
    EdgesConcat(events, RemovalEvents(modes), mode);
    RemovalEdges(modes, mode);
    LastDown(modes, events, mode);
  }

  /** A down after the last up evens the counts out. */
  lemma LastDown(modes: set<char>, events: seq<Event>, mode: char)
    requires InStep(modes, events, mode)
    ensures var edges := Edges(events, mode) + if mode in modes then [false] else [];
            Alternates(edges) && Count(edges, true) == Count(edges, false)
  {
    var edges := Edges(events, mode) + if mode in modes then [false] else [];
    assert Alternates(edges);
    AlternatingCounts(edges, true);
  }

  lemma RemovalEdges(modes: set<char>, mode: char)
    requires Announced(mode)
    ensures Edges(RemovalEvents(modes), mode) == if mode in modes then [false] else []
  {
    var a := if 'A' in modes then [Edge('A', false)] else [];
    var c := if 'C' in modes then [Edge('C', false)] else [];
    EdgesConcat(a, c, mode);
    assert a != [] ==> a[1..] == [];
    assert c != [] ==> c[1..] == [];
  }
}
