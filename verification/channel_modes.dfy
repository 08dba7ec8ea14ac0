/**
 * Channel MODE commands: how a mode string and its parameters change a channel, and why the
 * aggregated change broadcast to the channel says exactly what happened.
 */
module ChannelModes {
  import opened Text

  /** The flags MODE can change; `T` stands for channel members. */
  datatype Modes<T> = Modes(operators: set<T>, voiced: set<T>, restricted: bool, sharedWith: set<string>)

  /** The state of the mode-character loop: direction, unread parameters, flags, and what was applied. */
  datatype ModeRun<T> = ModeRun(
    adding: bool, queue: seq<string>, modes: Modes<T>, applied: string, params: seq<string>)

  function Start<T>(m: Modes<T>, queue: seq<string>): ModeRun<T> {
    ModeRun(true, queue, m, "", [])
  }

  function Toggle<T>(s: set<T>, x: T, adding: bool): set<T> {
    if adding then s + {x} else s - {x}
  }

  function Sign(adding: bool): char { if adding then '+' else '-' }

  predicate TakesParam(ch: char) { ch == 'o' || ch == 'v' || ch == 'S' }

  function Record<T>(r: ModeRun<T>, ch: char, params: seq<string>): ModeRun<T> {
    r.(applied := r.applied + [Sign(r.adding), ch], params := r.params + params)
  }

  /** `present` maps the nicks of local clients on the channel to the members they name. */
  function ApplyChar<T>(present: map<string, T>, r: ModeRun<T>, ch: char): ModeRun<T> {
    if ch == '+' then r.(adding := true)
    else if ch == '-' then r.(adding := false)
    else if ch == 'R' then Record(r.(modes := r.modes.(restricted := r.adding)), ch, [])
    else if !TakesParam(ch) || r.queue == [] then r
    else
      var p, r' := r.queue[0], r.(queue := r.queue[1..]);
      if ch == 'S' then
        Record(r'.(modes := r.modes.(sharedWith := Toggle(r.modes.sharedWith, p, r.adding))), ch, [p])
      else if p !in present then r'
      else if ch == 'o' then
        Record(r'.(modes := r.modes.(operators := Toggle(r.modes.operators, present[p], r.adding))), ch, [p])
      else
        Record(r'.(modes := r.modes.(voiced := Toggle(r.modes.voiced, present[p], r.adding))), ch, [p])
  }

  function ApplyModes<T>(present: map<string, T>, r: ModeRun<T>, s: string): ModeRun<T>
    decreases |s|
  {
    if s == "" then r else ApplyModes(present, ApplyChar(present, r, s[0]), s[1..])
  }

  /** MODE names members only, so operators and voiced users stay members. */
  lemma {:induction false} ModesStayWithin<T>(present: map<string, T>, r: ModeRun<T>, s: string, members: set<T>)
    requires present.Values <= members && r.modes.operators <= members && r.modes.voiced <= members
    ensures ApplyModes(present, r, s).modes.operators <= members && ApplyModes(present, r, s).modes.voiced <= members
    decreases |s|
  {
    if s != "" {
      assert forall n :: n in present ==> present[n] in present.Values;
      ModesStayWithin(present, ApplyChar(present, r, s[0]), s[1..], members);
    }
  }

  lemma {:induction false} ApplyConcat<T>(present: map<string, T>, r: ModeRun<T>, a: string, b: string)
    ensures ApplyModes(present, r, a + b) == ApplyModes(present, ApplyModes(present, r, a), b)
    decreases |a|
  {
    if a == "" {
      assert a + b == b;
    } else {
      assert (a + b)[1..] == a[1..] + b;
      ApplyConcat(present, ApplyChar(present, r, a[0]), a[1..], b);
    }
  }

  lemma ApplyPair<T>(present: map<string, T>, r: ModeRun<T>, a: char, b: char)
    ensures ApplyModes(present, r, [a, b]) == ApplyChar(present, ApplyChar(present, r, a), b)
  {
    var s: string := [a, b];
    var r' := ApplyChar(present, r, a);
    assert s[1..] == [b];
    assert ApplyModes(present, r, s) == ApplyModes(present, r', [b]);
    assert [b][1..] == "";
    assert ApplyModes(present, r', [b]) == ApplyModes(present, ApplyChar(present, r', b), "");
  }

  /** Replaying what `r` has applied so far, on `m0` and with more parameters to follow, leads to `r`'s flags. */
  ghost predicate Replays<T>(present: map<string, T>, m0: Modes<T>, r: ModeRun<T>, more: seq<string>) {
    var again := ApplyModes(present, Start(m0, r.params + more), r.applied);
    again.queue == more && again.modes == r.modes && again.applied == r.applied && again.params == r.params
  }

  /** One more character. */
  lemma ReplayStep<T>(present: map<string, T>, m0: Modes<T>, r: ModeRun<T>, ch: char, more: seq<string>)
    requires forall rest :: Replays(present, m0, r, rest)
    ensures Replays(present, m0, ApplyChar(present, r, ch), more)
  {
    var r' := ApplyChar(present, r, ch);
    if r'.applied == r.applied {
      assert Replays(present, m0, r, more);
    } else {
      ReplayApplied(present, m0, r, ch, more);
    }
  }

  /** A character that changes something. */
  lemma ReplayApplied<T>(present: map<string, T>, m0: Modes<T>, r: ModeRun<T>, ch: char, more: seq<string>)
    requires forall rest :: Replays(present, m0, r, rest)
    requires ApplyChar(present, r, ch).applied != r.applied
    ensures Replays(present, m0, ApplyChar(present, r, ch), more)
  {
    var r' := ApplyChar(present, r, ch);
    var added := AppliedForm(present, r, ch);
    var queue := added + more;
    assert Replays(present, m0, r, queue);
    Assoc(r.params, added, more);
    var start := Start(m0, r.params + queue);
    var again := ApplyModes(present, start, r.applied);
    SameEffect(present, r, ch, again, added, more);
    hide ApplyChar, ApplyModes;
    ApplyConcat(present, start, r.applied, [Sign(r.adding), ch]);
    ApplyPair(present, again, Sign(r.adding), ch);
  }

  /** What a character that changes something adds to what was applied. */
  lemma AppliedForm<T>(present: map<string, T>, r: ModeRun<T>, ch: char) returns (added: seq<string>)
    requires ApplyChar(present, r, ch).applied != r.applied
    ensures var r' := ApplyChar(present, r, ch);
      r'.applied == r.applied + [Sign(r.adding), ch] && r'.params == r.params + added
    ensures ch == 'R' ==> added == []
    ensures ch != 'R' ==>
      TakesParam(ch) && r.queue != [] && added == [r.queue[0]] && (ch == 'S' || r.queue[0] in present)
  {
    added := if ch == 'R' then [] else [r.queue[0]];
  }

  /** The same sign and character have the same effect on the same flags. */
  lemma SameEffect<T>(present: map<string, T>, r: ModeRun<T>, ch: char, again: ModeRun<T>, added: seq<string>,
                      more: seq<string>)
    requires again.modes == r.modes && again.applied == r.applied && again.params == r.params
      && again.queue == added + more
    requires ch == 'R' ==> added == []
    requires ch != 'R' ==>
      TakesParam(ch) && r.queue != [] && added == [r.queue[0]] && (ch == 'S' || r.queue[0] in present)
    ensures var r', a := ApplyChar(present, r, ch), ApplyChar(present, ApplyChar(present, again, Sign(r.adding)), ch);
      a.queue == more && a.modes == r'.modes && a.applied == r'.applied && a.params == r'.params
  {
    var signed := ApplyChar(present, again, Sign(r.adding));
    assert signed == again.(adding := r.adding);
    assert (added + more)[|added|..] == more;
    assert added != [] ==> (added + more)[0] == added[0];
  }

  lemma {:induction false} ReplayAll<T>(present: map<string, T>, m0: Modes<T>, r: ModeRun<T>, s: string,
                                        more: seq<string>)
    requires forall rest :: Replays(present, m0, r, rest)
    ensures Replays(present, m0, ApplyModes(present, r, s), more)
    decreases |s|
  {
    if s == "" {
      assert Replays(present, m0, r, more);
    } else {
      forall rest ensures Replays(present, m0, ApplyChar(present, r, s[0]), rest) {
        ReplayStep(present, m0, r, s[0], rest);
      }
      ReplayAll(present, m0, ApplyChar(present, r, s[0]), s[1..], more);
    }
  }

  /**
   * The broadcast mode string and parameters, executed on the channel as it was before the command,
   * change it exactly as the command did, use up all parameters, and would be broadcast unchanged.
   */
  lemma BroadcastFaithful<T>(present: map<string, T>, before: Modes<T>, modestring: string, queue: seq<string>)
    ensures var r := ApplyModes(present, Start(before, queue), modestring);
            var again := ApplyModes(present, Start(before, r.params), r.applied);
            again.modes == r.modes && again.applied == r.applied && again.params == r.params && again.queue == []
  {
    var r := ApplyModes(present, Start(before, queue), modestring);
    forall rest ensures Replays(present, before, Start(before, queue), rest) {
      assert [] + rest == rest;
    }
    ReplayAll(present, before, Start(before, queue), modestring, []);
    assert r.params + [] == r.params;
  }
}
