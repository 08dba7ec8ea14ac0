/**
 * What of the events written to a peer arrives: a drop takes with it whatever is still in flight, and the
 * number remembered at the drop counts it as seen, so that it is never replayed.
 */
module EventWire {
  import opened Text
  import opened Events
  import opened EventLog

  /** The log's view of the peer, what is in flight to it, and what it has received. */
  datatype Wired = Wired(track: Track, wire: seq<Entry>, received: seq<Entry>)

  /** A step of the log, or the arrival of the first event in flight. */
  datatype WireStep = Logged(step: Step) | Arrives

  /** What the step writes to the peer. */
  function Written(t: Track, t': Track): seq<Entry> {
    if |t.sent| <= |t'.sent| then t'.sent[|t.sent|..] else []
  }

  function Advance(relay: set<string>, w: Wired, s: WireStep): Wired {
    match s
    case Arrives => if w.wire == [] then w else Wired(w.track, w.wire[1..], w.received + [w.wire[0]])
    case Logged(step) =>
      var t' := Take(relay, w.track, step);
      Wired(t', if step.Drops? then [] else w.wire + Written(w.track, t'), w.received)
  }

  function AdvanceAll(relay: set<string>, w: Wired, steps: seq<WireStep>): Wired
    decreases |steps|
  {
    if steps == [] then w else AdvanceAll(relay, Advance(relay, w, steps[0]), steps[1..])
  }

  /** The steps of the log alone. */
  function LogSteps(steps: seq<WireStep>): seq<Step>
    decreases |steps|
  {
    if steps == [] then []
    else (if steps[0].Logged? then [steps[0].step] else []) + LogSteps(steps[1..])
  }

  /** Whenever the link drops nothing is in flight. */
  predicate AllArrived(relay: set<string>, w: Wired, steps: seq<WireStep>)
    decreases |steps|
  {
    steps == [] ||
    ((steps[0] == Logged(Drops) ==> w.wire == []) && AllArrived(relay, Advance(relay, w, steps[0]), steps[1..]))
  }

  /** What was received or is in flight. */
  function Told(w: Wired): seq<Entry> { w.received + w.wire }

  /** Nothing written so far was lost, or something was. */
  predicate Whole(w: Wired) { Told(w) == w.track.sent }

  predicate Lossy(w: Wired) { |Told(w)| < |w.track.sent| }

  // ---------------------------------------------------------------- one step

  /** The log only ever adds to what was written, and nothing at a drop. */
  lemma OnlyAdds(relay: set<string>, t: Track, step: Step)
    ensures Take(relay, t, step).sent == t.sent + Written(t, Take(relay, t, step))
    ensures step.Drops? ==> Take(relay, t, step).sent == t.sent
  {
    hide Between, Carried, ReplayFrom;
    var s' := Take(relay, t, step).sent;
    if step.Drops? && t.up { DropIs(relay, t); }
    assert t.sent + [] == t.sent;
    assert t.sent <= s';
  }

  lemma ArrivalTells(w: Wired)
    ensures w.wire != [] ==> Told(Wired(w.track, w.wire[1..], w.received + [w.wire[0]])) == Told(w)
  {
    if w.wire != [] { HeadTail(w.received, w.wire); }
  }

  lemma LoggedIs(relay: set<string>, w: Wired, step: Step)
    ensures var w' := Advance(relay, w, Logged(step));
      && w'.track == Take(relay, w.track, step) && w'.received == w.received
      && w'.wire == if step.Drops? then [] else w.wire + Written(w.track, w'.track)
  {
    hide Take, Written;
  }

  lemma ArrivesIs(relay: set<string>, w: Wired)
    ensures Advance(relay, w, Arrives) ==
      if w.wire == [] then w else Wired(w.track, w.wire[1..], w.received + [w.wire[0]])
  {
  }

  lemma ToldIs(w: Wired)
    ensures Told(w) == w.received + w.wire && (Whole(w) <==> Told(w) == w.track.sent)
    ensures Lossy(w) <==> |Told(w)| < |w.track.sent|
    ensures Whole(w) ==> !Lossy(w)
  {
  }

  /** What is told grows by what is written, but for what a drop takes. */
  lemma AdvanceTells(relay: set<string>, w: Wired, s: WireStep)
    ensures var w' := Advance(relay, w, s);
      if s == Logged(Drops) then Told(w') == w.received && w'.track.sent == w.track.sent
      else exists more :: w'.track.sent == w.track.sent + more && Told(w') == Told(w) + more
  {
    hide *;
    var w' := Advance(relay, w, s);
    ToldIs(w);
    ToldIs(w');
    match s
    case Arrives =>
      ArrivesIs(relay, w);
      ArrivalTells(w);
      Assoc(w.track.sent, [], []);
      Assoc(Told(w), [], []);
      assert w'.track.sent == w.track.sent + [] && Told(w') == Told(w) + [];
    case Logged(step) =>
      LoggedIs(relay, w, step);
      OnlyAdds(relay, w.track, step);
      Assoc(w.received, [], []);
      var more := Written(w.track, w'.track);
      Assoc(w.received, w.wire, more);
  }

  lemma SameEnd<T>(a: seq<T>, b: seq<T>, more: seq<T>)
    ensures a + more == b + more <==> a == b
    ensures |a + more| < |b + more| <==> |a| < |b|
  {
    if a + more == b + more {
      assert a == (a + more)[..|a|] && b == (b + more)[..|b|];
    }
  }

  /** A step loses something exactly if it is a drop with something in flight, and what is lost stays lost. */
  lemma AdvanceExact(relay: set<string>, w: Wired, s: WireStep)
    ensures Lossy(w) ==> Lossy(Advance(relay, w, s))
    ensures Whole(w) ==> (Whole(Advance(relay, w, s)) <==> (s == Logged(Drops) ==> w.wire == []))
    ensures Whole(w) && !Whole(Advance(relay, w, s)) ==> Lossy(Advance(relay, w, s))
  {
    hide *;
    var w' := Advance(relay, w, s);
    ToldIs(w);
    ToldIs(w');
    AdvanceTells(relay, w, s);
    if s == Logged(Drops) {
      AddsNothing(w.received, w.wire);
    } else {
      var more :| w'.track.sent == w.track.sent + more && Told(w') == Told(w) + more;
      SameEnd(Told(w), w.track.sent, more);
    }
  }

  // ---------------------------------------------------------------- whole runs

  lemma {:induction false} StaysLossy(relay: set<string>, w: Wired, steps: seq<WireStep>)
    requires Lossy(w)
    ensures Lossy(AdvanceAll(relay, w, steps))
    decreases |steps|
  {
    if steps != [] {
      AdvanceExact(relay, w, steps[0]);
      hide Advance, Lossy;
      StaysLossy(relay, Advance(relay, w, steps[0]), steps[1..]);
    }
  }

  /** Over any run at all: nothing written is lost exactly if no drop found anything in flight. */
  lemma {:induction false} NothingLostInFlight(relay: set<string>, w: Wired, steps: seq<WireStep>)
    requires Whole(w)
    ensures Whole(AdvanceAll(relay, w, steps)) <==> AllArrived(relay, w, steps)
    ensures !AllArrived(relay, w, steps) ==> Lossy(AdvanceAll(relay, w, steps))
    decreases |steps|
  {
    if steps != [] {
      var w' := Advance(relay, w, steps[0]);
      AdvanceExact(relay, w, steps[0]);
      hide Advance, Lossy, Whole;
      if Whole(w') {
        NothingLostInFlight(relay, w', steps[1..]);
      } else {
        StaysLossy(relay, w', steps[1..]);
        ToldIs(AdvanceAll(relay, w', steps[1..]));
      }
    }
  }

  /** The log does not notice what arrives. */
  lemma {:induction false} LogAlone(relay: set<string>, w: Wired, steps: seq<WireStep>)
    ensures AdvanceAll(relay, w, steps).track == Final(relay, w.track, LogSteps(steps))
    decreases |steps|
  {
    if steps != [] {
      var w', rest := Advance(relay, w, steps[0]), LogSteps(steps[1..]);
      hide Take, Written;
      LogAlone(relay, w', steps[1..]);
      if steps[0].Logged? {
        assert LogSteps(steps) == [steps[0].step] + rest;
        assert LogSteps(steps)[1..] == rest;
      } else {
        assert LogSteps(steps) == rest;
      }
    }
  }

  /** A server that has just started, with nothing in flight. */
  const NOTHING_SENT := Wired(START, [], [])

  /**
   * Over any number of drops and relinks in turn: when the link is live, the peer has received or will
   * receive exactly this server's carried messages, in order, each once, if and only if no drop found
   * anything in flight and no link that dropped before its BACKFILL had anything to make good.
   */
  lemma ReceivedExactly(relay: set<string>, steps: seq<WireStep>)
    requires Orderly(relay, START, Down, LogSteps(steps)) && FinalPhase(Down, LogSteps(steps)) == Live
    ensures var w := AdvanceAll(relay, NOTHING_SENT, steps);
      var h := w.track.history;
      w.received + w.wire == Between(relay, h, 0, |h|) <==>
        AllArrived(relay, NOTHING_SENT, steps) && AllHarmless(relay, START, Down, LogSteps(steps))
  {
    assert Whole(NOTHING_SENT) && NOTHING_SENT.track == START && InStep(relay, START, Down);
    hide *;
    var w := AdvanceAll(relay, NOTHING_SENT, steps);
    LogAlone(relay, NOTHING_SENT, steps);
    NothingLostInFlight(relay, NOTHING_SENT, steps);
    ToldIs(w);
    FromTheStart(relay, LogSteps(steps));
    AtMostOwed(relay, START, Down, LogSteps(steps));
    if w.received + w.wire == Between(relay, w.track.history, 0, |w.track.history|) {
      assert |w.track.sent| <= |Between(relay, w.track.history, 0, |w.track.history|)|;
      assert !Lossy(w);
      assert Whole(w);
    }
  }

  /** In orderly runs never more is written than there was to write. */
  lemma AtMostOwed(relay: set<string>, t: Track, phase: Phase, steps: seq<Step>)
    requires InStep(relay, t, phase) && Orderly(relay, t, phase, steps) && FinalPhase(phase, steps) == Live
    ensures var f := Final(relay, t, steps); |f.sent| <= |Between(relay, f.history, 0, |f.history|)|
  {
    hide *;
    InStepOrBehind(relay, t, phase, steps);
    LiveBounds(relay, Final(relay, t, steps));
  }

  lemma LiveBounds(relay: set<string>, t: Track)
    requires InStep(relay, t, Live) || Behind(relay, t, Live)
    ensures |t.sent| <= |Between(relay, t.history, 0, |t.history|)|
  {
    hide Between;
  }

  lemma {:induction false} InStepOrBehind(relay: set<string>, t: Track, phase: Phase, steps: seq<Step>)
    requires InStep(relay, t, phase) && Orderly(relay, t, phase, steps)
    ensures
      var f, end := Final(relay, t, steps), FinalPhase(phase, steps);
      InStep(relay, f, end) || Behind(relay, f, end)
    decreases |steps|
  {
    if steps != [] {
      hide InStep, Behind, InTurn, Harmless, Take;
      var t', phase' := Take(relay, t, steps[0]), PhaseAfter(phase, steps[0]);
      StepExact(relay, t, phase, steps[0]);
      if Harmless(relay, t, phase, steps[0]) {
        InStepOrBehind(relay, t', phase', steps[1..]);
      } else {
        RunStaysBehind(relay, t', phase', steps[1..]);
      }
    }
  }

  // ---------------------------------------------------------------- a message that is lost

  lemma FirstAdvance(relay: set<string>, w: Wired, step: Step, rest: seq<WireStep>)
    ensures var w', steps := Advance(relay, w, Logged(step)), [Logged(step)] + rest;
      && AdvanceAll(relay, w, steps) == AdvanceAll(relay, w', rest) && LogSteps(steps) == [step] + LogSteps(rest)
      && (AllArrived(relay, w, steps) <==> (step.Drops? ==> w.wire == []) && AllArrived(relay, w', rest))
  {
    hide Advance;
    assert ([Logged(step)] + rest)[1..] == rest;
  }

  /** Of these four events the second alone is carried. */
  lemma SecondCarried(relay: set<string>, m: Event)
    requires Carried(relay, m)
    ensures var h := [SystemEvent(SERVER_LINK), m, SystemEvent(SERVER_UNLINK), SystemEvent(SERVER_LINK)];
      Between(relay, h, 0, 4) == [(2, m)] && Between(relay, h, 2, 4) == []
    ensures Between(relay, [SystemEvent(SERVER_LINK)], 0, 1) == []
  {
    var h := [SystemEvent(SERVER_LINK), m, SystemEvent(SERVER_UNLINK), SystemEvent(SERVER_LINK)];
    assert Between(relay, h, 0, 0) == [] && Between(relay, h, 0, 1) == [] && Between(relay, h, 0, 2) == [(2, m)];
    assert Between(relay, h, 0, 3) == Between(relay, h, 0, 2);
    assert Between(relay, h, 2, 3) == [];
    assert Between(relay, [SystemEvent(SERVER_LINK)], 0, 0) == [];
  }

  /** The log's views in the run that loses `m`. */
  lemma LosingTracks(relay: set<string>, m: Event)
    requires Carried(relay, m)
    ensures var link, unlink := SystemEvent(SERVER_LINK), SystemEvent(SERVER_UNLINK);
      && Take(relay, START, Relinks) == Track([link], 0, true, [])
      && Take(relay, Track([link], 0, true, []), Backfills(0)) == Track([link], 0, true, [])
      && Take(relay, Track([link], 0, true, []), Happens(m)) == Track([link, m], 0, true, [(2, m)])
      && Take(relay, Track([link, m], 0, true, [(2, m)]), Drops) == Track([link, m, unlink], 2, false, [(2, m)])
      && Take(relay, Track([link, m, unlink], 2, false, [(2, m)]), Relinks) ==
        Track([link, m, unlink, link], 2, true, [(2, m)])
      && Take(relay, Track([link, m, unlink, link], 2, true, [(2, m)]), Backfills(0)) ==
           Track([link, m, unlink, link], 2, true, [(2, m)])
  {
    var link, unlink := SystemEvent(SERVER_LINK), SystemEvent(SERVER_UNLINK);
    var up, told := Track([link], 0, true, []), Track([link, m], 0, true, [(2, m)]);
    var gone, back := Track([link, m, unlink], 2, false, [(2, m)]), Track([link, m, unlink, link], 2, true, [(2, m)]);
    assert START == Track([], 0, false, []) && ReplayFrom(up, 0) == 0 && ReplayFrom(back, 0) == 2;
    hide *;
    SecondCarried(relay, m);
    RelinkIs(relay, START);
    TakeIs(relay, START, m, 0);
    NothingReplayed(relay, up, 0);
    TakeIs(relay, up, m, 0);
    EmitIs(relay, up, m);
    DropIs(relay, told);
    TakeIs(relay, told, m, 0);
    RelinkIs(relay, gone);
    TakeIs(relay, gone, m, 0);
    NothingReplayed(relay, back, 0);
    TakeIs(relay, back, m, 0);
  }

  /** The run is in turn, and no link drops before its BACKFILL. */
  lemma LosingTurns(relay: set<string>, m: Event)
    requires Carried(relay, m)
    ensures var link, unlink := SystemEvent(SERVER_LINK), SystemEvent(SERVER_UNLINK);
      var up, told := Track([link], 0, true, []), Track([link, m], 0, true, [(2, m)]);
      var gone, back := Track([link, m, unlink], 2, false, [(2, m)]), Track([link, m, unlink, link], 2, true, [(2, m)]);
      && InTurn(relay, START, Down, Relinks) && InTurn(relay, up, Waiting, Backfills(0))
      && InTurn(relay, up, Live, Happens(m))
      && InTurn(relay, told, Live, Drops) && InTurn(relay, gone, Down, Relinks)
      && InTurn(relay, back, Waiting, Backfills(0))
      && Harmless(relay, START, Down, Relinks) && Harmless(relay, up, Waiting, Backfills(0))
      && Harmless(relay, up, Live, Happens(m))
      && Harmless(relay, told, Live, Drops) && Harmless(relay, gone, Down, Relinks)
      && Harmless(relay, back, Waiting, Backfills(0))
    ensures PhaseAfter(Down, Relinks) == Waiting && PhaseAfter(Waiting, Backfills(0)) == Live
    ensures PhaseAfter(Live, Happens(m)) == Live && PhaseAfter(Live, Drops) == Down
  {
    hide Carried, Silent;
  }

  /** What is in flight along the run. */
  lemma LosingWires(relay: set<string>, m: Event)
    requires Carried(relay, m)
    ensures var link, unlink := SystemEvent(SERVER_LINK), SystemEvent(SERVER_UNLINK);
      var up, told := Track([link], 0, true, []), Track([link, m], 0, true, [(2, m)]);
      var gone, back := Track([link, m, unlink], 2, false, [(2, m)]), Track([link, m, unlink, link], 2, true, [(2, m)]);
      && Advance(relay, NOTHING_SENT, Logged(Relinks)) == Wired(up, [], [])
      && Advance(relay, Wired(up, [], []), Logged(Backfills(0))) == Wired(up, [], [])
      && Advance(relay, Wired(up, [], []), Logged(Happens(m))) == Wired(told, [(2, m)], [])
      && Advance(relay, Wired(told, [(2, m)], []), Logged(Drops)) == Wired(gone, [], [])
      && Advance(relay, Wired(gone, [], []), Logged(Relinks)) == Wired(back, [], [])
      && Advance(relay, Wired(back, [], []), Logged(Backfills(0))) == Wired(back, [], [])
  {
    LosingTracks(relay, m);
    hide Take;
    assert NOTHING_SENT == Wired(START, [], []);
  }

  /** A message in flight when the link drops is never received, although every step was in turn. */
  lemma DropLosesInFlight(text: string)
    ensures var m := Event(Some("#ops"), MessageEvent("", "spark-ori", text, false), "");
      var run := [Relinks, Backfills(0), Happens(m), Drops, Relinks, Backfills(0)];
      exists steps ::
        var w := AdvanceAll({"#ops"}, NOTHING_SENT, steps);
        && LogSteps(steps) == run && Orderly({"#ops"}, START, Down, run) && AllHarmless({"#ops"}, START, Down, run)
        && FinalPhase(Down, run) == Live && !AllArrived({"#ops"}, NOTHING_SENT, steps)
        && w.received + w.wire == [] && Between({"#ops"}, w.track.history, 0, |w.track.history|) == [(2, m)]
  {
    hide *;
    var relay := {"#ops"};
    var m := Event(Some("#ops"), MessageEvent("", "spark-ori", text, false), "");
    OpsCarried(m);
    LosingTracks(relay, m);
    LosingTurns(relay, m);
    LosingWires(relay, m);
    SecondCarried(relay, m);
    var link, unlink := SystemEvent(SERVER_LINK), SystemEvent(SERVER_UNLINK);
    var up, told := Track([link], 0, true, []), Track([link, m], 0, true, [(2, m)]);
    var gone, back := Track([link, m, unlink], 2, false, [(2, m)]), Track([link, m, unlink, link], 2, true, [(2, m)]);
    var s0: seq<WireStep>, r0: seq<Step> := [], [];
    NothingLeft(relay, Wired(back, [], []));
    Ended(relay, back, Live);
    var s1, r1 := OneEarlier(relay, Wired(back, [], []), Waiting, Backfills(0), s0, r0);
    var s2, r2 := OneEarlier(relay, Wired(gone, [], []), Down, Relinks, s1, r1);
    var s3, r3 := OneEarlier(relay, Wired(told, [(2, m)], []), Live, Drops, s2, r2);
    var s4, r4 := OneEarlier(relay, Wired(up, [], []), Live, Happens(m), s3, r3);
    var s5, r5 := OneEarlier(relay, Wired(up, [], []), Waiting, Backfills(0), s4, r4);
    var s6, r6 := OneEarlier(relay, NOTHING_SENT, Down, Relinks, s5, r5);
    NothingSentIs();
    assert r6 == [Relinks, Backfills(0), Happens(m), Drops, Relinks, Backfills(0)];
    assert AdvanceAll(relay, NOTHING_SENT, s6) == Wired(back, [], []);
  }

  lemma NothingSentIs()
    ensures NOTHING_SENT.track == START && NOTHING_SENT.wire == NOTHING_SENT.received == []
  {
  }

  lemma NothingLeft(relay: set<string>, w: Wired)
    ensures AdvanceAll(relay, w, []) == w && LogSteps([]) == [] && AllArrived(relay, w, [])
  {
  }

  /** A run seen from one step earlier. */
  lemma OneEarlier(relay: set<string>, w: Wired, phase: Phase, step: Step, rest: seq<WireStep>, logged: seq<Step>)
    returns (steps: seq<WireStep>, all: seq<Step>)
    requires LogSteps(rest) == logged
    ensures steps == [Logged(step)] + rest && all == [step] + logged && LogSteps(steps) == all
    ensures var w', phase' := Advance(relay, w, Logged(step)), PhaseAfter(phase, step);
      && AdvanceAll(relay, w, steps) == AdvanceAll(relay, w', rest)
      && (AllArrived(relay, w, steps) <==> (step.Drops? ==> w.wire == []) && AllArrived(relay, w', rest))
      && FinalPhase(phase, all) == FinalPhase(phase', logged)
      && (Orderly(relay, w.track, phase, all) <==>
            InTurn(relay, w.track, phase, step) && Orderly(relay, Take(relay, w.track, step), phase', logged))
      && (AllHarmless(relay, w.track, phase, all) <==>
            Harmless(relay, w.track, phase, step) && AllHarmless(relay, Take(relay, w.track, step), phase', logged))
  {
    hide *;
    steps, all := [Logged(step)] + rest, [step] + logged;
    FirstAdvance(relay, w, step, rest);
    FirstStep(relay, w.track, phase, step, logged);
  }
}
