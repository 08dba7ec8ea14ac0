/**
 * The file protocol by which a worker asks for permission and approvers decide. One request, any number
 * of approvers and of cleaning sweeps, every file operation a step of its own.
 */
module DecisionProtocol {

  /** The content of a decision file. */
  datatype Decision = Decision(verdict: string, scope: string, reason: string)

  /** The decision file: absent, the empty file that reserves it, or a complete decision. */
  datatype Slot = Free | Reserved | Holds(d: Decision)

  /** `Seen`: knows of the request. `Writing`: has reserved the file. `Faulted`: could not write and will undo. */
  datatype Approver = Idle | Seen | Writing(d: Decision) | Faulted | Undone | Refused | Won(d: Decision)

  /** A sweep for orphans: has listed the decision file; has found no request for it and will unlink it. */
  datatype Sweep = Resting | Listed | Condemning

  datatype Answer = Decided(d: Decision) | TimedOut

  /**
   * `Asked`: request written, nothing read yet. `Waiting`: polling. `Answering`, `Tidying`: about to unlink the two
   * files.
   */
  datatype Worker =
    | Fresh | Asked | Waiting(since: real) | Answering(r: Answer) | Tidying(r: Answer) | Done(r: Answer)
    | Cancelled | Crashed

  datatype World = World(
    now: real, request: bool, slot: Slot, worker: Worker,
    approvers: map<nat, Approver>, sweeps: map<nat, Sweep>)
  {
    function Of(a: nat): Approver { if a in approvers then approvers[a] else Idle }

    function SweepOf(k: nat): Sweep { if k in sweeps then sweeps[k] else Resting }

    function With(a: nat, x: Approver): World { this.(approvers := approvers[a := x]) }

    function WithSweep(k: nat, x: Sweep): World { this.(sweeps := sweeps[k := x]) }
  }

  datatype Action =
    | Tick(dt: real)
    | Ask | Poll | DropRequest | DropDecision | Cancel | Crash
    | Look(a: nat) | Create(a: nat, d: Decision) | Replace(a: nat) | Fault(a: nat) | Undo(a: nat)
    | SweepRequest(running: bool) | List(k: nat) | Check(k: nat) | Unlink(k: nat)

  const TIMEOUT: real := 600.0

  function Init(): World { World(0.0, false, Free, Fresh, map[], map[]) }

  /** One read of the decision file by the worker; an empty file does not parse. */
  function AfterPoll(w: World): Worker {
    match w.worker
    case Asked => if w.slot.Holds? then Answering(Decided(w.slot.d)) else Waiting(w.now)
    case Waiting(since) =>
      if w.slot.Holds? then Answering(Decided(w.slot.d))
      else if w.now >= since + TIMEOUT then Answering(TimedOut)
      else w.worker
    case _ => w.worker
  }

  /** One step; an action that is not possible now changes nothing. */
  function Step(w: World, act: Action): World {
    match act
    case Tick(dt) => if dt >= 0.0 then w.(now := w.now + dt) else w
    case Ask => if w.worker.Fresh? then w.(worker := Asked, request := true) else w
    case Poll => w.(worker := AfterPoll(w))
    case DropRequest => if w.worker.Answering? then w.(request := false, worker := Tidying(w.worker.r)) else w
    case DropDecision => if w.worker.Tidying? then w.(slot := Free, worker := Done(w.worker.r)) else w
    case Cancel => if w.worker.Asked? || w.worker.Waiting? then w.(request := false, worker := Cancelled) else w
    case Crash => if w.worker.Done? || w.worker.Cancelled? then w else w.(worker := Crashed)
    case Look(a) => if w.request && w.Of(a).Idle? then w.With(a, Seen) else w
    case Create(a, d) =>
      if !w.Of(a).Seen? then w
      else if w.slot.Free? then w.With(a, Writing(d)).(slot := Reserved)
      else w.With(a, Refused)
    case Replace(a) => if w.Of(a).Writing? then w.With(a, Won(w.Of(a).d)).(slot := Holds(w.Of(a).d)) else w
    case Fault(a) => if w.Of(a).Writing? then w.With(a, Faulted) else w
    case Undo(a) => if w.Of(a).Faulted? then w.With(a, Undone).(slot := Free) else w
    case SweepRequest(running) => if running then w else w.(request := false)
    case List(k) => if w.slot.Free? then w.WithSweep(k, Resting) else w.WithSweep(k, Listed)
    case Check(k) => if !w.SweepOf(k).Listed? then w else w.WithSweep(k, if w.request then Resting else Condemning)
    case Unlink(k) => if w.SweepOf(k).Condemning? then w.WithSweep(k, Resting).(slot := Free) else w
  }

  function After(w: World, acts: seq<Action>): World
    decreases |acts|
  {
    if acts == [] then w else After(Step(w, acts[0]), acts[1..])
  }

  predicate Waits(w: World) { w.worker.Asked? || w.worker.Waiting? }

  /** No sweep is told that a worker is gone which is waiting for its answer. */
  predicate Truthful(w: World, acts: seq<Action>)
    decreases |acts|
  {
    acts == [] || (!(acts[0] == SweepRequest(false) && Waits(w)) && Truthful(Step(w, acts[0]), acts[1..]))
  }

  // ---------------------------------------------------------------- the invariant

  /** Who holds the decision file. */
  predicate Holder(w: World, a: nat) {
    w.Of(a).Writing? || w.Of(a).Faulted? || w.Of(a).Won?
  }

  /** The file is as its one holder has made it, and nobody is about to take it away. */
  ghost predicate Orderly(w: World) {
    && (forall a: nat, b: nat :: Holder(w, a) && Holder(w, b) ==> a == b)
    && (forall a: nat :: Holder(w, a) ==> w.slot == if w.Of(a).Won? then Holds(w.Of(a).d) else Reserved)
    && (w.slot != Free ==> exists a: nat :: Holder(w, a))
    && (forall k: nat :: !w.SweepOf(k).Condemning?)
  }

  ghost predicate HasWinner(w: World, d: Decision) {
    exists a: nat :: w.Of(a) == Won(d)
  }

  function AnswerOf(worker: Worker): (r: Answer)
    requires worker.Answering? || worker.Tidying? || worker.Done?
  {
    match worker
    case Answering(r) => r
    case Tidying(r) => r
    case Done(r) => r
  }

  predicate Answered(w: World) { w.worker.Answering? || w.worker.Tidying? || w.worker.Done? }

  ghost predicate Inv(w: World) {
    && (w.request ==> Orderly(w) && (Waits(w) || w.worker.Answering? || w.worker.Crashed?))
    && (w.worker.Fresh? ==>
          !w.request && w.slot.Free? && (forall a: nat :: w.Of(a).Idle?) && (forall k: nat :: w.SweepOf(k).Resting?))
    && (w.worker.Waiting? ==> w.worker.since <= w.now)
    && (w.slot.Holds? ==> HasWinner(w, w.slot.d))
    && (Answered(w) && AnswerOf(w.worker).Decided? ==> HasWinner(w, AnswerOf(w.worker).d))
  }

  lemma WinnersStay(w: World, act: Action, a: nat)
    ensures w.Of(a).Won? ==> Step(w, act).Of(a) == w.Of(a)
  {
  }

  /** A step of approver `a` in an orderly world. */
  lemma ApproverStep(w: World, act: Action, a: nat)
    requires Orderly(w) && (act.Create? || act.Replace? || act.Fault? || act.Undo? || act.Look?) && act.a == a
    ensures Orderly(Step(w, act))
  {
    var w' := Step(w, act);
    assert forall b: nat :: b != a ==> w'.Of(b) == w.Of(b) && Holder(w', b) == Holder(w, b);
    assert forall k: nat :: w'.SweepOf(k) == w.SweepOf(k);
    if Holder(w', a) {
      if act.Create? && w.Of(a).Seen? {
        assert forall b: nat :: !Holder(w, b);
      } else {
        assert Holder(w, a);
      }
    } else if w' != w && (Holder(w, a) || w'.slot != Free) {
      assert act.Undo? ==> Holder(w, a) && w'.slot == Free;
      if !act.Undo? {
        var h: nat :| Holder(w, h);
        assert Holder(w', h);
      }
    }
  }

  lemma SweepStep(w: World, act: Action)
    requires Orderly(w) && w.request && (act.List? || act.Check? || act.Unlink?)
    ensures Orderly(Step(w, act))
  {
    var w' := Step(w, act);
    assert forall b: nat :: w'.Of(b) == w.Of(b) && Holder(w', b) == Holder(w, b);
    assert forall k: nat :: k != act.k ==> w'.SweepOf(k) == w.SweepOf(k);
    assert !w.SweepOf(act.k).Condemning?;
    if w.slot != Free {
      var h: nat :| Holder(w, h);
      assert Holder(w', h);
    }
  }

  /** The worker and the clock leave file and approvers alone while the request is up. */
  lemma WorkerStep(w: World, act: Action)
    requires Orderly(w) && w.worker != Fresh && !w.worker.Tidying?
    requires act.Tick? || act.Ask? || act.Poll? || act.DropRequest? || act.DropDecision? || act.Cancel? || act.Crash?
    ensures Orderly(Step(w, act))
  {
    var w' := Step(w, act);
    assert forall b: nat :: w'.Of(b) == w.Of(b) && Holder(w', b) == Holder(w, b);
    assert forall k: nat :: w'.SweepOf(k) == w.SweepOf(k);
    if w.slot != Free {
      var h: nat :| Holder(w, h);
      assert Holder(w', h);
    }
  }

  lemma FreshStep(w: World, act: Action)
    requires Inv(w) && w.worker.Fresh?
    ensures Inv(Step(w, act))
  {
    var w' := Step(w, act);
    assert forall a: nat :: w.Of(a).Idle?;
    assert forall k: nat :: w.SweepOf(k).Resting?;
    assert forall b: nat :: w'.Of(b) == w.Of(b);
    assert forall k: nat :: w'.SweepOf(k).Resting? by {
      assert forall k: nat :: w'.SweepOf(k) == w.SweepOf(k) || (act == List(k) && w'.SweepOf(k).Resting?);
    }
  }

  lemma OrderlyStep(w: World, act: Action)
    requires Inv(w) && w.request && Step(w, act).request
    ensures Orderly(Step(w, act))
  {
    match act
    case Tick(_) => WorkerStep(w, act);
    case Ask => WorkerStep(w, act);
    case Poll => WorkerStep(w, act);
    case DropRequest => WorkerStep(w, act);
    case DropDecision => WorkerStep(w, act);
    case Cancel => WorkerStep(w, act);
    case Crash => WorkerStep(w, act);
    case Look(a) => ApproverStep(w, act, a);
    case Create(a, _) => ApproverStep(w, act, a);
    case Replace(a) => ApproverStep(w, act, a);
    case Fault(a) => ApproverStep(w, act, a);
    case Undo(a) => ApproverStep(w, act, a);
    case SweepRequest(_) =>
    case List(_) => SweepStep(w, act);
    case Check(_) => SweepStep(w, act);
    case Unlink(_) => SweepStep(w, act);
  }

  /** The file keeps the decision it holds while the request is up. */
  lemma ContentStep(w: World, act: Action)
    requires Inv(w) && w.request && w.slot.Holds?
    ensures Step(w, act).slot == w.slot
  {
    var h: nat :| Holder(w, h);
    assert w.Of(h).Won?;
    assert (act.Replace? || act.Undo?) ==> Holder(w, act.a) ==> act.a == h;
    assert act.Unlink? ==> !w.SweepOf(act.k).Condemning?;
  }

  /** Winners are remembered. */
  lemma WinnerKept(w: World, act: Action, d: Decision)
    requires HasWinner(w, d)
    ensures HasWinner(Step(w, act), d)
  {
    var a: nat :| w.Of(a) == Won(d);
    WinnersStay(w, act, a);
    assert Step(w, act).Of(a) == Won(d);
  }

  /** What the file holds, and what the worker has read, was put there by an approver that won. */
  lemma WinnerStep(w: World, act: Action)
    requires Inv(w)
    ensures var w' := Step(w, act);
      && (w'.slot.Holds? ==> HasWinner(w', w'.slot.d))
      && (Answered(w') && AnswerOf(w'.worker).Decided? ==> HasWinner(w', AnswerOf(w'.worker).d))
  {
    var w' := Step(w, act);
    if w.slot.Holds? { WinnerKept(w, act, w.slot.d); }
    if Answered(w) && AnswerOf(w.worker).Decided? { WinnerKept(w, act, AnswerOf(w.worker).d); }
    if act.Replace? && w.Of(act.a).Writing? { assert w'.Of(act.a) == Won(w'.slot.d); }
  }

  lemma InvStep(w: World, act: Action)
    requires Inv(w)
    ensures Inv(Step(w, act))
  {
    if w.worker.Fresh? {
      FreshStep(w, act);
    } else {
      if w.request && Step(w, act).request { OrderlyStep(w, act); }
      WinnerStep(w, act);
      hide Orderly, HasWinner;
    }
  }

  lemma {:induction false} InvRun(w: World, acts: seq<Action>)
    requires Inv(w)
    ensures Inv(After(w, acts))
    decreases |acts|
  {
    if acts != [] {
      InvStep(w, acts[0]);
      InvRun(Step(w, acts[0]), acts[1..]);
    }
  }

  lemma Reachable(acts: seq<Action>)
    ensures Inv(After(Init(), acts))
  {
    InvRun(Init(), acts);
  }

  // ---------------------------------------------------------------- what the protocol is for

  /**
   * As long as the request is up, be the worker alive or not, at most one approver holds the decision
   * file, hence at most one is told that it decided; an approver finds the file taken exactly when there
   * is such a holder.
   */
  lemma AtMostOneHolder(acts: seq<Action>, a: nat, b: nat)
    ensures var w := After(Init(), acts);
      w.request ==> (Holder(w, a) && Holder(w, b) ==> a == b) && (w.slot != Free <==> exists h: nat :: Holder(w, h))
  {
    Reachable(acts);
  }

  lemma {:induction false} RequestGone(w: World, acts: seq<Action>)
    requires !w.request && !w.worker.Fresh?
    ensures !After(w, acts).request
    decreases |acts|
  {
    if acts != [] { RequestGone(Step(w, acts[0]), acts[1..]); }
  }

  /** The request of a waiting worker is up exactly if no sweep was told that the worker is gone. */
  lemma {:induction false} RequestUpExactly(w: World, acts: seq<Action>)
    requires w.worker.Fresh? || Waits(w) ==> w.request == Waits(w)
    requires Waits(After(w, acts))
    ensures After(w, acts).request <==> Truthful(w, acts)
    decreases |acts|
  {
    if acts != [] {
      var w' := Step(w, acts[0]);
      if acts[0] == SweepRequest(false) && Waits(w) {
        RequestGone(w', acts[1..]);
      } else {
        if !w.worker.Fresh? && !Waits(w) { WaitOver(w, acts); }
        RequestUpExactly(w', acts[1..]);
      }
    }
  }

  /** A worker that has stopped waiting does not wait again. */
  lemma {:induction false} WaitOver(w: World, acts: seq<Action>)
    requires !w.worker.Fresh? && !Waits(w)
    ensures !w.worker.Fresh? && !Waits(After(w, acts))
    decreases |acts|
  {
    if acts != [] { WaitOver(Step(w, acts[0]), acts[1..]); }
  }

  lemma {:induction false} ContentRun(w: World, acts: seq<Action>)
    requires Inv(w) && w.request && w.slot.Holds? && After(w, acts).request
    ensures After(w, acts).slot == w.slot
    decreases |acts|
  {
    if acts != [] {
      var w' := Step(w, acts[0]);
      InvStep(w, acts[0]);
      ContentStep(w, acts[0]);
      if !w'.request { RequestGone(w', acts[1..]); }
      ContentRun(w', acts[1..]);
    }
  }

  /** A published decision never changes while the request is up. */
  lemma PublishedIsFinal(before: seq<Action>, after: seq<Action>)
    requires After(Init(), before).request && After(Init(), before).slot.Holds?
    requires After(After(Init(), before), after).request
    ensures After(After(Init(), before), after).slot == After(Init(), before).slot
  {
    Reachable(before);
    ContentRun(After(Init(), before), after);
  }

  /** The approver that reserved the file but could not write frees it for the next. */
  lemma FailureFreesTheFile(acts: seq<Action>, a: nat, b: nat, d: Decision)
    requires var w := After(Init(), acts); w.request && w.Of(a).Faulted? && w.Of(b).Seen?
    ensures var w := After(Init(), acts);
      var w' := Step(Step(w, Undo(a)), Create(b, d));
      Step(w, Create(b, d)).Of(b).Refused? && w'.Of(b) == Writing(d) && w'.slot == Reserved
  {
    Reachable(acts);
    assert Holder(After(Init(), acts), a);
  }

  /**
   * A poll answers with the decision of an approver exactly when that approver has won, with the timeout
   * exactly when nobody has and the time is up, and otherwise not at all; a half-written file is no answer.
   */
  lemma PollIsExact(acts: seq<Action>)
    requires Truthful(Init(), acts) && After(Init(), acts).worker.Waiting?
    ensures var w := After(Init(), acts);
      var w' := Step(w, Poll);
      && (forall d :: w'.worker == Answering(Decided(d)) <==> HasWinner(w, d))
      && (w'.worker == Answering(TimedOut) <==> !(exists a: nat :: w.Of(a).Won?) && w.now - w.worker.since >= 600.0)
      && (w'.worker == w.worker <==> !(exists a: nat :: w.Of(a).Won?) && w.now - w.worker.since < 600.0)
  {
    Reachable(acts);
    RequestUpExactly(Init(), acts);
    var w := After(Init(), acts);
    assert forall a: nat :: w.Of(a).Won? ==> Holder(w, a);
    if w.slot.Holds? {
      var h: nat :| Holder(w, h);
      assert w.Of(h) == Won(w.slot.d);
    }
  }

  /** Two approvers know of the request, and the first reserves the file. */
  lemma TwoSeeOneReserves(d: Decision)
    ensures Step(Init(), Ask) == World(0.0, true, Free, Asked, map[], map[])
    ensures Step(World(0.0, true, Free, Asked, map[], map[]), Look(0)) ==
      World(0.0, true, Free, Asked, map[0 := Seen], map[])
    ensures Step(World(0.0, true, Free, Asked, map[0 := Seen], map[]), Look(1)) ==
      World(0.0, true, Free, Asked, map[0 := Seen, 1 := Seen], map[])
    ensures Step(World(0.0, true, Free, Asked, map[0 := Seen, 1 := Seen], map[]), Create(0, d)) ==
      World(0.0, true, Reserved, Asked, map[0 := Writing(d), 1 := Seen], map[])
  {
    assert map[0 := Seen, 1 := Seen][0 := Writing(d)] == map[0 := Writing(d), 1 := Seen];
  }

  /** A sweep that finds no request takes the file for an orphan's. */
  lemma SweepUnlinks(w: World)
    requires !w.request && w.slot != Free && w.sweeps == map[]
    ensures Step(Step(Step(w, List(0)), Check(0)), Unlink(0)) == w.(slot := Free, sweeps := map[0 := Resting])
  {
    assert Step(w, List(0)) == w.(sweeps := map[0 := Listed]);
    assert Step(w.(sweeps := map[0 := Listed]), Check(0)) == w.(sweeps := map[0 := Condemning]);
  }

  /** A sweep that takes a waiting worker for gone makes it miss a decision. */
  lemma FalseSweepLosesDecision(d: Decision)
    ensures exists acts ::
      var w := After(Init(), acts);
      w.worker.Waiting? && HasWinner(w, d) && w.now - w.worker.since < 600.0 && Step(w, Poll).worker == w.worker
  {
    var run: seq<Action> := [];
    assert After(Init(), run) == Init();
    TwoSeeOneReserves(d);
    var decided := World(0.0, false, Holds(d), Waiting(0.0), map[0 := Won(d), 1 := Seen], map[]);
    DecidedUnseen(d);
    SweepUnlinks(decided);
    var w := decided.(slot := Free, sweeps := map[0 := Resting]);
    assert w.Of(0) == Won(d) && Step(w, Poll).worker == w.worker;
    hide After, Step;
    run := Then(run, Ask);
    run := Then(run, Look(0));
    run := Then(run, Look(1));
    run := Then(run, Create(0, d));
    run := Then(run, Poll);
    run := Then(run, Replace(0));
    run := Then(run, SweepRequest(false));
    run := Then(run, List(0));
    run := Then(run, Check(0));
    run := Then(run, Unlink(0));
    assert After(Init(), run) == w;
  }

  lemma DecidedUnseen(d: Decision)
    ensures var w := World(0.0, true, Reserved, Asked, map[0 := Writing(d), 1 := Seen], map[]);
      Step(Step(Step(w, Poll), Replace(0)), SweepRequest(false)) ==
        World(0.0, false, Holds(d), Waiting(0.0), map[0 := Won(d), 1 := Seen], map[])
  {
    assert map[0 := Writing(d), 1 := Seen][0 := Won(d)] == map[0 := Won(d), 1 := Seen];
  }

  /** Whether the tool call goes ahead: anything but an explicit allow denies it. */
  predicate Allows(r: Answer) { r.Decided? && r.d.verdict == "allow" }

  /**
   * Over every run, sweeps and crashes of any kind included, a call goes ahead exactly if the worker was answered
   * "allow", and then an approver that won has said so.
   */
  lemma OnlyWinnersAllow(acts: seq<Action>)
    ensures var w := After(Init(), acts);
      Answered(w) ==>
        (Allows(AnswerOf(w.worker)) <==> AnswerOf(w.worker).Decided? && AnswerOf(w.worker).d.verdict == "allow")
    ensures var w := After(Init(), acts);
      Answered(w) && Allows(AnswerOf(w.worker)) ==>
        exists a: nat :: w.Of(a).Won? && w.Of(a).d == AnswerOf(w.worker).d && w.Of(a).d.verdict == "allow"
  {
    Reachable(acts);
    var w := After(Init(), acts);
    if Answered(w) && Allows(AnswerOf(w.worker)) {
      var a: nat :| w.Of(a) == Won(AnswerOf(w.worker).d);
    }
  }

  // ---------------------------------------------------------------- two winners

  /** An approver that believes the file to be its own: it has won, or is about to. */
  predicate Claims(w: World, a: nat) { w.Of(a).Writing? || w.Of(a).Won? }

  /** At most one does, and the file is there. */
  ghost predicate OneClaim(w: World) {
    && (forall a: nat, b: nat :: Claims(w, a) && Claims(w, b) ==> a == b)
    && (forall a: nat :: Claims(w, a) ==> w.slot != Free)
  }

  /**
   * The step takes the file from under an approver: a sweep unlinks it, the worker does when it is done,
   * or one that could not write undoes a reservation no longer its own.
   */
  ghost predicate Robs(w: World, act: Action) {
    && (|| (act.Unlink? && w.SweepOf(act.k).Condemning?)
        || (act.DropDecision? && w.worker.Tidying?)
        || (act.Undo? && w.Of(act.a).Faulted?))
    && exists a: nat :: Claims(w, a)
  }

  lemma OneClaimExact(w: World, act: Action)
    requires OneClaim(w)
    ensures OneClaim(Step(w, act)) <==> !Robs(w, act)
  {
    var w' := Step(w, act);
    if Robs(w, act) {
      var a: nat :| Claims(w, a);
      assert Claims(w', a) && w'.slot == Free;
    } else {
      forall b: nat | Claims(w', b) && !Claims(w, b) ensures act.Create? && act.a == b && w.slot.Free? {
      }
      assert forall b: nat :: Claims(w', b) && Claims(w, b) ==> w'.slot != Free;
    }
  }

  ghost predicate Robbed(w: World, acts: seq<Action>)
    decreases |acts|
  {
    acts != [] && (Robs(w, acts[0]) || Robbed(Step(w, acts[0]), acts[1..]))
  }

  lemma {:induction false} OneClaimRun(w: World, acts: seq<Action>)
    requires OneClaim(w) && !Robbed(w, acts)
    ensures OneClaim(After(w, acts))
    decreases |acts|
  {
    if acts != [] {
      OneClaimExact(w, acts[0]);
      OneClaimRun(Step(w, acts[0]), acts[1..]);
    }
  }

  /** Two approvers win only if at some step the file was taken from under one. */
  lemma TwoWinnersOnlyIfRobbed(acts: seq<Action>, a: nat, b: nat)
    requires a != b && After(Init(), acts).Of(a).Won? && After(Init(), acts).Of(b).Won?
    ensures Robbed(Init(), acts)
  {
    if !Robbed(Init(), acts) {
      OneClaimRun(Init(), acts);
      assert Claims(After(Init(), acts), a) && Claims(After(Init(), acts), b);
    }
  }

  /**
   * And each such step lets a second one win: with `a` claiming the file and `b` about to try, both win
   * after the step exactly if the step takes the file from under `a`.
   */
  lemma SecondWinnerExact(w: World, act: Action, a: nat, b: nat, e: Decision)
    requires OneClaim(w) && a != b && Claims(w, a) && w.Of(b).Seen?
    requires act.Unlink? || act.DropDecision? || (act.Undo? && act.a != a && act.a != b)
    ensures var w' := After(w, [act, Create(b, e), Replace(a), Replace(b)]);
      w'.Of(a).Won? && w'.Of(b) == Won(e) <==> Robs(w, act)
  {
    RobbedFile(w, act, a, b);
    AfterFour(w, act, Create(b, e), Replace(a), Replace(b));
    FreeFileWins(Step(w, act), a, b, e);
    hide *;
  }

  /** Of two approvers, one claiming the file, the other about to try, both win if the file is free. */
  lemma FreeFileWins(w: World, a: nat, b: nat, e: Decision)
    requires a != b && Claims(w, a) && w.Of(b).Seen?
    ensures var w' := Step(Step(Step(w, Create(b, e)), Replace(a)), Replace(b));
      w'.Of(a).Won? && w'.Of(b) == Won(e) <==> w.slot.Free?
  {
    var w1 := Step(w, Create(b, e));
    var w2 := Step(w1, Replace(a));
    assert w1.Of(a) == w.Of(a) && w2.Of(b) == w1.Of(b) && w2.Of(a).Won?;
    assert w1.Of(b) == if w.slot.Free? then Writing(e) else Refused;
  }

  lemma RobbedFile(w: World, act: Action, a: nat, b: nat)
    requires OneClaim(w) && a != b && Claims(w, a) && w.Of(b).Seen?
    requires act.Unlink? || act.DropDecision? || (act.Undo? && act.a != a && act.a != b)
    ensures Robs(w, act) <==> Step(w, act).slot.Free?
    ensures Step(w, act).Of(b).Seen? && Claims(Step(w, act), a)
  {
  }

  lemma AfterFour(w: World, a1: Action, a2: Action, a3: Action, a4: Action)
    ensures After(w, [a1, a2, a3, a4]) == Step(Step(Step(Step(w, a1), a2), a3), a4)
  {
    assert [a1, a2, a3, a4][1..] == [a2, a3, a4] && [a2, a3, a4][1..] == [a3, a4] && [a3, a4][1..] == [a4]
      && [a4][1..] == [];
    var w1 := Step(w, a1);
    var w2 := Step(w1, a2);
    var w3 := Step(w2, a3);
    hide Step;
    assert After(w3, [a4]) == After(Step(w3, a4), []) == Step(w3, a4);
    assert After(w2, [a3, a4]) == After(w3, [a4]);
    assert After(w1, [a2, a3, a4]) == After(w2, [a3, a4]);
  }

  /** Not while the request is up. */
  lemma NoRobberyWhileAsked(acts: seq<Action>, act: Action)
    requires After(Init(), acts).request
    ensures !Robs(After(Init(), acts), act)
  {
    Reachable(acts);
    var w := After(Init(), acts);
    assert forall a: nat :: Claims(w, a) ==> Holder(w, a);
    assert act.Undo? && w.Of(act.a).Faulted? ==> Holder(w, act.a);
  }

  lemma BothWrite(d: Decision, e: Decision)
    ensures var w := World(0.0, false, Free, Cancelled, map[0 := Writing(d), 1 := Seen], map[0 := Resting]);
      Step(Step(Step(w, Create(1, e)), Replace(0)), Replace(1)) ==
        World(0.0, false, Holds(e), Cancelled, map[0 := Won(d), 1 := Won(e)], map[0 := Resting])
  {
    assert map[0 := Writing(d), 1 := Seen][1 := Writing(e)] == map[0 := Writing(d), 1 := Writing(e)];
    assert map[0 := Writing(d), 1 := Writing(e)][0 := Won(d)] == map[0 := Won(d), 1 := Writing(e)];
    assert map[0 := Won(d), 1 := Writing(e)][1 := Won(e)] == map[0 := Won(d), 1 := Won(e)];
  }

  /** Once the worker has given up and a sweep has taken the reservation for an orphan, two approvers can win. */
  lemma TwoWinnersAfterCancel(d: Decision, e: Decision)
    ensures exists acts ::
      Truthful(Init(), acts) && After(Init(), acts).Of(0) == Won(d) && After(Init(), acts).Of(1) == Won(e)
  {
    var run: seq<Action> := [];
    assert After(Init(), run) == Init() && Truthful(Init(), run);
    TwoSeeOneReserves(d);
    var reserved := World(0.0, true, Reserved, Asked, map[0 := Writing(d), 1 := Seen], map[]);
    assert Step(reserved, Cancel) == reserved.(request := false, worker := Cancelled);
    SweepUnlinks(reserved.(request := false, worker := Cancelled));
    BothWrite(d, e);
    var w := World(0.0, false, Holds(e), Cancelled, map[0 := Won(d), 1 := Won(e)], map[0 := Resting]);
    assert w.Of(0) == Won(d) && w.Of(1) == Won(e);
    hide After, Truthful, Step;
    run := ThenTruthful(run, Ask);
    run := ThenTruthful(run, Look(0));
    run := ThenTruthful(run, Look(1));
    run := ThenTruthful(run, Create(0, d));
    run := ThenTruthful(run, Cancel);
    run := ThenTruthful(run, List(0));
    run := ThenTruthful(run, Check(0));
    run := ThenTruthful(run, Unlink(0));
    run := ThenTruthful(run, Create(1, e));
    run := ThenTruthful(run, Replace(0));
    run := ThenTruthful(run, Replace(1));
    assert After(Init(), run) == w;
  }

  /** One more step of a run. */
  lemma Then(acts: seq<Action>, act: Action) returns (longer: seq<Action>)
    ensures longer == acts + [act] && After(Init(), longer) == Step(After(Init(), acts), act)
  {
    longer := acts + [act];
    AfterConcat(Init(), acts, [act]);
    assert [act][1..] == [];
    assert After(After(Init(), acts), [act]) == After(Step(After(Init(), acts), act), []);
  }

  /** One more step of a truthful run. */
  lemma ThenTruthful(acts: seq<Action>, act: Action) returns (longer: seq<Action>)
    requires Truthful(Init(), acts) && act != SweepRequest(false)
    ensures longer == acts + [act] && After(Init(), longer) == Step(After(Init(), acts), act)
    ensures Truthful(Init(), longer)
  {
    longer := Then(acts, act);
    TruthfulConcat(Init(), acts, act);
  }

  lemma {:induction false} TruthfulConcat(w: World, acts: seq<Action>, act: Action)
    requires Truthful(w, acts) && act != SweepRequest(false)
    ensures Truthful(w, acts + [act])
    decreases |acts|
  {
    if acts == [] {
      assert [] + [act] == [act] && [act][1..] == [];
      assert Truthful(Step(w, act), []);
    } else {
      assert (acts + [act])[1..] == acts[1..] + [act];
      TruthfulConcat(Step(w, acts[0]), acts[1..], act);
    }
  }

  lemma {:induction false} AfterConcat(w: World, a: seq<Action>, b: seq<Action>)
    ensures After(w, a + b) == After(After(w, a), b)
    decreases |a|
  {
    if a == [] {
      assert a + b == b;
    } else {
      assert (a + b)[1..] == a[1..] + b;
      AfterConcat(Step(w, a[0]), a[1..], b);
    }
  }
}
