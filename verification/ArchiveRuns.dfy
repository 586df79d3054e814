/**
 One session's archive sweeps among its turns, its deletion and its re-creation (go/runner.go). The sweep's checks, its
 commit, upload and record of a snapshot, and its release are separate steps; anything may happen between them.
 */
module ArchiveRuns {
  import opened Text
  import opened ArchiveSweep

  datatype Phase =
    | Resting
    | Snapshotting   // past the checks, about to commit
    | Committed      // about to upload
    | Persisted      // about to record the handle
    | Releasing      // recorded, about to release the container
    | Asking         // the snapshot failed: does the row exist?
    | Destroying     // it does not: about to destroy the container

  // `made` counts the work the session has done since its row was created. `inside` is how much of that the container's
  // filesystem holds, `image` how much the image last committed, `handle` how much the snapshot the row points at.
  datatype State = State(
    phase: Phase, rowExists: bool, live: bool, inside: nat, image: nat, handle: Option<nat>, made: nat, held: nat,
    lost: bool)

  function Init(): State {
    State(Resting, false, false, 0, 0, None, 0, 0, false)
  }

  datatype Step =
    | Sweep(pending: nat)    // the checks before the snapshot
    | Commit
    | Upload
    | Record
    | FailSnapshot
    | Asked(answer: Answer)
    | Release(ok: bool)
    | Remove(ok: bool)
    | BeginTurn              // the message's ensureRunning, then the turn
    | Work
    | EndTurn
    | DeleteRow
    | CreateRow              // with a container: the session's existing one if there is one

  predicate Enabled(s: State, step: Step) {
    match step
    case Sweep(_) => s.phase == Resting && s.live
    case Commit => s.phase == Snapshotting
    case Upload => s.phase == Committed
    case Record => s.phase == Persisted && s.rowExists
    case FailSnapshot => s.phase == Snapshotting || s.phase == Committed || s.phase == Persisted
    case Asked(a) => s.phase == Asking && (a == Absent ==> !s.rowExists) && (a == Present ==> s.rowExists)
    case Release(_) => s.phase == Releasing
    case Remove(_) => s.phase == Destroying
    case BeginTurn => s.rowExists && (s.live || s.handle.Some?)
    case Work => s.held > 0 && s.live
    case EndTurn => s.held > 0
    case DeleteRow => s.rowExists
    case CreateRow => !s.rowExists
  }

  function Apply(s: State, step: Step): State
    requires Enabled(s, step)
  {
    match step
    case Sweep(pending) => if pending > 0 || s.held > 0 then s else s.(phase := Snapshotting)
    case Commit => s.(phase := Committed, image := s.inside)
    case Upload => s.(phase := Persisted)
    case Record => s.(phase := Releasing, handle := Some(s.image))
    case FailSnapshot => s.(phase := Asking)
    case Asked(a) => s.(phase := if a == Absent then Destroying else Resting)
    case Release(ok) => s.(phase := Resting, live := s.live && !ok)
    case Remove(ok) => s.(phase := Resting, live := s.live && !ok, lost := s.lost || ok)
    case BeginTurn =>
      var up := if s.live then s else s.(live := true, inside := s.handle.value);
      up.(held := up.held + 1)
    case Work => s.(inside := s.inside + 1, made := s.made + 1)
    case EndTurn => s.(held := s.held - 1)
    case DeleteRow => s.(rowExists := false)
    case CreateRow =>
      s.(rowExists := true, live := true, inside := 0, image := 0, handle := None, made := 0, lost := false)
  }

  // Runs grow at their end: what a step does may depend on the steps before it.
  predicate Run(steps: seq<Step>)
    decreases |steps|, 0
  {
    steps == [] || (Run(steps[..|steps| - 1]) && Enabled(Final(steps[..|steps| - 1]), steps[|steps| - 1]))
  }

  function Final(steps: seq<Step>): State
    requires Run(steps)
    decreases |steps|, 1
  {
    if steps == [] then Init() else Apply(Final(steps[..|steps| - 1]), steps[|steps| - 1])
  }

  // Nothing of the session's work is lost: its container holds all of it, or the snapshot its row points at does.
  predicate Whole(s: State) {
    s.rowExists ==> !s.lost && if s.live then s.inside == s.made else s.handle == Some(s.made)
  }

  // ---- whom a sweep touches at all ----

  // How many turns were in flight, and events to flush, when the present sweep looked.
  function Looked(steps: seq<Step>): (nat, nat)
    requires Run(steps)
    decreases |steps|
  {
    if steps == [] then (0, 0)
    else
      var front := steps[..|steps| - 1];
      match steps[|steps| - 1]
      case Sweep(pending) => (Final(front).held, pending)
      case _ => Looked(front)
  }

  // However the run goes on: a snapshot is under way, or a container about to be removed, only if the sweep found no
  // turn in flight and nothing to flush when it looked; and where it finds neither, it begins.
  lemma {:induction false} SweepsOnlyTheIdle(steps: seq<Step>)
    requires Run(steps)
    ensures Final(steps).phase != Resting ==> Looked(steps) == (0, 0)
    ensures var s := Final(steps);
            s.phase == Resting && s.live ==>
              Enabled(s, Sweep(0)) && (Apply(s, Sweep(0)).phase == Snapshotting <==> s.held == 0)
    decreases |steps|
  {
    if steps != [] {
      SweepsOnlyTheIdle(steps[..|steps| - 1]);
    }
  }

  // ---- what happened before a release ----

  // Work done since the image was last committed, or the row created.
  function Uncommitted(steps: seq<Step>): nat
    decreases |steps|
  {
    if steps == [] then 0
    else
      var before := Uncommitted(steps[..|steps| - 1]);
      match steps[|steps| - 1]
      case Commit => 0
      case CreateRow => 0
      case Work => before + 1
      case _ => before
  }

  // The row was created since a handle was last recorded.
  predicate Renewed(steps: seq<Step>)
    decreases |steps|
  {
    if steps == [] then false
    else
      match steps[|steps| - 1]
      case Record => false
      case CreateRow => true
      case _ => Renewed(steps[..|steps| - 1])
  }

  // The step, after `before`, removes a container only where nothing was done in it since its snapshot was committed,
  // the snapshot is on the present row, or where there still is no row.
  predicate Safe(before: seq<Step>, step: Step)
    requires Run(before)
  {
    match step
    case Release(true) => Final(before).rowExists ==> Uncommitted(before) == 0 && !Renewed(before)
    case Remove(true) => !Final(before).rowExists
    case _ => true
  }

  // ---- the exact condition ----

  predicate Window(p: Phase) {
    p == Committed || p == Persisted || p == Releasing
  }

  // What a state says about the steps that led to it, while nothing is lost.
  predicate Consistent(s: State, uncommitted: nat, renewed: bool) {
    && (s.phase != Resting ==> s.live)
    && (s.rowExists && Window(s.phase) ==> s.image + uncommitted == s.made)
    && (s.rowExists && s.phase == Releasing ==> s.handle == if renewed then None else Some(s.image))
  }

  predicate HistoryOk(steps: seq<Step>)
    requires Run(steps)
  {
    Consistent(Final(steps), Uncommitted(steps), Renewed(steps))
  }

  lemma StepIsConsistent(steps: seq<Step>, step: Step)
    requires Run(steps) && HistoryOk(steps) && Whole(Final(steps)) && Enabled(Final(steps), step)
    ensures Run(steps + [step]) && HistoryOk(steps + [step]) && Final(steps + [step]) == Apply(Final(steps), step)
  {
    hide Enabled, Apply;
    assert (steps + [step])[..|steps|] == steps;
    ApplyIsConsistent(Final(steps), step, Uncommitted(steps), Renewed(steps));
  }

  lemma ApplyIsConsistent(s: State, step: Step, uncommitted: nat, renewed: bool)
    requires Consistent(s, uncommitted, renewed) && Whole(s) && Enabled(s, step)
    ensures Consistent(Apply(s, step),
                       if step == Commit || step == CreateRow then 0
                       else if step == Work then uncommitted + 1 else uncommitted,
                       if step == Record then false else if step == CreateRow then true else renewed)
  {
  }

  // In a state where nothing is lost, a step loses something exactly if it is an unsafe removal.
  lemma LossIsUnsafe(steps: seq<Step>, step: Step)
    requires Run(steps) && HistoryOk(steps) && Whole(Final(steps)) && Enabled(Final(steps), step)
    ensures Whole(Apply(Final(steps), step)) <==> Safe(steps, step)
  {
    hide Run, Final, Uncommitted, Renewed;
  }

  // Nothing is lost in any state of the run.
  predicate AlwaysWhole(steps: seq<Step>)
    requires Run(steps)
    decreases |steps|
  {
    Whole(Final(steps)) && (steps == [] || AlwaysWhole(steps[..|steps| - 1]))
  }

  // Every step of the run is safe.
  predicate AlwaysSafe(steps: seq<Step>)
    requires Run(steps)
    decreases |steps|
  {
    steps == [] || (AlwaysSafe(steps[..|steps| - 1]) && Safe(steps[..|steps| - 1], steps[|steps| - 1]))
  }

  // However sweeps, failures, turns, restores, deletions and re-creations interleave: a session that has a row never
  // loses work or artifacts exactly if every container was released with its whole work in a snapshot on its row, and
  // every orphan was still one when it was removed.
  lemma {:induction false} SweepsLoseNothingIff(steps: seq<Step>)
    requires Run(steps)
    ensures AlwaysWhole(steps) <==> AlwaysSafe(steps)
    ensures AlwaysWhole(steps) ==> HistoryOk(steps) && Whole(Final(steps))
    decreases |steps|
  {
    if steps != [] {
      var n := |steps| - 1;
      var front := steps[..n];
      SweepsLoseNothingIff(front);
      assert front + [steps[n]] == steps;
      RunUnfolds(steps);
      hide Run, Final, Safe, Whole, HistoryOk, Enabled, Apply;
      if AlwaysWhole(front) {
        StepIsConsistent(front, steps[n]);
        LossIsUnsafe(front, steps[n]);
      }
    }
  }

  lemma RunUnfolds(steps: seq<Step>)
    requires Run(steps) && steps != []
    ensures var n := |steps| - 1;
            Run(steps[..n]) && Enabled(Final(steps[..n]), steps[n]) &&
            Final(steps) == Apply(Final(steps[..n]), steps[n])
  {
  }

  // ---- a condition on the turns and creates alone ----

  // No turn works between the commit and the release of a sweep; and no row is created between the record and the
  // release, or between the answer that there is none and the removal.
  predicate Quiet(s: State, step: Step) {
    (step == Work ==> !Window(s.phase)) && (step == CreateRow ==> s.phase != Releasing && s.phase != Destroying)
  }

  predicate QuietRun(steps: seq<Step>)
    requires Run(steps)
    decreases |steps|
  {
    steps == [] || (QuietRun(steps[..|steps| - 1]) && Quiet(Final(steps[..|steps| - 1]), steps[|steps| - 1]))
  }

  predicate Settled(s: State, uncommitted: nat, renewed: bool) {
    (Window(s.phase) ==> uncommitted == 0) && (s.phase == Releasing ==> !renewed) &&
    (s.phase == Destroying ==> !s.rowExists)
  }

  lemma QuietStepSettles(steps: seq<Step>, step: Step)
    requires Run(steps) && Settled(Final(steps), Uncommitted(steps), Renewed(steps))
    requires Enabled(Final(steps), step) && Quiet(Final(steps), step)
    ensures Safe(steps, step) && Run(steps + [step])
    ensures Settled(Final(steps + [step]), Uncommitted(steps + [step]), Renewed(steps + [step]))
  {
    assert (steps + [step])[..|steps|] == steps;
  }

  lemma {:induction false} QuietRunIsSafe(steps: seq<Step>)
    requires Run(steps) && QuietRun(steps)
    ensures AlwaysSafe(steps) && Settled(Final(steps), Uncommitted(steps), Renewed(steps))
    decreases |steps|
  {
    if steps != [] {
      var n := |steps| - 1;
      var front := steps[..n];
      QuietRunIsSafe(front);
      assert front + [steps[n]] == steps;
      RunUnfolds(steps);
      hide Run, Final, Safe, Settled, Uncommitted, Renewed, Quiet, Enabled, Apply;
      QuietStepSettles(front, steps[n]);
    }
  }

  // In such a run no sweep ever costs a session work or artifacts.
  lemma SweepsLoseNothing(steps: seq<Step>)
    requires Run(steps) && QuietRun(steps)
    ensures AlwaysWhole(steps) && Whole(Final(steps))
  {
    hide Run, Final, AlwaysSafe, AlwaysWhole, Settled, Uncommitted, Renewed, Whole;
    QuietRunIsSafe(steps);
    SweepsLoseNothingIff(steps);
  }

  // ---- what is lost otherwise ----

  function Turn(now: bool): seq<Step> {
    if now then [BeginTurn, Work] else []
  }

  // A sweep of a session that has done nothing yet, and a turn after the commit, after the upload or after the record.
  function TurnInWindow(k: nat): seq<Step> {
    [CreateRow, Sweep(0), Commit] + Turn(k == 0) + [Upload] + Turn(k == 1) + [Record] + Turn(k == 2) + [Release(true)]
  }

  lemma Extend(steps: seq<Step>, step: Step)
    requires Run(steps) && Enabled(Final(steps), step)
    ensures Run(steps + [step]) && Final(steps + [step]) == Apply(Final(steps), step)
  {
    assert (steps + [step])[..|steps|] == steps;
  }

  lemma MaybeTurn(steps: seq<Step>, now: bool)
    requires Run(steps) && Final(steps).rowExists && Final(steps).live
    ensures Run(steps + Turn(now))
    ensures var s := Final(steps);
            Final(steps + Turn(now)) ==
            if now then s.(held := s.held + 1, inside := s.inside + 1, made := s.made + 1) else s
  {
    hide Run, Final;
    if now {
      Extend(steps, BeginTurn);
      Extend(steps + [BeginTurn], Work);
      assert steps + [BeginTurn] + [Work] == steps + Turn(now);
    } else {
      assert steps + Turn(now) == steps;
    }
  }

  // The check for a turn in flight comes before the snapshot, and nothing looks again: a turn that begins after the
  // commit, and works before the release, loses that work, wherever between the two it falls.
  lemma TurnDuringReleaseIsLost(k: nat)
    requires k <= 2
    ensures Run(TurnInWindow(k))
    ensures var t := Final(TurnInWindow(k)); t.rowExists && !t.live && t.made == 1 && t.handle == Some(0) && !Whole(t)
  {
    hide Run, Final;
    var r0 := [CreateRow, Sweep(0), Commit];
    CommittedRun();
    MaybeTurn(r0, k == 0);
    var r1 := r0 + Turn(k == 0);
    Extend(r1, Upload);
    MaybeTurn(r1 + [Upload], k == 1);
    var r2 := r1 + [Upload] + Turn(k == 1);
    Extend(r2, Record);
    MaybeTurn(r2 + [Record], k == 2);
    Extend(r2 + [Record] + Turn(k == 2), Release(true));
  }

  lemma CommittedRun()
    ensures Run([CreateRow, Sweep(0), Commit])
    ensures Final([CreateRow, Sweep(0), Commit]) == State(Committed, true, true, 0, 0, None, 0, 0, false)
  {
    hide Run, Final;
    EmptyRun();
    Extend([], CreateRow);
    assert [] + [CreateRow] == [CreateRow];
    Extend([CreateRow], Sweep(0));
    assert [CreateRow] + [Sweep(0)] == [CreateRow, Sweep(0)];
    Extend([CreateRow, Sweep(0)], Commit);
    assert [CreateRow, Sweep(0)] + [Commit] == [CreateRow, Sweep(0), Commit];
  }

  lemma EmptyRun()
    ensures Run([]) && Final([]) == Init()
  {
  }

  // The session is deleted during its snapshot, found to have no row, and created again before the removal: the sweep
  // removes the container the new session has worked in and marks its artifacts lost.
  function RecreatedInWindow(): seq<Step> {
    [CreateRow, Sweep(0), Commit] + [DeleteRow] + [FailSnapshot] + [Asked(Absent)] + [CreateRow] + Turn(true) +
    [Remove(true)]
  }

  lemma RecreatedRowIsDestroyed()
    ensures Run(RecreatedInWindow())
    ensures var t := Final(RecreatedInWindow());
            t.rowExists && !t.live && t.lost && t.made == 1 && t.handle == None && !Whole(t)
  {
    hide Run, Final;
    CommittedRun();
    var r0 := [CreateRow, Sweep(0), Commit];
    Extend(r0, DeleteRow);
    Extend(r0 + [DeleteRow], FailSnapshot);
    Extend(r0 + [DeleteRow] + [FailSnapshot], Asked(Absent));
    var r1 := r0 + [DeleteRow] + [FailSnapshot] + [Asked(Absent)];
    Extend(r1, CreateRow);
    MaybeTurn(r1 + [CreateRow], true);
    Extend(r1 + [CreateRow] + Turn(true), Remove(true));
  }

  // Deleted and created again between the record and the release: the new row points at no snapshot, and its container
  // is released.
  function RenewedInWindow(): seq<Step> {
    [CreateRow, Sweep(0), Commit] + [Upload] + [Record] + [DeleteRow] + [CreateRow] + [Release(true)]
  }

  lemma RenewedRowIsReleased()
    ensures Run(RenewedInWindow())
    ensures var t := Final(RenewedInWindow()); t.rowExists && !t.live && t.handle == None && !Whole(t)
  {
    hide Run, Final;
    CommittedRun();
    var r0 := [CreateRow, Sweep(0), Commit];
    Extend(r0, Upload);
    Extend(r0 + [Upload], Record);
    var r1 := r0 + [Upload] + [Record];
    Extend(r1, DeleteRow);
    Extend(r1 + [DeleteRow], CreateRow);
    Extend(r1 + [DeleteRow] + [CreateRow], Release(true));
  }

  // ---- the turns ----

  function Begins(steps: seq<Step>): nat {
    if steps == [] then 0 else Begins(steps[..|steps| - 1]) + if steps[|steps| - 1] == BeginTurn then 1 else 0
  }

  function Ends(steps: seq<Step>): nat {
    if steps == [] then 0 else Ends(steps[..|steps| - 1]) + if steps[|steps| - 1] == EndTurn then 1 else 0
  }

  // The turns in flight are those begun and not ended; and one begins in a running container: the one that was, with
  // all it holds, or one restored from the snapshot on the row.
  lemma {:induction false} TurnsInFlight(steps: seq<Step>)
    requires Run(steps)
    ensures Final(steps).held + Ends(steps) == Begins(steps)
    ensures var s := Final(steps);
            Enabled(s, BeginTurn) ==>
              var t := Apply(s, BeginTurn);
              t.live && t.inside == (if s.live then s.inside else s.handle.value) && t.held == s.held + 1
    decreases |steps|
  {
    if steps != [] {
      TurnsInFlight(steps[..|steps| - 1]);
    }
  }
}
