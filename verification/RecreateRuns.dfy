/**
 Runs in which an attempt begins too soon after another one of its session (go/runner.go): before the earlier create
 has finished, or before a Destroy has returned. Each shows that a condition of the theorems is needed.
 */
module RecreateRuns {
  import opened Text
  import opened RunnerState
  import opened CreateDestroy
  import opened RunPieces
  import opened CreateDestroyTheorems
  import opened Recreate

  // ---- while an earlier create is unfinished ----

  // The first create at Track, its container running.
  function AboutToTrack(sid: Sid): State {
    Init().(sh := Shared(map[sid := 0], {}, map[], map[]), nextGuard := 1, live := {0}, owner := map[0 := sid],
            nextInst := 1, creates := map[0 := Create(sid, 0, Track, Some(0))], created := map[sid := 0],
            attempts := map[sid := 1])
  }

  function CreateToTrack(sid: Sid): seq<Step> {
    [StartCreate(0, sid)] + FourQuiet(0) + [Quiet(0)]
  }

  lemma CreateToTrackRun(sid: Sid)
    ensures Run(Init(), CreateToTrack(sid)) && Final(Init(), CreateToTrack(sid)) == AboutToTrack(sid)
  {
    hide Run, Final, FourQuiet;
    var s1 := Apply(Init(), StartCreate(0, sid));
    OneStep(Init(), StartCreate(0, sid));
    UpToProvision(s1, 0);
    RunConcat(Init(), [StartCreate(0, sid)], FourQuiet(0));
    OneStep(Moved(s1, 0, Provision), Quiet(0));
    RunConcat(Init(), [StartCreate(0, sid)] + FourQuiet(0), [Quiet(0)]);
    assert Apply(Moved(s1, 0, Provision), Quiet(0)) == AboutToTrack(sid);
  }

  // The create is marked; whatever Destroy marked it has returned.
  function DeletedAt(sid: Sid, pc: CreatePc): State {
    AboutToTrack(sid).(sh := Shared(map[sid := 0], {0}, map[], map[]),
                       creates := map[0 := Create(sid, 0, pc, Some(0))],
                       destroys := map[0 := Destroyer(sid, Returned, 1)])
  }

  // A Destroy that finds nothing tracked, from mark to return.
  function Deletion(sid: Sid): seq<Step> {
    [StartDestroy(0, sid), DestroyStep(0, Done), DestroyStep(0, Done)]
  }

  lemma DeletionRun(sid: Sid)
    ensures Run(AboutToTrack(sid), Deletion(sid)) && Final(AboutToTrack(sid), Deletion(sid)) == DeletedAt(sid, Track)
  {
    hide Run, Final;
    var s0 := AboutToTrack(sid);
    var s1 := Apply(s0, StartDestroy(0, sid));
    ThreeSteps(s0, s1, Apply(s1, DestroyStep(0, Done)), StartDestroy(0, sid), DestroyStep(0, Done),
               DestroyStep(0, Done));
    assert Final(s0, Deletion(sid)) == DeletedAt(sid, Track);
  }

  // The second create, handed container 0.
  function AdoptingRetry(sid: Sid): seq<Step> {
    [MarkCreating(sid), StartCreate(1, sid)] + FourQuiet(1) + ([CreateStep(1, Adopt(0))] + FiveQuiet(1))
  }

  function Retried(sid: Sid, pc: CreatePc): State {
    DeletedAt(sid, pc).(
      sh := Shared(map[], {0}, map[sid := 0], map[sid := WORKER]), nextGuard := 3,
      creates := map[0 := Create(sid, 0, pc, Some(0)), 1 := Create(sid, 1, Finished, Some(0))],
      created := map[sid := 1], attempts := map[sid := 2])
  }

  // A second create of `sid`, thread 1 under guard 1, over whatever the first left.
  function Started(s: State, sid: Sid): State {
    s.(sh := s.sh.(creating := s.sh.creating[sid := 1]), nextGuard := 3,
       creates := s.creates[1 := Create(sid, 1, EarlyCheck, None)], created := s.created[sid := 1],
       attempts := s.attempts[sid := Attempts(s, sid) + 1])
  }

  lemma MarkAndStart(s: State, sid: Sid)
    requires s.nextGuard == 1 && 1 !in s.sh.abandoned && 1 !in s.creates
    ensures Run(s, [MarkCreating(sid), StartCreate(1, sid)])
    ensures Final(s, [MarkCreating(sid), StartCreate(1, sid)]) == Started(s, sid)
  {
    hide Run, Final;
    TwoSteps(s, Apply(s, MarkCreating(sid)), MarkCreating(sid), StartCreate(1, sid));
  }

  lemma AdoptingRetryRun(sid: Sid, pc: CreatePc)
    ensures Run(DeletedAt(sid, pc), AdoptingRetry(sid)) &&
            Final(DeletedAt(sid, pc), AdoptingRetry(sid)) == Retried(sid, pc)
  {
    hide Run, Final, FourQuiet, FiveQuiet;
    var s0 := DeletedAt(sid, pc);
    MarkAndStart(s0, sid);
    UpToProvision(Started(s0, sid), 1);
    RunConcat(s0, [MarkCreating(sid), StartCreate(1, sid)], FourQuiet(1));
    AdoptAndDeliver(sid, pc);
    RunConcat(s0, [MarkCreating(sid), StartCreate(1, sid)] + FourQuiet(1), [CreateStep(1, Adopt(0))] + FiveQuiet(1));
  }

  // The second create has been handed container 0 and has yet to track it.
  function Adopting(sid: Sid, pc: CreatePc): State {
    SetCreate(Started(DeletedAt(sid, pc), sid), 1, Create(sid, 1, Track, Some(0)))
  }

  lemma Adopts(sid: Sid, pc: CreatePc)
    ensures var s := Moved(Started(DeletedAt(sid, pc), sid), 1, Provision);
            Enabled(s, CreateStep(1, Adopt(0))) && Apply(s, CreateStep(1, Adopt(0))) == Adopting(sid, pc)
  {
  }

  lemma AdoptedDelivered(sid: Sid, pc: CreatePc)
    ensures At(Adopting(sid, pc), 1, Track) && Adopting(sid, pc).creates[1].inst.Some?
    ensures Delivered(Adopting(sid, pc), 1) == Retried(sid, pc)
  {
  }

  lemma AdoptAndDeliver(sid: Sid, pc: CreatePc)
    ensures var s := Moved(Started(DeletedAt(sid, pc), sid), 1, Provision);
            Run(s, [CreateStep(1, Adopt(0))] + FiveQuiet(1)) &&
            Final(s, [CreateStep(1, Adopt(0))] + FiveQuiet(1)) == Retried(sid, pc)
  {
    hide Run, Final, FiveQuiet, Apply, Enabled;
    var s3 := Moved(Started(DeletedAt(sid, pc), sid), 1, Provision);
    Adopts(sid, pc);
    OneStep(s3, CreateStep(1, Adopt(0)));
    var s4 := Adopting(sid, pc);
    AdoptedDelivered(sid, pc);
    hide Adopting, Delivered, Retried, Started, Moved, DeletedAt;
    FromTrack(s4, 1);
    RunConcat(s3, [CreateStep(1, Adopt(0))], FiveQuiet(1));
  }

  // The second attempt was delivered, nobody deleted it, every Destroy had returned before it began, no environment
  // call failed; and its container is gone.
  predicate DeliveredAndDestroyed(s: State, sid: Sid) {
    1 in s.creates && s.creates[1] == Create(sid, 1, Finished, Some(0)) && 1 !in s.sh.abandoned &&
    s.destroys == map[0 := Destroyer(sid, Returned, 1)] && s.live == {} && s.excused == {}
  }

  // Everything in the run keeps the creates apart, except that its retry begins while the first create is unfinished.
  predicate OnlyRetryOverlaps(before: seq<Step>, sid: Sid, after: seq<Step>) {
    ApartRun(Init(), before) && Run(Init(), before) && !NoCreateRunning(Final(Init(), before), sid) &&
    BeginsNothing(after)
  }

  // A run that begins one create in the initial state keeps its creates apart.
  lemma {:induction false} QuietRunIsApart(s: State, steps: seq<Step>)
    requires Run(s, steps) && BeginsNothing(steps)
    ensures ApartRun(s, steps)
    decreases |steps|
  {
    hide Apply, Enabled;
    if steps != [] {
      QuietRunIsApart(Apply(s, steps[0]), steps[1..]);
    }
  }

  lemma FirstCreateIsApart(sid: Sid, rest: seq<Step>)
    requires Run(Init(), [StartCreate(0, sid)] + rest) && BeginsNothing(rest)
    ensures ApartRun(Init(), [StartCreate(0, sid)] + rest)
  {
    var steps := [StartCreate(0, sid)] + rest;
    assert steps[0] == StartCreate(0, sid) && steps[1..] == rest;
    QuietRunIsApart(Apply(Init(), steps[0]), rest);
  }

  // ---- the successor begins after the check for a newer create ----

  // The first create tracked its container, saw the mark, passed the check for a newer create and is about to destroy.
  function DeletedMidCreate(sid: Sid): seq<Step> {
    CreateToTrack(sid) + DeleteDuring(sid)
  }

  function DeleteDuring(sid: Sid): seq<Step> {
    [Quiet(0), StartDestroy(0, sid)] + [Quiet(0), Quiet(0)] + [DestroyStep(0, Done), DestroyStep(0, Done)]
  }

  // Tracked or not, with the Destroy that marked it at its first step.
  function Marked(sid: Sid, pc: CreatePc, tracked: bool): State {
    DeletedAt(sid, pc).(
      sh := Shared(map[sid := 0], {0}, if tracked then map[sid := 0] else map[],
                   if tracked then map[sid := WORKER] else map[]),
      destroys := map[0 := Destroyer(sid, Get, 1)])
  }

  lemma DeleteDuringRun(sid: Sid)
    ensures Run(AboutToTrack(sid), DeleteDuring(sid)) &&
            Final(AboutToTrack(sid), DeleteDuring(sid)) == DeletedAt(sid, Reclaim)
  {
    hide Run, Final;
    var s0 := AboutToTrack(sid);
    TwoSteps(s0, Apply(s0, Quiet(0)), Quiet(0), StartDestroy(0, sid));
    MarkedStart(sid);
    MarkedRun(sid);
    RunConcat(s0, [Quiet(0), StartDestroy(0, sid)], [Quiet(0), Quiet(0)]);
    var s1 := Marked(sid, Reclaim, false);
    TwoSteps(s1, Apply(s1, DestroyStep(0, Done)), DestroyStep(0, Done), DestroyStep(0, Done));
    RunConcat(s0, [Quiet(0), StartDestroy(0, sid)] + [Quiet(0), Quiet(0)],
              [DestroyStep(0, Done), DestroyStep(0, Done)]);
  }

  lemma MarkedStart(sid: Sid)
    ensures Apply(Apply(AboutToTrack(sid), Quiet(0)), StartDestroy(0, sid)) == Marked(sid, TrackedCheck, true)
  {
  }

  lemma MarkedRun(sid: Sid)
    ensures Run(Marked(sid, TrackedCheck, true), [Quiet(0), Quiet(0)])
    ensures Final(Marked(sid, TrackedCheck, true), [Quiet(0), Quiet(0)]) == Marked(sid, Reclaim, false)
  {
    hide Run, Final;
    TwoSteps(Marked(sid, TrackedCheck, true), Marked(sid, Untrack, true), Quiet(0), Quiet(0));
  }

  lemma DeletedMidCreateRun(sid: Sid)
    ensures Run(Init(), DeletedMidCreate(sid)) && Final(Init(), DeletedMidCreate(sid)) == DeletedAt(sid, Reclaim)
    ensures ApartRun(Init(), DeletedMidCreate(sid))
  {
    hide Run, Final, DeleteDuring, AboutToTrack, DeletedAt, ApartRun;
    CreateToTrackRun(sid);
    DeleteDuringRun(sid);
    RunConcat(Init(), CreateToTrack(sid), DeleteDuring(sid));
    DeleteDuringBeginsNothing(sid);
    var rest := FourQuiet(0) + [Quiet(0)] + DeleteDuring(sid);
    assert [StartCreate(0, sid)] + rest == DeletedMidCreate(sid);
    FirstCreateIsApart(sid, rest);
  }

  lemma DeleteDuringBeginsNothing(sid: Sid)
    ensures BeginsNothing(FourQuiet(0) + [Quiet(0)] + DeleteDuring(sid))
  {
  }

  // The environment hands the second attempt the first one's container. The first attempt checked for a newer create
  // before the second was marked, and destroys the container after the second has been delivered.
  lemma AdoptedContainerDestroyed(sid: Sid)
    ensures OnlyRetryOverlaps(DeletedMidCreate(sid), sid,
                              FourQuiet(1) + ([CreateStep(1, Adopt(0))] + FiveQuiet(1)) + [Quiet(0)])
    ensures var steps := DeletedMidCreate(sid) + AdoptingRetry(sid) + [Quiet(0)];
            Run(Init(), steps) && DeliveredAndDestroyed(Final(Init(), steps), sid)
  {
    hide Run, Final, ApartRun, DeletedMidCreate;
    DeletedMidCreateRun(sid);
    AdoptingRetryRun(sid, Reclaim);
    RunConcat(Init(), DeletedMidCreate(sid), AdoptingRetry(sid));
    OneStep(Retried(sid, Reclaim), Quiet(0));
    RunConcat(Init(), DeletedMidCreate(sid) + AdoptingRetry(sid), [Quiet(0)]);
    assert DeletedAt(sid, Reclaim).creates[0].pc == Reclaim;
  }

  // ---- the successor is over before the check for a newer create ----

  // The first create is marked before it tracks its container.
  function DeletedBeforeTrack(sid: Sid): seq<Step> {
    CreateToTrack(sid) + Deletion(sid)
  }

  lemma DeletedBeforeTrackRun(sid: Sid)
    ensures Run(Init(), DeletedBeforeTrack(sid)) && Final(Init(), DeletedBeforeTrack(sid)) == DeletedAt(sid, Track)
    ensures ApartRun(Init(), DeletedBeforeTrack(sid))
  {
    hide Run, Final, AboutToTrack, DeletedAt, ApartRun;
    CreateToTrackRun(sid);
    DeletionRun(sid);
    RunConcat(Init(), CreateToTrack(sid), Deletion(sid));
    var rest := FourQuiet(0) + [Quiet(0)] + Deletion(sid);
    assert [StartCreate(0, sid)] + rest == DeletedBeforeTrack(sid);
    FirstCreateIsApart(sid, rest);
  }

  // Tracking again changes nothing; the mark sends it to abandonCreate.
  lemma LateMove(sid: Sid, pc: CreatePc)
    requires pc == Track || pc == TrackedCheck
    ensures Enabled(Retried(sid, pc), Quiet(0))
    ensures Apply(Retried(sid, pc), Quiet(0)) == Retried(sid, if pc == Track then TrackedCheck else Untrack)
  {
  }

  lemma LateTrackChecks(sid: Sid)
    ensures Run(Retried(sid, Track), [Quiet(0), Quiet(0)])
    ensures Final(Retried(sid, Track), [Quiet(0), Quiet(0)]) == Retried(sid, Untrack)
  {
    hide Run, Final, Apply, Enabled, Retried;
    LateMove(sid, Track);
    LateMove(sid, TrackedCheck);
    TwoSteps(Retried(sid, Track), Retried(sid, TrackedCheck), Quiet(0), Quiet(0));
  }

  lemma LateReclaim(sid: Sid)
    ensures Run(Retried(sid, Untrack), [Quiet(0), Quiet(0)])
    ensures DeliveredAndDestroyed(Final(Retried(sid, Untrack), [Quiet(0), Quiet(0)]), sid)
  {
    hide Run, Final;
    var s2 := Retried(sid, Untrack);
    TwoSteps(s2, Apply(s2, Quiet(0)), Quiet(0), Quiet(0));
  }

  lemma LateTrackRun(sid: Sid)
    ensures Run(Retried(sid, Track), [Quiet(0), Quiet(0)] + [Quiet(0), Quiet(0)])
    ensures DeliveredAndDestroyed(Final(Retried(sid, Track), [Quiet(0), Quiet(0)] + [Quiet(0), Quiet(0)]), sid)
  {
    hide Run, Final, Retried, DeliveredAndDestroyed;
    LateTrackChecks(sid);
    LateReclaim(sid);
    RunConcat(Retried(sid, Track), [Quiet(0), Quiet(0)], [Quiet(0), Quiet(0)]);
  }

  // The second attempt was delivered and its guard deregistered before the first one looked: it sees no newer create,
  // takes the shared container for its own and destroys it.
  lemma FinishedSuccessorDestroyed(sid: Sid)
    ensures OnlyRetryOverlaps(DeletedBeforeTrack(sid), sid,
                              FourQuiet(1) + ([CreateStep(1, Adopt(0))] + FiveQuiet(1)) +
                              ([Quiet(0), Quiet(0)] + [Quiet(0), Quiet(0)]))
    ensures var steps := DeletedBeforeTrack(sid) + AdoptingRetry(sid) + ([Quiet(0), Quiet(0)] + [Quiet(0), Quiet(0)]);
            Run(Init(), steps) && DeliveredAndDestroyed(Final(Init(), steps), sid)
  {
    hide Run, Final, ApartRun, DeletedBeforeTrack, DeliveredAndDestroyed;
    DeletedBeforeTrackRun(sid);
    AdoptingRetryRun(sid, Track);
    RunConcat(Init(), DeletedBeforeTrack(sid), AdoptingRetry(sid));
    LateTrackRun(sid);
    RunConcat(Init(), DeletedBeforeTrack(sid) + AdoptingRetry(sid), [Quiet(0), Quiet(0)] + [Quiet(0), Quiet(0)]);
    assert DeletedAt(sid, Track).creates[0].pc == Track;
  }

  // ---- one create, one Destroy, one container ----

  // A Destroy that finds the container tracked, and the create that sees its mark.
  function BothReach(sid: Sid): seq<Step> {
    CreateToTrack(sid) + ([Quiet(0), StartDestroy(0, sid)] + [DestroyStep(0, Done), DestroyStep(0, Done)] +
                          [Quiet(0), Quiet(0)])
  }

  // Tracked, with the Destroy past its lookup.
  function LookedUp(sid: Sid, pc: CreatePc, tracked: bool): State {
    Marked(sid, pc, tracked).(destroys := map[0 := Destroyer(sid, EnvDestroy(0), 1)])
  }

  lemma LookupsRun(sid: Sid)
    ensures var steps := [DestroyStep(0, Done), DestroyStep(0, Done)];
            Run(Marked(sid, TrackedCheck, true), steps) &&
            Final(Marked(sid, TrackedCheck, true), steps) == LookedUp(sid, TrackedCheck, true)
  {
    hide Run, Final;
    var s := Marked(sid, TrackedCheck, true);
    TwoSteps(s, Apply(s, DestroyStep(0, Done)), DestroyStep(0, Done), DestroyStep(0, Done));
  }

  lemma ChecksRun(sid: Sid)
    ensures Run(LookedUp(sid, TrackedCheck, true), [Quiet(0), Quiet(0)])
    ensures Final(LookedUp(sid, TrackedCheck, true), [Quiet(0), Quiet(0)]) == LookedUp(sid, Reclaim, false)
  {
    hide Run, Final;
    TwoSteps(LookedUp(sid, TrackedCheck, true), LookedUp(sid, Untrack, true), Quiet(0), Quiet(0));
  }

  // Both of them go on to destroy it: abandonCreate destroys its container whether or not it was still tracked.
  lemma BothDestroy(sid: Sid)
    ensures Run(Init(), BothReach(sid))
    ensures var s := Final(Init(), BothReach(sid));
            0 in s.creates && s.creates[0] == Create(sid, 0, Reclaim, Some(0)) &&
            s.destroys == map[0 := Destroyer(sid, EnvDestroy(0), 1)] && s.live == {0}
  {
    hide Run, Final, CreateToTrack;
    CreateToTrackRun(sid);
    var s0 := AboutToTrack(sid);
    TwoSteps(s0, Apply(s0, Quiet(0)), Quiet(0), StartDestroy(0, sid));
    MarkedStart(sid);
    LookupsRun(sid);
    ChecksRun(sid);
    hide AboutToTrack, Marked, LookedUp;
    RunConcat(s0, [Quiet(0), StartDestroy(0, sid)], [DestroyStep(0, Done), DestroyStep(0, Done)]);
    RunConcat(s0, [Quiet(0), StartDestroy(0, sid)] + [DestroyStep(0, Done), DestroyStep(0, Done)],
              [Quiet(0), Quiet(0)]);
    RunConcat(Init(), CreateToTrack(sid),
              [Quiet(0), StartDestroy(0, sid)] + [DestroyStep(0, Done), DestroyStep(0, Done)] + [Quiet(0), Quiet(0)]);
    assert Final(Init(), BothReach(sid)) == LookedUp(sid, Reclaim, false);
    BothAtIt(sid);
  }

  lemma BothAtIt(sid: Sid)
    ensures var s := LookedUp(sid, Reclaim, false);
            0 in s.creates && s.creates[0] == Create(sid, 0, Reclaim, Some(0)) &&
            s.destroys == map[0 := Destroyer(sid, EnvDestroy(0), 1)] && s.live == {0}
  {
  }

  // ---- while a Destroy is in flight ----

  // The session was created and is being destroyed: its container is gone, the tracking entry is not.
  function DestroyedNotForgotten(sid: Sid): seq<Step> {
    [StartCreate(0, sid)] + CreateAll(0) + [StartDestroy(0, sid), DestroyStep(0, Done)] +
    [DestroyStep(0, Done), DestroyStep(0, Done)]
  }

  function AboutToForget(sid: Sid): State {
    Init().(sh := Shared(map[], {}, map[sid := 0], map[sid := WORKER]), nextGuard := 1, owner := map[0 := sid],
            nextInst := 1, creates := map[0 := Create(sid, 0, Finished, Some(0))], created := map[sid := 0],
            attempts := map[sid := 1], destroys := map[0 := Destroyer(sid, Forget, 1)])
  }

  lemma DestroyedNotForgottenRun(sid: Sid)
    ensures Run(Init(), DestroyedNotForgotten(sid))
    ensures Final(Init(), DestroyedNotForgotten(sid)) == AboutToForget(sid)
  {
    hide Run, Final;
    var s1 := Apply(Init(), StartCreate(0, sid));
    OneStep(Init(), StartCreate(0, sid));
    UninterruptedRun(s1, 0);
    RunConcat(Init(), [StartCreate(0, sid)], CreateAll(0));
    var s2 := Delivered(Provisioned(s1, 0), 0);
    var s3 := Apply(s2, StartDestroy(0, sid));
    TwoSteps(s2, s3, StartDestroy(0, sid), DestroyStep(0, Done));
    RunConcat(Init(), [StartCreate(0, sid)] + CreateAll(0), [StartDestroy(0, sid), DestroyStep(0, Done)]);
    var s4 := Apply(s3, DestroyStep(0, Done));
    var s5 := Apply(s4, DestroyStep(0, Done));
    TwoSteps(s4, s5, DestroyStep(0, Done), DestroyStep(0, Done));
    RunConcat(Init(), [StartCreate(0, sid)] + CreateAll(0) + [StartDestroy(0, sid), DestroyStep(0, Done)],
              [DestroyStep(0, Done), DestroyStep(0, Done)]);
    assert Apply(s5, DestroyStep(0, Done)) == AboutToForget(sid);
  }

  function RecreateThenForget(sid: Sid): seq<Step> {
    [MarkCreating(sid), StartCreate(1, sid)] + CreateAll(1) + [DestroyStep(0, Done)]
  }

  // The second attempt, delivered, over whatever tracking entry `entry` says it has.
  function SecondDelivered(sid: Sid, entry: Shared<nat>, u: Destroyer): State {
    State(entry, 3, {1}, map[0 := sid, 1 := sid], 2,
          map[0 := Create(sid, 0, Finished, Some(0)), 1 := Create(sid, 1, Finished, Some(1))],
          map[sid := 1], map[sid := 2], map[0 := u], {})
  }

  function Tracked1(sid: Sid): State {
    SecondDelivered(sid, Shared(map[], {}, map[sid := 1], map[sid := WORKER]), Destroyer(sid, Forget, 1))
  }

  function Untracked1(sid: Sid): State {
    SecondDelivered(sid, Shared(map[], {}, map[], map[]), Destroyer(sid, Returned, 1))
  }

  lemma RecreatedIs(sid: Sid)
    ensures var m := Started(AboutToForget(sid), sid);
            At(m, 1, EarlyCheck) && NoneLive(m, m.creates[1].sid) && Provisioned(m, 1).creates[1].inst.Some? &&
            Delivered(Provisioned(m, 1), 1) == Tracked1(sid)
  {
  }

  lemma StartsAgain(sid: Sid)
    ensures var s := AboutToForget(sid); s.nextGuard == 1 && 1 !in s.sh.abandoned && 1 !in s.creates
  {
  }

  lemma RecreateRun(sid: Sid)
    ensures Run(AboutToForget(sid), [MarkCreating(sid), StartCreate(1, sid)] + CreateAll(1))
    ensures Final(AboutToForget(sid), [MarkCreating(sid), StartCreate(1, sid)] + CreateAll(1)) == Tracked1(sid)
  {
    hide Run, Final, CreateAll, AboutToForget, Started, Tracked1, Delivered, Provisioned, NoneLive;
    var s0 := AboutToForget(sid);
    StartsAgain(sid);
    MarkAndStart(s0, sid);
    RecreatedIs(sid);
    UninterruptedRun(Started(s0, sid), 1);
    RunConcat(s0, [MarkCreating(sid), StartCreate(1, sid)], CreateAll(1));
  }

  lemma RecreateThenForgetRun(sid: Sid)
    ensures Run(AboutToForget(sid), RecreateThenForget(sid))
    ensures Final(AboutToForget(sid), RecreateThenForget(sid)) == Untracked1(sid)
  {
    hide Run, Final, CreateAll, AboutToForget;
    RecreateRun(sid);
    OneStep(Tracked1(sid), DestroyStep(0, Done));
    assert Apply(Tracked1(sid), DestroyStep(0, Done)) == Untracked1(sid);
    RunConcat(AboutToForget(sid), [MarkCreating(sid), StartCreate(1, sid)] + CreateAll(1), [DestroyStep(0, Done)]);
  }

  lemma {:induction false} QuietRunIsDisciplined(s: State, steps: seq<Step>)
    requires Run(s, steps) && BeginsNothing(steps)
    ensures DisciplinedRun(s, steps)
    decreases |steps|
  {
    hide Apply, Enabled;
    if steps != [] {
      QuietRunIsDisciplined(Apply(s, steps[0]), steps[1..]);
    }
  }

  lemma FirstCreateIsDisciplined(sid: Sid, rest: seq<Step>)
    requires Run(Init(), [StartCreate(0, sid)] + rest) && BeginsNothing(rest)
    ensures DisciplinedRun(Init(), [StartCreate(0, sid)] + rest)
  {
    var steps := [StartCreate(0, sid)] + rest;
    assert steps[0] == StartCreate(0, sid) && steps[1..] == rest;
    QuietRunIsDisciplined(Apply(Init(), steps[0]), rest);
  }

  lemma DestroyedNotForgottenDisciplined(sid: Sid)
    ensures DisciplinedRun(Init(), DestroyedNotForgotten(sid))
    ensures OnlyDestroyInFlight(AboutToForget(sid), sid)
  {
    DestroyedNotForgottenRun(sid);
    hide Run, DisciplinedRun, Final;
    var rest :=
      CreateAll(0) + [StartDestroy(0, sid), DestroyStep(0, Done)] + [DestroyStep(0, Done), DestroyStep(0, Done)];
    QuietStepsBeginNothing(0);
    assert [StartCreate(0, sid)] + rest == DestroyedNotForgotten(sid);
    hide CreateAll;
    FirstCreateIsDisciplined(sid, rest);
    assert 0 in AboutToForget(sid).destroys;
  }

  // Disciplined but for that Destroy in flight when the second attempt begins: the last step of the Destroy lands after
  // the attempt has tracked its container. A live container of an attempt nobody deleted is left untracked, although
  // every call has returned successfully.
  lemma LateForgetUntracksRecreate(sid: Sid)
    ensures DisciplinedRun(Init(), DestroyedNotForgotten(sid)) && Run(Init(), DestroyedNotForgotten(sid))
    ensures OnlyDestroyInFlight(Final(Init(), DestroyedNotForgotten(sid)), sid)
    ensures BeginsNothing(CreateAll(1) + [DestroyStep(0, Done)])
    ensures var steps := DestroyedNotForgotten(sid) + RecreateThenForget(sid);
            Run(Init(), steps) &&
            var s := Final(Init(), steps);
            AllReturned(s, sid) && 1 in s.creates && s.creates[1] == Create(sid, 1, Finished, Some(1)) &&
            s.sh.abandoned == {} && s.live == {1} && sid !in s.sh.instances && s.excused == {}
  {
    hide Run, DisciplinedRun, OnlyDestroyInFlight, Final, DestroyedNotForgotten, RecreateThenForget, AboutToForget;
    DestroyedNotForgottenDisciplined(sid);
    QuietStepsBeginNothing(1);
    DestroyedNotForgottenRun(sid);
    RecreateThenForgetRun(sid);
    RunConcat(Init(), DestroyedNotForgotten(sid), RecreateThenForget(sid));
  }
}
