/**
 A session that is deleted and created again (go/runner.go): what the previous attempt can and cannot do to the
 next one. Nothing here restricts how creates, destroys and MarkCreating calls interleave.
 */
module Recreate {
  import opened Text
  import opened RunnerState
  import opened CreateDestroy
  import opened CreateDestroyTheorems
  import opened RunPieces

  // ---- the next attempt's guard ----

  // Guard numbers are below the counter, so the next one is new.
  predicate GuardsBelow(s: State) {
    && (forall sid :: sid in s.sh.creating ==> s.sh.creating[sid] < s.nextGuard)
    && (forall g :: g in s.sh.abandoned ==> g < s.nextGuard)
    && (forall t :: t in s.creates ==> s.creates[t].guard < s.nextGuard)
  }

  // What a create's step does to guards: only the end of a create takes one away, its own.
  predicate GuardsAfter(s: State, s': State, c: Create) {
    s'.nextGuard == s.nextGuard && s'.sh.abandoned == s.sh.abandoned &&
    (c.pc == Leaving ==> s'.sh == WithoutGuard(s.sh, c.sid, c.guard)) &&
    (c.pc != Leaving ==> s'.sh.creating == s.sh.creating)
  }

  lemma LockedBlocksGuards(sh: Shared<nat>, sid: Sid, g: nat, inst: Inst)
    ensures Tracked(sh, sid, WORKER, inst).creating == sh.creating &&
            Tracked(sh, sid, WORKER, inst).abandoned == sh.abandoned
    ensures Untracked(sh, sid, g, inst).creating == sh.creating && Untracked(sh, sid, g, inst).abandoned == sh.abandoned
    ensures WithoutGuard(sh, sid, g).abandoned == sh.abandoned
  {
    hide NewerCreate;
  }

  lemma EffectGuards(s: State, c: Create, o: Outcome)
    ensures GuardsAfter(s, CreateEffect(s, c, o), c)
  {
    match c.pc
    case Leaving => LockedBlocksGuards(s.sh, c.sid, c.guard, 0);
    case Track => TrackGuards(s, c, o);
    case Untrack => TrackGuards(s, c, o);
    case Provision =>
    case Reclaim =>
    case _ => assert CreateEffect(s, c, o) == s;
  }

  lemma TrackGuards(s: State, c: Create, o: Outcome)
    requires c.pc == Track || c.pc == Untrack
    ensures GuardsAfter(s, CreateEffect(s, c, o), c)
  {
    hide Tracked, Untracked, WithoutGuard;
    if c.inst.Some? {
      LockedBlocksGuards(s.sh, c.sid, c.guard, c.inst.value);
    }
  }

  lemma CreateStepGuards(s: State, t: Tid, o: Outcome)
    requires Enabled(s, CreateStep(t, o))
    ensures GuardsAfter(s, StepCreate(s, t, o), s.creates[t])
  {
    hide CreateEffect, NextPc, NextInst, NoneLive, NewerCreate, WithoutGuard;
    EffectGuards(s, s.creates[t], o);
  }

  lemma CreateStepThread(s: State, t: Tid, o: Outcome)
    requires Enabled(s, CreateStep(t, o))
    ensures var s', c := StepCreate(s, t, o), s.creates[t];
            t in s'.creates && s'.creates == s.creates[t := s'.creates[t]] &&
            s'.creates[t].guard == c.guard && s'.creates[t].sid == c.sid &&
            (c.pc == Leaving ==> s'.creates[t].pc == Finished)
  {
    hide Tracked, Untracked, WithoutGuard, NewerCreate, NoneLive;
  }

  lemma StepKeepsGuards(s: State, step: Step)
    requires GuardsBelow(s) && Enabled(s, step)
    ensures GuardsBelow(Apply(s, step))
  {
    hide StepCreate, StepDestroy, NoneLive;
    match step
    case CreateStep(t, o) =>
      CreateStepGuards(s, t, o);
      CreateStepThread(s, t, o);
    case DestroyStep(t, o) => DestroyStepGuards(s, t, o);
    case _ =>
  }

  lemma {:induction false} RunKeepsGuards(s: State, steps: seq<Step>)
    requires GuardsBelow(s) && Run(s, steps)
    ensures GuardsBelow(Final(s, steps))
    decreases |steps|
  {
    hide Apply, GuardsBelow;
    if steps != [] {
      StepKeepsGuards(s, steps[0]);
      RunKeepsGuards(Apply(s, steps[0]), steps[1..]);
    }
  }

  // A create that runs under guard `g` has finished.
  predicate GuardDone(s: State, g: nat) {
    exists t :: t in s.creates && s.creates[t].guard == g && s.creates[t].pc == Finished
  }

  // Guard `g` of an attempt on `sid`: unabandoned, and registered until a create under it has finished.
  predicate AttemptOk(s: State, sid: Sid, g: nat) {
    && g < s.nextGuard && g !in s.sh.abandoned
    && (forall x :: x in s.sh.creating && s.sh.creating[x] == g ==> x == sid)
    && (forall t :: t in s.creates && s.creates[t].guard == g ==> s.creates[t].sid == sid)
    && ((sid in s.sh.creating && s.sh.creating[sid] == g) || GuardDone(s, g))
  }

  // Any step but another MarkCreating or a Destroy of this very session.
  predicate Unrelated(step: Step, sid: Sid) {
    match step
    case MarkCreating(x) => x != sid
    case StartDestroy(_, x) => x != sid
    case _ => true
  }

  lemma GuardDoneStays(s: State, step: Step, g: nat)
    requires Enabled(s, step) && GuardDone(s, g)
    ensures GuardDone(Apply(s, step), g)
  {
    var t :| t in s.creates && s.creates[t].guard == g && s.creates[t].pc == Finished;
    hide StepCreate, NoneLive;
    if step.CreateStep? {
      CreateStepThread(s, step.t, step.outcome);
    }
    assert t in Apply(s, step).creates && Apply(s, step).creates[t] == s.creates[t];
  }

  lemma CreateStepKeepsAttempt(s: State, t: Tid, o: Outcome, sid: Sid, g: nat)
    requires Enabled(s, CreateStep(t, o)) && AttemptOk(s, sid, g)
    ensures AttemptOk(StepCreate(s, t, o), sid, g)
  {
    hide StepCreate, GuardDone;
    CreateStepGuards(s, t, o);
    CreateStepThread(s, t, o);
    var s' := StepCreate(s, t, o);
    if GuardDone(s, g) {
      GuardDoneStays(s, CreateStep(t, o), g);
    } else if s.creates[t].pc == Leaving && s.creates[t].guard == g {
      FinishedIsDone(s', t, g);
    }
  }

  lemma FinishedIsDone(s: State, t: Tid, g: nat)
    requires t in s.creates && s.creates[t].guard == g && s.creates[t].pc == Finished
    ensures GuardDone(s, g)
  {
  }

  lemma DestroyStepGuards(s: State, t: Tid, o: Outcome)
    requires Enabled(s, DestroyStep(t, o))
    ensures var s' := StepDestroy(s, t, o);
            s'.creates == s.creates && s'.nextGuard == s.nextGuard && s'.sh.creating == s.sh.creating &&
            s'.sh.abandoned == s.sh.abandoned
  {
    hide NextDestroyPc;
  }

  lemma DestroyStepKeepsAttempt(s: State, t: Tid, o: Outcome, sid: Sid, g: nat)
    requires Enabled(s, DestroyStep(t, o)) && AttemptOk(s, sid, g)
    ensures AttemptOk(StepDestroy(s, t, o), sid, g)
  {
    hide GuardDone, StepDestroy;
    DestroyStepGuards(s, t, o);
    if GuardDone(s, g) {
      GuardDoneStays(s, DestroyStep(t, o), g);
    }
  }

  lemma StepKeepsAttempt(s: State, step: Step, sid: Sid, g: nat)
    requires Enabled(s, step) && Unrelated(step, sid) && AttemptOk(s, sid, g)
    ensures AttemptOk(Apply(s, step), sid, g)
  {
    hide StepCreate, StepDestroy, GuardDone;
    match step
    case CreateStep(t, o) => CreateStepKeepsAttempt(s, t, o, sid, g);
    case DestroyStep(t, o) => DestroyStepKeepsAttempt(s, t, o, sid, g);
    case _ =>
      if GuardDone(s, g) {
        GuardDoneStays(s, step, g);
      }
  }

  lemma {:induction false} RunKeepsAttempt(s: State, steps: seq<Step>, sid: Sid, g: nat)
    requires Run(s, steps) && AttemptOk(s, sid, g) && forall i :: 0 <= i < |steps| ==> Unrelated(steps[i], sid)
    ensures AttemptOk(Final(s, steps), sid, g)
    decreases |steps|
  {
    hide Apply, AttemptOk;
    if steps != [] {
      StepKeepsAttempt(s, steps[0], sid, g);
      RunKeepsAttempt(Apply(s, steps[0]), steps[1..], sid, g);
    }
  }

  // An attempt started by MarkCreating, after any history at all: until the session is destroyed or marked again,
  // its guard is never abandoned, and nothing but the end of a create running under it takes it out of the register.
  lemma FreshAttempt(before: seq<Step>, sid: Sid, after: seq<Step>)
    requires Run(Init(), before)
    requires Run(Apply(Final(Init(), before), MarkCreating(sid)), after)
    requires forall i :: 0 <= i < |after| ==> Unrelated(after[i], sid)
    ensures var s0 := Final(Init(), before);
            AttemptOk(Final(Apply(s0, MarkCreating(sid)), after), sid, s0.nextGuard)
  {
    hide Run, Final, AttemptOk;
    RunKeepsGuards(Init(), before);
    var s0 := Final(Init(), before);
    MarkStartsAttempt(s0, sid);
    RunKeepsAttempt(Apply(s0, MarkCreating(sid)), after, sid, s0.nextGuard);
  }

  lemma MarkStartsAttempt(s: State, sid: Sid)
    requires GuardsBelow(s)
    ensures AttemptOk(Apply(s, MarkCreating(sid)), sid, s.nextGuard)
  {
    var s' := Apply(s, MarkCreating(sid));
    assert s'.sh.creating[sid] == s.nextGuard;
  }

  // ---- containers carry their session's label ----

  predicate HasLabel(s: State, i: Inst, sid: Sid) {
    i in s.owner && s.owner[i] == sid
  }

  predicate HeldOk(s: State, d: Destroyer) {
    d.pc.Lookup? || d.pc.EnvDestroy? ==> HasLabel(s, d.pc.inst, d.sid)
  }

  predicate CreateLabelled(s: State, c: Create) {
    c.inst.Some? ==> HasLabel(s, c.inst.value, c.sid)
  }

  // Whatever a create, a Destroy or a tracking entry of a session refers to is a container of that session.
  predicate Labelled(s: State) {
    && (forall i :: i in s.owner ==> i < s.nextInst)
    && (forall i :: i in s.live ==> i in s.owner)
    && (forall t :: t in s.creates ==> CreateLabelled(s, s.creates[t]))
    && (forall x :: x in s.sh.instances ==> HasLabel(s, s.sh.instances[x], x))
    && (forall t :: t in s.destroys ==> HeldOk(s, s.destroys[t]))
  }

  predicate LabelsStay(s: State, s': State) {
    forall i :: i in s.owner ==> i in s'.owner && s'.owner[i] == s.owner[i]
  }

  lemma CreateStepLabels(s: State, t: Tid, o: Outcome)
    requires Labelled(s) && Enabled(s, CreateStep(t, o))
    ensures var s' := StepCreate(s, t, o);
            LabelsStay(s, s') && t in s'.creates && CreateLabelled(s', s'.creates[t]) &&
            (forall i :: i in s'.owner ==> i < s'.nextInst) && (forall i :: i in s'.live ==> i in s'.owner)
  {
    hide NextPc, HeldOk, Tracked, Untracked, WithoutGuard, NoneLive;
    assert CreateLabelled(s, s.creates[t]);
  }

  lemma CreateStepTracks(s: State, t: Tid, o: Outcome)
    requires Labelled(s) && Enabled(s, CreateStep(t, o))
    ensures var s' := StepCreate(s, t, o);
            forall x :: x in s'.sh.instances ==> HasLabel(s', s'.sh.instances[x], x)
  {
    hide NextPc, HeldOk, NewerCreate, NoneLive;
    assert CreateLabelled(s, s.creates[t]);
  }

  lemma CreateStepKeepsLabels(s: State, t: Tid, o: Outcome)
    requires Labelled(s) && Enabled(s, CreateStep(t, o))
    ensures Labelled(StepCreate(s, t, o))
  {
    hide StepCreate, NoneLive;
    CreateStepLabels(s, t, o);
    CreateStepTracks(s, t, o);
    CreateStepThread(s, t, o);
    CreateStepDestroys(s, t, o);
  }

  lemma CreateStepDestroys(s: State, t: Tid, o: Outcome)
    requires Enabled(s, CreateStep(t, o))
    ensures StepCreate(s, t, o).destroys == s.destroys
  {
    hide NextPc, NoneLive, Tracked, Untracked, WithoutGuard;
  }

  lemma DestroyStepKeepsLabels(s: State, t: Tid, o: Outcome)
    requires Labelled(s) && Enabled(s, DestroyStep(t, o))
    ensures Labelled(StepDestroy(s, t, o))
  {
    assert HeldOk(s, s.destroys[t]);
  }

  lemma StepKeepsLabels(s: State, step: Step)
    requires Labelled(s) && Enabled(s, step)
    ensures Labelled(Apply(s, step))
  {
    hide StepCreate, StepDestroy, NoneLive;
    match step
    case CreateStep(t, o) => CreateStepKeepsLabels(s, t, o);
    case DestroyStep(t, o) => DestroyStepKeepsLabels(s, t, o);
    case _ =>
  }

  lemma {:induction false} RunKeepsLabels(s: State, steps: seq<Step>)
    requires Labelled(s) && Run(s, steps)
    ensures Labelled(Final(s, steps))
    decreases |steps|
  {
    hide Apply, Labelled;
    if steps != [] {
      StepKeepsLabels(s, steps[0]);
      RunKeepsLabels(Apply(s, steps[0]), steps[1..]);
    }
  }

  // ---- what abandonCreate may touch ----

  predicate Abandoning(s: State, t: Tid) {
    t in s.creates && (s.creates[t].pc == Untrack || s.creates[t].pc == Reclaim)
  }

  // After any run at all, a step of an abandonCreate leaves the containers and the tracking entries of every other
  // session as they are, and untracks its own session's only where they name the container it is about to destroy.
  lemma AbandonSparesOthers(steps: seq<Step>, t: Tid, o: Outcome)
    requires Run(Init(), steps)
    requires var s := Final(Init(), steps); Abandoning(s, t) && Enabled(s, CreateStep(t, o))
    ensures var s := Final(Init(), steps);
            var s', c := StepCreate(s, t, o), s.creates[t];
            s'.live <= s.live &&
            (forall i :: i in s.live && i !in s'.live ==> HasLabel(s, i, c.sid) && c.inst == Some(i)) &&
            (forall x :: x in s.sh.instances && x !in s'.sh.instances ==>
               x == c.sid && c.inst == Some(s.sh.instances[x])) &&
            (forall x :: x in s'.sh.instances ==> x in s.sh.instances && s'.sh.instances[x] == s.sh.instances[x])
  {
    hide Run, Final;
    RunKeepsLabels(Init(), steps);
    assert CreateLabelled(Final(Init(), steps), Final(Init(), steps).creates[t]);
  }

  // ---- creates of one session one after the other ----

  // No attempt on a session begins while a create of it is unfinished. Destroys may begin and overlap at any time.
  predicate Apart(s: State, step: Step) {
    match step
    case MarkCreating(sid) => NoCreateRunning(s, sid)
    case StartCreate(_, sid) => NoCreateRunning(s, sid)
    case _ => true
  }

  predicate ApartRun(s: State, steps: seq<Step>)
    decreases |steps|
  {
    steps == [] || (Enabled(s, steps[0]) && Apart(s, steps[0]) && ApartRun(Apply(s, steps[0]), steps[1..]))
  }

  // A running create is its session's last, and the registered guard is its own; in abandonCreate, the guard is marked.
  predicate RunningOk(s: State, t: Tid) {
    t in s.creates && s.creates[t].pc != Finished ==>
      IsLast(s, t) && s.creates[t].sid in s.sh.creating && s.sh.creating[s.creates[t].sid] == s.creates[t].guard &&
      (Abandoning(s, t) ==> s.creates[t].guard in s.sh.abandoned)
  }

  predicate AllRunningOk(s: State) {
    forall t :: t in s.creates ==> RunningOk(s, t)
  }

  lemma CreateStepAbandons(s: State, t: Tid, o: Outcome)
    requires Enabled(s, CreateStep(t, o)) && RunningOk(s, t)
    ensures Abandoning(StepCreate(s, t, o), t) ==> s.creates[t].guard in s.sh.abandoned
  {
    hide CreateEffect, NoneLive, NewerCreate;
  }

  lemma CreateStepCreated(s: State, t: Tid, o: Outcome)
    requires Enabled(s, CreateStep(t, o))
    ensures StepCreate(s, t, o).created == s.created
  {
    hide NextPc, NoneLive, Tracked, Untracked, WithoutGuard;
  }

  lemma CreateStepRunningOk(s: State, t: Tid, o: Outcome)
    requires AllRunningOk(s) && Enabled(s, CreateStep(t, o))
    ensures AllRunningOk(StepCreate(s, t, o))
  {
    hide StepCreate, NoneLive;
    CreateStepGuards(s, t, o);
    CreateStepThread(s, t, o);
    CreateStepCreated(s, t, o);
    assert RunningOk(s, t);
    CreateStepAbandons(s, t, o);
    var s' := StepCreate(s, t, o);
    forall u | u in s'.creates ensures RunningOk(s', u) {
      assert RunningOk(s, u);
    }
  }

  lemma DestroyStepRunningOk(s: State, t: Tid, o: Outcome)
    requires AllRunningOk(s) && Enabled(s, DestroyStep(t, o))
    ensures AllRunningOk(StepDestroy(s, t, o))
  {
    var s' := StepDestroy(s, t, o);
    forall u | u in s'.creates ensures RunningOk(s', u) {
      assert RunningOk(s, u);
    }
  }

  lemma StartsRunningOk(s: State, step: Step)
    requires AllRunningOk(s) && Enabled(s, step) && Apart(s, step) && !step.CreateStep? && !step.DestroyStep?
    ensures AllRunningOk(Apply(s, step))
  {
    hide NoneLive;
    var s' := Apply(s, step);
    forall u | u in s'.creates ensures RunningOk(s', u) {
      assert u in s.creates ==> RunningOk(s, u);
    }
  }

  lemma StepRunningOk(s: State, step: Step)
    requires AllRunningOk(s) && Enabled(s, step) && Apart(s, step)
    ensures AllRunningOk(Apply(s, step))
  {
    hide StepCreate, StepDestroy, AllRunningOk, NoneLive, Apart;
    match step
    case CreateStep(t, o) => CreateStepRunningOk(s, t, o);
    case DestroyStep(t, o) => DestroyStepRunningOk(s, t, o);
    case _ => StartsRunningOk(s, step);
  }

  lemma {:induction false} ApartRunRunningOk(s: State, steps: seq<Step>)
    requires AllRunningOk(s) && ApartRun(s, steps)
    ensures Run(s, steps) && AllRunningOk(Final(s, steps))
    decreases |steps|
  {
    hide Apply, AllRunningOk, Apart, Enabled;
    if steps != [] {
      StepRunningOk(s, steps[0]);
      ApartRunRunningOk(Apply(s, steps[0]), steps[1..]);
    }
  }

  // Then abandonCreate only ever runs for its session's newest attempt, after a Destroy has marked that attempt's
  // registered guard; every other create of the session has finished.
  lemma AbandonIsNewestMarked(steps: seq<Step>, t: Tid)
    requires ApartRun(Init(), steps)
    ensures Run(Init(), steps)
    ensures var s := Final(Init(), steps);
            Abandoning(s, t) ==>
              var c := s.creates[t];
              IsLast(s, t) && c.sid in s.sh.creating && s.sh.creating[c.sid] == c.guard && c.guard in s.sh.abandoned &&
              forall u :: u in s.creates && s.creates[u].sid == c.sid && u != t ==> s.creates[u].pc == Finished
  {
    hide Run, ApartRun, Final;
    ApartRunRunningOk(Init(), steps);
    var s := Final(Init(), steps);
    forall u | Abandoning(s, t) && u in s.creates && s.creates[u].sid == s.creates[t].sid && u != t
      ensures s.creates[u].pc == Finished
    {
      assert RunningOk(s, u) && RunningOk(s, t);
    }
  }

  // ---- a delivered attempt keeps its container ----

  // The last create of `sid` has ended, leaving container `i` running.
  predicate DeliveredAt(s: State, sid: Sid, i: Inst) {
    && sid in s.created && s.created[sid] in s.creates && i in s.live && sid !in s.sh.creating
    && var c := s.creates[s.created[sid]];
       c.sid == sid && c.pc == Finished && c.inst == Some(i)
  }

  // No Destroy of `sid` begins, and none removes container `i`.
  predicate LeavesAlone(s: State, step: Step, sid: Sid, i: Inst) {
    match step
    case StartDestroy(_, x) => x != sid
    case DestroyStep(t, _) => t in s.destroys ==> s.destroys[t].pc != EnvDestroy(i)
    case _ => true
  }

  predicate LeavesAloneRun(s: State, steps: seq<Step>, sid: Sid, i: Inst)
    decreases |steps|
  {
    steps == [] ||
    (Enabled(s, steps[0]) && LeavesAlone(s, steps[0], sid, i) && LeavesAloneRun(Apply(s, steps[0]), steps[1..], sid, i))
  }

  // Container `i` of `sid` runs, and no create of the session means to remove it or ever will.
  predicate Kept(s: State, sid: Sid, i: Inst) {
    && i in s.live && HasLabel(s, i, sid)
    && (sid in s.sh.creating ==> s.sh.creating[sid] !in s.sh.abandoned)
  }

  // No guard is registered for two sessions.
  predicate GuardsApart(s: State) {
    forall x, y :: x in s.sh.creating && y in s.sh.creating && x != y ==> s.sh.creating[x] != s.sh.creating[y]
  }

  lemma StepKeepsGuardsApart(s: State, step: Step)
    requires GuardsBelow(s) && GuardsApart(s) && Enabled(s, step)
    ensures GuardsApart(Apply(s, step))
  {
    hide StepCreate, StepDestroy, NoneLive;
    match step
    case CreateStep(t, o) => CreateStepGuards(s, t, o);
    case DestroyStep(t, o) => DestroyStepGuards(s, t, o);
    case _ =>
  }

  predicate Background(s: State) {
    Labelled(s) && AllRunningOk(s) && GuardsBelow(s) && GuardsApart(s)
  }

  lemma StepBackground(s: State, step: Step)
    requires Background(s) && Enabled(s, step) && Apart(s, step)
    ensures Background(Apply(s, step))
  {
    hide Labelled, AllRunningOk, GuardsBelow, GuardsApart, Apply, Apart, Enabled;
    StepKeepsLabels(s, step);
    StepRunningOk(s, step);
    StepKeepsGuards(s, step);
    StepKeepsGuardsApart(s, step);
  }

  lemma {:induction false} RunBackground(s: State, steps: seq<Step>)
    requires Background(s) && ApartRun(s, steps)
    ensures Run(s, steps) && Background(Final(s, steps))
    decreases |steps|
  {
    hide Apply, Background, Apart, Enabled;
    if steps != [] {
      StepBackground(s, steps[0]);
      RunBackground(Apply(s, steps[0]), steps[1..]);
    }
  }

  // A create takes away only the container it holds, in abandonCreate.
  lemma CreateStepRemoves(s: State, t: Tid, o: Outcome, i: Inst)
    requires Enabled(s, CreateStep(t, o)) && i in s.live && i !in StepCreate(s, t, o).live
    ensures s.creates[t].pc == Reclaim && s.creates[t].inst == Some(i)
  {
    hide NextPc, NoneLive, Tracked, Untracked, WithoutGuard;
  }

  lemma CreateStepKept(s: State, t: Tid, o: Outcome, sid: Sid, i: Inst)
    requires Background(s) && Kept(s, sid, i) && Enabled(s, CreateStep(t, o))
    ensures Kept(StepCreate(s, t, o), sid, i)
  {
    hide StepCreate, NoneLive, GuardsBelow, HeldOk;
    CreateStepLabels(s, t, o);
    CreateStepGuards(s, t, o);
    assert RunningOk(s, t) && CreateLabelled(s, s.creates[t]);
    if i !in StepCreate(s, t, o).live {
      CreateStepRemoves(s, t, o, i);
    }
  }

  lemma DestroyStepKept(s: State, t: Tid, o: Outcome, sid: Sid, i: Inst)
    requires Kept(s, sid, i) && Enabled(s, DestroyStep(t, o)) && LeavesAlone(s, DestroyStep(t, o), sid, i)
    ensures Kept(StepDestroy(s, t, o), sid, i)
  {
  }

  lemma StartsKept(s: State, step: Step, sid: Sid, i: Inst)
    requires GuardsBelow(s) && GuardsApart(s) && Kept(s, sid, i) && Enabled(s, step) && LeavesAlone(s, step, sid, i)
    requires !step.CreateStep? && !step.DestroyStep?
    ensures Kept(Apply(s, step), sid, i)
  {
    hide NoneLive;
  }

  lemma StepKept(s: State, step: Step, sid: Sid, i: Inst)
    requires Background(s) && Kept(s, sid, i) && Enabled(s, step) && LeavesAlone(s, step, sid, i)
    ensures Kept(Apply(s, step), sid, i)
  {
    hide StepCreate, StepDestroy, Kept, LeavesAlone, NoneLive, Labelled, AllRunningOk, GuardsBelow, GuardsApart;
    match step
    case CreateStep(t, o) => CreateStepKept(s, t, o, sid, i);
    case DestroyStep(t, o) => DestroyStepKept(s, t, o, sid, i);
    case _ => StartsKept(s, step, sid, i);
  }

  lemma {:induction false} RunKept(s: State, steps: seq<Step>, sid: Sid, i: Inst)
    requires Background(s) && Kept(s, sid, i) && ApartRun(s, steps) && LeavesAloneRun(s, steps, sid, i)
    ensures Run(s, steps) && Kept(Final(s, steps), sid, i)
    decreases |steps|
  {
    hide Apply, Background, Kept, LeavesAlone, Apart, Enabled;
    if steps != [] {
      StepBackground(s, steps[0]);
      StepKept(s, steps[0], sid, i);
      RunKept(Apply(s, steps[0]), steps[1..], sid, i);
    }
  }

  lemma DeliveredIsKept(s: State, sid: Sid, i: Inst)
    requires Background(s) && DeliveredAt(s, sid, i)
    ensures Kept(s, sid, i)
  {
    hide GuardsBelow, GuardsApart, AllRunningOk;
    assert CreateLabelled(s, s.creates[s.created[sid]]);
  }

  // Whether the attempt provisioned its container or was handed an existing one, and whatever creates and Destroys of
  // whatever sessions came before or come after: where the creates of one session follow one another, the container a
  // delivered attempt was left with runs until a Destroy of the session begins or removes it.
  lemma DeliveredKeepsContainer(before: seq<Step>, more: seq<Step>, sid: Sid, i: Inst)
    requires ApartRun(Init(), before)
    ensures Run(Init(), before)
    ensures var s := Final(Init(), before);
            DeliveredAt(s, sid, i) && ApartRun(s, more) && LeavesAloneRun(s, more, sid, i) ==>
              Run(s, more) && i in Final(s, more).live && HasLabel(Final(s, more), i, sid)
  {
    hide Run, ApartRun, Final, LeavesAloneRun, DeliveredAt, Background;
    InitBackground();
    RunBackground(Init(), before);
    var s := Final(Init(), before);
    if DeliveredAt(s, sid, i) && ApartRun(s, more) && LeavesAloneRun(s, more, sid, i) {
      DeliveredIsKept(s, sid, i);
      RunKept(s, more, sid, i);
    }
  }

  lemma InitBackground()
    ensures Background(Init())
  {
  }

  // The step that ends a session's create leaves it so delivered, if its container is running.
  lemma EndingDelivers(steps: seq<Step>, t: Tid, o: Outcome)
    requires ApartRun(Init(), steps)
    ensures Run(Init(), steps)
    ensures var s := Final(Init(), steps);
            Enabled(s, CreateStep(t, o)) && s.creates[t].pc == Leaving && s.creates[t].inst.Some? &&
            s.creates[t].inst.value in s.live ==>
              DeliveredAt(StepCreate(s, t, o), s.creates[t].sid, s.creates[t].inst.value)
  {
    hide Run, ApartRun, Final;
    ApartRunRunningOk(Init(), steps);
    var s := Final(Init(), steps);
    assert t in s.creates ==> RunningOk(s, t);
  }
}
