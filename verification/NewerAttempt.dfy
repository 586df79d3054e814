/**
 What an abandoned create owes a newer attempt of its session (go/runner.go): nothing here keeps the two apart, and the
 environment may have handed both the same container.
 */
module NewerAttempt {
  import opened Text
  import opened RunnerState
  import opened CreateDestroy
  import opened Recreate

  // The session's registered guard is another one than `g`, and no Destroy has marked it.
  predicate Superseded(s: State, sid: Sid, g: nat) {
    sid in s.sh.creating && s.sh.creating[sid] != g && s.sh.creating[sid] !in s.sh.abandoned
  }

  lemma UntrackedIs(s: State, sid: Sid, g: nat, inst: Inst)
    ensures var sh' := Untracked(s.sh, sid, g, inst);
            NewerCreate(s.sh, sid, g) == Superseded(s, sid, g) &&
            (Superseded(s, sid, g) || sid !in s.sh.instances || s.sh.instances[sid] != inst ==> sh' == s.sh) &&
            (!Superseded(s, sid, g) && sid in s.sh.instances && s.sh.instances[sid] == inst ==>
               sh' == s.sh.(instances := s.sh.instances - {sid}, workers := s.sh.workers - {sid}))
  {
  }

  // The locked block of abandonCreate, in any state: with a newer unmarked guard registered it changes nothing and the
  // create leaves; otherwise it goes on to destroy its container, untracked first where it is the tracked one.
  lemma UntrackDecides(s: State, t: Tid, o: Outcome)
    requires Enabled(s, CreateStep(t, o)) && s.creates[t].pc == Untrack
    ensures var s', c := StepCreate(s, t, o), s.creates[t];
            var tracked := c.sid in s.sh.instances && c.inst == Some(s.sh.instances[c.sid]);
            s'.live == s.live && s'.sh.creating == s.sh.creating && s'.sh.abandoned == s.sh.abandoned &&
            (Superseded(s, c.sid, c.guard) ==> s'.sh == s.sh && s'.creates[t].pc == Leaving) &&
            (!Superseded(s, c.sid, c.guard) ==>
               s'.creates[t].pc == Reclaim &&
               s'.sh.instances == (if tracked then s.sh.instances - {c.sid} else s.sh.instances) &&
               s'.sh.workers == if tracked then s.sh.workers - {c.sid} else s.sh.workers)
  {
    hide NoneLive, Untracked, Superseded, NewerCreate;
    var c := s.creates[t];
    UntrackedIs(s, c.sid, c.guard, if c.inst.Some? then c.inst.value else 0);
  }

  // ---- over runs ----

  // The create has been through its locked block, or will not enter it.
  predicate PastUntrack(s: State, t: Tid) {
    t in s.creates && (s.creates[t].pc == Leaving || s.creates[t].pc == Finished)
  }

  // In every state of the run, until the create is past its locked block, its session has a newer unmarked guard.
  predicate SupersededUntilPast(s: State, steps: seq<Step>, t: Tid)
    requires t in s.creates && Run(s, steps)
    decreases |steps|
  {
    (PastUntrack(s, t) || Superseded(s, s.creates[t].sid, s.creates[t].guard)) &&
    (steps == [] ||
     (CreateStays(s, steps[0], t); SupersededUntilPast(Apply(s, steps[0]), steps[1..], t)))
  }

  lemma CreateStays(s: State, step: Step, t: Tid)
    requires t in s.creates && Enabled(s, step)
    ensures t in Apply(s, step).creates
    ensures Apply(s, step).creates[t].sid == s.creates[t].sid && Apply(s, step).creates[t].guard == s.creates[t].guard
  {
    hide StepCreate, NoneLive;
    if step.CreateStep? {
      CreateStepThread(s, step.t, step.outcome);
    }
  }

  // No step of the create takes a running container away or a tracking entry out.
  predicate TakesNothing(s: State, steps: seq<Step>, t: Tid)
    requires Run(s, steps)
    decreases |steps|
  {
    steps == [] ||
    (var s' := Apply(s, steps[0]);
     (steps[0].CreateStep? && steps[0].t == t ==>
        s.live <= s'.live && s.sh.instances.Keys <= s'.sh.instances.Keys) &&
     TakesNothing(s', steps[1..], t))
  }

  // A create's step takes something away only in abandonCreate.
  lemma StepTakes(s: State, t: Tid, o: Outcome)
    requires Enabled(s, CreateStep(t, o))
    ensures var s', pc := StepCreate(s, t, o), s.creates[t].pc;
            (pc != Reclaim ==> s.live <= s'.live) &&
            (pc != Untrack ==> s.sh.instances.Keys <= s'.sh.instances.Keys)
  {
    hide NextPc, NextInst, NoneLive, NewerCreate;
  }

  // It comes to Reclaim only from Untrack, where no newer unmarked guard is registered.
  lemma StepToReclaim(s: State, t: Tid, o: Outcome)
    requires Enabled(s, CreateStep(t, o)) && s.creates[t].pc != Reclaim
    requires PastUntrack(s, t) || Superseded(s, s.creates[t].sid, s.creates[t].guard)
    ensures var s' := StepCreate(s, t, o);
            t in s'.creates && s'.creates[t].pc != Reclaim &&
            (s.creates[t].pc == Untrack ==> s'.sh == s.sh)
  {
    hide NoneLive, Tracked, WithoutGuard;
  }

  // A create that has not begun to destroy its container never does, and takes no tracking entry out, if its session
  // has a newer unmarked guard from now until it is past its locked block.
  lemma {:induction false} SparesWhileSuperseded(s: State, steps: seq<Step>, t: Tid)
    requires t in s.creates && Run(s, steps) && s.creates[t].pc != Reclaim && SupersededUntilPast(s, steps, t)
    ensures TakesNothing(s, steps, t)
    decreases |steps|
  {
    hide Apply, Enabled, Superseded;
    if steps != [] {
      CreateStays(s, steps[0], t);
      if steps[0].CreateStep? && steps[0].t == t {
        OwnStep(s, t, steps[0].outcome);
      } else {
        StepOfAnother(s, steps[0], t);
      }
      SparesWhileSuperseded(Apply(s, steps[0]), steps[1..], t);
    }
  }

  lemma StepOfAnother(s: State, step: Step, t: Tid)
    requires t in s.creates && Enabled(s, step) && !(step.CreateStep? && step.t == t)
    ensures t in Apply(s, step).creates && Apply(s, step).creates[t] == s.creates[t]
  {
    hide StepCreate, StepDestroy, NoneLive;
    match step
    case CreateStep(u, o) => CreateStepThread(s, u, o);
    case DestroyStep(u, o) => DestroyStepGuards(s, u, o);
    case _ =>
  }

  lemma OwnStep(s: State, t: Tid, o: Outcome)
    requires Enabled(s, CreateStep(t, o)) && s.creates[t].pc != Reclaim
    requires PastUntrack(s, t) || Superseded(s, s.creates[t].sid, s.creates[t].guard)
    ensures var s' := Apply(s, CreateStep(t, o));
            t in s'.creates && s'.creates[t].pc != Reclaim && s.live <= s'.live &&
            s.sh.instances.Keys <= s'.sh.instances.Keys
  {
    hide StepCreate, NoneLive, Superseded;
    StepTakes(s, t, o);
    StepToReclaim(s, t, o);
  }

  // ---- an attempt that MarkCreating has begun ----

  // No create under guard `g` finishes before the create is past its locked block.
  predicate UnfinishedUntilPast(s: State, steps: seq<Step>, t: Tid, g: nat)
    requires Run(s, steps)
    decreases |steps|
  {
    (PastUntrack(s, t) || !GuardDone(s, g)) &&
    (steps == [] || UnfinishedUntilPast(Apply(s, steps[0]), steps[1..], t, g))
  }

  lemma {:induction false} AttemptSupersedes(s: State, steps: seq<Step>, t: Tid, g: nat)
    requires t in s.creates && s.creates[t].guard != g && Run(s, steps) && AttemptOk(s, s.creates[t].sid, g)
    requires forall i :: 0 <= i < |steps| ==> Unrelated(steps[i], s.creates[t].sid)
    requires UnfinishedUntilPast(s, steps, t, g)
    ensures SupersededUntilPast(s, steps, t)
    decreases |steps|
  {
    hide Apply, Enabled, GuardDone, Unrelated;
    if steps != [] {
      CreateStays(s, steps[0], t);
      StepKeepsAttempt(s, steps[0], s.creates[t].sid, g);
      hide AttemptOk;
      AttemptSupersedes(Apply(s, steps[0]), steps[1..], t, g);
    }
  }

  lemma GuardIsOld(s: State, t: Tid)
    requires GuardsBelow(s) && t in s.creates
    ensures s.creates[t].guard != s.nextGuard
  {
  }

  lemma MarkTouchesNoCreate(s: State, sid: Sid)
    ensures Apply(s, MarkCreating(sid)).creates == s.creates
  {
  }

  // After any history: an attempt that MarkCreating begins while an earlier create of the session has not yet begun to
  // destroy its container, and that is neither deleted nor finished before that create is past its locked block, loses
  // nothing to it, even if both hold the same container.
  lemma FreshAttemptIsSpared(before: seq<Step>, sid: Sid, after: seq<Step>, t: Tid)
    requires Run(Init(), before)
    requires var s0 := Final(Init(), before); t in s0.creates && s0.creates[t].sid == sid && s0.creates[t].pc != Reclaim
    requires Run(Apply(Final(Init(), before), MarkCreating(sid)), after)
    requires forall i :: 0 <= i < |after| ==> Unrelated(after[i], sid)
    requires UnfinishedUntilPast(Apply(Final(Init(), before), MarkCreating(sid)), after, t,
                                 Final(Init(), before).nextGuard)
    ensures TakesNothing(Apply(Final(Init(), before), MarkCreating(sid)), after, t)
  {
    hide Run, Final, AttemptOk, Apply, GuardsBelow, UnfinishedUntilPast, SupersededUntilPast, TakesNothing;
    InitGuards();
    RunKeepsGuards(Init(), before);
    var s0 := Final(Init(), before);
    GuardIsOld(s0, t);
    MarkTouchesNoCreate(s0, sid);
    MarkStartsAttempt(s0, sid);
    AttemptSupersedes(Apply(s0, MarkCreating(sid)), after, t, s0.nextGuard);
    SparesWhileSuperseded(Apply(s0, MarkCreating(sid)), after, t);
  }

  lemma InitGuards()
    ensures GuardsBelow(Init())
  {
  }
}
