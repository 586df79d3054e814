/** What the create/destroy protocol guarantees over whole runs, and the interleavings it does not cover. */
module CreateDestroyTheorems {
  import opened Text
  import opened RunnerState
  import opened CreateDestroy
  import opened RunPieces

  lemma InitInv()
    ensures Inv(Init())
  {
  }

  // However often a session is created and destroyed: in every state a disciplined run reaches, a live container is
  // tracked, or its create has yet to track it, or its create is still obliged to destroy it, or an Env.Destroy has
  // already failed on it.
  lemma LiveContainerIsAnsweredFor(steps: seq<Step>, i: Inst)
    requires DisciplinedRun(Init(), steps)
    ensures Run(Init(), steps)
    ensures var s := Final(Init(), steps);
            i in s.live ==>
              i in s.owner && s.owner[i] in s.created && s.created[s.owner[i]] in s.creates &&
              var sid, c := s.owner[i], s.creates[s.created[s.owner[i]]];
              c.sid == sid && c.inst == Some(i) &&
              ((sid in s.sh.instances && s.sh.instances[sid] == i) || c.pc == Track || Obliged(s, c) || i in s.excused)
  {
    hide Run, DisciplinedRun, Final;
    InitInv();
    RunKeeps(Init(), steps);
    var s := Final(Init(), steps);
    if i in s.live {
      InvLive(s, i);
    }
  }

  lemma InvLive(s: State, i: Inst)
    requires Inv(s) && i in s.live
    ensures i in s.owner && s.owner[i] in s.created && s.created[s.owner[i]] in s.creates
    ensures var sid, c := s.owner[i], s.creates[s.created[s.owner[i]]];
            c.sid == sid && c.inst == Some(i) &&
            ((sid in s.sh.instances && s.sh.instances[sid] == i) || c.pc == Track || Obliged(s, c) || i in s.excused)
  {
    hide DestroysOk, PairsOk;
    assert LiveOk(s, i);
    var t := s.created[s.owner[i]];
    assert IsLast(s, t);
    assert CreateOk(s, s.creates[t]);
  }

  predicate AllReturned(s: State, sid: Sid) {
    (forall t :: t in s.creates && s.creates[t].sid == sid ==> s.creates[t].pc == Finished) &&
    (forall u :: u in s.destroys && s.destroys[u].sid == sid ==> s.destroys[u].pc.Returned? || s.destroys[u].pc.Failed?)
  }

  // Once every create and every Destroy of a session have returned, and a Destroy that began in its last attempt
  // succeeded, no container with the session's label is running, except one an Env.Destroy failed on or whose worker
  // had left the fleet.
  lemma NoOrphanContainer(steps: seq<Step>, sid: Sid, u: Tid)
    requires DisciplinedRun(Init(), steps)
    ensures Run(Init(), steps)
    ensures var s := Final(Init(), steps);
            AllReturned(s, sid) && Succeeded(s, sid, u) ==>
              forall i :: i in s.live && i in s.owner && s.owner[i] == sid ==> i in s.excused
  {
    hide Run, DisciplinedRun, Final;
    InitInv();
    RunKeeps(Init(), steps);
    hide Inv, AllReturned, Succeeded;
    var s := Final(Init(), steps);
    if AllReturned(s, sid) && Succeeded(s, sid, u) {
      forall i | i in s.live && i in s.owner && s.owner[i] == sid ensures i in s.excused {
        ReturnedMeansExcused(s, sid, u, i);
      }
    }
  }

  // A Destroy of the session's last attempt that returned without an error.
  predicate Succeeded(s: State, sid: Sid, u: Tid) {
    u in s.destroys && s.destroys[u] == Destroyer(sid, Returned, Attempts(s, sid))
  }

  lemma ReturnedMeansExcused(s: State, sid: Sid, u: Tid, i: Inst)
    requires Inv(s) && AllReturned(s, sid) && Succeeded(s, sid, u) && i in s.live && i in s.owner && s.owner[i] == sid
    ensures i in s.excused
  {
    hide Inv;
    InvLive(s, i);
    InvPair(s, s.created[sid], u);
  }

  lemma InvPair(s: State, t: Tid, u: Tid)
    requires Inv(s) && IsLast(s, t) && u in s.destroys && s.creates[t].sid == s.destroys[u].sid
    requires Current(s, s.destroys[u])
    ensures PairOk(s, s.creates[t], s.destroys[u])
  {
    hide ThreadsOk, CreatesOk, DestroysOk, WorldOk;
  }

  // ---- why no Destroy may be in flight when an attempt begins ----

  // An attempt on the session could begin here, but for a Destroy of it that is in flight.
  predicate OnlyDestroyInFlight(s: State, sid: Sid) {
    NoCreateRunning(s, sid) && NoneLive(s, sid) && !NoDestroyRunning(s, sid)
  }

  // Nothing in the run begins an attempt.
  predicate BeginsNothing(steps: seq<Step>) {
    forall k :: 0 <= k < |steps| ==> !steps[k].MarkCreating? && !steps[k].StartCreate?
  }

  // A Destroy finds no container to destroy and no guard to mark; then the create runs; then the Destroy forgets the
  // container that arrived meanwhile.
  function EarlyDestroy(sid: Sid): seq<Step> {
    EarlyDestroyStart(sid) + ([StartCreate(0, sid)] + AfterEarlyDestroy())
  }

  function EarlyDestroyStart(sid: Sid): seq<Step> {
    [StartDestroy(0, sid), DestroyStep(0, Done)]
  }

  function AfterEarlyDestroy(): seq<Step> {
    CreateAll(0) + [DestroyStep(0, Done)]
  }

  function AboutToForgetNothing(sid: Sid): State {
    Init().(destroys := map[0 := Destroyer(sid, Forget, 0)])
  }

  lemma EarlyDestroyPrefix(sid: Sid)
    ensures Run(Init(), EarlyDestroyStart(sid)) && Final(Init(), EarlyDestroyStart(sid)) == AboutToForgetNothing(sid)
    ensures OnlyDestroyInFlight(AboutToForgetNothing(sid), sid)
  {
    hide Run, Final;
    TwoSteps(Init(), Apply(Init(), StartDestroy(0, sid)), StartDestroy(0, sid), DestroyStep(0, Done));
    assert 0 in AboutToForgetNothing(sid).destroys;
  }

  lemma QuietStepsBeginNothing(t: Tid)
    ensures BeginsNothing(CreateAll(t))
  {
  }

  // Disciplined but for that, everything in the run returns successfully, and the container is left running with no
  // tracking entry and no failure to explain it.
  lemma EarlyDestroyLeaks(sid: Sid)
    ensures Run(Init(), EarlyDestroyStart(sid)) && OnlyDestroyInFlight(Final(Init(), EarlyDestroyStart(sid)), sid)
    ensures BeginsNothing(EarlyDestroyStart(sid)) && BeginsNothing(AfterEarlyDestroy())
    ensures Run(Init(), EarlyDestroy(sid))
    ensures var s := Final(Init(), EarlyDestroy(sid));
            AllReturned(s, sid) && s.destroys == map[0 := Destroyer(sid, Returned, 0)] &&
            s.live == {0} && s.owner == map[0 := sid] && sid !in s.sh.instances && s.excused == {}
  {
    hide Run, Final, StepCreate, OnlyDestroyInFlight;
    EarlyDestroyPrefix(sid);
    QuietStepsBeginNothing(0);
    var s0 := AboutToForgetNothing(sid);
    var s := Apply(s0, StartCreate(0, sid));
    OneStep(s0, StartCreate(0, sid));
    UninterruptedRun(s, 0);
    OneStep(Delivered(Provisioned(s, 0), 0), DestroyStep(0, Done));
    RunConcat(s, CreateAll(0), [DestroyStep(0, Done)]);
    RunConcat(s0, [StartCreate(0, sid)], AfterEarlyDestroy());
    RunConcat(Init(), EarlyDestroyStart(sid), [StartCreate(0, sid)] + AfterEarlyDestroy());
  }

  // ---- excuses ----

  predicate NoFailure(step: Step) {
    match step
    case CreateStep(_, o) => o != Fail
    case DestroyStep(_, o) => o != Fail
    case _ => true
  }

  // A container is excused only by a failed environment call.
  lemma {:induction false} ExcuseNeedsFailure(s: State, steps: seq<Step>)
    requires Run(s, steps) && forall i :: 0 <= i < |steps| ==> NoFailure(steps[i])
    ensures Final(s, steps).excused == s.excused
    decreases |steps|
  {
    if steps != [] {
      ExcuseNeedsFailure(Apply(s, steps[0]), steps[1..]);
    }
  }

  // ---- how a create and a Destroy get on ----

  // How many steps of its own a create has left at most.
  function StepsLeft(pc: CreatePc): nat {
    match pc
    case EarlyCheck => 12 case Prepare => 11 case PulledCheck => 10 case Place => 9 case Provision => 8
    case Track => 7 case TrackedCheck => 6 case Boot => 5 case BootedCheck => 4
    case Untrack => 3 case Reclaim => 2 case Leaving => 1 case Finished => 0
  }

  // Every step brings a create nearer its end. A call that fails before the container is tracked, or the boot, sends it
  // there straight; so does a mark seen before there is a container, and one seen later sends it to abandonCreate.
  lemma CreateGetsOn(s: State, t: Tid, o: Outcome)
    requires Enabled(s, CreateStep(t, o))
    ensures var s', c := StepCreate(s, t, o), s.creates[t];
            t in s'.creates &&
            var pc, marked := s'.creates[t].pc, c.guard in s.sh.abandoned;
            StepsLeft(pc) < StepsLeft(c.pc) &&
            (c.pc in {Prepare, Place, Provision, Boot} ==> (pc == Leaving <==> o == Fail)) &&
            (c.pc in {EarlyCheck, PulledCheck} ==> (pc == Leaving <==> marked)) &&
            (c.pc in {TrackedCheck, BootedCheck} ==> (pc == Untrack <==> marked)) &&
            (c.pc !in {Prepare, Place, Provision, Boot} ==> pc == StepCreate(s, t, Done).creates[t].pc)
  {
    hide CreateEffect, NoneLive, NewerCreate;
  }

  // Which calls an environment may answer how: any may fail; Env.Provision hands back a container of the session
  // exactly where one runs, and makes one exactly where none does.
  lemma AnyCallMayFail(s: State, t: Tid)
    requires t in s.creates && s.creates[t].pc != Finished
    ensures Enabled(s, CreateStep(t, Fail))
    ensures Enabled(s, CreateStep(t, Done)) <==>
              s.creates[t].pc != Provision || forall i :: i in s.live && i in s.owner ==> s.owner[i] != s.creates[t].sid
    ensures forall i :: Enabled(s, CreateStep(t, Adopt(i))) <==>
              s.creates[t].pc == Provision && i in s.live && (i, s.creates[t].sid) in s.owner.Items
  {
  }

  function DestroyStepsLeft(pc: DestroyPc): nat {
    match pc
    case Get => 4 case Lookup(_) => 3 case EnvDestroy(_) => 2 case Forget => 1 case Returned => 0 case Failed => 0
  }

  // A Destroy destroys the container it found tracked exactly if that has a worker still and the lookup succeeds; in
  // every case but a removal that failed it then forgets the session.
  lemma DestroyGetsOn(s: State, t: Tid, o: Outcome)
    requires Enabled(s, DestroyStep(t, o))
    ensures var s', d := StepDestroy(s, t, o), s.destroys[t];
            t in s'.destroys &&
            var pc := s'.destroys[t].pc;
            DestroyStepsLeft(pc) < DestroyStepsLeft(d.pc) &&
            (d.pc.Get? ==>
               (d.sid in s.sh.instances <==> pc.Lookup?) && (pc.Lookup? ==> pc.inst == s.sh.instances[d.sid])) &&
            (d.pc.Lookup? ==>
               (d.sid in s.sh.workers && o == Done <==> pc == EnvDestroy(d.pc.inst)) &&
               (pc == EnvDestroy(d.pc.inst) || pc == Forget)) &&
            (d.pc.EnvDestroy? ==> pc == if o == Done then Forget else Failed) &&
            (d.pc.Forget? ==> pc == Returned && d.sid !in s'.sh.instances && d.sid !in s'.sh.workers)
  {
    hide NoneLive;
  }

  // The only containers that come are those Env.Provision makes, labelled with their session and numbered next, and the
  // only ones that go those a removal that succeeded was for.
  lemma ContainersComeAndGo(s: State, step: Step)
    requires Enabled(s, step)
    ensures var s' := Apply(s, step);
            match step
            case CreateStep(t, o) =>
              var c := s.creates[t];
              if c.pc == Provision && o == Done then
                s'.live == s.live + {s.nextInst} && s'.owner == s.owner[s.nextInst := c.sid] &&
                  s'.nextInst == s.nextInst + 1
              else if c.pc == Reclaim && o != Fail && c.inst.Some? then
                s'.live == s.live - {c.inst.value} && s'.owner == s.owner
              else s'.live == s.live && s'.owner == s.owner
            case DestroyStep(t, o) =>
              var d := s.destroys[t];
              s'.owner == s.owner &&
              s'.live == (if d.pc.EnvDestroy? && o != Fail then s.live - {d.pc.inst} else s.live)
            case _ => s'.live == s.live && s'.owner == s.owner
  {
    hide NextPc, NoneLive, NewerCreate, Tracked, Untracked, WithoutGuard;
  }
}
