/** Runs in pieces: concatenation, and the run of a create that nothing interrupts. */
module RunPieces {
  import opened Text
  import opened RunnerState
  import opened CreateDestroy

  lemma {:induction false} RunConcat(s: State, a: seq<Step>, b: seq<Step>)
    requires Run(s, a) && Run(Final(s, a), b)
    ensures Run(s, a + b) && Final(s, a + b) == Final(Final(s, a), b)
    decreases |a|
  {
    hide Apply, Enabled;
    if a == [] {
      assert a + b == b;
    } else {
      assert (a + b)[1..] == a[1..] + b;
      RunConcat(Apply(s, a[0]), a[1..], b);
    }
  }

  lemma OneStep(s: State, step: Step)
    requires Enabled(s, step)
    ensures Run(s, [step]) && Final(s, [step]) == Apply(s, step)
  {
    assert [step][1..] == [];
  }

  lemma TwoSteps(s: State, m: State, x: Step, y: Step)
    requires Enabled(s, x) && Apply(s, x) == m && Enabled(m, y)
    ensures Run(s, [x, y]) && Final(s, [x, y]) == Apply(m, y)
  {
    hide Apply, Enabled;
    OneStep(s, x);
    OneStep(m, y);
    RunConcat(s, [x], [y]);
    assert [x] + [y] == [x, y];
  }

  lemma ThreeSteps(s: State, s1: State, s2: State, x: Step, y: Step, z: Step)
    requires Enabled(s, x) && Apply(s, x) == s1 && Enabled(s1, y) && Apply(s1, y) == s2 && Enabled(s2, z)
    ensures Run(s, [x, y, z]) && Final(s, [x, y, z]) == Apply(s2, z)
  {
    hide Apply, Enabled;
    TwoSteps(s, s1, x, y);
    OneStep(s2, z);
    RunConcat(s, [x, y], [z]);
    assert [x, y] + [z] == [x, y, z];
  }

  // ---- a create nobody interrupts ----

  predicate At(s: State, t: Tid, pc: CreatePc) {
    t in s.creates && s.creates[t].pc == pc && s.creates[t].guard !in s.sh.abandoned
  }

  function Moved(s: State, t: Tid, pc: CreatePc): State
    requires t in s.creates
  {
    SetCreate(s, t, s.creates[t].(pc := pc))
  }

  function Quiet(t: Tid): Step {
    CreateStep(t, Done)
  }

  function FourQuiet(t: Tid): seq<Step> {
    [Quiet(t), Quiet(t)] + [Quiet(t), Quiet(t)]
  }

  // The steps of an unmarked create that touch nothing but its own counter.
  function After(pc: CreatePc): CreatePc {
    match pc
    case EarlyCheck => Prepare
    case Prepare => PulledCheck
    case PulledCheck => Place
    case Place => Provision
    case TrackedCheck => Boot
    case Boot => BootedCheck
    case BootedCheck => Leaving
    case _ => pc
  }

  lemma QuietMove(s: State, t: Tid, pc: CreatePc)
    requires t in s.creates && s.creates[t].guard !in s.sh.abandoned && After(pc) != pc
    ensures Enabled(Moved(s, t, pc), Quiet(t)) && Apply(Moved(s, t, pc), Quiet(t)) == Moved(s, t, After(pc))
  {
  }

  // Four steps bring it to Env.Provision.
  lemma UpToProvision(s: State, t: Tid)
    requires At(s, t, EarlyCheck)
    ensures Run(s, FourQuiet(t)) && Final(s, FourQuiet(t)) == Moved(s, t, Provision)
  {
    hide Run, Final, Apply, Enabled;
    assert Moved(s, t, EarlyCheck) == s;
    QuietMove(s, t, EarlyCheck);
    QuietMove(s, t, Prepare);
    QuietMove(s, t, PulledCheck);
    QuietMove(s, t, Place);
    hide At, Moved, Quiet;
    TwoSteps(s, Moved(s, t, Prepare), Quiet(t), Quiet(t));
    TwoSteps(Moved(s, t, PulledCheck), Moved(s, t, Place), Quiet(t), Quiet(t));
    RunConcat(s, [Quiet(t), Quiet(t)], [Quiet(t), Quiet(t)]);
  }

  // From Track it tracks, boots and leaves.
  function Delivered(s: State, t: Tid): State
    requires t in s.creates && s.creates[t].inst.Some?
  {
    var c := s.creates[t];
    Moved(s, t, Finished).(sh := WithoutGuard(Tracked(s.sh, c.sid, WORKER, c.inst.value), c.sid, c.guard))
  }

  function FiveQuiet(t: Tid): seq<Step> {
    [Quiet(t), Quiet(t)] + [Quiet(t), Quiet(t), Quiet(t)]
  }

  lemma TrackMove(s: State, t: Tid)
    requires At(s, t, Track) && s.creates[t].inst.Some?
    ensures var c := s.creates[t];
            Enabled(s, Quiet(t)) &&
            Apply(s, Quiet(t)) == Moved(s.(sh := Tracked(s.sh, c.sid, WORKER, c.inst.value)), t, TrackedCheck)
  {
  }

  lemma LeaveMove(s: State, t: Tid)
    requires t in s.creates
    ensures var c := s.creates[t];
            Enabled(Moved(s, t, Leaving), Quiet(t)) &&
            Apply(Moved(s, t, Leaving), Quiet(t)) == Moved(s, t, Finished).(sh := WithoutGuard(s.sh, c.sid, c.guard))
  {
  }

  lemma FromTrack(s: State, t: Tid)
    requires At(s, t, Track) && s.creates[t].inst.Some?
    ensures Run(s, FiveQuiet(t)) && Final(s, FiveQuiet(t)) == Delivered(s, t)
  {
    hide Run, Final, Apply, Enabled, WithoutGuard;
    var c := s.creates[t];
    var q := s.(sh := Tracked(s.sh, c.sid, WORKER, c.inst.value));
    TrackMove(s, t);
    QuietMove(q, t, TrackedCheck);
    TwoSteps(s, Moved(q, t, TrackedCheck), Quiet(t), Quiet(t));
    FromBoot(q, t);
    RunConcat(s, [Quiet(t), Quiet(t)], [Quiet(t), Quiet(t), Quiet(t)]);
  }

  lemma FromBoot(q: State, t: Tid)
    requires t in q.creates && q.creates[t].guard !in q.sh.abandoned
    ensures var c := q.creates[t];
            Run(Moved(q, t, Boot), [Quiet(t), Quiet(t), Quiet(t)]) &&
            Final(Moved(q, t, Boot), [Quiet(t), Quiet(t), Quiet(t)]) ==
            Moved(q, t, Finished).(sh := WithoutGuard(q.sh, c.sid, c.guard))
  {
    hide Run, Final, Apply, Enabled, Moved, WithoutGuard;
    QuietMove(q, t, Boot);
    QuietMove(q, t, BootedCheck);
    LeaveMove(q, t);
    ThreeSteps(Moved(q, t, Boot), Moved(q, t, BootedCheck), Moved(q, t, Leaving), Quiet(t), Quiet(t), Quiet(t));
  }

  // The container a successful Provision adds.
  function Provisioned(s: State, t: Tid): State
    requires t in s.creates
  {
    var c, n := s.creates[t], s.nextInst;
    SetCreate(s, t, c.(pc := Track, inst := Some(n)))
      .(live := s.live + {n}, owner := s.owner[n := c.sid], nextInst := n + 1)
  }

  function CreateAll(t: Tid): seq<Step> {
    FourQuiet(t) + ([Quiet(t)] + FiveQuiet(t))
  }

  // The whole create, where no container of its session is running: it provisions the next one and leaves it live and
  // tracked, its guard deregistered.
  lemma UninterruptedRun(s: State, t: Tid)
    requires At(s, t, EarlyCheck) && NoneLive(s, s.creates[t].sid)
    ensures Run(s, CreateAll(t)) && Final(s, CreateAll(t)) == Delivered(Provisioned(s, t), t)
  {
    hide Run, Final;
    UpToProvision(s, t);
    var m := Moved(s, t, Provision);
    OneStep(m, Quiet(t));
    assert Apply(m, Quiet(t)) == Provisioned(s, t);
    FromTrack(Provisioned(s, t), t);
    RunConcat(m, [Quiet(t)], FiveQuiet(t));
    RunConcat(s, FourQuiet(t), [Quiet(t)] + FiveQuiet(t));
  }
}
