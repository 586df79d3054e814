/**
 CreateSession racing Destroy (go/runner.go): every interleaving, one lock-protected block or one
 environment call at a time.

 A create and a destroy are threads with a program counter. Guards are numbered in the order they were
 installed, and so are the containers the environment provisions.
 */
module CreateDestroy {
  import opened Text
  import opened RunnerState

  type Tid = nat

  datatype CreatePc =
    | EarlyCheck    // about to read the guard before any work
    | Prepare       // session context, image, pull
    | PulledCheck   // about to read the guard before provisioning
    | Place         // worker and token
    | Provision     // Env.Provision
    | Track         // container exists, not tracked yet
    | TrackedCheck  // about to read the guard
    | Boot          // POST /sessions
    | BootedCheck   // about to read the guard
    | Untrack       // abandonCreate: locked block
    | Reclaim       // abandonCreate: Env.Destroy
    | Leaving       // deferred endCreate
    | Finished

  datatype Create = Create(sid: Sid, guard: nat, pc: CreatePc, inst: Option<Inst>)

  datatype DestroyPc =
    | Get
    | Lookup(inst: Inst)      // workerEnvFor
    | EnvDestroy(inst: Inst)  // Env.Destroy
    | Forget
    | Returned
    | Failed                  // Env.Destroy returned an error

  // `attempt` is how many attempts on the session had begun when it started.
  datatype Destroyer = Destroyer(sid: Sid, pc: DestroyPc, attempt: nat)

  datatype State = State(
    sh: Shared<nat>,
    nextGuard: nat,
    live: set<Inst>,
    owner: map<Inst, Sid>,     // the session label of every container ever provisioned
    nextInst: nat,
    creates: map<Tid, Create>,
    created: map<Sid, Tid>,    // for each session a create has started for, the last such create
    attempts: map<Sid, nat>,   // how many attempts on each session have begun: no part of the program's state
    destroys: map<Tid, Destroyer>,
    excused: set<Inst>)        // containers an Env.Destroy of a create failed on, or whose worker was gone

  function Init(): State {
    State(Shared(map[], {}, map[], map[]), 0, {}, map[], 0, map[], map[], map[], map[], {})
  }

  function Attempts(s: State, sid: Sid): nat {
    if sid in s.attempts then s.attempts[sid] else 0
  }

  // No container with the session's label is running.
  predicate NoneLive(s: State, sid: Sid) {
    forall i :: i in s.live && i in s.owner ==> s.owner[i] != sid
  }

  // How an environment or store call ends. `Adopt` is a Provision that hands back the session's existing container.
  datatype Outcome = Done | Fail | Adopt(inst: Inst)

  datatype Step =
    | MarkCreating(sid: Sid)
    | StartCreate(t: Tid, sid: Sid)
    | CreateStep(t: Tid, outcome: Outcome)
    | StartDestroy(t: Tid, sid: Sid)
    | DestroyStep(t: Tid, outcome: Outcome)

  const WORKER := "w"

  // Env.Provision hands back the session's container if there is one, and makes one otherwise.
  predicate ProvisionEnds(s: State, c: Create, o: Outcome) {
    match o
    case Adopt(i) => c.pc == Provision && i in s.live && i in s.owner && s.owner[i] == c.sid
    case Done => c.pc == Provision ==> NoneLive(s, c.sid)
    case Fail => true
  }

  predicate Enabled(s: State, step: Step) {
    match step
    case MarkCreating(_) => true
    case StartCreate(t, _) => t !in s.creates
    case CreateStep(t, o) => t in s.creates && s.creates[t].pc != Finished && ProvisionEnds(s, s.creates[t], o)
    case StartDestroy(t, _) => t !in s.destroys
    case DestroyStep(t, o) => t in s.destroys && !s.destroys[t].pc.Returned? && !s.destroys[t].pc.Failed? && !o.Adopt?
  }

  function SetCreate(s: State, t: Tid, c: Create): State {
    s.(creates := s.creates[t := c])
  }

  function SetDestroy(s: State, t: Tid, d: Destroyer): State {
    s.(destroys := s.destroys[t := d])
  }

  function Check(s: State, c: Create, ifAbandoned: CreatePc, otherwise: CreatePc): CreatePc {
    if c.guard in s.sh.abandoned then ifAbandoned else otherwise
  }

  // Where the create goes next.
  function NextPc(s: State, c: Create, o: Outcome): CreatePc {
    match c.pc
    case EarlyCheck => Check(s, c, Leaving, Prepare)
    case Prepare => if o == Fail then Leaving else PulledCheck
    case PulledCheck => Check(s, c, Leaving, Place)
    case Place => if o == Fail then Leaving else Provision
    case Provision => if o == Fail then Leaving else Track
    case Track => TrackedCheck
    case TrackedCheck => Check(s, c, Untrack, Boot)
    case Boot => if o == Fail then Leaving else BootedCheck
    case BootedCheck => Check(s, c, Untrack, Leaving)
    case Untrack => if NewerCreate(s.sh, c.sid, c.guard) then Leaving else Reclaim
    case Reclaim => Leaving
    case Leaving => Finished
    case Finished => Finished
  }

  // The container Env.Provision returned to it.
  function NextInst(s: State, c: Create, o: Outcome): Option<Inst> {
    if c.pc != Provision || o == Fail then c.inst else if o.Adopt? then Some(o.inst) else Some(s.nextInst)
  }

  // What the step does to everything but the create itself.
  function CreateEffect(s: State, c: Create, o: Outcome): State {
    match c.pc
    case Provision =>
      if o != Done then s
      else s.(live := s.live + {s.nextInst}, owner := s.owner[s.nextInst := c.sid], nextInst := s.nextInst + 1)
    case Track => if c.inst.None? then s else s.(sh := Tracked(s.sh, c.sid, WORKER, c.inst.value))
    case Untrack => if c.inst.None? then s else s.(sh := Untracked(s.sh, c.sid, c.guard, c.inst.value))
    case Reclaim =>
      if c.inst.None? then s
      else if o == Fail then s.(excused := s.excused + {c.inst.value})
      else s.(live := s.live - {c.inst.value})
    case Leaving => s.(sh := WithoutGuard(s.sh, c.sid, c.guard))
    case _ => s
  }

  function StepCreate(s: State, t: Tid, o: Outcome): State
    requires Enabled(s, CreateStep(t, o))
  {
    var c := s.creates[t];
    SetCreate(CreateEffect(s, c, o), t, Create(c.sid, c.guard, NextPc(s, c, o), NextInst(s, c, o)))
  }

  function NextDestroyPc(s: State, d: Destroyer, o: Outcome): DestroyPc {
    match d.pc
    case Get => if d.sid in s.sh.instances then Lookup(s.sh.instances[d.sid]) else Forget
    case Lookup(i) => if d.sid !in s.sh.workers || o == Fail then Forget else EnvDestroy(i)
    case EnvDestroy(_) => if o == Fail then Failed else Forget
    case Forget => Returned
    case done => done
  }

  function DestroyEffect(s: State, d: Destroyer, o: Outcome): State {
    match d.pc
    case Lookup(i) => if d.sid in s.sh.workers && o == Fail then s.(excused := s.excused + {i}) else s
    case EnvDestroy(i) => if o == Fail then s else s.(live := s.live - {i})
    case Forget => s.(sh := Forgotten(s.sh, d.sid))
    case _ => s
  }

  function StepDestroy(s: State, t: Tid, o: Outcome): State
    requires Enabled(s, DestroyStep(t, o))
  {
    var d := s.destroys[t];
    SetDestroy(DestroyEffect(s, d, o), t, Destroyer(d.sid, NextDestroyPc(s, d, o), d.attempt))
  }

  function Apply(s: State, step: Step): State
    requires Enabled(s, step)
  {
    match step
    case MarkCreating(sid) =>
      s.(sh := WithGuard(s.sh, sid, s.nextGuard), nextGuard := s.nextGuard + 1,
         attempts := s.attempts[sid := Attempts(s, sid) + 1])
    case StartCreate(t, sid) =>
      var g := Adopted(s.sh, sid, s.nextGuard);
      SetCreate(s, t, Create(sid, g, EarlyCheck, None))
        .(sh := WithGuard(s.sh, sid, g), nextGuard := s.nextGuard + 1, created := s.created[sid := t],
          attempts := s.attempts[sid := Attempts(s, sid) + if sid in s.sh.creating then 0 else 1])
    case CreateStep(t, o) => StepCreate(s, t, o)
    case StartDestroy(t, sid) =>
      SetDestroy(s, t, Destroyer(sid, Get, Attempts(s, sid))).(sh := MarkedAbandoned(s.sh, sid))
    case DestroyStep(t, o) => StepDestroy(s, t, o)
  }

  // ---- one attempt at a time ----

  predicate NoCreateRunning(s: State, sid: Sid) {
    forall t :: t in s.creates && s.creates[t].sid == sid ==> s.creates[t].pc == Finished
  }

  predicate Over(d: Destroyer) {
    d.pc.Returned? || d.pc.Failed?
  }

  predicate NoDestroyRunning(s: State, sid: Sid) {
    forall t :: t in s.destroys && s.destroys[t].sid == sid ==> Over(s.destroys[t])
  }

  // An attempt on a session begins, with MarkCreating or with a create that finds no guard, only when no create and no
  // Destroy of it is in flight and none of its containers is running. Destroys may begin at any time.
  predicate Disciplined(s: State, step: Step) {
    match step
    case MarkCreating(sid) => NoCreateRunning(s, sid) && NoDestroyRunning(s, sid) && NoneLive(s, sid)
    case StartCreate(_, sid) =>
      NoCreateRunning(s, sid) && (sid in s.sh.creating || (NoDestroyRunning(s, sid) && NoneLive(s, sid)))
    case _ => true
  }

  predicate Run(s: State, steps: seq<Step>)
    decreases |steps|
  {
    steps == [] || (Enabled(s, steps[0]) && Run(Apply(s, steps[0]), steps[1..]))
  }

  predicate DisciplinedRun(s: State, steps: seq<Step>)
    decreases |steps|
  {
    steps == [] ||
    (Enabled(s, steps[0]) && Disciplined(s, steps[0]) && DisciplinedRun(Apply(s, steps[0]), steps[1..]))
  }

  function Final(s: State, steps: seq<Step>): State
    requires Run(s, steps)
    decreases |steps|
  {
    if steps == [] then s else Final(Apply(s, steps[0]), steps[1..])
  }

  // ---- the inductive invariant ----

  // Not tracked yet, so not answerable to any Destroy.
  predicate Early(pc: CreatePc) {
    pc == EarlyCheck || pc == Prepare || pc == PulledCheck || pc == Place || pc == Provision || pc == Track
  }

  // The create itself will still remove what it built: it has an abandoned check ahead of it and the mark is
  // set, or it is already in abandonCreate.
  predicate Obliged(s: State, c: Create) {
    ((Early(c.pc) || c.pc == TrackedCheck) && c.guard in s.sh.abandoned) || c.pc == Untrack || c.pc == Reclaim
  }

  // Nothing of this create is left running.
  predicate Clear(s: State, c: Create) {
    match c.inst
    case None => c.pc == Leaving || c.pc == Finished
    case Some(i) => i !in s.live || i in s.excused
  }

  // The create the session's present attempt runs in.
  predicate IsLast(s: State, t: Tid) {
    t in s.creates && s.creates[t].sid in s.created && s.created[s.creates[t].sid] == t
  }

  // Every create but its session's last has finished.
  predicate ThreadsOk(s: State) {
    && (forall t :: t in s.creates ==> s.creates[t].sid in s.created && (IsLast(s, t) || s.creates[t].pc == Finished))
    && (forall sid :: sid in s.created ==> s.created[sid] in s.creates && s.creates[s.created[sid]].sid == sid)
  }

  predicate Shape(c: Create) {
    match c.pc
    case EarlyCheck | Prepare | PulledCheck | Place | Provision => c.inst.None?
    case Leaving | Finished => true
    case _ => c.inst.Some?
  }

  predicate CreateOk(s: State, c: Create) {
    && Shape(c) && c.sid in s.created
    && (c.inst.Some? ==> c.inst.value < s.nextInst && c.inst.value in s.owner && s.owner[c.inst.value] == c.sid)
    // A running create's guard is the registered one.
    && (c.pc != Finished ==> c.sid in s.sh.creating && s.sh.creating[c.sid] == c.guard)
    // A tracked container is this create's own, or left over from an earlier attempt and gone.
    && (c.sid in s.sh.instances ==>
          s.sh.instances[c.sid] < s.nextInst &&
          ((c.inst == Some(s.sh.instances[c.sid]) && !Early(c.pc)) || s.sh.instances[c.sid] !in s.live))
    // Past Track, a container that is not tracked is gone, or the create is about to see the mark.
    && (c.inst.Some? && !Early(c.pc) && !(c.sid in s.sh.instances && s.sh.instances[c.sid] == c.inst.value) ==>
          Obliged(s, c) || Clear(s, c))
  }

  // It began in the session's present attempt.
  predicate Current(s: State, d: Destroyer) {
    d.attempt == Attempts(s, d.sid)
  }

  predicate DestroyOk(s: State, d: Destroyer) {
    && d.attempt <= Attempts(s, d.sid) && (Current(s, d) || Over(d))
    && (Current(s, d) && d.sid in s.sh.creating ==> s.sh.creating[d.sid] in s.sh.abandoned)
  }

  // What a Destroy `d` of the present attempt promises about its create `c`.
  predicate PairOk(s: State, c: Create, d: Destroyer) {
    && (d.pc.Lookup? || d.pc.EnvDestroy? ==>
          (c.inst == Some(d.pc.inst) && !Early(c.pc)) || Obliged(s, c) || Clear(s, c))
    && (d.pc.Forget? || d.pc.Returned? ==> Obliged(s, c) || Clear(s, c))
  }

  predicate CreatesOk(s: State) {
    forall t :: t in s.creates && IsLast(s, t) ==> CreateOk(s, s.creates[t])
  }

  predicate DestroysOk(s: State) {
    forall t :: t in s.destroys ==> DestroyOk(s, s.destroys[t])
  }

  predicate PairsOk(s: State) {
    forall t, u :: t in s.creates && IsLast(s, t) && u in s.destroys && s.creates[t].sid == s.destroys[u].sid &&
                   Current(s, s.destroys[u]) ==>
      PairOk(s, s.creates[t], s.destroys[u])
  }

  // Containers and tracking entries belong to the session's last create.
  predicate WorldOk(s: State) {
    && s.sh.workers.Keys == s.sh.instances.Keys
    && (forall sid :: sid in s.sh.instances ==>
          sid in s.created && s.sh.instances[sid] in s.owner && s.owner[s.sh.instances[sid]] == sid)
    && (forall i :: i in s.owner ==> i < s.nextInst)
    && (forall i :: i in s.live ==> i in s.owner && LiveOk(s, i))
  }

  // A live container is its session's last create's; and under a guard that create has yet to adopt there is none.
  predicate LiveOk(s: State, i: Inst)
    requires i in s.owner
  {
    var sid := s.owner[i];
    sid in s.created && s.created[sid] in s.creates && s.creates[s.created[sid]].inst == Some(i) &&
    (sid in s.sh.creating ==> s.creates[s.created[sid]].pc != Finished)
  }

  predicate Inv(s: State) {
    ThreadsOk(s) && CreatesOk(s) && DestroysOk(s) && PairsOk(s) && WorldOk(s)
  }

  // ---- every disciplined step keeps it ----

  // `s'` differs from `s` only in what create `t` may touch: its own counter, its session's entries, one new
  // container, and fewer live ones.
  ghost predicate TouchesOwn(s: State, s': State, t: Tid) {
    && t in s.creates && t in s'.creates && s'.creates == s.creates[t := s'.creates[t]]
    && s'.creates[t].sid == s.creates[t].sid
    && s'.destroys == s.destroys && s'.created == s.created && s'.attempts == s.attempts
    && s'.sh.abandoned == s.sh.abandoned
    && s.nextInst <= s'.nextInst && s'.live <= s.live + {s.nextInst} && s.excused <= s'.excused
    && (forall i :: i in s.owner ==> i in s'.owner && s'.owner[i] == s.owner[i])
    && SameElsewhere(s, s', s.creates[t].sid)
  }

  ghost predicate SameElsewhere(s: State, s': State, sid: Sid) {
    && (forall x :: x != sid ==>
          (x in s'.sh.creating <==> x in s.sh.creating) && (x in s'.sh.instances <==> x in s.sh.instances))
    && (forall x :: x != sid && x in s.sh.creating ==> s'.sh.creating[x] == s.sh.creating[x])
    && (forall x :: x != sid && x in s.sh.instances ==> s'.sh.instances[x] == s.sh.instances[x])
  }

  predicate OwnDestroyOk(s: State, c: Create, d: Destroyer) {
    DestroyOk(s, d) && (Current(s, d) ==> PairOk(s, c, d))
  }

  predicate OwnDestroysOk(s: State, c: Create) {
    forall u :: u in s.destroys && s.destroys[u].sid == c.sid ==> OwnDestroyOk(s, c, s.destroys[u])
  }

  lemma OtherCreateKept(s: State, s': State, t: Tid, u: Tid)
    requires Inv(s) && TouchesOwn(s, s', t) && IsLast(s, t) && IsLast(s', u) && u != t
    ensures CreateOk(s', s'.creates[u]) && s'.creates[u].sid != s.creates[t].sid
  {
    hide ThreadsOk, DestroysOk, PairsOk, WorldOk;
    assert IsLast(s, u);
    assert CreateOk(s, s.creates[u]);
  }

  lemma CreatesKept(s: State, s': State, t: Tid)
    requires Inv(s) && TouchesOwn(s, s', t) && IsLast(s, t) && CreateOk(s', s'.creates[t])
    ensures CreatesOk(s')
  {
    hide Inv, TouchesOwn, CreateOk;
    forall u | IsLast(s', u) && u != t ensures CreateOk(s', s'.creates[u]) {
      OtherCreateKept(s, s', t, u);
    }
  }

  lemma ThreadsKept(s: State, s': State, t: Tid)
    requires Inv(s) && TouchesOwn(s, s', t) && IsLast(s, t)
    ensures ThreadsOk(s')
  {
    hide CreatesOk, DestroysOk, PairsOk, WorldOk, SameElsewhere;
    forall u | u in s'.creates
      ensures s'.creates[u].sid in s'.created && (IsLast(s', u) || s'.creates[u].pc == Finished)
    {
      assert IsLast(s, u) || s.creates[u].pc == Finished;
    }
  }

  lemma OtherPairKept(s: State, s': State, t: Tid, v: Tid, u: Tid)
    requires Inv(s) && TouchesOwn(s, s', t) && IsLast(s, t) && IsLast(s', v) && v != t
    requires u in s'.destroys && s'.creates[v].sid == s'.destroys[u].sid && Current(s', s'.destroys[u])
    ensures PairOk(s', s'.creates[v], s'.destroys[u])
  {
    hide ThreadsOk, DestroysOk, WorldOk;
    assert IsLast(s, v);
    assert CreateOk(s, s.creates[v]);
    assert PairOk(s, s.creates[v], s.destroys[u]);
  }

  lemma OtherDestroyKept(s: State, s': State, t: Tid, u: Tid)
    requires Inv(s) && TouchesOwn(s, s', t) && u in s'.destroys && s'.destroys[u].sid != s.creates[t].sid
    ensures DestroyOk(s', s'.destroys[u])
  {
    hide ThreadsOk, CreatesOk, PairsOk, WorldOk;
    assert DestroyOk(s, s.destroys[u]);
  }

  lemma DestroysKept(s: State, s': State, t: Tid)
    requires Inv(s) && TouchesOwn(s, s', t) && IsLast(s, t) && OwnDestroysOk(s', s'.creates[t])
    requires t in s'.creates && s'.creates[t].sid == s.creates[t].sid
    ensures DestroysOk(s') && PairsOk(s')
  {
    hide Inv, TouchesOwn, DestroyOk, PairOk;
    forall u | u in s'.destroys ensures DestroyOk(s', s'.destroys[u]) {
      if s'.destroys[u].sid != s.creates[t].sid {
        OtherDestroyKept(s, s', t, u);
      }
    }
    forall v, u | IsLast(s', v) && u in s'.destroys && s'.creates[v].sid == s'.destroys[u].sid &&
                  Current(s', s'.destroys[u])
      ensures PairOk(s', s'.creates[v], s'.destroys[u])
    {
      if v != t {
        OtherPairKept(s, s', t, v, u);
      }
    }
  }

  lemma OthersKept(s: State, s': State, t: Tid)
    requires Inv(s) && TouchesOwn(s, s', t) && IsLast(s, t)
    requires CreateOk(s', s'.creates[t]) && OwnDestroysOk(s', s'.creates[t]) && WorldOk(s')
    ensures Inv(s')
  {
    hide Inv, CreateOk, OwnDestroysOk, WorldOk, ThreadsOk, CreatesOk, DestroysOk, PairsOk;
    CreatesKept(s, s', t);
    DestroysKept(s, s', t);
    ThreadsKept(s, s', t);
    InvIs(s');
  }

  lemma InvIs(s: State)
    requires ThreadsOk(s) && CreatesOk(s) && DestroysOk(s) && PairsOk(s) && WorldOk(s)
    ensures Inv(s)
  {
  }

  // What the invariant says about a create that is running.
  lemma InvAt(s: State, t: Tid)
    requires Inv(s) && t in s.creates && s.creates[t].pc != Finished
    ensures IsLast(s, t) && CreateOk(s, s.creates[t]) && OwnDestroysOk(s, s.creates[t]) && WorldOk(s)
  {
    hide WorldOk, CreateOk, DestroyOk, PairOk;
    assert IsLast(s, t);
  }

  lemma PcOnlyWorld(s: State, t: Tid, pc: CreatePc)
    requires WorldOk(s) && IsLast(s, t) && (s.creates[t].pc != Finished ==> pc != Finished)
    ensures WorldOk(SetCreate(s, t, s.creates[t].(pc := pc)))
  {
    var s' := SetCreate(s, t, s.creates[t].(pc := pc));
    forall i | i in s'.live ensures i in s'.owner && LiveOk(s', i) {
      assert LiveOk(s, i);
    }
  }

  lemma EarlyCheckKeeps(s: State, t: Tid, o: Outcome)
    requires Inv(s) && Enabled(s, CreateStep(t, o)) && s.creates[t].pc == EarlyCheck
    ensures Inv(StepCreate(s, t, o))
  {
    hide Inv, WorldOk;
    InvAt(s, t);
    PcOnlyWorld(s, t, NextPc(s, s.creates[t], o));
    OthersKept(s, StepCreate(s, t, o), t);
  }

  lemma PrepareKeeps(s: State, t: Tid, o: Outcome)
    requires Inv(s) && Enabled(s, CreateStep(t, o)) && s.creates[t].pc == Prepare
    ensures Inv(StepCreate(s, t, o))
  {
    hide Inv, WorldOk;
    InvAt(s, t);
    PcOnlyWorld(s, t, NextPc(s, s.creates[t], o));
    OthersKept(s, StepCreate(s, t, o), t);
  }

  lemma PulledCheckKeeps(s: State, t: Tid, o: Outcome)
    requires Inv(s) && Enabled(s, CreateStep(t, o)) && s.creates[t].pc == PulledCheck
    ensures Inv(StepCreate(s, t, o))
  {
    hide Inv, WorldOk;
    InvAt(s, t);
    PcOnlyWorld(s, t, NextPc(s, s.creates[t], o));
    OthersKept(s, StepCreate(s, t, o), t);
  }

  lemma PlaceKeeps(s: State, t: Tid, o: Outcome)
    requires Inv(s) && Enabled(s, CreateStep(t, o)) && s.creates[t].pc == Place
    ensures Inv(StepCreate(s, t, o))
  {
    hide Inv, WorldOk;
    InvAt(s, t);
    PcOnlyWorld(s, t, NextPc(s, s.creates[t], o));
    OthersKept(s, StepCreate(s, t, o), t);
  }

  lemma TrackedCheckKeeps(s: State, t: Tid, o: Outcome)
    requires Inv(s) && Enabled(s, CreateStep(t, o)) && s.creates[t].pc == TrackedCheck
    ensures Inv(StepCreate(s, t, o))
  {
    hide Inv, WorldOk;
    InvAt(s, t);
    PcOnlyWorld(s, t, NextPc(s, s.creates[t], o));
    OthersKept(s, StepCreate(s, t, o), t);
  }

  lemma BootKeeps(s: State, t: Tid, o: Outcome)
    requires Inv(s) && Enabled(s, CreateStep(t, o)) && s.creates[t].pc == Boot
    ensures Inv(StepCreate(s, t, o))
  {
    hide Inv, WorldOk;
    InvAt(s, t);
    PcOnlyWorld(s, t, NextPc(s, s.creates[t], o));
    OthersKept(s, StepCreate(s, t, o), t);
  }

  lemma BootedCheckKeeps(s: State, t: Tid, o: Outcome)
    requires Inv(s) && Enabled(s, CreateStep(t, o)) && s.creates[t].pc == BootedCheck
    ensures Inv(StepCreate(s, t, o))
  {
    hide Inv, WorldOk;
    InvAt(s, t);
    PcOnlyWorld(s, t, NextPc(s, s.creates[t], o));
    OthersKept(s, StepCreate(s, t, o), t);
  }

  lemma ProvisionOwn(s: State, t: Tid, o: Outcome)
    requires Inv(s) && Enabled(s, CreateStep(t, o)) && s.creates[t].pc == Provision
    ensures var s' := StepCreate(s, t, o);
            t in s'.creates && CreateOk(s', s'.creates[t]) && OwnDestroysOk(s', s'.creates[t])
  {
    hide Inv;
    InvAt(s, t);
  }

  lemma ProvisionWorld(s: State, t: Tid, o: Outcome)
    requires Inv(s) && Enabled(s, CreateStep(t, o)) && s.creates[t].pc == Provision
    ensures WorldOk(StepCreate(s, t, o))
  {
    hide Inv, OwnDestroysOk;
    InvAt(s, t);
  }

  lemma ProvisionKeeps(s: State, t: Tid, o: Outcome)
    requires Inv(s) && Enabled(s, CreateStep(t, o)) && s.creates[t].pc == Provision
    ensures Inv(StepCreate(s, t, o))
  {
    hide Inv, OwnDestroysOk, CreateOk, LiveOk;
    InvAt(s, t);
    ProvisionOwn(s, t, o);
    ProvisionWorld(s, t, o);
    OthersKept(s, StepCreate(s, t, o), t);
  }

  lemma TrackOwn(s: State, t: Tid, o: Outcome)
    requires Inv(s) && Enabled(s, CreateStep(t, o)) && s.creates[t].pc == Track
    ensures var s' := StepCreate(s, t, o);
            t in s'.creates && CreateOk(s', s'.creates[t]) && OwnDestroysOk(s', s'.creates[t])
  {
    hide Inv, WorldOk;
    InvAt(s, t);
  }

  lemma TrackWorld(s: State, t: Tid, o: Outcome)
    requires Inv(s) && Enabled(s, CreateStep(t, o)) && s.creates[t].pc == Track
    ensures WorldOk(StepCreate(s, t, o))
  {
    hide Inv, OwnDestroysOk;
    InvAt(s, t);
  }

  lemma TrackKeeps(s: State, t: Tid, o: Outcome)
    requires Inv(s) && Enabled(s, CreateStep(t, o)) && s.creates[t].pc == Track
    ensures Inv(StepCreate(s, t, o))
  {
    hide Inv, OwnDestroysOk, CreateOk, WorldOk;
    InvAt(s, t);
    TrackOwn(s, t, o);
    TrackWorld(s, t, o);
    OthersKept(s, StepCreate(s, t, o), t);
  }

  lemma UntrackOwn(s: State, t: Tid, o: Outcome)
    requires Inv(s) && Enabled(s, CreateStep(t, o)) && s.creates[t].pc == Untrack
    ensures var s' := StepCreate(s, t, o);
            t in s'.creates && CreateOk(s', s'.creates[t]) && OwnDestroysOk(s', s'.creates[t])
  {
    hide Inv, WorldOk;
    InvAt(s, t);
  }

  lemma UntrackWorld(s: State, t: Tid, o: Outcome)
    requires Inv(s) && Enabled(s, CreateStep(t, o)) && s.creates[t].pc == Untrack
    ensures WorldOk(StepCreate(s, t, o))
  {
    hide Inv, OwnDestroysOk;
    InvAt(s, t);
  }

  lemma UntrackKeeps(s: State, t: Tid, o: Outcome)
    requires Inv(s) && Enabled(s, CreateStep(t, o)) && s.creates[t].pc == Untrack
    ensures Inv(StepCreate(s, t, o))
  {
    hide Inv, OwnDestroysOk, CreateOk, WorldOk;
    InvAt(s, t);
    UntrackOwn(s, t, o);
    UntrackWorld(s, t, o);
    OthersKept(s, StepCreate(s, t, o), t);
  }

  lemma ReclaimOwn(s: State, t: Tid, o: Outcome)
    requires Inv(s) && Enabled(s, CreateStep(t, o)) && s.creates[t].pc == Reclaim
    ensures var s' := StepCreate(s, t, o);
            t in s'.creates && CreateOk(s', s'.creates[t]) && OwnDestroysOk(s', s'.creates[t])
  {
    hide Inv, WorldOk;
    InvAt(s, t);
  }

  lemma ReclaimWorld(s: State, t: Tid, o: Outcome)
    requires Inv(s) && Enabled(s, CreateStep(t, o)) && s.creates[t].pc == Reclaim
    ensures WorldOk(StepCreate(s, t, o))
  {
    hide Inv, OwnDestroysOk;
    InvAt(s, t);
  }

  lemma ReclaimKeeps(s: State, t: Tid, o: Outcome)
    requires Inv(s) && Enabled(s, CreateStep(t, o)) && s.creates[t].pc == Reclaim
    ensures Inv(StepCreate(s, t, o))
  {
    hide Inv, OwnDestroysOk, CreateOk, WorldOk;
    InvAt(s, t);
    ReclaimOwn(s, t, o);
    ReclaimWorld(s, t, o);
    OthersKept(s, StepCreate(s, t, o), t);
  }

  lemma LeavingOwn(s: State, t: Tid, o: Outcome)
    requires Inv(s) && Enabled(s, CreateStep(t, o)) && s.creates[t].pc == Leaving
    ensures var s' := StepCreate(s, t, o);
            t in s'.creates && CreateOk(s', s'.creates[t]) && OwnDestroysOk(s', s'.creates[t])
  {
    hide Inv, WorldOk;
    InvAt(s, t);
  }

  lemma LeavingWorld(s: State, t: Tid, o: Outcome)
    requires Inv(s) && Enabled(s, CreateStep(t, o)) && s.creates[t].pc == Leaving
    ensures WorldOk(StepCreate(s, t, o))
  {
    hide Inv, OwnDestroysOk;
    InvAt(s, t);
  }

  lemma LeavingKeeps(s: State, t: Tid, o: Outcome)
    requires Inv(s) && Enabled(s, CreateStep(t, o)) && s.creates[t].pc == Leaving
    ensures Inv(StepCreate(s, t, o))
  {
    hide Inv, OwnDestroysOk, CreateOk, WorldOk;
    InvAt(s, t);
    LeavingOwn(s, t, o);
    LeavingWorld(s, t, o);
    OthersKept(s, StepCreate(s, t, o), t);
  }

  lemma CreateStepKeeps(s: State, t: Tid, o: Outcome)
    requires Inv(s) && Enabled(s, CreateStep(t, o))
    ensures Inv(StepCreate(s, t, o))
  {
    hide Inv, StepCreate;
    match s.creates[t].pc
    case EarlyCheck => EarlyCheckKeeps(s, t, o);
    case Prepare => PrepareKeeps(s, t, o);
    case PulledCheck => PulledCheckKeeps(s, t, o);
    case Place => PlaceKeeps(s, t, o);
    case Provision => ProvisionKeeps(s, t, o);
    case Track => TrackKeeps(s, t, o);
    case TrackedCheck => TrackedCheckKeeps(s, t, o);
    case Boot => BootKeeps(s, t, o);
    case BootedCheck => BootedCheckKeeps(s, t, o);
    case Untrack => UntrackKeeps(s, t, o);
    case Reclaim => ReclaimKeeps(s, t, o);
    case Leaving => LeavingKeeps(s, t, o);
  }

  // `s'` differs from `s` only in what destroy `t` may touch: its own counter, its session's tracking entry, and
  // fewer live containers.
  ghost predicate DestroyTouches(s: State, s': State, t: Tid) {
    && t in s.destroys && t in s'.destroys && s'.destroys == s.destroys[t := s'.destroys[t]]
    && s'.destroys[t].sid == s.destroys[t].sid && s'.destroys[t].attempt == s.destroys[t].attempt
    && s'.creates == s.creates && s'.created == s.created && s'.nextInst == s.nextInst && s'.owner == s.owner
    && s'.attempts == s.attempts && s'.sh.creating == s.sh.creating && s'.sh.abandoned == s.sh.abandoned
    && s'.live <= s.live && s.excused <= s'.excused
    && s'.sh.workers.Keys == s'.sh.instances.Keys
    && (forall x :: x in s'.sh.instances ==> x in s.sh.instances && s'.sh.instances[x] == s.sh.instances[x])
    && (forall x :: x != s.destroys[t].sid && x in s.sh.instances ==> x in s'.sh.instances)
  }

  // The session's last create, beside one of its Destroys.
  predicate OwnCreateOk(s: State, d: Destroyer) {
    forall v :: v in s.creates && IsLast(s, v) && s.creates[v].sid == d.sid ==>
      CreateOk(s, s.creates[v]) && (Current(s, d) ==> PairOk(s, s.creates[v], d))
  }

  lemma OtherCreatesKept(s: State, s': State, t: Tid)
    requires Inv(s) && DestroyTouches(s, s', t) && OwnCreateOk(s', s'.destroys[t])
    ensures CreatesOk(s') && ThreadsOk(s')
  {
    hide DestroysOk, PairsOk, WorldOk, PairOk;
    forall u | IsLast(s', u) ensures CreateOk(s', s'.creates[u]) {
      assert IsLast(s, u);
      assert CreateOk(s, s.creates[u]);
    }
    assert forall u :: IsLast(s', u) <==> IsLast(s, u);
  }

  lemma OtherDestroysKept(s: State, s': State, t: Tid)
    requires Inv(s) && DestroyTouches(s, s', t) && OwnCreateOk(s', s'.destroys[t]) && DestroyOk(s', s'.destroys[t])
    ensures DestroysOk(s') && PairsOk(s')
  {
    hide ThreadsOk, CreatesOk, WorldOk, CreateOk;
    forall u | u in s'.destroys ensures DestroyOk(s', s'.destroys[u]) {
      assert u != t ==> DestroyOk(s, s.destroys[u]);
    }
    forall v, u | IsLast(s', v) && u in s'.destroys && s'.creates[v].sid == s'.destroys[u].sid &&
                  Current(s', s'.destroys[u])
      ensures PairOk(s', s'.creates[v], s'.destroys[u])
    {
      assert IsLast(s, v);
      if u != t {
        assert PairOk(s, s.creates[v], s.destroys[u]);
      }
    }
  }

  lemma OtherDestroyersKept(s: State, s': State, t: Tid)
    requires Inv(s) && DestroyTouches(s, s', t) && OwnCreateOk(s', s'.destroys[t]) && DestroyOk(s', s'.destroys[t])
    requires WorldOk(s')
    ensures Inv(s')
  {
    hide Inv, DestroyTouches, CreatesOk, DestroysOk, PairsOk, OwnCreateOk, DestroyOk, ThreadsOk, WorldOk;
    OtherCreatesKept(s, s', t);
    OtherDestroysKept(s, s', t);
    InvIs(s');
  }

  // What the invariant says about a Destroy in flight.
  lemma InvAtDestroy(s: State, t: Tid)
    requires Inv(s) && t in s.destroys && !Over(s.destroys[t])
    ensures DestroyOk(s, s.destroys[t]) && OwnCreateOk(s, s.destroys[t]) && WorldOk(s) && Current(s, s.destroys[t])
  {
    hide ThreadsOk, WorldOk, CreateOk, PairOk;
  }

  lemma KeysOk(s: State)
    requires WorldOk(s)
    ensures s.sh.workers.Keys == s.sh.instances.Keys
  {
  }

  // Removing tracking entries and live containers harms nobody.
  lemma ShrunkWorld(s: State, s': State)
    requires WorldOk(s) && s'.creates == s.creates && s'.created == s.created && s'.nextInst == s.nextInst
    requires s'.owner == s.owner && s'.sh.creating == s.sh.creating && s'.live <= s.live
    requires s'.sh.workers.Keys == s'.sh.instances.Keys
    requires forall x :: x in s'.sh.instances ==> x in s.sh.instances && s'.sh.instances[x] == s.sh.instances[x]
    ensures WorldOk(s')
  {
    forall i | i in s'.live ensures i in s'.owner && LiveOk(s', i) {
      assert LiveOk(s, i);
    }
  }

  lemma GetOwn(s: State, t: Tid, o: Outcome)
    requires Inv(s) && Enabled(s, DestroyStep(t, o)) && s.destroys[t].pc.Get?
    ensures var s' := StepDestroy(s, t, o);
            t in s'.destroys && OwnCreateOk(s', s'.destroys[t]) && DestroyOk(s', s'.destroys[t])
  {
    hide Inv, WorldOk;
    InvAtDestroy(s, t);
    KeysOk(s);
    var s' := StepDestroy(s, t, o);
    forall v | v in s'.creates && IsLast(s', v) && s'.creates[v].sid == s.destroys[t].sid
      ensures CreateOk(s', s'.creates[v]) && PairOk(s', s'.creates[v], s'.destroys[t])
    {
      assert IsLast(s, v);
    }
  }

  lemma GetKeeps(s: State, t: Tid, o: Outcome)
    requires Inv(s) && Enabled(s, DestroyStep(t, o)) && s.destroys[t].pc.Get?
    ensures Inv(StepDestroy(s, t, o))
  {
    hide Inv, WorldOk, OwnCreateOk, DestroyOk;
    GetOwn(s, t, o);
    InvAtDestroy(s, t);
    KeysOk(s);
    ShrunkWorld(s, StepDestroy(s, t, o));
    OtherDestroyersKept(s, StepDestroy(s, t, o), t);
  }

  lemma LookupOwn(s: State, t: Tid, o: Outcome)
    requires Inv(s) && Enabled(s, DestroyStep(t, o)) && s.destroys[t].pc.Lookup?
    ensures var s' := StepDestroy(s, t, o);
            t in s'.destroys && OwnCreateOk(s', s'.destroys[t]) && DestroyOk(s', s'.destroys[t])
  {
    hide Inv, WorldOk;
    InvAtDestroy(s, t);
    KeysOk(s);
    var s' := StepDestroy(s, t, o);
    forall v | v in s'.creates && IsLast(s', v) && s'.creates[v].sid == s.destroys[t].sid
      ensures CreateOk(s', s'.creates[v]) && PairOk(s', s'.creates[v], s'.destroys[t])
    {
      assert IsLast(s, v);
    }
  }

  lemma LookupKeeps(s: State, t: Tid, o: Outcome)
    requires Inv(s) && Enabled(s, DestroyStep(t, o)) && s.destroys[t].pc.Lookup?
    ensures Inv(StepDestroy(s, t, o))
  {
    hide Inv, WorldOk, OwnCreateOk, DestroyOk;
    LookupOwn(s, t, o);
    InvAtDestroy(s, t);
    KeysOk(s);
    ShrunkWorld(s, StepDestroy(s, t, o));
    OtherDestroyersKept(s, StepDestroy(s, t, o), t);
  }

  lemma EnvDestroyCreate(s: State, t: Tid, o: Outcome, v: Tid)
    requires Inv(s) && Enabled(s, DestroyStep(t, o)) && s.destroys[t].pc.EnvDestroy?
    requires IsLast(s, v) && s.creates[v].sid == s.destroys[t].sid
    ensures CreateOk(StepDestroy(s, t, o), s.creates[v])
  {
    hide Inv, WorldOk, PairOk, DestroyOk;
    InvAtDestroy(s, t);
  }

  lemma EnvDestroyPair(s: State, t: Tid, o: Outcome, v: Tid)
    requires Inv(s) && Enabled(s, DestroyStep(t, o)) && s.destroys[t].pc.EnvDestroy?
    requires IsLast(s, v) && s.creates[v].sid == s.destroys[t].sid
    ensures PairOk(StepDestroy(s, t, o), s.creates[v], StepDestroy(s, t, o).destroys[t])
  {
    hide Inv, WorldOk, CreateOk, DestroyOk;
    InvAtDestroy(s, t);
  }

  lemma EnvDestroyOwn(s: State, t: Tid, o: Outcome)
    requires Inv(s) && Enabled(s, DestroyStep(t, o)) && s.destroys[t].pc.EnvDestroy?
    ensures var s' := StepDestroy(s, t, o);
            t in s'.destroys && OwnCreateOk(s', s'.destroys[t]) && DestroyOk(s', s'.destroys[t])
  {
    hide Inv, WorldOk, CreateOk, PairOk;
    InvAtDestroy(s, t);
    var s' := StepDestroy(s, t, o);
    forall v | v in s'.creates && IsLast(s', v) && s'.creates[v].sid == s.destroys[t].sid
      ensures CreateOk(s', s'.creates[v]) && PairOk(s', s'.creates[v], s'.destroys[t])
    {
      assert IsLast(s, v);
      EnvDestroyCreate(s, t, o, v);
      EnvDestroyPair(s, t, o, v);
    }
  }

  lemma EnvDestroyKeeps(s: State, t: Tid, o: Outcome)
    requires Inv(s) && Enabled(s, DestroyStep(t, o)) && s.destroys[t].pc.EnvDestroy?
    ensures Inv(StepDestroy(s, t, o))
  {
    hide Inv, WorldOk, OwnCreateOk, DestroyOk;
    EnvDestroyOwn(s, t, o);
    InvAtDestroy(s, t);
    KeysOk(s);
    ShrunkWorld(s, StepDestroy(s, t, o));
    OtherDestroyersKept(s, StepDestroy(s, t, o), t);
  }

  lemma ForgetOwn(s: State, t: Tid, o: Outcome)
    requires Inv(s) && Enabled(s, DestroyStep(t, o)) && s.destroys[t].pc.Forget?
    ensures var s' := StepDestroy(s, t, o);
            t in s'.destroys && OwnCreateOk(s', s'.destroys[t]) && DestroyOk(s', s'.destroys[t])
  {
    hide Inv, WorldOk;
    InvAtDestroy(s, t);
    KeysOk(s);
    var s' := StepDestroy(s, t, o);
    forall v | v in s'.creates && IsLast(s', v) && s'.creates[v].sid == s.destroys[t].sid
      ensures CreateOk(s', s'.creates[v]) && PairOk(s', s'.creates[v], s'.destroys[t])
    {
      assert IsLast(s, v);
    }
  }

  lemma ForgetKeeps(s: State, t: Tid, o: Outcome)
    requires Inv(s) && Enabled(s, DestroyStep(t, o)) && s.destroys[t].pc.Forget?
    ensures Inv(StepDestroy(s, t, o))
  {
    hide Inv, WorldOk, OwnCreateOk, DestroyOk;
    ForgetOwn(s, t, o);
    InvAtDestroy(s, t);
    KeysOk(s);
    ShrunkWorld(s, StepDestroy(s, t, o));
    OtherDestroyersKept(s, StepDestroy(s, t, o), t);
  }

  lemma DestroyStepKeeps(s: State, t: Tid, o: Outcome)
    requires Inv(s) && Enabled(s, DestroyStep(t, o))
    ensures Inv(StepDestroy(s, t, o))
  {
    hide Inv, StepDestroy;
    match s.destroys[t].pc
    case Get => GetKeeps(s, t, o);
    case Lookup(_) => LookupKeeps(s, t, o);
    case EnvDestroy(_) => EnvDestroyKeeps(s, t, o);
    case Forget => ForgetKeeps(s, t, o);
  }

  lemma MarkCreatingThreads(s: State, sid: Sid)
    requires Inv(s) && Enabled(s, MarkCreating(sid)) && Disciplined(s, MarkCreating(sid))
    ensures ThreadsOk(Apply(s, MarkCreating(sid)))
  {
    hide CreatesOk, DestroysOk, PairsOk, WorldOk;
  }

  lemma MarkCreatingCreates(s: State, sid: Sid)
    requires Inv(s) && Enabled(s, MarkCreating(sid)) && Disciplined(s, MarkCreating(sid))
    ensures CreatesOk(Apply(s, MarkCreating(sid)))
  {
    hide DestroysOk, PairsOk;
  }

  lemma MarkCreatingDestroys(s: State, sid: Sid)
    requires Inv(s) && Enabled(s, MarkCreating(sid)) && Disciplined(s, MarkCreating(sid))
    ensures DestroysOk(Apply(s, MarkCreating(sid)))
  {
    hide CreatesOk, PairsOk, WorldOk, ThreadsOk;
  }

  lemma MarkCreatingPairs(s: State, sid: Sid)
    requires Inv(s) && Enabled(s, MarkCreating(sid)) && Disciplined(s, MarkCreating(sid))
    ensures PairsOk(Apply(s, MarkCreating(sid)))
  {
    hide WorldOk, CreatesOk, NoneLive;
  }

  lemma MarkCreatingWorld(s: State, sid: Sid)
    requires Inv(s) && Enabled(s, MarkCreating(sid)) && Disciplined(s, MarkCreating(sid))
    ensures WorldOk(Apply(s, MarkCreating(sid)))
  {
    hide DestroysOk, PairsOk;
  }

  lemma MarkCreatingKeeps(s: State, sid: Sid)
    requires Inv(s) && Enabled(s, MarkCreating(sid)) && Disciplined(s, MarkCreating(sid))
    ensures Inv(Apply(s, MarkCreating(sid)))
  {
    hide Inv, Apply, Disciplined, ThreadsOk, CreatesOk, DestroysOk, PairsOk, WorldOk;
    MarkCreatingThreads(s, sid);
    MarkCreatingCreates(s, sid);
    MarkCreatingDestroys(s, sid);
    MarkCreatingPairs(s, sid);
    MarkCreatingWorld(s, sid);
    InvIs(Apply(s, MarkCreating(sid)));
  }

  lemma StartCreateThreads(s: State, t: Tid, sid: Sid)
    requires Inv(s) && Enabled(s, StartCreate(t, sid)) && Disciplined(s, StartCreate(t, sid))
    ensures ThreadsOk(Apply(s, StartCreate(t, sid)))
  {
    hide CreatesOk, DestroysOk, PairsOk, WorldOk;
  }

  // The new create starts with nothing of its session running; every other session's last create is as it was.
  lemma StartCreateOwn(s: State, t: Tid, sid: Sid)
    requires Inv(s) && Enabled(s, StartCreate(t, sid)) && Disciplined(s, StartCreate(t, sid))
    ensures CreateOk(Apply(s, StartCreate(t, sid)), Create(sid, Adopted(s.sh, sid, s.nextGuard), EarlyCheck, None))
  {
    hide DestroysOk, PairsOk, CreatesOk;
  }

  lemma StartCreateCreates(s: State, t: Tid, sid: Sid)
    requires Inv(s) && Enabled(s, StartCreate(t, sid)) && Disciplined(s, StartCreate(t, sid))
    ensures CreatesOk(Apply(s, StartCreate(t, sid)))
  {
    hide DestroysOk, PairsOk, WorldOk, Disciplined;
    StartCreateOwn(s, t, sid);
    var s' := Apply(s, StartCreate(t, sid));
    forall u | u in s'.creates && IsLast(s', u) && u != t ensures CreateOk(s', s'.creates[u]) {
      assert IsLast(s, u);
      assert CreateOk(s, s.creates[u]);
    }
  }

  lemma StartCreateDestroys(s: State, t: Tid, sid: Sid)
    requires Inv(s) && Enabled(s, StartCreate(t, sid)) && Disciplined(s, StartCreate(t, sid))
    ensures DestroysOk(Apply(s, StartCreate(t, sid)))
  {
    hide CreatesOk, PairsOk, WorldOk, ThreadsOk;
  }

  // A mark already on the guard obliges the new create from the start.
  lemma StartCreatePair(s: State, t: Tid, sid: Sid, u: Tid)
    requires Inv(s) && Enabled(s, StartCreate(t, sid)) && Disciplined(s, StartCreate(t, sid))
    requires u in s.destroys && s.destroys[u].sid == sid && Current(Apply(s, StartCreate(t, sid)), s.destroys[u])
    ensures PairOk(Apply(s, StartCreate(t, sid)), Create(sid, Adopted(s.sh, sid, s.nextGuard), EarlyCheck, None),
                   s.destroys[u])
  {
    hide ThreadsOk, WorldOk, CreatesOk, PairsOk, NoneLive, NoCreateRunning;
    assert DestroyOk(s, s.destroys[u]);
  }

  lemma StartCreatePairs(s: State, t: Tid, sid: Sid)
    requires Inv(s) && Enabled(s, StartCreate(t, sid)) && Disciplined(s, StartCreate(t, sid))
    ensures PairsOk(Apply(s, StartCreate(t, sid)))
  {
    hide ThreadsOk, WorldOk, CreatesOk, DestroysOk, Disciplined;
    var s' := Apply(s, StartCreate(t, sid));
    forall v, u | v in s'.creates && IsLast(s', v) && u in s'.destroys && s'.creates[v].sid == s'.destroys[u].sid &&
                  Current(s', s'.destroys[u])
      ensures PairOk(s', s'.creates[v], s'.destroys[u])
    {
      if v == t {
        StartCreatePair(s, t, sid, u);
      } else {
        assert IsLast(s, v);
        assert PairOk(s, s.creates[v], s.destroys[u]);
      }
    }
  }

  lemma StartCreateLive(s: State, t: Tid, sid: Sid, i: Inst)
    requires Inv(s) && Enabled(s, StartCreate(t, sid)) && Disciplined(s, StartCreate(t, sid)) && i in s.live
    ensures i in s.owner && LiveOk(Apply(s, StartCreate(t, sid)), i)
  {
    hide CreatesOk, DestroysOk, PairsOk, NoDestroyRunning;
  }

  lemma StartCreateWorld(s: State, t: Tid, sid: Sid)
    requires Inv(s) && Enabled(s, StartCreate(t, sid)) && Disciplined(s, StartCreate(t, sid))
    ensures WorldOk(Apply(s, StartCreate(t, sid)))
  {
    hide CreatesOk, DestroysOk, PairsOk, ThreadsOk, LiveOk, Disciplined;
    forall i | i in s.live ensures i in s.owner && LiveOk(Apply(s, StartCreate(t, sid)), i) {
      StartCreateLive(s, t, sid, i);
    }
  }

  lemma StartCreateKeeps(s: State, t: Tid, sid: Sid)
    requires Inv(s) && Enabled(s, StartCreate(t, sid)) && Disciplined(s, StartCreate(t, sid))
    ensures Inv(Apply(s, StartCreate(t, sid)))
  {
    hide Inv, Apply, Disciplined, ThreadsOk, CreatesOk, DestroysOk, PairsOk, WorldOk;
    StartCreateThreads(s, t, sid);
    StartCreateCreates(s, t, sid);
    StartCreateDestroys(s, t, sid);
    StartCreatePairs(s, t, sid);
    StartCreateWorld(s, t, sid);
    InvIs(Apply(s, StartCreate(t, sid)));
  }

  lemma StartDestroyThreads(s: State, t: Tid, sid: Sid)
    requires Inv(s) && Enabled(s, StartDestroy(t, sid)) && Disciplined(s, StartDestroy(t, sid))
    ensures ThreadsOk(Apply(s, StartDestroy(t, sid)))
  {
    hide CreatesOk, DestroysOk, PairsOk, WorldOk;
  }

  lemma StartDestroyCreates(s: State, t: Tid, sid: Sid)
    requires Inv(s) && Enabled(s, StartDestroy(t, sid)) && Disciplined(s, StartDestroy(t, sid))
    ensures CreatesOk(Apply(s, StartDestroy(t, sid)))
  {
    hide DestroysOk, PairsOk;
  }

  lemma StartDestroyDestroys(s: State, t: Tid, sid: Sid)
    requires Inv(s) && Enabled(s, StartDestroy(t, sid)) && Disciplined(s, StartDestroy(t, sid))
    ensures DestroysOk(Apply(s, StartDestroy(t, sid)))
  {
    hide CreatesOk, PairsOk, WorldOk, ThreadsOk;
  }

  lemma StartDestroyPairs(s: State, t: Tid, sid: Sid)
    requires Inv(s) && Enabled(s, StartDestroy(t, sid)) && Disciplined(s, StartDestroy(t, sid))
    ensures PairsOk(Apply(s, StartDestroy(t, sid)))
  {
    hide WorldOk, CreatesOk, NoneLive;
  }

  lemma StartDestroyWorld(s: State, t: Tid, sid: Sid)
    requires Inv(s) && Enabled(s, StartDestroy(t, sid)) && Disciplined(s, StartDestroy(t, sid))
    ensures WorldOk(Apply(s, StartDestroy(t, sid)))
  {
    hide DestroysOk, PairsOk;
  }

  lemma StartDestroyKeeps(s: State, t: Tid, sid: Sid)
    requires Inv(s) && Enabled(s, StartDestroy(t, sid)) && Disciplined(s, StartDestroy(t, sid))
    ensures Inv(Apply(s, StartDestroy(t, sid)))
  {
    hide Inv, Apply, Disciplined, ThreadsOk, CreatesOk, DestroysOk, PairsOk, WorldOk;
    StartDestroyThreads(s, t, sid);
    StartDestroyCreates(s, t, sid);
    StartDestroyDestroys(s, t, sid);
    StartDestroyPairs(s, t, sid);
    StartDestroyWorld(s, t, sid);
    InvIs(Apply(s, StartDestroy(t, sid)));
  }

  lemma StepKeeps(s: State, step: Step)
    requires Inv(s) && Enabled(s, step) && Disciplined(s, step)
    ensures Inv(Apply(s, step))
  {
    hide Inv, StepCreate, StepDestroy, Disciplined;
    match step
    case CreateStep(t, o) => CreateStepKeeps(s, t, o);
    case DestroyStep(t, o) => DestroyStepKeeps(s, t, o);
    case MarkCreating(sid) => MarkCreatingKeeps(s, sid);
    case StartCreate(t, sid) => StartCreateKeeps(s, t, sid);
    case StartDestroy(t, sid) => StartDestroyKeeps(s, t, sid);
  }

  lemma {:induction false} RunKeeps(s: State, steps: seq<Step>)
    requires Inv(s) && DisciplinedRun(s, steps)
    ensures Run(s, steps) && Inv(Final(s, steps))
    decreases |steps|
  {
    hide Inv, Apply;
    if steps != [] {
      StepKeeps(s, steps[0]);
      RunKeeps(Apply(s, steps[0]), steps[1..]);
    }
  }
}
