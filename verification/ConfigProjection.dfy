/**
 The subscription table and the fold of its project's log: when exactly the two agree, over every run of the concurrent
 seam.
 */
module ConfigProjection {
  import opened Text
  import opened ConfigFold
  import opened ConfigLog

  // ---- agreement ----

  // The newest record of an id in a project's log and the project's row say the same thing.
  predicate Agrees(t: Tables, project: string, id: string) {
    match Newest(Selected(t.log, project, 0), SubRef(id))
    case None => !Visible(t, project, id)
    case Some(r) =>
      if IsDelete(r.action) then !Visible(t, project, id)
      else Visible(t, project, id) && r.payload == SubPayload(t.subs[id])
  }

  predicate SubRecord(r: Record) {
    RefFor(r).Some? && RefFor(r).value.kind == SubscriptionKind
  }

  predicate SubLog(log: seq<Record>) {
    forall i :: 0 <= i < |log| ==> SubRecord(log[i])
  }

  ghost predicate TablesAgree(t: Tables) {
    SubLog(t.log) && forall project, id :: Agrees(t, project, id)
  }

  // ---- what breaks it ----

  // A save is an upsert on the primary key: it takes over a row that has become another project's meanwhile.
  predicate TakesOver(t: Tables, m: Mutation) {
    m.Save? && m.row.id in t.subs && t.subs[m.row.id].project != m.row.project
  }

  predicate CleanWrite(t: Tables, m: Mutation) {
    !Blank(m.row.id) && !TakesOver(t, m)
  }

  predicate Lands(s: State, step: Step) {
    step.Advance? && step.t in s.writers && s.writers[step.t].Holding? &&
    var w := s.writers[step.t];
    Transact(s.tables, w.m, w.n, step.uid, step.at).Landed?
  }

  predicate CleanStep(s: State, step: Step) {
    Lands(s, step) ==> CleanWrite(s.tables, s.writers[step.t].m)
  }

  // ---- one landing ----

  lemma RecordKeys(m: Mutation, n: nat, uid: string, at: int)
    ensures RefFor(RecordOf(m, n, uid, at)) == if Blank(m.row.id) then None else Some(SubRef(m.row.id))
  {
    hide Trim, Blank;
  }

  lemma NewestNext(log: seq<Record>, r: Record, ref: EntityRef)
    ensures Newest(log + [r], ref) == if RefFor(r) == Some(ref) then Some(r) else Newest(log, ref)
  {
    hide RefFor;
    assert (log + [r])[..|log|] == log;
  }

  lemma SelectedNext(log: seq<Record>, r: Record, project: string)
    ensures Selected(log + [r], project, 0) ==
            if r.project == project then Selected(log, project, 0) + [r] else Selected(log, project, 0)
  {
    assert (log + [r])[..|log|] == log;
  }

  // The newest record of an id after a landing.
  lemma NewestAfter(log: seq<Record>, r: Record, project: string, ref: EntityRef)
    ensures Newest(Selected(log + [r], project, 0), ref) ==
            if r.project == project && RefFor(r) == Some(ref) then Some(r) else Newest(Selected(log, project, 0), ref)
  {
    hide RefFor, Newest, Selected;
    SelectedNext(log, r, project);
    NewestNext(Selected(log, project, 0), r, ref);
  }

  // The tables a landing leaves.
  predicate LandedAs(t: Tables, m: Mutation, r: Record, t': Tables) {
    Write(t.subs, m) == Some(t'.subs) && t'.log == t.log + [r] && r.project == m.row.project &&
    r.action == ActionOf(m) && r.payload == SubPayload(m.row) &&
    RefFor(r) == if Blank(m.row.id) then None else Some(SubRef(m.row.id))
  }

  lemma CleanKeeps(t: Tables, m: Mutation, r: Record, t': Tables)
    requires TablesAgree(t) && LandedAs(t, m, r, t') && CleanWrite(t, m)
    ensures TablesAgree(t')
  {
    hide RefFor, Newest, Selected, SubPayload, Trim, Blank;
    forall project, id ensures Agrees(t', project, id) {
      assert Agrees(t, project, id);
      NewestAfter(t.log, r, project, SubRef(id));
    }
  }

  // ---- the fold of one project ----

  // What the fold of a project's log says about a reference, beside what the table says.
  ghost predicate FoldMatches(t: Tables, project: string, snap: Snapshot, ref: EntityRef) {
    var key, live := Render(ref), ref.kind == SubscriptionKind && Visible(t, project, ref.key);
    && (key in snap.entities <==> live)
    && (live ==> snap.entities[key].ref == ref && snap.entities[key].record.payload == SubPayload(t.subs[ref.key]))
    && (key in snap.deleted <==> !live && Newest(Selected(t.log, project, 0), ref).Some?)
  }

  // The project's log folds, and the fold is right about the reference.
  ghost predicate Folds(t: Tables, project: string, ref: EntityRef) {
    var evs := Selected(t.log, project, 0);
    AllKeyed(evs) && FoldMatches(t, project, Fold(evs), ref)
  }

  ghost predicate AllFold(t: Tables) {
    forall project, ref :: ValidRef(ref) ==> Folds(t, project, ref)
  }

  lemma {:induction false} SelectedSubs(log: seq<Record>, project: string)
    requires SubLog(log)
    ensures SubLog(Selected(log, project, 0)) && AllKeyed(Selected(log, project, 0))
  {
    hide RefFor;
    if log != [] {
      SelectedSubs(log[..|log| - 1], project);
      assert SubRecord(log[|log| - 1]);
    }
  }

  lemma {:induction false} OnlySubscriptions(log: seq<Record>, ref: EntityRef)
    requires SubLog(log) && ref.kind != SubscriptionKind
    ensures Newest(log, ref) == None
  {
    hide RefFor;
    if log != [] {
      OnlySubscriptions(log[..|log| - 1], ref);
      assert SubRecord(log[|log| - 1]);
    }
  }

  lemma AgreementFolds(t: Tables, project: string, ref: EntityRef)
    requires TablesAgree(t) && ValidRef(ref)
    ensures Folds(t, project, ref)
  {
    hide Fold, Selected, RefFor, Render, Newest, SubPayload, Trim, Blank, AllKeyed;
    var evs := Selected(t.log, project, 0);
    SelectedSubs(t.log, project);
    FoldIsNewest(evs, ref);
    if ref.kind == SubscriptionKind {
      assert ref == SubRef(ref.key);
      assert Agrees(t, project, ref.key);
    } else {
      OnlySubscriptions(evs, ref);
    }
  }

  // ---- a landing that is not clean ----

  // A record that cannot be keyed: the fold of that log fails from then on.
  lemma BlankBreaks(t: Tables, m: Mutation, r: Record, t': Tables)
    requires LandedAs(t, m, r, t') && Blank(m.row.id)
    ensures !AllKeyed(Selected(t'.log, m.row.project, 0))
  {
    hide RefFor, Trim, Blank, Selected;
    SelectedNext(t.log, r, m.row.project);
    var evs := Selected(t'.log, m.row.project, 0);
    assert evs[|evs| - 1] == r;
  }

  // The project whose row was taken over: its log shows the row, its table does not.
  lemma TakeoverBreaks(t: Tables, m: Mutation, r: Record, t': Tables)
    requires TablesAgree(t) && LandedAs(t, m, r, t') && TakesOver(t, m)
    ensures !Folds(t', t.subs[m.row.id].project, SubRef(m.row.id))
  {
    hide RefFor, Newest, Selected, SubPayload, Trim, Blank, Fold, Render, AllKeyed;
    var victim, ref := t.subs[m.row.id].project, SubRef(m.row.id);
    assert Agrees(t, victim, m.row.id);
    SelectedNext(t.log, r, victim);
    SelectedSubs(t.log, victim);
    VisibleIsNotBlank(t, victim, m.row.id);
    FoldIsNewest(Selected(t.log, victim, 0), ref);
  }

  lemma VisibleIsNotBlank(t: Tables, project: string, id: string)
    requires Agrees(t, project, id) && Visible(t, project, id)
    ensures ValidRef(SubRef(id))
  {
    hide RefFor, Trim, Blank;
    var evs := Selected(t.log, project, 0);
    NewestIsRecord(evs, SubRef(id));
    RefForIsValid(Newest(evs, SubRef(id)).value);
  }

  lemma SingletonIsValid()
    ensures ValidRef(EntityRef(SettingsKind, ""))
  {
  }

  // From tables that agree, a landing leaves every project's fold right exactly if it is clean.
  lemma LandingIff(t: Tables, m: Mutation, r: Record, t': Tables)
    requires TablesAgree(t) && LandedAs(t, m, r, t')
    ensures CleanWrite(t, m) ==> TablesAgree(t')
    ensures AllFold(t') <==> CleanWrite(t, m)
  {
    hide TablesAgree, LandedAs, Folds, TakesOver, Trim, Blank;
    if CleanWrite(t, m) {
      CleanKeeps(t, m, r, t');
      forall project, ref | ValidRef(ref) ensures Folds(t', project, ref) {
        AgreementFolds(t', project, ref);
      }
    } else if Blank(m.row.id) {
      SingletonIsValid();
      BlankBreaks(t, m, r, t');
      UnkeyedFoldsNothing(t', m.row.project, EntityRef(SettingsKind, ""));
      OneWrongFold(t', m.row.project, EntityRef(SettingsKind, ""));
    } else {
      TakeoverIsVisible(t, m);
      TakeoverBreaks(t, m, r, t');
      OneWrongFold(t', t.subs[m.row.id].project, SubRef(m.row.id));
    }
  }

  lemma TakeoverIsVisible(t: Tables, m: Mutation)
    requires TakesOver(t, m)
    ensures m.row.id in t.subs
  {
  }

  lemma OneWrongFold(t: Tables, project: string, ref: EntityRef)
    requires ValidRef(ref) && !Folds(t, project, ref)
    ensures !AllFold(t)
  {
  }

  lemma UnkeyedFoldsNothing(t: Tables, project: string, ref: EntityRef)
    requires !AllKeyed(Selected(t.log, project, 0))
    ensures !Folds(t, project, ref)
  {
  }

  // ---- whole runs ----

  lemma LandingStep(s: State, step: Step)
    requires Lands(s, step)
    ensures var m := s.writers[step.t].m;
            LandedAs(s.tables, m, RecordOf(m, s.writers[step.t].n, step.uid, step.at), Apply(s, step).tables)
  {
    hide Trim, Blank, RefFor, Taken;
    RecordKeys(s.writers[step.t].m, s.writers[step.t].n, step.uid, step.at);
  }

  lemma OtherStep(s: State, step: Step)
    requires !Lands(s, step)
    ensures Apply(s, step).tables == s.tables
  {
    hide Taken, MaxSeq, Read;
  }

  lemma StepIff(s: State, step: Step)
    requires TablesAgree(s.tables)
    ensures CleanStep(s, step) ==> TablesAgree(Apply(s, step).tables)
    ensures AllFold(Apply(s, step).tables) <==> CleanStep(s, step)
  {
    hide TablesAgree, CleanWrite, Apply, Folds, LandedAs;
    if Lands(s, step) {
      LandingStep(s, step);
      var m := s.writers[step.t].m;
      LandingIff(s.tables, m, RecordOf(m, s.writers[step.t].n, step.uid, step.at), Apply(s, step).tables);
    } else {
      OtherStep(s, step);
      forall project, ref | ValidRef(ref) ensures Folds(s.tables, project, ref) {
        AgreementFolds(s.tables, project, ref);
      }
    }
  }

  // In every state of the run, every project's fold is right about every reference.
  ghost predicate AlwaysFolds(s: State, steps: seq<Step>)
    decreases |steps|
  {
    AllFold(s.tables) && (steps == [] || AlwaysFolds(Apply(s, steps[0]), steps[1..]))
  }

  predicate AlwaysClean(s: State, steps: seq<Step>)
    decreases |steps|
  {
    steps == [] || (CleanStep(s, steps[0]) && AlwaysClean(Apply(s, steps[0]), steps[1..]))
  }

  lemma {:induction false} RunIff(s: State, steps: seq<Step>)
    requires TablesAgree(s.tables) && AllFold(s.tables)
    ensures AlwaysFolds(s, steps) <==> AlwaysClean(s, steps)
    ensures AlwaysClean(s, steps) ==> TablesAgree(Final(s, steps).tables)
    decreases |steps|
  {
    hide Apply, TablesAgree, AllFold, CleanStep;
    if steps != [] {
      StepIff(s, steps[0]);
      if CleanStep(s, steps[0]) {
        RunIff(Apply(s, steps[0]), steps[1..]);
      } else {
        FirstStateFolds(Apply(s, steps[0]), steps[1..]);
      }
    }
  }

  lemma FirstStateFolds(s: State, steps: seq<Step>)
    ensures AlwaysFolds(s, steps) ==> AllFold(s.tables)
  {
  }

  lemma InitAgrees()
    ensures TablesAgree(Init().tables) && AllFold(Init().tables)
  {
    hide Folds;
    forall project, ref | ValidRef(ref) ensures Folds(Init().tables, project, ref) {
      AgreementFolds(Init().tables, project, ref);
    }
  }

  // Any run of concurrent creates, updates from however stale a read, and deletes: in every state the fold of each
  // project's whole log is that project's rows, and its tombstones are the ids it wrote that have no row, exactly if no
  // save committed on a row that another project owned by then, and no row with a blank id was written.
  lemma FoldIsTableIff(steps: seq<Step>)
    ensures AlwaysFolds(Init(), steps) <==> AlwaysClean(Init(), steps)
  {
    hide AlwaysFolds, AlwaysClean, TablesAgree, AllFold;
    InitAgrees();
    RunIff(Init(), steps);
  }

  lemma FoldIsTable(steps: seq<Step>, project: string, ref: EntityRef)
    requires AlwaysClean(Init(), steps) && ValidRef(ref)
    ensures Folds(Final(Init(), steps).tables, project, ref)
  {
    hide AlwaysClean, TablesAgree, AllFold, Final, Folds;
    InitAgrees();
    RunIff(Init(), steps);
    AgreementFolds(Final(Init(), steps).tables, project, ref);
  }

  // ---- a condition on the callers alone: an id belongs to one project, and is not blank ----

  // `own` says which project each id belongs to.
  predicate OwnedRow(own: string -> string, row: Sub) {
    !Blank(row.id) && own(row.id) == row.project
  }

  predicate OwnedOp(own: string -> string, op: Op) {
    op.CreateOp? ==> OwnedRow(own, op.row)
  }

  predicate OwnedSteps(own: string -> string, steps: seq<Step>) {
    forall i :: 0 <= i < |steps| && steps[i].Start? ==> OwnedOp(own, steps[i].op)
  }

  predicate OwnedWriter(own: string -> string, w: Writer) {
    match w
    case Reading(op) => OwnedOp(own, op)
    case Marking(m, _) => OwnedRow(own, m.row)
    case Holding(m, _, _) => OwnedRow(own, m.row)
    case _ => true
  }

  predicate OwnedState(own: string -> string, s: State) {
    (forall id :: id in s.tables.subs ==> s.tables.subs[id].id == id && OwnedRow(own, s.tables.subs[id])) &&
    (forall t :: t in s.writers ==> OwnedWriter(own, s.writers[t]))
  }

  lemma MovedOwned(own: string -> string, s: State, t: Tid, uid: string, at: int)
    requires OwnedState(own, s) && t in s.writers
    ensures var (w', t') := Moved(s.tables, s.writers[t], uid, at);
            OwnedWriter(own, w') && forall id :: id in t'.subs ==> t'.subs[id].id == id && OwnedRow(own, t'.subs[id])
  {
    hide MaxSeq, Taken, Trim, Blank;
    assert OwnedWriter(own, s.writers[t]);
  }

  lemma OwnedStepIsClean(own: string -> string, s: State, step: Step)
    requires OwnedState(own, s) && (step.Start? ==> OwnedOp(own, step.op))
    ensures CleanStep(s, step) && OwnedState(own, Apply(s, step))
  {
    hide Moved, Transact, Trim, Blank;
    if step.Advance? && step.t in s.writers {
      assert OwnedWriter(own, s.writers[step.t]);
      MovedOwned(own, s, step.t, step.uid, step.at);
    }
  }

  lemma {:induction false} OwnedRunIsClean(own: string -> string, s: State, steps: seq<Step>)
    requires OwnedState(own, s) && OwnedSteps(own, steps)
    ensures AlwaysClean(s, steps)
    decreases |steps|
  {
    hide Apply, OwnedState, CleanStep;
    if steps != [] {
      OwnedStepIsClean(own, s, steps[0]);
      OwnedRunIsClean(own, Apply(s, steps[0]), steps[1..]);
    }
  }
}
