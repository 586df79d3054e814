/** Any sequence of logged mutations and reverts. */
module RevertRuns {
  import opened Text
  import opened ConfigFold
  import opened ConfigLog
  import opened ConfigRows
  import opened ConfigHistory
  import opened Revert
  import opened RevertTheorems

  datatype Edit =
    | PutWorker(w: Row)
    | WorkerPrompt(project: string, name: string, rest: string)
    | RemoveWorker(project: string, name: string)
    | AddSub(s: Row) | ChangeSub(s: Row) | RemoveSub(project: string, id: string)
    | AddSchedule(s: Row) | ChangeSchedule(s: Row) | RemoveSchedule(project: string, id: string)
    | WriteSettings(s: Row)
    | WritePrompt(project: string, prompt: string)
    | RevertOne(project: string, id: string)

  // Identities are not blank, and each edit carries a row of its own table.
  predicate WellFormed(e: Edit) {
    match e
    case PutWorker(w) => w.WorkerRow? && !Blank(w.name)
    case AddSub(s) => s.SubRow? && !Blank(s.id)
    case ChangeSub(s) => s.SubRow? && !Blank(s.id)
    case AddSchedule(s) => s.ScheduleRow? && !Blank(s.id)
    case ChangeSchedule(s) => s.ScheduleRow? && !Blank(s.id)
    case WriteSettings(s) => s.SettingsRow?
    case _ => true
  }

  function Tried(c: Config, e: Edit, cap: nat, st: Stamp): Result<Config, RevertError>
    requires WellFormed(e)
  {
    match e
    case PutWorker(w) => Outcome(UpsertWorker(c, w, st))
    case WorkerPrompt(p, n, rest) => Outcome(SetWorkerPrompt(c, p, n, rest, st))
    case RemoveWorker(p, n) => Outcome(DeleteWorker(c, p, n, st))
    case AddSub(s) => Outcome(CreateSubscription(c, s, st))
    case ChangeSub(s) => Outcome(UpdateSubscription(c, s, st))
    case RemoveSub(p, id) => Outcome(DeleteSubscription(c, p, id, st))
    case AddSchedule(s) => Outcome(CreateSchedule(c, s, st))
    case ChangeSchedule(s) => Outcome(UpdateSchedule(c, s, st))
    case RemoveSchedule(p, id) => Outcome(DeleteSchedule(c, p, id, st))
    case WriteSettings(s) => Outcome(PutSettings(c, s, st))
    case WritePrompt(p, prompt) => Outcome(SetPrompt(c, p, prompt, st))
    case RevertOne(p, id) => RevertEvent(c.log, c, p, id, cap, st)
  }

  // A refused or failed edit changes nothing.
  function Apply(c: Config, e: Edit, cap: nat, st: Stamp): Config
    requires WellFormed(e)
  {
    match Tried(c, e, cap, st)
    case Ok(next) => next
    case Err(_) => c
  }

  datatype Call = Call(edit: Edit, st: Stamp)

  predicate AllWellFormed(calls: seq<Call>) {
    forall i :: 0 <= i < |calls| ==> WellFormed(calls[i].edit)
  }

  function Final(c: Config, calls: seq<Call>, cap: nat): Config
    requires AllWellFormed(calls)
    decreases |calls|
  {
    if calls == [] then c else Final(Apply(c, calls[0].edit, cap, calls[0].st), calls[1..], cap)
  }

  lemma ScanIn(log: seq<Record>, project: string, kind: Kind, cap: nat, r: Record)
    requires r in Scan(log, project, kind, cap)
    ensures r in log && r.project == project
  {
    hide KindOf, OfKind;
    OfKindIn(log, project, kind);
  }

  lemma ChainIn(log: seq<Record>, project: string, entity: string, cap: nat, i: nat)
    requires Chain(log, project, entity, cap).Ok? && i < |Chain(log, project, entity, cap).value|
    ensures var r := Chain(log, project, entity, cap).value[i];
            r in log && r.project == project && RefFor(r) == Some(ParseRef(entity).value)
  {
    hide RefFor, KindOf, ParseRef, Matching, Scan;
    var ref := ParseRef(entity).value;
    var chain := Chain(log, project, entity, cap).value;
    MatchingIn(Scan(log, project, ref.kind, cap), ref);
    assert chain[i] in chain;
    ScanIn(log, project, ref.kind, cap, chain[i]);
  }

  // What a plan may write forward is a record of the entity it reverts.
  lemma PlanGenuine(c: Config, project: string, id: string, cap: nat)
    requires Inv(c) && PlanRevert(c.log, project, id, cap).Ok?
    ensures var p := PlanRevert(c.log, project, id, cap).value;
            RefFor(p.target) == Some(p.ref) && (Wanted(p).Some? ==> Genuine(Wanted(p).value, project, p.ref))
  {
    hide RefFor, Trim, Blank, Chain, FullRecord, Render, Find, AllAgree, RowsKeyed, Dense, HasInverse;
    FindIs(c.log, project, id);
    var p := PlanRevert(c.log, project, id, cap).value;
    var chain := Chain(c.log, project, Render(p.ref), cap).value;
    if |chain| > 1 {
      ChainIn(c.log, project, Render(p.ref), cap, 0);
      ChainIn(c.log, project, Render(p.ref), cap, 1);
      SameId(c.log, chain[0], p.target);
    }
  }

  lemma WriteRowKeeps(c: Config, row: Row, restoring: bool, st: Stamp)
    requires Inv(c) && (row.SettingsRow? || ValidRef(RefOfRow(row)))
    ensures WriteRow(c, row, restoring, st).Ok? ==> Inv(WriteRow(c, row, restoring, st).value)
  {
    hide Inv, Trim, Blank, UpsertWorker, CreateSubscription, UpdateSubscription, CreateSchedule, UpdateSchedule,
         PutSettings;
    match row
    case WorkerRow(_, _, _, _, _) => UpsertWorkerKeeps(c, row, st);
    case SubRow(_, _, _, _) => SubscriptionKeeps(c, row, st);
    case ScheduleRow(_, _, _) => ScheduleKeeps(c, row, st);
    case SettingsRow(_, _, _) => PutSettingsKeeps(c, row, st);
  }

  lemma RemoveRowKeeps(c: Config, project: string, ref: EntityRef, st: Stamp)
    requires Inv(c)
    ensures RemoveRow(c, project, ref, st).Ok? ==> Inv(RemoveRow(c, project, ref, st).value)
  {
    hide Inv, Drop;
    match ref.kind
    case WorkerKind => DeleteKeeps(c, project, ref, WorkerDelete, st);
    case SubscriptionKind => DeleteKeeps(c, project, ref, SubscriptionDelete, st);
    case ScheduleKind => DeleteKeeps(c, project, ref, ScheduleDelete, st);
    case _ =>
  }

  lemma CompensateKeeps(c: Config, project: string, p: Plan, st: Stamp)
    requires Inv(c) && (Wanted(p).Some? ==> Genuine(Wanted(p).value, project, p.ref))
    ensures Compensate(c, project, p, st).Ok? ==> Inv(Compensate(c, project, p, st).value)
  {
    hide Inv, WriteRow, RemoveRow, SetPrompt, RefFor, Trim, Blank, PayloadOf;
    match Wanted(p)
    case None => RemoveRowKeeps(c, project, p.ref, st);
    case Some(from) =>
      if p.ref.kind == PromptKind {
        if FSystemPrompt in from.payload && from.payload[FSystemPrompt].Str? {
          SetPromptKeeps(c, project, from.payload[FSystemPrompt].text, st);
        }
      } else if RowFrom(p.ref.kind, from.payload).Some? {
        RefForIsValid(from);
        WriteRowKeeps(c, InProjectRow(RowFrom(p.ref.kind, from.payload).value, project), IsDelete(p.target.action), st);
      }
  }

  lemma RevertKeeps(c: Config, project: string, id: string, cap: nat, st: Stamp)
    requires Inv(c)
    ensures RevertEvent(c.log, c, project, id, cap, st).Ok? ==> Inv(RevertEvent(c.log, c, project, id, cap, st).value)
  {
    hide Inv, PlanRevert, Compensate, Genuine;
    if PlanRevert(c.log, project, id, cap).Ok? {
      PlanGenuine(c, project, id, cap);
      CompensateKeeps(c, project, PlanRevert(c.log, project, id, cap).value, st);
    }
  }

  lemma ApplyKeeps(c: Config, e: Edit, cap: nat, st: Stamp)
    requires Inv(c) && WellFormed(e)
    ensures Inv(Apply(c, e, cap, st))
  {
    hide Inv, Trim, Blank, UpsertWorker, SetWorkerPrompt, CreateSubscription, UpdateSubscription, CreateSchedule,
         UpdateSchedule, PutSettings, SetPrompt, RevertEvent, Drop;
    match e
    case PutWorker(w) => UpsertWorkerKeeps(c, w, st);
    case WorkerPrompt(p, n, rest) => SetWorkerPromptKeeps(c, p, n, rest, st);
    case RemoveWorker(p, n) => DeleteKeeps(c, p, EntityRef(WorkerKind, n), WorkerDelete, st);
    case AddSub(s) => SubscriptionKeeps(c, s, st);
    case ChangeSub(s) => SubscriptionKeeps(c, s, st);
    case RemoveSub(p, id) => DeleteKeeps(c, p, EntityRef(SubscriptionKind, id), SubscriptionDelete, st);
    case AddSchedule(s) => ScheduleKeeps(c, s, st);
    case ChangeSchedule(s) => ScheduleKeeps(c, s, st);
    case RemoveSchedule(p, id) => DeleteKeeps(c, p, EntityRef(ScheduleKind, id), ScheduleDelete, st);
    case WriteSettings(s) => PutSettingsKeeps(c, s, st);
    case WritePrompt(p, prompt) => SetPromptKeeps(c, p, prompt, st);
    case RevertOne(p, id) => RevertKeeps(c, p, id, cap, st);
  }

  // After any sequence of mutations and reverts, successful or not: every worker's, subscription's and schedule's row
  // is its newest record's payload, or absent where that is a delete or there is none.
  lemma {:induction false} RunKeeps(c: Config, calls: seq<Call>, cap: nat)
    requires Inv(c) && AllWellFormed(calls)
    ensures Inv(Final(c, calls, cap))
    decreases |calls|
  {
    hide Inv, Apply;
    if calls != [] {
      ApplyKeeps(c, calls[0].edit, cap, calls[0].st);
      RunKeeps(Apply(c, calls[0].edit, cap, calls[0].st), calls[1..], cap);
    }
  }

  // ---- the kinds with no inverse ----

  predicate Reversible(a: Action) {
    KindOf(a).Some? && HasInverse(KindOf(a).value)
  }

  // One record more, of a kind that has an inverse.
  predicate AppendsReversible(c: Config, c': Config) {
    c'.log != [] && c'.log[..|c'.log| - 1] == c.log && Reversible(c'.log[|c'.log| - 1].action)
  }

  predicate IfOk(c: Config, r: Result<Config, RevertError>) {
    r.Ok? ==> AppendsReversible(c, r.value)
  }

  lemma MutationAppends(c: Config, e: Edit, st: Stamp)
    requires WellFormed(e) && !e.RevertOne?
    ensures IfOk(c, Tried(c, e, 0, st))
  {
    hide Trim, Blank, PayloadOf, MaxSeq, UidTaken, RevertEvent, HasInverse;
    InverseKinds();
  }

  lemma InverseKinds()
    ensures HasInverse(WorkerKind) && HasInverse(SubscriptionKind) && HasInverse(ScheduleKind)
    ensures HasInverse(SettingsKind) && HasInverse(PromptKind)
  {
  }

  lemma CompensateAppends(c: Config, project: string, p: Plan, st: Stamp)
    ensures IfOk(c, Compensate(c, project, p, st))
  {
    hide Trim, Blank, PayloadOf, MaxSeq, UidTaken, RowFrom, HasInverse;
    InverseKinds();
  }

  lemma ApplyAppends(c: Config, e: Edit, cap: nat, st: Stamp)
    requires WellFormed(e)
    ensures Apply(c, e, cap, st) == c || AppendsReversible(c, Apply(c, e, cap, st))
  {
    hide Compensate, PlanRevert, AppendsReversible, UpsertWorker, SetWorkerPrompt, CreateSubscription,
         UpdateSubscription, CreateSchedule, UpdateSchedule, PutSettings, SetPrompt, Drop;
    if e.RevertOne? {
      if PlanRevert(c.log, e.project, e.id, cap).Ok? {
        CompensateAppends(c, e.project, PlanRevert(c.log, e.project, e.id, cap).value, st);
      }
    } else {
      MutationAppends(c, e, st);
    }
  }

  // Whatever is edited and reverted, and whatever the reverts are asked for: no record of a topology, an image, a skill
  // or a connection is ever added or taken away.
  lemma {:induction false} NoInverseUntouched(c: Config, calls: seq<Call>, cap: nat, project: string, ref: EntityRef)
    requires AllWellFormed(calls) && !HasInverse(ref.kind)
    ensures History(Final(c, calls, cap).log, project, ref) == History(c.log, project, ref)
    decreases |calls|
  {
    hide Apply, History, HasInverse, RefFor, AppendsReversible;
    if calls != [] {
      var next := Apply(c, calls[0].edit, cap, calls[0].st);
      ApplyAppends(c, calls[0].edit, cap, calls[0].st);
      if next != c {
        ReversibleRecord(c, next, project, ref);
      }
      NoInverseUntouched(next, calls[1..], cap, project, ref);
    }
  }

  lemma ReversibleRecord(c: Config, c': Config, project: string, ref: EntityRef)
    requires AppendsReversible(c, c') && !HasInverse(ref.kind)
    ensures History(c'.log, project, ref) == History(c.log, project, ref)
  {
    hide History, HasInverse, RefFor;
    var r := c'.log[|c'.log| - 1];
    assert c'.log == c.log + [r];
    RefForIsValid(r);
    HistoryNext(c.log, r, project, ref);
  }

  // The kinds with no inverse are refused before the log is read any further.
  lemma NoInverseRefused(c: Config, project: string, id: string, target: Record, ref: EntityRef, cap: nat, st: Stamp)
    requires Targets(c.log, project, id, target, ref)
    ensures RevertEvent(c.log, c, project, id, cap, st) == Err(Refuse(NoInverse)) <==>
              ref.kind == TopologyKind || ref.kind == ImageKind || ref.kind == SkillKind || ref.kind == ConnectionKind
  {
    hide RefFor, Trim, Blank, Find, Chain;
  }

  // ---- each mutation's own verb ----

  // What a worker's upsert is logged as, from the row it finds.
  function UpsertVerb(c: Config, w: Row): Action
    requires w.WorkerRow?
  {
    var key := WorkerKey(w.project, w.name);
    if key !in c.rows || !c.rows[key].WorkerRow? then WorkerCreate
    else
      var was := c.rows[key];
      if w.rest == was.rest && w.frozen == was.frozen && w.enabled && !was.enabled then WorkerEnable
      else if w.rest == was.rest && w.frozen == was.frozen && !w.enabled && was.enabled then WorkerDisable
      else if w.rest == was.rest && w.enabled == was.enabled && w.frozen && !was.frozen then WorkerFreeze
      else if w.rest == was.rest && w.enabled == was.enabled && !w.frozen && was.frozen then WorkerUnfreeze
      else WorkerUpdate
  }

  function Verb(c: Config, e: Edit): Action
    requires WellFormed(e) && !e.RevertOne?
  {
    match e
    case PutWorker(w) => UpsertVerb(c, w)
    case WorkerPrompt(_, _, _) => WorkerPromptWrite
    case RemoveWorker(_, _) => WorkerDelete
    case AddSub(_) => SubscriptionCreate
    case ChangeSub(_) => SubscriptionUpdate
    case RemoveSub(_, _) => SubscriptionDelete
    case AddSchedule(_) => ScheduleCreate
    case ChangeSchedule(_) => ScheduleUpdate
    case RemoveSchedule(_, _) => ScheduleDelete
    case WriteSettings(_) => ProjectSettingsPut
    case WritePrompt(_, _) => ProjectPromptWrite
  }

  // A mutation that succeeds appends one record under its own verb, id and time, numbered next in its project.
  predicate LogsAs(c: Config, c': Config, a: Action, st: Stamp) {
    c'.log != [] && c'.log[..|c'.log| - 1] == c.log &&
    var r := c'.log[|c'.log| - 1];
    r.action == a && r.id == st.uid && r.at == st.at && r.seqNo == MaxSeq(c.log, r.project) + 1
  }

  lemma EachLogsItsVerb(c: Config, e: Edit, cap: nat, st: Stamp)
    requires WellFormed(e) && !e.RevertOne?
    ensures Tried(c, e, cap, st).Ok? ==> LogsAs(c, Tried(c, e, cap, st).value, Verb(c, e), st)
  {
    hide Trim, Blank, PayloadOf, MaxSeq, UidTaken, RevertEvent;
  }

  // ---- what each mutation needs and does ----

  // The row it writes, and under which key; a delete writes none.
  function Target(e: Edit): RowKey
    requires WellFormed(e) && !e.RevertOne?
  {
    match e
    case PutWorker(w) => WorkerKey(w.project, w.name)
    case WorkerPrompt(p, n, _) => WorkerKey(p, n)
    case RemoveWorker(p, n) => WorkerKey(p, n)
    case AddSub(s) => SubKey(s.id)
    case ChangeSub(s) => SubKey(s.id)
    case RemoveSub(_, id) => SubKey(id)
    case AddSchedule(s) => ScheduleKey(s.id)
    case ChangeSchedule(s) => ScheduleKey(s.id)
    case RemoveSchedule(_, id) => ScheduleKey(id)
    case WriteSettings(s) => SettingsKey(s.project)
    case WritePrompt(p, _) => SettingsKey(p)
  }

  // What it finds allows it: a subscription's worker, a row to change, none where one is added.
  predicate Allowed(c: Config, e: Edit)
    requires WellFormed(e) && !e.RevertOne?
  {
    match e
    case PutWorker(_) => true
    case WorkerPrompt(_, _, _) => Target(e) in c.rows
    case RemoveWorker(p, _) => Target(e) in c.rows && c.rows[Target(e)].project == p
    case AddSub(s) => WorkerKey(s.project, Trim(s.worker)) in c.rows && Target(e) !in c.rows
    case ChangeSub(s) =>
      WorkerKey(s.project, Trim(s.worker)) in c.rows && Target(e) in c.rows && c.rows[Target(e)].project == s.project
    case RemoveSub(p, _) => Target(e) in c.rows && c.rows[Target(e)].project == p
    case AddSchedule(_) => Target(e) !in c.rows
    case ChangeSchedule(s) => Target(e) in c.rows && c.rows[Target(e)].project == s.project
    case RemoveSchedule(p, _) => Target(e) in c.rows && c.rows[Target(e)].project == p
    case WriteSettings(_) => true
    case WritePrompt(_, prompt) => !Blank(prompt)
  }

  // The rows it leaves: one written whole, one column of it, or one less.
  predicate Leaves(c: Config, e: Edit, rows: map<RowKey, Row>)
    requires WellFormed(e) && !e.RevertOne?
  {
    rows - {Target(e)} == c.rows - {Target(e)} &&
    match e
    case PutWorker(w) => Target(e) in rows && rows[Target(e)] == w
    case AddSub(s) => Target(e) in rows && rows[Target(e)] == s
    case ChangeSub(s) => Target(e) in rows && rows[Target(e)] == s
    case AddSchedule(s) => Target(e) in rows && rows[Target(e)] == s
    case ChangeSchedule(s) => Target(e) in rows && rows[Target(e)] == s
    case WriteSettings(s) => Target(e) in rows && rows[Target(e)] == s
    case WorkerPrompt(_, _, rest) =>
      Target(e) in c.rows && Target(e) in rows &&
      (match c.rows[Target(e)]
       case WorkerRow(p, n, enabled, frozen, _) => rows[Target(e)] == WorkerRow(p, n, enabled, frozen, rest)
       case _ => false)
    case WritePrompt(p, prompt) =>
      Target(e) in rows && rows[Target(e)].SettingsRow? && rows[Target(e)].prompt == prompt &&
      rows[Target(e)].project == p &&
      (Target(e) in c.rows && c.rows[Target(e)].SettingsRow? ==> rows[Target(e)].rest == c.rows[Target(e)].rest) &&
      (Target(e) !in c.rows ==> rows[Target(e)].rest == "defaults")
    case RemoveWorker(_, _) => Target(e) !in rows
    case RemoveSub(_, _) => Target(e) !in rows
    case RemoveSchedule(_, _) => Target(e) !in rows
  }

  // A mutation succeeds exactly if its event id is free and what it finds allows it, and then leaves its rows so.
  lemma MutationOutcome(c: Config, e: Edit, cap: nat, st: Stamp)
    requires WellFormed(e) && !e.RevertOne? && RowsKeyed(c)
    ensures Tried(c, e, cap, st).Ok? <==> !UidTaken(c.log, st.uid) && Allowed(c, e)
    ensures Tried(c, e, cap, st).Ok? ==> Leaves(c, e, Tried(c, e, cap, st).value.rows)
  {
    hide Trim, Blank, PayloadOf, MaxSeq, UidTaken, RevertEvent;
    if Tried(c, e, cap, st).Ok? {
      OthersUntouched(c.rows, Tried(c, e, cap, st).value.rows, Target(e));
    }
  }

  lemma OthersUntouched(rows: map<RowKey, Row>, rows': map<RowKey, Row>, key: RowKey)
    requires rows' == rows - {key} || (key in rows' && rows' == rows[key := rows'[key]])
    ensures rows' - {key} == rows - {key}
  {
  }
}
