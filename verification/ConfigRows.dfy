/**
 The configuration tables beside the log, and the ordinary logged mutations (go/agentdb/workers.go, events.go,
 schedules.go, project_settings.go), one at a time.
 */
module ConfigRows {
  import opened Text
  import opened ConfigFold
  import opened ConfigLog

  // The four tables, as one map keyed by table and primary key.
  datatype RowKey = WorkerKey(project: string, name: string) | SubKey(id: string) | ScheduleKey(id: string)
                  | SettingsKey(project: string)

  datatype Row =
    | WorkerRow(project: string, name: string, enabled: bool, frozen: bool, rest: string)
    | SubRow(id: string, project: string, worker: string, rest: string)
    | ScheduleRow(id: string, project: string, rest: string)
    | SettingsRow(project: string, prompt: string, rest: string)

  datatype Config = Config(rows: map<RowKey, Row>, log: seq<Record>)

  function KeyOfRow(row: Row): RowKey {
    match row
    case WorkerRow(p, n, _, _, _) => WorkerKey(p, n)
    case SubRow(id, _, _, _) => SubKey(id)
    case ScheduleRow(id, _, _) => ScheduleKey(id)
    case SettingsRow(p, _, _) => SettingsKey(p)
  }

  // ---- payloads ----

  function PayloadOf(row: Row): Payload {
    match row
    case WorkerRow(p, n, e, f, r) =>
      map[FProject := Str(p), FName := Str(n), FEnabled := Flag(e), FFrozen := Flag(f), FRest := Str(r)]
    case SubRow(id, p, w, r) => SubPayload(Sub(id, p, w, r))
    case ScheduleRow(id, p, r) => map[FId := Str(id), FProject := Str(p), FRest := Str(r)]
    case SettingsRow(p, t, r) => map[FProject := Str(p), FSystemPrompt := Str(t), FRest := Str(r)]
  }

  function PromptPayload(project: string, prompt: string): Payload {
    map[FProject := Str(project), FSystemPrompt := Str(prompt)]
  }

  // A field a decoder reads: absent is the zero value, another JSON type is an error.
  function TextField(p: Payload, f: Field): Option<string> {
    if f !in p then Some("") else if p[f].Str? then Some(p[f].text) else None
  }

  function FlagField(p: Payload, f: Field): Option<bool> {
    if f !in p then Some(false) else if p[f].Flag? then Some(p[f].on) else None
  }

  function WorkerFrom(p: Payload): Option<Row> {
    match (TextField(p, FProject), TextField(p, FName), FlagField(p, FEnabled), FlagField(p, FFrozen),
           TextField(p, FRest))
    case (Some(project), Some(name), Some(e), Some(f), Some(rest)) => Some(WorkerRow(project, name, e, f, rest))
    case _ => None
  }

  function SubFrom(p: Payload): Option<Row> {
    match (TextField(p, FId), TextField(p, FProject), TextField(p, FWorker), TextField(p, FRest))
    case (Some(id), Some(project), Some(worker), Some(rest)) => Some(SubRow(id, project, worker, rest))
    case _ => None
  }

  function ScheduleFrom(p: Payload): Option<Row> {
    match (TextField(p, FId), TextField(p, FProject), TextField(p, FRest))
    case (Some(id), Some(project), Some(rest)) => Some(ScheduleRow(id, project, rest))
    case _ => None
  }

  function SettingsFrom(p: Payload): Option<Row> {
    match (TextField(p, FProject), TextField(p, FSystemPrompt), TextField(p, FRest))
    case (Some(project), Some(prompt), Some(rest)) => Some(SettingsRow(project, prompt, rest))
    case _ => None
  }

  // The decoder of each table.
  function RowFrom(k: Kind, p: Payload): Option<Row> {
    match k
    case WorkerKind => WorkerFrom(p)
    case SubscriptionKind => SubFrom(p)
    case ScheduleKind => ScheduleFrom(p)
    case SettingsKind => SettingsFrom(p)
    case _ => None
  }

  function KindOfRow(row: Row): Kind {
    match row
    case WorkerRow(_, _, _, _, _) => WorkerKind
    case SubRow(_, _, _, _) => SubscriptionKind
    case ScheduleRow(_, _, _) => ScheduleKind
    case SettingsRow(_, _, _) => SettingsKind
  }

  // A payload is the full row: decoding it gives the row back.
  lemma DecodeEncode(row: Row)
    ensures RowFrom(KindOfRow(row), PayloadOf(row)) == Some(row)
  {
  }

  // A field a payload lacks reads as its zero value.
  lemma MissingFieldsAreZero(name: string, project: string, id: string)
    ensures RowFrom(WorkerKind, map[FName := Str(name), FProject := Str(project)]) ==
            Some(WorkerRow(project, name, false, false, ""))
    ensures RowFrom(SubscriptionKind, map[FId := Str(id)]) == Some(SubRow(id, "", "", ""))
    ensures RowFrom(ScheduleKind, map[FId := Str(id)]) == Some(ScheduleRow(id, "", ""))
    ensures RowFrom(SettingsKind, map[]) == Some(SettingsRow("", "", ""))
    ensures forall k, p :: k in {ImageKind, SkillKind, PromptKind, TopologyKind, ConnectionKind} ==>
              RowFrom(k, p) == None
  {
  }

  // ---- the log ----

  datatype StoreError = NotFound | AlreadyExists | NoSuchWorker | BlankPrompt | EventIdTaken

  predicate UidTaken(log: seq<Record>, uid: string) {
    exists i :: 0 <= i < |log| && log[i].id == uid
  }

  datatype Stamp = Stamp(uid: string, at: int)

  // The seam, with nobody else writing: the record takes the next number.
  function Logged(rows: map<RowKey, Row>, log: seq<Record>, project: string, action: Action, p: Payload, st: Stamp):
    Result<Config, StoreError>
  {
    if UidTaken(log, st.uid) then Err(EventIdTaken)
    else Ok(Config(rows, log + [Record(st.uid, project, MaxSeq(log, project) + 1, action, p, st.at)]))
  }

  function Put(c: Config, row: Row, action: Action, st: Stamp): Result<Config, StoreError> {
    Logged(c.rows[KeyOfRow(row) := row], c.log, row.project, action, PayloadOf(row), st)
  }

  predicate InProject(c: Config, project: string, key: RowKey) {
    key in c.rows && c.rows[key].project == project
  }

  function Drop(c: Config, project: string, key: RowKey, action: Action, st: Stamp): Result<Config, StoreError> {
    if !InProject(c, project, key) then Err(NotFound)
    else Logged(c.rows - {key}, c.log, project, action, PayloadOf(c.rows[key]), st)
  }

  // ---- the mutations ----

  function UpsertAction(existing: Row, next: Row): Action
    requires existing.WorkerRow? && next.WorkerRow?
  {
    var both := (existing.enabled != next.enabled) == (existing.frozen != next.frozen);
    if existing.rest != next.rest || both then WorkerUpdate
    else if existing.enabled != next.enabled then (if next.enabled then WorkerEnable else WorkerDisable)
    else if next.frozen then WorkerFreeze else WorkerUnfreeze
  }

  // The action names the one toggle that flipped, and only when nothing else about the worker changed.
  lemma UpsertActionNamesTheFlip(existing: Row, next: Row)
    requires existing.WorkerRow? && next.WorkerRow? && KeyOfRow(existing) == KeyOfRow(next)
    ensures var a := UpsertAction(existing, next);
            var e, f := WorkerRow(existing.project, existing.name, !existing.enabled, existing.frozen, existing.rest),
                        WorkerRow(existing.project, existing.name, existing.enabled, !existing.frozen, existing.rest);
            (a == WorkerEnable <==> next == e && next.enabled) &&
            (a == WorkerDisable <==> next == e && !next.enabled) &&
            (a == WorkerFreeze <==> next == f && next.frozen) && (a == WorkerUnfreeze <==> next == f && !next.frozen) &&
            (a == WorkerUpdate <==> next != e && next != f)
  {
  }

  function UpsertWorker(c: Config, w: Row, st: Stamp): Result<Config, StoreError>
    requires w.WorkerRow?
  {
    var key := KeyOfRow(w);
    if key in c.rows && c.rows[key].WorkerRow? then Put(c, w, UpsertAction(c.rows[key], w), st)
    else Put(c, w, WorkerCreate, st)
  }

  // The narrow prompt rewrite; `rest` carries the new prompt.
  function SetWorkerPrompt(c: Config, project: string, name: string, rest: string, st: Stamp)
    : Result<Config, StoreError>
  {
    var key := WorkerKey(project, name);
    if key !in c.rows then Err(NotFound)
    else
      match c.rows[key]
      case WorkerRow(p, n, e, f, _) => Put(c, WorkerRow(p, n, e, f, rest), WorkerPromptWrite, st)
      case _ => Err(NotFound)
  }

  function DeleteWorker(c: Config, project: string, name: string, st: Stamp): Result<Config, StoreError> {
    Drop(c, project, WorkerKey(project, name), WorkerDelete, st)
  }

  function CreateSubscription(c: Config, s: Row, st: Stamp): Result<Config, StoreError>
    requires s.SubRow?
  {
    if WorkerKey(s.project, Trim(s.worker)) !in c.rows then Err(NoSuchWorker)
    else if KeyOfRow(s) in c.rows then Err(AlreadyExists)
    else Put(c, s, SubscriptionCreate, st)
  }

  function UpdateSubscription(c: Config, s: Row, st: Stamp): Result<Config, StoreError>
    requires s.SubRow?
  {
    if WorkerKey(s.project, Trim(s.worker)) !in c.rows then Err(NoSuchWorker)
    else if !InProject(c, s.project, KeyOfRow(s)) then Err(NotFound)
    else Put(c, s, SubscriptionUpdate, st)
  }

  function DeleteSubscription(c: Config, project: string, id: string, st: Stamp): Result<Config, StoreError> {
    Drop(c, project, SubKey(id), SubscriptionDelete, st)
  }

  function CreateSchedule(c: Config, s: Row, st: Stamp): Result<Config, StoreError>
    requires s.ScheduleRow?
  {
    if KeyOfRow(s) in c.rows then Err(AlreadyExists) else Put(c, s, ScheduleCreate, st)
  }

  function UpdateSchedule(c: Config, s: Row, st: Stamp): Result<Config, StoreError>
    requires s.ScheduleRow?
  {
    if !InProject(c, s.project, KeyOfRow(s)) then Err(NotFound) else Put(c, s, ScheduleUpdate, st)
  }

  function DeleteSchedule(c: Config, project: string, id: string, st: Stamp): Result<Config, StoreError> {
    Drop(c, project, ScheduleKey(id), ScheduleDelete, st)
  }

  function PutSettings(c: Config, s: Row, st: Stamp): Result<Config, StoreError>
    requires s.SettingsRow?
  {
    Put(c, s, ProjectSettingsPut, st)
  }

  const DEFAULT_REST := "defaults"

  // The narrow write: one column of the settings row, under a payload of its own.
  function SetPrompt(c: Config, project: string, prompt: string, st: Stamp): Result<Config, StoreError> {
    var key := SettingsKey(project);
    if Blank(prompt) then Err(BlankPrompt)
    else
      var rest := if key in c.rows && c.rows[key].SettingsRow? then c.rows[key].rest else DEFAULT_REST;
      Logged(c.rows[key := SettingsRow(project, prompt, rest)], c.log, project, ProjectPromptWrite,
             PromptPayload(project, prompt), st)
  }
}
