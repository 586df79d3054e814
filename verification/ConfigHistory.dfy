/** What the ordinary mutations keep: each entity's newest record is its row. */
module ConfigHistory {
  import opened Text
  import opened ConfigFold
  import opened ConfigLog
  import opened ConfigRows

  // ---- an entity's records, newest first ----

  function OfKind(log: seq<Record>, project: string, kind: Kind): seq<Record> {
    if log == [] then []
    else
      var rest, r := OfKind(log[..|log| - 1], project, kind), log[|log| - 1];
      if r.project == project && KindOf(r.action) == Some(kind) then [r] + rest else rest
  }

  function Matching(rs: seq<Record>, ref: EntityRef): seq<Record> {
    if rs == [] then []
    else if RefFor(rs[0]) == Some(ref) then [rs[0]] + Matching(rs[1..], ref)
    else Matching(rs[1..], ref)
  }

  function History(log: seq<Record>, project: string, ref: EntityRef): seq<Record> {
    Matching(OfKind(log, project, ref.kind), ref)
  }

  lemma HistoryNext(log: seq<Record>, r: Record, project: string, ref: EntityRef)
    ensures History(log + [r], project, ref) ==
            if r.project == project && RefFor(r) == Some(ref) then [r] + History(log, project, ref)
            else History(log, project, ref)
  {
    hide RefFor, KindOf;
    RefForIsValid(r);
    assert (log + [r])[..|log|] == log;
    var rest := OfKind(log, project, ref.kind);
    assert ([r] + rest)[1..] == rest;
  }

  // ---- rows and references ----

  // The kinds whose records carry one whole row of a table of their own.
  predicate Rowed(k: Kind) {
    k == WorkerKind || k == SubscriptionKind || k == ScheduleKind
  }

  function RowKeyOf(project: string, ref: EntityRef): RowKey {
    match ref.kind
    case WorkerKind => WorkerKey(project, ref.key)
    case SubscriptionKind => SubKey(ref.key)
    case ScheduleKind => ScheduleKey(ref.key)
    case _ => SettingsKey(project)
  }

  function RefOfRow(row: Row): EntityRef {
    match row
    case WorkerRow(_, n, _, _, _) => EntityRef(WorkerKind, n)
    case SubRow(id, _, _, _) => EntityRef(SubscriptionKind, id)
    case ScheduleRow(id, _, _) => EntityRef(ScheduleKind, id)
    case SettingsRow(_, _, _) => EntityRef(SettingsKind, "")
  }

  // The full row of an entity as a payload, if the project has one.
  function RowPayload(c: Config, project: string, ref: EntityRef): Option<Payload> {
    if InProject(c, project, RowKeyOf(project, ref)) then Some(PayloadOf(c.rows[RowKeyOf(project, ref)])) else None
  }

  // ---- the invariant ----

  // The payload is the full row the record is keyed to.
  predicate FullPayload(r: Record, ref: EntityRef) {
    match RowFrom(ref.kind, r.payload)
    case None => false
    case Some(row) => PayloadOf(row) == r.payload && row.project == r.project && RefOfRow(row) == ref
  }

  predicate FullRecord(r: Record) {
    match RefFor(r)
    case None => false
    case Some(ref) =>
      if ref.kind == PromptKind then
        FSystemPrompt in r.payload && r.payload[FSystemPrompt].Str? && !Blank(r.payload[FSystemPrompt].text)
      else Rowed(ref.kind) || ref.kind == SettingsKind ==> FullPayload(r, ref)
  }

  // The full row the newest of these records leaves behind.
  function StateAfter(h: seq<Record>): Option<Payload> {
    if h == [] || IsDelete(h[0].action) then None else Some(h[0].payload)
  }

  // The newest record is the row; and a tombstone carries the row it removed.
  predicate Agrees(c: Config, project: string, ref: EntityRef) {
    var h := History(c.log, project, ref);
    && RowPayload(c, project, ref) == StateAfter(h)
    && (h != [] && IsDelete(h[0].action) ==> StateAfter(h[1..]) == Some(h[0].payload))
  }

  predicate RowsKeyed(c: Config) {
    forall k :: k in c.rows ==> KeyOfRow(c.rows[k]) == k && ValidRef(RefOfRow(c.rows[k]))
  }

  predicate LogFull(log: seq<Record>) {
    forall i :: 0 <= i < |log| ==> FullRecord(log[i])
  }

  predicate UniqueIds(log: seq<Record>) {
    forall i, j :: 0 <= i < j < |log| ==> log[i].id != log[j].id
  }

  ghost predicate AllAgree(c: Config) {
    forall project: string, ref: EntityRef :: Rowed(ref.kind) ==> Agrees(c, project, ref)
  }

  ghost predicate Inv(c: Config) {
    RowsKeyed(c) && LogFull(c.log) && UniqueIds(c.log) && Dense(c.log) && AllAgree(c)
  }

  // ---- Put and Drop keep it ----

  // The rest of the invariant for one appended record and one changed row.
  lemma AppendKeeps(c: Config, rows: map<RowKey, Row>, project: string, action: Action, p: Payload, st: Stamp)
    requires Inv(c) && !UidTaken(c.log, st.uid)
    requires FullRecord(Record(st.uid, project, MaxSeq(c.log, project) + 1, action, p, st.at))
    ensures var c' := Logged(rows, c.log, project, action, p, st).value;
            LogFull(c'.log) && UniqueIds(c'.log) && Dense(c'.log)
  {
    hide FullRecord, Dense, AllAgree, RowsKeyed, MaxSeq, Count;
    DenseTaken(c.log, project, 0);
    DenseNext(c.log, Record(st.uid, project, MaxSeq(c.log, project) + 1, action, p, st.at));
  }

  lemma PutRecord(row: Row, action: Action, n: nat, st: Stamp)
    requires ValidRef(RefOfRow(row)) && KindOf(action) == Some(KindOfRow(row))
    ensures var r := Record(st.uid, row.project, n, action, PayloadOf(row), st.at);
            RefFor(r) == Some(RefOfRow(row)) && FullRecord(r)
  {
    hide Trim, Blank, KindOf;
    DecodeEncode(row);
  }

  // A row key belongs to this project if it belongs to anybody.
  predicate Ours(c: Config, project: string, key: RowKey) {
    key in c.rows ==> c.rows[key].project == project
  }

  lemma RowOfRef(row: Row)
    ensures RowKeyOf(row.project, RefOfRow(row)) == KeyOfRow(row) && RefOfRow(row).kind == KindOfRow(row)
  {
  }

  lemma PutAgrees(c: Config, row: Row, action: Action, r: Record, project: string, ref: EntityRef)
    requires Rowed(ref.kind) && Agrees(c, project, ref) && Ours(c, row.project, KeyOfRow(row))
    requires RefFor(r) == Some(RefOfRow(row)) && r.project == row.project && r.payload == PayloadOf(row)
    requires !IsDelete(r.action)
    ensures Agrees(Config(c.rows[KeyOfRow(row) := row], c.log + [r]), project, ref)
  {
    hide RefFor, History, PayloadOf;
    HistoryNext(c.log, r, project, ref);
    RowOfRef(row);
    if RowKeyOf(project, ref) == KeyOfRow(row) {
      KeysApart(project, ref, row);
    }
  }

  // Two entities share a row only if they are the same entity of the same project, or an id two projects use.
  lemma KeysApart(project: string, ref: EntityRef, row: Row)
    requires Rowed(ref.kind) && RowKeyOf(project, ref) == KeyOfRow(row)
    ensures ref == RefOfRow(row)
  {
  }

  lemma PutKeeps(c: Config, row: Row, action: Action, st: Stamp)
    requires Inv(c) && ValidRef(RefOfRow(row)) && KindOf(action) == Some(KindOfRow(row)) && !IsDelete(action)
    requires Ours(c, row.project, KeyOfRow(row))
    ensures Put(c, row, action, st).Ok? <==> !UidTaken(c.log, st.uid)
    ensures Put(c, row, action, st).Ok? ==> Inv(Put(c, row, action, st).value)
  {
    hide FullRecord, Agrees, MaxSeq, UidTaken, Trim, Blank, UniqueIds, LogFull, Dense, KindOf, RefFor, PayloadOf;
    if !UidTaken(c.log, st.uid) {
      var r := Record(st.uid, row.project, MaxSeq(c.log, row.project) + 1, action, PayloadOf(row), st.at);
      var rows := c.rows[KeyOfRow(row) := row];
      PutRecord(row, action, MaxSeq(c.log, row.project) + 1, st);
      AppendKeeps(c, rows, row.project, action, PayloadOf(row), st);
      forall project: string, ref: EntityRef | Rowed(ref.kind) ensures Agrees(Config(rows, c.log + [r]), project, ref) {
        PutAgrees(c, row, action, r, project, ref);
      }
    }
  }

  lemma DropAgrees(c: Config, row: Row, r: Record, project: string, ref: EntityRef)
    requires Rowed(ref.kind) && Agrees(c, project, ref)
    requires KeyOfRow(row) in c.rows && c.rows[KeyOfRow(row)] == row
    requires RefFor(r) == Some(RefOfRow(row)) && r.project == row.project && IsDelete(r.action) &&
             r.payload == PayloadOf(row)
    ensures Agrees(Config(c.rows - {KeyOfRow(row)}, c.log + [r]), project, ref)
  {
    hide RefFor, History, PayloadOf;
    HistoryNext(c.log, r, project, ref);
    var h := History(c.log, project, ref);
    assert ([r] + h)[1..] == h;
    RowOfRef(row);
    if RowKeyOf(project, ref) == KeyOfRow(row) {
      KeysApart(project, ref, row);
    }
  }

  lemma DropKeeps(c: Config, project: string, key: RowKey, action: Action, st: Stamp)
    requires Inv(c) && IsDelete(action) && (key in c.rows ==> KindOf(action) == Some(KindOfRow(c.rows[key])))
    ensures Drop(c, project, key, action, st).Ok? <==> InProject(c, project, key) && !UidTaken(c.log, st.uid)
    ensures Drop(c, project, key, action, st).Ok? ==> Inv(Drop(c, project, key, action, st).value)
  {
    hide FullRecord, Agrees, MaxSeq, UidTaken, Trim, Blank, UniqueIds, LogFull, Dense, KindOf, RefFor, PayloadOf;
    if InProject(c, project, key) && !UidTaken(c.log, st.uid) {
      var row := c.rows[key];
      var r := Record(st.uid, project, MaxSeq(c.log, project) + 1, action, PayloadOf(row), st.at);
      PutRecord(row, action, MaxSeq(c.log, project) + 1, st);
      AppendKeeps(c, c.rows - {key}, project, action, PayloadOf(row), st);
      forall x: string, ref: EntityRef | Rowed(ref.kind) ensures Agrees(Config(c.rows - {key}, c.log + [r]), x, ref) {
        DropAgrees(c, row, r, x, ref);
      }
    }
  }

  // ---- every mutation keeps it ----

  lemma UpsertWorkerKeeps(c: Config, w: Row, st: Stamp)
    requires Inv(c) && w.WorkerRow? && !Blank(w.name)
    ensures UpsertWorker(c, w, st).Ok? ==> Inv(UpsertWorker(c, w, st).value)
  {
    hide LogFull, UniqueIds, Dense, AllAgree, Trim, Blank, Put;
    var key := KeyOfRow(w);
    var action := if key in c.rows && c.rows[key].WorkerRow? then UpsertAction(c.rows[key], w) else WorkerCreate;
    PutKeeps(c, w, action, st);
  }

  lemma SetWorkerPromptKeeps(c: Config, project: string, name: string, rest: string, st: Stamp)
    requires Inv(c)
    ensures SetWorkerPrompt(c, project, name, rest, st).Ok? ==> Inv(SetWorkerPrompt(c, project, name, rest, st).value)
  {
    hide LogFull, UniqueIds, Dense, AllAgree, Trim, Blank, Put;
    var key := WorkerKey(project, name);
    if key in c.rows && c.rows[key].WorkerRow? {
      var w := c.rows[key];
      PutKeeps(c, WorkerRow(w.project, w.name, w.enabled, w.frozen, rest), WorkerPromptWrite, st);
    }
  }

  lemma DeleteKeeps(c: Config, project: string, ref: EntityRef, action: Action, st: Stamp)
    requires Inv(c) && Rowed(ref.kind) && IsDelete(action) && KindOf(action) == Some(ref.kind)
    ensures Drop(c, project, RowKeyOf(project, ref), action, st).Ok? ==>
              Inv(Drop(c, project, RowKeyOf(project, ref), action, st).value)
  {
    hide LogFull, UniqueIds, Dense, AllAgree, Trim, Blank, Drop;
    DropKeeps(c, project, RowKeyOf(project, ref), action, st);
  }

  lemma SubscriptionKeeps(c: Config, s: Row, st: Stamp)
    requires Inv(c) && s.SubRow? && !Blank(s.id)
    ensures CreateSubscription(c, s, st).Ok? ==> Inv(CreateSubscription(c, s, st).value)
    ensures UpdateSubscription(c, s, st).Ok? ==> Inv(UpdateSubscription(c, s, st).value)
  {
    hide LogFull, UniqueIds, Dense, AllAgree, Trim, Blank, Put;
    if Ours(c, s.project, KeyOfRow(s)) {
      PutKeeps(c, s, SubscriptionCreate, st);
      PutKeeps(c, s, SubscriptionUpdate, st);
    }
  }

  lemma ScheduleKeeps(c: Config, s: Row, st: Stamp)
    requires Inv(c) && s.ScheduleRow? && !Blank(s.id)
    ensures CreateSchedule(c, s, st).Ok? ==> Inv(CreateSchedule(c, s, st).value)
    ensures UpdateSchedule(c, s, st).Ok? ==> Inv(UpdateSchedule(c, s, st).value)
  {
    hide LogFull, UniqueIds, Dense, AllAgree, Trim, Blank, Put;
    if Ours(c, s.project, KeyOfRow(s)) {
      PutKeeps(c, s, ScheduleCreate, st);
      PutKeeps(c, s, ScheduleUpdate, st);
    }
  }

  lemma PutSettingsKeeps(c: Config, s: Row, st: Stamp)
    requires Inv(c) && s.SettingsRow?
    ensures PutSettings(c, s, st).Ok? ==> Inv(PutSettings(c, s, st).value)
  {
    hide LogFull, UniqueIds, Dense, AllAgree, Trim, Blank, Put;
    PutKeeps(c, s, ProjectSettingsPut, st);
  }

  lemma SetPromptAgrees(c: Config, project: string, row: Row, r: Record, x: string, ref: EntityRef)
    requires Rowed(ref.kind) && Agrees(c, x, ref) && RefFor(r) == Some(EntityRef(PromptKind, ""))
    ensures Agrees(Config(c.rows[SettingsKey(project) := row], c.log + [r]), x, ref)
  {
    hide RefFor, History, PayloadOf;
    HistoryNext(c.log, r, x, ref);
  }

  lemma SetPromptKeeps(c: Config, project: string, prompt: string, st: Stamp)
    requires Inv(c)
    ensures SetPrompt(c, project, prompt, st).Ok? ==> Inv(SetPrompt(c, project, prompt, st).value)
  {
    hide Agrees, MaxSeq, UidTaken, Trim, Blank, UniqueIds, LogFull, Dense;
    if SetPrompt(c, project, prompt, st).Ok? {
      var c' := SetPrompt(c, project, prompt, st).value;
      var r := Record(st.uid, project, MaxSeq(c.log, project) + 1, ProjectPromptWrite,
                      PromptPayload(project, prompt), st.at);
      AppendKeeps(c, c'.rows, project, ProjectPromptWrite, PromptPayload(project, prompt), st);
      hide FullRecord;
      forall x: string, ref: EntityRef | Rowed(ref.kind) ensures Agrees(c', x, ref) {
        SetPromptAgrees(c, project, c'.rows[SettingsKey(project)], r, x, ref);
      }
    }
  }
}
