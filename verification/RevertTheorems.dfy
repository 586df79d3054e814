/** What a revert puts back, and the reverts that do not. */
module RevertTheorems {
  import opened Text
  import opened ConfigFold
  import opened ConfigLog
  import opened ConfigRows
  import opened ConfigHistory
  import opened Revert

  // ---- the compensating write ----

  predicate OthersSame(c: Config, c': Config, key: RowKey) {
    c.rows - {key} == c'.rows - {key}
  }

  // One record more, keyed to this entity, and nothing else touched.
  predicate OneRecord(c: Config, c': Config, project: string, ref: EntityRef, st: Stamp, payload: Payload,
                      deletes: bool) {
    && |c'.log| == |c.log| + 1 && c'.log[..|c.log|] == c.log
    && OthersSame(c, c', RowKeyOf(project, ref))
    && var r := c'.log[|c.log|];
       r.id == st.uid && r.project == project && RefFor(r) == Some(ref) && r.payload == payload &&
       IsDelete(r.action) == deletes && r.seqNo == MaxSeq(c.log, project) + 1
  }

  predicate WroteForward(c: Config, c': Config, project: string, ref: EntityRef, st: Stamp, payload: Payload) {
    OneRecord(c, c', project, ref, st, payload, false) && RowPayload(c', project, ref) == Some(payload)
  }

  predicate Removed(c: Config, c': Config, project: string, ref: EntityRef, st: Stamp) {
    && RowPayload(c, project, ref).Some? && RowPayload(c', project, ref) == None
    && OneRecord(c, c', project, ref, st, RowPayload(c, project, ref).value, true)
  }

  lemma PutWrites(c: Config, row: Row, action: Action, st: Stamp)
    requires ValidRef(RefOfRow(row)) && KindOf(action) == Some(KindOfRow(row)) && !IsDelete(action)
    requires !UidTaken(c.log, st.uid)
    ensures Put(c, row, action, st).Ok?
    ensures WroteForward(c, Put(c, row, action, st).value, row.project, RefOfRow(row), st, PayloadOf(row))
  {
    hide RefFor, Trim, Blank, PayloadOf, FullRecord;
    PutRecord(row, action, MaxSeq(c.log, row.project) + 1, st);
    RowOfRef(row);
    var rows := c.rows[KeyOfRow(row) := row];
    assert rows - {KeyOfRow(row)} == c.rows - {KeyOfRow(row)};
  }

  lemma DropRemoves(c: Config, project: string, ref: EntityRef, action: Action, st: Stamp)
    requires Rowed(ref.kind) && ValidRef(ref) && KindOf(action) == Some(ref.kind) && IsDelete(action) && RowsKeyed(c)
    requires !UidTaken(c.log, st.uid) && InProject(c, project, RowKeyOf(project, ref))
    ensures Drop(c, project, RowKeyOf(project, ref), action, st).Ok?
    ensures Removed(c, Drop(c, project, RowKeyOf(project, ref), action, st).value, project, ref, st)
  {
    hide RefFor, Trim, Blank, PayloadOf, FullRecord;
    var key := RowKeyOf(project, ref);
    var row := c.rows[key];
    KeysApart(project, ref, row);
    RowOfRef(row);
    PutRecord(row, action, MaxSeq(c.log, project) + 1, st);
    assert (c.rows - {key}) - {key} == c.rows - {key};
  }

  // What the compensating write needs of the tables it finds, besides an unused event id.
  predicate Permits(c: Config, project: string, p: Plan) {
    var key := RowKeyOf(project, p.ref);
    match Wanted(p)
    case None => InProject(c, project, key)
    case Some(from) =>
      p.ref.kind == WorkerKind ||
      ((p.ref.kind == SubscriptionKind ==> HasWorker(c, project, from)) &&
       (if IsDelete(p.target.action) then key !in c.rows else InProject(c, project, key)))
  }

  predicate HasWorker(c: Config, project: string, from: Record) {
    match TextField(from.payload, FWorker)
    case Some(w) => WorkerKey(project, Trim(w)) in c.rows
    case None => false
  }

  // A record as the ordinary mutations write them, of this entity.
  predicate Genuine(r: Record, project: string, ref: EntityRef) {
    RefFor(r) == Some(ref) && r.project == project && FullRecord(r)
  }

  lemma GenuineRow(r: Record, project: string, ref: EntityRef)
    requires Rowed(ref.kind) && Genuine(r, project, ref)
    ensures ValidRef(ref) && RowFrom(ref.kind, r.payload).Some?
    ensures var row := RowFrom(ref.kind, r.payload).value;
            PayloadOf(row) == r.payload && row.project == project && RefOfRow(row) == ref &&
            KeyOfRow(row) == RowKeyOf(project, ref) && KindOfRow(row) == ref.kind
  {
    hide Trim, Blank, RefFor, RowFrom, PayloadOf;
    RefForIsValid(r);
    RowOfRef(RowFrom(ref.kind, r.payload).value);
  }

  lemma SubWorker(r: Record)
    requires RowFrom(SubscriptionKind, r.payload).Some?
    ensures TextField(r.payload, FWorker) == Some(RowFrom(SubscriptionKind, r.payload).value.worker)
  {
  }

  predicate ForwardIff(c: Config, res: Result<Config, RevertError>, ok: bool, project: string, ref: EntityRef,
                       st: Stamp, payload: Payload) {
    (res.Ok? <==> ok) && (res.Ok? ==> WroteForward(c, res.value, project, ref, st, payload))
  }

  lemma WriteWorker(c: Config, row: Row, restoring: bool, st: Stamp)
    requires row.WorkerRow? && ValidRef(RefOfRow(row)) && RowsKeyed(c)
    ensures ForwardIff(c, WriteRow(c, row, restoring, st), !UidTaken(c.log, st.uid), row.project, RefOfRow(row),
                       st, PayloadOf(row))
  {
    hide Trim, Blank, RefFor, PayloadOf, WroteForward, MaxSeq, UidTaken;
    var key := KeyOfRow(row);
    var action := if key in c.rows && c.rows[key].WorkerRow? then UpsertAction(c.rows[key], row) else WorkerCreate;
    if !UidTaken(c.log, st.uid) {
      PutWrites(c, row, action, st);
    }
  }

  lemma WriteSub(c: Config, row: Row, restoring: bool, st: Stamp)
    requires row.SubRow? && ValidRef(RefOfRow(row)) && RowsKeyed(c)
    ensures ForwardIff(c, WriteRow(c, row, restoring, st),
              !UidTaken(c.log, st.uid) && WorkerKey(row.project, Trim(row.worker)) in c.rows &&
              (if restoring then KeyOfRow(row) !in c.rows else InProject(c, row.project, KeyOfRow(row))),
              row.project, RefOfRow(row), st, PayloadOf(row))
  {
    hide Trim, Blank, RefFor, PayloadOf, WroteForward, MaxSeq, UidTaken;
    if !UidTaken(c.log, st.uid) {
      PutWrites(c, row, if restoring then SubscriptionCreate else SubscriptionUpdate, st);
    }
  }

  lemma WriteSchedule(c: Config, row: Row, restoring: bool, st: Stamp)
    requires row.ScheduleRow? && ValidRef(RefOfRow(row)) && RowsKeyed(c)
    ensures ForwardIff(c, WriteRow(c, row, restoring, st),
              !UidTaken(c.log, st.uid) &&
              (if restoring then KeyOfRow(row) !in c.rows else InProject(c, row.project, KeyOfRow(row))),
              row.project, RefOfRow(row), st, PayloadOf(row))
  {
    hide Trim, Blank, RefFor, PayloadOf, WroteForward, MaxSeq, UidTaken;
    if !UidTaken(c.log, st.uid) {
      PutWrites(c, row, if restoring then ScheduleCreate else ScheduleUpdate, st);
    }
  }

  lemma RemoveIff(c: Config, project: string, ref: EntityRef, st: Stamp)
    requires Rowed(ref.kind) && ValidRef(ref) && RowsKeyed(c)
    ensures var res := RemoveRow(c, project, ref, st);
            (res.Ok? <==> !UidTaken(c.log, st.uid) && InProject(c, project, RowKeyOf(project, ref))) &&
            (res.Ok? ==> Removed(c, res.value, project, ref, st))
  {
    hide Trim, Blank, RefFor, PayloadOf, Removed, MaxSeq, UidTaken, RowsKeyed, RowPayload;
    if !UidTaken(c.log, st.uid) && InProject(c, project, RowKeyOf(project, ref)) {
      var action :=
        match ref.kind
        case WorkerKind => WorkerDelete
        case SubscriptionKind => SubscriptionDelete
        case _ => ScheduleDelete;
      DropRemoves(c, project, ref, action, st);
    }
  }

  // The compensating write either does exactly what was planned or nothing, and which of the two can be told from
  // the tables beforehand.
  lemma CompensateOutcome(c: Config, project: string, p: Plan, st: Stamp)
    requires Rowed(p.ref.kind) && ValidRef(p.ref) && RowsKeyed(c)
    requires Wanted(p).Some? ==> Genuine(Wanted(p).value, project, p.ref)
    ensures var res := Compensate(c, project, p, st);
            (res.Ok? <==> !UidTaken(c.log, st.uid) && Permits(c, project, p)) &&
            (res.Ok? ==> match Wanted(p)
                         case None => Removed(c, res.value, project, p.ref, st)
                         case Some(from) => WroteForward(c, res.value, project, p.ref, st, from.payload))
  {
    hide Trim, Blank, RefFor, FullRecord, PayloadOf, Removed, WroteForward, UidTaken, RowsKeyed, WriteRow, RemoveRow,
         RowFrom;
    match Wanted(p)
    case None => RemoveIff(c, project, p.ref, st);
    case Some(from) =>
      GenuineRow(from, project, p.ref);
      var row, restoring := RowFrom(p.ref.kind, from.payload).value, IsDelete(p.target.action);
      match p.ref.kind
      case WorkerKind => WriteWorker(c, row, restoring, st);
      case SubscriptionKind =>
        WriteSub(c, row, restoring, st);
        SubWorker(from);
      case ScheduleKind => WriteSchedule(c, row, restoring, st);
  }

  // ---- the theorem ----

  predicate PlainKey(ref: EntityRef) {
    ref.key == "" || !IsSpace(ref.key[|ref.key| - 1])
  }

  // The event asked for, when the request is well formed.
  predicate Targets(log: seq<Record>, project: string, id: string, target: Record, ref: EntityRef) {
    !Blank(project) && !Blank(id) && Find(log, project, id) == Some(target) && RefFor(target) == Some(ref)
  }

  // The previous record of the entity, whatever it was.
  function Previous(h: seq<Record>): Option<Record> {
    if |h| > 1 then Some(h[1]) else None
  }

  // The state of the entity before its newest record `h[0]`, as far as a revert can see.
  predicate Restored(c: Config, c': Config, project: string, ref: EntityRef, h: seq<Record>, st: Stamp)
    requires h != []
  {
    if IsDelete(h[0].action) then WroteForward(c, c', project, ref, st, h[0].payload)
    else if |h| == 1 then Removed(c, c', project, ref, st)
    else WroteForward(c, c', project, ref, st, h[1].payload)
  }

  // What a caller can check beforehand: the worker a subscription goes back to still exists, and a deleted id has
  // not been taken by another project.
  predicate MayRevert(c: Config, project: string, ref: EntityRef, h: seq<Record>)
    requires h != []
  {
    match Wanted(Plan(ref, h[0], Previous(h)))
    case None => true
    case Some(from) =>
      ref.kind == WorkerKind ||
      ((ref.kind == SubscriptionKind ==> HasWorker(c, project, from)) &&
       (IsDelete(h[0].action) ==> RowKeyOf(project, ref) !in c.rows))
  }

  lemma MayRevertIsPermits(c: Config, project: string, ref: EntityRef, h: seq<Record>)
    requires Rowed(ref.kind) && Agrees(c, project, ref) && h == History(c.log, project, ref) && h != []
    ensures MayRevert(c, project, ref, h) <==> Permits(c, project, Plan(ref, h[0], Previous(h)))
  {
    hide History, HasWorker, PayloadOf;
  }

  lemma TargetInHistory(log: seq<Record>, project: string, id: string, target: Record, ref: EntityRef)
    requires Targets(log, project, id, target, ref)
    ensures target in log && target in History(log, project, ref) && target.id == id
  {
    hide RefFor, Trim, Blank, History;
    FindIs(log, project, id);
    HistoryIn(log, project, ref, target);
  }

  lemma PlanIs(log: seq<Record>, project: string, id: string, target: Record, ref: EntityRef, cap: nat)
    requires Targets(log, project, id, target, ref) && Rowed(ref.kind) && PlainKey(ref) && UniqueIds(log)
    requires |OfKind(log, project, ref.kind)| <= cap
    ensures History(log, project, ref) != []
    ensures var h := History(log, project, ref);
            PlanRevert(log, project, id, cap) ==
            if h[0] != target then Err(Refuse(NotNewest)) else Ok(Plan(ref, target, Previous(h)))
  {
    hide RefFor, Trim, Blank, History, Chain, Find, IsSpace, UniqueIds;
    TargetInHistory(log, project, id, target, ref);
    RefForIsValid(target);
    ChainIsHistory(log, project, ref, cap);
    var h := History(log, project, ref);
    HistoryIn(log, project, ref, h[0]);
    if h[0].id == target.id {
      SameId(log, h[0], target);
    }
  }

  lemma HistoryGenuine(log: seq<Record>, project: string, ref: EntityRef, i: nat)
    requires LogFull(log) && i < |History(log, project, ref)|
    ensures Genuine(History(log, project, ref)[i], project, ref)
  {
    hide RefFor, FullRecord, History;
    HistoryIn(log, project, ref, History(log, project, ref)[i]);
  }

  // The chain is read before the transaction. Whatever the tables have become meanwhile, the revert writes what the
  // log it read says.
  lemma RevertWritesWhatItRead(seen: seq<Record>, now: Config, project: string, id: string, target: Record,
                               ref: EntityRef, cap: nat, st: Stamp)
    requires LogFull(seen) && UniqueIds(seen) && RowsKeyed(now)
    requires Targets(seen, project, id, target, ref) && Rowed(ref.kind) && PlainKey(ref)
    requires |OfKind(seen, project, ref.kind)| <= cap
    ensures History(seen, project, ref) != []
    ensures var h, res := History(seen, project, ref), RevertEvent(seen, now, project, id, cap, st);
            if h[0] != target then res == Err(Refuse(NotNewest))
            else (res.Ok? <==> !UidTaken(now.log, st.uid) && Permits(now, project, Plan(ref, target, Previous(h)))) &&
                 (res.Ok? ==> Restored(now, res.value, project, ref, h, st))
  {
    hide RefFor, Trim, Blank, History, IsSpace, RowsKeyed, LogFull, UniqueIds, Permits, UidTaken, Compensate,
         WroteForward, Removed, Find, PlanRevert, Genuine, OfKind;
    PlanIs(seen, project, id, target, ref, cap);
    var h := History(seen, project, ref);
    if h[0] == target {
      RefForIsValid(target);
      HistoryGenuine(seen, project, ref, 0);
      if |h| > 1 {
        HistoryGenuine(seen, project, ref, 1);
      }
      CompensateOutcome(now, project, Plan(ref, target, Previous(h)), st);
    }
  }

  // Reverting the newest change of a worker, subscription or schedule puts back the tombstone's row, or absence, or
  // the predecessor's payload; it appends one record, touches no other row, and is refused for any older change.
  lemma RevertRestores(c: Config, project: string, id: string, target: Record, ref: EntityRef, cap: nat, st: Stamp)
    requires Inv(c) && Targets(c.log, project, id, target, ref) && Rowed(ref.kind) && PlainKey(ref)
    requires |OfKind(c.log, project, ref.kind)| <= cap
    ensures History(c.log, project, ref) != []
    ensures var h, res := History(c.log, project, ref), RevertEvent(c.log, c, project, id, cap, st);
            if h[0] != target then res == Err(Refuse(NotNewest))
            else (res.Ok? <==> !UidTaken(c.log, st.uid) && MayRevert(c, project, ref, h)) &&
                 (res.Ok? ==> Restored(c, res.value, project, ref, h, st))
  {
    hide RefFor, Trim, Blank, History, IsSpace, Agrees, Dense, RowsKeyed, LogFull, UniqueIds, Permits, MayRevert,
         UidTaken, RevertEvent, Restored, Find, OfKind;
    RevertWritesWhatItRead(c.log, c, project, id, target, ref, cap, st);
    var h := History(c.log, project, ref);
    if h[0] == target {
      MayRevertIsPermits(c, project, ref, h);
    }
  }

  // Whatever project a settings payload names, the revert writes the settings of its own.
  lemma SettingsStayInProject(c: Config, project: string, p: Plan, st: Stamp)
    requires p.ref.kind == SettingsKind && Wanted(p).Some? && SettingsFrom(Wanted(p).value.payload).Some?
    ensures var res := Compensate(c, project, p, st);
            var from := SettingsFrom(Wanted(p).value.payload).value;
            (res.Ok? <==> !UidTaken(c.log, st.uid)) &&
            (res.Ok? ==>
               from.SettingsRow? &&
               res.value.rows == c.rows[SettingsKey(project) := SettingsRow(project, from.prompt, from.rest)])
  {
    hide Trim, Blank, RefFor, MaxSeq, UidTaken, PayloadOf;
  }
}
