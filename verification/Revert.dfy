/** Reverting one configuration change by writing forward (go/agentdb/config_revert.go). */
module Revert {
  import opened Text
  import opened ConfigFold
  import opened ConfigLog
  import opened ConfigRows
  import opened ConfigHistory

  datatype Refusal = Unkeyable | NoInverse | NotNewest | NoEarlierState | Undecodable
  datatype RevertError =
    | BlankProject | NoSuchEvent | Refuse(why: Refusal) | BadRef(ref: RefError) | StoreFailed(e: StoreError)

  // ---- reading the log ----

  function Find(log: seq<Record>, project: string, id: string): Option<Record> {
    if log == [] then None
    else if log[0].project == project && log[0].id == id then Some(log[0])
    else Find(log[1..], project, id)
  }

  // The newest `cap` records of the kind: what the entity filter gets to see.
  function Scan(log: seq<Record>, project: string, kind: Kind, cap: nat): seq<Record> {
    var all := OfKind(log, project, kind);
    if |all| <= cap then all else all[..cap]
  }

  // ListConfigEvents with an entity filter and no limit; the entity is the rendered text.
  function Chain(log: seq<Record>, project: string, entity: string, cap: nat): Result<seq<Record>, RefError> {
    match ParseRef(entity)
    case Err(e) => Err(e)
    case Ok(ref) => Ok(Matching(Scan(log, project, ref.kind, cap), ref))
  }

  // filterByEntity: `limit` 0 is no limit.
  method FilterByEntity(rs: seq<Record>, ref: EntityRef, limit: nat) returns (out: seq<Record>)
    ensures out == if limit > 0 && |Matching(rs, ref)| > limit then Matching(rs, ref)[..limit] else Matching(rs, ref)
  {
    hide RefFor;
    out := [];
    for i := 0 to |rs|
      invariant Matching(rs, ref) == out + Matching(rs[i..], ref)
      invariant limit > 0 ==> |out| < limit
    {
      assert rs[i..][1..] == rs[i + 1..];
      if RefFor(rs[i]) == Some(ref) {
        assert Matching(rs, ref) == (out + [rs[i]]) + Matching(rs[i + 1..], ref);
        out := out + [rs[i]];
        if limit > 0 && |out| >= limit {
          assert out == Matching(rs, ref)[..limit];
          return;
        }
      }
    }
  }

  // ---- the revert ----

  predicate HasInverse(k: Kind) {
    k != TopologyKind && k != ImageKind && k != SkillKind && k != ConnectionKind
  }

  // An empty chain passes, like one that starts with the target.
  predicate IsNewest(chain: seq<Record>, target: Record) {
    chain == [] || chain[0].id == target.id
  }

  datatype Plan = Plan(ref: EntityRef, target: Record, previous: Option<Record>)

  function PlanFor(log: seq<Record>, project: string, target: Record, cap: nat): Result<Plan, RevertError> {
    match RefFor(target)
    case None => Err(Refuse(Unkeyable))
    case Some(ref) =>
      if !HasInverse(ref.kind) then Err(Refuse(NoInverse))
      else
        match Chain(log, project, Render(ref), cap)
        case Err(e) => Err(BadRef(e))
        case Ok(chain) =>
          if !IsNewest(chain, target) then Err(Refuse(NotNewest))
          else Ok(Plan(ref, target, if |chain| > 1 then Some(chain[1]) else None))
  }

  // Everything RevertEvent decides before its transaction begins.
  function PlanRevert(log: seq<Record>, project: string, id: string, cap: nat): Result<Plan, RevertError> {
    if Blank(project) then Err(BlankProject)
    else if Blank(id) then Err(NoSuchEvent)
    else
      match Find(log, project, id)
      case None => Err(NoSuchEvent)
      case Some(target) => PlanFor(log, project, target, cap)
  }

  function Outcome(r: Result<Config, StoreError>): Result<Config, RevertError> {
    match r
    case Ok(c) => Ok(c)
    case Err(e) => Err(StoreFailed(e))
  }

  // The row the compensating write puts back: the tombstone's, or else the predecessor's.
  function Wanted(p: Plan): Option<Record> {
    if IsDelete(p.target.action) then Some(p.target) else p.previous
  }

  function RemoveRow(c: Config, project: string, ref: EntityRef, st: Stamp): Result<Config, RevertError> {
    match ref.kind
    case WorkerKind => Outcome(DeleteWorker(c, project, ref.key, st))
    case SubscriptionKind => Outcome(DeleteSubscription(c, project, ref.key, st))
    case ScheduleKind => Outcome(DeleteSchedule(c, project, ref.key, st))
    case _ => Err(Refuse(NoEarlierState))
  }

  // A delete is undone by a create, anything else by an update; a worker by an upsert either way.
  function WriteRow(c: Config, row: Row, restoring: bool, st: Stamp): Result<Config, RevertError> {
    match row
    case WorkerRow(_, _, _, _, _) => Outcome(UpsertWorker(c, row, st))
    case SubRow(_, _, _, _) =>
      Outcome(if restoring then CreateSubscription(c, row, st) else UpdateSubscription(c, row, st))
    case ScheduleRow(_, _, _) => Outcome(if restoring then CreateSchedule(c, row, st) else UpdateSchedule(c, row, st))
    case SettingsRow(_, _, _) => Outcome(PutSettings(c, row, st))
  }

  function InProjectRow(row: Row, project: string): Row {
    if row.SettingsRow? then SettingsRow(project, row.prompt, row.rest) else row
  }

  function Compensate(c: Config, project: string, p: Plan, st: Stamp): Result<Config, RevertError> {
    match Wanted(p)
    case None => RemoveRow(c, project, p.ref, st)
    case Some(from) =>
      if p.ref.kind == PromptKind then
        if FSystemPrompt in from.payload && from.payload[FSystemPrompt].Str? then
          Outcome(SetPrompt(c, project, from.payload[FSystemPrompt].text, st))
        else Err(Refuse(Undecodable))
      else
        match RowFrom(p.ref.kind, from.payload)
        case None => Err(Refuse(Undecodable))
        case Some(row) => WriteRow(c, InProjectRow(row, project), IsDelete(p.target.action), st)
  }

  // `seen` is the log as it was read, before the transaction; `now` is what the transaction finds.
  function RevertEvent(seen: seq<Record>, now: Config, project: string, id: string, cap: nat, st: Stamp):
    Result<Config, RevertError>
  {
    match PlanRevert(seen, project, id, cap)
    case Err(e) => Err(e)
    case Ok(p) => Compensate(now, project, p, st)
  }

  class ConfigStore {
    var rows: map<RowKey, Row>
    var log: seq<Record>

    function Contents(): Config
      reads this
    {
      Config(rows, log)
    }

    // The entity's own chain, as RevertEvent reads it.
    method ListEntity(project: string, entity: string, cap: nat) returns (r: Result<seq<Record>, RefError>)
      ensures r == Chain(log, project, entity, cap)
    {
      match ParseRef(entity) {
        case Err(e) => return Err(e);
        case Ok(ref) =>
          var out := FilterByEntity(Scan(log, project, ref.kind, cap), ref, 0);
          return Ok(out);
      }
    }

    // One compensating write with its record, which it returns; or an error and nothing written.
    method RevertOne(project: string, id: string, cap: nat, st: Stamp) returns (r: Result<Record, RevertError>)
      modifies this
      ensures match RevertEvent(old(log), old(Contents()), project, id, cap, st)
              case Err(e) => r == Err(e) && Contents() == old(Contents())
              case Ok(c) => Contents() == c && c.log != [] && r == Ok(c.log[|c.log| - 1])
    {
      hide Trim, Blank, RefFor, Render, Chain;
      if Blank(project) {
        return Err(BlankProject);
      }
      if Blank(id) {
        return Err(NoSuchEvent);
      }
      var found := Find(log, project, id);
      if found == None {
        return Err(NoSuchEvent);
      }
      var target := found.value;
      var ref := RefFor(target);
      if ref == None {
        return Err(Refuse(Unkeyable));
      }
      if !HasInverse(ref.value.kind) {
        return Err(Refuse(NoInverse));
      }
      var chain := ListEntity(project, Render(ref.value), cap);
      if chain.Err? {
        return Err(BadRef(chain.error));
      }
      if !IsNewest(chain.value, target) {
        return Err(Refuse(NotNewest));
      }
      var previous := if |chain.value| > 1 then Some(chain.value[1]) else None;
      CompensateLogs(Contents(), project, Plan(ref.value, target, previous), st);
      var res := Compensate(Contents(), project, Plan(ref.value, target, previous), st);
      match res {
        case Err(e) => return Err(e);
        case Ok(c) =>
          rows, log := c.rows, c.log;
          return Ok(log[|log| - 1]);
      }
    }
  }

  lemma CompensateLogs(c: Config, project: string, p: Plan, st: Stamp)
    ensures Compensate(c, project, p, st).Ok? ==> |Compensate(c, project, p, st).value.log| == |c.log| + 1
  {
    hide Trim, Blank, RowFrom, PayloadOf, MaxSeq;
  }

  // ---- the chain it reads ----

  // Where the scan reaches far enough and the key has no trailing white space, the chain is the entity's history.
  lemma ChainIsHistory(log: seq<Record>, project: string, ref: EntityRef, cap: nat)
    requires ValidRef(ref) && (ref.key == "" || !IsSpace(ref.key[|ref.key| - 1]))
    requires |OfKind(log, project, ref.kind)| <= cap
    ensures Chain(log, project, Render(ref), cap) == Ok(History(log, project, ref))
  {
    hide Trim, Blank, IsSpace, OfKind, Matching;
    RefRoundTrip(ref);
  }

  lemma {:induction false} FindIs(log: seq<Record>, project: string, id: string)
    ensures match Find(log, project, id)
            case None => forall i :: 0 <= i < |log| ==> log[i].project != project || log[i].id != id
            case Some(r) => r in log && r.project == project && r.id == id
  {
    if log != [] {
      FindIs(log[1..], project, id);
    }
  }

  lemma {:induction false} OfKindIn(log: seq<Record>, project: string, kind: Kind)
    ensures forall r :: r in OfKind(log, project, kind) <==>
              r in log && r.project == project && KindOf(r.action) == Some(kind)
  {
    hide KindOf;
    if log != [] {
      OfKindIn(log[..|log| - 1], project, kind);
      assert log == log[..|log| - 1] + [log[|log| - 1]];
    }
  }

  lemma {:induction false} MatchingIn(rs: seq<Record>, ref: EntityRef)
    ensures forall r :: r in Matching(rs, ref) <==> r in rs && RefFor(r) == Some(ref)
  {
    hide RefFor;
    if rs != [] {
      MatchingIn(rs[1..], ref);
      assert rs == [rs[0]] + rs[1..];
    }
  }

  lemma HistoryIn(log: seq<Record>, project: string, ref: EntityRef, r: Record)
    ensures r in History(log, project, ref) <==> r in log && r.project == project && RefFor(r) == Some(ref)
  {
    hide RefFor, KindOf, OfKind, Matching;
    OfKindIn(log, project, ref.kind);
    MatchingIn(OfKind(log, project, ref.kind), ref);
    RefForIsValid(r);
  }

  // Two records of the log with one id are one record.
  lemma SameId(log: seq<Record>, a: Record, b: Record)
    requires UniqueIds(log) && a in log && b in log && a.id == b.id
    ensures a == b
  {
  }
}
