/**
 The configuration seam: every mutation of a row appends one record to its project's log in the same transaction
 (go/agentdb/config_events.go), shown for the subscription mutations (go/agentdb/events.go).
 */
module ConfigLog {
  import opened Text
  import opened ConfigFold

  // ---- rows and records ----

  // `rest` stands for the fields a caller sets besides the worker: event type, filter, rate and the enabled flag.
  datatype Sub = Sub(id: string, project: string, worker: string, rest: string)

  function SubPayload(row: Sub): Payload {
    map[FId := Str(row.id), FProject := Str(row.project), FWorker := Str(row.worker), FRest := Str(row.rest)]
  }

  function SubRef(id: string): EntityRef {
    EntityRef(SubscriptionKind, id)
  }

  datatype Tables = Tables(subs: map<string, Sub>, log: seq<Record>)

  // The mutation functions handed to the seam; `row` is also the payload.
  datatype Mutation = Insert(row: Sub) | Save(row: Sub) | Remove(row: Sub)

  function ActionOf(m: Mutation): Action {
    match m
    case Insert(_) => SubscriptionCreate
    case Save(_) => SubscriptionUpdate
    case Remove(_) => SubscriptionDelete
  }

  // What the mutation does to the rows, inside the transaction; None is an error. Save is an upsert on the primary
  // key; the delete is scoped to the project.
  function Write(subs: map<string, Sub>, m: Mutation): Option<map<string, Sub>> {
    match m
    case Insert(row) => if row.id in subs then None else Some(subs[row.id := row])
    case Save(row) => Some(subs[row.id := row])
    case Remove(row) => if row.id in subs && subs[row.id].project == row.project then Some(subs - {row.id}) else None
  }

  // ---- sequence numbers ----

  function MaxSeq(log: seq<Record>, project: string): nat {
    if log == [] then 0
    else
      var m, r := MaxSeq(log[..|log| - 1], project), log[|log| - 1];
      if r.project == project && r.seqNo > m then r.seqNo else m
  }

  // The unique index on (project, seq).
  predicate Taken(log: seq<Record>, project: string, n: nat) {
    exists i :: 0 <= i < |log| && log[i].project == project && log[i].seqNo == n
  }

  function Count(log: seq<Record>, project: string): nat {
    if log == [] then 0 else Count(log[..|log| - 1], project) + (if log[|log| - 1].project == project then 1 else 0)
  }

  // Each project's records are numbered 1, 2, 3, ... in commit order.
  predicate Dense(log: seq<Record>) {
    forall i :: 0 <= i < |log| ==> log[i].seqNo == Count(log[..i], log[i].project) + 1
  }

  lemma DenseFront(log: seq<Record>)
    requires log != [] && Dense(log)
    ensures Dense(log[..|log| - 1])
    ensures var r := log[|log| - 1]; r.seqNo == Count(log[..|log| - 1], r.project) + 1
  {
    var front := log[..|log| - 1];
    forall i | 0 <= i < |front| ensures front[i].seqNo == Count(front[..i], front[i].project) + 1 {
      assert front[..i] == log[..i];
    }
  }

  lemma DenseNext(log: seq<Record>, r: Record)
    requires Dense(log) && r.seqNo == Count(log, r.project) + 1
    ensures Dense(log + [r])
  {
    var next := log + [r];
    forall i | 0 <= i < |next| ensures next[i].seqNo == Count(next[..i], next[i].project) + 1 {
      if i < |log| {
        assert next[..i] == log[..i];
      } else {
        assert next[..i] == log;
      }
    }
  }

  // In a dense log the high-water mark is the number of records, and every number up to it is taken.
  lemma {:induction false} DenseTaken(log: seq<Record>, project: string, n: nat)
    requires Dense(log)
    ensures MaxSeq(log, project) == Count(log, project)
    ensures Taken(log, project, n) <==> 1 <= n <= Count(log, project)
  {
    if log != [] {
      var front, r := log[..|log| - 1], log[|log| - 1];
      DenseFront(log);
      DenseTaken(front, project, n);
      TakenNext(front, r, project, n);
      assert log == front + [r];
    }
  }

  lemma TakenNext(log: seq<Record>, r: Record, project: string, n: nat)
    ensures Taken(log + [r], project, n) <==> Taken(log, project, n) || (r.project == project && r.seqNo == n)
  {
    var next := log + [r];
    if Taken(log, project, n) {
      var i :| 0 <= i < |log| && log[i].project == project && log[i].seqNo == n;
      assert next[i] == log[i];
    }
    assert next[|log|] == r;
  }

  lemma CountNext(log: seq<Record>, r: Record, project: string)
    ensures Count(log + [r], project) == Count(log, project) + (if r.project == project then 1 else 0)
  {
    assert (log + [r])[..|log|] == log;
  }

  // ---- one transaction ----

  datatype Attempt = Landed(after: Tables) | Collided | Refused

  function RecordOf(m: Mutation, n: nat, uid: string, at: int): Record {
    Record(uid, m.row.project, n, ActionOf(m), SubPayload(m.row), at)
  }

  // The mutation's own error surfaces first; then the record is inserted under the index; both or neither commit.
  function Transact(t: Tables, m: Mutation, n: nat, uid: string, at: int): Attempt {
    match Write(t.subs, m)
    case None => Refused
    case Some(subs) =>
      if Taken(t.log, m.row.project, n) then Collided
      else Landed(Tables(subs, t.log + [RecordOf(m, n, uid, at)]))
  }

  const ATTEMPTS: nat := 5

  // ---- any number of concurrent writers ----

  type Tid = nat

  datatype Op =
    | CreateOp(row: Sub)
    | UpdateOp(row: Sub)                     // copies worker and rest onto the row it reads
    | DeleteOp(project: string, id: string)

  datatype Writer =
    | Reading(op: Op)                                 // about to read the existing row
    | Marking(m: Mutation, attempt: nat)              // about to read the high-water mark
    | Holding(m: Mutation, attempt: nat, n: nat)      // holds a number, about to write and commit
    | Done(n: nat)
    | Failed

  datatype State = State(tables: Tables, writers: map<Tid, Writer>)

  datatype Step =
    | Start(t: Tid, op: Op)
    | Advance(t: Tid, uid: string, at: int)
    | Abort(t: Tid)                                   // validation, a missing worker, a lost connection

  function Init(): State {
    State(Tables(map[], []), map[])
  }

  predicate Visible(t: Tables, project: string, id: string) {
    id in t.subs && t.subs[id].project == project
  }

  function Read(t: Tables, op: Op): Option<Mutation> {
    match op
    case CreateOp(row) => Some(Insert(row))
    case UpdateOp(row) =>
      if Visible(t, row.project, row.id) then Some(Save(t.subs[row.id].(worker := row.worker, rest := row.rest)))
      else None
    case DeleteOp(project, id) => if Visible(t, project, id) then Some(Remove(t.subs[id])) else None
  }

  // The writer's next step, against the tables as they are now.
  function Moved(t: Tables, w: Writer, uid: string, at: int): (Writer, Tables) {
    match w
    case Reading(op) => (match Read(t, op) case None => (Failed, t) case Some(m) => (Marking(m, 0), t))
    case Marking(m, k) => (Holding(m, k, MaxSeq(t.log, m.row.project) + 1), t)
    case Holding(m, k, n) =>
      (match Transact(t, m, n, uid, at)
       case Landed(after) => (Done(n), after)
       case Collided => (if k + 1 < ATTEMPTS then Marking(m, k + 1) else Failed, t)
       case Refused => (Failed, t))
    case _ => (w, t)
  }

  function Apply(s: State, step: Step): State {
    match step
    case Start(t, op) => if t in s.writers then s else s.(writers := s.writers[t := Reading(op)])
    case Advance(t, uid, at) =>
      if t !in s.writers then s
      else var (w, tables) := Moved(s.tables, s.writers[t], uid, at); State(tables, s.writers[t := w])
    case Abort(t) =>
      if t !in s.writers || s.writers[t].Done? then s else s.(writers := s.writers[t := Failed])
  }

  function Final(s: State, steps: seq<Step>): State
    decreases |steps|
  {
    if steps == [] then s else Final(Apply(s, steps[0]), steps[1..])
  }

  // ---- numbering: no hypothesis at all ----

  // A number a writer holds was free when it read it, and the mark only grows.
  predicate HeldOk(log: seq<Record>, w: Writer) {
    w.Holding? ==> 1 <= w.n <= Count(log, w.m.row.project) + 1
  }

  predicate NumberingOk(s: State) {
    Dense(s.tables.log) && forall t :: t in s.writers ==> HeldOk(s.tables.log, s.writers[t])
  }

  // A commit appends the one number that comes next; anything else leaves rows and log exactly as they were.
  lemma MovedIsAtomic(t: Tables, w: Writer, uid: string, at: int)
    requires Dense(t.log) && HeldOk(t.log, w)
    ensures var (w', t') := Moved(t, w, uid, at);
            if w.Holding? && w'.Done? then
              w'.n == w.n == Count(t.log, w.m.row.project) + 1 && Write(t.subs, w.m) == Some(t'.subs) &&
              t'.log == t.log + [RecordOf(w.m, w.n, uid, at)]
            else t' == t && (w.Done? || w'.Done? ==> w' == w)
    ensures HeldOk(Moved(t, w, uid, at).1.log, Moved(t, w, uid, at).0)
  {
    match w
    case Holding(m, k, n) => DenseTaken(t.log, m.row.project, n);
    case Marking(m, k) => DenseTaken(t.log, m.row.project, 0);
    case _ =>
  }

  lemma StepKeepsNumbering(s: State, step: Step)
    requires NumberingOk(s)
    ensures NumberingOk(Apply(s, step))
  {
    hide Dense, Moved, Count, MaxSeq, Taken, RecordOf, Write;
    if step.Advance? && step.t in s.writers {
      MovedIsAtomic(s.tables, s.writers[step.t], step.uid, step.at);
      var (w', t') := Moved(s.tables, s.writers[step.t], step.uid, step.at);
      if t' != s.tables {
        var r := t'.log[|t'.log| - 1];
        RecordIs(s.writers[step.t].m, s.writers[step.t].n, step.uid, step.at);
        DenseNext(s.tables.log, r);
        HeldStays(s, r);
      }
    }
  }

  lemma RecordIs(m: Mutation, n: nat, uid: string, at: int)
    ensures RecordOf(m, n, uid, at).seqNo == n && RecordOf(m, n, uid, at).project == m.row.project
  {
  }

  lemma HeldStays(s: State, r: Record)
    requires NumberingOk(s)
    ensures forall t :: t in s.writers ==> HeldOk(s.tables.log + [r], s.writers[t])
  {
    hide Dense;
    forall t | t in s.writers ensures HeldOk(s.tables.log + [r], s.writers[t]) {
      if s.writers[t].Holding? {
        CountNext(s.tables.log, r, s.writers[t].m.row.project);
      }
    }
  }

  // However any number of writers interleave: every project's records are numbered 1, 2, 3, ... in commit order.
  lemma {:induction false} NumbersAreDense(s: State, steps: seq<Step>)
    requires NumberingOk(s)
    ensures NumberingOk(Final(s, steps))
    decreases |steps|
  {
    hide Apply, NumberingOk;
    if steps != [] {
      StepKeepsNumbering(s, steps[0]);
      NumbersAreDense(Apply(s, steps[0]), steps[1..]);
    }
  }

  // ---- neither or both ----

  function Landers(s: State): set<Tid> {
    set t | t in s.writers && s.writers[t].Done?
  }

  lemma StepLands(s: State, step: Step)
    requires NumberingOk(s)
    ensures |Landers(Apply(s, step))| - |Landers(s)| == |Apply(s, step).tables.log| - |s.tables.log|
  {
    hide Dense, Count, Moved, Write, MaxSeq;
    var s' := Apply(s, step);
    if step.Advance? && step.t in s.writers {
      MovedIsAtomic(s.tables, s.writers[step.t], step.uid, step.at);
      if s.writers[step.t].Holding? && s'.writers[step.t].Done? {
        assert Landers(s') == Landers(s) + {step.t};
      } else {
        assert Landers(s') == Landers(s);
      }
    } else {
      assert Landers(s') == Landers(s);
    }
  }

  // A writer that failed, at whatever point, left no record: there are exactly as many records as writers that were
  // told they succeeded.
  lemma {:induction false} OneRecordPerSuccess(s: State, steps: seq<Step>)
    requires NumberingOk(s) && |Landers(s)| == |s.tables.log|
    ensures |Landers(Final(s, steps))| == |Final(s, steps).tables.log|
    decreases |steps|
  {
    hide Apply, NumberingOk, Landers;
    if steps != [] {
      StepKeepsNumbering(s, steps[0]);
      StepLands(s, steps[0]);
      OneRecordPerSuccess(Apply(s, steps[0]), steps[1..]);
    }
  }

  // ---- how often a writer tries ----

  // The writer's commits so far that met a taken number.
  function Collisions(s: State, steps: seq<Step>, t: Tid): nat
    decreases |steps|
  {
    if steps == [] then 0
    else
      (if steps[0].Advance? && steps[0].t == t && t in s.writers && s.writers[t].Holding? &&
          Transact(s.tables, s.writers[t].m, s.writers[t].n, steps[0].uid, steps[0].at).Collided? then 1 else 0) +
      Collisions(Apply(s, steps[0]), steps[1..], t)
  }

  // The writer has met `collided` of them, and is still trying, or it has ended: with its record, or refused, or beaten
  // five times.
  predicate Tries(s: State, t: Tid, m: Mutation, collided: nat) {
    t in s.writers &&
    match s.writers[t]
    case Reading(_) => false
    case Marking(x, attempt) => x == m && attempt == collided < 5
    case Holding(x, attempt, _) => x == m && attempt == collided < 5
    case Done(_) => collided < 5
    case Failed => collided <= 5
  }

  lemma StepTries(s: State, step: Step, t: Tid, m: Mutation, collided: nat)
    requires Tries(s, t, m, collided) && step != Abort(t)
    ensures Tries(Apply(s, step), t, m, collided + Collisions(s, [step], t))
  {
    hide Taken, MaxSeq, Read, Write, RecordOf;
    assert [step][1..] == [];
  }

  lemma {:induction false} RunTries(s: State, steps: seq<Step>, t: Tid, m: Mutation, collided: nat)
    requires Tries(s, t, m, collided) && forall i :: 0 <= i < |steps| ==> steps[i] != Abort(t)
    ensures Tries(Final(s, steps), t, m, collided + Collisions(s, steps, t))
    decreases |steps|
  {
    hide Tries, Apply;
    if steps != [] {
      assert steps[0] != Abort(t);
      StepTries(s, steps[0], t, m, collided);
      assert [steps[0]][1..] == [];
      RunTries(Apply(s, steps[0]), steps[1..], t, m, collided + Collisions(s, [steps[0]], t));
    }
  }

  // The step is the writer's fifth collision, or its mutation is refused.
  predicate GivesUp(s: State, step: Step, t: Tid, collided: nat) {
    step.Advance? && step.t == t && t in s.writers && s.writers[t].Holding? &&
    var w := s.writers[t];
    match Transact(s.tables, w.m, w.n, step.uid, step.at)
    case Collided => collided == 4
    case Refused => true
    case Landed(_) => false
  }

  // However others interfere, a writer that read its row and is not aborted tries to commit just that mutation, at
  // most five times over numbers that were taken; it fails exactly when its mutation is refused or its fifth number
  // was taken, and an abort fails it, whatever it was at, unless it is done.
  lemma WriterTriesFiveTimes(s: State, steps: seq<Step>, t: Tid, m: Mutation, step: Step)
    requires t in s.writers && s.writers[t] == Marking(m, 0) && forall i :: 0 <= i < |steps| ==> steps[i] != Abort(t)
    ensures var s1, c := Final(s, steps), Collisions(s, steps, t);
            Tries(s1, t, m, c) &&
            (step != Abort(t) && s1.writers[t] != Failed ==>
               (Apply(s1, step).writers[t] == Failed <==> GivesUp(s1, step, t, c))) &&
            Apply(s1, Abort(t)).writers[t] == if s1.writers[t].Done? then s1.writers[t] else Failed
  {
    hide Taken, MaxSeq, Read, Write, RecordOf, Final, Collisions;
    RunTries(s, steps, t, m, 0);
  }
}
