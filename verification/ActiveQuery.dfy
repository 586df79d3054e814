/**
 The turn in flight, named in two id spaces (go/runner.go, go/agentdb/activequery.go): one session's entry in memory,
 its copy in the store, and the frames, ends, reads and restarts that race over them.
 */
module ActiveQuery {
  import opened Text

  type Id = string

  // `sandbox` is empty between dispatching a turn and seeing its connected frame.
  datatype Ids = Ids(query: Id, sandbox: Id)

  // A store call that has been made and has not landed. It is outside the lock, so it may land late, or never.
  datatype Call = Set(ids: Ids) | Clear(query: Id)

  datatype State = State(
    mem: Option<Ids>,             // activeQueries[session]
    row: Ids,                     // the session's two columns
    calls: multiset<Call>,
    begun: set<Id>,               // turns dispatched, by any process
    announced: set<(Id, Id)>)     // (turn, sandbox id) pairs a connected frame carried

  datatype Step =
    | Begin(q: Id)
    | Connected(q: Id, sandbox: Id)
    | End(q: Id)
    | Land(call: Call)
    | Lose(call: Call)
    | Restart

  function Init(): State {
    State(None, Ids("", ""), multiset{}, {}, {})
  }

  predicate Enabled(s: State, step: Step) {
    match step
    case Begin(q) => q != ""
    case Connected(q, _) => q in s.begun
    case End(q) => q in s.begun
    case Land(c) => c in s.calls
    case Lose(c) => c in s.calls
    case Restart => true
  }

  // onConnected: a frame with nothing to say, or of a turn that is not the recorded one, changes nothing.
  predicate Ignored(mem: Option<Ids>, q: Id, sandbox: Id) {
    sandbox == "" || sandbox == q || (mem.Some? && mem.value.query != q)
  }

  function AfterEnd(mem: Option<Ids>, q: Id): Option<Ids> {
    if mem.Some? && mem.value.query == q then None else mem
  }

  // A clear that names another turn than the recorded one does nothing.
  function Landed(row: Ids, c: Call): Ids {
    match c
    case Set(ids) => ids
    case Clear(q) => if row.query == q then Ids("", "") else row
  }

  function Apply(s: State, step: Step): State
    requires Enabled(s, step)
  {
    match step
    case Begin(q) => s.(mem := Some(Ids(q, "")), calls := s.calls + multiset{Set(Ids(q, ""))}, begun := s.begun + {q})
    case Connected(q, sb) =>
      var heard := s.(announced := s.announced + {(q, sb)});
      if Ignored(s.mem, q, sb) then heard
      else heard.(mem := Some(Ids(q, sb)), calls := s.calls + multiset{Set(Ids(q, sb))})
    case End(q) => s.(mem := AfterEnd(s.mem, q), calls := s.calls + multiset{Clear(q)})
    case Land(c) => s.(row := Landed(s.row, c), calls := s.calls - multiset{c})
    case Lose(c) => s.(calls := s.calls - multiset{c})
    case Restart => s.(mem := None, calls := multiset{})
  }

  // ---- the fields themselves ----

  type Sid = string

  function Entry(active: map<Sid, Ids>, sid: Sid): Option<Ids> {
    if sid in active then Some(active[sid]) else None
  }

  class Runner {
    var activeQueries: map<Sid, Ids>
    var rows: map<Sid, Ids>          // the sessions' columns

    method BeginActiveQuery(sid: Sid, q: Id) returns (call: Call)
      modifies this`activeQueries
      ensures activeQueries == old(activeQueries)[sid := Ids(q, "")] && call == Set(Ids(q, ""))
    {
      activeQueries := activeQueries[sid := Ids(q, "")];
      return Set(Ids(q, ""));
    }

    method OnConnected(sid: Sid, q: Id, sandbox: Id) returns (call: Option<Call>)
      modifies this`activeQueries
      ensures if sandbox == "" || sandbox == q || (sid in old(activeQueries) && old(activeQueries[sid].query) != q)
              then call == None && activeQueries == old(activeQueries)
              else call == Some(Set(Ids(q, sandbox))) && activeQueries == old(activeQueries)[sid := Ids(q, sandbox)]
      ensures call == None <==> Ignored(old(Entry(activeQueries, sid)), q, sandbox)
    {
      if sandbox == "" || sandbox == q {
        return None;
      }
      if sid in activeQueries && activeQueries[sid].query != q {
        return None;
      }
      activeQueries := activeQueries[sid := Ids(q, sandbox)];
      return Some(Set(Ids(q, sandbox)));
    }

    method EndActiveQuery(sid: Sid, q: Id) returns (call: Call)
      modifies this`activeQueries
      ensures activeQueries == if sid in old(activeQueries) && old(activeQueries[sid].query) == q
                               then old(activeQueries) - {sid} else old(activeQueries)
      ensures Entry(activeQueries, sid) == AfterEnd(old(Entry(activeQueries, sid)), q) && call == Clear(q)
    {
      if sid in activeQueries && activeQueries[sid].query == q {
        activeQueries := activeQueries - {sid};
      }
      return Clear(q);
    }

    // SetActiveQuery and ClearActiveQuery on one session's row.
    method Store(sid: Sid, call: Call) returns (ok: bool)
      modifies this`rows
      ensures ok <==>
                sid != "" && (call.Set? ==> call.ids.query != "" && sid in old(rows)) &&
                (call.Clear? ==> call.query != "")
      ensures ok && call.Set? ==> rows == old(rows)[sid := call.ids]
      ensures ok && call.Clear? && sid in old(rows) && old(rows[sid].query) == call.query ==>
                rows == old(rows)[sid := Ids("", "")]
      ensures !ok || (call.Clear? && (sid !in old(rows) || old(rows[sid].query) != call.query)) ==> rows == old(rows)
      ensures rows == if ok && sid in old(rows) then old(rows)[sid := Landed(old(rows)[sid], call)] else old(rows)
    {
      if sid == "" {
        return false;
      }
      match call {
        case Set(ids) =>
          if ids.query == "" || sid !in rows {
            return false;
          }
          rows := rows[sid := ids];
        case Clear(q) =>
          if q == "" {
            return false;
          }
          if sid in rows && rows[sid].query == q {
            rows := rows[sid := Ids("", "")];
          }
      }
      return true;
    }
  }

  predicate Run(s: State, steps: seq<Step>)
    decreases |steps|
  {
    steps == [] || (Enabled(s, steps[0]) && Run(Apply(s, steps[0]), steps[1..]))
  }

  function Final(s: State, steps: seq<Step>): State
    requires Run(s, steps)
    decreases |steps|
  {
    if steps == [] then s else Final(Apply(s, steps[0]), steps[1..])
  }

  // ---- the id to attach with ----

  // sandboxStreamID: memory is read under the lock at `s`, the store afterwards, at `later`, if it answers at all.
  function StreamId(s: State, later: State, q: Id, answers: bool): Id {
    if q == "" then q
    else if s.mem.Some? && s.mem.value.query == q && s.mem.value.sandbox != "" then s.mem.value.sandbox
    else if answers && later.row.query == q && later.row.sandbox != "" then later.row.sandbox
    else q
  }

  // Wherever a sandbox id is written, a connected frame announced it for that turn.
  predicate Backed(s: State, ids: Ids) {
    ids.sandbox == "" || (ids.query, ids.sandbox) in s.announced
  }

  predicate AllBacked(s: State) {
    && (s.mem.Some? ==> Backed(s, s.mem.value)) && Backed(s, s.row)
    && forall c :: c in s.calls && c.Set? ==> Backed(s, c.ids)
  }

  lemma ConnectedKeepsBacked(s: State, q: Id, sandbox: Id)
    requires AllBacked(s) && Enabled(s, Connected(q, sandbox))
    ensures AllBacked(Apply(s, Connected(q, sandbox))) && s.announced <= Apply(s, Connected(q, sandbox)).announced
  {
  }

  lemma LandKeepsBacked(s: State, c: Call)
    requires AllBacked(s) && c in s.calls
    ensures AllBacked(Apply(s, Land(c))) && AllBacked(Apply(s, Lose(c)))
  {
  }

  lemma StepKeepsBacked(s: State, step: Step)
    requires AllBacked(s) && Enabled(s, step)
    ensures AllBacked(Apply(s, step)) && s.announced <= Apply(s, step).announced
  {
    match step
    case Connected(q, sb) => ConnectedKeepsBacked(s, q, sb);
    case Land(c) => LandKeepsBacked(s, c);
    case Lose(c) => LandKeepsBacked(s, c);
    case _ =>
  }

  lemma {:induction false} RunKeepsBacked(s: State, steps: seq<Step>)
    requires AllBacked(s) && Run(s, steps)
    ensures AllBacked(Final(s, steps)) && s.announced <= Final(s, steps).announced
    decreases |steps|
  {
    hide AllBacked, Apply, Enabled;
    if steps != [] {
      StepKeepsBacked(s, steps[0]);
      RunKeepsBacked(Apply(s, steps[0]), steps[1..]);
    }
  }

  // In every interleaving of turns, late frames, late or lost store writes and restarts, with anything happening
  // between the two reads: a caller that names a turn attaches with that name, or with an id the sandbox announced for
  // it.
  lemma AttachesToTheTurn(before: seq<Step>, between: seq<Step>, q: Id, answers: bool)
    requires Run(Init(), before) && Run(Final(Init(), before), between)
    ensures var s := Final(Init(), before);
            var later := Final(s, between);
            var id := StreamId(s, later, q, answers);
            id == q || (q, id) in later.announced
  {
    hide Run, Final;
    RunKeepsBacked(Init(), before);
    RunKeepsBacked(Final(Init(), before), between);
  }

  // ---- who owns the entry ----

  // Nothing but a new turn, the end of the recorded one, or a restart.
  predicate Spares(step: Step, q: Id) {
    match step
    case Begin(_) => false
    case End(x) => x != q
    case Restart => false
    case _ => true
  }

  lemma StepSpares(s: State, step: Step, q: Id)
    requires Enabled(s, step) && Spares(step, q) && s.mem.Some? && s.mem.value.query == q
    ensures Apply(s, step).mem.Some? && Apply(s, step).mem.value.query == q
    ensures step.Connected? && step.q != q ==> Apply(s, step).mem == s.mem
    ensures step.End? ==> Apply(s, step).mem == s.mem
  {
  }

  // The sandbox id of the turn's own last frame that had one to tell, or else what was known before.
  function Heard(sandbox: Id, steps: seq<Step>, q: Id): Id
    decreases |steps|
  {
    if steps == [] then sandbox
    else
      var told := steps[0].Connected? && steps[0].q == q && steps[0].sandbox != "" && steps[0].sandbox != q;
      Heard(if told then steps[0].sandbox else sandbox, steps[1..], q)
  }

  // The live turn keeps its entry, with its own sandbox id, through any number of frames and ends of superseded turns
  // and of store writes that land or are lost; once known, its sandbox id is never forgotten.
  lemma {:induction false} LiveTurnKeepsEntry(s: State, steps: seq<Step>, q: Id)
    requires Run(s, steps) && s.mem.Some? && s.mem.value.query == q
    requires forall i :: 0 <= i < |steps| ==> Spares(steps[i], q)
    ensures Final(s, steps).mem == Some(Ids(q, Heard(s.mem.value.sandbox, steps, q)))
    ensures s.mem.value.sandbox != "" ==> Final(s, steps).mem.value.sandbox != ""
    decreases |steps|
  {
    hide Enabled;
    if steps != [] {
      StepSpares(s, steps[0], q);
      LiveTurnKeepsEntry(Apply(s, steps[0]), steps[1..], q);
    }
  }

  // A connected frame that arrives when no turn is recorded records its own, even one that has already ended.
  lemma LateFrameRecordsEndedTurn(s: State, q: Id, sandbox: Id)
    requires s.mem.Some? && s.mem.value.query == q && q in s.begun && sandbox != "" && sandbox != q
    ensures Enabled(s, End(q)) && Enabled(Apply(s, End(q)), Connected(q, sandbox))
    ensures Apply(Apply(s, End(q)), Connected(q, sandbox)).mem == Some(Ids(q, sandbox))
  {
  }

  // The store's copy is written outside the lock: of two turns' writes, the older can land last and stay.
  lemma StoreCanLag(s: State, q1: Id, q2: Id)
    requires q1 != "" && q2 != "" && q1 != q2
    ensures Enabled(s, Begin(q1)) && Enabled(Apply(s, Begin(q1)), Begin(q2))
    ensures var t := Apply(Apply(s, Begin(q1)), Begin(q2));
            Enabled(t, Land(Set(Ids(q2, "")))) &&
            var u := Apply(t, Land(Set(Ids(q2, ""))));
            Enabled(u, Land(Set(Ids(q1, "")))) &&
            var v := Apply(u, Land(Set(Ids(q1, ""))));
            v.mem == Some(Ids(q2, "")) && v.row == Ids(q1, "")
  {
  }
}
