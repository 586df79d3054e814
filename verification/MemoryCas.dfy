/**
 Compare-and-swap on named memories (go/agentdb/memories.go): an advisory lock per name and an insert guarded by "the
 newest unretracted memory of the name is still the one the caller named".
 */
module MemoryCas {
  import opened Text
  import opened Versions

  type Tid = nat
  // Ids are compared as text; only that the order is total matters here.
  type MemId = nat

  datatype Mem = Mem(name: Name, created: int, retracts: Option<MemId>)

  // Another memory of the same project carries the row's id as its retraction label.
  predicate Retracted(rows: map<MemId, Mem>, i: MemId) {
    i in rows && exists j :: j in rows && rows[j].retracts == Some(i) && rows[j].name.project == rows[i].name.project
  }

  predicate Candidate(rows: map<MemId, Mem>, n: Name, i: MemId) {
    i in rows && rows[i].name == n && !Retracted(rows, i)
  }

  // The order of `created_at DESC, id DESC`.
  predicate Exceeds(a: Mem, i: MemId, b: Mem, j: MemId) {
    a.created > b.created || (a.created == b.created && i > j)
  }

  // The row newestNamedIDSQL picks.
  predicate IsNewest(rows: map<MemId, Mem>, n: Name, i: MemId) {
    Candidate(rows, n, i) &&
    forall j :: j in rows && Candidate(rows, n, j) && j != i ==> Exceeds(rows[i], i, rows[j], j)
  }

  lemma NewestUnique(rows: map<MemId, Mem>, n: Name, i: MemId, j: MemId)
    requires IsNewest(rows, n, i) && IsNewest(rows, n, j)
    ensures i == j
  {
    hide Retracted;
  }

  // A listing of the name's memories: each once, latest first, and of one instant the greater id first.
  ghost predicate IsListing(rows: map<MemId, Mem>, n: Name, ids: seq<MemId>) {
    && (forall i :: i in ids <==> Candidate(rows, n, i))
    && (forall a, b :: 0 <= a < b < |ids| ==> LaterFirst(rows, ids[a], ids[b]))
  }

  predicate LaterFirst(rows: map<MemId, Mem>, i: MemId, j: MemId) {
    i in rows && j in rows &&
    if rows[i].created == rows[j].created then i > j else rows[i].created > rows[j].created
  }

  lemma HeadIsNewest(rows: map<MemId, Mem>, n: Name, ids: seq<MemId>)
    requires IsListing(rows, n, ids) && ids != []
    ensures IsNewest(rows, n, ids[0])
  {
    hide Retracted, Candidate;
    assert ids[0] in ids;
    forall j | j in rows && Candidate(rows, n, j) && j != ids[0] ensures Exceeds(rows[ids[0]], ids[0], rows[j], j) {
      assert j in ids;
      var k :| 0 <= k < |ids| && ids[k] == j;
      assert LaterFirst(rows, ids[0], ids[k]);
    }
  }

  // The newest memory is the one such a listing has at its head.
  lemma NewestHeadsTheListing(rows: map<MemId, Mem>, n: Name, ids: seq<MemId>, i: MemId)
    requires IsListing(rows, n, ids)
    ensures IsNewest(rows, n, i) <==> ids != [] && ids[0] == i
  {
    hide Retracted, Candidate, LaterFirst, Exceeds;
    if ids != [] {
      HeadIsNewest(rows, n, ids);
    }
    if IsNewest(rows, n, i) {
      assert i in ids;
      NewestUnique(rows, n, i, ids[0]);
    }
  }

  // A memory that another one of its project withdraws is not current; once the newest is withdrawn, by a memory of
  // another name, the runner-up is.
  lemma WithdrawnIsNotCurrent(rows: map<MemId, Mem>, n: Name, i: MemId, j: MemId)
    requires i in rows && j in rows && rows[j].retracts == Some(i) && rows[j].name.project == n.project
    ensures !IsNewest(rows, n, i)
  {
  }

  lemma RetractedGrows(rows: map<MemId, Mem>, j: MemId, m: Mem, x: MemId)
    requires j !in rows && x in rows
    ensures Retracted(rows[j := m], x) <==>
              Retracted(rows, x) || (m.retracts == Some(x) && m.name.project == rows[x].name.project)
  {
    var next := rows[j := m];
    if Retracted(rows, x) {
      var y :| y in rows && rows[y].retracts == Some(x) && rows[y].name.project == rows[x].name.project;
      assert y in next && next[y] == rows[y];
    }
    assert j in next && next[j] == m;
  }

  lemma WithdrawalUncovers(rows: map<MemId, Mem>, n: Name, i: MemId, next: MemId, j: MemId, m: Mem)
    requires IsNewest(rows, n, i) && j !in rows && m.retracts == Some(i) && m.name != n && m.name.project == n.project
    requires Candidate(rows, n, next) && next != i
    requires forall x :: x in rows && Candidate(rows, n, x) && x != i && x != next ==>
               Exceeds(rows[next], next, rows[x], x)
    ensures IsNewest(rows[j := m], n, next)
  {
    hide Retracted;
    forall x | x in rows ensures Candidate(rows[j := m], n, x) <==> Candidate(rows, n, x) && x != i {
      RetractedGrows(rows, j, m, x);
    }
  }

  // ---- the protocol ----

  datatype Writer =
    | Stamped(m: Mem, id: MemId, ifCurrent: MemId)   // id and created_at are chosen; about to take the lock
    | Locked(m: Mem, id: MemId, ifCurrent: MemId)    // about to run the guarded insert
    | Passed(m: Mem, id: MemId, ifCurrent: MemId)    // the guard held on the statement's snapshot; about to commit
    | Refusing(m: Mem, id: MemId, ifCurrent: MemId)  // no row inserted; about to read who is current
    | Landed(id: MemId)
    | Refused(ifCurrent: MemId, current: Option<MemId>)
    | Failed

  datatype Landing = Landing(id: MemId, replaced: MemId)

  datatype State = State(
    rows: map<MemId, Mem>,
    holders: map<int, Tid>,              // advisory locks
    writers: map<Tid, Writer>,
    landed: map<Name, seq<Landing>>)     // the conditional writes that committed, oldest first

  datatype Step =
    | Begin(t: Tid, m: Mem, id: MemId, ifCurrent: MemId)
    | Acquire(t: Tid)
    | Guard(t: Tid)
    | Commit(t: Tid)
    | Report(t: Tid, current: Option<MemId>)
    | Rollback(t: Tid)
    | Append(m: Mem, id: MemId)          // CreateMemory: no lock, no guard

  function Init(rows: map<MemId, Mem>): State {
    State(rows, map[], map[], map[])
  }

  predicate InTransaction(w: Writer) {
    w.Locked? || w.Passed? || w.Refusing?
  }

  // `h` is the lock key of a name; nothing is assumed about collisions.
  type Hash = Name -> int

  predicate IsCurrent(rows: map<MemId, Mem>, n: Name, current: Option<MemId>) {
    match current
    case Some(i) => IsNewest(rows, n, i)
    case None => forall i :: i in rows ==> !Candidate(rows, n, i)
  }

  predicate Enabled(h: Hash, s: State, step: Step) {
    match step
    case Begin(t, m, _, _) => t !in s.writers && m.name.tag != ""
    case Acquire(t) => t in s.writers && s.writers[t].Stamped? && h(s.writers[t].m.name) !in s.holders
    case Guard(t) => t in s.writers && s.writers[t].Locked?
    case Commit(t) => t in s.writers && s.writers[t].Passed?
    case Report(t, current) =>
      t in s.writers && s.writers[t].Refusing? && IsCurrent(s.rows, s.writers[t].m.name, current)
    case Rollback(t) => t in s.writers && InTransaction(s.writers[t])
    case Append(_, id) => id !in s.rows
  }

  function LandedOf(s: State, n: Name): seq<Landing> {
    if n in s.landed then s.landed[n] else []
  }

  function Release(h: Hash, s: State, t: Tid, n: Name, w: Writer): State {
    s.(holders := s.holders - {h(n)}, writers := s.writers[t := w])
  }

  function Apply(h: Hash, s: State, step: Step): State
    requires Enabled(h, s, step)
  {
    match step
    case Begin(t, m, id, c) => s.(writers := s.writers[t := Stamped(m, id, c)])
    case Acquire(t) =>
      var w := s.writers[t];
      s.(holders := s.holders[h(w.m.name) := t], writers := s.writers[t := Locked(w.m, w.id, w.ifCurrent)])
    case Guard(t) =>
      var w := s.writers[t];
      s.(writers := s.writers[t := if IsNewest(s.rows, w.m.name, w.ifCurrent) then Passed(w.m, w.id, w.ifCurrent)
                                   else Refusing(w.m, w.id, w.ifCurrent)])
    case Commit(t) =>
      var w := s.writers[t];
      if w.id in s.rows then Release(h, s, t, w.m.name, Failed)      // the primary key
      else Release(h, s, t, w.m.name, Landed(w.id))
             .(rows := s.rows[w.id := w.m],
               landed := s.landed[w.m.name := LandedOf(s, w.m.name) + [Landing(w.id, w.ifCurrent)]])
    case Report(t, current) =>
      var w := s.writers[t];
      Release(h, s, t, w.m.name, Refused(w.ifCurrent, current))
    case Rollback(t) => Release(h, s, t, s.writers[t].m.name, Failed)
    case Append(m, id) => s.(rows := s.rows[id := m])
  }

  // ---- the hypotheses for one name ----

  // Nothing is retracted, and nobody appends to the name without a condition.
  predicate Pact(n: Name, step: Step) {
    match step
    case Begin(_, m, _, _) => m.retracts == None
    case Append(m, _) => m.retracts == None && m.name != n
    case _ => true
  }

  // A row lands on top: its key exceeds the key of the row it replaces.
  predicate Rises(s: State, n: Name, step: Step) {
    step.Commit? && step.t in s.writers && s.writers[step.t].Passed? && s.writers[step.t].m.name == n ==>
      var w := s.writers[step.t];
      w.ifCurrent in s.rows && Exceeds(w.m, w.id, s.rows[w.ifCurrent], w.ifCurrent)
  }

  predicate Run(h: Hash, s: State, steps: seq<Step>)
    decreases |steps|
  {
    steps == [] || (Enabled(h, s, steps[0]) && Run(h, Apply(h, s, steps[0]), steps[1..]))
  }

  function Final(h: Hash, s: State, steps: seq<Step>): State
    requires Run(h, s, steps)
    decreases |steps|
  {
    if steps == [] then s else Final(h, Apply(h, s, steps[0]), steps[1..])
  }

  predicate PactRun(h: Hash, n: Name, s: State, steps: seq<Step>)
    decreases |steps|
  {
    steps == [] ||
    (Enabled(h, s, steps[0]) && Pact(n, steps[0]) && Rises(s, n, steps[0]) &&
     PactRun(h, n, Apply(h, s, steps[0]), steps[1..]))
  }

  // ---- the invariant ----

  // Whoever is inside a transaction holds its name's lock.
  predicate LocksHeld(h: Hash, s: State) {
    forall t :: t in s.writers && InTransaction(s.writers[t]) ==>
      h(s.writers[t].m.name) in s.holders && s.holders[h(s.writers[t].m.name)] == t
  }

  // What the guard found is still so when its writer goes on.
  predicate GuardsStand(s: State, n: Name) {
    forall t :: t in s.writers && (s.writers[t].Passed? || s.writers[t].Refusing?) && s.writers[t].m.name == n ==>
      (IsNewest(s.rows, n, s.writers[t].ifCurrent) <==> s.writers[t].Passed?)
  }

  predicate NoWriterRetracts(s: State) {
    forall t :: t in s.writers && (s.writers[t].Stamped? || InTransaction(s.writers[t])) ==>
      s.writers[t].m.retracts == None
  }

  predicate Chained(c: seq<Landing>) {
    forall i :: 0 < i < |c| ==> c[i].replaced == c[i - 1].id
  }

  predicate Climbing(rows: map<MemId, Mem>, c: seq<Landing>) {
    forall i :: 0 <= i < |c| ==>
      c[i].id in rows && c[i].replaced in rows &&
      Exceeds(rows[c[i].id], c[i].id, rows[c[i].replaced], c[i].replaced)
  }

  // A retraction names a memory that exists.
  predicate NoDangling(rows: map<MemId, Mem>) {
    forall j :: j in rows && rows[j].retracts.Some? ==> rows[j].retracts.value in rows
  }

  predicate Inv(h: Hash, n: Name, s: State) {
    && NoDangling(s.rows) && LocksHeld(h, s) && GuardsStand(s, n) && NoWriterRetracts(s)
    && Chained(LandedOf(s, n)) && Climbing(s.rows, LandedOf(s, n))
    && (LandedOf(s, n) != [] ==> IsNewest(s.rows, n, LandedOf(s, n)[|LandedOf(s, n)| - 1].id))
  }

  // A new row of another name that retracts nothing changes no name's newest row.
  lemma OtherRow(rows: map<MemId, Mem>, n: Name, id: MemId, m: Mem, i: MemId)
    requires id !in rows && m.retracts == None && m.name != n
    ensures IsNewest(rows[id := m], n, i) <==> IsNewest(rows, n, i)
  {
    hide Exceeds;
    var next := rows[id := m];
    forall j ensures Candidate(next, n, j) <==> Candidate(rows, n, j) {
      if j != id {
        SameRetractions(rows, id, m, j);
      }
    }
  }

  lemma SameRetractions(rows: map<MemId, Mem>, id: MemId, m: Mem, j: MemId)
    requires id !in rows && m.retracts == None && j != id
    ensures Retracted(rows[id := m], j) <==> Retracted(rows, j)
  {
    var next := rows[id := m];
    if Retracted(rows, j) {
      var k :| k in rows && rows[k].retracts == Some(j) && rows[k].name.project == rows[j].name.project;
      assert k in next && next[k].retracts == Some(j);
    }
  }

  // The row that lands is the newest of its name exactly when its key exceeds the one it replaced.
  lemma LandedIsNewest(rows: map<MemId, Mem>, n: Name, id: MemId, m: Mem, replaced: MemId)
    requires IsNewest(rows, n, replaced) && id !in rows && m.name == n && m.retracts == None && NoDangling(rows)
    ensures IsNewest(rows[id := m], n, id) <==> Exceeds(m, id, rows[replaced], replaced)
  {
    var next := rows[id := m];
    forall j ensures Candidate(next, n, j) <==> Candidate(rows, n, j) || j == id {
      if j != id {
        SameRetractions(rows, id, m, j);
      }
    }
    hide Retracted;
  }

  // ---- every step keeps it ----

  lemma AppendKeeps(h: Hash, n: Name, s: State, m: Mem, id: MemId)
    requires Inv(h, n, s) && Enabled(h, s, Append(m, id)) && Pact(n, Append(m, id))
    ensures Inv(h, n, Apply(h, s, Append(m, id)))
  {
    hide IsNewest, Exceeds;
    forall i ensures IsNewest(s.rows[id := m], n, i) <==> IsNewest(s.rows, n, i) {
      OtherRow(s.rows, n, id, m, i);
    }
  }

  lemma GuardKeeps(h: Hash, n: Name, s: State, t: Tid)
    requires Inv(h, n, s) && Enabled(h, s, Guard(t))
    ensures Inv(h, n, Apply(h, s, Guard(t)))
  {
    hide IsNewest, Exceeds;
  }

  // A commit of another name: neither the name's rows nor its landings change.
  lemma OtherCommitKeeps(h: Hash, n: Name, s: State, t: Tid)
    requires Inv(h, n, s) && Enabled(h, s, Commit(t)) && s.writers[t].m.name != n && s.writers[t].id !in s.rows
    ensures Inv(h, n, Apply(h, s, Commit(t)))
  {
    hide IsNewest, Exceeds;
    var w := s.writers[t];
    forall i ensures IsNewest(s.rows[w.id := w.m], n, i) <==> IsNewest(s.rows, n, i) {
      OtherRow(s.rows, n, w.id, w.m, i);
    }
  }

  lemma CommitLands(h: Hash, n: Name, s: State, t: Tid)
    requires Inv(h, n, s) && Enabled(h, s, Commit(t)) && Rises(s, n, Commit(t))
    requires s.writers[t].m.name == n && s.writers[t].id !in s.rows
    ensures var s' := Apply(h, s, Commit(t));
            var c := LandedOf(s', n);
            Chained(c) && Climbing(s'.rows, c) && c != [] && IsNewest(s'.rows, n, c[|c| - 1].id)
  {
    hide Retracted;
    var w := s.writers[t];
    var earlier := LandedOf(s, n);
    LandedIsNewest(s.rows, n, w.id, w.m, w.ifCurrent);
    if earlier != [] {
      NewestUnique(s.rows, n, w.ifCurrent, earlier[|earlier| - 1].id);
    }
    hide IsNewest, Exceeds;
  }

  // While one writer of the name is about to commit, no other has passed its guard.
  lemma AloneAtCommit(h: Hash, n: Name, s: State, t: Tid)
    requires Inv(h, n, s) && Enabled(h, s, Commit(t)) && s.writers[t].m.name == n
    ensures forall u :: u in s.writers && u != t && InTransaction(s.writers[u]) ==> h(s.writers[u].m.name) != h(n)
  {
  }

  lemma OwnCommitKeeps(h: Hash, n: Name, s: State, t: Tid)
    requires Inv(h, n, s) && Enabled(h, s, Commit(t)) && Rises(s, n, Commit(t))
    requires s.writers[t].m.name == n && s.writers[t].id !in s.rows
    ensures Inv(h, n, Apply(h, s, Commit(t)))
  {
    hide IsNewest, Exceeds, Chained, Climbing;
    CommitLands(h, n, s, t);
    AloneAtCommit(h, n, s, t);
  }

  lemma EndKeeps(h: Hash, n: Name, s: State, t: Tid, w: Writer)
    requires Inv(h, n, s) && t in s.writers && InTransaction(s.writers[t]) && !InTransaction(w) && !w.Stamped?
    ensures Inv(h, n, Release(h, s, t, s.writers[t].m.name, w))
  {
    hide IsNewest, Exceeds;
  }

  lemma StepKeeps(h: Hash, n: Name, s: State, step: Step)
    requires Inv(h, n, s) && Enabled(h, s, step) && Pact(n, step) && Rises(s, n, step)
    ensures Inv(h, n, Apply(h, s, step))
  {
    match step
    case Append(m, id) => AppendKeeps(h, n, s, m, id);
    case Guard(t) => GuardKeeps(h, n, s, t);
    case Commit(t) =>
      if s.writers[t].id in s.rows {
        EndKeeps(h, n, s, t, Failed);
      } else if s.writers[t].m.name == n {
        OwnCommitKeeps(h, n, s, t);
      } else {
        OtherCommitKeeps(h, n, s, t);
      }
    case Report(t, current) => EndKeeps(h, n, s, t, Refused(s.writers[t].ifCurrent, current));
    case Rollback(t) => EndKeeps(h, n, s, t, Failed);
    case Acquire(t) => AcquireKeeps(h, n, s, t);
    case Begin(t, m, id, c) => BeginKeeps(h, n, s, t, m, id, c);
  }

  lemma AcquireKeeps(h: Hash, n: Name, s: State, t: Tid)
    requires Inv(h, n, s) && Enabled(h, s, Acquire(t))
    ensures Inv(h, n, Apply(h, s, Acquire(t)))
  {
    hide IsNewest, Exceeds;
  }

  lemma BeginKeeps(h: Hash, n: Name, s: State, t: Tid, m: Mem, id: MemId, c: MemId)
    requires Inv(h, n, s) && Enabled(h, s, Begin(t, m, id, c)) && m.retracts == None
    ensures Inv(h, n, Apply(h, s, Begin(t, m, id, c)))
  {
    hide IsNewest, Exceeds;
  }

  lemma {:induction false} RunKeeps(h: Hash, n: Name, s: State, steps: seq<Step>)
    requires Inv(h, n, s) && PactRun(h, n, s, steps)
    ensures Run(h, s, steps) && Inv(h, n, Final(h, s, steps))
    decreases |steps|
  {
    hide Inv, Apply, Enabled, Pact, Rises;
    if steps != [] {
      StepKeeps(h, n, s, steps[0]);
      RunKeeps(h, n, Apply(h, s, steps[0]), steps[1..]);
    }
  }

  // ---- what the pact gives ----

  // Keys climb along the chain, so a later landing never names a row an earlier one named.
  lemma {:induction false} ChainClimbs(rows: map<MemId, Mem>, c: seq<Landing>, i: nat, j: nat)
    requires Chained(c) && Climbing(rows, c) && i < j < |c|
    ensures c[j].replaced in rows && c[i].replaced in rows
    ensures Exceeds(rows[c[j].replaced], c[j].replaced, rows[c[i].replaced], c[i].replaced)
  {
    if i < j - 1 {
      ChainClimbs(rows, c, i, j - 1);
    }
  }

  // Any number of writers, of this name and others: the landings of one name form a single chain, each naming the one
  // before it, the last is the name's newest memory, and no row is named as current by two writers that landed.
  lemma LandingsFormOneChain(h: Hash, n: Name, rows: map<MemId, Mem>, steps: seq<Step>)
    requires NoDangling(rows) && PactRun(h, n, Init(rows), steps)
    ensures Run(h, Init(rows), steps)
    ensures var s := Final(h, Init(rows), steps);
            var c := LandedOf(s, n);
            Chained(c) && (c != [] ==> IsNewest(s.rows, n, c[|c| - 1].id)) &&
            forall i, j :: 0 <= i < j < |c| ==> c[i].replaced != c[j].replaced
  {
    hide Run, PactRun, Final, IsNewest, Exceeds;
    RunKeeps(h, n, Init(rows), steps);
    var s := Final(h, Init(rows), steps);
    var c := LandedOf(s, n);
    forall i, j | 0 <= i < j < |c| ensures c[i].replaced != c[j].replaced {
      ChainClimbs(s.rows, c, i, j);
      NotItself(s.rows, c[i].replaced);
    }
  }

  lemma NotItself(rows: map<MemId, Mem>, i: MemId)
    requires i in rows
    ensures !Exceeds(rows[i], i, rows[i], i)
  {
  }

  // A refused writer is told a memory other than the one it named, and the name's newest at that moment.
  lemma LoserIsToldAnother(h: Hash, n: Name, s: State, t: Tid, current: Option<MemId>)
    requires Inv(h, n, s) && Enabled(h, s, Report(t, current)) && s.writers[t].m.name == n
    ensures current != Some(s.writers[t].ifCurrent) && IsCurrent(s.rows, n, current)
  {
    hide IsNewest;
  }

  // ---- what it takes ----

  // One writer's whole transaction, with nobody else about.
  function Whole(t: Tid, m: Mem, id: MemId, c: MemId): seq<Step> {
    [Begin(t, m, id, c), Acquire(t), Guard(t), Commit(t)]
  }

  function After(s: State, t: Tid, m: Mem, id: MemId, c: MemId): State {
    State(s.rows[id := m], s.holders, s.writers[t := Landed(id)],
          s.landed[m.name := LandedOf(s, m.name) + [Landing(id, c)]])
  }

  lemma FourSteps(h: Hash, s: State, s1: State, s2: State, s3: State, w: Step, x: Step, y: Step, z: Step)
    requires Enabled(h, s, w) && Apply(h, s, w) == s1 && Enabled(h, s1, x) && Apply(h, s1, x) == s2
    requires Enabled(h, s2, y) && Apply(h, s2, y) == s3 && Enabled(h, s3, z)
    ensures Run(h, s, [w, x, y, z]) && Final(h, s, [w, x, y, z]) == Apply(h, s3, z)
  {
    hide Apply, Enabled;
    assert [w, x, y, z][1..] == [x, y, z] && [x, y, z][1..] == [y, z] && [y, z][1..] == [z] && [z][1..] == [];
    assert Run(h, s3, [z]) && Final(h, s3, [z]) == Final(h, Apply(h, s3, z), []);
    assert Run(h, s2, [y, z]) && Final(h, s2, [y, z]) == Final(h, s3, [z]);
    assert Run(h, s1, [x, y, z]) && Final(h, s1, [x, y, z]) == Final(h, s2, [y, z]);
  }

  function AtGuard(h: Hash, s: State, t: Tid, m: Mem, w: Writer): State {
    s.(holders := map[h(m.name) := t], writers := s.writers[t := w])
  }

  lemma UpToGuard(h: Hash, s: State, t: Tid, m: Mem, id: MemId, c: MemId)
    requires s.holders == map[] && t !in s.writers && m.name.tag != ""
    ensures var s1 := s.(writers := s.writers[t := Stamped(m, id, c)]);
            Enabled(h, s, Begin(t, m, id, c)) && Apply(h, s, Begin(t, m, id, c)) == s1 &&
            Enabled(h, s1, Acquire(t)) && Apply(h, s1, Acquire(t)) == AtGuard(h, s, t, m, Locked(m, id, c))
  {
    hide IsNewest;
  }

  lemma FromGuard(h: Hash, s: State, t: Tid, m: Mem, id: MemId, c: MemId)
    requires s.holders == map[] && id !in s.rows && IsNewest(s.rows, m.name, c)
    ensures var s2, s3 := AtGuard(h, s, t, m, Locked(m, id, c)), AtGuard(h, s, t, m, Passed(m, id, c));
            Enabled(h, s2, Guard(t)) && Apply(h, s2, Guard(t)) == s3 &&
            Enabled(h, s3, Commit(t)) && Apply(h, s3, Commit(t)) == After(s, t, m, id, c)
  {
    hide IsNewest;
  }

  lemma WholeRun(h: Hash, s: State, t: Tid, m: Mem, id: MemId, c: MemId)
    requires s.holders == map[] && t !in s.writers && m.name.tag != "" && id !in s.rows && IsNewest(s.rows, m.name, c)
    ensures Run(h, s, Whole(t, m, id, c)) && Final(h, s, Whole(t, m, id, c)) == After(s, t, m, id, c)
  {
    hide IsNewest, Run, Final, Apply, Enabled, After, AtGuard;
    UpToGuard(h, s, t, m, id, c);
    FromGuard(h, s, t, m, id, c);
    FourSteps(h, s, s.(writers := s.writers[t := Stamped(m, id, c)]), AtGuard(h, s, t, m, Locked(m, id, c)),
              AtGuard(h, s, t, m, Passed(m, id, c)), Begin(t, m, id, c), Acquire(t), Guard(t), Commit(t));
  }

  // Two writers name the same row, one after the other: both land if and only if the first one's stamp (and, at the
  // same millisecond, its id) does not exceed the row's. created_at is taken before the lock, so it may not.
  lemma SecondLandsIff(h: Hash, rows: map<MemId, Mem>, n: Name, c: MemId, m: Mem, id: MemId)
    requires NoDangling(rows) && IsNewest(rows, n, c) && n.tag != "" && m.name == n && m.retracts == None && id !in rows
    ensures Run(h, Init(rows), Whole(0, m, id, c))
    ensures var s := Final(h, Init(rows), Whole(0, m, id, c));
            s.writers == map[0 := Landed(id)] && s.rows == rows[id := m] &&
            (IsNewest(s.rows, n, c) <==> !Exceeds(m, id, rows[c], c))
  {
    hide Run, Final;
    WholeRun(h, Init(rows), 0, m, id, c);
    LandedIsNewest(rows, n, id, m, c);
    hide Retracted;
    if !Exceeds(m, id, rows[c], c) {
      StillNewest(rows, n, id, m, c);
    } else if IsNewest(rows[id := m], n, c) {
      NewestUnique(rows[id := m], n, id, c);
    }
  }

  lemma StillNewest(rows: map<MemId, Mem>, n: Name, id: MemId, m: Mem, c: MemId)
    requires IsNewest(rows, n, c) && id !in rows && m.retracts == None && !Exceeds(m, id, rows[c], c)
    ensures IsNewest(rows[id := m], n, c)
  {
    forall j | j != id ensures Retracted(rows[id := m], j) <==> Retracted(rows, j) {
      SameRetractions(rows, id, m, j);
    }
    hide Retracted;
  }

  // So within one millisecond, with the smaller id first, both writers are told they replaced the same memory.
  lemma BothLandInOneMillisecond(h: Hash, n: Name, at: int)
    requires n.tag != ""
    ensures var base, a, b := Mem(n, at, None), Mem(n, at, None), Mem(n, at + 1, None);
            var s0 := Init(map[7 := base]);
            Run(h, s0, Whole(0, a, 3, 7)) &&
            var s1 := Final(h, s0, Whole(0, a, 3, 7));
            Run(h, s1, Whole(1, b, 9, 7)) &&
            LandedOf(Final(h, s1, Whole(1, b, 9, 7)), n) == [Landing(3, 7), Landing(9, 7)]
  {
    hide Run, Final;
    var base, a, b := Mem(n, at, None), Mem(n, at, None), Mem(n, at + 1, None);
    var s0 := Init(map[7 := base]);
    WholeRun(h, s0, 0, a, 3, 7);
    SecondLandsIff(h, map[7 := base], n, 7, a, 3);
    WholeRun(h, After(s0, 0, a, 3, 7), 1, b, 9, 7);
  }

  // ---- the call itself, while it holds the lock ----

  datatype CasError = BlankIfCurrent | NoName | NotCurrent(ifCurrent: MemId, current: Option<MemId>) | DuplicateId

  lemma CurrentIsNewest(rows: map<MemId, Mem>, n: Name, i: MemId, current: Option<MemId>)
    requires IsCurrent(rows, n, current) && IsNewest(rows, n, i)
    ensures current == Some(i)
  {
    if current.Some? {
      NewestUnique(rows, n, i, current.value);
    }
  }

  class Memories {
    var rows: map<MemId, Mem>

    // A write names a current memory and a named value; it lands exactly when that memory is the newest, and a refusal
    // names the one that is. `current` is what the database answers to that question.
    method CreateIfCurrent(m: Mem, id: MemId, ifCurrent: Option<MemId>, current: Option<MemId>)
      returns (r: Result<MemId, CasError>)
      requires IsCurrent(rows, m.name, current)
      modifies this
      ensures r == Err(BlankIfCurrent) <==> ifCurrent == None
      ensures r == Err(NoName) <==> ifCurrent.Some? && m.name.tag == ""
      ensures r.Err? && r.error.NotCurrent? <==> ifCurrent.Some? && m.name.tag != "" && ifCurrent != current
      ensures r.Err? && r.error.NotCurrent? ==> r.error == NotCurrent(ifCurrent.value, current)
      ensures r.Ok? || r == Err(DuplicateId) ==> IsNewest(old(rows), m.name, ifCurrent.value)
      ensures r.Ok? ==> r.value == id && id !in old(rows) && rows == old(rows)[id := m]
      ensures r.Err? ==> rows == old(rows)
    {
      if ifCurrent == None {
        return Err(BlankIfCurrent);
      }
      if m.name.tag == "" {
        return Err(NoName);
      }
      if !IsNewest(rows, m.name, ifCurrent.value) {
        return Err(NotCurrent(ifCurrent.value, current));
      }
      CurrentIsNewest(rows, m.name, ifCurrent.value, current);
      if id in rows {
        return Err(DuplicateId);
      }
      rows := rows[id := m];
      return Ok(id);
    }
  }

  // ---- the rows ----

  // Nothing is ever rewritten; an unconditional append adds its row; and any other new row is one a writer landed.
  lemma {:induction false} RowsOnlyCome(h: Hash, s: State, steps: seq<Step>, i: MemId)
    requires Run(h, s, steps)
    ensures i in s.rows ==> i in Final(h, s, steps).rows && Final(h, s, steps).rows[i] == s.rows[i]
    ensures forall k :: 0 <= k < |steps| && steps[k].Append? && steps[k].id == i ==>
              i in Final(h, s, steps).rows && Final(h, s, steps).rows[i] == steps[k].m
    ensures i in Final(h, s, steps).rows && i !in s.rows ==>
              exists k :: 0 <= k < |steps| &&
                ((steps[k].Append? && steps[k].id == i) || steps[k].Commit?)
    decreases |steps|
  {
    hide Release, IsNewest, IsCurrent;
    if steps != [] {
      var s1 := Apply(h, s, steps[0]);
      RowsOnlyCome(h, s1, steps[1..], i);
      StepRows(h, s, steps[0], i);
      hide Run, Final, Apply, Enabled;
      forall k | 0 <= k < |steps| && steps[k].Append? && steps[k].id == i
        ensures i in Final(h, s1, steps[1..]).rows && Final(h, s1, steps[1..]).rows[i] == steps[k].m
      {
        if k > 0 {
          assert steps[1..][k - 1] == steps[k];
        }
      }
      if i in Final(h, s1, steps[1..]).rows && i !in s1.rows {
        var k :| 0 <= k < |steps[1..]| &&
                 ((steps[1..][k].Append? && steps[1..][k].id == i) || steps[1..][k].Commit?);
        assert steps[k + 1] == steps[1..][k];
      }
    }
  }

  lemma StepRows(h: Hash, s: State, step: Step, i: MemId)
    requires Enabled(h, s, step)
    ensures var s' := Apply(h, s, step);
            (i in s.rows ==> i in s'.rows && s'.rows[i] == s.rows[i]) &&
            (step.Append? && step.id == i ==> i in s'.rows && s'.rows[i] == step.m) &&
            (i in s'.rows && i !in s.rows ==> (step.Append? && step.id == i) || step.Commit?)
  {
    hide IsNewest, IsCurrent;
  }
}
