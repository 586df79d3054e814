/**
 Versioned datasets (go/agentdb/datasets.go): compare-and-swap allocation with the read and the insert as separate
 steps, any number of writers, and a reaper that removes old versions meanwhile.
 */
module Datasets {
  import opened Text
  import opened Versions

  type Tid = nat

  // The table is keyed by its unique index.
  datatype Row = Row(id: string, blob: string)
  type Table = map<Key, Row>

  predicate IdTaken(rows: Table, id: string) {
    exists k :: k in rows && rows[k].id == id
  }

  datatype Writer =
    | Asking(n: Name, row: Row, ifVersion: nat)   // about to read the high-water mark
    | Holding(n: Name, row: Row, ifVersion: nat)  // the mark was ifVersion; about to insert ifVersion + 1
    | Beaten(n: Name, ifVersion: nat)             // the index refused; about to read the mark again
    | DuplicateId(n: Name, ifVersion: nat)        // the primary key refused: the same error, the same re-read
    | Landed(version: nat)
    | Conflict(ifVersion: nat, told: nat)

  datatype State = State(
    rows: Table,
    writers: map<Tid, Writer>,
    issued: map<Name, seq<nat>>)   // the numbers each name's writers landed, oldest first

  datatype Step =
    | Begin(t: Tid, n: Name, row: Row, ifVersion: nat)
    | Ask(t: Tid, current: nat)
    | Insert(t: Tid)
    | AskAgain(t: Tid, current: nat)
    | Reap(k: Key)                 // one row deletion of ReapDatasetVersions, keepPerName at least 1

  function Init(): State {
    State(map[], map[], map[])
  }

  predicate Enabled(s: State, step: Step) {
    match step
    case Begin(t, _, _, _) => t !in s.writers
    case Ask(t, v) => t in s.writers && s.writers[t].Asking? && IsHighest(s.rows.Keys, s.writers[t].n, v)
    case Insert(t) => t in s.writers && s.writers[t].Holding?
    case AskAgain(t, v) =>
      t in s.writers && (s.writers[t].Beaten? || s.writers[t].DuplicateId?) && IsHighest(s.rows.Keys, s.writers[t].n, v)
    case Reap(k) => k in s.rows && exists j :: j in s.rows && j.name == k.name && j.version > k.version
  }

  function IssuedOf(s: State, n: Name): seq<nat> {
    if n in s.issued then s.issued[n] else []
  }

  function Apply(s: State, step: Step): State
    requires Enabled(s, step)
  {
    match step
    case Begin(t, n, row, v) => s.(writers := s.writers[t := Asking(n, row, v)])
    case Ask(t, v) =>
      var w := s.writers[t];
      s.(writers := s.writers[t := if v != w.ifVersion then Conflict(w.ifVersion, v) else Holding(w.n, w.row, v)])
    case Insert(t) =>
      var w := s.writers[t];
      var k := Key(w.n, w.ifVersion + 1);
      if k in s.rows then s.(writers := s.writers[t := Beaten(w.n, w.ifVersion)])
      else if IdTaken(s.rows, w.row.id) then s.(writers := s.writers[t := DuplicateId(w.n, w.ifVersion)])
      else State(s.rows[k := w.row], s.writers[t := Landed(k.version)],
                 s.issued[w.n := IssuedOf(s, w.n) + [k.version]])
    case AskAgain(t, v) => s.(writers := s.writers[t := Conflict(s.writers[t].ifVersion, v)])
    case Reap(k) => s.(rows := s.rows - {k})
  }

  predicate Run(s: State, steps: seq<Step>)
    decreases |steps|
  {
    steps == [] || (Enabled(s, steps[0]) && Run(Apply(s, steps[0]), steps[1..]))
  }

  function Final(s: State, steps: seq<Step>): State
    requires Run(s, steps)
    decreases |steps|
  {
    if steps == [] then s else Final(Apply(s, steps[0]), steps[1..])
  }

  // The reaper removes no number that a writer between its read and its insert holds.
  predicate Careful(s: State, step: Step) {
    step.Reap? ==>
      forall t :: t in s.writers && s.writers[t].Holding? && s.writers[t].n == step.k.name ==>
        s.writers[t].ifVersion + 1 != step.k.version
  }

  predicate CarefulRun(s: State, steps: seq<Step>)
    decreases |steps|
  {
    steps == [] ||
    (Enabled(s, steps[0]) && Careful(s, steps[0]) && CarefulRun(Apply(s, steps[0]), steps[1..]))
  }

  // ---- the invariant, for one name ----

  // The numbers landed are 1, 2, 3, ... in order, and the last is the current version.
  predicate Counted(s: State, n: Name) {
    InOrder(IssuedOf(s, n)) && IsHighest(s.rows.Keys, n, |IssuedOf(s, n)|)
  }

  // A held number is the next one, or it is taken.
  predicate HeldOk(s: State, n: Name) {
    forall t :: t in s.writers && s.writers[t].Holding? && s.writers[t].n == n ==>
      s.writers[t].ifVersion == |IssuedOf(s, n)| || Key(n, s.writers[t].ifVersion + 1) in s.rows
  }

  predicate BeatenOk(s: State, n: Name) {
    forall t :: t in s.writers && s.writers[t].Beaten? && s.writers[t].n == n ==>
      s.writers[t].ifVersion < |IssuedOf(s, n)|
  }

  predicate Inv(s: State, n: Name) {
    Counted(s, n) && HeldOk(s, n) && BeatenOk(s, n)
  }

  // A landing is an atomic compare-and-swap: the version it named is the current one at the moment it inserts.
  lemma LandsOnCurrent(s: State, n: Name, t: Tid)
    requires Inv(s, n) && Enabled(s, Insert(t)) && s.writers[t].n == n && Apply(s, Insert(t)).writers[t].Landed?
    ensures IsHighest(s.rows.Keys, n, s.writers[t].ifVersion) && s.writers[t].ifVersion == |IssuedOf(s, n)|
  {
  }

  // The state a landing leaves.
  function After(s: State, t: Tid, n: Name, row: Row, v: nat): State {
    State(s.rows[Key(n, v + 1) := row], s.writers[t := Landed(v + 1)], s.issued[n := IssuedOf(s, n) + [v + 1]])
  }

  // A row that lands under its name's next number.
  lemma LandingKeeps(s: State, n: Name, t: Tid, row: Row, v: nat)
    requires Inv(s, n) && t in s.writers && v == |IssuedOf(s, n)|
    ensures Inv(After(s, t, n, row, v), n)
  {
    var s' := After(s, t, n, row, v);
    assert IssuedOf(s', n) == IssuedOf(s, n) + [v + 1];
    assert Key(n, v + 1).name == n && Key(n, v + 1) in s'.rows;
  }

  lemma OtherLandingKeeps(s: State, n: Name, t: Tid, other: Name, row: Row, v: nat)
    requires Inv(s, n) && t in s.writers && other != n
    ensures Inv(After(s, t, other, row, v), n)
  {
    assert IssuedOf(After(s, t, other, row, v), n) == IssuedOf(s, n);
  }

  lemma RefusalKeeps(s: State, n: Name, t: Tid, w: Writer)
    requires Inv(s, n) && t in s.writers && !w.Holding?
    requires w.Beaten? && w.n == n ==> w.ifVersion < |IssuedOf(s, n)|
    ensures Inv(s.(writers := s.writers[t := w]), n)
  {
  }

  lemma InsertKeeps(s: State, n: Name, t: Tid)
    requires Inv(s, n) && Enabled(s, Insert(t))
    ensures Inv(Apply(s, Insert(t)), n)
  {
    hide IdTaken, HeldOk, BeatenOk;
    var w := s.writers[t];
    var w' := Apply(s, Insert(t)).writers[t];
    if w'.Landed? && w.n == n {
      LandsOnCurrent(s, n, t);
      LandingKeeps(s, n, t, w.row, w.ifVersion);
    } else if w'.Landed? {
      OtherLandingKeeps(s, n, t, w.n, w.row, w.ifVersion);
    } else {
      RefusalKeeps(s, n, t, w');
    }
  }

  lemma ReapKeeps(s: State, n: Name, k: Key)
    requires Inv(s, n) && Enabled(s, Reap(k)) && Careful(s, Reap(k))
    ensures Inv(Apply(s, Reap(k)), n)
  {
    var j :| j in s.rows && j.name == k.name && j.version > k.version;
    assert k.name == n ==> k.version < |IssuedOf(s, n)|;
  }

  lemma AskKeeps(s: State, n: Name, t: Tid, v: nat)
    requires Inv(s, n) && Enabled(s, Ask(t, v))
    ensures Inv(Apply(s, Ask(t, v)), n)
  {
    if s.writers[t].n == n {
      HighestUnique(s.rows.Keys, n, v, |IssuedOf(s, n)|);
    }
  }

  lemma StepKeeps(s: State, n: Name, step: Step)
    requires Inv(s, n) && Enabled(s, step) && Careful(s, step)
    ensures Inv(Apply(s, step), n)
  {
    match step
    case Insert(t) => InsertKeeps(s, n, t);
    case Reap(k) => ReapKeeps(s, n, k);
    case Ask(t, v) => AskKeeps(s, n, t, v);
    case _ =>
  }

  // However many writers and reaps interleave: as long as no reap removes a number a writer holds, each name's
  // numbers are issued once each, in order, without a gap, and the newest is the current version.
  lemma {:induction false} NumbersAreDense(s: State, n: Name, steps: seq<Step>)
    requires Inv(s, n) && CarefulRun(s, steps)
    ensures Run(s, steps) && Inv(Final(s, steps), n)
    decreases |steps|
  {
    hide Inv, Apply, Careful, Enabled;
    if steps != [] {
      StepKeeps(s, n, steps[0]);
      NumbersAreDense(Apply(s, steps[0]), n, steps[1..]);
    }
  }

  lemma InitInv(n: Name)
    ensures Inv(Init(), n)
  {
  }

  // A writer that lost is told a version other than the one it named: always when it lost the comparison or the
  // number, and after a duplicate id only if another version has landed meanwhile.
  lemma LoserIsToldAnother(s: State, n: Name, t: Tid, v: nat)
    requires Inv(s, n) && t in s.writers
    ensures Enabled(s, Ask(t, v)) && Apply(s, Ask(t, v)).writers[t].Conflict? ==> v != s.writers[t].ifVersion
    ensures Enabled(s, AskAgain(t, v)) && s.writers[t].n == n ==>
              v == |IssuedOf(s, n)| && (s.writers[t].Beaten? ==> v != s.writers[t].ifVersion)
  {
    if Enabled(s, AskAgain(t, v)) && s.writers[t].n == n {
      HighestUnique(s.rows.Keys, n, v, |IssuedOf(s, n)|);
    }
  }

  // The exception: a caller-supplied id that is already in use reads as a lost race, and the writer can be told that
  // the current version is the very one it named.
  lemma DuplicateIdIsToldItsOwn(s: State, t: Tid)
    requires Enabled(s, Insert(t)) && IsHighest(s.rows.Keys, s.writers[t].n, s.writers[t].ifVersion)
    requires IdTaken(s.rows, s.writers[t].row.id)
    ensures var v := s.writers[t].ifVersion;
            Enabled(Apply(s, Insert(t)), AskAgain(t, v)) &&
            Apply(Apply(s, Insert(t)), AskAgain(t, v)).writers[t] == Conflict(v, v)
  {
    var w := s.writers[t];
    assert Key(w.n, w.ifVersion + 1).name == w.n;
  }

  // ---- runs outside the hypotheses ----

  lemma {:induction false} RunConcat(s: State, a: seq<Step>, b: seq<Step>)
    requires Run(s, a) && Run(Final(s, a), b)
    ensures Run(s, a + b) && Final(s, a + b) == Final(Final(s, a), b)
    decreases |a|
  {
    hide Apply, Enabled;
    if a == [] {
      assert a + b == b;
    } else {
      assert (a + b)[1..] == a[1..] + b;
      RunConcat(Apply(s, a[0]), a[1..], b);
    }
  }

  lemma ThreeSteps(s: State, s1: State, s2: State, x: Step, y: Step, z: Step)
    requires Enabled(s, x) && Apply(s, x) == s1 && Enabled(s1, y) && Apply(s1, y) == s2 && Enabled(s2, z)
    ensures Run(s, [x, y, z]) && Final(s, [x, y, z]) == Apply(s2, z)
  {
    hide Apply, Enabled;
    assert [x, y, z][1..] == [y, z] && [y, z][1..] == [z] && [z][1..] == [];
    assert Run(s2, [z]) && Final(s2, [z]) == Final(Apply(s2, z), []);
    assert Run(s1, [y, z]) && Final(s1, [y, z]) == Final(s2, [z]);
  }

  // A write that nobody interrupts.
  function Whole(t: Tid, n: Name, row: Row, v: nat): seq<Step> {
    [Begin(t, n, row, v), Ask(t, v), Insert(t)]
  }

  lemma WholeRun(s: State, t: Tid, n: Name, row: Row, v: nat)
    requires t !in s.writers && IsHighest(s.rows.Keys, n, v) && !IdTaken(s.rows, row.id)
    ensures Run(s, Whole(t, n, row, v)) && Final(s, Whole(t, n, row, v)) == After(s, t, n, row, v)
  {
    hide Run, Final, IdTaken;
    assert Key(n, v + 1).name == n;
    var s1 := s.(writers := s.writers[t := Asking(n, row, v)]);
    ThreeSteps(s, s1, s.(writers := s.writers[t := Holding(n, row, v)]), Begin(t, n, row, v), Ask(t, v), Insert(t));
    assert Apply(s.(writers := s.writers[t := Holding(n, row, v)]), Insert(t)) == After(s, t, n, row, v);
  }

  // ---- with no care taken ----

  // Whatever the reaper removes: the current version is the highest number ever issued, all numbers up to it have
  // been issued, and a held number is at most the next.
  ghost predicate Loose(s: State, n: Name) {
    var top := Top(IssuedOf(s, n));
    && IsHighest(s.rows.Keys, n, top)
    && (forall v: nat :: v in IssuedOf(s, n) <==> 1 <= v <= top)
    && forall t :: t in s.writers && s.writers[t].Holding? && s.writers[t].n == n ==> s.writers[t].ifVersion <= top
  }

  lemma LooseLanding(s: State, n: Name, t: Tid, m: Name, row: Row, v: nat)
    requires Loose(s, n) && t in s.writers && (m == n ==> v <= Top(IssuedOf(s, n)))
    ensures Loose(After(s, t, m, row, v), n)
  {
    hide Top;
    TopNext(IssuedOf(s, n), v + 1);
    if m == n {
      var s' := After(s, t, n, row, v);
      assert IssuedOf(s', n) == IssuedOf(s, n) + [v + 1];
      assert Key(n, v + 1).name == n && Key(n, v + 1) in s'.rows;
    }
  }

  lemma LooseStep(s: State, n: Name, step: Step)
    requires Loose(s, n) && Enabled(s, step)
    ensures Loose(Apply(s, step), n)
  {
    hide Top, IdTaken;
    match step
    case Insert(t) =>
      if Apply(s, step).writers[t].Landed? {
        LooseLanding(s, n, t, s.writers[t].n, s.writers[t].row, s.writers[t].ifVersion);
      }
    case Ask(t, v) =>
      if s.writers[t].n == n {
        HighestUnique(s.rows.Keys, n, v, Top(IssuedOf(s, n)));
      }
    case _ =>
  }

  lemma {:induction false} LooseRun(s: State, n: Name, steps: seq<Step>)
    requires Loose(s, n) && Run(s, steps)
    ensures Loose(Final(s, steps), n)
    decreases |steps|
  {
    hide Loose, Apply, Enabled;
    if steps != [] {
      LooseStep(s, n, steps[0]);
      LooseRun(Apply(s, steps[0]), n, steps[1..]);
    }
  }

  // In every reachable state: a landing replaces the version its writer named if and only if its number had never
  // been issued. Otherwise the reaper has reopened the number, and the writer lands under a current version it never
  // saw.
  lemma LandingIsSwapIff(steps: seq<Step>, n: Name, t: Tid)
    requires Run(Init(), steps)
    requires var s := Final(Init(), steps);
             Enabled(s, Insert(t)) && s.writers[t].n == n && Apply(s, Insert(t)).writers[t].Landed?
    ensures var s := Final(Init(), steps);
            IsHighest(s.rows.Keys, n, s.writers[t].ifVersion) <==> s.writers[t].ifVersion + 1 !in IssuedOf(s, n)
  {
    hide Run, Final, IdTaken, Top;
    assert Loose(Init(), n) by { TopNothing(n); }
    LooseRun(Init(), n, steps);
    var s := Final(Init(), steps);
    if IsHighest(s.rows.Keys, n, s.writers[t].ifVersion) {
      HighestUnique(s.rows.Keys, n, s.writers[t].ifVersion, Top(IssuedOf(s, n)));
    }
  }

  lemma TopNothing(n: Name)
    ensures Top(IssuedOf(Init(), n)) == 0
  {
  }

  // The reopening happens: version 1 lands; writer 0 reads it and holds 2; versions 2 and 3 land; the reaper, keeping
  // the newest, removes 2.
  function Held(n: Name): State {
    State(map[Key(n, 1) := Row("a", "p")], map[0 := Holding(n, Row("d", "p"), 1), 1 := Landed(1)], map[n := [1]])
  }

  function Overtaken(n: Name): State {
    State(map[Key(n, 1) := Row("a", "p"), Key(n, 2) := Row("b", "p"), Key(n, 3) := Row("c", "p")],
          Held(n).writers[2 := Landed(2)][3 := Landed(3)], map[n := [1, 2, 3]])
  }

  function HeldSteps(n: Name): seq<Step> {
    Whole(1, n, Row("a", "p"), 0) + [Begin(0, n, Row("d", "p"), 1), Ask(0, 1)]
  }

  lemma HeldRun(n: Name)
    ensures Run(Init(), HeldSteps(n)) && Final(Init(), HeldSteps(n)) == Held(n)
  {
    hide Run, Final, Whole, IdTaken;
    var s := After(Init(), 1, n, Row("a", "p"), 0);
    NoIds(Row("a", "p").id);
    WholeRun(Init(), 1, n, Row("a", "p"), 0);
    TwoSteps(s, Begin(0, n, Row("d", "p"), 1), Ask(0, 1));
    assert IssuedOf(s, n) == [1];
    assert Apply(Apply(s, Begin(0, n, Row("d", "p"), 1)), Ask(0, 1)) == Held(n);
    RunConcat(Init(), Whole(1, n, Row("a", "p"), 0), [Begin(0, n, Row("d", "p"), 1), Ask(0, 1)]);
  }

  lemma NoIds(id: string)
    ensures !IdTaken(map[], id)
  {
  }

  lemma TwoSteps(s: State, x: Step, y: Step)
    requires Enabled(s, x) && Enabled(Apply(s, x), y)
    ensures Run(s, [x, y]) && Final(s, [x, y]) == Apply(Apply(s, x), y)
  {
    hide Apply, Enabled;
    assert [x, y][1..] == [y] && [y][1..] == [];
    assert Run(Apply(s, x), [y]) && Final(Apply(s, x), [y]) == Final(Apply(Apply(s, x), y), []);
  }

  lemma OvertakenRun(n: Name)
    ensures var steps := Whole(2, n, Row("b", "p"), 1) + Whole(3, n, Row("c", "p"), 2);
            Run(Held(n), steps) && Final(Held(n), steps) == Overtaken(n)
  {
    hide Run, Final, Whole;
    WholeRun(Held(n), 2, n, Row("b", "p"), 1);
    var s := After(Held(n), 2, n, Row("b", "p"), 1);
    assert IssuedOf(s, n) == [1, 2];
    WholeRun(s, 3, n, Row("c", "p"), 2);
    assert IssuedOf(After(s, 3, n, Row("c", "p"), 2), n) == [1, 2, 3];
    assert After(s, 3, n, Row("c", "p"), 2) == Overtaken(n);
    RunConcat(Held(n), Whole(2, n, Row("b", "p"), 1), Whole(3, n, Row("c", "p"), 2));
  }

  // The whole run, from the empty store.
  function ReopenedNumber(n: Name): seq<Step> {
    HeldSteps(n) + (Whole(2, n, Row("b", "p"), 1) + Whole(3, n, Row("c", "p"), 2)) + [Reap(Key(n, 2)), Insert(0)]
  }

  // Writer 0 lands version 2 a second time, under a current version 3 it never saw.
  lemma ReapReopensNumber(n: Name)
    ensures Run(Init(), ReopenedNumber(n))
    ensures var s := Final(Init(), ReopenedNumber(n));
            IssuedOf(s, n) == [1, 2, 3, 2] && 0 in s.writers && s.writers[0] == Landed(2) &&
            IsHighest(s.rows.Keys, n, 3)
  {
    hide Run, Final, Whole, HeldSteps;
    HeldRun(n);
    OvertakenRun(n);
    ReapAndLand(n);
    RunConcat(Init(), HeldSteps(n), Whole(2, n, Row("b", "p"), 1) + Whole(3, n, Row("c", "p"), 2));
    RunConcat(Init(), HeldSteps(n) + (Whole(2, n, Row("b", "p"), 1) + Whole(3, n, Row("c", "p"), 2)),
              [Reap(Key(n, 2)), Insert(0)]);
  }

  lemma ReapAndLand(n: Name)
    ensures Run(Overtaken(n), [Reap(Key(n, 2)), Insert(0)])
    ensures var s := Final(Overtaken(n), [Reap(Key(n, 2)), Insert(0)]);
            IssuedOf(s, n) == [1, 2, 3, 2] && 0 in s.writers && s.writers[0] == Landed(2) &&
            IsHighest(s.rows.Keys, n, 3)
  {
    hide Run, Final;
    var s := Overtaken(n);
    assert Key(n, 3) in s.rows && Key(n, 3).version > Key(n, 2).version;
    TwoSteps(s, Reap(Key(n, 2)), Insert(0));
  }

  // ---- the call itself, with nobody else writing ----

  datatype PutError = NegativeVersion | VersionConflict(current: nat)

  class Store {
    var rows: Table

    // `current` is the database's answer to the high-water query.
    method CreateVersion(n: Name, row: Row, ifVersion: int, current: nat) returns (r: Result<nat, PutError>)
      requires IsHighest(rows.Keys, n, current)
      modifies this
      ensures r == Err(NegativeVersion) <==> ifVersion < 0
      ensures r == Err(VersionConflict(current)) <==>
                ifVersion >= 0 && (ifVersion != current || IdTaken(old(rows), row.id))
      ensures r.Ok? ==>
                r.value == ifVersion + 1 && rows == old(rows)[Key(n, r.value) := row] &&
                IsHighest(rows.Keys, n, r.value)
      ensures r.Err? ==> rows == old(rows)
    {
      if ifVersion < 0 {
        return Err(NegativeVersion);
      }
      if current != ifVersion || Key(n, current + 1) in rows || IdTaken(rows, row.id) {
        assert Key(n, current + 1).name == n;
        return Err(VersionConflict(current));
      }
      rows := rows[Key(n, current + 1) := row];
      return Ok(current + 1);
    }
  }

  // ---- what a writer asked for ----

  // The writer is at what it was asked for, or has been told how it ended.
  predicate AtOrder(s: State, t: Tid, n: Name, row: Row, ifVersion: nat) {
    t in s.writers &&
    match s.writers[t]
    case Asking(m, r, v) => m == n && r == row && v == ifVersion
    case Holding(m, r, v) => m == n && r == row && v == ifVersion
    case Beaten(m, v) => m == n && v == ifVersion
    case DuplicateId(m, v) => m == n && v == ifVersion
    case Landed(version) => version == ifVersion + 1
    case Conflict(v, _) => v == ifVersion
  }

  lemma StepAtOrder(s: State, step: Step, t: Tid, n: Name, row: Row, ifVersion: nat)
    requires Enabled(s, step) && AtOrder(s, t, n, row, ifVersion)
    ensures AtOrder(Apply(s, step), t, n, row, ifVersion)
  {
    hide IdTaken, IsHighest;
  }

  lemma {:induction false} RunAtOrder(s: State, steps: seq<Step>, t: Tid, n: Name, row: Row, ifVersion: nat)
    requires Run(s, steps) && AtOrder(s, t, n, row, ifVersion)
    ensures AtOrder(Final(s, steps), t, n, row, ifVersion)
    decreases |steps|
  {
    hide AtOrder, Apply, Enabled;
    if steps != [] {
      StepAtOrder(s, steps[0], t, n, row, ifVersion);
      RunAtOrder(Apply(s, steps[0]), steps[1..], t, n, row, ifVersion);
    }
  }

  // Whatever others do: a writer lands only the version after the one its caller named, with its caller's row, and a
  // conflict names the version its caller did.
  lemma LandsAsNamed(s: State, steps: seq<Step>, t: Tid, n: Name, row: Row, ifVersion: nat)
    requires t !in s.writers && Run(Apply(s, Begin(t, n, row, ifVersion)), steps)
    ensures var s1 := Final(Apply(s, Begin(t, n, row, ifVersion)), steps);
            AtOrder(s1, t, n, row, ifVersion) &&
            (Enabled(s1, Insert(t)) ==>
               var k, s2 := Key(n, ifVersion + 1), Apply(s1, Insert(t));
               s2.rows == (if k in s1.rows || IdTaken(s1.rows, row.id) then s1.rows else s1.rows[k := row]) &&
               (s2.writers[t].Landed? <==> k !in s1.rows && !IdTaken(s1.rows, row.id)))
  {
    hide Run, Final, IdTaken;
    RunAtOrder(Apply(s, Begin(t, n, row, ifVersion)), steps, t, n, row, ifVersion);
  }
}
