/**
 Whether a number of the image catalogue can come twice (go/agentdb/customimages.go): exactly when, over every run with
 hard deletes anywhere.
 */
module ImageNumbers {
  import opened Text
  import opened Versions
  import opened Images

  // ---- what holds whatever is deleted ----

  // The numbers ever burned are 1 to the highest of them; each is a row, or was removed and not burned again. A held
  // number is at most the next.
  ghost predicate Loose(s: State, n: Name) {
    && (forall v: nat :: v in IssuedOf(s, n) <==> 1 <= v <= Top(IssuedOf(s, n)))
    && (forall v: nat :: v in IssuedOf(s, n) <==> Key(n, v) in s.rows || Key(n, v) in s.gone)
    && s.rows.Keys !! s.gone
    && (forall t :: t in s.burners && s.burners[t].Holding? && s.burners[t].n == n ==>
          1 <= s.burners[t].v <= Top(IssuedOf(s, n)) + 1)
  }

  lemma HighestIsIssued(s: State, n: Name, v: nat)
    requires Loose(s, n) && IsHighest(s.rows.Keys, n, v)
    ensures v <= Top(IssuedOf(s, n))
    ensures v == Top(IssuedOf(s, n)) <==> Key(n, Top(IssuedOf(s, n))) !in s.gone
  {
    hide Top;
    var top := Top(IssuedOf(s, n));
    assert v > 0 ==> v in IssuedOf(s, n);
    assert top > 0 ==> top in IssuedOf(s, n);
    assert Key(n, 0) !in s.rows && Key(n, 0) !in s.gone by { assert 0 !in IssuedOf(s, n); }
    assert Key(n, top).name == n;
  }

  lemma LooseInsert(s: State, n: Name, t: Tid)
    requires Loose(s, n) && Enabled(s, Insert(t))
    ensures Loose(Apply(s, Insert(t)), n)
  {
    hide Top;
    var b := s.burners[t];
    var s' := Apply(s, Insert(t));
    if b.n == n && s'.burners[t].Burned? {
      TopNext(IssuedOf(s, n), b.v);
      assert IssuedOf(s', n) == IssuedOf(s, n) + [b.v];
    } else {
      assert IssuedOf(s', n) == IssuedOf(s, n);
    }
  }

  lemma LooseHint(s: State, n: Name, t: Tid, v: nat)
    requires Loose(s, n) && Enabled(s, Hint(t, v))
    ensures Loose(Apply(s, Hint(t, v)), n)
  {
    hide Top;
    assert IssuedOf(Apply(s, Hint(t, v)), n) == IssuedOf(s, n);
    if s.burners[t].n == n {
      HighestIsIssued(s, n, v);
    }
  }

  lemma LooseStep(s: State, n: Name, step: Step)
    requires Loose(s, n) && Enabled(s, step)
    ensures Loose(Apply(s, step), n)
  {
    hide Top, IsHighest;
    match step
    case Insert(t) => LooseInsert(s, n, t);
    case Hint(t, v) => LooseHint(s, n, t, v);
    case _ => assert IssuedOf(Apply(s, step), n) == IssuedOf(s, n);
  }

  lemma {:induction false} LooseRun(s: State, n: Name, steps: seq<Step>)
    requires Loose(s, n) && Run(s, steps)
    ensures Loose(Final(s, steps), n)
    decreases |steps|
  {
    hide Loose, Apply, Enabled;
    if steps != [] {
      LooseStep(s, n, steps[0]);
      LooseRun(Apply(s, steps[0]), n, steps[1..]);
    }
  }

  lemma InitLoose(n: Name)
    ensures Loose(Init(), n)
  {
    assert IssuedOf(Init(), n) == [];
  }

  // ---- numbers ----

  // The step burns version `v` of the name.
  predicate Burns(s: State, step: Step, n: Name, v: nat) {
    step.Insert? && Enabled(s, step) && s.burners[step.t].n == n && s.burners[step.t].v == v && Key(n, v) !in s.rows
  }

  // In every reachable state: a burn takes a number that was given out before exactly if that version has been hard
  // deleted.
  lemma BurnReissuesIff(steps: seq<Step>, n: Name, step: Step, v: nat)
    requires Run(Init(), steps)
    ensures var s := Final(Init(), steps);
            Burns(s, step, n, v) ==> (v in IssuedOf(s, n) <==> Key(n, v) in s.gone) &&
                                     (v !in IssuedOf(s, n) ==> v == Top(IssuedOf(s, n)) + 1)
  {
    hide Run, Final, Top;
    InitLoose(n);
    LooseRun(Init(), n, steps);
  }

  // The step burns no version that has been hard deleted.
  predicate SparesGone(s: State, step: Step, n: Name) {
    step.Insert? && Enabled(s, step) && Burns(s, step, n, s.burners[step.t].v) ==>
      Key(n, s.burners[step.t].v) !in s.gone
  }

  predicate RunSparesGone(s: State, steps: seq<Step>, n: Name)
    requires Run(s, steps)
    decreases |steps|
  {
    steps == [] || (SparesGone(s, steps[0], n) && RunSparesGone(Apply(s, steps[0]), steps[1..], n))
  }

  lemma InOrderNext(c: seq<nat>, v: nat)
    requires InOrder(c)
    ensures InOrder(c + [v]) <==> v == |c| + 1
  {
    assert (c + [v])[|c|] == v;
  }

  lemma StepOrderIff(s: State, n: Name, step: Step)
    requires Loose(s, n) && InOrder(IssuedOf(s, n)) && Enabled(s, step)
    ensures InOrder(IssuedOf(Apply(s, step), n)) <==> SparesGone(s, step, n)
  {
    hide Top;
    InOrderTop(IssuedOf(s, n));
    if step.Insert? && Burns(s, step, n, s.burners[step.t].v) {
      var c, v := IssuedOf(s, n), s.burners[step.t].v;
      assert v in c <==> Key(n, v) in s.gone;
      InOrderNext(c, v);
      assert IssuedOf(Apply(s, step), n) == c + [v];
    } else {
      assert IssuedOf(Apply(s, step), n) == IssuedOf(s, n);
    }
  }

  predicate Prefix(a: seq<nat>, b: seq<nat>) {
    |a| <= |b| && b[..|a|] == a
  }

  lemma {:induction false} IssuedGrows(s: State, n: Name, steps: seq<Step>)
    requires Run(s, steps)
    ensures Prefix(IssuedOf(s, n), IssuedOf(Final(s, steps), n))
    decreases |steps|
  {
    if steps != [] {
      IssuedGrows(Apply(s, steps[0]), n, steps[1..]);
      hide Run, Final;
      assert Prefix(IssuedOf(s, n), IssuedOf(Apply(s, steps[0]), n));
    }
  }

  lemma PrefixInOrder(a: seq<nat>, b: seq<nat>)
    requires Prefix(a, b) && InOrder(b)
    ensures InOrder(a)
  {
    forall i | 0 <= i < |a| ensures a[i] == i + 1 {
      assert a[i] == b[i];
    }
  }

  lemma {:induction false} RunOrderIff(s: State, n: Name, steps: seq<Step>)
    requires Run(s, steps) && Loose(s, n) && InOrder(IssuedOf(s, n))
    ensures InOrder(IssuedOf(Final(s, steps), n)) <==> RunSparesGone(s, steps, n)
    decreases |steps|
  {
    hide Loose, InOrder, Apply, Enabled, SparesGone;
    if steps != [] {
      var s1 := Apply(s, steps[0]);
      LooseStep(s, n, steps[0]);
      StepOrderIff(s, n, steps[0]);
      if SparesGone(s, steps[0], n) {
        RunOrderIff(s1, n, steps[1..]);
      } else {
        IssuedGrows(s1, n, steps[1..]);
        if InOrder(IssuedOf(Final(s1, steps[1..]), n)) {
          PrefixInOrder(IssuedOf(s1, n), IssuedOf(Final(s1, steps[1..]), n));
        }
      }
    }
  }

  // However burns, tombstones, launches and hard deletes interleave: a name's versions are 1, 2, 3, ... each given out
  // once, in order, exactly if no burn landed on a version that had been hard deleted.
  lemma NumbersInOrderIff(steps: seq<Step>, n: Name)
    requires Run(Init(), steps)
    ensures InOrder(IssuedOf(Final(Init(), steps), n)) <==> RunSparesGone(Init(), steps, n)
  {
    hide Run, Final, RunSparesGone;
    InitLoose(n);
    RunOrderIff(Init(), n, steps);
  }

  // ---- resolution ----

  // Over every such run: a floating reference never answers with a version other than the highest row; that is the
  // highest version ever burned exactly if the latter has not been hard deleted since. It says there is none exactly
  // where no version is left, and it never falls back past a reaped one.
  lemma FloatingIsHighestEverBurnedIff(steps: seq<Step>, n: Name, highest: nat)
    requires Run(Init(), steps)
    ensures var s := Final(Init(), steps);
            var top := Top(IssuedOf(s, n));
            IsHighest(s.rows.Keys, n, highest) ==>
              var r := Resolve(s.rows, n, 0, highest);
              (highest == top <==> Key(n, top) !in s.gone) &&
              (r.Ok? ==> r.value == Key(n, highest)) &&
              (r == Err(NotFound) <==> forall k :: k in s.rows && k.name == n ==> k.version == 0) &&
              (highest > 0 ==> (r == Err(Reaped) <==> s.rows[Key(n, highest)].reaped != 0))
  {
    hide Run, Final, Top;
    InitLoose(n);
    LooseRun(Init(), n, steps);
    if IsHighest(Final(Init(), steps).rows.Keys, n, highest) {
      HighestIsIssued(Final(Init(), steps), n, highest);
    }
  }

  // ---- a condition on the deletes alone ----

  // Hard deletes that spare each name's highest version and any number a burner holds: versions come in order, and a
  // floating reference resolves to the highest ever burned or fails.
  lemma FloatingIsHighestEverBurned(steps: seq<Step>, n: Name, highest: nat)
    requires CarefulRun(Init(), steps)
    ensures Run(Init(), steps)
    ensures var s := Final(Init(), steps);
            InOrder(IssuedOf(s, n)) &&
            (IsHighest(s.rows.Keys, n, highest) ==>
              var top, r := |IssuedOf(s, n)|, Resolve(s.rows, n, 0, highest);
              (r == Err(NotFound) <==> top == 0) &&
              (r.Ok? ==> r.value == Key(n, top)) &&
              (top > 0 ==> Key(n, top) in s.rows && (r == Err(Reaped) <==> s.rows[Key(n, top)].reaped != 0)))
  {
    hide Run, Final, CarefulRun;
    RunKeeps(Init(), n, steps);
    var s := Final(Init(), steps);
    if IsHighest(s.rows.Keys, n, highest) {
      HighestUnique(s.rows.Keys, n, highest, |IssuedOf(s, n)|);
    }
  }

  // ---- runs in which a number comes twice ----

  lemma {:induction false} RunConcat(s: State, a: seq<Step>, b: seq<Step>)
    requires Run(s, a) && Run(Final(s, a), b)
    ensures Run(s, a + b) && Final(s, a + b) == Final(Final(s, a), b)
    decreases |a|
  {
    hide Apply, Enabled;
    if a == [] {
      assert a + b == b;
    } else {
      assert (a + b)[1..] == a[1..] + b;
      RunConcat(Apply(s, a[0]), a[1..], b);
    }
  }

  lemma OneStep(s: State, step: Step)
    requires Enabled(s, step)
    ensures Run(s, [step]) && Final(s, [step]) == Apply(s, step)
  {
    assert [step][1..] == [];
  }

  lemma TwoSteps(s: State, x: Step, y: Step)
    requires Enabled(s, x) && Enabled(Apply(s, x), y)
    ensures Run(s, [x, y]) && Final(s, [x, y]) == Apply(Apply(s, x), y)
  {
    hide Apply, Enabled;
    OneStep(s, x);
    OneStep(Apply(s, x), y);
    RunConcat(s, [x], [y]);
    assert [x] + [y] == [x, y];
  }

  const P := Stored(0)

  function Fresh(): Image {
    Image(P, 1, 0, 0, 0)
  }

  // A burn that nobody interrupts, over highest row `v`.
  function Whole(t: Tid, n: Name, v: nat): seq<Step> {
    [Begin(t, n, P, 1, 0), Hint(t, v)] + [Insert(t)]
  }

  function After(s: State, t: Tid, n: Name, v: nat): State {
    State(s.rows[Key(n, v + 1) := Fresh()], s.burners[t := Burned(v + 1)], s.issued[n := IssuedOf(s, n) + [v + 1]],
          s.gone - {Key(n, v + 1)})
  }

  lemma WholeRun(s: State, t: Tid, n: Name, v: nat)
    requires t !in s.burners && IsHighest(s.rows.Keys, n, v)
    ensures Run(s, Whole(t, n, v)) && Final(s, Whole(t, n, v)) == After(s, t, n, v)
  {
    hide Run, Final;
    TwoSteps(s, Begin(t, n, P, 1, 0), Hint(t, v));
    var m := s.(burners := s.burners[t := Holding(n, Fresh(), 0, v + 1)]);
    assert Apply(Apply(s, Begin(t, n, P, 1, 0)), Hint(t, v)) == m;
    assert Key(n, v + 1).name == n;
    OneStep(m, Insert(t));
    assert Apply(m, Insert(t)) == After(s, t, n, v);
    RunConcat(s, [Begin(t, n, P, 1, 0), Hint(t, v)], [Insert(t)]);
  }

  // The highest version is deleted with nobody burning: the next burn takes its number again.
  function DeletedHighest(n: Name): seq<Step> {
    Whole(0, n, 0) + [HardDelete(Key(n, 1))] + Whole(1, n, 0)
  }

  lemma DeleteReissuesHighest(n: Name)
    ensures Run(Init(), DeletedHighest(n)) && IssuedOf(Final(Init(), DeletedHighest(n)), n) == [1, 1]
  {
    hide Run, Final, Whole;
    WholeRun(Init(), 0, n, 0);
    var s1 := After(Init(), 0, n, 0);
    OneStep(s1, HardDelete(Key(n, 1)));
    var s2 := Apply(s1, HardDelete(Key(n, 1)));
    RunConcat(Init(), Whole(0, n, 0), [HardDelete(Key(n, 1))]);
    assert IssuedOf(s2, n) == [1] && s2.rows == map[];
    WholeRun(s2, 1, n, 0);
    RunConcat(Init(), Whole(0, n, 0) + [HardDelete(Key(n, 1))], Whole(1, n, 0));
  }

  // Without a further burn, the name floats back to the version below.
  function DeletedNewest(n: Name): seq<Step> {
    Whole(0, n, 0) + Whole(1, n, 1) + [HardDelete(Key(n, 2))]
  }

  lemma DeleteFloatsBack(n: Name)
    ensures Run(Init(), DeletedNewest(n))
    ensures var s := Final(Init(), DeletedNewest(n));
            IssuedOf(s, n) == [1, 2] && IsHighest(s.rows.Keys, n, 1) && Resolve(s.rows, n, 0, 1) == Ok(Key(n, 1))
  {
    hide Run, Final, Whole;
    WholeRun(Init(), 0, n, 0);
    var s1 := After(Init(), 0, n, 0);
    assert IssuedOf(s1, n) == [1] && Key(n, 1) in s1.rows;
    WholeRun(s1, 1, n, 1);
    RunConcat(Init(), Whole(0, n, 0), Whole(1, n, 1));
    OneStep(After(s1, 1, n, 1), HardDelete(Key(n, 2)));
    RunConcat(Init(), Whole(0, n, 0) + Whole(1, n, 1), [HardDelete(Key(n, 2))]);
  }

  // A burner holds version 2; versions 2 and 3 land; version 2, not the highest, is deleted; the burner lands it again.
  function DeletedHeld(n: Name): seq<Step> {
    Whole(1, n, 0) + [Begin(0, n, P, 1, 0), Hint(0, 1)] + (Whole(2, n, 1) + Whole(3, n, 2)) +
    [HardDelete(Key(n, 2)), Insert(0)]
  }

  function Held(n: Name): State {
    State(map[Key(n, 1) := Fresh()], map[1 := Burned(1), 0 := Holding(n, Fresh(), 0, 2)], map[n := [1]], {})
  }

  function Overtaken(n: Name): State {
    State(map[Key(n, 1) := Fresh(), Key(n, 2) := Fresh(), Key(n, 3) := Fresh()],
          Held(n).burners[2 := Burned(2)][3 := Burned(3)], map[n := [1, 2, 3]], {})
  }

  lemma HeldRun(n: Name)
    ensures var steps := Whole(1, n, 0) + [Begin(0, n, P, 1, 0), Hint(0, 1)];
            Run(Init(), steps) && Final(Init(), steps) == Held(n)
  {
    hide Run, Final, Whole;
    WholeRun(Init(), 1, n, 0);
    var s := After(Init(), 1, n, 0);
    assert IssuedOf(s, n) == [1] && Key(n, 1) in s.rows;
    TwoSteps(s, Begin(0, n, P, 1, 0), Hint(0, 1));
    assert Apply(Apply(s, Begin(0, n, P, 1, 0)), Hint(0, 1)) == Held(n);
    RunConcat(Init(), Whole(1, n, 0), [Begin(0, n, P, 1, 0), Hint(0, 1)]);
  }

  lemma OvertakenRun(n: Name)
    ensures var steps := Whole(2, n, 1) + Whole(3, n, 2); Run(Held(n), steps) && Final(Held(n), steps) == Overtaken(n)
  {
    hide Run, Final, Whole;
    assert Key(n, 1) in Held(n).rows;
    WholeRun(Held(n), 2, n, 1);
    var s := After(Held(n), 2, n, 1);
    assert IssuedOf(s, n) == [1, 2] && Key(n, 2) in s.rows;
    WholeRun(s, 3, n, 2);
    assert IssuedOf(After(s, 3, n, 2), n) == [1, 2, 3];
    assert After(s, 3, n, 2) == Overtaken(n);
    RunConcat(Held(n), Whole(2, n, 1), Whole(3, n, 2));
  }

  lemma DeletedHeldIsReissued(n: Name)
    ensures Run(Init(), DeletedHeld(n)) && IssuedOf(Final(Init(), DeletedHeld(n)), n) == [1, 2, 3, 2]
  {
    hide Run, Final, Whole;
    HeldRun(n);
    OvertakenRun(n);
    var s := Overtaken(n);
    TwoSteps(s, HardDelete(Key(n, 2)), Insert(0));
    var early := Whole(1, n, 0) + [Begin(0, n, P, 1, 0), Hint(0, 1)];
    RunConcat(Init(), early, Whole(2, n, 1) + Whole(3, n, 2));
    RunConcat(Init(), early + (Whole(2, n, 1) + Whole(3, n, 2)), [HardDelete(Key(n, 2)), Insert(0)]);
  }

  // ---- what a reference answers ----

  // One version, by its own row alone: the version asked for if it is there, has its bytes and a handle; otherwise
  // which of these it lacks, the tombstone before the handle.
  predicate AnswersFor(rows: Catalogue, k: Key, r: Result<Key, ResolveError>) {
    && (r == Ok(k) <==> k in rows && rows[k].reaped == 0 && rows[k].pointer != NoPointer)
    && (r.Ok? ==> r == Ok(k))
    && (r == Err(NotFound) <==> k !in rows)
    && (r == Err(Reaped) <==> k in rows && rows[k].reaped != 0)
    && (r == Err(Unmaterialisable) <==> k in rows && rows[k].reaped == 0 && rows[k].pointer == NoPointer)
  }

  // Over every run: a pinned reference answers for that version and no other, and says it is not found exactly if it
  // was never burned or has been hard deleted since.
  lemma PinnedIsThatVersion(steps: seq<Step>, n: Name, pinned: nat, highest: nat)
    requires Run(Init(), steps)
    ensures var s := Final(Init(), steps);
            pinned > 0 && IsHighest(s.rows.Keys, n, highest) ==>
              var r := Resolve(s.rows, n, pinned, highest);
              AnswersFor(s.rows, Key(n, pinned), r) &&
              (r == Err(NotFound) <==> pinned !in IssuedOf(s, n) || Key(n, pinned) in s.gone)
  {
    hide Run, Final, Top;
    InitLoose(n);
    LooseRun(Init(), n, steps);
  }

  // And a floating one for the highest row, if there is one.
  lemma FloatingIsHighestRow(rows: Catalogue, n: Name, highest: nat)
    requires IsHighest(rows.Keys, n, highest)
    ensures highest > 0 ==> AnswersFor(rows, Key(n, highest), Resolve(rows, n, 0, highest))
    ensures highest == 0 ==> Resolve(rows, n, 0, highest) == Err(NotFound)
  {
  }
}
