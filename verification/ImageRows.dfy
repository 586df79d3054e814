/** What a catalogue row says of its image (go/agentdb/customimages.go), and how often a burner tries to land it. */
module ImageRows {
  import opened Text
  import opened Versions
  import opened Images

  // ---- the expiry ----

  // An image stamped at its burn has expired exactly when a retention was set, its clock was, and that many whole days
  // have passed since.
  lemma ExpiryIsDaysLater(pointer: Pointer, created: int, ttlDays: int, now: int)
    ensures var e := SnapshotExpiry(created, ttlDays);
            (e > 0 && e <= now <==> ttlDays > 0 && created > 0 && (now - created) / (24 * 60 * 60) >= ttlDays) &&
            (e == 0 <==> ttlDays <= 0 || created <= 0)
  {
    var d := now - created;
    assert d == d / 86400 * 86400 + d % 86400;
  }

  // ---- a burn ----

  // What the burner was asked for.
  datatype Order = Order(n: Name, pointer: Pointer, now: int, ttlDays: int)

  function Asked(o: Order): Image {
    Image(o.pointer, o.now, SnapshotExpiry(o.now, o.ttlDays), 0, 0)
  }

  // The burner's inserts so far that met a taken number.
  function Beaten(s: State, steps: seq<Step>, t: Tid): nat
    requires Run(s, steps)
    decreases |steps|
  {
    if steps == [] then 0
    else
      (if steps[0] == Insert(t) && Key(s.burners[t].n, s.burners[t].v) in s.rows then 1 else 0) +
      Beaten(Apply(s, steps[0]), steps[1..], t)
  }

  // The burner is at its order, having been beaten `n` times, or it is done.
  predicate At(s: State, t: Tid, o: Order, beaten: nat) {
    t in s.burners &&
    match s.burners[t]
    case Hinting(n, img, attempt) => n == o.n && img == Asked(o) && attempt == beaten < 5
    case Holding(n, img, attempt, v) => n == o.n && img == Asked(o) && attempt == beaten < 5
    case Burned(v) => beaten < 5
    case GaveUp => beaten == 5
  }

  lemma StepAt(s: State, step: Step, t: Tid, o: Order, beaten: nat)
    requires Enabled(s, step) && At(s, t, o, beaten)
    ensures At(Apply(s, step), t, o, beaten + Beaten(s, [step], t))
  {
    hide SnapshotExpiry, IsHighest;
    assert [step][1..] == [];
  }

  lemma {:induction false} RunAt(s: State, steps: seq<Step>, t: Tid, o: Order, beaten: nat)
    requires Run(s, steps) && At(s, t, o, beaten)
    ensures At(Final(s, steps), t, o, beaten + Beaten(s, steps, t))
    decreases |steps|
  {
    hide At, Apply, Enabled;
    if steps != [] {
      StepAt(s, steps[0], t, o, beaten);
      assert [steps[0]][1..] == [];
      RunAt(Apply(s, steps[0]), steps[1..], t, o, beaten + Beaten(s, [steps[0]], t));
    }
  }

  // However others interfere: a burner gives up exactly if five of its inserts met a taken number, and tries no more
  // often; while it has not, it is still about to land just what it was asked for, under its own name.
  lemma BurnerTriesFiveTimes(s: State, steps: seq<Step>, t: Tid, o: Order)
    requires t !in s.burners && Run(Apply(s, Begin(t, o.n, o.pointer, o.now, o.ttlDays)), steps)
    ensures var s0 := Apply(s, Begin(t, o.n, o.pointer, o.now, o.ttlDays));
            var b := Beaten(s0, steps, t);
            At(Final(s0, steps), t, o, b) && b <= 5 && (Final(s0, steps).burners[t] == GaveUp <==> b == 5)
  {
    hide Run, Final, Beaten;
    var s0 := Apply(s, Begin(t, o.n, o.pointer, o.now, o.ttlDays));
    RunAt(s0, steps, t, o, 0);
  }

  // And where its number is free, that is the row.
  lemma LandsAsAsked(s: State, t: Tid, o: Order, beaten: nat)
    requires At(s, t, o, beaten) && Enabled(s, Insert(t))
    ensures var k := Key(o.n, s.burners[t].v);
            (k in s.rows ==> Apply(s, Insert(t)).rows == s.rows) &&
            (k !in s.rows ==>
               Apply(s, Insert(t)).rows == s.rows[k := Asked(o)] &&
               Apply(s, Insert(t)).burners[t] == Burned(k.version))
  {
  }

  // ---- the life of a row ----

  // The first tombstone of the row, and the last launch from it.
  function FirstTombstone(steps: seq<Step>, k: Key): int {
    if steps == [] then 0
    else if steps[0].Tombstone? && steps[0].k == k then steps[0].at
    else FirstTombstone(steps[1..], k)
  }

  function LastResume(steps: seq<Step>, k: Key, was: int): int
    decreases |steps|
  {
    if steps == [] then was
    else LastResume(steps[1..], k, if steps[0].Resume? && steps[0].k == k then steps[0].at else was)
  }

  // Over any run that does not hard delete the row: it stays what was burned, marked reaped at its first tombstone's
  // time and resumed at its last launch's.
  lemma {:induction false} RowHistory(s: State, steps: seq<Step>, k: Key)
    requires Run(s, steps) && k in s.rows && forall i :: 0 <= i < |steps| ==> steps[i] != HardDelete(k)
    ensures k in Final(s, steps).rows
    ensures var was := s.rows[k];
            Final(s, steps).rows[k] ==
            was.(reaped := if was.reaped != 0 then was.reaped else FirstTombstone(steps, k),
                 resumed := LastResume(steps, k, was.resumed))
    decreases |steps|
  {
    hide IsHighest;
    if steps != [] {
      assert steps[0] != HardDelete(k);
      RowHistory(Apply(s, steps[0]), steps[1..], k);
    }
  }
}
