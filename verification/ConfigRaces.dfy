/** A mutation that runs alone, and interleavings in which the log and the rows part ways. */
module ConfigRaces {
  import opened Text
  import opened ConfigFold
  import opened ConfigLog
  import opened ConfigProjection

  lemma {:induction false} FinalConcat(s: State, a: seq<Step>, b: seq<Step>)
    ensures Final(s, a + b) == Final(Final(s, a), b)
    decreases |a|
  {
    hide Apply;
    if a == [] {
      assert a + b == b;
    } else {
      assert (a + b)[1..] == a[1..] + b;
      FinalConcat(Apply(s, a[0]), a[1..], b);
    }
  }

  lemma FinalTwo(s: State, x: Step, y: Step)
    ensures Final(s, [x, y]) == Apply(Apply(s, x), y)
  {
    hide Apply;
    assert [x, y][1..] == [y] && [y][1..] == [];
    assert Final(Apply(s, x), [y]) == Final(Apply(Apply(s, x), y), []);
  }

  function Go(t: Tid): Step {
    Advance(t, "e", 1)
  }

  // ---- a mutation nobody interrupts ----

  function ReadOne(t: Tid, op: Op): seq<Step> {
    [Start(t, op), Go(t)]
  }

  function Whole(t: Tid, op: Op): seq<Step> {
    ReadOne(t, op) + [Go(t), Go(t)]
  }

  function WithWriter(s: State, t: Tid, w: Writer): State {
    s.(writers := s.writers[t := w])
  }

  function LandedState(s: State, t: Tid, m: Mutation, subs: map<string, Sub>): State {
    var n := Count(s.tables.log, m.row.project) + 1;
    State(Tables(subs, s.tables.log + [RecordOf(m, n, "e", 1)]), s.writers[t := Done(n)])
  }

  lemma ReadRun(s: State, t: Tid, op: Op)
    requires t !in s.writers && Read(s.tables, op).Some?
    ensures Final(s, ReadOne(t, op)) == WithWriter(s, t, Marking(Read(s.tables, op).value, 0))
  {
    hide Read, Final;
    FinalTwo(s, Start(t, op), Go(t));
  }

  // From its mark on, a writer that is not interrupted lands: the index refuses nobody who is alone.
  lemma CommitRun(s: State, t: Tid, m: Mutation)
    requires Dense(s.tables.log) && t in s.writers && s.writers[t] == Marking(m, 0) && Write(s.tables.subs, m).Some?
    ensures Final(s, [Go(t), Go(t)]) == LandedState(s, t, m, Write(s.tables.subs, m).value)
  {
    hide Read, Final, Dense, MaxSeq, Count, Taken, Write;
    FinalTwo(s, Go(t), Go(t));
    DenseTaken(s.tables.log, m.row.project, Count(s.tables.log, m.row.project) + 1);
  }

  lemma WholeRun(s: State, t: Tid, op: Op)
    requires Dense(s.tables.log) && t !in s.writers && Read(s.tables, op).Some?
    requires Write(s.tables.subs, Read(s.tables, op).value).Some?
    ensures var m := Read(s.tables, op).value;
            Final(s, Whole(t, op)) == LandedState(s, t, m, Write(s.tables.subs, m).value)
  {
    hide Read, Final, Dense, Count, Write, RecordOf;
    var m := Read(s.tables, op).value;
    var held := WithWriter(s, t, Marking(m, 0));
    ReadRun(s, t, op);
    CommitRun(held, t, m);
    FinalConcat(s, ReadOne(t, op), [Go(t), Go(t)]);
    assert LandedState(held, t, m, Write(s.tables.subs, m).value) ==
           LandedState(s, t, m, Write(s.tables.subs, m).value);
  }

  lemma LandedDense(s: State, t: Tid, m: Mutation, subs: map<string, Sub>)
    requires Dense(s.tables.log)
    ensures Dense(LandedState(s, t, m, subs).tables.log)
  {
    hide Dense, Count;
    DenseNext(s.tables.log, RecordOf(m, Count(s.tables.log, m.row.project) + 1, "e", 1));
  }

  // ---- a tombstone that is not the row it removed ----

  function First(id: string): Sub { Sub(id, "a", "w", "1") }
  function Second(id: string): Sub { Sub(id, "a", "w", "2") }

  // A row is created; a delete reads it; an update of it lands; then the delete commits.
  function StaleDelete(id: string): seq<Step> {
    Whole(0, CreateOp(First(id))) + (ReadOne(1, DeleteOp("a", id)) + Whole(2, UpdateOp(Second(id))) + [Go(1), Go(1)])
  }

  function Created(id: string): State {
    State(Tables(map[id := First(id)], [RecordOf(Insert(First(id)), 1, "e", 1)]), map[0 := Done(1)])
  }

  lemma CreatedRun(id: string)
    ensures Final(Init(), Whole(0, CreateOp(First(id)))) == Created(id) && Dense(Created(id).tables.log)
  {
    hide Final, Whole;
    WholeRun(Init(), 0, CreateOp(First(id)));
    LandedDense(Init(), 0, Insert(First(id)), map[id := First(id)]);
  }

  // The update has landed; the delete still holds the row it read.
  function Overtaken(id: string): State {
    State(Tables(map[id := Second(id)],
                 [RecordOf(Insert(First(id)), 1, "e", 1), RecordOf(Save(Second(id)), 2, "e", 1)]),
          map[0 := Done(1), 1 := Marking(Remove(First(id)), 0), 2 := Done(2)])
  }

  lemma OvertakenRun(id: string)
    ensures Final(Created(id), ReadOne(1, DeleteOp("a", id)) + Whole(2, UpdateOp(Second(id)))) == Overtaken(id)
    ensures Dense(Overtaken(id).tables.log)
  {
    hide Final, Whole, ReadOne, Dense;
    CreatedRun(id);
    var s1 := Created(id);
    ReadRun(s1, 1, DeleteOp("a", id));
    var s2 := WithWriter(s1, 1, Marking(Remove(First(id)), 0));
    WholeRun(s2, 2, UpdateOp(Second(id)));
    var subs := map[id := Second(id)];
    LandedDense(s2, 2, Save(Second(id)), subs);
    FinalConcat(s1, ReadOne(1, DeleteOp("a", id)), Whole(2, UpdateOp(Second(id))));
    CountOne(RecordOf(Insert(First(id)), 1, "e", 1));
    assert LandedState(s2, 2, Save(Second(id)), subs) == Overtaken(id);
  }

  lemma CountOne(r: Record)
    ensures Count([r], r.project) == 1
  {
    CountNext([], r, r.project);
    assert [] + [r] == [r];
  }

  lemma CountTwo(a: Record, b: Record)
    requires a.project == b.project
    ensures Count([a, b], b.project) == 2
  {
    CountOne(a);
    CountNext([a], b, b.project);
    assert [a] + [b] == [a, b];
  }

  // The record the restore of a deleted subscription would read carries the row before its last update.
  lemma TombstoneIsStale(id: string)
    ensures var t := Final(Init(), StaleDelete(id)).tables;
            t.subs == map[] && |t.log| == 3 &&
            t.log[1] == RecordOf(Save(Second(id)), 2, "e", 1) && t.log[2] == RecordOf(Remove(First(id)), 3, "e", 1)
  {
    hide Final, Whole, ReadOne, Dense, Count, Apply;
    CreatedRun(id);
    OvertakenRun(id);
    var s3 := Overtaken(id);
    CommitRun(s3, 1, Remove(First(id)));
    CountTwo(s3.tables.log[0], s3.tables.log[1]);
    FinalConcat(Created(id), ReadOne(1, DeleteOp("a", id)) + Whole(2, UpdateOp(Second(id))), [Go(1), Go(1)]);
    FinalConcat(Init(), Whole(0, CreateOp(First(id))),
                ReadOne(1, DeleteOp("a", id)) + Whole(2, UpdateOp(Second(id))) + [Go(1), Go(1)]);
  }

  // ---- a tombstone that is the row it removed, although the row was written meanwhile ----

  // As before, but a second update puts the first row back before the delete commits.
  function RestoredDelete(id: string): seq<Step> {
    Whole(0, CreateOp(First(id))) +
    (ReadOne(1, DeleteOp("a", id)) + Whole(2, UpdateOp(Second(id))) + (Whole(3, UpdateOp(First(id))) + [Go(1), Go(1)]))
  }

  function Restored(id: string): State {
    State(Tables(map[id := First(id)], Overtaken(id).tables.log + [RecordOf(Save(First(id)), 3, "e", 1)]),
          Overtaken(id).writers[3 := Done(3)])
  }

  lemma RestoredRun(id: string)
    ensures Final(Overtaken(id), Whole(3, UpdateOp(First(id)))) == Restored(id)
    ensures Dense(Restored(id).tables.log)
  {
    hide Final, Whole, ReadOne, Dense;
    OvertakenRun(id);
    var v := Overtaken(id);
    WholeRun(v, 3, UpdateOp(First(id)));
    LandedDense(v, 3, Save(First(id)), map[id := First(id)]);
    CountTwo(v.tables.log[0], v.tables.log[1]);
    assert v.tables.log == [v.tables.log[0], v.tables.log[1]];
  }

  lemma TombstoneAfterRestore(id: string)
    ensures var t := Final(Init(), RestoredDelete(id)).tables;
            t.subs == map[] && |t.log| == 4 && t.log[1].payload == SubPayload(Second(id)) &&
            Restored(id).tables.subs[id] == First(id) && t.log[3].payload == SubPayload(First(id))
  {
    hide Final, Whole, ReadOne, Dense, Count, Apply;
    CreatedRun(id);
    OvertakenRun(id);
    RestoredRun(id);
    CommitRun(Restored(id), 1, Remove(First(id)));
    FinalConcat(Overtaken(id), Whole(3, UpdateOp(First(id))), [Go(1), Go(1)]);
    FinalConcat(Created(id), ReadOne(1, DeleteOp("a", id)) + Whole(2, UpdateOp(Second(id))),
                Whole(3, UpdateOp(First(id))) + [Go(1), Go(1)]);
    FinalConcat(Init(), Whole(0, CreateOp(First(id))),
                ReadOne(1, DeleteOp("a", id)) + Whole(2, UpdateOp(Second(id))) +
                (Whole(3, UpdateOp(First(id))) + [Go(1), Go(1)]));
  }

  // ---- an id two projects use ----

  function Third(id: string): Sub { Sub(id, "b", "w", "3") }

  // Project a's update has read its row; a deletes the row and b creates one under the same id; then a's save, an
  // upsert on the primary key, commits.
  function SharedId(id: string): seq<Step> {
    Whole(0, CreateOp(First(id))) +
    (ReadOne(1, UpdateOp(Second(id))) + Whole(2, DeleteOp("a", id)) + (Whole(3, CreateOp(Third(id))) + [Go(1), Go(1)]))
  }

  function Vacated(id: string): State {
    State(Tables(map[], [RecordOf(Insert(First(id)), 1, "e", 1), RecordOf(Remove(First(id)), 2, "e", 1)]),
          map[0 := Done(1), 1 := Marking(Save(Second(id)), 0), 2 := Done(2)])
  }

  lemma VacatedRun(id: string)
    ensures Final(Created(id), ReadOne(1, UpdateOp(Second(id))) + Whole(2, DeleteOp("a", id))) == Vacated(id)
    ensures Dense(Vacated(id).tables.log)
  {
    hide Final, Whole, ReadOne, Dense;
    CreatedRun(id);
    var s1 := Created(id);
    ReadRun(s1, 1, UpdateOp(Second(id)));
    var s2 := WithWriter(s1, 1, Marking(Save(Second(id)), 0));
    WholeRun(s2, 2, DeleteOp("a", id));
    LandedDense(s2, 2, Remove(First(id)), map[]);
    FinalConcat(s1, ReadOne(1, UpdateOp(Second(id))), Whole(2, DeleteOp("a", id)));
    CountOne(RecordOf(Insert(First(id)), 1, "e", 1));
    assert LandedState(s2, 2, Remove(First(id)), map[]) == Vacated(id);
  }

  function Reused(id: string): State {
    State(Tables(map[id := Third(id)], Vacated(id).tables.log + [RecordOf(Insert(Third(id)), 1, "e", 1)]),
          Vacated(id).writers[3 := Done(1)])
  }

  lemma ReusedRun(id: string)
    ensures Final(Vacated(id), Whole(3, CreateOp(Third(id)))) == Reused(id)
    ensures Dense(Reused(id).tables.log) && Count(Reused(id).tables.log, "a") == 2
  {
    hide Final, Whole, ReadOne, Dense;
    VacatedRun(id);
    var v := Vacated(id);
    WholeRun(v, 3, CreateOp(Third(id)));
    LandedDense(v, 3, Insert(Third(id)), map[id := Third(id)]);
    CountBoth(v.tables.log[0], v.tables.log[1], RecordOf(Insert(Third(id)), 1, "e", 1));
    assert v.tables.log == [v.tables.log[0], v.tables.log[1]];
  }

  lemma CountBoth(x: Record, y: Record, z: Record)
    requires x.project == y.project == "a" && z.project == "b"
    ensures Count([x, y], "b") == 0 && Count([x, y] + [z], "a") == 2
  {
    CountTwo(x, y);
    CountNext([], x, "b");
    CountNext([x], y, "b");
    CountNext([x, y], z, "a");
    assert [] + [x] == [x] && [x] + [y] == [x, y];
  }

  // One id in two projects: b's log folds to a live row that the table says is a's.
  lemma SharedIdDiverges(id: string)
    requires !Blank(id)
    ensures var t := Final(Init(), SharedId(id)).tables;
            t.subs == map[id := Second(id)] &&
            Newest(Selected(t.log, "b", 0), SubRef(id)) == Some(RecordOf(Insert(Third(id)), 1, "e", 1))
  {
    hide Final, Whole, ReadOne, Dense, Count, Apply, Selected, Newest, RecordOf, Trim, Blank;
    CreatedRun(id);
    VacatedRun(id);
    ReusedRun(id);
    CommitRun(Reused(id), 1, Save(Second(id)));
    FinalConcat(Vacated(id), Whole(3, CreateOp(Third(id))), [Go(1), Go(1)]);
    FinalConcat(Created(id), ReadOne(1, UpdateOp(Second(id))) + Whole(2, DeleteOp("a", id)),
                Whole(3, CreateOp(Third(id))) + [Go(1), Go(1)]);
    FinalConcat(Init(), Whole(0, CreateOp(First(id))),
                ReadOne(1, UpdateOp(Second(id))) + Whole(2, DeleteOp("a", id)) +
                (Whole(3, CreateOp(Third(id))) + [Go(1), Go(1)]));
    NewestOfB(id);
  }

  lemma NewestOfB(id: string)
    requires !Blank(id)
    ensures Newest(Selected(Reused(id).tables.log + [RecordOf(Save(Second(id)), 3, "e", 1)], "b", 0), SubRef(id)) ==
            Some(RecordOf(Insert(Third(id)), 1, "e", 1))
  {
    hide Trim, Blank;
    var front, z := Vacated(id).tables.log, RecordOf(Insert(Third(id)), 1, "e", 1);
    var last := RecordOf(Save(Second(id)), 3, "e", 1);
    assert (front + [z] + [last])[..3] == front + [z];
    assert (front + [z])[..2] == front;
    RecordKeys(Insert(Third(id)), 1, "e", 1);
  }
}
