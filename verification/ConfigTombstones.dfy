/** When the record a delete appends carries the row as it last stood (go/agentdb/events.go). */
module ConfigTombstones {
  import opened Text
  import opened ConfigFold
  import opened ConfigLog

  // ---- what the log says about a row ----

  // The record was written about the row with this primary key, in whatever project.
  predicate IsAbout(r: Record, id: string) {
    FId in r.payload && r.payload[FId] == Str(id)
  }

  function LastAbout(log: seq<Record>, id: string): Option<Record> {
    if log == [] then None
    else if IsAbout(log[|log| - 1], id) then Some(log[|log| - 1])
    else LastAbout(log[..|log| - 1], id)
  }

  function RowAt(t: Tables, id: string): Option<Sub> {
    if id in t.subs then Some(t.subs[id]) else None
  }

  // The row `id` now follows from the row it was and the records appended since.
  predicate RowFollows(was: Tables, added: seq<Record>, t: Tables, id: string) {
    match LastAbout(added, id)
    case None => RowAt(t, id) == RowAt(was, id)
    case Some(r) => if IsDelete(r.action) then id !in t.subs else id in t.subs && r.payload == SubPayload(t.subs[id])
  }

  predicate Extends(was: Tables, t: Tables) {
    |was.log| <= |t.log| && t.log[..|was.log|] == was.log
  }

  function Added(was: Tables, t: Tables): seq<Record>
    requires Extends(was, t)
  {
    t.log[|was.log|..]
  }

  lemma LastAboutNext(log: seq<Record>, r: Record, id: string)
    ensures LastAbout(log + [r], id) == if IsAbout(r, id) then Some(r) else LastAbout(log, id)
  {
    assert (log + [r])[..|log|] == log;
  }

  // A step either leaves the tables as they are or lands a mutation with its record.
  lemma StepLandsOne(s: State, step: Step) returns (m: Mutation, r: Record)
    requires Apply(s, step).tables != s.tables
    ensures var t := Apply(s, step).tables;
            Write(s.tables.subs, m) == Some(t.subs) && t.log == s.tables.log + [r] && r.action == ActionOf(m) &&
            r.payload == SubPayload(m.row)
  {
    hide Taken, MaxSeq, Read, Write, SubPayload;
    var w := s.writers[step.t];
    m, r := w.m, RecordOf(w.m, w.n, step.uid, step.at);
  }

  lemma LandingFollows(was: Tables, t: Tables, t': Tables, m: Mutation, r: Record, id: string)
    requires Extends(was, t) && RowFollows(was, Added(was, t), t, id)
    requires Write(t.subs, m) == Some(t'.subs) && t'.log == t.log + [r] && r.action == ActionOf(m)
    requires r.payload == SubPayload(m.row)
    ensures Extends(was, t') && RowFollows(was, Added(was, t'), t', id)
  {
    hide LastAbout;
    assert Added(was, t') == Added(was, t) + [r];
    LastAboutNext(Added(was, t), r, id);
  }

  lemma StepFollows(was: Tables, s: State, step: Step, id: string)
    requires Extends(was, s.tables) && RowFollows(was, Added(was, s.tables), s.tables, id)
    ensures var t := Apply(s, step).tables; Extends(was, t) && RowFollows(was, Added(was, t), t, id)
  {
    hide LastAbout, Apply, RowFollows, Extends, Write, SubPayload;
    if Apply(s, step).tables != s.tables {
      var m, r := StepLandsOne(s, step);
      LandingFollows(was, s.tables, Apply(s, step).tables, m, r, id);
    }
  }

  lemma {:induction false} RunFollows(was: Tables, s: State, steps: seq<Step>, id: string)
    requires Extends(was, s.tables) && RowFollows(was, Added(was, s.tables), s.tables, id)
    ensures var t := Final(s, steps).tables; Extends(was, t) && RowFollows(was, Added(was, t), t, id)
    decreases |steps|
  {
    hide Apply, RowFollows, Extends;
    if steps != [] {
      StepFollows(was, s, steps[0], id);
      RunFollows(was, Apply(s, steps[0]), steps[1..], id);
    }
  }

  // ---- the row a delete has read ----

  // The writer has read its row, and means to remove it.
  predicate Removes(w: Writer, row: Sub) {
    match w
    case Marking(m, _) => m == Remove(row)
    case Holding(m, _, _) => m == Remove(row)
    case _ => true
  }

  predicate HasRead(s: State, t: Tid, row: Sub) {
    t in s.writers && !s.writers[t].Reading? && Removes(s.writers[t], row)
  }

  lemma {:induction false} RunKeepsRead(s: State, steps: seq<Step>, t: Tid, row: Sub)
    requires HasRead(s, t, row)
    ensures HasRead(Final(s, steps), t, row)
    decreases |steps|
  {
    hide Final;
    if steps != [] {
      StepKeepsRead(s, steps[0], t, row);
      RunKeepsRead(Apply(s, steps[0]), steps[1..], t, row);
    }
    RunUnfolds(s, steps);
  }

  lemma RunUnfolds(s: State, steps: seq<Step>)
    ensures Final(s, steps) == if steps == [] then s else Final(Apply(s, steps[0]), steps[1..])
  {
  }

  lemma StepKeepsRead(s: State, step: Step, t: Tid, row: Sub)
    requires HasRead(s, t, row)
    ensures HasRead(Apply(s, step), t, row)
  {
    hide Taken, MaxSeq, Read, Write;
  }

  lemma PayloadInjective(a: Sub, b: Sub)
    ensures SubPayload(a) == SubPayload(b) <==> a == b
  {
    if SubPayload(a) == SubPayload(b) {
      assert SubPayload(a)[FId] == SubPayload(b)[FId] && SubPayload(a)[FProject] == SubPayload(b)[FProject];
      assert SubPayload(a)[FWorker] == SubPayload(b)[FWorker] && SubPayload(a)[FRest] == SubPayload(b)[FRest];
    }
  }

  // Rows are stored under their own primary key.
  predicate KeyedRows(t: Tables) {
    forall id :: id in t.subs ==> t.subs[id].id == id
  }

  lemma {:induction false} RunKeyed(s: State, steps: seq<Step>)
    requires KeyedRows(s.tables)
    ensures KeyedRows(Final(s, steps).tables)
    decreases |steps|
  {
    hide Apply, KeyedRows;
    if steps != [] {
      StepKeyed(s, steps[0]);
      RunKeyed(Apply(s, steps[0]), steps[1..]);
    }
  }

  lemma StepKeyed(s: State, step: Step)
    requires KeyedRows(s.tables)
    ensures KeyedRows(Apply(s, step).tables)
  {
    hide Taken, MaxSeq, Read, RecordOf;
  }

  // ---- the theorem ----

  // Writer `t` is a delete about to read a row that exists.
  predicate AboutToRead(s: State, t: Tid, project: string, id: string) {
    t in s.writers && s.writers[t] == Reading(DeleteOp(project, id)) && Visible(s.tables, project, id)
  }

  // The step is its landing.
  predicate LandsNow(s: State, step: Step, t: Tid) {
    step.Advance? && step.t == t && t in s.writers && s.writers[t].Holding? && Apply(s, step).writers[t].Done?
  }

  // The landing's record carries the row it removes.
  predicate Truthful(s: State, step: Step, id: string) {
    var log := Apply(s, step).tables.log;
    log != [] && id in s.tables.subs && id !in Apply(s, step).tables.subs &&
    log[|log| - 1].action == SubscriptionDelete && log[|log| - 1].payload == SubPayload(s.tables.subs[id])
  }

  // Nothing was written about the row since it was read, or the last thing written put back just that row.
  predicate Unchanged(read: State, s: State, id: string) {
    Extends(read.tables, s.tables) && id in read.tables.subs &&
    match LastAbout(Added(read.tables, s.tables), id)
    case None => true
    case Some(r) => !IsDelete(r.action) && r.payload == SubPayload(read.tables.subs[id])
  }

  lemma ReadsIts(s: State, t: Tid, uid: string, at: int, project: string, id: string)
    requires AboutToRead(s, t, project, id)
    ensures var s' := Apply(s, Advance(t, uid, at)); s'.tables == s.tables && HasRead(s', t, s.tables.subs[id])
  {
  }

  lemma LandingIs(s: State, step: Step, t: Tid, row: Sub)
    requires HasRead(s, t, row) && LandsNow(s, step, t)
    ensures row.id in s.tables.subs
    ensures Truthful(s, step, row.id) <==> s.tables.subs[row.id] == row
  {
    hide Taken, MaxSeq, Read, SubPayload;
    PayloadInjective(row, s.tables.subs[row.id]);
  }

  lemma UnchangedIff(read: State, s: State, id: string)
    requires Extends(read.tables, s.tables) && RowFollows(read.tables, Added(read.tables, s.tables), s.tables, id)
    requires id in read.tables.subs && id in s.tables.subs
    ensures Unchanged(read, s, id) <==> s.tables.subs[id] == read.tables.subs[id]
  {
    hide LastAbout, SubPayload;
    PayloadInjective(s.tables.subs[id], read.tables.subs[id]);
  }

  // A delete that reads its row after `before` and lands with `step` after `more`, whatever other writers do meanwhile
  // and however often it retries: its record carries the row as it last stood exactly if, between the read and the
  // commit, nothing was written about the row, or what was last written left it as it had been read.
  lemma TombstoneIsCurrentIff(
      before: seq<Step>, t: Tid, uid: string, at: int, more: seq<Step>, step: Step, project: string, id: string)
    ensures var s0 := Final(Init(), before);
            var s1 := Final(Apply(s0, Advance(t, uid, at)), more);
            AboutToRead(s0, t, project, id) && LandsNow(s1, step, t) ==>
              (Truthful(s1, step, id) <==> Unchanged(s0, s1, id))
  {
    hide Final, Apply, RowFollows, HasRead, AboutToRead, LandsNow, Truthful, Unchanged, KeyedRows;
    var s0 := Final(Init(), before);
    var r0 := Apply(s0, Advance(t, uid, at));
    var s1 := Final(r0, more);
    if AboutToRead(s0, t, project, id) && LandsNow(s1, step, t) {
      InitKeyed();
      RunKeyed(Init(), before);
      RowIsRead(s0, t, project, id);
      ReadsIts(s0, t, uid, at, project, id);
      var row := s0.tables.subs[id];
      RunKeepsRead(r0, more, t, row);
      FollowsItself(s0.tables, id);
      RunFollows(s0.tables, r0, more, id);
      LandingIs(s1, step, t, row);
      UnchangedIff(s0, s1, id);
    }
  }

  lemma InitKeyed()
    ensures KeyedRows(Init().tables)
  {
  }

  lemma RowIsRead(s: State, t: Tid, project: string, id: string)
    requires AboutToRead(s, t, project, id) && KeyedRows(s.tables)
    ensures id in s.tables.subs && s.tables.subs[id].id == id
  {
  }

  lemma FollowsItself(t: Tables, id: string)
    ensures Extends(t, t) && RowFollows(t, Added(t, t), t, id)
  {
    assert Added(t, t) == [];
  }
}
