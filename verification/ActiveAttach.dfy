/** Which id a reconnect attaches with (go/runner.go), after any history of turns, frames, store writes and restarts. */
module ActiveAttach {
  import opened Text
  import opened ActiveQuery

  // The record names a sandbox id for the turn.
  predicate Gives(ids: Ids, q: Id) {
    ids.query == q && ids.sandbox != ""
  }

  predicate MemGives(s: State, q: Id) {
    s.mem.Some? && Gives(s.mem.value, q)
  }

  // The frame tells the turn's sandbox id.
  predicate Tells(step: Step, q: Id) {
    step.Connected? && step.q == q && step.sandbox != "" && step.sandbox != q
  }

  predicate NoneTells(steps: seq<Step>, q: Id) {
    forall i :: 0 <= i < |steps| ==> !Tells(steps[i], q)
  }

  predicate AllSpare(steps: seq<Step>, q: Id) {
    forall i :: 0 <= i < |steps| ==> Spares(steps[i], q)
  }

  // ---- when it falls back on the caller's id ----

  // A sandbox id recorded for a turn is not the turn's own id, and no turn is nameless.
  predicate Proper(ids: Ids) {
    ids.sandbox != "" ==> ids.sandbox != ids.query && ids.query != ""
  }

  predicate AllProper(s: State) {
    && (s.mem.Some? ==> Proper(s.mem.value)) && Proper(s.row)
    && (forall c :: c in s.calls && c.Set? ==> Proper(c.ids))
    && "" !in s.begun
  }

  lemma StepProper(s: State, step: Step)
    requires AllProper(s) && Enabled(s, step)
    ensures AllProper(Apply(s, step))
  {
    match step
    case Connected(q, sb) => ConnectedProper(s, q, sb);
    case Land(c) => LandProper(s, c);
    case _ =>
  }

  lemma ConnectedProper(s: State, q: Id, sb: Id)
    requires AllProper(s) && Enabled(s, Connected(q, sb))
    ensures AllProper(Apply(s, Connected(q, sb)))
  {
  }

  lemma LandProper(s: State, c: Call)
    requires AllProper(s) && c in s.calls
    ensures AllProper(Apply(s, Land(c)))
  {
  }

  lemma {:induction false} RunProper(s: State, steps: seq<Step>)
    requires AllProper(s) && Run(s, steps)
    ensures AllProper(Final(s, steps))
    decreases |steps|
  {
    hide AllProper, Apply, Enabled;
    if steps != [] {
      StepProper(s, steps[0]);
      RunProper(Apply(s, steps[0]), steps[1..]);
    }
  }

  // After any history, with anything between the two reads: the caller's own id is used exactly if neither the entry in
  // memory nor the store's row, where the store answers, has a sandbox id for the turn.
  lemma FallsBackIff(before: seq<Step>, between: seq<Step>, q: Id, answers: bool)
    requires Run(Init(), before) && Run(Final(Init(), before), between)
    ensures var s := Final(Init(), before);
            var later := Final(s, between);
            StreamId(s, later, q, answers) == q <==> !MemGives(s, q) && !(answers && Gives(later.row, q))
  {
    hide Run, Final;
    RunProper(Init(), before);
    RunProper(Final(Init(), before), between);
  }

  // ---- while the turn is recorded in memory ----

  // Of a turn that is recorded: the sandbox id it was last told by its own frame, through any frames and ends of other
  // turns and any store writes; whatever the store says.
  lemma AttachesWithLastTold(before: seq<Step>, steps: seq<Step>, between: seq<Step>, q: Id, answers: bool)
    requires Run(Init(), before) && Run(Final(Init(), before), steps) && AllSpare(steps, q)
    requires Run(Final(Final(Init(), before), steps), between)
    ensures var s := Final(Init(), before);
            q != "" && s.mem.Some? && s.mem.value.query == q && Heard(s.mem.value.sandbox, steps, q) != "" ==>
              StreamId(Final(s, steps), Final(Final(s, steps), between), q, answers) ==
              Heard(s.mem.value.sandbox, steps, q)
  {
    hide Run, Final, Heard;
    var s := Final(Init(), before);
    if s.mem.Some? && s.mem.value.query == q {
      LiveTurnKeepsEntry(s, steps, q);
    }
  }

  lemma {:induction false} NothingNewHeard(sandbox: Id, steps: seq<Step>, q: Id)
    requires NoneTells(steps, q)
    ensures Heard(sandbox, steps, q) == sandbox
    decreases |steps|
  {
    if steps != [] {
      assert !Tells(steps[0], q);
      NothingNewHeard(sandbox, steps[1..], q);
    }
  }

  // So, once a frame that is not ignored has told it, and until another one of the turn's own does: that very id.
  lemma AttachesAfterFrame(s: State, sandbox: Id, steps: seq<Step>, later: State, q: Id, answers: bool)
    requires Enabled(s, Connected(q, sandbox)) && !Ignored(s.mem, q, sandbox) && q != ""
    requires Run(Apply(s, Connected(q, sandbox)), steps) && AllSpare(steps, q) && NoneTells(steps, q)
    ensures StreamId(Final(Apply(s, Connected(q, sandbox)), steps), later, q, answers) == sandbox
  {
    hide Run, Final, Heard;
    LiveTurnKeepsEntry(Apply(s, Connected(q, sandbox)), steps, q);
    NothingNewHeard(sandbox, steps, q);
  }

  // ---- after a restart ----

  // The step overwrites nothing the store has recorded for the turn.
  predicate KeepsRow(step: Step, q: Id) {
    step.Land? ==> step.call.Clear? && step.call.query != q
  }

  predicate AllKeepRow(steps: seq<Step>, q: Id) {
    forall i :: 0 <= i < |steps| ==> KeepsRow(steps[i], q)
  }

  lemma {:induction false} RowStays(s: State, steps: seq<Step>, q: Id)
    requires Run(s, steps) && s.row.query == q && AllKeepRow(steps, q)
    ensures Final(s, steps).row == s.row
    decreases |steps|
  {
    hide Enabled;
    if steps != [] {
      assert KeepsRow(steps[0], q);
      RowStays(Apply(s, steps[0]), steps[1..], q);
    }
  }

  lemma {:induction false} MemoryStaysSilent(s: State, steps: seq<Step>, q: Id)
    requires Run(s, steps) && !MemGives(s, q) && NoneTells(steps, q)
    ensures !MemGives(Final(s, steps), q)
    decreases |steps|
  {
    hide Enabled;
    if steps != [] {
      assert !Tells(steps[0], q);
      MemoryStaysSilent(Apply(s, steps[0]), steps[1..], q);
    }
  }

  // A frame tells the turn's sandbox id and its write is issued; the write lands, and nothing overwrites it; the
  // process dies. The next process, which has heard nothing of the turn, attaches with that id, if the store answers.
  lemma AttachesAfterRestart(s: State, sandbox: Id, mid: seq<Step>, tail: seq<Step>, more: seq<Step>,
                             between: seq<Step>, q: Id)
    requires Enabled(s, Connected(q, sandbox)) && !Ignored(s.mem, q, sandbox) && q != ""
    requires Run(Apply(s, Connected(q, sandbox)), mid)
    requires var s1 := Final(Apply(s, Connected(q, sandbox)), mid); Enabled(s1, Land(Set(Ids(q, sandbox))))
    requires var s2 := Apply(Final(Apply(s, Connected(q, sandbox)), mid), Land(Set(Ids(q, sandbox))));
             Run(s2, tail) && Run(Apply(Final(s2, tail), Restart), more) &&
             Run(Final(Apply(Final(s2, tail), Restart), more), between)
    requires AllKeepRow(tail, q) && AllKeepRow(more, q) && AllKeepRow(between, q) && NoneTells(more, q)
    ensures var s2 := Apply(Final(Apply(s, Connected(q, sandbox)), mid), Land(Set(Ids(q, sandbox))));
            var now := Final(Apply(Final(s2, tail), Restart), more);
            StreamId(now, Final(now, between), q, true) == sandbox
  {
    hide Run, Final, AllKeepRow, NoneTells;
    var s2 := Apply(Final(Apply(s, Connected(q, sandbox)), mid), Land(Set(Ids(q, sandbox))));
    var dead := Apply(Final(s2, tail), Restart);
    RowStays(s2, tail, q);
    RowStays(dead, more, q);
    RowStays(Final(dead, more), between, q);
    MemoryStaysSilent(dead, more, q);
  }

  lemma WriteIsIssued(s: State, q: Id, sandbox: Id)
    requires Enabled(s, Connected(q, sandbox)) && !Ignored(s.mem, q, sandbox)
    ensures Enabled(Apply(s, Connected(q, sandbox)), Land(Set(Ids(q, sandbox))))
  {
  }

  // ---- after the turn has ended ----

  // The step does not record the turn.
  predicate RecordsNot(step: Step, q: Id) {
    step != Begin(q) && !Tells(step, q) && (step.Land? && step.call.Set? ==> step.call.ids.query != q)
  }

  predicate AllRecordNot(steps: seq<Step>, q: Id) {
    forall i :: 0 <= i < |steps| ==> RecordsNot(steps[i], q)
  }

  predicate MemNames(s: State, q: Id) {
    s.mem.Some? && s.mem.value.query == q
  }

  lemma {:induction false} StaysForgotten(s: State, steps: seq<Step>, q: Id)
    requires Run(s, steps) && AllRecordNot(steps, q)
    ensures !MemNames(s, q) ==> !MemNames(Final(s, steps), q)
    ensures q != "" && s.row.query != q ==> Final(s, steps).row.query != q
    decreases |steps|
  {
    hide Enabled;
    if steps != [] {
      assert RecordsNot(steps[0], q);
      StaysForgotten(Apply(s, steps[0]), steps[1..], q);
    }
  }

  // The end of a turn forgets it in memory, and the write it issues, once it lands, in the store: until something
  // records the turn again, no sandbox id is found for it, and attaching to it uses the id as it is.
  lemma EndedTurnIsForgotten(s: State, q: Id, mid: seq<Step>, more: seq<Step>, later: State, answers: bool)
    requires Enabled(s, End(q)) && q != "" && Run(Apply(s, End(q)), mid) && AllRecordNot(mid, q)
    requires Clear(q) in Final(Apply(s, End(q)), mid).calls
    requires Run(Apply(Final(Apply(s, End(q)), mid), Land(Clear(q))), more) && AllRecordNot(more, q)
    ensures var s1 := Final(Apply(s, End(q)), mid);
            var s2 := Final(Apply(s1, Land(Clear(q))), more);
            !MemNames(s1, q) && !MemNames(s2, q) && s2.row.query != q && StreamId(s2, s2, q, answers) == q
    ensures Clear(q) in Apply(s, End(q)).calls
  {
    hide Run, Final, AllRecordNot;
    StaysForgotten(Apply(s, End(q)), mid, q);
    StaysForgotten(Apply(Final(Apply(s, End(q)), mid), Land(Clear(q))), more, q);
  }

  // ---- every write is made once ----

  // The store call a step issues.
  function Issued(s: State, step: Step): multiset<Call> {
    match step
    case Begin(q) => multiset{Set(Ids(q, ""))}
    case Connected(q, sb) => if Ignored(s.mem, q, sb) then multiset{} else multiset{Set(Ids(q, sb))}
    case End(q) => multiset{Clear(q)}
    case _ => multiset{}
  }

  function AllIssued(s: State, steps: seq<Step>): multiset<Call>
    requires Run(s, steps)
    decreases |steps|
  {
    if steps == [] then multiset{} else Issued(s, steps[0]) + AllIssued(Apply(s, steps[0]), steps[1..])
  }

  // The calls that landed or were lost.
  function Settled(steps: seq<Step>): multiset<Call>
    decreases |steps|
  {
    if steps == [] then multiset{}
    else
      (match steps[0]
       case Land(c) => multiset{c}
       case Lose(c) => multiset{c}
       case _ => multiset{}) + Settled(steps[1..])
  }

  predicate NoRestart(steps: seq<Step>) {
    forall i :: 0 <= i < |steps| ==> steps[i] != Restart
  }

  // Over any run of one process: every write issued is under way, or has landed or been lost, once; and only issued
  // writes land.
  lemma {:induction false} CallsBalance(s: State, steps: seq<Step>)
    requires Run(s, steps) && NoRestart(steps)
    ensures Final(s, steps).calls + Settled(steps) == s.calls + AllIssued(s, steps)
    decreases |steps|
  {
    hide AllIssued, Settled, Issued, Apply, Enabled;
    if steps == [] {
      NothingIssued(s);
    } else {
      assert steps[0] != Restart;
      UnfoldBalance(s, steps);
      OneCallBalances(s, steps[0]);
      var s1, rest := Apply(s, steps[0]), steps[1..];
      CallsBalance(s1, rest);
      Adds(s.calls, Issued(s, steps[0]), Settled([steps[0]]), s1.calls, AllIssued(s1, rest), Settled(rest),
           Final(s1, rest).calls);
    }
  }

  lemma Adds(a: multiset<Call>, i: multiset<Call>, l: multiset<Call>, b: multiset<Call>, j: multiset<Call>,
             m: multiset<Call>, c: multiset<Call>)
    requires b + l == a + i && c + m == b + j
    ensures c + (l + m) == a + (i + j)
  {
    assert c + (l + m) == (c + m) + l;
    assert (b + j) + l == (b + l) + j;
  }

  lemma NothingIssued(s: State)
    ensures AllIssued(s, []) == multiset{} && Settled([]) == multiset{}
  {
  }

  // A restart loses what is under way, and all that memory knew.
  lemma RestartForgets(s: State)
    ensures Apply(s, Restart).calls == multiset{} && Apply(s, Restart).mem == None && Apply(s, Restart).row == s.row
  {
  }

  lemma OneCallBalances(s: State, step: Step)
    requires Enabled(s, step) && step != Restart
    ensures Apply(s, step).calls + Settled([step]) == s.calls + Issued(s, step)
  {
    assert [step][1..] == [];
  }

  lemma UnfoldBalance(s: State, steps: seq<Step>)
    requires Run(s, steps) && steps != []
    ensures AllIssued(s, steps) == Issued(s, steps[0]) + AllIssued(Apply(s, steps[0]), steps[1..])
    ensures Settled(steps) == Settled([steps[0]]) + Settled(steps[1..])
    ensures Final(s, steps) == Final(Apply(s, steps[0]), steps[1..])
  {
    assert [steps[0]][1..] == [];
  }

  // ---- whose frames are heard ----

  // Frames and ends are those of turns some process has begun.
  lemma {:induction false} OnlyBegunTurnsSpeak(s: State, steps: seq<Step>, q: Id)
    requires Run(s, steps)
    ensures q in Final(s, steps).begun <==> q in s.begun || exists i :: 0 <= i < |steps| && steps[i] == Begin(q)
    ensures Enabled(Final(s, steps), End(q)) <==> q in Final(s, steps).begun
    decreases |steps|
  {
    if steps != [] {
      OnlyBegunTurnsSpeak(Apply(s, steps[0]), steps[1..], q);
      hide Run, Final;
      if exists i :: 0 <= i < |steps| && steps[i] == Begin(q) {
        var i :| 0 <= i < |steps| && steps[i] == Begin(q);
        assert i > 0 ==> steps[1..][i - 1] == Begin(q);
      }
      if exists i :: 0 <= i < |steps[1..]| && steps[1..][i] == Begin(q) {
        var i :| 0 <= i < |steps[1..]| && steps[1..][i] == Begin(q);
        assert steps[i + 1] == Begin(q);
      }
    }
  }
}
