/** When a revert is an undo, and the reverts that are not. */
module RevertSurprises {
  import opened Text
  import opened ConfigFold
  import opened ConfigLog
  import opened ConfigRows
  import opened ConfigHistory
  import opened Revert
  import opened RevertTheorems
  import opened RevertRuns

  // The newest change re-created an entity that its predecessor had deleted.
  predicate Recreated(h: seq<Record>) {
    |h| > 1 && !IsDelete(h[0].action) && IsDelete(h[1].action)
  }

  // A successful revert puts the entity back as it was before its newest change if and only if that change did not
  // re-create it after a delete; in that case the deleted row is written forward and the entity stays.
  lemma RevertIsUndo(c: Config, project: string, id: string, target: Record, ref: EntityRef, cap: nat, st: Stamp)
    requires Inv(c) && Targets(c.log, project, id, target, ref) && Rowed(ref.kind) && PlainKey(ref)
    requires |OfKind(c.log, project, ref.kind)| <= cap
    ensures var h, res := History(c.log, project, ref), RevertEvent(c.log, c, project, id, cap, st);
            res.Ok? ==>
              h != [] && (RowPayload(res.value, project, ref) == StateAfter(h[1..]) <==> !Recreated(h)) &&
              (Recreated(h) ==> RowPayload(res.value, project, ref) == Some(h[1].payload))
  {
    hide RefFor, Trim, Blank, History, IsSpace, Dense, RowsKeyed, LogFull, UniqueIds, MayRevert, UidTaken, RevertEvent,
         Find, OfKind, OneRecord, RowPayload;
    RevertRestores(c, project, id, target, ref, cap, st);
    assert Agrees(c, project, ref);
  }

  lemma {:induction false} FindUnique(log: seq<Record>, project: string, r: Record)
    requires UniqueIds(log) && r in log && r.project == project
    ensures Find(log, project, r.id) == Some(r)
  {
    if log[0] != r {
      var i :| 0 <= i < |log| && log[i] == r;
      assert log[1..][i - 1] == r;
      FindUnique(log[1..], project, r);
    }
  }

  lemma OfKindNext(log: seq<Record>, r: Record, project: string, kind: Kind)
    ensures |OfKind(log + [r], project, kind)| <= |OfKind(log, project, kind)| + 1
  {
    hide KindOf;
    assert (log + [r])[..|log|] == log;
  }

  // Where the second revert starts: the first one's record is the target.
  lemma NextTarget(c: Config, c': Config, project: string, ref: EntityRef, cap: nat, st: Stamp, payload: Payload,
                   deletes: bool)
    requires Inv(c') && OneRecord(c, c', project, ref, st, payload, deletes)
    requires !Blank(project) && !Blank(st.uid)
    ensures var r := c'.log[|c.log|];
            Targets(c'.log, project, st.uid, r, ref) &&
            History(c'.log, project, ref) == [r] + History(c.log, project, ref)
    ensures |OfKind(c'.log, project, ref.kind)| <= |OfKind(c.log, project, ref.kind)| + 1
  {
    hide RefFor, Trim, Blank, History, OfKind, Find, RowsKeyed, LogFull, Dense, AllAgree;
    var r := c'.log[|c.log|];
    assert c'.log == c.log + [r];
    FindUnique(c'.log, project, r);
    HistoryNext(c.log, r, project, ref);
    OfKindNext(c.log, r, project, ref.kind);
  }

  // Reverting the revert brings back the row that the first revert replaced, unless what was reverted is a delete:
  // then the entity stays, and is not deleted again.
  lemma RevertTwice(c: Config, project: string, id: string, target: Record, ref: EntityRef, cap: nat, st: Stamp,
                    st2: Stamp)
    requires Inv(c) && Targets(c.log, project, id, target, ref) && Rowed(ref.kind) && PlainKey(ref)
    requires |OfKind(c.log, project, ref.kind)| < cap && !Blank(st.uid)
    ensures var first := RevertEvent(c.log, c, project, id, cap, st);
            first.Ok? ==>
              var res := RevertEvent(first.value.log, first.value, project, st.uid, cap, st2);
              res.Ok? ==>
                (RowPayload(res.value, project, ref) == RowPayload(c, project, ref) <==> !IsDelete(target.action)) &&
                (IsDelete(target.action) ==> RowPayload(res.value, project, ref) == Some(target.payload))
  {
    hide RefFor, Trim, Blank, History, IsSpace, Dense, RowsKeyed, LogFull, UniqueIds, MayRevert, UidTaken, RevertEvent,
         Find, OfKind, OneRecord, RowPayload;
    if RevertEvent(c.log, c, project, id, cap, st).Ok? {
      RevertRestores(c, project, id, target, ref, cap, st);
      RevertKeeps(c, project, id, cap, st);
      var c1 := RevertEvent(c.log, c, project, id, cap, st).value;
      FirstRevert(c, c1, project, ref, cap, st);
      var h, r := History(c.log, project, ref), c1.log[|c.log|];
      var res := RevertEvent(c1.log, c1, project, st.uid, cap, st2);
      RevertRestores(c1, project, st.uid, r, ref, cap, st2);
      if res.Ok? {
        SecondRevert(c, c1, res.value, project, ref, st2, h, r);
      }
    }
  }

  lemma FirstRevert(c: Config, c1: Config, project: string, ref: EntityRef, cap: nat, st: Stamp)
    requires Inv(c) && Inv(c1) && History(c.log, project, ref) != []
    requires Restored(c, c1, project, ref, History(c.log, project, ref), st)
    requires !Blank(project) && !Blank(st.uid) && |OfKind(c.log, project, ref.kind)| < cap
    ensures |c1.log| == |c.log| + 1 && c1.log == c.log + [c1.log[|c.log|]]
    ensures var r := c1.log[|c.log|];
            Targets(c1.log, project, st.uid, r, ref) &&
            History(c1.log, project, ref) == [r] + History(c.log, project, ref) &&
            |OfKind(c1.log, project, ref.kind)| <= cap && FirstRecord(c, project, ref, History(c.log, project, ref), r)
  {
    hide RefFor, Trim, Blank, History, Inv, OfKind, Find, RowPayload;
    var h := History(c.log, project, ref);
    var r := c1.log[|c.log|];
    NextTarget(c, c1, project, ref, cap, st, r.payload, IsDelete(r.action));
  }

  // The revert is itself an ordinary change: asking again for the original is refused, because the revert's record is
  // now the newest of the entity; and that record can be reverted in its turn, with the original as its predecessor. It
  // succeeds exactly if the new event id is free and the tables still permit it.
  lemma RevertIsRevertable(c: Config, project: string, id: string, target: Record, ref: EntityRef, cap: nat, st: Stamp,
                           st2: Stamp)
    requires Inv(c) && Targets(c.log, project, id, target, ref) && Rowed(ref.kind) && PlainKey(ref)
    requires |OfKind(c.log, project, ref.kind)| < cap && !Blank(st.uid)
    ensures var first := RevertEvent(c.log, c, project, id, cap, st);
            first.Ok? ==>
              var c1 := first.value;
              c1.log != [] &&
              var r := c1.log[|c1.log| - 1];
              RevertEvent(c1.log, c1, project, id, cap, st2) == Err(Refuse(NotNewest)) &&
              PlanRevert(c1.log, project, st.uid, cap) == Ok(Plan(ref, r, Some(target))) &&
              (RevertEvent(c1.log, c1, project, st.uid, cap, st2).Ok? <==>
                 !UidTaken(c1.log, st2.uid) && MayRevert(c1, project, ref, [r, target]))
  {
    hide RefFor, Trim, Blank, History, IsSpace, Dense, RowsKeyed, LogFull, UniqueIds, MayRevert, UidTaken, RevertEvent,
         Find, OfKind, OneRecord, RowPayload, PlanRevert, Restored, Targets;
    if RevertEvent(c.log, c, project, id, cap, st).Ok? {
      RevertRestores(c, project, id, target, ref, cap, st);
      RevertKeeps(c, project, id, cap, st);
      var c1 := RevertEvent(c.log, c, project, id, cap, st).value;
      TargetIsSet(c, project, id, target, ref);
      FirstRevert(c, c1, project, ref, cap, st);
      var h, r := History(c.log, project, ref), c1.log[|c.log|];
      PlanIs(c1.log, project, st.uid, r, ref, cap);
      RevertRestores(c1, project, st.uid, r, ref, cap, st2);
      MayRevertLooksAtTwo(c1, project, ref, [r] + h, [r, target]);
      StillFound(c, c1, project, id, target, ref, r, cap, st2);
    }
  }

  lemma TargetIsSet(c: Config, project: string, id: string, target: Record, ref: EntityRef)
    requires Targets(c.log, project, id, target, ref)
    ensures !Blank(project) && !Blank(id)
  {
  }

  lemma MayRevertLooksAtTwo(c: Config, project: string, ref: EntityRef, h: seq<Record>, g: seq<Record>)
    requires |h| > 1 && |g| > 1 && h[0] == g[0] && h[1] == g[1]
    ensures MayRevert(c, project, ref, h) <==> MayRevert(c, project, ref, g)
  {
  }

  // The original is still found, and is no longer the newest.
  lemma StillFound(c: Config, c1: Config, project: string, id: string, target: Record, ref: EntityRef, r: Record,
                   cap: nat, st2: Stamp)
    requires Inv(c1) && Targets(c.log, project, id, target, ref) && Rowed(ref.kind) && PlainKey(ref)
    requires c1.log == c.log + [r] && History(c1.log, project, ref) == [r] + History(c.log, project, ref)
    requires |OfKind(c1.log, project, ref.kind)| <= cap
    ensures RevertEvent(c1.log, c1, project, id, cap, st2) == Err(Refuse(NotNewest))
  {
    hide RefFor, Trim, Blank, History, IsSpace, Dense, RowsKeyed, LogFull, AllAgree, RevertEvent, Find, OfKind;
    FindIs(c.log, project, id);
    FindUnique(c1.log, project, target);
    var n := |c.log|;
    var i :| 0 <= i < n && c.log[i] == target;
    assert c1.log[i] == target && c1.log[n] == r;
    assert r != target by { Distinct(c1.log, i, n); }
    RevertRestores(c1, project, id, target, ref, cap, st2);
  }

  lemma Distinct(log: seq<Record>, i: nat, j: nat)
    requires UniqueIds(log) && i < j < |log|
    ensures log[i] != log[j]
  {
  }

  // The record the first revert appended.
  predicate FirstRecord(c: Config, project: string, ref: EntityRef, h: seq<Record>, r: Record)
    requires h != []
  {
    if IsDelete(h[0].action) then !IsDelete(r.action) && r.payload == h[0].payload
    else if |h| == 1 then IsDelete(r.action) && RowPayload(c, project, ref) == Some(r.payload)
    else !IsDelete(r.action) && r.payload == h[1].payload
  }

  lemma SecondRevert(c: Config, c1: Config, c2: Config, project: string, ref: EntityRef, st: Stamp, h: seq<Record>,
                     r: Record)
    requires Rowed(ref.kind) && Agrees(c, project, ref) && h == History(c.log, project, ref) && h != []
    requires FirstRecord(c, project, ref, h, r) && Restored(c1, c2, project, ref, [r] + h, st)
    ensures RowPayload(c2, project, ref) == RowPayload(c, project, ref) <==> !IsDelete(h[0].action)
    ensures IsDelete(h[0].action) ==> RowPayload(c2, project, ref) == Some(h[0].payload)
  {
    hide RefFor, Trim, Blank, History, OneRecord, RowPayload;
    assert ([r] + h)[0] == r && ([r] + h)[1] == h[0];
  }

  // ---- a change that lands between the read and the transaction ----

  // The chain was read from `seen`; by the time of the write a later change `q` of the same entity had landed. The
  // revert is not refused, and `q` is gone from the row.
  lemma RaceErases(seen: seq<Record>, now: Config, project: string, id: string, target: Record, ref: EntityRef,
                   cap: nat, st: Stamp, q: Payload)
    requires LogFull(seen) && UniqueIds(seen) && RowsKeyed(now)
    requires Targets(seen, project, id, target, ref) && Rowed(ref.kind) && PlainKey(ref)
    requires |OfKind(seen, project, ref.kind)| <= cap
    ensures var h := History(seen, project, ref);
            |h| > 1 && h[0] == target && !IsDelete(target.action) && h[1].payload != q &&
            RowPayload(now, project, ref) == Some(q) && !UidTaken(now.log, st.uid) &&
            (ref.kind == SubscriptionKind ==> HasWorker(now, project, h[1])) ==>
              var res := RevertEvent(seen, now, project, id, cap, st);
              res.Ok? && RowPayload(res.value, project, ref) == Some(h[1].payload) &&
              RowPayload(res.value, project, ref) != Some(q)
  {
    hide RefFor, Trim, Blank, History, IsSpace, LogFull, UniqueIds, UidTaken, RevertEvent, Find, OfKind, OneRecord,
         HasWorker, RowsKeyed, PayloadOf;
    RevertWritesWhatItRead(seen, now, project, id, target, ref, cap, st);
  }

  // ---- a chain the reader cannot find ----

  // An empty chain counts as "the newest change, with nothing before it": reverting any record of the entity that is
  // not a delete, newest or not, removes the row.
  lemma EmptyChainRemoves(c: Config, project: string, id: string, target: Record, ref: EntityRef, cap: nat, st: Stamp)
    requires RowsKeyed(c) && Targets(c.log, project, id, target, ref) && Rowed(ref.kind) && !IsDelete(target.action)
    requires Chain(c.log, project, Render(ref), cap) == Ok([])
    requires !UidTaken(c.log, st.uid) && RowPayload(c, project, ref).Some?
    ensures var res := RevertEvent(c.log, c, project, id, cap, st);
            res.Ok? && Removed(c, res.value, project, ref, st)
  {
    hide RefFor, Trim, Blank, IsSpace, RowsKeyed, UidTaken, Find, Removed, PayloadOf, RemoveRow, Chain, Render;
    RefForIsValid(target);
    RemoveIff(c, project, ref, st);
  }

  // A key with trailing white space is looked up without it. Unless the project has records under that shorter key,
  // every revert of the entity meets an empty chain.
  lemma TrailingSpaceChain(log: seq<Record>, project: string, ref: EntityRef, cap: nat)
    requires ValidRef(ref) && !PlainKey(ref) && History(log, project, EntityRef(ref.kind, TrimRight(ref.key))) == []
    ensures Chain(log, project, Render(ref), cap) == Ok([])
  {
    hide Trim, Blank, IsSpace, OfKind, TrimRight, RefFor;
    ParseRendered(ref);
    var short := EntityRef(ref.kind, TrimRight(ref.key));
    MatchingIn(OfKind(log, project, ref.kind), short);
    NoneMatch(Scan(log, project, ref.kind, cap), short);
  }

  lemma {:induction false} NoneMatch(rs: seq<Record>, ref: EntityRef)
    requires forall r :: r in rs ==> RefFor(r) != Some(ref)
    ensures Matching(rs, ref) == []
  {
    hide RefFor;
    if rs != [] {
      NoneMatch(rs[1..], ref);
    }
  }

  lemma ScanReads(log: seq<Record>, project: string, kind: Kind, cap: nat)
    ensures var all, read := OfKind(log, project, kind), Scan(log, project, kind, cap);
            |read| == (if |all| <= cap then |all| else cap) && forall i :: 0 <= i < |read| ==> read[i] == all[i]
  {
    hide OfKind;
  }

  // The same when the newest `cap` records of the kind all belong to other entities.
  lemma BeyondTheScan(log: seq<Record>, project: string, ref: EntityRef, cap: nat)
    requires ValidRef(ref) && PlainKey(ref)
    requires var all := OfKind(log, project, ref.kind); forall i :: 0 <= i < |all| && i < cap ==>
               RefFor(all[i]) != Some(ref)
    ensures Chain(log, project, Render(ref), cap) == Ok([])
  {
    hide Trim, Blank, IsSpace, RefFor, OfKind;
    RefRoundTrip(ref);
    ScanReads(log, project, ref.kind, cap);
    NoneMatch(Scan(log, project, ref.kind, cap), ref);
  }

  // ---- settings and the prompt inside them ----

  // Reverting a settings write puts back the predecessor's whole row, its prompt included, however many prompt writes
  // have come since: the prompt's own newest record and the row agree afterwards only if it said the same.
  lemma SettingsRevertRewritesPrompt(c: Config, project: string, id: string, target: Record, cap: nat, st: Stamp)
    requires Inv(c) && Targets(c.log, project, id, target, EntityRef(SettingsKind, ""))
    requires |OfKind(c.log, project, SettingsKind)| <= cap && !UidTaken(c.log, st.uid)
    ensures var h := History(c.log, project, EntityRef(SettingsKind, ""));
            |h| > 1 && h[0] == target ==>
              var res := RevertEvent(c.log, c, project, id, cap, st);
              SettingsFrom(h[1].payload).Some? && res.Ok? && SettingsKey(project) in res.value.rows &&
              res.value.rows[SettingsKey(project)] == SettingsFrom(h[1].payload).value &&
              History(res.value.log, project, EntityRef(PromptKind, "")) ==
              History(c.log, project, EntityRef(PromptKind, ""))
  {
    hide RefFor, Trim, Blank, IsSpace, UidTaken, Find, OfKind, Matching, Inv, SettingsFrom, FullRecord, MaxSeq,
         Compensate, History;
    var ref := EntityRef(SettingsKind, "");
    ChainIsHistory(c.log, project, ref, cap);
    var h := History(c.log, project, ref);
    if |h| > 1 && h[0] == target {
      assert LogFull(c.log) by { InvLog(c); }
      HistoryGenuine(c.log, project, ref, 1);
      SettingsRecord(h[1], project);
      SettingsDelete(target, ref);
      SettingsWrite(c, project, Plan(ref, target, Some(h[1])), st, SettingsFrom(h[1].payload).value);
    }
  }

  lemma InvLog(c: Config)
    requires Inv(c)
    ensures LogFull(c.log)
  {
  }

  lemma SettingsWrite(c: Config, project: string, p: Plan, st: Stamp, row: Row)
    requires p.ref == EntityRef(SettingsKind, "") && !IsDelete(p.target.action) && p.previous.Some?
    requires SettingsFrom(p.previous.value.payload) == Some(row) && row.SettingsRow? && row.project == project
    requires !UidTaken(c.log, st.uid)
    ensures var res := Compensate(c, project, p, st);
            res.Ok? && res.value.rows == c.rows[SettingsKey(project) := row] &&
            History(res.value.log, project, EntityRef(PromptKind, "")) ==
              History(c.log, project, EntityRef(PromptKind, ""))
  {
    hide RefFor, Trim, Blank, UidTaken, MaxSeq, History, FullRecord, SettingsFrom;
    var r := Record(st.uid, project, MaxSeq(c.log, project) + 1, ProjectSettingsPut, PayloadOf(row), st.at);
    PutRecord(row, ProjectSettingsPut, MaxSeq(c.log, project) + 1, st);
    HistoryNext(c.log, r, project, EntityRef(PromptKind, ""));
  }

  // Reverting a prompt write changes one column back and nothing else; the first prompt, like the first settings, has
  // nothing before it and is refused.
  lemma PromptRevertRestoresPrompt(c: Config, project: string, id: string, target: Record, cap: nat, st: Stamp)
    requires Inv(c) && Targets(c.log, project, id, target, EntityRef(PromptKind, ""))
    requires |OfKind(c.log, project, PromptKind)| <= cap && !UidTaken(c.log, st.uid) && SettingsKey(project) in c.rows
    ensures var h := History(c.log, project, EntityRef(PromptKind, ""));
            var res := RevertEvent(c.log, c, project, id, cap, st);
            h != [] && h[0] == target ==>
              if |h| == 1 then res == Err(Refuse(NoEarlierState))
              else FSystemPrompt in h[1].payload && h[1].payload[FSystemPrompt].Str? && res.Ok? &&
                   var row := c.rows[SettingsKey(project)];
                   row.SettingsRow? &&
                   res.value.rows ==
                     c.rows[SettingsKey(project) := SettingsRow(project, h[1].payload[FSystemPrompt].text, row.rest)]
  {
    hide RefFor, Trim, Blank, IsSpace, UidTaken, Find, OfKind, Matching, AllAgree, Dense, MaxSeq;
    var ref := EntityRef(PromptKind, "");
    ChainIsHistory(c.log, project, ref, cap);
    var h := History(c.log, project, ref);
    PromptDelete(target, ref);
    if |h| > 1 {
      HistoryGenuine(c.log, project, ref, 1);
    }
  }

  lemma PromptDelete(r: Record, ref: EntityRef)
    requires RefFor(r) == Some(ref) && ref.kind == PromptKind
    ensures !IsDelete(r.action)
  {
    hide Trim, Blank;
    RefForIsValid(r);
  }

  lemma FirstSettingsRefused(c: Config, project: string, id: string, target: Record, cap: nat, st: Stamp)
    requires Inv(c) && Targets(c.log, project, id, target, EntityRef(SettingsKind, ""))
    requires |OfKind(c.log, project, SettingsKind)| <= cap
    ensures History(c.log, project, EntityRef(SettingsKind, "")) == [target] ==>
              RevertEvent(c.log, c, project, id, cap, st) == Err(Refuse(NoEarlierState))
  {
    hide RefFor, Trim, Blank, IsSpace, UidTaken, Find, OfKind, Matching, AllAgree, Dense, MaxSeq;
    var ref := EntityRef(SettingsKind, "");
    ChainIsHistory(c.log, project, ref, cap);
    SettingsDelete(target, ref);
  }

  lemma SettingsRecord(r: Record, project: string)
    requires Genuine(r, project, EntityRef(SettingsKind, ""))
    ensures SettingsFrom(r.payload).Some? && SettingsFrom(r.payload).value.SettingsRow?
    ensures SettingsFrom(r.payload).value.project == project
  {
    hide RefFor, Trim, Blank;
  }

  lemma SettingsDelete(r: Record, ref: EntityRef)
    requires RefFor(r) == Some(ref) && ref.kind == SettingsKind
    ensures !IsDelete(r.action)
  {
    hide Trim, Blank;
    RefForIsValid(r);
  }
}
