/** ReapDatasetVersions (go/agentdb/datasets.go): one sweep over the versions beyond the newest few of each name. */
module DatasetReaper {
  import opened Text
  import opened Versions
  import opened Datasets

  const PREFIX := "_datasets/bytes/"

  predicate Ours(path: string) {
    PREFIX <= path
  }

  datatype Failure = BlobFailed(k: Key) | RowFailed(k: Key)

  // Which deletions fail, if they are attempted.
  datatype Faults = Faults(blobs: set<string>, rows: set<Key>)

  datatype Sweep = Sweep(
    rows: Table,
    blobs: set<string>,
    stopped: set<Name>,
    deleted: nat,
    firstErr: Option<Failure>,
    halted: Option<Failure>)     // the row deletion that ended the sweep

  // One candidate: blob before row. A failed blob stops its name; a failed row stops everything.
  function Tried(s: Sweep, k: Key, f: Faults): Sweep {
    if s.halted.Some? || k.name in s.stopped || k !in s.rows || !Ours(s.rows[k].blob) then s
    else
      var blob := s.rows[k].blob;
      if blob in f.blobs then
        s.(stopped := s.stopped + {k.name}, firstErr := if s.firstErr.None? then Some(BlobFailed(k)) else s.firstErr)
      else if k in f.rows then s.(blobs := s.blobs - {blob}, halted := Some(RowFailed(k)))
      else s.(rows := s.rows - {k}, blobs := s.blobs - {blob}, deleted := s.deleted + 1)
  }

  function Swept(s: Sweep, cands: seq<Key>, f: Faults): Sweep {
    if cands == [] then s else Tried(Swept(s, cands[..|cands| - 1], f), cands[|cands| - 1], f)
  }

  function Start(rows: Table, blobs: set<string>): Sweep {
    Sweep(rows, blobs, {}, 0, None, None)
  }

  function Reported(s: Sweep): Option<Failure> {
    if s.halted.Some? then s.halted else s.firstErr
  }

  // How many versions of the name are higher.
  function Higher(rows: Table, k: Key): set<Key> {
    set j | j in rows && j.name == k.name && j.version > k.version
  }

  // The query's answer: the versions with at least `keep` higher ones, each once, a name's lower versions first.
  ghost predicate Candidates(rows: Table, keep: nat, cands: seq<Key>) {
    && (forall k :: k in cands <==> k in rows && |Higher(rows, k)| >= keep)
    && (forall i, j :: 0 <= i < j < |cands| && cands[i].name == cands[j].name ==> cands[i].version < cands[j].version)
  }

  class Store {
    var rows: Table
    var blobs: set<string>

    method Reap(keepPerName: int, cands: seq<Key>, f: Faults) returns (deleted: nat, err: Option<Failure>)
      requires keepPerName > 0 ==> Candidates(rows, keepPerName, cands)
      modifies this
      ensures keepPerName <= 0 ==> rows == old(rows) && blobs == old(blobs) && deleted == 0 && err == None
      ensures keepPerName > 0 ==>
                var s := Swept(Start(old(rows), old(blobs)), cands, f);
                rows == s.rows && blobs == s.blobs && deleted == s.deleted && err == Reported(s)
    {
      if keepPerName <= 0 {
        return 0, None;
      }
      deleted := 0;
      var firstErr: Option<Failure> := None;
      var stopped: set<Name> := {};
      ghost var s0 := Start(rows, blobs);
      for i := 0 to |cands|
        invariant Swept(s0, cands[..i], f) == Sweep(rows, blobs, stopped, deleted, firstErr, None)
        invariant forall j :: i <= j < |cands| ==> cands[j] in rows
      {
        var k := cands[i];
        assert cands[..i + 1][..i] == cands[..i];
        assert forall j :: i < j < |cands| ==> cands[j] != k;
        if k.name in stopped {
          continue;
        }
        var blob := rows[k].blob;
        if !Ours(blob) {
          continue;
        }
        if blob in f.blobs {
          stopped := stopped + {k.name};
          if firstErr == None {
            firstErr := Some(BlobFailed(k));
          }
          continue;
        }
        blobs := blobs - {blob};
        if k in f.rows {
          Halts(s0, cands, i + 1, f);
          return deleted, Some(RowFailed(k));
        }
        rows := rows - {k};
        deleted := deleted + 1;
      }
      assert cands[..|cands|] == cands;
      return deleted, firstErr;
    }
  }

  // After the failed row nothing more is tried.
  lemma {:induction false} Halts(s: Sweep, cands: seq<Key>, i: nat, f: Faults)
    requires i <= |cands| && Swept(s, cands[..i], f).halted.Some?
    ensures Swept(s, cands, f) == Swept(s, cands[..i], f)
  {
    if i == |cands| {
      assert cands[..i] == cands;
    } else {
      assert cands[..|cands| - 1][..i] == cands[..i];
      Halts(s, cands[..|cands| - 1], i, f);
    }
  }

  // ---- what a sweep does ----

  // Rows only go, one for each one counted, each of them a candidate of ours whose blob went first; every blob that
  // went is a candidate's.
  predicate Sound(s: Sweep, t: Sweep, cands: seq<Key>) {
    && t.rows.Keys <= s.rows.Keys && (forall k :: k in t.rows ==> t.rows[k] == s.rows[k])
    && t.deleted - s.deleted == |s.rows| - |t.rows|
    && (forall k :: k in s.rows && k !in t.rows ==> k in cands && Ours(s.rows[k].blob) && s.rows[k].blob !in t.blobs)
    && t.blobs <= s.blobs
    && (forall b :: b in s.blobs && b !in t.blobs ==>
          Ours(b) && exists k :: k in cands && k in s.rows && s.rows[k].blob == b)
  }

  lemma TriedSound(s: Sweep, k: Key, f: Faults)
    ensures Sound(s, Tried(s, k, f), [k])
  {
    var t := Tried(s, k, f);
    if t.rows != s.rows {
      assert t.rows.Keys == s.rows.Keys - {k};
      assert |s.rows| == |s.rows.Keys| && |t.rows| == |t.rows.Keys|;
    }
  }

  lemma {:induction false} SweptSound(s: Sweep, cands: seq<Key>, f: Faults)
    ensures Sound(s, Swept(s, cands, f), cands)
  {
    hide Tried;
    if cands != [] {
      var front, k := cands[..|cands| - 1], cands[|cands| - 1];
      SweptSound(s, front, f);
      TriedSound(Swept(s, front, f), k, f);
      SoundJoins(s, Swept(s, front, f), Swept(s, cands, f), front, k);
    }
  }

  lemma SoundJoins(s: Sweep, m: Sweep, t: Sweep, front: seq<Key>, k: Key)
    requires Sound(s, m, front) && Sound(m, t, [k])
    ensures Sound(s, t, front + [k])
  {
    assert forall j :: j in front + [k] <==> j in front || j == k;
    forall j | j in s.rows && j !in t.rows
      ensures j in front + [k] && Ours(s.rows[j].blob) && s.rows[j].blob !in t.blobs
    {
      if j in m.rows {
        assert j in [k];
      }
    }
    forall b | b in s.blobs && b !in t.blobs
      ensures Ours(b) && exists j :: j in front + [k] && j in s.rows && s.rows[j].blob == b
    {
      if b in m.blobs {
        var j :| j in [k] && j in m.rows && m.rows[j].blob == b;
        assert j in front + [k] && s.rows[j].blob == b;
      } else {
        var j :| j in front && j in s.rows && s.rows[j].blob == b;
        assert j in front + [k];
      }
    }
  }

  // The sweep never removes any of a name's `keep` highest versions, whatever fails.
  lemma KeepsTheHighest(rows: Table, blobs: set<string>, keep: nat, cands: seq<Key>, f: Faults, k: Key)
    requires Candidates(rows, keep, cands) && k in rows && |Higher(rows, k)| < keep
    ensures k in Swept(Start(rows, blobs), cands, f).rows
  {
    hide Swept, Higher;
    SweptSound(Start(rows, blobs), cands, f);
  }

  // A sweep that reports no error removed every candidate of ours.
  lemma {:induction false} NoErrorMeansAllGone(rows: Table, blobs: set<string>, cands: seq<Key>, f: Faults)
    ensures var s := Swept(Start(rows, blobs), cands, f);
            Reported(s) == None ==>
              s.stopped == {} && forall k :: k in cands && k in rows && Ours(rows[k].blob) ==> k !in s.rows
  {
    hide Ours;
    if cands != [] {
      var front, k := cands[..|cands| - 1], cands[|cands| - 1];
      NoErrorMeansAllGone(rows, blobs, front, f);
      SweptSound(Start(rows, blobs), front, f);
      assert forall j :: j in cands <==> j in front || j == k;
    }
  }

  // Once a blob of a name could not be deleted, no higher version of that name is removed in this sweep.
  lemma {:induction false} FailedBlobStopsItsName(rows: Table, blobs: set<string>, keep: nat, cands: seq<Key>,
                                                  f: Faults, i: nat, j: nat)
    requires Candidates(rows, keep, cands) && i <= j < |cands|
    requires cands[j].name in Swept(Start(rows, blobs), cands[..i], f).stopped
    ensures cands[j].name in Swept(Start(rows, blobs), cands, f).stopped &&
            cands[j] in Swept(Start(rows, blobs), cands, f).rows
  {
    StoppedStays(rows, blobs, cands, f, cands[j], i, |cands|, j);
    assert cands[..|cands|] == cands;
  }

  lemma {:induction false} StoppedStays(rows: Table, blobs: set<string>, cands: seq<Key>, f: Faults, k: Key,
                                        i: nat, m: nat, j: nat)
    requires i <= m <= |cands| && i <= j < |cands| && cands[j] == k && k in rows
    requires forall x, y :: 0 <= x < y < |cands| && cands[x].name == cands[y].name ==>
               cands[x].version < cands[y].version
    requires k.name in Swept(Start(rows, blobs), cands[..i], f).stopped
    ensures k.name in Swept(Start(rows, blobs), cands[..m], f).stopped &&
            k in Swept(Start(rows, blobs), cands[..m], f).rows
    decreases m
  {
    if m == i {
      SweptSound(Start(rows, blobs), cands[..i], f);
      assert forall x :: 0 <= x < i ==> cands[x] != k;
      assert k !in cands[..i];
    } else {
      assert cands[..m][..m - 1] == cands[..m - 1];
      StoppedStays(rows, blobs, cands, f, k, i, m - 1, j);
    }
  }

  // ---- the outcome, from the rows and the faults alone ----

  predicate BlobFails(rows: Table, f: Faults, k: Key) {
    k in rows && Ours(rows[k].blob) && rows[k].blob in f.blobs
  }

  predicate RowFails(rows: Table, f: Faults, k: Key) {
    k in rows && Ours(rows[k].blob) && rows[k].blob !in f.blobs && k in f.rows
  }

  // An earlier candidate of the name is ours and its blob could not be deleted.
  predicate NameFailed(rows: Table, f: Faults, cands: seq<Key>, n: Name) {
    exists j :: 0 <= j < |cands| && cands[j].name == n && BlobFails(rows, f, cands[j])
  }

  // The candidate whose row could not be deleted ends the sweep, unless its name had failed already.
  predicate Stops(rows: Table, f: Faults, cands: seq<Key>, j: nat) {
    j < |cands| && RowFails(rows, f, cands[j]) && !NameFailed(rows, f, cands[..j], cands[j].name)
  }

  predicate Stopped(rows: Table, f: Faults, cands: seq<Key>) {
    exists j :: 0 <= j < |cands| && Stops(rows, f, cands, j)
  }

  // The candidate is reached, is ours, and neither deletion fails.
  predicate Goes(rows: Table, f: Faults, cands: seq<Key>, i: nat)
    requires i < |cands|
  {
    cands[i] in rows && Ours(rows[cands[i]].blob) && !BlobFails(rows, f, cands[i]) && !RowFails(rows, f, cands[i]) &&
    !NameFailed(rows, f, cands[..i], cands[i].name) && !Stopped(rows, f, cands[..i])
  }

  // Its blob is deleted, whether or not its row is then.
  predicate BlobGoes(rows: Table, f: Faults, cands: seq<Key>, i: nat)
    requires i < |cands|
  {
    cands[i] in rows && Ours(rows[cands[i]].blob) && !BlobFails(rows, f, cands[i]) &&
    !NameFailed(rows, f, cands[..i], cands[i].name) && !Stopped(rows, f, cands[..i])
  }

  predicate Distinct(cands: seq<Key>) {
    forall i, j :: 0 <= i < j < |cands| ==> cands[i] != cands[j]
  }

  ghost predicate OutcomeIs(rows: Table, f: Faults, cands: seq<Key>, s: Sweep) {
    && s.rows.Keys <= rows.Keys && (forall k :: k in s.rows ==> s.rows[k] == rows[k])
    && (forall k :: k in rows && k !in cands ==> k in s.rows)
    && (forall i :: 0 <= i < |cands| && cands[i] in rows ==> (cands[i] !in s.rows <==> Goes(rows, f, cands, i)))
    && (s.halted.Some? <==> Stopped(rows, f, cands))
    && (forall i :: 0 <= i < |cands| && cands[i] in rows && BlobGoes(rows, f, cands, i) ==>
          rows[cands[i]].blob !in s.blobs)
    && (!Stopped(rows, f, cands) ==> forall n :: n in s.stopped <==> NameFailed(rows, f, cands, n))
  }

  lemma NameFailedNext(rows: Table, f: Faults, cands: seq<Key>, k: Key, n: Name)
    ensures NameFailed(rows, f, cands + [k], n) <==>
              NameFailed(rows, f, cands, n) || (k.name == n && BlobFails(rows, f, k))
  {
    hide BlobFails;
    var next := cands + [k];
    if NameFailed(rows, f, cands, n) {
      var j :| 0 <= j < |cands| && cands[j].name == n && BlobFails(rows, f, cands[j]);
      assert next[j] == cands[j];
    }
    assert next[|cands|] == k;
  }

  lemma StoppedNext(rows: Table, f: Faults, cands: seq<Key>, k: Key)
    ensures Stopped(rows, f, cands + [k]) <==>
              Stopped(rows, f, cands) || (RowFails(rows, f, k) && !NameFailed(rows, f, cands, k.name))
  {
    hide RowFails, NameFailed;
    var next := cands + [k];
    assert next[..|cands|] == cands && next[|cands|] == k;
    assert forall j :: 0 <= j < |cands| ==> next[..j] == cands[..j] && next[j] == cands[j];
    assert forall j :: 0 <= j < |cands| ==> (Stops(rows, f, next, j) <==> Stops(rows, f, cands, j));
    assert Stops(rows, f, next, |cands|) <==> RowFails(rows, f, k) && !NameFailed(rows, f, cands, k.name);
  }

  lemma GoesNext(rows: Table, f: Faults, cands: seq<Key>, k: Key, i: nat)
    requires i <= |cands|
    ensures Goes(rows, f, cands + [k], i) <==>
              if i < |cands| then Goes(rows, f, cands, i)
              else k in rows && Ours(rows[k].blob) && !BlobFails(rows, f, k) && !RowFails(rows, f, k) &&
                   !NameFailed(rows, f, cands, k.name) && !Stopped(rows, f, cands)
    ensures BlobGoes(rows, f, cands + [k], i) <==>
              if i < |cands| then BlobGoes(rows, f, cands, i)
              else k in rows && Ours(rows[k].blob) && !BlobFails(rows, f, k) &&
                   !NameFailed(rows, f, cands, k.name) && !Stopped(rows, f, cands)
  {
    var next := cands + [k];
    assert i < |cands| ==> next[..i] == cands[..i] && next[i] == cands[i];
    assert next[..|cands|] == cands;
  }

  lemma NextOutcome(rows: Table, f: Faults, cands: seq<Key>, k: Key, s: Sweep)
    requires OutcomeIs(rows, f, cands, s) && k in rows && k !in cands
    ensures OutcomeIs(rows, f, cands + [k], Tried(s, k, f))
  {
    hide NameFailed, Stopped, Goes, BlobGoes, Ours;
    var next, t := cands + [k], Tried(s, k, f);
    forall i | 0 <= i < |next| && next[i] in rows && BlobGoes(rows, f, next, i)
      ensures rows[next[i]].blob !in t.blobs
    {
      GoesNext(rows, f, cands, k, i);
      assert i < |cands| ==> next[i] == cands[i];
    }
    StoppedNext(rows, f, cands, k);
    NameFailedNext(rows, f, cands, k, k.name);
    forall i | 0 <= i < |next| && next[i] in rows ensures next[i] !in t.rows <==> Goes(rows, f, next, i) {
      GoesNext(rows, f, cands, k, i);
      if i < |cands| {
        assert next[i] == cands[i] && cands[i] in cands;
      }
    }
    forall n ensures NameFailed(rows, f, next, n) <==>
        NameFailed(rows, f, cands, n) || (k.name == n && BlobFails(rows, f, k)) {
      NameFailedNext(rows, f, cands, k, n);
    }
    assert forall x :: x in rows && x !in next ==> x !in cands && x != k;
  }

  // Of every sweep: a candidate's row goes exactly if it is ours, both its deletions succeed, no blob of its name
  // failed before it, and no row did; no other row goes.
  lemma {:induction false} SweptIs(rows: Table, blobs: set<string>, cands: seq<Key>, f: Faults)
    requires Distinct(cands) && forall k :: k in cands ==> k in rows
    ensures OutcomeIs(rows, f, cands, Swept(Start(rows, blobs), cands, f))
  {
    hide Tried, OutcomeIs;
    if cands == [] {
      NothingSwept(rows, blobs, f);
    } else {
      var front, k := cands[..|cands| - 1], cands[|cands| - 1];
      assert k !in front;
      SweptIs(rows, blobs, front, f);
      NextOutcome(rows, f, front, k, Swept(Start(rows, blobs), front, f));
      assert front + [k] == cands;
    }
  }

  lemma NothingSwept(rows: Table, blobs: set<string>, f: Faults)
    ensures OutcomeIs(rows, f, [], Start(rows, blobs))
  {
  }

  // ---- the error it reports ----

  predicate AnyBlobFails(rows: Table, f: Faults, cands: seq<Key>) {
    exists j :: 0 <= j < |cands| && BlobFails(rows, f, cands[j])
  }

  // The failed row that stopped the sweep; or else the first failed blob; or else none.
  ghost predicate ErrorIs(rows: Table, f: Faults, cands: seq<Key>, e: Option<Failure>) {
    if Stopped(rows, f, cands) then
      exists j :: 0 <= j < |cands| && Stops(rows, f, cands, j) && !Stopped(rows, f, cands[..j]) &&
                  e == Some(RowFailed(cands[j]))
    else if AnyBlobFails(rows, f, cands) then
      exists j :: 0 <= j < |cands| && BlobFails(rows, f, cands[j]) && !AnyBlobFails(rows, f, cands[..j]) &&
                  e == Some(BlobFailed(cands[j]))
    else e == None
  }

  lemma AnyBlobFailsNext(rows: Table, f: Faults, cands: seq<Key>, k: Key)
    ensures AnyBlobFails(rows, f, cands + [k]) <==> AnyBlobFails(rows, f, cands) || BlobFails(rows, f, k)
  {
    hide BlobFails;
    var next := cands + [k];
    assert next[|cands|] == k;
    assert forall j :: 0 <= j < |cands| ==> next[j] == cands[j];
  }

  lemma KeepsError(rows: Table, f: Faults, cands: seq<Key>, k: Key, e: Option<Failure>)
    requires ErrorIs(rows, f, cands, e)
    requires Stopped(rows, f, cands) ||
             (!Stopped(rows, f, cands + [k]) && (AnyBlobFails(rows, f, cands) || !BlobFails(rows, f, k)))
    ensures ErrorIs(rows, f, cands + [k], e)
  {
    hide BlobFails, Stopped, AnyBlobFails, RowFails, NameFailed;
    var next := cands + [k];
    AnyBlobFailsNext(rows, f, cands, k);
    StoppedNext(rows, f, cands, k);
    assert forall j :: 0 <= j < |cands| ==> next[..j] == cands[..j] && next[j] == cands[j];
  }

  lemma NewError(rows: Table, f: Faults, cands: seq<Key>, k: Key)
    requires !Stopped(rows, f, cands)
    ensures RowFails(rows, f, k) && !NameFailed(rows, f, cands, k.name) ==>
              ErrorIs(rows, f, cands + [k], Some(RowFailed(k)))
    ensures BlobFails(rows, f, k) && !AnyBlobFails(rows, f, cands) && !Stopped(rows, f, cands + [k]) ==>
              ErrorIs(rows, f, cands + [k], Some(BlobFailed(k)))
  {
    hide BlobFails, Stopped, AnyBlobFails, RowFails, NameFailed;
    var next := cands + [k];
    AnyBlobFailsNext(rows, f, cands, k);
    StoppedNext(rows, f, cands, k);
    assert next[..|cands|] == cands && next[|cands|] == k;
  }

  lemma FailedBlobIsKnown(rows: Table, f: Faults, cands: seq<Key>, n: Name)
    requires NameFailed(rows, f, cands, n)
    ensures AnyBlobFails(rows, f, cands)
  {
  }

  // What a sweep reports.
  lemma {:induction false} ReportedIs(rows: Table, blobs: set<string>, cands: seq<Key>, f: Faults)
    requires Distinct(cands) && forall k :: k in cands ==> k in rows
    ensures ErrorIs(rows, f, cands, Reported(Swept(Start(rows, blobs), cands, f)))
  {
    hide ErrorIs, Stopped, NameFailed, AnyBlobFails, Goes, Ours, BlobFails, RowFails;
    if cands == [] {
      NothingReported(rows, blobs, f);
    } else {
      var front, k := cands[..|cands| - 1], cands[|cands| - 1];
      assert k !in front && front + [k] == cands;
      ReportedIs(rows, blobs, front, f);
      SweptIs(rows, blobs, front, f);
      TriedReports(rows, f, front, k, Swept(Start(rows, blobs), front, f));
    }
  }

  lemma NothingReported(rows: Table, blobs: set<string>, f: Faults)
    ensures ErrorIs(rows, f, [], Reported(Start(rows, blobs)))
  {
  }

  lemma TriedReports(rows: Table, f: Faults, front: seq<Key>, k: Key, s: Sweep)
    requires OutcomeIs(rows, f, front, s) && ErrorIs(rows, f, front, Reported(s)) && k in rows && k !in front
    ensures ErrorIs(rows, f, front + [k], Reported(Tried(s, k, f)))
  {
    hide ErrorIs, Stopped, NameFailed, AnyBlobFails, Goes, Ours;
    if !Stopped(rows, f, front) {
      NewError(rows, f, front, k);
    }
    StoppedNext(rows, f, front, k);
    NoErrorYet(rows, f, front, s);
    if NameFailed(rows, f, front, k.name) {
      FailedBlobIsKnown(rows, f, front, k.name);
    }
    if Stopped(rows, f, front) ||
      (!Stopped(rows, f, front + [k]) && (AnyBlobFails(rows, f, front) || !BlobFails(rows, f, k))) {
      KeepsError(rows, f, front, k, Reported(s));
    }
  }

  lemma NoErrorYet(rows: Table, f: Faults, front: seq<Key>, s: Sweep)
    requires ErrorIs(rows, f, front, Reported(s))
    ensures !Stopped(rows, f, front) ==> (Reported(s) == None <==> !AnyBlobFails(rows, f, front))
  {
    hide Stopped, BlobFails;
  }

  // ---- which versions these are ----

  lemma OursIs(path: string)
    ensures Ours(path) <==> exists rest :: path == PREFIX + rest
  {
    if Ours(path) {
      assert path == PREFIX + path[|PREFIX|..];
    }
  }

  lemma {:induction false} HigherInDense(rows: Table, n: Name, top: nat, v: nat)
    requires v <= top && forall x: nat :: Key(n, x) in rows <==> 1 <= x <= top
    ensures |Higher(rows, Key(n, v))| == top - v
    decreases top - v
  {
    if v == top {
      assert Higher(rows, Key(n, v)) == {};
    } else {
      HigherInDense(rows, n, top, v + 1);
      assert Higher(rows, Key(n, v)) == Higher(rows, Key(n, v + 1)) + {Key(n, v + 1)};
    }
  }

  // Of a name with versions 1 to `top`: a sweep keeps the newest `keep` of them whatever fails, and one that reports no
  // error leaves none of ours below these.
  lemma KeepsTheNewestOfDense(rows: Table, blobs: set<string>, keep: nat, cands: seq<Key>, f: Faults, n: Name, top: nat,
                              v: nat)
    requires Candidates(rows, keep, cands) && keep > 0 && 1 <= v <= top
    requires forall x: nat :: Key(n, x) in rows <==> 1 <= x <= top
    ensures var s := Swept(Start(rows, blobs), cands, f);
            (v + keep > top ==> Key(n, v) in s.rows) &&
            (v + keep <= top && Reported(s) == None && Ours(rows[Key(n, v)].blob) ==> Key(n, v) !in s.rows)
  {
    hide Swept, Higher, Ours;
    HigherInDense(rows, n, top, v);
    if v + keep > top {
      KeepsTheHighest(rows, blobs, keep, cands, f, Key(n, v));
    } else {
      NoErrorMeansAllGone(rows, blobs, cands, f);
      assert Key(n, v) in cands;
    }
  }
}
