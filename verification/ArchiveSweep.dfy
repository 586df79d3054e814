/**
 The archive sweep (go/runner.go): idle sessions are snapshotted and their containers released, with every call the
 sweep makes free to fail.
 */
module ArchiveSweep {
  import opened Text

  type Sid = string

  // ---- one sweep ----

  // `handle` is the snapshot the session's row points at; artifacts are marked lost once, and never back. `creating` is
  // a create in flight, `abandoned` the mark on it.
  datatype Sess = Sess(
    tracked: bool, live: bool, handle: Option<nat>, artifactsLost: bool, pending: nat, held: nat, creating: bool,
    abandoned: bool)

  datatype Answer = NoChecker | Unknown | Present | Absent

  // How each call made for one session ends, in the order they are made. Removal is Env.Destroy; `envAtRelease` is the
  // worker lookup before it.
  datatype Calls = Calls(
    env: bool, canSnapshot: bool, snapshotAllowed: bool, running: bool, envAgain: bool, committed: bool,
    persisted: bool, recorded: bool, handle: nat, answer: Answer, envAtRelease: bool, removed: bool)

  predicate Skipped(s: Sess, c: Calls) {
    s.pending > 0 || s.held > 0 || !c.env || !c.canSnapshot
  }

  // Snapshot stored its handle on the row.
  predicate Recorded(c: Calls) {
    c.snapshotAllowed && c.running && c.envAgain && c.committed && c.persisted && c.recorded
  }

  // ensureRunning brings the container up, or back, before anything is committed.
  function Snapshotted(s: Sess, c: Calls): Sess {
    if !c.snapshotAllowed || !c.running then s
    else
      var up := s.(tracked := true, live := true);
      if Recorded(c) then up.(handle := Some(c.handle)) else up
  }

  // teardownInstance: no worker, no removal, but the session is forgotten all the same.
  function TornDown(s: Sess, c: Calls, lost: bool): Sess {
    if s.tracked && c.envAtRelease && !c.removed then s
    else
      s.(live := s.live && !(s.tracked && c.envAtRelease), tracked := false,
         artifactsLost := s.artifactsLost || lost)
  }

  // Destroy, and not teardownInstance alone: a create in flight is marked first.
  function Destroyed(s: Sess, c: Calls): Sess {
    TornDown(s.(abandoned := s.abandoned || s.creating), c, true)
  }

  function Swept(s: Sess, c: Calls): Sess {
    if Skipped(s, c) then s
    else
      var after := Snapshotted(s, c);
      if Recorded(c) then TornDown(after, c, false)
      else if c.answer == Absent then Destroyed(after, c)
      else after
  }

  class Sweeper {
    var sessions: map<Sid, Sess>

    method Snapshot(sid: Sid, c: Calls) returns (ok: bool)
      requires sid in sessions
      modifies this
      ensures ok == Recorded(c) && sessions == old(sessions)[sid := Snapshotted(old(sessions[sid]), c)]
    {
      if !c.snapshotAllowed || !c.running {
        return false;
      }
      sessions := sessions[sid := sessions[sid].(tracked := true, live := true)];
      if !c.envAgain || !c.committed || !c.persisted || !c.recorded {
        return false;
      }
      sessions := sessions[sid := sessions[sid].(handle := Some(c.handle))];
      return true;
    }

    method Teardown(sid: Sid, c: Calls, lost: bool) returns (ok: bool)
      requires sid in sessions
      modifies this
      ensures sessions == old(sessions)[sid := TornDown(old(sessions[sid]), c, lost)]
      ensures !ok <==> old(sessions[sid]).tracked && c.envAtRelease && !c.removed
      ensures !ok ==> sessions == old(sessions)
    {
      var s := sessions[sid];
      if s.tracked && c.envAtRelease {
        if !c.removed {
          return false;
        }
        s := s.(live := false);
      }
      sessions := sessions[sid := s.(tracked := false, artifactsLost := s.artifactsLost || lost)];
      return true;
    }

    method Destroy(sid: Sid, c: Calls) returns (ok: bool)
      requires sid in sessions
      modifies this
      ensures sessions == old(sessions)[sid := Destroyed(old(sessions[sid]), c)]
      ensures !ok <==> old(sessions[sid]).tracked && c.envAtRelease && !c.removed
    {
      if sessions[sid].creating {
        sessions := sessions[sid := sessions[sid].(abandoned := true)];
      }
      ok := Teardown(sid, c, true);
    }

    // Every idle session fares as if it were alone; every other is as it was, and so is one with events to flush or a
    // turn in flight. Without a timeout nothing is idle.
    method ArchiveIdleOnce(timeout: int, idle: seq<Sid>, calls: map<Sid, Calls>)
      requires forall sid :: sid in idle ==> sid in sessions && sid in calls
      requires forall i, j :: 0 <= i < j < |idle| ==> idle[i] != idle[j]
      modifies this
      ensures sessions.Keys == old(sessions.Keys)
      ensures forall sid :: sid in sessions ==>
                sessions[sid] ==
                if timeout > 0 && sid in idle then Swept(old(sessions[sid]), calls[sid]) else old(sessions[sid])
      ensures forall sid :: sid in sessions && (old(sessions[sid]).pending > 0 || old(sessions[sid]).held > 0) ==>
                sessions[sid] == old(sessions[sid])
    {
      if timeout <= 0 {
        return;
      }
      for i := 0 to |idle|
        invariant sessions.Keys == old(sessions.Keys)
        invariant forall sid :: sid in sessions ==>
                    sessions[sid] ==
                    if sid in idle[..i] then Swept(old(sessions[sid]), calls[sid]) else old(sessions[sid])
      {
        var sid, c := idle[i], calls[idle[i]];
        assert sid !in idle[..i] && idle[..i + 1] == idle[..i] + [sid];
        if Skipped(sessions[sid], c) {
          continue;
        }
        var stored := Snapshot(sid, c);
        if stored {
          var released := Teardown(sid, c, false);
        } else if c.answer == Absent {
          var destroyed := Destroy(sid, c);
        }
      }
      assert idle[..|idle|] == idle;
    }
  }

  // ---- any number of sweeps ----

  function SweptAll(s: Sess, sweeps: seq<Calls>): Sess
    decreases |sweeps|
  {
    if sweeps == [] then s else Swept(SweptAll(s, sweeps[..|sweeps| - 1]), sweeps[|sweeps| - 1])
  }

  // The sweep recorded its snapshot before it released the container.
  predicate Stored(s: Sess, sweeps: seq<Calls>, k: nat) {
    k < |sweeps| && !Skipped(s, sweeps[k]) && Recorded(sweeps[k])
  }

  // The sweep's snapshot failed, and the store definitely answered that the session has no row.
  predicate Orphaned(s: Sess, sweeps: seq<Calls>, k: nat) {
    k < |sweeps| && !Skipped(s, sweeps[k]) && !Recorded(sweeps[k]) && sweeps[k].answer == Absent
  }

  ghost predicate SomeStored(s: Sess, sweeps: seq<Calls>) {
    exists k: nat :: Stored(s, sweeps, k)
  }

  ghost predicate SomeOrphaned(s: Sess, sweeps: seq<Calls>) {
    exists k: nat :: Orphaned(s, sweeps, k)
  }

  // The snapshot of the last sweep that recorded one, if any.
  predicate HandleOf(s: Sess, t: Sess, sweeps: seq<Calls>, k: nat) {
    Stored(s, sweeps, k) && t.handle == Some(sweeps[k].handle) &&
    forall j :: k < j < |sweeps| ==> !Stored(s, sweeps, j)
  }

  ghost predicate HandleIsNewest(s: Sess, t: Sess, sweeps: seq<Calls>) {
    (exists k: nat :: HandleOf(s, t, sweeps, k)) ||
    (t.handle == s.handle && forall j: nat :: !Stored(s, sweeps, j))
  }

  lemma SweptKeepsGuards(s: Sess, c: Calls)
    ensures var t := Swept(s, c); t.pending == s.pending && t.held == s.held && t.creating == s.creating
  {
    hide Recorded, Skipped;
  }

  lemma {:induction false} SweptAllKeepsGuards(s: Sess, sweeps: seq<Calls>)
    ensures var t := SweptAll(s, sweeps); t.pending == s.pending && t.held == s.held && t.creating == s.creating
    decreases |sweeps|
  {
    if sweeps != [] {
      SweptAllKeepsGuards(s, sweeps[..|sweeps| - 1]);
      SweptKeepsGuards(SweptAll(s, sweeps[..|sweeps| - 1]), sweeps[|sweeps| - 1]);
    }
  }

  lemma {:induction false} RowFollowsLastStored(s: Sess, sweeps: seq<Calls>)
    ensures HandleIsNewest(s, SweptAll(s, sweeps), sweeps)
    decreases |sweeps|
  {
    if sweeps != [] {
      var n := |sweeps| - 1;
      var front := sweeps[..n];
      RowFollowsLastStored(s, front);
      SweptAllKeepsGuards(s, front);
      assert forall j: nat :: j < n ==> (Stored(s, sweeps, j) <==> Stored(s, front, j));
      var t := SweptAll(s, sweeps);
      if Stored(s, sweeps, n) {
        assert HandleOf(s, t, sweeps, n);
      } else if k: nat :| HandleOf(s, SweptAll(s, front), front, k) {
        assert HandleOf(s, t, sweeps, k);
      }
    }
  }

  // Sweeps repeated any number of times, whatever fails in them: the row's handle is the snapshot of the last sweep
  // that recorded one; a container that ran is gone only if some sweep recorded its snapshot or found the row
  // definitely absent; and artifacts are marked lost, and a create in flight abandoned, only in the second case.
  lemma {:induction false} SweepsRemoveOnlyStored(s: Sess, sweeps: seq<Calls>)
    ensures var t := SweptAll(s, sweeps);
            HandleIsNewest(s, t, sweeps) &&
            (s.live && !t.live ==> SomeStored(s, sweeps) || SomeOrphaned(s, sweeps)) &&
            ((t.artifactsLost && !s.artifactsLost) || (t.abandoned && !s.abandoned) ==> SomeOrphaned(s, sweeps))
    decreases |sweeps|
  {
    RowFollowsLastStored(s, sweeps);
    if sweeps != [] {
      var n := |sweeps| - 1;
      var front := sweeps[..n];
      SweepsRemoveOnlyStored(s, front);
      SweptAllKeepsGuards(s, front);
      PrefixSweeps(s, front, sweeps);
      assert Stored(s, sweeps, n) ==> SomeStored(s, sweeps);
      assert Orphaned(s, sweeps, n) ==> SomeOrphaned(s, sweeps);
      hide HandleIsNewest, SomeOrphaned, SomeStored;
      RemovedOnlyIfSafe(SweptAll(s, front), sweeps[n]);
    }
  }

  lemma PrefixSweeps(s: Sess, front: seq<Calls>, sweeps: seq<Calls>)
    requires |front| <= |sweeps| && front == sweeps[..|front|]
    ensures SomeOrphaned(s, front) ==> SomeOrphaned(s, sweeps)
    ensures SomeStored(s, front) ==> SomeStored(s, sweeps)
  {
    if k: nat :| Orphaned(s, front, k) {
      assert Orphaned(s, sweeps, k);
    }
    if k: nat :| Stored(s, front, k) {
      assert Stored(s, sweeps, k);
    }
  }

  // One sweep.
  lemma RemovedOnlyIfSafe(s: Sess, c: Calls)
    ensures var t := Swept(s, c);
            (s.live && !t.live ==>
               !Skipped(s, c) &&
               ((Recorded(c) && t.handle == Some(c.handle)) || (!Recorded(c) && c.answer == Absent))) &&
            (t.artifactsLost && !s.artifactsLost ==> !Skipped(s, c) && !Recorded(c) && c.answer == Absent) &&
            (t.abandoned && !s.abandoned ==> !Skipped(s, c) && !Recorded(c) && c.answer == Absent && s.creating) &&
            (!Recorded(c) && c.answer != Absent ==>
               t.handle == s.handle && t.artifactsLost == s.artifactsLost && (s.live ==> t.live) &&
               (s.tracked ==> t.tracked))
  {
  }

  // ---- one sweep, field by field ----

  // The snapshot's calls all succeed.
  predicate SnapshotSucceeds(c: Calls) {
    c.snapshotAllowed && c.running && c.envAgain && c.committed && c.persisted && c.recorded
  }

  // A session with events to flush, with a turn in flight, without a worker or on one that takes no snapshots is left
  // as it is. Of any other a snapshot is attempted: brought up first, its handle recorded if every call of it
  // succeeds. Its container is then removed if the snapshot succeeded or the row is definitely absent, and it is
  // tracked, its worker is there and the removal succeeds.
  lemma SweepOutcome(s: Sess, c: Calls)
    ensures var t := Swept(s, c);
            var up := c.snapshotAllowed && c.running;
            var release := SnapshotSucceeds(c) || c.answer == Absent;
            var orphan := !SnapshotSucceeds(c) && c.answer == Absent;
            if s.pending > 0 || s.held > 0 || !c.env || !c.canSnapshot then t == s
            else
              t.pending == s.pending && t.held == s.held && t.creating == s.creating &&
              t.handle == (if SnapshotSucceeds(c) then Some(c.handle) else s.handle) &&
              (t.live <==> (s.live || up) && !(release && (s.tracked || up) && c.envAtRelease && c.removed)) &&
              (t.tracked <==> (s.tracked || up) && !(release && (!c.envAtRelease || c.removed))) &&
              (t.artifactsLost <==>
                 s.artifactsLost || (orphan && ((!s.tracked && !up) || !c.envAtRelease || c.removed))) &&
              (t.abandoned <==> s.abandoned || (orphan && s.creating))
  {
  }

  // Whatever the sweeps' calls would have answered, and however often it is swept.
  lemma {:induction false} BusyIsLeftAlone(s: Sess, sweeps: seq<Calls>)
    requires s.pending > 0 || s.held > 0
    ensures SweptAll(s, sweeps) == s
    decreases |sweeps|
  {
    if sweeps != [] {
      BusyIsLeftAlone(s, sweeps[..|sweeps| - 1]);
    }
  }

  // When exactly a running container goes.
  lemma RemovedIff(s: Sess, c: Calls)
    requires s.live
    ensures !Swept(s, c).live <==>
            s.pending == 0 && s.held == 0 && c.env && c.canSnapshot && (SnapshotSucceeds(c) || c.answer == Absent) &&
            (s.tracked || (c.snapshotAllowed && c.running)) && c.envAtRelease && c.removed
  {
  }

  // A worker that leaves the fleet between the snapshot and the release: the session is forgotten, its container is
  // not removed, and the sweep reports success.
  lemma ForgottenButRunning(s: Sess, c: Calls)
    requires s.live && !Skipped(s, c) && Recorded(c) && !c.envAtRelease
    ensures Swept(s, c).live && !Swept(s, c).tracked
  {
  }
}
