/**
 The snapshot reaper (go/snapshot_reaper.go): one pass over a project's expired images, which deletes the bytes and then
 tombstones the record, under failures, with launches between its steps, and with a crash possible before any of them.
 */
module SnapshotReaper {
  import opened Text
  import opened Versions
  import opened Images

  // ---- which images go ----

  predicate Expired(img: Image, now: int) {
    img.expires > 0 && img.expires <= now
  }

  predicate InUse(img: Image, now: int, window: int) {
    window > 0 && img.resumed > 0 && img.resumed + window > now
  }

  predicate Due(img: Image, now: int, window: int) {
    Expired(img, now) && !InUse(img, now, window)
  }

  function Max(a: int, b: int): int {
    if a >= b then a else b
  }

  // Due to go: an expiry was stamped, and both it and the last use's window have passed; without a window, the expiry.
  lemma DueMeansBothPassed(img: Image, now: int, window: int)
    ensures window > 0 ==>
              (Due(img, now, window) <==>
                 img.expires > 0 && Max(img.expires, if img.resumed > 0 then img.resumed + window else 0) <= now)
    ensures window <= 0 ==> (Due(img, now, window) <==> 0 < img.expires <= now)
  {
  }

  // ---- the list ----

  // The driver query: the project's versions that are not tombstoned and were created before the cutoff (a cutoff that
  // is not positive does not narrow).
  predicate Listed(rows: Catalogue, project: string, cutoff: int, k: Key) {
    k in rows && k.name.project == project && k.version > 0 && rows[k].reaped == 0 &&
    (cutoff > 0 ==> rows[k].created < cutoff)
  }

  // A row as it was when it was listed. The pass decides by this copy.
  datatype Item = Item(k: Key, img: Image)

  predicate OnList(stale: seq<Item>, k: Key) {
    exists i :: 0 <= i < |stale| && stale[i].k == k
  }

  predicate Copies(rows: Catalogue, stale: seq<Item>) {
    forall i :: 0 <= i < |stale| ==> stale[i].k in rows && stale[i].img == rows[stale[i].k]
  }

  ghost predicate IsListing(rows: Catalogue, project: string, cutoff: int, stale: seq<Item>) {
    && Copies(rows, stale)
    && (forall k :: OnList(stale, k) <==> Listed(rows, project, cutoff, k))
    && (forall i, j :: 0 <= i < j < |stale| ==> stale[i].k != stale[j].k)
  }

  // ---- what happens meanwhile ----

  // A session launched from an image, stamped on its row.
  datatype Launch = Launch(k: Key, at: int)

  function LaunchOne(rows: Catalogue, l: Launch): Catalogue {
    if l.k in rows then rows[l.k := rows[l.k].(resumed := l.at)] else rows
  }

  function Launched(rows: Catalogue, ls: seq<Launch>): Catalogue {
    if ls == [] then rows else LaunchOne(Launched(rows, ls[..|ls| - 1]), ls[|ls| - 1])
  }

  // ---- one pass ----

  // The catalogue, the bytes the registry holds, and how many more external calls run before the crash.
  datatype World = World(rows: Catalogue, bytes: set<nat>, budget: nat)

  datatype Report = Report(scanned: nat, reaped: nat, kept: nat, deferred: nat, errors: nat)

  // Registry and store calls that fail, if they are made.
  datatype Faults = Faults(removals: set<nat>, marks: set<Key>)

  datatype Pass = Pass(w: World, rep: Report, crashed: bool)

  // reapOne: bytes first, then the record.
  function ReapOne(p: Pass, item: Item, now: int, f: Faults): Pass {
    match item.img.pointer
    case Garbled => p.(rep := p.rep.(errors := p.rep.errors + 1))
    case Stored(h) =>
      if p.w.budget == 0 then p.(crashed := true)
      else
        var w := p.w.(budget := p.w.budget - 1);
        if h in f.removals then Pass(w, p.rep.(errors := p.rep.errors + 1), false)
        else Mark(Pass(w.(bytes := w.bytes - {h}), p.rep, false), item.k, now, f)
    case _ => Mark(p, item.k, now, f)
  }

  // The record is marked as it is now; a row that is gone is an error.
  function Mark(p: Pass, k: Key, now: int, f: Faults): Pass {
    if p.w.budget == 0 then p.(crashed := true)
    else
      var w := p.w.(budget := p.w.budget - 1);
      if k in f.marks || k !in w.rows then Pass(w, p.rep.(errors := p.rep.errors + 1), false)
      else Pass(w.(rows := w.rows[k := Tombstoned(w.rows[k], now)]), p.rep.(reaped := p.rep.reaped + 1), false)
  }

  function Visit(p: Pass, item: Item, now: int, window: int, f: Faults): Pass {
    if !Expired(item.img, now) then p.(rep := p.rep.(kept := p.rep.kept + 1))
    else if InUse(item.img, now, window) then p.(rep := p.rep.(deferred := p.rep.deferred + 1))
    else ReapOne(p, item, now, f)
  }

  // The launches since the visit before, then the visit.
  function Turn(p: Pass, item: Item, ls: seq<Launch>, now: int, window: int, f: Faults): Pass {
    if p.crashed then p else Visit(p.(w := p.w.(rows := Launched(p.w.rows, ls))), item, now, window, f)
  }

  // `meanwhile[i]` is launched just before item `i` is visited.
  function Visited(p: Pass, stale: seq<Item>, meanwhile: seq<seq<Launch>>, now: int, window: int, f: Faults): Pass
    requires |meanwhile| == |stale|
  {
    if stale == [] then p
    else
      var n := |stale| - 1;
      Turn(Visited(p, stale[..n], meanwhile[..n], now, window, f), stale[n], meanwhile[n], now, window, f)
  }

  function Start(w: World, scanned: nat): Pass {
    Pass(w, Report(scanned, 0, 0, 0, 0), false)
  }

  class Reaper {
    var rows: Catalogue
    var bytes: set<nat>
    var budget: nat

    function Contents(): World
      reads this
    {
      World(rows, bytes, budget)
    }

    method ReapOneImage(item: Item, now: int, f: Faults, rep: Report) returns (next: Report, crashed: bool)
      modifies this
      ensures Pass(Contents(), next, crashed) == ReapOne(Pass(old(Contents()), rep, false), item, now, f)
    {
      match item.img.pointer {
        case Garbled => return rep.(errors := rep.errors + 1), false;
        case Stored(h) =>
          if budget == 0 {
            return rep, true;
          }
          budget := budget - 1;
          if h in f.removals {
            return rep.(errors := rep.errors + 1), false;
          }
          bytes := bytes - {h};
        case _ =>
      }
      if budget == 0 {
        return rep, true;
      }
      budget := budget - 1;
      if item.k in f.marks || item.k !in rows {
        return rep.(errors := rep.errors + 1), false;
      }
      rows := rows[item.k := Tombstoned(rows[item.k], now)];
      return rep.(reaped := rep.reaped + 1), false;
    }

    // `stale` is what the query answers. With no retention window the project is not even listed.
    method ReapProject(
        project: string, ttlDays: int, now: int, stale: seq<Item>, meanwhile: seq<seq<Launch>>, f: Faults)
      returns (rep: Report, crashed: bool)
      requires |meanwhile| == |stale|
      requires ttlDays > 0 ==> IsListing(rows, project, now - ttlDays * DAY, stale)
      modifies this
      ensures ttlDays <= 0 ==> Contents() == old(Contents()) && rep == Report(0, 0, 0, 0, 0) && !crashed
      ensures ttlDays > 0 ==>
                Pass(Contents(), rep, crashed) ==
                Visited(Start(old(Contents()), |stale|), stale, meanwhile, now, ttlDays * DAY, f)
    {
      rep, crashed := Report(0, 0, 0, 0, 0), false;
      if ttlDays <= 0 {
        return;
      }
      var window := ttlDays * DAY;
      rep := rep.(scanned := |stale|);
      ghost var p0 := Start(Contents(), |stale|);
      for i := 0 to |stale|
        invariant !crashed && Pass(Contents(), rep, false) == Visited(p0, stale[..i], meanwhile[..i], now, window, f)
      {
        assert stale[..i + 1][..i] == stale[..i] && meanwhile[..i + 1][..i] == meanwhile[..i];
        rows := Launched(rows, meanwhile[i]);
        var item := stale[i];
        if !Expired(item.img, now) {
          rep := rep.(kept := rep.kept + 1);
        } else if InUse(item.img, now, window) {
          rep := rep.(deferred := rep.deferred + 1);
        } else {
          rep, crashed := ReapOneImage(item, now, f, rep);
          if crashed {
            CrashEndsIt(p0, stale, meanwhile, i + 1, now, window, f);
            return;
          }
        }
      }
      assert stale[..|stale|] == stale && meanwhile[..|stale|] == meanwhile;
    }
  }

  lemma {:induction false} CrashEndsIt(
      p: Pass, stale: seq<Item>, meanwhile: seq<seq<Launch>>, i: nat, now: int, window: int, f: Faults)
    requires |meanwhile| == |stale| && i <= |stale| && Visited(p, stale[..i], meanwhile[..i], now, window, f).crashed
    ensures Visited(p, stale, meanwhile, now, window, f) == Visited(p, stale[..i], meanwhile[..i], now, window, f)
  {
    if i == |stale| {
      assert stale[..i] == stale && meanwhile[..i] == meanwhile;
    } else {
      var n := |stale| - 1;
      assert stale[..n][..i] == stale[..i] && meanwhile[..n][..i] == meanwhile[..i];
      CrashEndsIt(p, stale[..n], meanwhile[..n], i, now, window, f);
    }
  }
}
