/** What a reaper pass guarantees, whatever fails, whatever is launched meanwhile, and wherever it crashes. */
module SnapshotReaperTheorems {
  import opened Text
  import opened Versions
  import opened Images
  import opened SnapshotReaper

  // ---- what launches touch ----

  predicate SameButResumed(a: Image, b: Image) {
    b == a.(resumed := b.resumed)
  }

  lemma {:induction false} LaunchesOnlyStamp(rows: Catalogue, ls: seq<Launch>)
    ensures Launched(rows, ls).Keys == rows.Keys
    ensures forall k :: k in rows ==> SameButResumed(rows[k], Launched(rows, ls)[k])
  {
    if ls != [] {
      LaunchesOnlyStamp(rows, ls[..|ls| - 1]);
    }
  }

  // The stamp of the last launch from an image, if there was one.
  function LastLaunch(ls: seq<Launch>, k: Key): Option<int> {
    if ls == [] then None
    else if ls[|ls| - 1].k == k then Some(ls[|ls| - 1].at)
    else LastLaunch(ls[..|ls| - 1], k)
  }

  function ResumedAfter(resumed: int, ls: seq<Launch>, k: Key): int {
    match LastLaunch(ls, k)
    case None => resumed
    case Some(at) => at
  }

  lemma {:induction false} LaunchStamps(rows: Catalogue, ls: seq<Launch>, k: Key)
    requires k in rows
    ensures k in Launched(rows, ls) &&
            Launched(rows, ls)[k] == rows[k].(resumed := ResumedAfter(rows[k].resumed, ls, k))
  {
    if ls != [] {
      LaunchStamps(rows, ls[..|ls| - 1], k);
    }
  }

  // ---- bytes before records ----

  // A tombstoned image owns no bytes.
  predicate NoOrphans(w: World) {
    forall k :: k in w.rows && w.rows[k].reaped != 0 && w.rows[k].pointer.Stored? ==>
      w.rows[k].pointer.handle !in w.bytes
  }

  // Where the listed copies point is where their rows point.
  predicate SamePointers(rows: Catalogue, stale: seq<Item>) {
    forall i :: 0 <= i < |stale| ==> stale[i].k in rows && stale[i].img.pointer == rows[stale[i].k].pointer
  }

  // Rows and where they point stay as they are.
  predicate PointersKept(rows: Catalogue, rows': Catalogue) {
    rows'.Keys == rows.Keys && forall k :: k in rows ==> rows'[k].pointer == rows[k].pointer
  }

  lemma VisitNoOrphans(p: Pass, item: Item, now: int, window: int, f: Faults)
    requires NoOrphans(p.w) && item.k in p.w.rows && item.img.pointer == p.w.rows[item.k].pointer
    ensures var q := Visit(p, item, now, window, f); NoOrphans(q.w) && PointersKept(p.w.rows, q.w.rows)
  {
  }

  lemma TurnNoOrphans(p: Pass, item: Item, ls: seq<Launch>, now: int, window: int, f: Faults)
    requires NoOrphans(p.w) && item.k in p.w.rows && item.img.pointer == p.w.rows[item.k].pointer
    ensures var q := Turn(p, item, ls, now, window, f); NoOrphans(q.w) && PointersKept(p.w.rows, q.w.rows)
  {
    hide Visit, Launched;
    LaunchesOnlyStamp(p.w.rows, ls);
    if !p.crashed {
      var m := p.(w := p.w.(rows := Launched(p.w.rows, ls)));
      assert forall k :: k in p.w.rows ==> SameButResumed(p.w.rows[k], m.w.rows[k]);
      VisitNoOrphans(m, item, now, window, f);
    }
  }

  // However many of the steps run before the crash: no tombstoned image still owns bytes.
  lemma {:induction false} PassNoOrphans(
      p: Pass, stale: seq<Item>, meanwhile: seq<seq<Launch>>, now: int, window: int, f: Faults)
    requires NoOrphans(p.w) && |meanwhile| == |stale| && SamePointers(p.w.rows, stale)
    ensures var q := Visited(p, stale, meanwhile, now, window, f);
            NoOrphans(q.w) && PointersKept(p.w.rows, q.w.rows)
  {
    hide Turn, NoOrphans;
    if stale != [] {
      var n := |stale| - 1;
      PassNoOrphans(p, stale[..n], meanwhile[..n], now, window, f);
      TurnNoOrphans(Visited(p, stale[..n], meanwhile[..n], now, window, f), stale[n], meanwhile[n], now, window, f);
    }
  }

  // ---- the life of a catalogue ----

  datatype Event =
    | Burn(k: Key, img: Image)
    | Resume(launch: Launch)
    | Sweep(project: string, stale: seq<Item>, meanwhile: seq<seq<Launch>>, now: int, ttlDays: int, faults: Faults,
            budget: nat)

  // A burn's bytes are its own: no other row has ever pointed at them. A pass is over what its query answers.
  ghost predicate Admissible(w: World, e: Event) {
    match e
    case Burn(k, img) =>
      k !in w.rows && img.reaped == 0 &&
      forall j :: j in w.rows && img.pointer.Stored? ==> w.rows[j].pointer != img.pointer
    case Resume(_) => true
    case Sweep(project, stale, meanwhile, now, ttlDays, _, _) =>
      |meanwhile| == |stale| && ttlDays > 0 && IsListing(w.rows, project, now - ttlDays * DAY, stale)
  }

  function Lived(w: World, e: Event): World
    requires e.Sweep? ==> |e.meanwhile| == |e.stale|
  {
    match e
    case Burn(k, img) =>
      w.(rows := w.rows[k := img], bytes := if img.pointer.Stored? then w.bytes + {img.pointer.handle} else w.bytes)
    case Resume(l) => w.(rows := LaunchOne(w.rows, l))
    case Sweep(_, stale, meanwhile, now, ttlDays, f, budget) =>
      Visited(Start(w.(budget := budget), |stale|), stale, meanwhile, now, ttlDays * DAY, f).w
  }

  ghost predicate Life(w: World, events: seq<Event>)
    decreases |events|
  {
    events == [] || (Admissible(w, events[0]) && Life(Lived(w, events[0]), events[1..]))
  }

  ghost function Outcome(w: World, events: seq<Event>): World
    requires Life(w, events)
    decreases |events|
  {
    if events == [] then w else Outcome(Lived(w, events[0]), events[1..])
  }

  lemma EventNoOrphans(w: World, e: Event)
    requires NoOrphans(w) && Admissible(w, e)
    ensures NoOrphans(Lived(w, e))
  {
    hide Visited;
    if e.Sweep? {
      PassNoOrphans(Start(w.(budget := e.budget), |e.stale|), e.stale, e.meanwhile, e.now, e.ttlDays * DAY, e.faults);
    }
  }

  // Over any history of burns, launches and passes, with launches during the passes, and each pass failing and crashing
  // wherever it likes.
  lemma {:induction false} NeverOrphaned(w: World, events: seq<Event>)
    requires NoOrphans(w) && Life(w, events)
    ensures NoOrphans(Outcome(w, events))
    decreases |events|
  {
    hide Lived, NoOrphans;
    if events != [] {
      EventNoOrphans(w, events[0]);
      NeverOrphaned(Lived(w, events[0]), events[1..]);
    }
  }

  // ---- the receipt ----

  function Handled(r: Report): nat {
    r.reaped + r.kept + r.deferred + r.errors
  }

  lemma {:induction false} Counted(p: Pass, stale: seq<Item>, meanwhile: seq<seq<Launch>>, now: int, window: int,
                                   f: Faults)
    requires |meanwhile| == |stale|
    ensures var q := Visited(p, stale, meanwhile, now, window, f);
            q.rep.scanned == p.rep.scanned && (!q.crashed ==> !p.crashed && Handled(q.rep) == Handled(p.rep) + |stale|)
  {
    hide Launched;
    if stale != [] {
      var n := |stale| - 1;
      Counted(p, stale[..n], meanwhile[..n], now, window, f);
    }
  }

  // Every image the query returned is in the receipt exactly once.
  lemma ReceiptAddsUp(w: World, stale: seq<Item>, meanwhile: seq<seq<Launch>>, now: int, window: int, f: Faults)
    requires |meanwhile| == |stale|
    ensures var p := Visited(Start(w, |stale|), stale, meanwhile, now, window, f);
            !p.crashed ==> p.rep.scanned == |stale| == p.rep.reaped + p.rep.kept + p.rep.deferred + p.rep.errors
  {
    hide Visited;
    Counted(Start(w, |stale|), stale, meanwhile, now, window, f);
  }

  // ---- which due images are listed ----

  // An image that is due is on the list exactly if it was also created before the present window: always if it was
  // burned under a longer retention than the present one, a second after its expiry if under the same one, and only
  // later than its expiry if under a shorter one.
  lemma DueListedIff(rows: Catalogue, project: string, k: Key, ttl: int, ttlDays: int, now: int)
    requires k in rows && k.name.project == project && k.version > 0 && rows[k].reaped == 0
    requires ttlDays > 0 && rows[k].expires == SnapshotExpiry(rows[k].created, ttl)
    ensures var cutoff, img := now - ttlDays * DAY, rows[k];
            Due(img, now, ttlDays * DAY) && cutoff > 0 ==>
              (Listed(rows, project, cutoff, k) <==> img.expires + (ttlDays - ttl) * DAY < now) &&
              (ttl > ttlDays ==> Listed(rows, project, cutoff, k)) &&
              (ttl == ttlDays ==> (Listed(rows, project, cutoff, k) <==> img.expires < now))
    ensures now - ttlDays * DAY <= 0 ==> Listed(rows, project, now - ttlDays * DAY, k)
  {
  }

  // ---- only what is due ----

  // A record changes only by a launch, or by the tombstone of an image that was due as it was listed; bytes go only
  // from such an image.
  predicate OnlyDue(w: World, w': World, stale: seq<Item>, now: int, window: int) {
    && w'.rows.Keys == w.rows.Keys
    && (forall k :: k in w.rows && !SameButResumed(w.rows[k], w'.rows[k]) ==>
          ListedDue(stale, k, now, window) && SameButResumed(w.rows[k].(reaped := now), w'.rows[k]))
    && w'.bytes <= w.bytes
    && (forall h :: h in w.bytes && h !in w'.bytes ==> ListedBytes(stale, h, now, window))
  }

  predicate ListedDue(stale: seq<Item>, k: Key, now: int, window: int) {
    exists i :: 0 <= i < |stale| && stale[i].k == k && Due(stale[i].img, now, window)
  }

  predicate ListedBytes(stale: seq<Item>, h: nat, now: int, window: int) {
    exists i :: 0 <= i < |stale| && stale[i].img.pointer == Stored(h) && Due(stale[i].img, now, window)
  }

  lemma ListedLast(stale: seq<Item>, now: int, window: int)
    requires stale != [] && Due(stale[|stale| - 1].img, now, window)
    ensures var item := stale[|stale| - 1];
            ListedDue(stale, item.k, now, window) &&
            (item.img.pointer.Stored? ==> ListedBytes(stale, item.img.pointer.handle, now, window))
  {
  }

  lemma ListedGrows(stale: seq<Item>, now: int, window: int)
    requires stale != []
    ensures forall k :: ListedDue(stale[..|stale| - 1], k, now, window) ==> ListedDue(stale, k, now, window)
    ensures forall h :: ListedBytes(stale[..|stale| - 1], h, now, window) ==> ListedBytes(stale, h, now, window)
  {
    var front := stale[..|stale| - 1];
    forall k | ListedDue(front, k, now, window) ensures ListedDue(stale, k, now, window) {
      var i :| 0 <= i < |front| && front[i].k == k && Due(front[i].img, now, window);
      assert stale[i] == front[i];
    }
    forall h | ListedBytes(front, h, now, window) ensures ListedBytes(stale, h, now, window) {
      var i :| 0 <= i < |front| && front[i].img.pointer == Stored(h) && Due(front[i].img, now, window);
      assert stale[i] == front[i];
    }
  }

  // What one visit does to the world.
  lemma VisitDoes(p: Pass, item: Item, now: int, window: int, f: Faults)
    ensures var q := Visit(p, item, now, window, f);
            q.w.rows.Keys == p.w.rows.Keys &&
            (forall k :: k in p.w.rows && q.w.rows[k] != p.w.rows[k] ==>
               k == item.k && Due(item.img, now, window) && q.w.rows[k] == p.w.rows[k].(reaped := now)) &&
            q.w.bytes <= p.w.bytes &&
            (forall h :: h in p.w.bytes && h !in q.w.bytes ==>
               item.img.pointer == Stored(h) && Due(item.img, now, window))
  {
  }

  lemma TurnOnlyDue(w: World, p: Pass, stale: seq<Item>, ls: seq<Launch>, now: int, window: int, f: Faults)
    requires stale != [] && OnlyDue(w, p.w, stale[..|stale| - 1], now, window)
    ensures OnlyDue(w, Turn(p, stale[|stale| - 1], ls, now, window, f).w, stale, now, window)
  {
    hide Visit, Launched, ListedDue, ListedBytes, Due;
    ListedGrows(stale, now, window);
    if !p.crashed {
      var item := stale[|stale| - 1];
      LaunchesOnlyStamp(p.w.rows, ls);
      var m := p.(w := p.w.(rows := Launched(p.w.rows, ls)));
      VisitDoes(m, item, now, window, f);
      if Due(item.img, now, window) {
        ListedLast(stale, now, window);
      }
      var q := Visit(m, item, now, window, f);
      forall k | k in w.rows && !SameButResumed(w.rows[k], q.w.rows[k])
        ensures ListedDue(stale, k, now, window) && SameButResumed(w.rows[k].(reaped := now), q.w.rows[k])
      {
        assert SameButResumed(p.w.rows[k], m.w.rows[k]);
      }
    }
  }

  // A pass touches only images that were due when they were listed.
  lemma {:induction false} PassOnlyDue(
      p: Pass, stale: seq<Item>, meanwhile: seq<seq<Launch>>, now: int, window: int, f: Faults)
    requires |meanwhile| == |stale|
    ensures OnlyDue(p.w, Visited(p, stale, meanwhile, now, window, f).w, stale, now, window)
  {
    hide Turn, Due;
    if stale != [] {
      var n := |stale| - 1;
      PassOnlyDue(p, stale[..n], meanwhile[..n], now, window, f);
      TurnOnlyDue(p.w, Visited(p, stale[..n], meanwhile[..n], now, window, f), stale, meanwhile[n], now, window, f);
    }
  }

  // ---- due when it is removed ----

  // Everything launched from the listing to the visit of item `i`.
  function Flat(meanwhile: seq<seq<Launch>>): seq<Launch> {
    if meanwhile == [] then [] else Flat(meanwhile[..|meanwhile| - 1]) + meanwhile[|meanwhile| - 1]
  }

  lemma {:induction false} LastLaunchJoins(a: seq<Launch>, b: seq<Launch>, k: Key)
    ensures LastLaunch(a + b, k) == if LastLaunch(b, k).Some? then LastLaunch(b, k) else LastLaunch(a, k)
  {
    if b == [] {
      assert a + b == a;
    } else {
      assert (a + b)[..|a + b| - 1] == a + b[..|b| - 1];
      LastLaunchJoins(a, b[..|b| - 1], k);
    }
  }

  // After any number of visits, an image not crashed on carries the stamp of its last launch.
  lemma {:induction false} PassStamps(
      p: Pass, stale: seq<Item>, meanwhile: seq<seq<Launch>>, now: int, window: int, f: Faults, k: Key)
    requires |meanwhile| == |stale| && k in p.w.rows
    ensures var q := Visited(p, stale, meanwhile, now, window, f);
            k in q.w.rows &&
            (!q.crashed ==>
               !p.crashed && q.w.rows[k].expires == p.w.rows[k].expires &&
               q.w.rows[k].resumed == ResumedAfter(p.w.rows[k].resumed, Flat(meanwhile), k))
  {
    hide Visit, LastLaunch;
    if stale != [] {
      var n := |stale| - 1;
      PassStamps(p, stale[..n], meanwhile[..n], now, window, f, k);
      var m := Visited(p, stale[..n], meanwhile[..n], now, window, f);
      if !m.crashed {
        LaunchStamps(m.w.rows, meanwhile[n], k);
        LastLaunchJoins(Flat(meanwhile[..n]), meanwhile[n], k);
        VisitDoes(m.(w := m.w.(rows := Launched(m.w.rows, meanwhile[n]))), stale[n], now, window, f);
      }
    } else {
      NoLaunch(k);
    }
  }

  lemma NoLaunch(k: Key)
    ensures LastLaunch([], k) == None
  {
  }

  // The catalogue when the pass gets to item `i`.
  function RowsAtVisit(
      w: World, stale: seq<Item>, meanwhile: seq<seq<Launch>>, i: nat, now: int, window: int, f: Faults): Catalogue
    requires |meanwhile| == |stale| && i < |stale|
  {
    Launched(Visited(Start(w, |stale|), stale[..i], meanwhile[..i], now, window, f).w.rows, meanwhile[i])
  }

  // The pass judges the copy it listed. So an image it removes was still due at its removal exactly if the last launch
  // from it since the listing, if there was one, is at least a window old by the pass's clock.
  lemma RemovedWasDueIff(
      w: World, project: string, stale: seq<Item>, meanwhile: seq<seq<Launch>>, i: nat, now: int, ttlDays: int,
      f: Faults)
    requires ttlDays > 0 && IsListing(w.rows, project, now - ttlDays * DAY, stale) && |meanwhile| == |stale| &&
             i < |stale|
    ensures var window, k := ttlDays * DAY, stale[i].k;
            var rows := RowsAtVisit(w, stale, meanwhile, i, now, window, f);
            !Visited(Start(w, |stale|), stale[..i], meanwhile[..i], now, window, f).crashed &&
            Due(stale[i].img, now, window) ==>
              k in rows &&
              (Due(rows[k], now, window) <==>
                 match LastLaunch(Flat(meanwhile[..i + 1]), k)
                 case None => true
                 case Some(at) => at <= 0 || at + window <= now)
  {
    hide Visited, Launched, LastLaunch, Flat;
    var window, k := ttlDays * DAY, stale[i].k;
    PassStamps(Start(w, |stale|), stale[..i], meanwhile[..i], now, window, f, k);
    var m := Visited(Start(w, |stale|), stale[..i], meanwhile[..i], now, window, f);
    LaunchStamps(m.w.rows, meanwhile[i], k);
    FlatNext(meanwhile, i);
    LastLaunchJoins(Flat(meanwhile[..i]), meanwhile[i], k);
  }

  lemma FlatNext(meanwhile: seq<seq<Launch>>, i: nat)
    requires i < |meanwhile|
    ensures Flat(meanwhile[..i + 1]) == Flat(meanwhile[..i]) + meanwhile[i]
  {
    assert meanwhile[..i + 1][..i] == meanwhile[..i];
  }

  // The other case: an image launched from after the listing, at this very moment, goes all the same.
  lemma LaunchAfterListingIsNoReprieve(w: World, item: Item, now: int, ttlDays: int)
    requires ttlDays > 0 && now > 0 && item.k in w.rows && w.rows[item.k] == item.img && item.img.pointer.Stored?
    requires Due(item.img, now, ttlDays * DAY) && w.budget >= 2
    ensures var q := Visited(Start(w, 1), [item], [[Launch(item.k, now)]], now, ttlDays * DAY, Faults({}, {}));
            item.k in q.w.rows && InUse(q.w.rows[item.k], now, ttlDays * DAY) && Gone(q.w, item.k)
  {
    var ls := [Launch(item.k, now)];
    LaunchStamps(w.rows, ls, item.k);
    assert LastLaunch(ls, item.k) == Some(now);
    assert [item][..0] == [] && [ls][..0] == [];
    hide Launched, LastLaunch;
    assert Visited(Start(w, 1), [], [], now, ttlDays * DAY, Faults({}, {})) == Start(w, 1);
  }

  // ---- a pass that is not interrupted ----

  predicate Gone(w: World, k: Key) {
    k in w.rows && w.rows[k].reaped != 0 && (w.rows[k].pointer.Stored? ==> w.rows[k].pointer.handle !in w.bytes)
  }

  // With no failures, room to finish and no handle that cannot be decoded: every image on the list that was due is
  // tombstoned and its bytes are gone, whether or not an earlier pass had got as far as deleting them.
  lemma {:induction false} CompletePassReapsList(p: Pass, stale: seq<Item>, meanwhile: seq<seq<Launch>>, now: int,
                                                 window: int)
    requires |meanwhile| == |stale| && !p.crashed && p.w.budget >= 2 * |stale| && now > 0
    requires SamePointers(p.w.rows, stale) && forall i :: 0 <= i < |stale| ==> !stale[i].img.pointer.Garbled?
    ensures var q := Visited(p, stale, meanwhile, now, window, Faults({}, {}));
            !q.crashed && q.w.budget >= p.w.budget - 2 * |stale| && q.rep.errors == p.rep.errors &&
            PointersKept(p.w.rows, q.w.rows) &&
            forall i :: 0 <= i < |stale| && Due(stale[i].img, now, window) ==> Gone(q.w, stale[i].k)
  {
    hide Turn, Due, Gone;
    if stale != [] {
      var n := |stale| - 1;
      CompletePassReapsList(p, stale[..n], meanwhile[..n], now, window);
      var m := Visited(p, stale[..n], meanwhile[..n], now, window, Faults({}, {}));
      CompleteTurn(m, stale[n], meanwhile[n], now, window);
      forall i | 0 <= i < |stale| && Due(stale[i].img, now, window)
        ensures Gone(Turn(m, stale[n], meanwhile[n], now, window, Faults({}, {})).w, stale[i].k)
      {
        assert i < n ==> stale[..n][i] == stale[i];
      }
    }
  }

  lemma CompleteTurn(m: Pass, item: Item, ls: seq<Launch>, now: int, window: int)
    requires !m.crashed && m.w.budget >= 2 && now > 0 && !item.img.pointer.Garbled?
    requires item.k in m.w.rows && item.img.pointer == m.w.rows[item.k].pointer
    ensures var q := Turn(m, item, ls, now, window, Faults({}, {}));
            !q.crashed && q.w.budget >= m.w.budget - 2 && q.rep.errors == m.rep.errors &&
            PointersKept(m.w.rows, q.w.rows) &&
            (Due(item.img, now, window) ==> Gone(q.w, item.k)) && (forall j :: Gone(m.w, j) ==> Gone(q.w, j))
  {
    hide Launched;
    LaunchesOnlyStamp(m.w.rows, ls);
    assert forall k :: k in m.w.rows ==> SameButResumed(m.w.rows[k], Launched(m.w.rows, ls)[k]);
  }

  // So such a pass over what its query answers leaves none of the project's due images that were created before the
  // present window; each of them was due when it was listed.
  lemma CompletePassReapsAll(
      w: World, project: string, stale: seq<Item>, meanwhile: seq<seq<Launch>>, now: int, ttlDays: int, k: Key)
    requires ttlDays > 0 && now > 0 && |meanwhile| == |stale| && w.budget >= 2 * |stale|
    requires IsListing(w.rows, project, now - ttlDays * DAY, stale)
    requires forall i :: 0 <= i < |stale| ==> !stale[i].img.pointer.Garbled?
    ensures var q := Visited(Start(w, |stale|), stale, meanwhile, now, ttlDays * DAY, Faults({}, {}));
            !q.crashed && q.rep.errors == 0 &&
            (Listed(w.rows, project, now - ttlDays * DAY, k) && Due(w.rows[k], now, ttlDays * DAY) ==> Gone(q.w, k))
  {
    hide Visited, Due, Gone;
    CompletePassReapsList(Start(w, |stale|), stale, meanwhile, now, ttlDays * DAY);
    if Listed(w.rows, project, now - ttlDays * DAY, k) {
      assert OnList(stale, k);
    }
  }

  // ---- the outcome, from the list and the faults alone ----

  // Its handle does not decode, or a call the pass makes for it fails.
  predicate Fails(item: Item, f: Faults) {
    item.img.pointer.Garbled? || (item.img.pointer.Stored? && item.img.pointer.handle in f.removals) ||
    item.k in f.marks
  }

  datatype Tally = Tally(kept: nat, deferred: nat, reaped: nat, errors: nat)

  // Every listed image once: not expired; expired but in use; due and failing; due and removed.
  function Tallied(stale: seq<Item>, now: int, window: int, f: Faults): Tally {
    if stale == [] then Tally(0, 0, 0, 0)
    else
      var t, item := Tallied(stale[..|stale| - 1], now, window, f), stale[|stale| - 1];
      if !(0 < item.img.expires <= now) then t.(kept := t.kept + 1)
      else if item.img.resumed > 0 && item.img.resumed + window > now then t.(deferred := t.deferred + 1)
      else if Fails(item, f) then t.(errors := t.errors + 1)
      else t.(reaped := t.reaped + 1)
  }

  predicate CountsAre(r: Report, t: Tally) {
    r.kept == t.kept && r.deferred == t.deferred && r.reaped == t.reaped && r.errors == t.errors
  }

  // What a visit to a row that is there does, where the crash does not come.
  lemma VisitOutcome(p: Pass, item: Item, now: int, window: int, f: Faults)
    requires window > 0 && now > 0 && item.k in p.w.rows && !p.crashed
    ensures var q := Visit(p, item, now, window, f);
            !q.crashed ==>
              q.w.rows.Keys == p.w.rows.Keys &&
              (forall k :: k in p.w.rows ==>
                 q.w.rows[k] == if k == item.k && Due(item.img, now, window) && !Fails(item, f)
                                then Tombstoned(p.w.rows[k], now) else p.w.rows[k]) &&
              (Due(item.img, now, window) && !Fails(item, f) && item.img.pointer.Stored? ==>
                 item.img.pointer.handle !in q.w.bytes) &&
              (forall h :: h in p.w.bytes && h !in q.w.bytes ==> item.img.pointer == Stored(h)) &&
              q.rep.scanned == p.rep.scanned && Handled(q.rep) == Handled(p.rep) + 1
  {
  }

  lemma VisitTally(p: Pass, item: Item, now: int, window: int, f: Faults)
    requires window > 0 && item.k in p.w.rows && !p.crashed
    ensures var q, r := Visit(p, item, now, window, f), p.rep;
            !q.crashed ==>
              q.rep == if !(0 < item.img.expires <= now) then r.(kept := r.kept + 1)
                       else if item.img.resumed > 0 && item.img.resumed + window > now then
                         r.(deferred := r.deferred + 1)
                       else if Fails(item, f) then r.(errors := r.errors + 1)
                       else r.(reaped := r.reaped + 1)
  {
  }

  lemma TurnTally(p: Pass, item: Item, ls: seq<Launch>, now: int, window: int, f: Faults)
    requires window > 0 && item.k in p.w.rows
    ensures var q := Turn(p, item, ls, now, window, f);
            q.w.rows.Keys == p.w.rows.Keys &&
            (!q.crashed ==>
              !p.crashed && q == Visit(p.(w := p.w.(rows := Launched(p.w.rows, ls))), item, now, window, f))
  {
    hide Visit, Launched;
    LaunchesOnlyStamp(p.w.rows, ls);
    VisitDoes(p.(w := p.w.(rows := Launched(p.w.rows, ls))), item, now, window, f);
  }

  // The counts of the receipt are those of the list, whatever is launched meanwhile.
  lemma {:induction false} ReceiptSays(
      p: Pass, stale: seq<Item>, meanwhile: seq<seq<Launch>>, now: int, window: int, f: Faults)
    requires |meanwhile| == |stale| && window > 0 && CountsAre(p.rep, Tally(0, 0, 0, 0))
    requires forall i :: 0 <= i < |stale| ==> stale[i].k in p.w.rows
    ensures var q := Visited(p, stale, meanwhile, now, window, f);
            q.w.rows.Keys == p.w.rows.Keys && (!q.crashed ==> CountsAre(q.rep, Tallied(stale, now, window, f)))
  {
    hide Turn, Launched, Fails;
    if stale != [] {
      var n := |stale| - 1;
      ReceiptSays(p, stale[..n], meanwhile[..n], now, window, f);
      var m := Visited(p, stale[..n], meanwhile[..n], now, window, f);
      TurnTally(m, stale[n], meanwhile[n], now, window, f);
      if !m.crashed {
        LaunchesOnlyStamp(m.w.rows, meanwhile[n]);
        VisitTally(m.(w := m.w.(rows := Launched(m.w.rows, meanwhile[n]))), stale[n], now, window, f);
        hide Visit;
      }
    }
  }

  // Row by row: tombstoned, at the pass's own time, exactly the images that were due as listed and on which nothing
  // failed.
  predicate RowsAre(rows: Catalogue, rows': Catalogue, stale: seq<Item>, now: int, window: int, f: Faults) {
    rows'.Keys == rows.Keys &&
    forall k :: k in rows ==>
      SameButResumed(if WentFor(stale, k, now, window, f) then Tombstoned(rows[k], now) else rows[k], rows'[k])
  }

  predicate WentFor(stale: seq<Item>, k: Key, now: int, window: int, f: Faults) {
    exists i :: 0 <= i < |stale| && stale[i].k == k && Due(stale[i].img, now, window) && !Fails(stale[i], f)
  }

  lemma WentForNext(stale: seq<Item>, item: Item, k: Key, now: int, window: int, f: Faults)
    ensures WentFor(stale + [item], k, now, window, f) <==>
              WentFor(stale, k, now, window, f) || (item.k == k && Due(item.img, now, window) && !Fails(item, f))
  {
    hide Due, Fails;
    var next := stale + [item];
    assert next[|stale|] == item;
    assert forall i :: 0 <= i < |stale| ==> next[i] == stale[i];
  }

  lemma TurnRows(rows: Catalogue, p: Pass, front: seq<Item>, item: Item, ls: seq<Launch>, now: int, window: int,
                 f: Faults)
    requires window > 0 && now > 0 && item.k in rows && RowsAre(rows, p.w.rows, front, now, window, f)
    ensures var q := Turn(p, item, ls, now, window, f);
            !q.crashed ==> RowsAre(rows, q.w.rows, front + [item], now, window, f)
  {
    hide Visit, Launched, WentFor, Due, Fails;
    var q := Turn(p, item, ls, now, window, f);
    if !q.crashed {
      LaunchesOnlyStamp(p.w.rows, ls);
      var m := p.(w := p.w.(rows := Launched(p.w.rows, ls)));
      VisitOutcome(m, item, now, window, f);
      VisitDoes(m, item, now, window, f);
      forall k | k in rows
        ensures SameButResumed(if WentFor(front + [item], k, now, window, f) then Tombstoned(rows[k], now) else rows[k],
                               q.w.rows[k])
      {
        WentForNext(front, item, k, now, window, f);
        assert SameButResumed(p.w.rows[k], m.w.rows[k]);
      }
    }
  }

  lemma {:induction false} PassTombstones(
      p: Pass, stale: seq<Item>, meanwhile: seq<seq<Launch>>, now: int, window: int, f: Faults)
    requires |meanwhile| == |stale| && window > 0 && now > 0 && !p.crashed
    requires forall i :: 0 <= i < |stale| ==> stale[i].k in p.w.rows
    ensures var q := Visited(p, stale, meanwhile, now, window, f);
            !q.crashed ==> RowsAre(p.w.rows, q.w.rows, stale, now, window, f)
  {
    hide Turn, RowsAre;
    if stale == [] {
      NothingVisited(p.w.rows, now, window, f);
    } else {
      var n := |stale| - 1;
      PassTombstones(p, stale[..n], meanwhile[..n], now, window, f);
      var m := Visited(p, stale[..n], meanwhile[..n], now, window, f);
      TurnAfterCrash(m, stale[n], meanwhile[n], now, window, f);
      if !m.crashed {
        TurnRows(p.w.rows, m, stale[..n], stale[n], meanwhile[n], now, window, f);
      }
      assert stale[..n] + [stale[n]] == stale;
    }
  }

  lemma NothingVisited(rows: Catalogue, now: int, window: int, f: Faults)
    ensures RowsAre(rows, rows, [], now, window, f)
  {
  }

  lemma TurnAfterCrash(p: Pass, item: Item, ls: seq<Launch>, now: int, window: int, f: Faults)
    ensures p.crashed ==> Turn(p, item, ls, now, window, f) == p
  {
  }

  // ---- whom a pass leaves alone ----

  // What is another project's, or tombstoned already, or no version of the catalogue, or was created within the present
  // window: a pass over what its query answers changes nothing of it.
  lemma PassLeavesOthers(
      w: World, project: string, stale: seq<Item>, meanwhile: seq<seq<Launch>>, now: int, ttlDays: int, f: Faults,
        k: Key)
    requires |meanwhile| == |stale| && ttlDays > 0 && IsListing(w.rows, project, now - ttlDays * DAY, stale) &&
             k in w.rows
    requires k.name.project != project || k.version == 0 || w.rows[k].reaped != 0 ||
             0 < now - ttlDays * DAY <= w.rows[k].created
    ensures var q := Visited(Start(w, |stale|), stale, meanwhile, now, ttlDays * DAY, f);
            k in q.w.rows && SameButResumed(w.rows[k], q.w.rows[k]) && !OnList(stale, k)
  {
    hide Visited, Due;
    assert OnList(stale, k) <==> Listed(w.rows, project, now - ttlDays * DAY, k);
    PassOnlyDue(Start(w, |stale|), stale, meanwhile, now, ttlDays * DAY, f);
  }

  // ---- how many calls a pass makes ----

  // The removal of the bytes, where there are any, and the tombstone, unless the removal failed.
  function Calls(item: Item, now: int, window: int, f: Faults): nat {
    if !Due(item.img, now, window) || item.img.pointer.Garbled? then 0
    else if !item.img.pointer.Stored? then 1
    else if item.img.pointer.handle in f.removals then 1 else 2
  }

  function AllCalls(stale: seq<Item>, now: int, window: int, f: Faults): nat {
    if stale == [] then 0
    else AllCalls(stale[..|stale| - 1], now, window, f) + Calls(stale[|stale| - 1], now, window, f)
  }

  lemma TurnCalls(p: Pass, item: Item, ls: seq<Launch>, now: int, window: int, f: Faults)
    requires !p.crashed
    ensures var q, n := Turn(p, item, ls, now, window, f), Calls(item, now, window, f);
            (q.crashed <==> p.w.budget < n) && (!q.crashed ==> q.w.budget == p.w.budget - n)
  {
    hide Launched;
  }

  // The crash comes exactly where fewer calls are left than the pass makes.
  lemma {:induction false} PassCalls(
      p: Pass, stale: seq<Item>, meanwhile: seq<seq<Launch>>, now: int, window: int, f: Faults)
    requires |meanwhile| == |stale| && !p.crashed
    ensures var q, n := Visited(p, stale, meanwhile, now, window, f), AllCalls(stale, now, window, f);
            (q.crashed <==> p.w.budget < n) && (!q.crashed ==> q.w.budget == p.w.budget - n)
  {
    hide Turn, Calls;
    if stale != [] {
      var n := |stale| - 1;
      PassCalls(p, stale[..n], meanwhile[..n], now, window, f);
      var m := Visited(p, stale[..n], meanwhile[..n], now, window, f);
      TurnAfterCrash(m, stale[n], meanwhile[n], now, window, f);
      if !m.crashed {
        TurnCalls(m, stale[n], meanwhile[n], now, window, f);
      }
    }
  }
}
