/**
 The image catalogue (go/agentdb/customimages.go): version allocation by a hint and a unique index with retries, any
 number of burners, tombstones, and the resolution of references.
 */
module Images {
  import opened Text
  import opened Versions
  import ImageRefs

  type Tid = nat

  // What a row's registry handle holds: nothing, text that does not decode, a handle that points nowhere, or bytes.
  datatype Pointer = NoPointer | Garbled | Hollow | Stored(handle: nat)

  datatype Image = Image(pointer: Pointer, created: int, expires: int, resumed: int, reaped: int)

  type Catalogue = map<Key, Image>

  const DAY := 86400

  // The expiry stamped at the burn; 0 is never.
  function SnapshotExpiry(created: int, ttlDays: int): int {
    if ttlDays <= 0 || created <= 0 then 0 else created + ttlDays * DAY
  }

  const ATTEMPTS: nat := 5

  datatype Burner =
    | Hinting(n: Name, img: Image, attempt: nat)              // about to read the mark, outside the transaction
    | Holding(n: Name, img: Image, attempt: nat, v: nat)      // about to insert version v
    | Burned(v: nat)
    | GaveUp

  // `issued` is the numbers each name's burners landed, oldest first; `gone` the versions removed and not burned again.
  datatype State = State(rows: Catalogue, burners: map<Tid, Burner>, issued: map<Name, seq<nat>>, gone: set<Key>)

  datatype Step =
    | Begin(t: Tid, n: Name, pointer: Pointer, now: int, ttlDays: int)
    | Hint(t: Tid, highest: nat)
    | Insert(t: Tid)
    | Tombstone(k: Key, at: int)       // MarkCustomImageReaped
    | Resume(k: Key, at: int)          // MarkCustomImageResumed
    | HardDelete(k: Key)               // DeleteCustomImage: the one path that removes a row

  function Init(): State {
    State(map[], map[], map[], {})
  }

  predicate Enabled(s: State, step: Step) {
    match step
    case Begin(t, _, _, _, _) => t !in s.burners
    case Hint(t, v) => t in s.burners && s.burners[t].Hinting? && IsHighest(s.rows.Keys, s.burners[t].n, v)
    case Insert(t) => t in s.burners && s.burners[t].Holding?
    case Tombstone(k, at) => k in s.rows && at > 0
    case Resume(k, _) => k in s.rows
    case HardDelete(k) => k in s.rows
  }

  function IssuedOf(s: State, n: Name): seq<nat> {
    if n in s.issued then s.issued[n] else []
  }

  function Tombstoned(img: Image, at: int): Image {
    if img.reaped == 0 then img.(reaped := at) else img
  }

  function Apply(s: State, step: Step): State
    requires Enabled(s, step)
  {
    match step
    case Begin(t, n, p, now, ttl) =>
      s.(burners := s.burners[t := Hinting(n, Image(p, now, SnapshotExpiry(now, ttl), 0, 0), 0)])
    case Hint(t, v) => var b := s.burners[t]; s.(burners := s.burners[t := Holding(b.n, b.img, b.attempt, v + 1)])
    case Insert(t) =>
      var b := s.burners[t];
      if Key(b.n, b.v) in s.rows then
        s.(burners := s.burners[t := if b.attempt + 1 < ATTEMPTS then Hinting(b.n, b.img, b.attempt + 1) else GaveUp])
      else
        State(s.rows[Key(b.n, b.v) := b.img], s.burners[t := Burned(b.v)], s.issued[b.n := IssuedOf(s, b.n) + [b.v]],
              s.gone - {Key(b.n, b.v)})
    case Tombstone(k, at) => s.(rows := s.rows[k := Tombstoned(s.rows[k], at)])
    case Resume(k, at) => s.(rows := s.rows[k := s.rows[k].(resumed := at)])
    case HardDelete(k) => s.(rows := s.rows - {k}, gone := s.gone + {k})
  }

  predicate Run(s: State, steps: seq<Step>)
    decreases |steps|
  {
    steps == [] || (Enabled(s, steps[0]) && Run(Apply(s, steps[0]), steps[1..]))
  }

  function Final(s: State, steps: seq<Step>): State
    requires Run(s, steps)
    decreases |steps|
  {
    if steps == [] then s else Final(Apply(s, steps[0]), steps[1..])
  }

  // Hard deletes spare each name's highest version and any number a burner holds.
  predicate Careful(s: State, step: Step) {
    step.HardDelete? ==>
      (exists j :: j in s.rows && j.name == step.k.name && j.version > step.k.version) &&
      forall t :: t in s.burners && s.burners[t].Holding? && s.burners[t].n == step.k.name ==>
        s.burners[t].v != step.k.version
  }

  predicate CarefulRun(s: State, steps: seq<Step>)
    decreases |steps|
  {
    steps == [] ||
    (Enabled(s, steps[0]) && Careful(s, steps[0]) && CarefulRun(Apply(s, steps[0]), steps[1..]))
  }

  // ---- the invariant, for one name ----

  // The numbers burned are 1, 2, 3, ... in order; the last is the highest row; a held number is next or taken.
  predicate Inv(s: State, n: Name) {
    && InOrder(IssuedOf(s, n))
    && IsHighest(s.rows.Keys, n, |IssuedOf(s, n)|)
    && HeldOk(s, n)
  }

  predicate HeldOk(s: State, n: Name) {
    forall t :: t in s.burners && s.burners[t].Holding? && s.burners[t].n == n ==>
      s.burners[t].v == |IssuedOf(s, n)| + 1 || Key(n, s.burners[t].v) in s.rows
  }

  lemma InsertKeeps(s: State, n: Name, t: Tid)
    requires Inv(s, n) && Enabled(s, Insert(t))
    ensures Inv(Apply(s, Insert(t)), n)
  {
    var b := s.burners[t];
    var s' := Apply(s, Insert(t));
    if b.n == n && s'.burners[t].Burned? {
      BurnedIsHighest(s.rows, n, b.v, b.img);
      assert IssuedOf(s', n) == IssuedOf(s, n) + [b.v];
    } else {
      assert IssuedOf(s', n) == IssuedOf(s, n);
      SameHighest(s.rows, s'.rows, n, |IssuedOf(s, n)|);
    }
    hide IsHighest;
  }

  lemma BurnedIsHighest(rows: Catalogue, n: Name, v: nat, img: Image)
    requires v > 0 && IsHighest(rows.Keys, n, v - 1)
    ensures IsHighest(rows[Key(n, v) := img].Keys, n, v)
  {
  }

  // A change that leaves the name's versions alone, or removes one that is not the highest.
  lemma SameHighest(rows: Catalogue, rows': Catalogue, n: Name, v: nat)
    requires IsHighest(rows.Keys, n, v) && (v > 0 ==> Key(n, v) in rows')
    requires forall k :: k in rows' && k.name == n ==> k in rows
    ensures IsHighest(rows'.Keys, n, v)
  {
  }

  lemma DeleteKeeps(s: State, n: Name, k: Key)
    requires Inv(s, n) && Enabled(s, HardDelete(k)) && Careful(s, HardDelete(k))
    ensures Inv(Apply(s, HardDelete(k)), n)
  {
    var j :| j in s.rows && j.name == k.name && j.version > k.version;
    assert k.name == n ==> k.version < |IssuedOf(s, n)|;
    SameHighest(s.rows, s.rows - {k}, n, |IssuedOf(s, n)|);
  }

  lemma HintKeeps(s: State, n: Name, t: Tid, v: nat)
    requires Inv(s, n) && Enabled(s, Hint(t, v))
    ensures Inv(Apply(s, Hint(t, v)), n)
  {
    if s.burners[t].n == n {
      HighestUnique(s.rows.Keys, n, v, |IssuedOf(s, n)|);
    }
  }

  lemma StepKeeps(s: State, n: Name, step: Step)
    requires Inv(s, n) && Enabled(s, step) && Careful(s, step)
    ensures Inv(Apply(s, step), n)
  {
    match step
    case Insert(t) => InsertKeeps(s, n, t);
    case HardDelete(k) => DeleteKeeps(s, n, k);
    case Hint(t, v) => HintKeeps(s, n, t, v);
    case _ => SameHighest(s.rows, Apply(s, step).rows, n, |IssuedOf(s, n)|);
  }

  lemma {:induction false} RunKeeps(s: State, n: Name, steps: seq<Step>)
    requires Inv(s, n) && CarefulRun(s, steps)
    ensures Run(s, steps) && Inv(Final(s, steps), n)
    decreases |steps|
  {
    hide Inv, Apply, Careful, Enabled;
    if steps != [] {
      StepKeeps(s, n, steps[0]);
      RunKeeps(Apply(s, steps[0]), n, steps[1..]);
    }
  }

  // ---- resolution ----

  datatype ResolveError = Invalid | NotFound | Reaped | Unmaterialisable

  function Checked(rows: Catalogue, k: Key): Result<Key, ResolveError> {
    if k !in rows then Err(NotFound)
    else if rows[k].reaped != 0 then Err(Reaped)
    else if rows[k].pointer.NoPointer? then Err(Unmaterialisable)
    else Ok(k)
  }

  // A pinned reference is that version; a floating one is the highest, insisted on.
  function Resolve(rows: Catalogue, n: Name, pinned: nat, highest: nat): Result<Key, ResolveError>
    requires IsHighest(rows.Keys, n, highest)
  {
    if pinned > 0 then Checked(rows, Key(n, pinned))
    else if highest == 0 then Err(NotFound)
    else Checked(rows, Key(n, highest))
  }

  // What the lookups of one version insist on.
  predicate Addressable(k: Key) {
    !Blank(k.name.project) && ImageRefs.ValidName(k.name.tag) && k.version >= 1
  }

  class CatalogueStore {
    var rows: Catalogue

    // The record survives with the time its bytes went: a second tombstone keeps the first one's.
    method MarkReaped(k: Key, reapedAt: int, now: int) returns (r: Result<bool, ResolveError>)
      requires now > 0
      modifies this
      ensures r == Err(Invalid) <==> Blank(k.name.project) || !ImageRefs.ValidName(k.name.tag) || k.version < 1
      ensures r == Err(NotFound) <==> r != Err(Invalid) && k !in old(rows)
      ensures r.Err? ==> rows == old(rows)
      ensures r.Ok? ==> k in old(rows) && rows.Keys == old(rows).Keys && rows[k].reaped != 0 &&
                        rows == old(rows)[k := Tombstoned(old(rows)[k], if reapedAt <= 0 then now else reapedAt)] &&
                        rows[k] == old(rows)[k].(reaped := if old(rows)[k].reaped != 0 then old(rows)[k].reaped
                                                           else if reapedAt > 0 then reapedAt else now)
    {
      if !Addressable(k) {
        return Err(Invalid);
      }
      if k !in rows {
        return Err(NotFound);
      }
      var at := if reapedAt <= 0 then now else reapedAt;
      if rows[k].reaped == 0 {
        rows := rows[k := rows[k].(reaped := at)];
      }
      return Ok(true);
    }
  }
}
