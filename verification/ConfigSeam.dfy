/** WithConfigEvent itself: the retry loop of one writer, while others commit between its mark and its insert. */
module ConfigSeam {
  import opened Text
  import opened ConfigFold
  import opened ConfigLog

  datatype SeamError = BlankProject | MutationFailed | Exhausted

  // What the other writers land meanwhile, each taking the next number; a mutation that fails lands nothing.
  function Rivals(t: Tables, ms: seq<Mutation>): Tables {
    if ms == [] then t
    else
      var before := Rivals(t, ms[..|ms| - 1]);
      var m := ms[|ms| - 1];
      match Write(before.subs, m)
      case None => before
      case Some(subs) => Tables(subs, before.log + [RecordOf(m, MaxSeq(before.log, m.row.project) + 1, "rival", 0)])
  }

  // The rivals of each attempt in turn, as if this writer were not there.
  function OnlyRivals(t: Tables, rivals: seq<seq<Mutation>>): Tables
    decreases |rivals|
  {
    if rivals == [] then t else OnlyRivals(Rivals(t, rivals[0]), rivals[1..])
  }

  // Some rival took the number this writer holds.
  predicate Beaten(t: Tables, m: Mutation, ms: seq<Mutation>) {
    Count(Rivals(t, ms).log, m.row.project) > Count(t.log, m.row.project)
  }

  // The attempts, one list of rivals each: mark, let the rivals land, commit; only a collision is tried again.
  function Seam(t: Tables, m: Mutation, rivals: seq<seq<Mutation>>, uid: string, at: int)
    : (Tables, Result<nat, SeamError>)
    decreases |rivals|
  {
    if rivals == [] then (t, Err(Exhausted))
    else
      var n, raced := MaxSeq(t.log, m.row.project) + 1, Rivals(t, rivals[0]);
      match Transact(raced, m, n, uid, at)
      case Landed(after) => (after, Ok(n))
      case Refused => (raced, Err(MutationFailed))
      case Collided => Seam(raced, m, rivals[1..], uid, at)
  }

  class Store {
    var subs: map<string, Sub>
    var log: seq<Record>

    function Contents(): Tables
      reads this
    {
      Tables(subs, log)
    }

    method LandRivals(ms: seq<Mutation>)
      modifies this
      ensures Contents() == Rivals(old(Contents()), ms)
    {
      for i := 0 to |ms|
        invariant Contents() == Rivals(old(Contents()), ms[..i])
      {
        assert ms[..i + 1][..i] == ms[..i];
        match Write(subs, ms[i]) {
          case None =>
          case Some(next) =>
            log := log + [RecordOf(ms[i], MaxSeq(log, ms[i].row.project) + 1, "rival", 0)];
            subs := next;
        }
      }
      assert ms[..|ms|] == ms;
    }

    // One transaction: it commits both rows or changes nothing.
    method Commit(m: Mutation, n: nat, uid: string, at: int) returns (a: Attempt)
      modifies this
      ensures a == Transact(old(Contents()), m, n, uid, at)
      ensures Contents() == if a.Landed? then a.after else old(Contents())
    {
      match Write(subs, m) {
        case None => return Refused;
        case Some(next) =>
          if Taken(log, m.row.project, n) {
            return Collided;
          }
          subs := next;
          log := log + [RecordOf(m, n, uid, at)];
          return Landed(Contents());
      }
    }

    method WithConfigEvent(m: Mutation, rivals: seq<seq<Mutation>>, uid: string, at: int)
      returns (r: Result<nat, SeamError>)
      requires |rivals| == ATTEMPTS
      modifies this
      ensures (Contents(), r) == if Blank(m.row.project) then (old(Contents()), Err(BlankProject))
                                 else Seam(old(Contents()), m, rivals, uid, at)
    {
      hide Trim, Blank, Rivals, MaxSeq, Transact;
      if Blank(m.row.project) {
        return Err(BlankProject);
      }
      for attempt := 0 to ATTEMPTS
        invariant Seam(Contents(), m, rivals[attempt..], uid, at) == Seam(old(Contents()), m, rivals, uid, at)
      {
        var n := MaxSeq(log, m.row.project) + 1;
        assert rivals[attempt..][1..] == rivals[attempt + 1..];
        LandRivals(rivals[attempt]);
        var a := Commit(m, n, uid, at);
        match a {
          case Landed(_) => return Ok(n);
          case Refused => return Err(MutationFailed);
          case Collided =>
        }
      }
      return Err(Exhausted);
    }
  }

  // ---- what the seam promises ----

  // `after` is `before` with the mutation's row change and its one record.
  predicate Lands(before: Tables, m: Mutation, n: nat, uid: string, at: int, after: Tables) {
    && Write(before.subs, m) == Some(after.subs)
    && n == Count(before.log, m.row.project) + 1
    && after.log == before.log + [RecordOf(m, n, uid, at)]
  }

  lemma {:induction false} RivalsDense(t: Tables, ms: seq<Mutation>, project: string)
    requires Dense(t.log)
    ensures Dense(Rivals(t, ms).log) && Count(Rivals(t, ms).log, project) >= Count(t.log, project)
  {
    hide Dense, MaxSeq, Write;
    if ms != [] {
      var before, m := Rivals(t, ms[..|ms| - 1]), ms[|ms| - 1];
      RivalsDense(t, ms[..|ms| - 1], project);
      if Write(before.subs, m).Some? {
        DenseTaken(before.log, m.row.project, 0);
        var r := RecordOf(m, MaxSeq(before.log, m.row.project) + 1, "rival", 0);
        DenseNext(before.log, r);
        CountNext(before.log, r, project);
      }
    }
  }

  // The number read at the mark is taken at the insert exactly when a rival landed in this project.
  lemma MarkThenRivals(marked: Tables, m: Mutation, ms: seq<Mutation>)
    requires Dense(marked.log)
    ensures var n, raced := MaxSeq(marked.log, m.row.project) + 1, Rivals(marked, ms);
            Dense(raced.log) && (Taken(raced.log, m.row.project, n) <==> Beaten(marked, m, ms)) &&
            (!Beaten(marked, m, ms) ==> n == Count(raced.log, m.row.project) + 1)
  {
    hide Dense, MaxSeq, Rivals, Count, Taken;
    var n := MaxSeq(marked.log, m.row.project) + 1;
    RivalsDense(marked, ms, m.row.project);
    DenseTaken(marked.log, m.row.project, n);
    DenseTaken(Rivals(marked, ms).log, m.row.project, n);
  }

  // Every attempt was beaten to its number, the mutation itself succeeding each time.
  predicate AlwaysBeaten(t: Tables, m: Mutation, rivals: seq<seq<Mutation>>)
    decreases |rivals|
  {
    rivals == [] ||
    (Beaten(t, m, rivals[0]) && Write(Rivals(t, rivals[0]).subs, m).Some? &&
     AlwaysBeaten(Rivals(t, rivals[0]), m, rivals[1..]))
  }

  // A success leaves the row change and one record, numbered next after what the rivals landed; a failure leaves
  // exactly what the rivals landed. `k` is the number of attempts made.
  lemma {:induction false} SeamIsAtomic(t: Tables, m: Mutation, rivals: seq<seq<Mutation>>, uid: string, at: int)
    returns (k: nat)
    requires Dense(t.log)
    ensures k <= |rivals|
    ensures var (after, r) := Seam(t, m, rivals, uid, at);
            match r
            case Ok(n) => Lands(OnlyRivals(t, rivals[..k]), m, n, uid, at, after)
            case Err(_) => after == OnlyRivals(t, rivals[..k])
    decreases |rivals|
  {
    hide Dense, MaxSeq, Write, Taken, Count, Rivals;
    if rivals == [] {
      k := 0;
    } else {
      MarkThenRivals(t, m, rivals[0]);
      var raced := Rivals(t, rivals[0]);
      var rest := 0;
      if Transact(raced, m, MaxSeq(t.log, m.row.project) + 1, uid, at).Collided? {
        rest := SeamIsAtomic(raced, m, rivals[1..], uid, at);
      }
      k := rest + 1;
      assert rivals[..k][1..] == rivals[1..][..rest] && rivals[..k][0] == rivals[0];
    }
  }

  // It runs out of attempts exactly when a rival of its project landed between the mark and the insert every time.
  lemma {:induction false} ExhaustedIsAlwaysBeaten(t: Tables, m: Mutation, rivals: seq<seq<Mutation>>, uid: string,
                                                   at: int)
    requires Dense(t.log)
    ensures Seam(t, m, rivals, uid, at).1 == Err(Exhausted) <==> AlwaysBeaten(t, m, rivals)
    decreases |rivals|
  {
    hide Dense, MaxSeq, Write, Taken, Count, Rivals, Beaten;
    if rivals != [] {
      MarkThenRivals(t, m, rivals[0]);
      ExhaustedIsAlwaysBeaten(Rivals(t, rivals[0]), m, rivals[1..], uid, at);
    }
  }

  // ---- which way it ends ----

  // The tables the mutation meets at attempt `k`, after that attempt's rivals.
  function Met(t: Tables, rivals: seq<seq<Mutation>>, k: nat): Tables
    requires k < |rivals|
  {
    Rivals(OnlyRivals(t, rivals[..k]), rivals[k])
  }

  // All attempts before `k` lost their number, and attempt `k` did not, or its mutation failed.
  predicate DecidedAt(t: Tables, m: Mutation, rivals: seq<seq<Mutation>>, k: nat) {
    k < |rivals| && AlwaysBeaten(t, m, rivals[..k]) &&
    (Write(Met(t, rivals, k).subs, m) == None || !Beaten(OnlyRivals(t, rivals[..k]), m, rivals[k]))
  }

  predicate EndsAs(t: Tables, m: Mutation, rivals: seq<seq<Mutation>>, k: nat, r: Result<nat, SeamError>)
    requires k < |rivals|
  {
    match Write(Met(t, rivals, k).subs, m)
    case None => r == Err(MutationFailed)
    case Some(_) => r.Ok?
  }

  lemma DecidedFirst(t: Tables, m: Mutation, rivals: seq<seq<Mutation>>)
    requires rivals != []
    ensures rivals[..0] == [] && OnlyRivals(t, rivals[..0]) == t && AlwaysBeaten(t, m, rivals[..0])
  {
  }

  lemma DecidedLater(t: Tables, m: Mutation, rivals: seq<seq<Mutation>>, k: nat)
    requires 0 < k < |rivals| && Beaten(t, m, rivals[0]) && Write(Rivals(t, rivals[0]).subs, m).Some?
    ensures var t1 := Rivals(t, rivals[0]);
            Met(t, rivals, k) == Met(t1, rivals[1..], k - 1) &&
            (DecidedAt(t, m, rivals, k) <==> DecidedAt(t1, m, rivals[1..], k - 1))
  {
    hide Rivals, Beaten, Write;
    assert rivals[..k][0] == rivals[0] && rivals[..k][1..] == rivals[1..][..k - 1] && rivals[k] == rivals[1..][k - 1];
  }

  // The first attempt that keeps its number, or whose mutation fails, decides: it succeeds, or reports the failure; if
  // there is none, the attempts are exhausted.
  lemma {:induction false} FirstDecides(t: Tables, m: Mutation, rivals: seq<seq<Mutation>>, uid: string, at: int,
                                        k: nat)
    requires Dense(t.log)
    ensures DecidedAt(t, m, rivals, k) ==> EndsAs(t, m, rivals, k, Seam(t, m, rivals, uid, at).1)
    decreases |rivals|
  {
    hide Dense, MaxSeq, Write, Taken, Count, Rivals, Beaten;
    if DecidedAt(t, m, rivals, k) {
      MarkThenRivals(t, m, rivals[0]);
      DecidedFirst(t, m, rivals);
      if k > 0 {
        assert rivals[..k][0] == rivals[0];
        DecidedLater(t, m, rivals, k);
        FirstDecides(Rivals(t, rivals[0]), m, rivals[1..], uid, at, k - 1);
      }
    }
  }

  // What a rival lands: its row change and one record under its project's next number; or, if its mutation fails,
  // nothing.
  lemma RivalLands(t: Tables, ms: seq<Mutation>, m: Mutation)
    requires Dense(t.log)
    ensures var before, after := Rivals(t, ms), Rivals(t, ms + [m]);
            match Write(before.subs, m)
            case None => after == before
            case Some(subs) =>
              after.subs == subs && |after.log| == |before.log| + 1 && after.log[..|before.log|] == before.log &&
              var r := after.log[|before.log|];
              r.project == m.row.project && r.seqNo == Count(before.log, r.project) + 1 && r.action == ActionOf(m) &&
              r.payload == SubPayload(m.row)
  {
    hide Dense, Write, MaxSeq, Count;
    assert (ms + [m])[..|ms|] == ms;
    RivalsDense(t, ms, m.row.project);
    DenseTaken(Rivals(t, ms).log, m.row.project, 0);
  }
}
