/**
 The configuration log's records, the entities they key to, and the fold over them (go/agentdb/config_fold.go).
 */
module ConfigFold {
  import opened Text

  // ---- entity references ----

  datatype Kind =
    | WorkerKind | SubscriptionKind | ScheduleKind | ImageKind | SkillKind
    | SettingsKind | PromptKind | TopologyKind | ConnectionKind

  function KindName(k: Kind): string {
    match k
    case WorkerKind => "worker"
    case SubscriptionKind => "subscription"
    case ScheduleKind => "schedule"
    case ImageKind => "image"
    case SkillKind => "skill"
    case SettingsKind => "project-settings"
    case PromptKind => "project-prompt"
    case TopologyKind => "topology"
    case ConnectionKind => "connection"
  }

  const KINDS := [WorkerKind, SubscriptionKind, ScheduleKind, ImageKind, SkillKind, SettingsKind, PromptKind,
                  TopologyKind, ConnectionKind]

  // Where a kind stands in that list.
  function Position(k: Kind): (i: nat)
    ensures i < |KINDS| && KINDS[i] == k
  {
    match k
    case WorkerKind => 0
    case SubscriptionKind => 1
    case ScheduleKind => 2
    case ImageKind => 3
    case SkillKind => 4
    case SettingsKind => 5
    case PromptKind => 6
    case TopologyKind => 7
    case ConnectionKind => 8
  }

  function KindIn(kinds: seq<Kind>, s: string): Option<Kind> {
    if kinds == [] then None else if KindName(kinds[0]) == s then Some(kinds[0]) else KindIn(kinds[1..], s)
  }

  function KindNamed(s: string): Option<Kind> {
    KindIn(KINDS, s)
  }

  predicate Singleton(k: Kind) {
    k == SettingsKind || k == PromptKind
  }

  datatype EntityRef = EntityRef(kind: Kind, key: string)

  function Render(r: EntityRef): string {
    if r.key == "" then KindName(r.kind) else KindName(r.kind) + ":" + r.key
  }

  // Everything before the first `c`.
  function Before(s: string, c: char): (p: string)
    ensures p <= s && c !in p
    ensures |p| < |s| ==> s[|p|] == c
  {
    if s == "" || s[0] == c then "" else [s[0]] + Before(s[1..], c)
  }

  datatype RefError = EmptyRef | UnknownKind | SingletonWithKey | MissingKey

  function ParseRef(s: string): Result<EntityRef, RefError> {
    var trimmed := Trim(s);
    if trimmed == "" then Err(EmptyRef)
    else
      var kindPart := Before(trimmed, ':');
      var key := if |kindPart| < |trimmed| then trimmed[|kindPart| + 1..] else "";
      match KindNamed(kindPart)
      case None => Err(UnknownKind)
      case Some(k) =>
        if Singleton(k) then (if key != "" then Err(SingletonWithKey) else Ok(EntityRef(k, "")))
        else if Blank(key) then Err(MissingKey)
        else Ok(EntityRef(k, key))
  }

  // What EntityRefFor produces: a singleton without a key, or any other kind with one that is not blank.
  predicate ValidRef(r: EntityRef) {
    if Singleton(r.kind) then r.key == "" else !Blank(r.key)
  }

  lemma KindNameIsPlain(k: Kind)
    ensures KindName(k) != "" && ':' !in KindName(k) && Trimmed(KindName(k))
  {
  }

  lemma KindIsNamed(k: Kind)
    ensures KindNamed(KindName(k)) == Some(k)
  {
    hide KindName;
    KindNamesDiffer();
    var i := Position(k);
    FoundIn(KINDS, i);
  }

  ghost predicate DistinctNames(kinds: seq<Kind>) {
    forall i, j :: 0 <= i < j < |kinds| ==> KindName(kinds[i]) != KindName(kinds[j])
  }

  lemma KindNamesDiffer()
    ensures DistinctNames(KINDS)
  {
  }

  lemma {:induction false} FoundIn(kinds: seq<Kind>, i: nat)
    requires i < |kinds| && DistinctNames(kinds)
    ensures KindIn(kinds, KindName(kinds[i])) == Some(kinds[i])
  {
    hide KindName;
    if i > 0 {
      FoundIn(kinds[1..], i - 1);
    }
  }

  lemma {:induction false} BeforeFirst(a: string, b: string, c: char)
    requires c !in a
    ensures Before(a + [c] + b, c) == a && Before(a, c) == a
  {
    if a == "" {
      assert a + [c] + b == [c] + b;
    } else {
      assert (a + [c] + b)[1..] == a[1..] + [c] + b;
      BeforeFirst(a[1..], b, c);
    }
  }

  lemma {:induction false} TrimRightKeepsFront(a: string, b: string)
    requires a == "" || !IsSpace(a[|a| - 1])
    ensures TrimRight(a + b) == a + TrimRight(b)
  {
    if b == "" {
      assert a + b == a;
    } else {
      var whole := a + b;
      assert whole[|whole| - 1] == b[|b| - 1];
      assert whole[..|whole| - 1] == a + b[..|b| - 1];
      if IsSpace(b[|b| - 1]) {
        TrimRightKeepsFront(a, b[..|b| - 1]);
      }
    }
  }

  // What Trim does to a rendered reference: it reaches the key's trailing white space and nothing else.
  lemma TrimRendered(r: EntityRef)
    requires ValidRef(r)
    ensures Trim(Render(r)) == Render(EntityRef(r.kind, TrimRight(r.key)))
  {
    hide KindName, IsSpace;
    KindNameIsPlain(r.kind);
    var n := KindName(r.kind);
    assert TrimLeft(Render(r)) == Render(r);
    if r.key == "" {
      TrimIsProjection(n);
    } else {
      RightBlank(r.key);
      ColonIsNotSpace();
      assert n + ":" + r.key == (n + ":") + r.key;
      TrimRightKeepsFront(n + ":", r.key);
    }
  }

  lemma ColonIsNotSpace()
    ensures !IsSpace(':')
  {
  }

  // Reading a rendered reference back drops exactly the key's trailing white space.
  lemma ParseRendered(r: EntityRef)
    requires ValidRef(r)
    ensures ParseRef(Render(r)) == Ok(EntityRef(r.kind, TrimRight(r.key)))
  {
    hide KindName, IsSpace, Trim, Blank, TrimRight, KindNamed, Before;
    TrimRendered(r);
    KindNameIsPlain(r.kind);
    KindIsNamed(r.kind);
    var n, key := KindName(r.kind), TrimRight(r.key);
    RightBlank(r.key);
    TrimTwice(r.key);
    BeforeFirst(n, key, ':');
    if key != "" {
      assert Render(EntityRef(r.kind, key)) == n + [':'] + key;
      assert (n + [':'] + key)[|n| + 1..] == key;
    } else {
      assert r.key == "" by { EmptyTrim(r); }
    }
  }

  lemma EmptyTrim(r: EntityRef)
    requires ValidRef(r) && TrimRight(r.key) == ""
    ensures r.key == ""
  {
    RightBlank(r.key);
  }

  lemma TrimTwice(s: string)
    ensures Blank(TrimRight(s)) <==> TrimRight(s) == ""
    ensures TrimRight("") == ""
  {
    RightBlank(TrimRight(s));
  }

  // Every reference EntityRefFor produces survives Render and ParseRef if and only if its key has no trailing white
  // space; otherwise it reads back as another, shorter key.
  lemma RefRoundTrip(r: EntityRef)
    requires ValidRef(r)
    ensures ParseRef(Render(r)) == Ok(r) <==> (r.key == "" || !IsSpace(r.key[|r.key| - 1]))
  {
    ParseRendered(r);
    assert r.key == "" || !IsSpace(r.key[|r.key| - 1]) <==> TrimRight(r.key) == r.key;
  }

  // The fold's map keys tell entities apart.
  lemma RenderInjective(a: EntityRef, b: EntityRef)
    requires ValidRef(a) && ValidRef(b) && Render(a) == Render(b)
    ensures a == b
  {
    hide Trim, Blank;
    RenderedKind(a);
    RenderedKind(b);
    KindIsNamed(a.kind);
    KindIsNamed(b.kind);
    RenderedKey(a);
    RenderedKey(b);
  }

  lemma RenderedKind(r: EntityRef)
    requires ValidRef(r)
    ensures Before(Render(r), ':') == KindName(r.kind)
  {
    hide KindName, Trim, Blank;
    KindNameIsPlain(r.kind);
    BeforeFirst(KindName(r.kind), r.key, ':');
    assert KindName(r.kind) + ":" + r.key == KindName(r.kind) + [':'] + r.key;
  }

  lemma RenderedKey(r: EntityRef)
    ensures var n := |KindName(r.kind)|;
            n <= |Render(r)| && r.key == (if n == |Render(r)| then "" else Render(r)[n + 1..])
  {
    hide KindName;
  }

  // ---- records ----

  datatype Action =
    | WorkerCreate | WorkerUpdate | WorkerEnable | WorkerDisable | WorkerFreeze | WorkerUnfreeze | WorkerDelete
    | WorkerPromptWrite | ProjectPromptWrite | ProjectSettingsPut
    | SubscriptionCreate | SubscriptionUpdate | SubscriptionDelete
    | ScheduleCreate | ScheduleUpdate | ScheduleDelete
    | ImageCreate | SkillCreate | TopologyApply | ConnectionConnect | ConnectionDisconnect
    | Unlisted(name: string)

  function KindOf(a: Action): Option<Kind> {
    match a
    case WorkerCreate | WorkerUpdate | WorkerEnable | WorkerDisable | WorkerFreeze | WorkerUnfreeze | WorkerDelete
       | WorkerPromptWrite => Some(WorkerKind)
    case ProjectPromptWrite => Some(PromptKind)
    case ProjectSettingsPut => Some(SettingsKind)
    case SubscriptionCreate | SubscriptionUpdate | SubscriptionDelete => Some(SubscriptionKind)
    case ScheduleCreate | ScheduleUpdate | ScheduleDelete => Some(ScheduleKind)
    case ImageCreate => Some(ImageKind)
    case SkillCreate => Some(SkillKind)
    case TopologyApply => Some(TopologyKind)
    case ConnectionConnect | ConnectionDisconnect => Some(ConnectionKind)
    case Unlisted(_) => None
  }

  predicate IsDelete(a: Action) {
    a == WorkerDelete || a == SubscriptionDelete || a == ScheduleDelete || a == ConnectionDisconnect
  }

  // The payload's fields, by name; `FRest` stands for the columns no rule here looks at.
  datatype Field =
    | FId | FName | FVersion | FTopology | FAccount | FProject | FWorker | FEnabled | FFrozen | FSystemPrompt | FRest
  datatype Json = Str(text: string) | Num(number: int) | Flag(on: bool) | Other
  type Payload = map<Field, Json>

  datatype Record = Record(id: string, project: string, seqNo: nat, action: Action, payload: Payload, at: int)

  function Digits(n: nat): string {
    if n < 10 then [('0' as int + n) as char] else Digits(n / 10) + [('0' as int + n % 10) as char]
  }

  function Decimal(n: int): string {
    if n < 0 then "-" + Digits(-n) else Digits(n)
  }

  // A string field that must be present and not blank.
  function KeyField(p: Payload, f: Field): Option<string> {
    if f in p && p[f].Str? && !Blank(p[f].text) then Some(p[f].text) else None
  }

  // The field an entity of kind `k` is keyed by.
  function IdentityField(k: Kind): Field {
    match k
    case WorkerKind | SkillKind | ImageKind => FName
    case TopologyKind => FTopology
    case ConnectionKind => FAccount
    case _ => FId
  }

  function RefFor(r: Record): Option<EntityRef> {
    match KindOf(r.action)
    case None => None
    case Some(k) =>
      if Singleton(k) then Some(EntityRef(k, ""))
      else
        match KeyField(r.payload, IdentityField(k))
        case None => None
        case Some(name) =>
          if k != ImageKind then Some(EntityRef(k, name))
          else if FVersion in r.payload && r.payload[FVersion].Num? then
            Some(EntityRef(k, name + ":" + Decimal(r.payload[FVersion].number)))
          else None
  }

  lemma {:induction false} DigitsVisible(n: nat)
    ensures Digits(n) != "" && forall i :: 0 <= i < |Digits(n)| ==> !IsSpace(Digits(n)[i])
  {
    if n >= 10 {
      DigitsVisible(n / 10);
    }
  }

  lemma RefForIsValid(r: Record)
    ensures RefFor(r).Some? ==> ValidRef(RefFor(r).value) && KindOf(r.action) == Some(RefFor(r).value.kind)
  {
    hide Trim, Blank;
    match KindOf(r.action)
    case Some(ImageKind) =>
      if RefFor(r).Some? {
        ImageKeyVisible(r.payload[FName].text, r.payload[FVersion].number);
      }
    case _ =>
  }

  lemma ImageKeyVisible(name: string, version: int)
    ensures !Blank(name + ":" + Decimal(version))
  {
    var d := if version < 0 then -version else version;
    DigitsVisible(d);
    var key := name + ":" + Decimal(version);
    RightBlank(key);
    assert key[|key| - 1] == Digits(d)[|Digits(d)| - 1];
  }

  // ---- the fold ----

  datatype Folded = Folded(ref: EntityRef, record: Record)
  datatype Snapshot = Snapshot(entities: map<string, Folded>, deleted: map<string, Record>)

  predicate AllKeyed(log: seq<Record>) {
    forall i :: 0 <= i < |log| ==> RefFor(log[i]).Some?
  }

  function KeyOf(r: Record): string
    requires RefFor(r).Some?
  {
    Render(RefFor(r).value)
  }

  function Absorbed(s: Snapshot, r: Record): Snapshot
    requires RefFor(r).Some?
  {
    var key := KeyOf(r);
    if IsDelete(r.action) then Snapshot(s.entities - {key}, s.deleted[key := r])
    else Snapshot(s.entities[key := Folded(RefFor(r).value, r)], s.deleted - {key})
  }

  // Last writer wins, oldest first.
  function Fold(log: seq<Record>): Snapshot
    requires AllKeyed(log)
  {
    if log == [] then Snapshot(map[], map[]) else Absorbed(Fold(log[..|log| - 1]), log[|log| - 1])
  }

  // The rows of one project up to an instant, in sequence order (`at` <= 0: the whole log).
  function Selected(log: seq<Record>, project: string, at: int): seq<Record> {
    if log == [] then []
    else
      var front, r := Selected(log[..|log| - 1], project, at), log[|log| - 1];
      if r.project == project && (at <= 0 || r.at <= at) then front + [r] else front
  }

  datatype FoldError = NoProject | NotKeyed

  lemma FoldNothing(evs: seq<Record>)
    ensures AllKeyed(evs[..0]) && Fold(evs[..0]) == Snapshot(map[], map[])
  {
  }

  lemma FoldNext(evs: seq<Record>, i: nat)
    requires i < |evs| && AllKeyed(evs[..i])
    ensures AllKeyed(evs[..i + 1]) <==> RefFor(evs[i]).Some?
    ensures RefFor(evs[i]).Some? ==> Fold(evs[..i + 1]) == Absorbed(Fold(evs[..i]), evs[i])
    ensures RefFor(evs[i]).None? ==> !AllKeyed(evs)
  {
    hide RefFor, Absorbed;
    assert evs[..i + 1][..i] == evs[..i];
    assert evs[..i + 1] == evs[..i] + [evs[i]];
  }

  // The loop of FoldTo over the rows the query returned.
  method FoldTo(project: string, evs: seq<Record>) returns (r: Result<(Snapshot, nat), FoldError>)
    ensures Blank(project) ==> r == Err(NoProject)
    ensures !Blank(project) && !AllKeyed(evs) ==> r == Err(NotKeyed)
    ensures !Blank(project) && AllKeyed(evs) ==> r == Ok((Fold(evs), |evs|))
  {
    hide RefFor, Render, Trim, Blank, AllKeyed, Fold;
    if Blank(project) {
      return Err(NoProject);
    }
    var entities: map<string, Folded>, deleted: map<string, Record> := map[], map[];
    FoldNothing(evs);
    for i := 0 to |evs|
      invariant AllKeyed(evs[..i]) && Snapshot(entities, deleted) == Fold(evs[..i])
    {
      var ev := evs[i];
      FoldNext(evs, i);
      match RefFor(ev) {
        case None => return Err(NotKeyed);
        case Some(ref) =>
          var key := Render(ref);
          if IsDelete(ev.action) {
            entities := entities - {key};
            deleted := deleted[key := ev];
          } else {
            deleted := deleted - {key};
            entities := entities[key := Folded(ref, ev)];
          }
      }
    }
    assert evs[..|evs|] == evs;
    return Ok((Snapshot(entities, deleted), |evs|));
  }

  // The newest record of an entity, by searching backwards: what a reader means by its latest state.
  function Newest(log: seq<Record>, ref: EntityRef): Option<Record> {
    if log == [] then None
    else if RefFor(log[|log| - 1]) == Some(ref) then Some(log[|log| - 1])
    else Newest(log[..|log| - 1], ref)
  }

  // The fold shows an entity exactly when its newest record is not a delete, and shows that record; it holds a
  // tombstone exactly when the newest record is a delete, and it is that record.
  lemma {:induction false} FoldIsNewest(log: seq<Record>, ref: EntityRef)
    requires AllKeyed(log) && ValidRef(ref)
    ensures var s, key := Fold(log), Render(ref);
            match Newest(log, ref)
            case None => key !in s.entities && key !in s.deleted
            case Some(r) =>
              if IsDelete(r.action) then key !in s.entities && key in s.deleted && s.deleted[key] == r
              else key in s.entities && s.entities[key] == Folded(ref, r) && key !in s.deleted
  {
    hide Render, RefFor, Trim, Blank;
    if log != [] {
      var front, r := log[..|log| - 1], log[|log| - 1];
      FoldIsNewest(front, ref);
      RefForIsValid(r);
      if RefFor(r) != Some(ref) && KeyOf(r) == Render(ref) {
        RenderInjective(RefFor(r).value, ref);
      }
    }
  }

  function KeysWritten(log: seq<Record>): set<string>
    requires AllKeyed(log)
  {
    if log == [] then {} else KeysWritten(log[..|log| - 1]) + {KeyOf(log[|log| - 1])}
  }

  // Live and tombstoned keys are disjoint and together are exactly the keys ever written.
  lemma {:induction false} FoldKeys(log: seq<Record>)
    requires AllKeyed(log)
    ensures Fold(log).entities.Keys !! Fold(log).deleted.Keys
    ensures Fold(log).entities.Keys + Fold(log).deleted.Keys == KeysWritten(log)
  {
    hide KeyOf, RefFor;
    if log != [] {
      FoldKeys(log[..|log| - 1]);
    }
  }

  // ---- the fold at an instant ----

  predicate Ordered(log: seq<Record>) {
    forall i, j :: 0 <= i < j < |log| ==> log[i].at <= log[j].at
  }

  // The number of records stamped up to an instant, where stamps follow the sequence.
  function UpTo(log: seq<Record>, at: int): (k: nat)
    ensures k <= |log|
  {
    if log == [] then 0 else if log[|log| - 1].at <= at then |log| else UpTo(log[..|log| - 1], at)
  }

  predicate OneProject(log: seq<Record>, project: string) {
    forall i :: 0 <= i < |log| ==> log[i].project == project
  }

  // The rows a fold to an instant reads are the log as it stood then, for every instant, exactly when the stamps
  // never decrease along the sequence.
  lemma SelectionIsPrefix(log: seq<Record>, project: string)
    requires OneProject(log, project) && (forall i :: 0 <= i < |log| ==> log[i].at > 0)
    ensures Ordered(log) <==>
              forall at {:trigger Selected(log, project, at)} :: at > 0 ==> Selected(log, project, at) <= log
  {
    if Ordered(log) {
      forall at | at > 0 ensures Selected(log, project, at) <= log {
        OrderedSelection(log, project, at);
      }
    } else {
      var i, j :| 0 <= i < j < |log| && log[i].at > log[j].at;
      LateStamp(log, project, i, j);
    }
  }

  lemma {:induction false} OrderedSelection(log: seq<Record>, project: string, at: int)
    requires OneProject(log, project) && Ordered(log) && at > 0
    ensures Selected(log, project, at) == log[..UpTo(log, at)]
  {
    if log != [] {
      var front := log[..|log| - 1];
      OrderedSelection(front, project, at);
      if log[|log| - 1].at <= at {
        AllUpTo(front, at);
        assert log == front + [log[|log| - 1]];
      } else {
        assert front[..UpTo(front, at)] == log[..UpTo(front, at)];
      }
    }
  }

  lemma AllUpTo(log: seq<Record>, at: int)
    requires forall i :: 0 <= i < |log| ==> log[i].at <= at
    ensures UpTo(log, at) == |log|
  {
  }

  lemma {:induction false} SelectedConcat(a: seq<Record>, b: seq<Record>, project: string, at: int)
    ensures Selected(a + b, project, at) == Selected(a, project, at) + Selected(b, project, at)
  {
    if b == [] {
      assert a + b == a;
    } else {
      assert (a + b)[..|a + b| - 1] == a + b[..|b| - 1];
      SelectedConcat(a, b[..|b| - 1], project, at);
    }
  }

  lemma {:induction false} SelectedStamps(log: seq<Record>, project: string, at: int)
    requires at > 0
    ensures forall r :: r in Selected(log, project, at) ==> r.at <= at
  {
    if log != [] {
      SelectedStamps(log[..|log| - 1], project, at);
    }
  }

  lemma {:induction false} AllSelected(log: seq<Record>, project: string, at: int)
    requires OneProject(log, project) && forall i :: 0 <= i < |log| ==> log[i].at <= at
    ensures Selected(log, project, at) == log
  {
    if log != [] {
      AllSelected(log[..|log| - 1], project, at);
    }
  }

  lemma {:induction false} SomeSelected(log: seq<Record>, project: string, at: int, j: nat)
    requires OneProject(log, project) && j < |log| && log[j].at <= at
    ensures Selected(log, project, at) != []
  {
    if j < |log| - 1 {
      SomeSelected(log[..|log| - 1], project, at, j);
    }
  }

  // A record stamped after a later one is left out of the fold to the later one's stamp.
  lemma LateStamp(log: seq<Record>, project: string, i: nat, j: nat)
    requires OneProject(log, project) && i < j < |log| && log[i].at > log[j].at > 0
    ensures !(Selected(log, project, log[j].at) <= log)
  {
    var at := log[j].at;
    var s := Selected(log, project, at);
    SelectedStamps(log, project, at);
    assert log[i] !in s;
    if |s| > i {
      var other := s[i];
    } else if AllStamped(log[..|s|], at) {
      ShortPrefix(log, project, at, |s|, j);
    }
  }

  predicate AllStamped(log: seq<Record>, at: int) {
    forall i :: 0 <= i < |log| ==> log[i].at <= at
  }

  lemma ShortPrefix(log: seq<Record>, project: string, at: int, k: nat, j: nat)
    requires OneProject(log, project) && k <= j < |log| && log[j].at <= at && AllStamped(log[..k], at)
    ensures |Selected(log, project, at)| > k
  {
    AllSelected(log[..k], project, at);
    SomeSelected(log[k..], project, at, j - k);
    SelectedConcat(log[..k], log[k..], project, at);
    assert log == log[..k] + log[k..];
  }

  // ---- what a tombstone is ----

  // The one action that deletes an entity of the kind; images, skills, topologies and the singletons have none.
  function DeleteActionOf(k: Kind): Option<Action> {
    match k
    case WorkerKind => Some(WorkerDelete)
    case SubscriptionKind => Some(SubscriptionDelete)
    case ScheduleKind => Some(ScheduleDelete)
    case ConnectionKind => Some(ConnectionDisconnect)
    case _ => None
  }

  lemma {:induction false} NewestIsRecord(log: seq<Record>, ref: EntityRef)
    ensures Newest(log, ref).Some? ==> RefFor(Newest(log, ref).value) == Some(ref)
  {
    hide RefFor;
    if log != [] {
      NewestIsRecord(log[..|log| - 1], ref);
    }
  }

  // An entity is tombstoned exactly if its newest record is its kind's delete: a connection by a disconnect, and an
  // image, a skill, a topology, the settings or the prompt never.
  lemma TombstonedByAction(log: seq<Record>, ref: EntityRef)
    requires AllKeyed(log) && ValidRef(ref)
    ensures var s, key, newest := Fold(log), Render(ref), Newest(log, ref);
            (key in s.deleted <==> newest.Some? && Some(newest.value.action) == DeleteActionOf(ref.kind)) &&
            (key in s.entities <==> newest.Some? && Some(newest.value.action) != DeleteActionOf(ref.kind))
  {
    hide Render, RefFor, Fold, Newest, Trim, Blank;
    FoldIsNewest(log, ref);
    NewestIsRecord(log, ref);
    if Newest(log, ref).Some? {
      RefForIsValid(Newest(log, ref).value);
    }
  }
}
