/**
 The runner's lock-protected maps for creating and destroying sessions (go/runner.go).

 Every block the runner executes under its mutex is one atomic operation. Each operation is a function on the
 `Shared` value below, and a method of the class `Runner` that updates the maps in place and is proved against it.
 */
module RunnerState {
  import opened Text

  type Sid = string
  type Inst = nat
  type WorkerId = string

  // `G` is what a guard is: an object in the class, a number in the interleaving model.
  datatype Shared<!G(==)> = Shared(
    creating: map<Sid, G>,
    abandoned: set<G>,
    instances: map<Sid, Inst>,
    workers: map<Sid, WorkerId>)

  function WithGuard<G>(sh: Shared<G>, sid: Sid, g: G): Shared<G> {
    sh.(creating := sh.creating[sid := g])
  }

  // The guard a create runs under: the registered one if there is one, else `spare`.
  function Adopted<G>(sh: Shared<G>, sid: Sid, spare: G): G {
    if sid in sh.creating then sh.creating[sid] else spare
  }

  function WithoutGuard<G(==)>(sh: Shared<G>, sid: Sid, g: G): Shared<G> {
    if sid in sh.creating && sh.creating[sid] == g then sh.(creating := sh.creating - {sid}) else sh
  }

  function MarkedAbandoned<G>(sh: Shared<G>, sid: Sid): Shared<G> {
    if sid in sh.creating then sh.(abandoned := sh.abandoned + {sh.creating[sid]}) else sh
  }

  predicate NewerCreate<G>(sh: Shared<G>, sid: Sid, g: G) {
    sid in sh.creating && sh.creating[sid] != g && sh.creating[sid] !in sh.abandoned
  }

  function Tracked<G>(sh: Shared<G>, sid: Sid, w: WorkerId, inst: Inst): Shared<G> {
    sh.(instances := sh.instances[sid := inst], workers := sh.workers[sid := w])
  }

  function Forgotten<G>(sh: Shared<G>, sid: Sid): Shared<G> {
    sh.(instances := sh.instances - {sid}, workers := sh.workers - {sid})
  }

  // What abandonCreate untracks before it destroys `inst`.
  function Untracked<G>(sh: Shared<G>, sid: Sid, g: G, inst: Inst): Shared<G> {
    if sid in sh.instances && sh.instances[sid] == inst && !NewerCreate(sh, sid, g) then Forgotten(sh, sid) else sh
  }

  class CreateGuard {
    var abandoned: bool

    constructor ()
      ensures !abandoned
    {
      abandoned := false;
    }
  }

  class Runner {
    var creating: map<Sid, CreateGuard>
    var instances: map<Sid, Inst>
    var instanceWorkers: map<Sid, WorkerId>
    ghost var guards: set<CreateGuard>  // every guard ever installed

    ghost predicate Valid()
      reads this
    {
      forall sid :: sid in creating ==> creating[sid] in guards
    }

    ghost function Value(): Shared<CreateGuard>
      reads this, guards
    {
      Shared(creating, (set g | g in guards && g.abandoned), instances, instanceWorkers)
    }

    constructor ()
      ensures Valid() && guards == {} && Value() == Shared(map[], {}, map[], map[])
    {
      creating, instances, instanceWorkers := map[], map[], map[];
      guards := {};
    }

    method MarkCreating(sid: Sid)
      requires Valid()
      modifies this`creating, this`guards
      ensures Valid()
      ensures sid in creating && fresh(creating[sid]) && guards == old(guards) + {creating[sid]}
      ensures Value() == WithGuard(old(Value()), sid, creating[sid])
    {
      var g := new CreateGuard();
      creating := creating[sid := g];
      guards := guards + {g};
    }

    method AdoptCreateGuard(sid: Sid) returns (g: CreateGuard)
      requires Valid()
      modifies this`creating, this`guards
      ensures Valid() && g in guards
      ensures g == Adopted(old(Value()), sid, g) && (sid !in old(creating) ==> fresh(g))
      ensures Value() == WithGuard(old(Value()), sid, g)
    {
      if sid in creating {
        assert creating[sid := creating[sid]] == creating;
        return creating[sid];
      }
      g := new CreateGuard();
      creating := creating[sid := g];
      guards := guards + {g};
    }

    method EndCreate(sid: Sid, g: CreateGuard)
      requires Valid()
      modifies this`creating
      ensures Valid() && Value() == WithoutGuard(old(Value()), sid, g)
    {
      if sid in creating && creating[sid] == g {
        creating := creating - {sid};
      }
    }

    method MarkCreateAbandoned(sid: Sid)
      requires Valid()
      modifies guards
      ensures Valid() && Value() == MarkedAbandoned(old(Value()), sid)
    {
      if sid in creating {
        creating[sid].abandoned := true;
      }
    }

    method Abandoned(g: CreateGuard) returns (b: bool)
      requires Valid() && g in guards
      ensures b <==> g in Value().abandoned
    {
      b := g.abandoned;
    }

    // The locked block of abandonCreate.
    method UntrackAbandoned(sid: Sid, g: CreateGuard, inst: Inst) returns (newerCreate: bool)
      requires Valid()
      modifies this`instances, this`instanceWorkers
      ensures Valid() && creating == old(creating)
      ensures newerCreate <==> sid in creating && creating[sid] != g && !creating[sid].abandoned
      ensures if !newerCreate && sid in old(instances) && old(instances[sid]) == inst
              then instances == old(instances) - {sid} && instanceWorkers == old(instanceWorkers) - {sid}
              else instances == old(instances) && instanceWorkers == old(instanceWorkers)
      ensures newerCreate == NewerCreate(old(Value()), sid, g) && Value() == Untracked(old(Value()), sid, g, inst)
    {
      newerCreate := false;
      if sid in creating && creating[sid] != g && !creating[sid].abandoned {
        newerCreate := true;
      }
      if sid in instances && instances[sid] == inst && !newerCreate {
        instances, instanceWorkers := instances - {sid}, instanceWorkers - {sid};
      }
    }

    method Track(sid: Sid, w: WorkerId, inst: Inst)
      requires Valid()
      modifies this`instances, this`instanceWorkers
      ensures Valid() && Value() == Tracked(old(Value()), sid, w, inst)
    {
      instances, instanceWorkers := instances[sid := inst], instanceWorkers[sid := w];
    }

    method Get(sid: Sid) returns (r: Option<Inst>)
      ensures r == if sid in Value().instances then Some(Value().instances[sid]) else None
    {
      r := if sid in instances then Some(instances[sid]) else None;
    }

    method Forget(sid: Sid)
      requires Valid()
      modifies this`instances, this`instanceWorkers
      ensures Valid() && Value() == Forgotten(old(Value()), sid)
    {
      instances, instanceWorkers := instances - {sid}, instanceWorkers - {sid};
    }
  }
}
