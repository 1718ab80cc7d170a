/** The audio-rule transaction of src/audio.rs: plan, apply, compensate, on a disk whose operations may fail. */
module AudioTransaction {
  import opened Collections
  import opened AudioRules
  import opened AudioCompensation

  /** The disk; which operations fail is the environment's choice. */
  class FileSystem {
    var disk: Disk
    ghost var faults: seq<Fault>

    constructor (disk: Disk)
      ensures this.disk == disk && faults == []
    {
      this.disk := disk;
      faults := [];
    }

    method Read(p: Path) returns (r: Result<Option<Content>, ()>)
      modifies this`faults
      ensures r.Ok? ==> faults == old(faults) && r.value == Find(disk, p)
      ensures r.Err? ==> faults == old(faults) + [Unreadable(p)]
    {
      if * {
        faults := faults + [Unreadable(p)];
        return Err(());
      }
      return Ok(Find(disk, p));
    }

    /** Removing a file that is not there fails as well, but is not a fault. */
    method RemoveFile(p: Path) returns (ok: bool)
      modifies this
      ensures ok ==> p in old(disk) && disk == old(disk) - {p} && faults == old(faults)
      ensures !ok ==> disk == old(disk) && faults == old(faults) + if p in disk then [Unremovable(p)] else []
    {
      if p !in disk {
        return false;
      }
      if * {
        faults := faults + [Unremovable(p)];
        return false;
      }
      disk := disk - {p};
      return true;
    }

    /** Atomic replacement; the directory may fail to sync after the rename. */
    method Replace(p: Path, content: Content) returns (ok: bool)
      modifies this
      ensures ok ==> disk == old(disk)[p := content] && faults == old(faults)
      ensures !ok ==> (disk == old(disk) && faults == old(faults) + [Unwritten(p)])
                      || (disk == old(disk)[p := content] && faults == old(faults) + [Late(p)])
    {
      if * {
        faults := faults + [Unwritten(p)];
        return false;
      }
      disk := disk[p := content];
      if * {
        faults := faults + [Late(p)];
        return false;
      }
      return true;
    }
  }

  /** Systemd user services; `restarts` counts attempts. */
  class Services {
    var restarts: nat
    ghost var failedRestarts: nat

    constructor ()
      ensures restarts == 0 && failedRestarts == 0
    {
      restarts, failedRestarts := 0, 0;
    }

    method Restart() returns (ok: bool)
      modifies this
      ensures restarts == old(restarts) + 1 && failedRestarts == old(failedRestarts) + if ok then 0 else 1
    {
      restarts := restarts + 1;
      if * {
        failedRestarts := failedRestarts + 1;
        return false;
      }
      return true;
    }
  }

  /** Removes what the change created, newest first, unless it is something else by now. */
  method UndoCreations(fs: FileSystem, created: seq<OwnedRule>) returns (r: Result<(), Message>)
    requires DistinctPaths(created)
    modifies fs
    ensures r.Ok? ==>
              fs.faults == old(fs.faults) && fs.disk == old(fs.disk) - Paths(created) && Intact(old(fs.disk), created)
    ensures r.Err? && fs.faults == old(fs.faults) ==> r.error == {ConflictMarker} && !Intact(old(fs.disk), created)
    ensures fs.faults != old(fs.faults) ==> r == Err({}) && exists f :: fs.faults == old(fs.faults) + [f]
    ensures forall p :: Find(fs.disk, p) == Find(old(fs.disk), p) || (p in Paths(created) && p !in fs.disk)
  {
    ghost var before := fs.disk;
    CreationsStart(before, created);
    var i := |created|;
    while i > 0
      invariant 0 <= i <= |created| && fs.faults == old(fs.faults)
      invariant CreationsLeft(before, fs.disk, created, i)
      invariant Intact(before, created[i..])
    {
      i := i - 1;
      var x := created[i];
      ghost var now := fs.disk;
      CreationsStep(before, now, created, i);
      assert Find(now, x.path) == Find(before, x.path);
      hide Paths;
      var found := fs.Read(x.path);
      if found.Err? {
        return Err({});
      }
      assert Find(before, x.path) == found.value;
      if found.value.Some? {
        if found.value.value != x.content {
          return Err({ConflictMarker});
        }
        var ok := fs.RemoveFile(x.path);
        if !ok {
          return Err({});
        }
      }
      assert fs.disk == now - {x.path};
    }
    assert created[..0] == [];
    return Ok(());
  }

  /** Puts back what the change removed, newest first, unless something else is there by now. */
  method UndoRemovals(fs: FileSystem, removed: seq<OwnedRule>) returns (r: Result<(), Message>)
    requires DistinctPaths(removed)
    modifies fs
    ensures r.Ok? ==>
              fs.faults == old(fs.faults) && fs.disk == old(fs.disk) + Contents(removed) && Intact(old(fs.disk), removed)
    ensures r.Err? && fs.faults == old(fs.faults) ==> r.error == {ConflictMarker} && !Intact(old(fs.disk), removed)
    ensures fs.faults != old(fs.faults) ==> r == Err({}) && exists f :: fs.faults == old(fs.faults) + [f]
    ensures PutBack(old(fs.disk), fs.disk, removed)
  {
    ghost var before := fs.disk;
    RemovalsStart(before, removed);
    hide Contents;
    var i := |removed|;
    while i > 0
      invariant 0 <= i <= |removed| && fs.faults == old(fs.faults)
      invariant RemovalsLeft(before, fs.disk, removed, i)
      invariant Intact(before, removed[i..])
    {
      i := i - 1;
      var x := removed[i];
      ghost var now := fs.disk;
      RemovalsStep(before, now, removed, i);
      assert Find(now, x.path) == Find(before, x.path);
      var found := fs.Read(x.path);
      if found.Err? {
        return Err({});
      }
      if found.value.Some? {
        if found.value.value != x.content {
          return Err({ConflictMarker});
        }
        assert fs.disk == now[x.path := x.content];
        continue;
      }
      var ok := fs.Replace(x.path, x.content);
      if !ok {
        return Err({});
      }
    }
    NothingLeft(before, fs.disk, removed);
    return Ok(());
  }

  /** `rollback_files`, whatever has become of the disk since the change was made. */
  method RollbackFiles(fs: FileSystem, c: RuleChange) returns (r: Result<(), Message>)
    requires DistinctPaths(c.created) && DistinctPaths(c.removed)
    modifies fs
    ensures r.Ok? ==> fs.faults == old(fs.faults) && RolledBack(old(fs.disk), c) == Some(fs.disk)
    ensures r.Err? && fs.faults == old(fs.faults) ==> r.error == {ConflictMarker} && RolledBack(old(fs.disk), c) == None
    ensures fs.faults != old(fs.faults) ==> r == Err({}) && exists f :: fs.faults == old(fs.faults) + [f]
    ensures Restoring(old(fs.disk), fs.disk, c)
  {
    hide Contents;
    r := UndoCreations(fs, c.created);
    if r.Ok? {
      assert fs.disk == old(fs.disk) - Paths(c.created);
      r := UndoRemovals(fs, c.removed);
    }
  }

  /** Reads every owned path and plans, changing nothing. */
  method MakePlan(fs: FileSystem, previous: Rules, desired: Rules, order: seq<Path>)
    returns (r: Result<RuleChange, Message>)
    requires Lists(order, previous.Keys + desired.Keys)
    modifies fs`faults
    ensures r.Ok? ==>
              && fs.faults == old(fs.faults) && !Conflicting(fs.disk, previous, desired)
              && r.value == Plan(fs.disk, previous, desired, order)
    ensures r.Err? && fs.faults == old(fs.faults) ==> r.error == {ConflictMarker} && Conflicting(fs.disk, previous, desired)
    ensures fs.faults != old(fs.faults) ==> r == Err({}) && exists p :: fs.faults == old(fs.faults) + [Unreadable(p)]
  {
    var created: seq<OwnedRule>, removed: seq<OwnedRule> := [], [];
    var i := 0;
    while i < |order|
      invariant 0 <= i <= |order| && fs.faults == old(fs.faults)
      invariant RuleChange(created, removed) == Plan(fs.disk, previous, desired, order[..i])
      invariant forall j :: 0 <= j < i ==> !Decide(fs.disk, previous, desired, order[j]).Conflict?
    {
      var p := order[i];
      assert order[..i + 1][..i] == order[..i];
      i := i + 1;
      var found := fs.Read(p);
      if found.Err? {
        return Err({});
      }
      if found.value == Find(desired, p) {
        continue;
      }
      if found.value == None {
        created := created + [OwnedRule(p, desired[p])];
        continue;
      }
      if found.value != Find(previous, p) {
        assert Decide(fs.disk, previous, desired, p).Conflict?;
        return Err({ConflictMarker});
      }
      removed := removed + [OwnedRule(p, previous[p])];
      if p in desired {
        created := created + [OwnedRule(p, desired[p])];
      }
    }
    assert order[..|order|] == order;
    return Ok(RuleChange(created, removed));
  }

  /** Undoes the part of a change that was applied before `fault`; `message` is what the failure itself would say. */
  method Compensate(fs: FileSystem, applied: RuleChange) returns (message: Message)
    requires DistinctPaths(applied.created) && DistinctPaths(applied.removed)
    modifies fs
    ensures message == {} ==> fs.faults == old(fs.faults) && RolledBack(old(fs.disk), applied) == Some(fs.disk)
    ensures message != {} ==> message == {CleanupMarker}
    ensures message != {} && fs.faults == old(fs.faults) ==> RolledBack(old(fs.disk), applied) == None
    ensures fs.faults != old(fs.faults) ==> message != {} && exists f :: fs.faults == old(fs.faults) + [f]
    ensures Restoring(old(fs.disk), fs.disk, applied)
  {
    var r := RollbackFiles(fs, applied);
    message := if r.Ok? then {} else {CleanupMarker};
  }

  method RemovePlanned(fs: FileSystem, c: RuleChange, ghost owned: set<Path>, ghost desired: Rules)
    returns (r: Result<(), Message>)
    requires Undoable(fs.disk, c) && Serves(c, owned, desired)
    modifies fs
    ensures old(fs.faults) <= fs.faults
    ensures r.Ok? ==> fs.faults == old(fs.faults) && fs.disk == old(fs.disk) - Paths(c.removed)
    ensures r.Err? ==> Failed(old(fs.disk), fs.disk, owned, desired, fs.faults[|old(fs.faults)|..], r.error)
  {
    ghost var before := fs.disk;
    var i := 0;
    while i < |c.removed|
      invariant 0 <= i <= |c.removed| && fs.faults == old(fs.faults)
      invariant fs.disk == before - Paths(c.removed[..i])
    {
      RemoveStep(before, c, i);
      PrefixServes(before, c, i, owned, desired);
      ApplyRemovals(before, c.removed[..i]);
      hide Paths, Undoable, Serves, Apply, Failed;
      var p := c.removed[i].path;
      var ok := fs.RemoveFile(p);
      if !ok {
        var message := FailStep(fs, RuleChange([], c.removed[..i]), before, Unremovable(p), owned, desired);
        return Err(message);
      }
      i := i + 1;
    }
    assert c.removed[..|c.removed|] == c.removed;
    return Ok(());
  }

  /** Compensation after a failed step. */
  method FailStep(fs: FileSystem, applied: RuleChange, ghost before: Disk, ghost f: Fault, ghost owned: set<Path>,
                  ghost desired: Rules)
    returns (message: Message)
    requires Undoable(before, applied) && Serves(applied, owned, desired)
             && StepFailed(before, fs.disk, applied, f, owned, desired)
    requires fs.faults != [] && fs.faults[|fs.faults| - 1] == f
    modifies fs
    ensures old(fs.faults) <= fs.faults
    ensures Failed(before, fs.disk, owned, desired, fs.faults[|old(fs.faults)| - 1..], message)
  {
    ghost var now := fs.disk;
    AfterFailedStep(before, now, applied, f, owned, desired);
    hide Contents, RolledBack, Apply, StepFailed;
    message := Compensate(fs, applied);
    RestoringIsBetween(before, now, fs.disk, owned, desired, applied);
  }

  method CreatePlanned(fs: FileSystem, ghost before: Disk, c: RuleChange, ghost owned: set<Path>, ghost desired: Rules)
    returns (r: Result<(), Message>)
    requires Undoable(before, c) && Serves(c, owned, desired) && fs.disk == before - Paths(c.removed)
    modifies fs
    ensures old(fs.faults) <= fs.faults
    ensures r.Ok? ==> fs.faults == old(fs.faults) && fs.disk == Apply(before, c)
    ensures r.Err? ==> Failed(before, fs.disk, owned, desired, fs.faults[|old(fs.faults)|..], r.error)
  {
    hide *;
    CreateStart(before, c);
    var j := 0;
    while j < |c.created|
      invariant 0 <= j <= |c.created| && fs.faults == old(fs.faults)
      invariant fs.disk == Apply(before, RuleChange(c.created[..j], c.removed))
    {
      var x := c.created[j];
      var applied := RuleChange(c.created[..j], c.removed);
      PrefixServes(before, c, j, owned, desired);
      CreateStep(before, c, j);
      CreateMayFail(before, c, j, owned, desired);
      var ok := fs.Replace(x.path, x.content);
      if !ok {
        var message := FailStep(fs, applied, before, fs.faults[|fs.faults| - 1], owned, desired);
        return Err(message);
      }
      j := j + 1;
    }
    assert c.created[..|c.created|] == c.created;
    return Ok(());
  }

  /** `reconcile`. */
  method Reconcile(fs: FileSystem, previous: Rules, desired: Rules, order: seq<Path>)
    returns (r: Result<RuleChange, Message>)
    requires Lists(order, previous.Keys + desired.Keys)
    modifies fs
    ensures old(fs.faults) <= fs.faults
    ensures Reconciled(old(fs.disk), fs.disk, previous, desired, order, fs.faults[|old(fs.faults)|..], r)
  {
    ghost var before, owned := fs.disk, previous.Keys + desired.Keys;
    var planned := MakePlan(fs, previous, desired, order);
    if planned.Err? {
      return planned;
    }
    var c := planned.value;
    PlanIsUndoable(before, previous, desired, order);
    PlanServes(before, previous, desired, order);
    PlanReachesTarget(before, previous, desired, order);
    hide Plan, Apply, Undoable, Conflicting, Between, Target, Contents;
    assert DistinctPaths(c.created) && DistinctPaths(c.removed);
    var removed := RemovePlanned(fs, c, owned, desired);
    if removed.Err? {
      return Err(removed.error);
    }
    var created := CreatePlanned(fs, before, c, owned, desired);
    if created.Err? {
      return Err(created.error);
    }
    return Ok(c);
  }

  /** `rollback_change`. */
  method RollbackChange(fs: FileSystem, services: Services, c: RuleChange) returns (r: Result<(), Message>)
    requires DistinctPaths(c.created) && DistinctPaths(c.removed)
    modifies fs, services
    ensures old(fs.faults) <= fs.faults && old(services.restarts) <= services.restarts
    ensures old(services.failedRestarts) <= services.failedRestarts
    ensures Undone(old(fs.disk), fs.disk, c,
                   Events(fs.faults[|old(fs.faults)|..], services.restarts - old(services.restarts),
                          services.failedRestarts - old(services.failedRestarts)), r)
  {
    hide Contents;
    if !c.Changed() {
      NothingToUndo(fs.disk);
      return Ok(());
    }
    r := RollbackFiles(fs, c);
    hide RolledBack, Restoring;
    if r.Ok? {
      var ok := services.Restart();
      r := if ok then Ok(()) else Err({});
    }
  }

  function RulesOf(rules: Option<Rules>): Rules {
    if rules.Some? then rules.value else NO_RULES
  }

  /** `reconcile_with_reload`; `order` is the order in which the paths of both rule sets are visited. */
  method ReconcileWithReload(fs: FileSystem, services: Services, previous: Option<Rules>, desired: Option<Rules>,
                             order: seq<Path>)
    returns (r: Result<RuleChange, Message>)
    requires Lists(order, RulesOf(previous).Keys + RulesOf(desired).Keys)
    modifies fs, services
    ensures old(fs.faults) <= fs.faults && old(services.restarts) <= services.restarts
    ensures old(services.failedRestarts) <= services.failedRestarts
    ensures Reloaded(old(fs.disk), fs.disk, RulesOf(previous), RulesOf(desired), order,
                     Events(fs.faults[|old(fs.faults)|..], services.restarts - old(services.restarts),
                            services.failedRestarts - old(services.failedRestarts)), r)
  {
    hide *;
    ghost var before, faults, restarts, failed := fs.disk, fs.faults, services.restarts, services.failedRestarts;
    ghost var had, wanted := RulesOf(previous), RulesOf(desired);
    r := Reconcile(fs, RulesOf(previous), RulesOf(desired), order);
    ghost var now, news := fs.disk, fs.faults[|faults|..];
    if r.Err? || !r.value.Changed() {
      NoRestart(before, now, had, wanted, order, news, r);
      return;
    }
    var change := r.value;
    OneRestart(before, now, had, wanted, order, news, change);
    var ok := services.Restart();
    if ok {
      return;
    }
    assert fs.faults == faults;
    ReportedChangeIsUndone(before, now, had, wanted, order, change);
    var undone := RollbackChange(fs, services, change);
    FailedRestart(before, now, fs.disk, had, wanted, order, change,
                  Events(fs.faults[|faults|..], services.restarts - restarts - 1, services.failedRestarts - failed - 1),
                  undone);
    r := Err(RestartError(undone));
  }
}
