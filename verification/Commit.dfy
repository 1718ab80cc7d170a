/** `commit_persistent` of src/setup/production.rs: audio rules and configuration change together or not at all. */
module Commit {
  import opened Collections
  import opened Machine
  import opened AudioRules
  import opened AudioCompensation
  import opened AudioTransaction

  datatype Configuration = Configuration(adapter: string, adapterAddress: string, deviceAddress: string, deviceName: string)

  /** What the one attempt to save came to; `SavedLate` took effect before it was reported as failed. */
  datatype Save = NotTried | Saved | Unsaved | SavedLate

  class ConfigurationStore {
    var saved: Option<Configuration>
    ghost var last: Save

    constructor (saved: Option<Configuration>)
      ensures this.saved == saved && last == NotTried
    {
      this.saved := saved;
      last := NotTried;
    }

    /** Gives the configuration if there is one, or fails to read, parse or validate it. */
    method Load() returns (r: Result<Option<Configuration>, ()>)
      ensures r.Ok? ==> r.value == saved
    {
      if * {
        return Err(());
      }
      return Ok(saved);
    }

    /** Removing a configuration that is not there succeeds. */
    method Remove() returns (ok: bool)
      modifies this`saved
      ensures saved == if ok then None else old(saved)
    {
      if saved.Some? {
        if * {
          return false;
        }
      }
      saved := None;
      return true;
    }

    /**
     * Fails without effect if validation or the atomic replacement fails, or with effect if the directory does not
     * sync.
     */
    method Save(c: Configuration) returns (ok: bool)
      modifies this
      ensures ok ==> saved == Some(c) && last == Saved
      ensures !ok ==> (saved == old(saved) && last == Unsaved) || (saved == Some(c) && last == SavedLate)
    {
      if * {
        last := Unsaved;
        return false;
      }
      saved := Some(c);
      if * {
        last := SavedLate;
        return false;
      }
      last := Saved;
      return true;
    }
  }

  /** What outlives the process: the disk with the rules, and the configuration. */
  datatype Persisted = Persisted(disk: Disk, saved: Option<Configuration>)

  /** The failure that the error of an audio change stands for. */
  function Classify(m: Message): SetupFailure {
    if ConflictMarker in m then AudioRuleConflict
    else if CleanupMarker in m then SetupFailure.CleanupFailed
    else if RestartMarker in m then AudioRestartFailed
    else AudioUnavailable
  }

  /** Every answer `commit_persistent` can give, with the state it leaves and the events that lead to it. */
  ghost predicate Committed(before: Persisted, now: Persisted, c: Configuration, previous: Rules, desired: Rules,
                            e: Events, save: Save,
                            r: Result<(), SetupFailure>) {
    var target := Target(before.disk, previous, desired);
    var changed := before.disk != target;
    if r.Ok? then
      !Conflicting(before.disk, previous, desired) && now == Persisted(target, Some(c))
      && e == Events([], if changed then 1 else 0, 0) && save == Saved
    else if save == NotTried then
      now.saved == before.saved && AudioFailed(before.disk, now.disk, previous, desired, e, r.error)
    else
      && !Conflicting(before.disk, previous, desired) && save != Saved
      && now.saved == (if save == SavedLate then Some(c) else before.saved)
      && if r.error == ConfigurationWriteFailed then now.disk == before.disk && e == Events([], if changed then 2 else 0, 0)
         else
           && r.error == SetupFailure.CleanupFailed
           && ((now.disk == before.disk && e == Events([], 2, 1))
               || (|e.faults| == 1 && e.restarts == 1 && e.failedRestarts == 0
                   && Between(before.disk, now.disk, previous.Keys + desired.Keys, desired)))
  }

  /** The audio change failed, so the configuration was not touched. */
  ghost predicate AudioFailed(before: Disk, now: Disk, previous: Rules, desired: Rules, e: Events, f: SetupFailure) {
    match f
    case AudioRuleConflict => Conflicting(before, previous, desired) && now == before && e == Events([], 0, 0)
    case AudioUnavailable =>
      && |e.faults| == 1 && e.restarts == e.failedRestarts == 0
      && now == Leftover(before, desired, e.faults[0]) && (e.faults[0].Late? ==> FreeWrite(before, desired, e.faults[0]))
    case AudioRestartFailed => !Conflicting(before, previous, desired) && now == before && e == Events([], 2, 1)
    case CleanupFailed =>
      && Between(before, now, previous.Keys + desired.Keys, desired)
      && (|e.faults| == 1 && e.failedRestarts == 0 ==> ReplacingWrite(before, desired, e.faults[0]))
      && 1 <= |e.faults| + e.failedRestarts <= 2 && (|e.faults| == 0 ==> now == before && e.failedRestarts == 2)
    case _ => false
  }

  /** The failures among the events of a commit. */
  function Failures(e: Events, save: Save): nat {
    |e.faults| + e.failedRestarts + if save == Unsaved || save == SavedLate then 1 else 0
  }

  /**
   * How many operations failed decides the answer: none means success, or a conflict that changed nothing; one means a
   * failure that was compensated; two, or a late write to a path that was replaced, mean that compensation failed, and
   * that is always reported.
   */
  lemma FailuresDecideTheAnswer(before: Persisted, now: Persisted, c: Configuration, previous: Rules, desired: Rules,
                                e: Events,
                                save: Save, r: Result<(), SetupFailure>)
    requires Committed(before, now, c, previous, desired, e, save, r)
    ensures Failures(e, save) <= 2
    ensures r.Ok? <==> Failures(e, save) == 0 && !Conflicting(before.disk, previous, desired)
    ensures r == Err(AudioRuleConflict) <==> Failures(e, save) == 0 && Conflicting(before.disk, previous, desired)
    ensures r == Err(SetupFailure.CleanupFailed)
            <==>
            Failures(e, save) == 2
            || (Failures(e, save) == 1 && |e.faults| == 1 && ReplacingWrite(before.disk, desired, e.faults[0]))
  {}

  /**
   * All or nothing: success means both are new, a failure with successful cleanup means both are as before, except
   * exactly for a write to a free path, or of a different configuration, that took effect and was still reported as
   * failed.
   */
  lemma CommitIsAllOrNothing(before: Persisted, now: Persisted, c: Configuration, previous: Rules, desired: Rules,
                             e: Events,
                             save: Save, r: Result<(), SetupFailure>)
    requires Committed(before, now, c, previous, desired, e, save, r) && r != Err(SetupFailure.CleanupFailed)
    ensures r.Ok? ==> now == Persisted(Target(before.disk, previous, desired), Some(c))
    ensures r.Err? ==>
              (now == before
               <==> !((e.faults != [] && e.faults[0].Late?) || (save == SavedLate && before.saved != Some(c))))
  {}

  /** Reloading: once for a change, never without one. */
  lemma ReloadsOncePerChange(before: Persisted, now: Persisted, c: Configuration, previous: Rules, desired: Rules,
                             e: Events,
                             save: Save, r: Result<(), SetupFailure>)
    requires Committed(before, now, c, previous, desired, e, save, r) && r.Ok?
    ensures e.restarts == 1 <==> now.disk != before.disk
    ensures e.restarts == 0 <==> now.disk == before.disk
  {}

  lemma AudioFailure(before: Disk, now: Disk, previous: Rules, desired: Rules, order: seq<Path>, e: Events, m: Message)
    requires Reloaded(before, now, previous, desired, order, e, Err(m))
    ensures AudioFailed(before, now, previous, desired, e, Classify(m))
  {}

  lemma AudioSuccess(before: Disk, now: Disk, previous: Rules, desired: Rules, order: seq<Path>, e: Events,
                     change: RuleChange)
    requires Lists(order, previous.Keys + desired.Keys) && Reloaded(before, now, previous, desired, order, e, Ok(change))
    ensures Reconciled(before, now, previous, desired, order, [], Ok(change)) && !Conflicting(before, previous, desired)
    ensures now == Target(before, previous, desired) && (change.Changed() <==> before != now)
    ensures e == Events([], if change.Changed() then 1 else 0, 0)
  {
    hide Conflicting, Plan, Target;
    PlanIsEmptyExactly(before, previous, desired, order);
  }

  lemma NoRules(disk: Disk, order: seq<Path>)
    requires Lists(order, RulesOf(None).Keys + RulesOf(None).Keys)
    ensures Reloaded(disk, disk, RulesOf(None), RulesOf(None), order, Events([], 0, 0), Ok(UNCHANGED))
  {}

  lemma NotSaved(before: Persisted, now: Disk, c: Configuration, previous: Rules, desired: Rules, e: Events,
                 f: SetupFailure)
    requires AudioFailed(before.disk, now, previous, desired, e, f)
    ensures Committed(before, Persisted(now, before.saved), c, previous, desired, e, NotTried, Err(f))
  {}

  lemma BothSaved(before: Persisted, c: Configuration, previous: Rules, desired: Rules, applied: Disk,
                  change: RuleChange, e: Events)
    requires !Conflicting(before.disk, previous, desired) && applied == Target(before.disk, previous, desired)
    requires (change.Changed() <==> before.disk != applied) && e == Events([], if change.Changed() then 1 else 0, 0)
    ensures Committed(before, Persisted(applied, Some(c)), c, previous, desired, e, Saved, Ok(()))
  {}

  /** The configuration could not be saved, and the audio change was rolled back. */
  lemma AfterFailedSave(before: Persisted, now: Persisted, c: Configuration, previous: Rules, desired: Rules,
                        order: seq<Path>,
                        change: RuleChange, applied: Disk, e: Events, save: Save, undone: Result<(), Message>)
    requires Lists(order, previous.Keys + desired.Keys)
    requires Reconciled(before.disk, applied, previous, desired, order, [], Ok(change))
    requires applied == Target(before.disk, previous, desired) && (change.Changed() <==> before.disk != applied)
    requires Undone(applied, now.disk, change, e, undone)
    requires save == Unsaved || save == SavedLate
    requires now.saved == if save == SavedLate then Some(c) else before.saved
    ensures Committed(before, now, c, previous, desired,
                      e.(restarts := e.restarts + if change.Changed() then 1 else 0), save,
                      Err(if undone.Ok? then ConfigurationWriteFailed else SetupFailure.CleanupFailed))
  {
    hide Reconciled, Conflicting, Between, Restoring, RolledBack, Apply, Undoable, DistinctPaths, Lists, Target;
    var owned := previous.Keys + desired.Keys;
    ReportedChangeIsUndone(before.disk, applied, previous, desired, order, change);
    AppliedIsBetween(before.disk, change, owned, desired);
    RestoringIsBetween(before.disk, applied, now.disk, owned, desired, change);
    if !change.Changed() {
      NothingToUndo(applied);
    }
  }

  /** The audio part of the commit, skipped when there are no rules before or after. */
  method ChangeAudio(fs: FileSystem, services: Services, previous: Option<Rules>, desired: Option<Rules>, order: seq<Path>)
    returns (r: Result<RuleChange, Message>)
    requires Lists(order, RulesOf(previous).Keys + RulesOf(desired).Keys)
    modifies fs, services
    ensures old(fs.faults) <= fs.faults && old(services.restarts) <= services.restarts
    ensures old(services.failedRestarts) <= services.failedRestarts
    ensures Reloaded(old(fs.disk), fs.disk, RulesOf(previous), RulesOf(desired), order,
                     Events(fs.faults[|old(fs.faults)|..], services.restarts - old(services.restarts),
                            services.failedRestarts - old(services.failedRestarts)), r)
  {
    hide *;
    if previous == None && desired == None {
      NoRules(fs.disk, order);
      assert fs.faults[|fs.faults|..] == [];
      return Ok(UNCHANGED);
    }
    r := ReconcileWithReload(fs, services, previous, desired, order);
  }

  /** Saves the configuration; if that fails, rolls the audio change back. */
  method SaveOrUndo(store: ConfigurationStore, fs: FileSystem, services: Services, c: Configuration, change: RuleChange,
                    ghost before: Persisted, ghost previous: Rules, ghost desired: Rules, ghost order: seq<Path>)
    returns (r: Result<(), SetupFailure>)
    requires Lists(order, previous.Keys + desired.Keys) && store.saved == before.saved
    requires Reconciled(before.disk, fs.disk, previous, desired, order, [], Ok(change))
    modifies store, fs, services
    ensures old(fs.faults) <= fs.faults && old(services.restarts) <= services.restarts
    ensures old(services.failedRestarts) <= services.failedRestarts
    ensures Committed(before, Persisted(fs.disk, store.saved), c, previous, desired,
                      Events(fs.faults[|old(fs.faults)|..],
                             services.restarts - old(services.restarts) + if change.Changed() then 1 else 0,
                             services.failedRestarts - old(services.failedRestarts)), store.last, r)
  {
    hide *;
    ghost var applied, reloads, faults := fs.disk, if change.Changed() then 1 else 0, fs.faults;
    ghost var restarts, failed := services.restarts, services.failedRestarts;
    SuccessIsReloaded(before.disk, applied, previous, desired, order, change);
    AudioSuccess(before.disk, applied, previous, desired, order, Events([], reloads, 0), change);
    ReportedChangeIsUndone(before.disk, applied, previous, desired, order, change);
    var ok := store.Save(c);
    if ok {
      BothSaved(before, c, previous, desired, applied, change, Events([], reloads, 0));
      assert fs.faults[|faults|..] == [];
      return Ok(());
    }
    ghost var saved, last := store.saved, store.last;
    var undone := RollbackChange(fs, services, change);
    ghost var e := Events(fs.faults[|faults|..], services.restarts - restarts, services.failedRestarts - failed);
    r := Err(if undone.Ok? then ConfigurationWriteFailed else SetupFailure.CleanupFailed);
    AfterFailedSave(before, Persisted(fs.disk, saved), c, previous, desired, order, change, applied, e, last, undone);
    assert e.(restarts := e.restarts + reloads) == Events(e.faults, e.restarts + reloads, e.failedRestarts);
  }

  lemma SuccessIsReloaded(before: Disk, now: Disk, previous: Rules, desired: Rules, order: seq<Path>, change: RuleChange)
    requires Reconciled(before, now, previous, desired, order, [], Ok(change))
    ensures Reloaded(before, now, previous, desired, order, Events([], if change.Changed() then 1 else 0, 0), Ok(change))
  {}

  /** `commit_persistent`. */
  method CommitPersistent(store: ConfigurationStore, fs: FileSystem, services: Services, c: Configuration,
                          previous: Option<Rules>, desired: Option<Rules>, order: seq<Path>)
    returns (r: Result<(), SetupFailure>)
    requires Lists(order, RulesOf(previous).Keys + RulesOf(desired).Keys)
    modifies store, fs, services
    ensures old(fs.faults) <= fs.faults && old(services.restarts) <= services.restarts
    ensures old(services.failedRestarts) <= services.failedRestarts
    ensures Committed(old(Persisted(fs.disk, store.saved)), Persisted(fs.disk, store.saved), c,
                      RulesOf(previous), RulesOf(desired),
                      Events(fs.faults[|old(fs.faults)|..], services.restarts - old(services.restarts),
                             services.failedRestarts - old(services.failedRestarts)), store.last, r)
  {
    ghost var before, had, wanted := Persisted(fs.disk, store.saved), RulesOf(previous), RulesOf(desired);
    hide *;
    store.last := NotTried;
    var reconciled := ChangeAudio(fs, services, previous, desired, order);
    ghost var e := Events(fs.faults[|old(fs.faults)|..], services.restarts - old(services.restarts),
                          services.failedRestarts - old(services.failedRestarts));
    if reconciled.Err? {
      AudioFailure(before.disk, fs.disk, had, wanted, order, e, reconciled.error);
      NotSaved(before, fs.disk, c, had, wanted, e, Classify(reconciled.error));
      return Err(Classify(reconciled.error));
    }
    AudioSuccess(before.disk, fs.disk, had, wanted, order, e, reconciled.value);
    assert fs.faults == old(fs.faults);
    r := SaveOrUndo(store, fs, services, c, reconciled.value, before, had, wanted, order);
  }
}
