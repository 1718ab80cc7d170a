/** src/teardown.rs: removal that can be repeated until every step has succeeded. */
module Teardown {
  import opened Collections
  import opened AudioRules
  import opened AudioCompensation
  import opened AudioTransaction
  import opened Commit

  /** The bridge's own systemd user unit. */
  class BridgeUnit {
    var enabled: bool

    constructor (enabled: bool)
      ensures this.enabled == enabled
    {
      this.enabled := enabled;
    }

    /** Disabling a unit that is not there succeeds; a failure may leave it either way. */
    method StopAndDisable() returns (ok: bool)
      modifies this
      ensures ok ==> !enabled
      ensures enabled ==> old(enabled)
    {
      if * {
        return false;
      }
      enabled := false;
      ok := *;
    }
  }

  /** The bond of the configured iPhone. */
  class BondCleanup {
    var bonded: bool

    constructor (bonded: bool)
      ensures this.bonded == bonded
    {
      this.bonded := bonded;
    }

    /** Removing a bond that is not there succeeds; a failure may leave it either way. */
    method RemoveExact() returns (ok: bool)
      modifies this
      ensures ok ==> !bonded
      ensures bonded ==> old(bonded)
    {
      if * {
        return false;
      }
      bonded := false;
      ok := *;
    }
  }

  datatype Installation = Installation(disk: Disk, enabled: bool, bonded: bool, saved: Option<Configuration>)

  datatype StepFailure = ServiceFailed | AudioFailed | BondFailed

  datatype TeardownError = LoadFailed | StepsFailed(steps: seq<StepFailure>) | RemoveFailed

  /** Everything but the configuration after a run without failing step. */
  function Cleaned(s: Installation, rules: Rules, forget: bool): Installation {
    s.(disk := s.disk - rules.Keys, enabled := false, bonded := s.bonded && !forget)
  }

  /**
   * What a run may do to an installation whose configuration stands for `rules`, by what happened to the audio rules.
   */
  ghost predicate Ran(before: Installation, now: Installation, rules: Rules, forget: bool, e: Events,
                      r: Result<(), TeardownError>)
  {
    if before.saved == None then now == before && (r.Ok? || r == Err(LoadFailed))
    else
      match r
      case Ok(_) => now == Cleaned(before, rules, forget).(saved := None) && !Conflicting(before.disk, rules, NO_RULES)
      case Err(LoadFailed) => now == before
      case Err(RemoveFailed) => now == Cleaned(before, rules, forget) && !Conflicting(before.disk, rules, NO_RULES)
      case Err(StepsFailed(steps)) =>
        && steps != [] && now.saved == before.saved
        && (now.enabled ==> before.enabled && ServiceFailed in steps)
        && (if AudioFailed in steps
            then Between(before.disk, now.disk, rules.Keys, NO_RULES)
                 && (Conflicting(before.disk, rules, NO_RULES) || e.faults != [] || e.failedRestarts > 0)
            else now.disk == before.disk - rules.Keys && !Conflicting(before.disk, rules, NO_RULES))
        && (now.bonded ==> before.bonded)
        && (if forget then now.bonded ==> BondFailed in steps else now.bonded == before.bonded && BondFailed !in steps)
  }

  /** A run that reported an error. */
  ghost predicate FailedRun(before: Installation, now: Installation, rules: Rules, forget: bool) {
    exists e, error :: Ran(before, now, rules, forget, e, Err(error))
  }

  lemma FailedRunKeepsGoal(before: Installation, now: Installation, rules: Rules, forget: bool)
    requires before.saved.Some? && FailedRun(before, now, rules, forget)
    ensures now.saved == before.saved && Cleaned(now, rules, forget) == Cleaned(before, rules, forget)
    ensures !Conflicting(before.disk, rules, NO_RULES) ==> !Conflicting(now.disk, rules, NO_RULES)
  {}

  /** Consecutive states of failing runs. */
  ghost predicate FailedRuns(states: seq<Installation>, rules: Rules, forget: bool) {
    forall i :: 0 <= i < |states| - 1 ==> FailedRun(states[i], states[i + 1], rules, forget)
  }

  lemma {:induction false} FailedRunsKeepGoal(states: seq<Installation>, rules: Rules, forget: bool)
    requires states != [] && states[0].saved.Some? && FailedRuns(states, rules, forget)
    ensures var last := states[|states| - 1];
            && last.saved == states[0].saved && Cleaned(last, rules, forget) == Cleaned(states[0], rules, forget)
            && (!Conflicting(states[0].disk, rules, NO_RULES) ==> !Conflicting(last.disk, rules, NO_RULES))
    decreases |states|
  {
    hide FailedRun, Cleaned, Conflicting;
    if |states| > 1 {
      assert FailedRun(states[0], states[1], rules, forget);
      FailedRunKeepsGoal(states[0], states[1], rules, forget);
      var rest := states[1..];
      forall i | 0 <= i < |rest| - 1 ensures FailedRun(rest[i], rest[i + 1], rules, forget) {
        assert FailedRun(states[i + 1], states[i + 2], rules, forget);
      }
      FailedRunsKeepGoal(rest, rules, forget);
    }
  }

  /**
   * Teardown can be repeated: after any number of failing runs, a run that succeeds leaves exactly what a single
   * successful run would have left, and if no rule was in conflict to begin with, failing runs have put none in
   * conflict.
   */
  lemma RetriesReachTheSameEnd(states: seq<Installation>, rules: Rules, forget: bool, end: Installation, e: Events)
    requires states != [] && states[0].saved.Some? && FailedRuns(states, rules, forget)
    requires Ran(states[|states| - 1], end, rules, forget, e, Ok(()))
    ensures end == Cleaned(states[0], rules, forget).(saved := None)
    ensures forall once, e' :: Ran(states[0], once, rules, forget, e', Ok(())) ==> once == end
  {
    FailedRunsKeepGoal(states, rules, forget);
    hide FailedRuns, Conflicting, Between;
  }

  lemma SomeStep(steps: seq<StepFailure>)
    ensures steps == [] || ServiceFailed in steps || AudioFailed in steps || BondFailed in steps
  {
    if steps != [] {
      assert steps[0] in steps && (steps[0].ServiceFailed? || steps[0].AudioFailed? || steps[0].BondFailed?);
    }
  }

  /**
   * Without a conflict to begin with, a run in which no step fails succeeds, however many runs have failed before it.
   */
  lemma FaultFreeRunSucceeds(states: seq<Installation>, rules: Rules, forget: bool, end: Installation, e: Events,
                             r: Result<(), TeardownError>)
    requires states != [] && states[0].saved.Some? && FailedRuns(states, rules, forget)
    requires !Conflicting(states[0].disk, rules, NO_RULES)
    requires Ran(states[|states| - 1], end, rules, forget, e, r) && e.faults == [] && e.failedRestarts == 0
    requires r.Err? ==> r.error.StepsFailed? && ServiceFailed !in r.error.steps && BondFailed !in r.error.steps
    ensures r.Ok?
  {
    FailedRunsKeepGoal(states, rules, forget);
    hide FailedRuns, Conflicting, Between, Cleaned;
    match r
    case Err(StepsFailed(steps)) => SomeStep(steps);
    case _ =>
  }

  /**
   * The configuration disappears only in a run that succeeded, with every rule, the unit and, on request, the bond
   * gone.
   */
  lemma ConfigurationGoesLast(before: Installation, now: Installation, rules: Rules, forget: bool, e: Events,
                              r: Result<(), TeardownError>)
    requires Ran(before, now, rules, forget, e, r) && before.saved.Some? && now.saved == None
    ensures r.Ok? && !now.enabled && (forget ==> !now.bonded) && forall p :: p in rules ==> p !in now.disk
  {}

  lemma AudioRemoved(before: Disk, now: Disk, rules: Rules, order: seq<Path>, e: Events, r: Result<RuleChange, Message>)
    requires Reloaded(before, now, rules, NO_RULES, order, e, r)
    ensures r.Ok? ==> now == before - rules.Keys && !Conflicting(before, rules, NO_RULES)
    ensures r.Err? ==> Between(before, now, rules.Keys, NO_RULES)
    ensures r.Err? ==> Conflicting(before, rules, NO_RULES) || e.faults != [] || e.failedRestarts > 0
  {}

  class Teardown {
    const store: ConfigurationStore
    const fs: FileSystem
    const services: Services
    const unit: BridgeUnit
    const bonds: BondCleanup
    /** The audio rules of an identity, and the order in which a set of paths is visited. */
    const rulesFor: string -> Rules
    const visit: set<Path> -> seq<Path>

    constructor (store: ConfigurationStore, fs: FileSystem, services: Services, unit: BridgeUnit, bonds: BondCleanup,
                 rulesFor: string -> Rules, visit: set<Path> -> seq<Path>)
      ensures this.store == store && this.fs == fs && this.services == services && this.unit == unit && this.bonds == bonds
      ensures this.rulesFor == rulesFor && this.visit == visit
    {
      this.store, this.fs, this.services, this.unit, this.bonds := store, fs, services, unit, bonds;
      this.rulesFor, this.visit := rulesFor, visit;
    }

    function State(): Installation
      reads store, fs, unit, bonds
    {
      Installation(fs.disk, unit.enabled, bonds.bonded, store.saved)
    }

    function Rules(): Rules
      reads store
    {
      if store.saved.Some? then rulesFor(store.saved.value.deviceAddress) else map[]
    }

    method Run(forget: bool) returns (r: Result<(), TeardownError>)
      requires forall s :: Lists(visit(s), s)
      modifies store, fs, services, unit, bonds
      ensures old(fs.faults) <= fs.faults && old(services.failedRestarts) <= services.failedRestarts
      ensures old(services.restarts) <= services.restarts
      ensures Ran(old(State()), State(), old(Rules()), forget,
                  Events(fs.faults[|old(fs.faults)|..], services.restarts - old(services.restarts),
                         services.failedRestarts - old(services.failedRestarts)), r)
    {
      hide Conflicting, Between, Reloaded;
      var loaded := store.Load();
      if loaded.Err? {
        return Err(LoadFailed);
      }
      if loaded.value == None {
        return Ok(());
      }
      var rules := rulesFor(loaded.value.value.deviceAddress);
      var failures: seq<StepFailure> := [];
      var stopped := unit.StopAndDisable();
      if !stopped {
        failures := failures + [ServiceFailed];
      }
      ghost var before := fs.disk;
      var order := visit(rules.Keys + RulesOf(None).Keys);
      var removed := ReconcileWithReload(fs, services, Some(rules), None, order);
      AudioRemoved(before, fs.disk, rules, order,
                   Events(fs.faults[|old(fs.faults)|..], services.restarts - old(services.restarts),
                          services.failedRestarts - old(services.failedRestarts)), removed);
      if removed.Err? {
        failures := failures + [AudioFailed];
      }
      if forget {
        var gone := bonds.RemoveExact();
        if !gone {
          failures := failures + [BondFailed];
        }
      }
      if failures != [] {
        return Err(StepsFailed(failures));
      }
      var ok := store.Remove();
      return if ok then Ok(()) else Err(RemoveFailed);
    }
  }
}
