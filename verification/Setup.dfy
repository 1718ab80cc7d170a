/** `SetupProtocol::run` of src/setup/mod.rs over the transaction of src/setup/production.rs. */
module Setup {
  import opened Collections
  import opened Machine
  import opened SetupTrace
  import opened AudioRules
  import opened AudioCompensation
  import opened AudioTransaction
  import opened Commit

  /** A failure outside the error event's reach: a write that took effect late, or a cleanup that failed. */
  ghost predicate NotAllOrNothing(faults: seq<Fault>, last: Save, outcome: Outcome) {
    (exists f :: f in faults && f.Late?) || last == SavedLate || outcome == Err(CleanupFailed)
  }

  /**
   * The protocol with its backend. Every external answer is free: which branch of a race wins, what a command line
   * says, whether a write or an operation of the backend succeeds, what a verification finds.
   */
  class SetupProtocol {
    const store: ConfigurationStore
    const fs: FileSystem
    const services: Services
    const configured: Option<Configuration>
    /** The audio rules of an identity, and the order in which a set of paths is visited. */
    const rulesFor: string -> Rules
    const visit: set<Path> -> seq<Path>
    var resolved: Option<string>
    ghost var trace: seq<Action>

    constructor (store: ConfigurationStore, fs: FileSystem, services: Services, configured: Option<Configuration>,
                 rulesFor: string -> Rules, visit: set<Path> -> seq<Path>)
      ensures this.store == store && this.fs == fs && this.services == services && this.configured == configured
      ensures this.rulesFor == rulesFor && this.visit == visit && trace == [] && resolved == None
    {
      this.store, this.fs, this.services, this.configured := store, fs, services, configured;
      this.rulesFor, this.visit := rulesFor, visit;
      resolved, trace := None, [];
    }

    ghost function Seen(): Summary
      reads this
    {
      Summarize(trace)
    }

    ghost method Record(a: Action)
      modifies this`trace
      ensures trace == old(trace) + [a] && Seen() == Note(old(Seen()), a)
    {
      SummarizePush(trace, a);
      trace := trace + [a];
    }

    // ----- the outside world -----

    method WriteEvent(event: Event) returns (ok: bool)
      modifies this`trace
      ensures trace == old(trace) + [Wrote(event, ok)] && Seen() == Note(old(Seen()), Wrote(event, ok))
    {
      ok := *;
      Record(Wrote(event, ok));
    }

    method ReadCommand(asking: bool) returns (command: Result<SetupCommand, SetupFailure>)
      modifies this`trace
      ensures trace == old(trace) + [Read(command, asking)] && Seen() == Note(old(Seen()), Read(command, asking))
    {
      command := *;
      Record(Read(command, asking));
    }

    method CleanupTemporary() returns (r: Outcome)
      modifies this`trace
      ensures trace == old(trace) + [CleanedUp(r)] && Seen() == Note(old(Seen()), CleanedUp(r))
    {
      r := *;
      Record(CleanedUp(r));
    }

    // ----- failing -----

    /** `fail`: the error event ends the run, even if it cannot be written. */
    method Fail(failure: SetupFailure) returns (completed: bool)
      requires Seen().lawful && !Seen().stopped && Seen().started && !Seen().committed && Seen().cleanups == 1
      requires Seen().cause == Some(failure)
      modifies this`trace
      ensures !completed
      ensures Seen().lawful && Seen().stopped && Seen().started && Seen().cleanups == 1 && !Seen().committed
      ensures exists ok :: trace == old(trace) + [Wrote(ErrorEvent(failure), ok)]
    {
      var ok := WriteEvent(ErrorEvent(failure));
      assert trace == old(trace) + [Wrote(ErrorEvent(failure), ok)];
      return false;
    }

    /** `fail_with_cleanup`. */
    method FailWithCleanup(failure: SetupFailure) returns (completed: bool)
      requires Seen().lawful && !Seen().stopped && Seen().started && !Seen().committed && Seen().cleanups == 0
      requires Seen().cause == Some(failure) && Seen().stage < 4
      modifies this`trace
      ensures !completed && old(trace) <= trace
      ensures Seen().lawful && Seen().stopped && Seen().started && Seen().cleanups == 1 && !Seen().committed
    {
      var cleaned := CleanupTemporary();
      completed := Fail(if cleaned.Ok? then failure else CleanupFailed);
    }

    /** A failed write before the last cleanup: clean up and say no more. */
    method GiveUp() returns (completed: bool)
      requires Seen().lawful && !Seen().stopped && Seen().started && !Seen().committed && Seen().cleanups == 0
      modifies this`trace
      ensures !completed && old(trace) <= trace
      ensures Seen().lawful && Seen().started && Seen().cleanups == 1 && !Seen().committed
    {
      var _ := CleanupTemporary();
      return false;
    }

    // ----- the run -----

    /** The run goes on, with milestones up to `stage`, no failure, no cleanup and no commit so far. */
    ghost predicate Going(stage: nat, shown: Event, candidate: Option<Candidate>)
      reads this
    {
      Seen() == NOTHING.(started := true, stage := stage, shown := shown, candidate := candidate)
    }

    /** The candidate was verified and everything temporary is gone. */
    ghost predicate Cleared(shown: SetupState, candidate: Candidate)
      reads this
    {
      Seen() == NOTHING.(started := true, stage := 4, cleanups := 1, shown := StateEvent(shown), candidate := Some(candidate))
    }

    /** The run is over before any commit, and has cleaned up. */
    ghost predicate Over()
      reads this
    {
      Seen().lawful && Seen().started && Seen().cleanups == 1 && !Seen().committed
    }

    /** From the first event to a candidate; none means that the run is over. */
    method FindCandidate() returns (found: Option<Candidate>)
      requires Going(0, StateEvent(CheckingEnvironment), None)
      modifies this`trace
      ensures old(trace) <= trace
      ensures if found.Some? then !Seen().shown.ConfirmationRequest? && Going(0, Seen().shown, found) else Over()
    {
      if * {
        var command := ReadCommand(false);
        var _ := FailWithCleanup(CommandFailure(command, false));
        return None;
      }
      if * {
        Record(Signalled);
        var _ := FailWithCleanup(Cancelled);
        return None;
      }
      var preparation: Result<Preparation, SetupFailure> := *;
      Record(Prepared(preparation));
      if preparation.Err? {
        var _ := FailWithCleanup(preparation.error);
        return None;
      }
      if preparation.value.Existing? {
        return Some(preparation.value.candidate);
      }
      var ok := WriteEvent(StateEvent(WaitingForIphone));
      if !ok {
        var _ := GiveUp();
        return None;
      }
      found := AwaitCandidate();
    }

    method AwaitCandidate() returns (found: Option<Candidate>)
      requires Going(0, StateEvent(WaitingForIphone), None)
      modifies this`trace
      ensures old(trace) <= trace && if found.Some? then Going(0, StateEvent(WaitingForIphone), found) else Over()
    {
      if * {
        Record(TimedOut);
        var _ := FailWithCleanup(CandidateTimeout);
        return None;
      }
      if * {
        var command := ReadCommand(false);
        var _ := FailWithCleanup(CommandFailure(command, false));
        return None;
      }
      if * {
        Record(Signalled);
        var _ := FailWithCleanup(Cancelled);
        return None;
      }
      var candidate: Result<Candidate, SetupFailure> := *;
      Record(Found(candidate));
      if candidate.Err? {
        var _ := FailWithCleanup(candidate.error);
        return None;
      }
      return Some(candidate.value);
    }

    /** Asks for confirmation and passes an accepting answer on. */
    method Confirm(candidate: Candidate) returns (goOn: bool)
      requires !Seen().shown.ConfirmationRequest? && Going(0, Seen().shown, Some(candidate))
      modifies this`trace
      ensures old(trace) <= trace && if goOn then Going(2, ConfirmationRequest(candidate), Some(candidate)) else Over()
    {
      var ok := WriteEvent(ConfirmationRequest(candidate));
      if !ok {
        var _ := GiveUp();
        return false;
      }
      if * {
        Record(TimedOut);
        var _ := FailWithCleanup(ConfirmationTimeout);
        return false;
      }
      if * {
        Record(Signalled);
        var _ := FailWithCleanup(Cancelled);
        return false;
      }
      var command := ReadCommand(true);
      if command.Err? {
        var _ := FailWithCleanup(command.error);
        return false;
      }
      assert ValidateCommand(command.value, true).Ok?;
      match command.value {
        case Cancel =>
          var _ := FailWithCleanup(Cancelled);
          goOn := false;
        case Reject =>
          var answered: Outcome := *;
          Record(Answered(false, answered));
          var _ := FailWithCleanup(Rejected);
          goOn := false;
        case Confirm =>
          goOn := AcceptAnswer(candidate);
      }
    }

    method AcceptAnswer(ghost candidate: Candidate) returns (goOn: bool)
      requires Going(1, ConfirmationRequest(candidate), Some(candidate))
      modifies this`trace
      ensures old(trace) <= trace && if goOn then Going(2, ConfirmationRequest(candidate), Some(candidate)) else Over()
    {
      if * {
        Record(Signalled);
        var _ := FailWithCleanup(Cancelled);
        return false;
      }
      var answered: Outcome := *;
      Record(Answered(true, answered));
      if answered.Err? {
        var _ := FailWithCleanup(answered.error);
        return false;
      }
      return true;
    }

    /** Verifies that notifications arrive and cleans up; the backend then knows the resolved identity. */
    method Verify(ghost candidate: Candidate) returns (goOn: bool)
      requires Going(2, ConfirmationRequest(candidate), Some(candidate))
      modifies this
      ensures old(trace) <= trace
      ensures if goOn then Cleared(VerifyingAncs, candidate) && resolved.Some? else Over()
    {
      var ok := WriteEvent(StateEvent(VerifyingAncs));
      if !ok {
        var _ := GiveUp();
        return false;
      }
      if * {
        Record(TimedOut);
        var _ := FailWithCleanup(AncsTimeout);
        return false;
      }
      if * {
        var command := ReadCommand(false);
        var _ := FailWithCleanup(CommandFailure(command, false));
        return false;
      }
      if * {
        Record(Signalled);
        var _ := FailWithCleanup(Cancelled);
        return false;
      }
      var verified: Outcome := *;
      Record(Verified(verified));
      if verified.Err? {
        var _ := FailWithCleanup(verified.error);
        return false;
      }
      var identity: string := *;
      resolved := Some(identity);
      var cleaned := CleanupTemporary();
      if cleaned.Err? {
        var _ := Fail(cleaned.error);
        return false;
      }
      return true;
    }

    // ----- the commit -----

    function FinalAddress(candidate: Candidate): string
      reads this
    {
      if resolved.Some? then resolved.value else candidate.address
    }

    function PreviousRules(): Option<Rules> {
      if configured.Some? then Some(rulesFor(configured.value.deviceAddress)) else None
    }

    /** `commit`: every step that waits comes before `commit_persistent`. */
    method CommitSetup(candidate: Candidate) returns (r: Outcome)
      requires forall s :: Lists(visit(s), s)
      modifies store, fs, services
      ensures old(fs.faults) <= fs.faults
      ensures r.Ok? ==> Installed(old(fs.disk), fs.disk, store.saved, FinalAddress(candidate))
      ensures r.Err? ==> Persisted(fs.disk, store.saved) == old(Persisted(fs.disk, store.saved))
                         || NotAllOrNothing(fs.faults[|old(fs.faults)|..], store.last, r)
    {
      store.last := NotTried;
      if * {
        return Err(AudioUnavailable);
      }
      if * {
        return Err(ConfigurationWriteFailed);
      }
      ghost var before := Persisted(fs.disk, store.saved);
      var address := FinalAddress(candidate);
      var adapter: string, adapterAddress: string, name: string := *, *, *;
      var c := Configuration(adapter, adapterAddress, address, name);
      var previous, desired := PreviousRules(), Some(rulesFor(address));
      var order := visit(RulesOf(previous).Keys + RulesOf(desired).Keys);
      hide Committed;
      r := CommitPersistent(store, fs, services, c, previous, desired, order);
      CommitOutcome(before, Persisted(fs.disk, store.saved), c, RulesOf(previous), RulesOf(desired),
                    Events(fs.faults[|old(fs.faults)|..], services.restarts - old(services.restarts),
                           services.failedRestarts - old(services.failedRestarts)), store.last, r);
    }

    /** Rules and configuration are those of `address`. */
    ghost predicate Installed(before: Disk, now: Disk, saved: Option<Configuration>, address: string) {
      && now == Target(before, RulesOf(PreviousRules()), rulesFor(address))
      && saved.Some? && saved.value.deviceAddress == address
    }

    /** What a run leaves on the machine, by what its trace shows of the commit. */
    ghost predicate Left(before: Persisted, faults: seq<Fault>)
      reads this, store, fs
    {
      var now := Persisted(fs.disk, store.saved);
      if Seen().committed then resolved.Some? && Installed(before.disk, now.disk, now.saved, resolved.value)
      else now == before || Committing(Some(Err(CleanupFailed))) in trace || NotAllOrNothing(faults, store.last, Ok(()))
    }

    /** A command or a signal wins the race against the commit, which may have begun but has persisted nothing yet. */
    method Interrupted(ghost candidate: Candidate) returns (completed: bool)
      requires Cleared(ApplyingConfiguration, candidate)
      modifies this`trace
      ensures !completed && Seen().lawful && Seen().started && Seen().cleanups == 1 && !Seen().committed
    {
      if * {
        Record(Committing(None));
      }
      var failure: SetupFailure;
      if * {
        var command := ReadCommand(false);
        failure := CommandFailure(command, false);
      } else {
        Record(Signalled);
        failure := Cancelled;
      }
      completed := Fail(failure);
    }

    /** Commits and announces the result. */
    method ApplyConfiguration(candidate: Candidate) returns (completed: bool)
      requires Cleared(VerifyingAncs, candidate) && resolved.Some? && store.last == NotTried
      requires forall s :: Lists(visit(s), s)
      modifies this`trace, store, fs, services
      ensures old(fs.faults) <= fs.faults
      ensures Seen().lawful && Seen().started && Seen().cleanups == 1
      ensures Left(old(Persisted(fs.disk, store.saved)), fs.faults[|old(fs.faults)|..])
      ensures Seen().committed ==> trace != [] && trace[|trace| - 1] == Wrote(Complete(resolved.value), completed)
      ensures !Seen().committed ==> !completed
    {
      var ok := WriteEvent(StateEvent(ApplyingConfiguration));
      if !ok {
        return false;
      }
      if * {
        completed := Interrupted(candidate);
        return;
      }
      hide Installed, NotAllOrNothing;
      var committed := CommitSetup(candidate);
      Record(Committing(Some(committed)));
      if committed.Err? {
        assert Committing(Some(committed)) in trace;
        SameBlame(fs.faults[|old(fs.faults)|..], store.last, committed);
        completed := Fail(committed.error);
        return;
      }
      completed := WriteEvent(Complete(FinalAddress(candidate)));
    }

    /** The steps of `run`, each of which may end it. */
    method Steps() returns (completed: bool)
      requires trace == [] && store.last == NotTried && forall s :: Lists(visit(s), s)
      modifies this, store, fs, services
      ensures old(fs.faults) <= fs.faults
      ensures Seen().lawful
      ensures !Seen().started ==> trace == [Wrote(StateEvent(CheckingEnvironment), false)]
      ensures Seen().started ==> Seen().cleanups == 1
      ensures Left(old(Persisted(fs.disk, store.saved)), fs.faults[|old(fs.faults)|..])
      ensures Seen().committed ==>
                trace != [] && resolved.Some? && trace[|trace| - 1] == Wrote(Complete(resolved.value), completed)
      ensures !Seen().committed ==> !completed
    {
      var ok := WriteEvent(StateEvent(CheckingEnvironment));
      if !ok {
        return false;
      }
      var candidate := FindCandidate();
      if candidate == None {
        return false;
      }
      var confirmed := Confirm(candidate.value);
      if !confirmed {
        return false;
      }
      var verified := Verify(candidate.value);
      if !verified {
        return false;
      }
      completed := ApplyConfiguration(candidate.value);
    }

    /**
     * `run`: cleans up exactly once if its first event was written, keeps the order of `Orderly`, returns true
     * exactly if completion was announced, and leaves the new rules and configuration after a commit and the old ones
     * without.
     */
    method Run() returns (completed: bool)
      requires forall s :: Lists(visit(s), s)
      modifies this, store, fs, services
      ensures old(fs.faults) <= fs.faults
      ensures Seen().lawful && Orderly(trace)
      ensures !Seen().started ==> trace == [Wrote(StateEvent(CheckingEnvironment), false)]
      ensures Seen().started ==> Count(trace, (a: Action) => a.CleanedUp?) == 1
      ensures Left(old(Persisted(fs.disk, store.saved)), fs.faults[|old(fs.faults)|..])
      ensures completed <==> trace != [] && resolved.Some? && trace[|trace| - 1] == Wrote(Complete(resolved.value), true)
    {
      hide Orderly, Summarize, Left, Installed;
      trace := [];
      store.last := NotTried;
      completed := Steps();
      LawfulRun(trace, completed, resolved);
    }
  }

  lemma SameBlame(faults: seq<Fault>, last: Save, r: Outcome)
    ensures NotAllOrNothing(faults, last, r) ==> r == Err(CleanupFailed) || NotAllOrNothing(faults, last, Ok(()))
  {}

  lemma CommitOutcome(before: Persisted, now: Persisted, c: Configuration, previous: Rules, desired: Rules, e: Events,
                      save: Save,
                      r: Outcome)
    requires Committed(before, now, c, previous, desired, e, save, r)
    ensures r.Ok? ==> now == Persisted(Target(before.disk, previous, desired), Some(c))
    ensures r.Err? ==> now == before || NotAllOrNothing(e.faults, save, r)
  {}
}
