/**
 * The effects of a setup run, in order, and what a lawful order of them is. `Summarize` reads a trace once from the
 * left; the lemmas say what a lawful summary means for the trace itself.
 */
module SetupTrace {
  import opened Collections
  import opened Machine

  datatype ConfirmationKind = Pairing | ExistingBond

  datatype Candidate = Candidate(kind: ConfirmationKind, address: string, deviceName: string, passkey: Option<string>)

  datatype Preparation = Existing(candidate: Candidate) | Fresh

  datatype Event =
    | StateEvent(state: SetupState)
    | ConfirmationRequest(candidate: Candidate)
    | Complete(address: string)
    | ErrorEvent(failure: SetupFailure)

  type Outcome = Result<(), SetupFailure>

  /** One effect with what came of it; an operation that lost a race is recorded only for the commit, as `None`. */
  datatype Action =
    | Wrote(event: Event, ok: bool)
    | Read(command: Result<SetupCommand, SetupFailure>, asking: bool)
    | TimedOut
    | Signalled
    | Prepared(preparation: Result<Preparation, SetupFailure>)
    | Found(candidate: Result<Candidate, SetupFailure>)
    | Answered(accept: bool, outcome: Outcome)
    | Verified(outcome: Outcome)
    | CleanedUp(outcome: Outcome)
    | Committing(ended: Option<Outcome>)

  function ProtocolFailure(e: ProtocolError): SetupFailure {
    if e.UnsupportedVersion? then UnsupportedApiVersion else InvalidProtocol
  }

  /** What an unexpected command fails with. */
  function CommandFailure(command: Result<SetupCommand, SetupFailure>, confirmationActive: bool): SetupFailure {
    match command
    case Err(f) => f
    case Ok(Cancel) => Cancelled
    case Ok(c) =>
      var valid := ValidateCommand(c, confirmationActive);
      if valid.Err? then ProtocolFailure(valid.error) else InvalidProtocol
  }

  function ErrorOf<T>(r: Result<T, SetupFailure>): Option<SetupFailure> {
    if r.Err? then Some(r.error) else None
  }

  /** The deadline that runs while an event is the last one shown. */
  function Deadline(shown: Event): Option<SetupFailure> {
    match shown
    case StateEvent(WaitingForIphone) => Some(CandidateTimeout)
    case ConfirmationRequest(_) => Some(ConfirmationTimeout)
    case StateEvent(VerifyingAncs) => Some(AncsTimeout)
    case _ => None
  }

  /** The failure an effect means for the run, if any. */
  function FailureOf(shown: Event, a: Action): Option<SetupFailure> {
    match a
    case Wrote(_, _) => None
    case Read(command, asking) =>
      if !asking then Some(CommandFailure(command, false))
      else if command.Err? then Some(command.error)
      else if command.value.Confirm? then None
      else Some(if command.value.Reject? then Rejected else Cancelled)
    case TimedOut => Deadline(shown)
    case Signalled => Some(Cancelled)
    case Prepared(r) => ErrorOf(r)
    case Found(r) => ErrorOf(r)
    case Answered(accept, r) => if accept then ErrorOf(r) else None
    case Verified(r) => ErrorOf(r)
    case CleanedUp(r) => ErrorOf(r)
    case Committing(ended) => if ended.Some? then ErrorOf(ended.value) else None
  }

  /** The candidate that an effect brings. */
  function CandidateOf(a: Action): Option<Candidate> {
    match a
    case Prepared(Ok(Existing(c))) => Some(c)
    case Found(Ok(c)) => Some(c)
    case _ => None
  }

  /** The four things that must have happened, in this order, before anything is committed. */
  function Milestone(a: Action): nat {
    match a
    case Read(command, asking) => if asking && command.Ok? && command.value.Confirm? then 1 else 0
    case Answered(accept, outcome) => if accept && outcome.Ok? then 2 else 0
    case Verified(outcome) => if outcome.Ok? then 3 else 0
    case CleanedUp(outcome) => if outcome.Ok? then 4 else 0
    case _ => 0
  }

  predicate Terminal(a: Action) {
    a.Wrote? && (a.event.Complete? || a.event.ErrorEvent?)
  }

  predicate Persisting(a: Action) {
    a.Committing? && a.ended.Some? && a.ended.value.Ok?
  }

  /**
   * What has happened so far. `shown` is the last event written, `cause` the failure that an error event must name: a
   * failed cleanup after another failure counts as `CleanupFailed`.
   */
  datatype Summary = Summary(
    started: bool, stopped: bool, cleanups: nat, stage: nat, shown: Event, candidate: Option<Candidate>,
    cause: Option<SetupFailure>, committed: bool, lawful: bool)

  const NOTHING: Summary := Summary(false, false, 0, 0, StateEvent(CheckingEnvironment), None, None, false, true)

  /**
   * The order of events: each belongs to one point of the run, and the request for confirmation names the candidate
   * found.
   */
  predicate Timely(s: Summary, event: Event) {
    match event
    case StateEvent(CheckingEnvironment) => !s.started
    case StateEvent(WaitingForIphone) => s.started && s.shown == StateEvent(CheckingEnvironment) && s.candidate == None
    case ConfirmationRequest(c) => s.started && s.stage == 0 && s.candidate == Some(c) && !s.shown.ConfirmationRequest?
    case StateEvent(VerifyingAncs) => s.stage == 2 && s.shown.ConfirmationRequest?
    case StateEvent(ApplyingConfiguration) => s.stage == 4 && s.shown == StateEvent(VerifyingAncs)
    case Complete(_) => s.committed && s.cause == None
    case ErrorEvent(f) => s.started && !s.committed && s.cleanups == 1 && s.cause == Some(f)
  }

  predicate Allowed(s: Summary, a: Action) {
    && !s.stopped
    && (if a.Wrote? then Timely(s, a.event) else s.started)
    && (a.CleanedUp? ==> s.cleanups == 0)
    && (a.TimedOut? ==> Deadline(s.shown).Some?)
    && (a.Committing? ==> s.stage == 4 && s.shown == StateEvent(ApplyingConfiguration) && !s.committed)
  }

  function Note(s: Summary, a: Action): Summary {
    var failure := FailureOf(s.shown, a);
    Summary(
      s.started || (a.Wrote? && a.ok),
      s.stopped || Terminal(a),
      s.cleanups + if a.CleanedUp? then 1 else 0,
      if Milestone(a) == s.stage + 1 then s.stage + 1 else s.stage,
      if a.Wrote? && a.ok then a.event else s.shown,
      if CandidateOf(a) == None then s.candidate else CandidateOf(a),
      if failure == None then s.cause
      else if a.CleanedUp? && s.cause.Some? then Some(CleanupFailed)
      else failure,
      s.committed || Persisting(a),
      s.lawful && Allowed(s, a))
  }

  function Summarize(t: seq<Action>): Summary {
    if t == [] then NOTHING else Note(Summarize(t[..|t| - 1]), t[|t| - 1])
  }

  lemma SummarizePush(t: seq<Action>, a: Action)
    ensures Summarize(t + [a]) == Note(Summarize(t), a)
  {}

  // ----- what a lawful summary says about the trace -----

  lemma {:induction false} LawfulAt(t: seq<Action>, i: nat)
    requires Summarize(t).lawful && i < |t|
    ensures Summarize(t[..i]).lawful && Allowed(Summarize(t[..i]), t[i])
    decreases |t|
  {
    if i < |t| - 1 {
      LawfulAt(t[..|t| - 1], i);
      assert t[..|t| - 1][..i] == t[..i];
    }
  }

  /** The milestones 1 to k occurred in this order. */
  ghost predicate Happened(t: seq<Action>, k: nat)
    decreases k
  {
    k == 0 || exists j :: 0 <= j < |t| && Milestone(t[j]) == k && Happened(t[..j], k - 1)
  }

  lemma HappenedStays(t: seq<Action>, a: Action, k: nat)
    requires Happened(t, k)
    ensures Happened(t + [a], k)
  {
    if k > 0 {
      var j :| 0 <= j < |t| && Milestone(t[j]) == k && Happened(t[..j], k - 1);
      assert (t + [a])[j] == t[j] && (t + [a])[..j] == t[..j];
    }
  }

  lemma {:induction false} StageHappened(t: seq<Action>)
    ensures Happened(t, Summarize(t).stage)
    decreases |t|
  {
    if t != [] {
      var front, last := t[..|t| - 1], t[|t| - 1];
      StageHappened(front);
      assert t == front + [last];
      if Milestone(last) == Summarize(front).stage + 1 {
        assert t[|t| - 1] == last;
      } else {
        HappenedStays(front, last, Summarize(front).stage);
      }
    }
  }

  lemma {:induction false} FactsOf(t: seq<Action>)
    ensures Summarize(t).stopped <==> exists i :: 0 <= i < |t| && Terminal(t[i])
    ensures Summarize(t).committed <==> exists i :: 0 <= i < |t| && Persisting(t[i])
    ensures Summarize(t).cleanups == Count(t, (a: Action) => a.CleanedUp?)
    decreases |t|
  {
    if t != [] {
      var front, last := t[..|t| - 1], t[|t| - 1];
      FactsOf(front);
      assert t == front + [last];
      hide Terminal, Persisting;
      assert forall i :: 0 <= i < |front| ==> t[i] == front[i];
    }
  }

  /** Nothing follows a terminal event, so there is at most one. */
  lemma NothingFollowsTerminal(t: seq<Action>, i: nat, j: nat)
    requires Summarize(t).lawful && i < j < |t|
    ensures !Terminal(t[i])
  {
    LawfulAt(t, j);
    FactsOf(t[..j]);
    assert t[..j][i] == t[i];
  }

  /**
   * Nothing is committed before an explicit confirmation, an accepted answer, a verification and a cleanup, in this
   * order.
   */
  lemma CommitComesLast(t: seq<Action>, i: nat)
    requires Summarize(t).lawful && i < |t| && t[i].Committing?
    ensures Happened(t[..i], 4)
  {
    LawfulAt(t, i);
    StageHappened(t[..i]);
  }

  /** Completion is announced only after a successful commit; an error only if nothing was committed. */
  lemma EventsTellTheTruth(t: seq<Action>, i: nat)
    requires Summarize(t).lawful && i < |t| && Terminal(t[i])
    ensures t[i].event.Complete? ==> exists j :: 0 <= j < i && Persisting(t[j])
    ensures t[i].event.ErrorEvent? ==> forall j :: 0 <= j < |t| ==> !Persisting(t[j])
  {
    LawfulAt(t, i);
    FactsOf(t[..i]);
    if t[i].event.Complete? {
      var j :| 0 <= j < i && Persisting(t[..i][j]);
      assert t[j] == t[..i][j];
    } else {
      forall j | 0 <= j < |t| ensures !Persisting(t[j]) {
        if j < i {
          assert t[..i][j] == t[j];
        } else if j > i {
          NothingFollowsTerminal(t, i, j);
        }
      }
    }
  }

  lemma {:induction false} CandidateWasFound(t: seq<Action>)
    ensures Summarize(t).candidate.Some? ==> exists i :: 0 <= i < |t| && CandidateOf(t[i]) == Summarize(t).candidate
    decreases |t|
  {
    if t != [] {
      var front, last := t[..|t| - 1], t[|t| - 1];
      CandidateWasFound(front);
      assert t == front + [last];
      hide CandidateOf;
      assert forall i :: 0 <= i < |front| ==> t[i] == front[i];
    }
  }

  /** The user is asked about the candidate that the backend found, and about no other. */
  lemma AskedAboutTheCandidateFound(t: seq<Action>, i: nat)
    requires Summarize(t).lawful && i < |t| && t[i].Wrote? && t[i].event.ConfirmationRequest?
    ensures exists j :: 0 <= j < i && CandidateOf(t[j]) == Some(t[i].event.candidate)
  {
    LawfulAt(t, i);
    CandidateWasFound(t[..i]);
    var j :| 0 <= j < i && CandidateOf(t[..i][j]) == Some(t[i].event.candidate);
    assert t[j] == t[..i][j];
  }

  /** A trace as a whole: order of commit, one terminal event at the very end, and announcements that are true. */
  ghost predicate Orderly(t: seq<Action>) {
    && (forall i :: 0 <= i < |t| - 1 ==> !Terminal(t[i]))
    && (forall i :: 0 <= i < |t| && t[i].Committing? ==> Happened(t[..i], 4))
    && (forall i :: 0 <= i < |t| && t[i].Wrote? && t[i].event.Complete? ==> exists j :: 0 <= j < i && Persisting(t[j]))
    && (forall i, j :: 0 <= i < |t| && 0 <= j < |t| && t[i].Wrote? && t[i].event.ErrorEvent? ==> !Persisting(t[j]))
  }

  lemma LawfulIsOrderly(t: seq<Action>)
    requires Summarize(t).lawful
    ensures Orderly(t)
  {
    forall i | 0 <= i < |t| - 1 ensures !Terminal(t[i]) {
      NothingFollowsTerminal(t, i, |t| - 1);
    }
    forall i | 0 <= i < |t| && t[i].Committing? ensures Happened(t[..i], 4) {
      CommitComesLast(t, i);
    }
    forall i | 0 <= i < |t| && t[i].Wrote? && t[i].event.Complete? ensures exists j :: 0 <= j < i && Persisting(t[j]) {
      EventsTellTheTruth(t, i);
    }
    forall i, j | 0 <= i < |t| && 0 <= j < |t| && t[i].Wrote? && t[i].event.ErrorEvent? ensures !Persisting(t[j]) {
      EventsTellTheTruth(t, i);
    }
  }

  /** Without a commit there is no completion, written or not. */
  lemma NoCommitNoCompletion(t: seq<Action>, address: string, ok: bool)
    requires Summarize(t).lawful && t != [] && t[|t| - 1] == Wrote(Complete(address), ok)
    ensures Summarize(t).committed
  {}

  /** What a lawful trace and the answer of its run say together. */
  lemma LawfulRun(t: seq<Action>, completed: bool, address: Option<string>)
    requires Summarize(t).lawful
    requires Summarize(t).committed ==> t != [] && address.Some? && t[|t| - 1] == Wrote(Complete(address.value), completed)
    requires !Summarize(t).committed ==> !completed
    ensures Orderly(t)
    ensures Summarize(t).cleanups == Count(t, (a: Action) => a.CleanedUp?)
    ensures completed <==> t != [] && address.Some? && t[|t| - 1] == Wrote(Complete(address.value), true)
  {
    LawfulIsOrderly(t);
    FactsOf(t);
    if t != [] && address.Some? && t[|t| - 1] == Wrote(Complete(address.value), true) {
      NoCommitNoCompletion(t, address.value, true);
    }
    hide *;
  }
}
