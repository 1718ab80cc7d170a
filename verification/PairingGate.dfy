/**
 * `AgentGate` of src/setup/production.rs: pairing requests wait until the user has answered for one identity.
 * Requests, answers, abandoned requests and the loss of the notice receiver interleave freely; each step holds the
 * lock throughout.
 */
module PairingGate {
  import opened Collections
  import opened Machine

  type Address = string

  datatype Verdict = Pending | Granted | Refused | Canceled

  /** A request as its caller sees it. */
  datatype Asked = Asked(address: Address, verdict: Verdict)

  datatype Notice = Notice(address: Address, passkey: Option<nat>)

  /** `waiters` are positions in `asked`; `asked`, `notices` and `unanswered` are history. */
  datatype Gate = Gate(active: Option<Address>, approved: Option<Address>, waiters: seq<nat>,
                       asked: seq<Asked>, notices: seq<Notice>, open: bool, unanswered: nat)

  const FRESH: Gate := Gate(None, None, [], [], [], true, 0)

  function Request(g: Gate, address: Address, passkey: Option<nat>): Gate {
    if g.approved == Some(address) then g.(asked := g.asked + [Asked(address, Granted)])
    else if g.approved.Some? || (g.active.Some? && g.active.value != address)
      then g.(asked := g.asked + [Asked(address, Refused)])
    else
      var g1 := g.(active := Some(address), waiters := g.waiters + [|g.asked|]);
      if g.active.Some? then g1.(asked := g.asked + [Asked(address, Pending)])
      else if !g.open then g1.(asked := g.asked + [Asked(address, Canceled)])
      else g1.(asked := g.asked + [Asked(address, Pending)], notices := g.notices + [Notice(address, passkey)],
               unanswered := g.unanswered + 1)
  }

  /** Sending a verdict reaches a request only while its caller still waits. */
  function Tell(asked: seq<Asked>, waiter: nat, verdict: Verdict): (r: seq<Asked>)
    ensures |r| == |asked|
  {
    if waiter < |asked| && asked[waiter].verdict == Pending then asked[waiter := asked[waiter].(verdict := verdict)]
      else asked
  }

  function TellAll(asked: seq<Asked>, waiters: seq<nat>, verdict: Verdict): (r: seq<Asked>)
    ensures |r| == |asked|
    decreases |waiters|
  {
    if waiters == [] then asked else TellAll(Tell(asked, waiters[0], verdict), waiters[1..], verdict)
  }

  function VerdictOf(accepted: bool): Verdict {
    if accepted then Granted else Refused
  }

  function Answer(g: Gate, address: Address, accepted: bool): (Gate, Result<(), SetupFailure>) {
    if g.active != Some(address) then (g, Err(PairingFailed))
    else
      var g1 := if accepted then g.(approved := Some(address)) else g.(active := None);
      (g1.(waiters := [], asked := TellAll(g.asked, g.waiters, VerdictOf(accepted)), unanswered := 0), Ok(()))
  }

  datatype Step =
    | RequestStep(address: Address, passkey: Option<nat>)
    | AnswerStep(address: Address, accepted: bool)
    | AbandonStep(request: nat)
    | CloseNotices

  function Do(g: Gate, step: Step): Gate {
    match step
    case RequestStep(address, passkey) => Request(g, address, passkey)
    case AnswerStep(address, accepted) => Answer(g, address, accepted).0
    case AbandonStep(request) => g.(asked := Tell(g.asked, request, Canceled))
    case CloseNotices => g.(open := false)
  }

  function Run(g: Gate, steps: seq<Step>): Gate
    decreases |steps|
  {
    if steps == [] then g else Run(Do(g, steps[0]), steps[1..])
  }

  // ----- invariant -----

  predicate Waiting(g: Gate) {
    && (forall w :: w in g.waiters ==> w < |g.asked| && g.active == Some(g.asked[w].address))
    && (forall i :: 0 <= i < |g.asked| && g.asked[i].verdict == Pending ==> i in g.waiters)
    && (g.active == None || g.approved.Some? ==> g.waiters == [])
  }

  predicate GrantsApproved(g: Gate) {
    forall i :: 0 <= i < |g.asked| && g.asked[i].verdict == Granted ==> g.approved == Some(g.asked[i].address)
  }

  predicate OneNotice(g: Gate) {
    && g.unanswered <= 1 && g.unanswered <= |g.notices|
    && (g.unanswered == 1 ==> g.approved == None && g.active == Some(g.notices[|g.notices| - 1].address))
  }

  /** An approved identity stays active unless it is turned down later. */
  predicate ApprovedIsActive(g: Gate) {
    g.approved.Some? && g.active.Some? ==> g.active == g.approved
  }

  predicate Sound(g: Gate) {
    Waiting(g) && GrantsApproved(g) && OneNotice(g) && ApprovedIsActive(g)
  }

  lemma {:induction false} TellAllAt(asked: seq<Asked>, waiters: seq<nat>, verdict: Verdict, i: nat)
    requires i < |asked| && verdict != Pending
    ensures TellAll(asked, waiters, verdict)[i]
            == if asked[i].verdict == Pending && i in waiters then asked[i].(verdict := verdict) else asked[i]
    decreases |waiters|
  {
    if waiters != [] {
      TellAllAt(Tell(asked, waiters[0], verdict), waiters[1..], verdict, i);
    }
  }

  lemma StepKeepsSound(g: Gate, step: Step)
    requires Sound(g)
    ensures Sound(Do(g, step))
  {
    match step {
      case AnswerStep(address, accepted) =>
        forall i | 0 <= i < |g.asked|
          ensures TellAll(g.asked, g.waiters, VerdictOf(accepted))[i]
                  == if g.asked[i].verdict == Pending then g.asked[i].(verdict := VerdictOf(accepted)) else g.asked[i]
        {
          TellAllAt(g.asked, g.waiters, VerdictOf(accepted), i);
        }
        hide TellAll;
      case _ =>
    }
  }

  lemma {:induction false} RunKeepsSound(g: Gate, steps: seq<Step>)
    requires Sound(g)
    ensures Sound(Run(g, steps))
    decreases |steps|
  {
    hide Sound, Do;
    if steps != [] {
      StepKeepsSound(g, steps[0]);
      RunKeepsSound(Do(g, steps[0]), steps[1..]);
    }
  }

  // ----- theorems over every interleaving -----

  /** The gate grants at most one identity in its whole life. */
  lemma GrantsOneIdentity(steps: seq<Step>, i: nat, j: nat)
    requires i < |Run(FRESH, steps).asked| && j < |Run(FRESH, steps).asked|
    requires Run(FRESH, steps).asked[i].verdict == Run(FRESH, steps).asked[j].verdict == Granted
    ensures Run(FRESH, steps).asked[i].address == Run(FRESH, steps).asked[j].address
  {
    RunKeepsSound(FRESH, steps);
    hide Run, Waiting, OneNotice;
  }

  /** Waiters belong to the active identity, none wait without one, and nobody waits who is not a waiter. */
  lemma WaitersAreActive(steps: seq<Step>)
    ensures Waiting(Run(FRESH, steps))
  {
    RunKeepsSound(FRESH, steps);
    hide Run;
  }

  /** At most one notice is unanswered, and it is the active identity's. */
  lemma OneNoticeIsUnanswered(steps: seq<Step>)
    ensures OneNotice(Run(FRESH, steps))
  {
    RunKeepsSound(FRESH, steps);
    hide Run;
  }

  /** One answer for the active identity gives every waiting request the same verdict and changes no other. */
  lemma AnswerResolvesEveryWaiter(steps: seq<Step>, address: Address, accepted: bool, i: nat)
    requires i < |Run(FRESH, steps).asked|
    ensures var g := Run(FRESH, steps);
            var (after, answered) := Answer(g, address, accepted);
            if g.active != Some(address) then answered == Err(PairingFailed) && after == g
            else
              && answered == Ok(()) && after.waiters == []
              && after.asked[i] == if g.asked[i].verdict == Pending then Asked(address, VerdictOf(accepted)) else g.asked[i]
  {
    var g := Run(FRESH, steps);
    RunKeepsSound(FRESH, steps);
    hide Run, GrantsApproved, OneNotice;
    TellAllAt(g.asked, g.waiters, VerdictOf(accepted), i);
  }

  lemma {:induction false} ApprovalNeedsAcceptance(g: Gate, steps: seq<Step>, address: Address)
    requires Run(g, steps).approved == Some(address) && g.approved != Some(address)
    ensures AnswerStep(address, true) in steps
    decreases |steps|
  {
    if steps != [] && steps[0] != AnswerStep(address, true) {
      hide TellAll, Tell;
      assert Do(g, steps[0]).approved != Some(address);
      ApprovalNeedsAcceptance(Do(g, steps[0]), steps[1..], address);
    }
  }

  /** No identity is granted that was not accepted. */
  lemma GrantNeedsAcceptance(steps: seq<Step>, i: nat)
    requires i < |Run(FRESH, steps).asked| && Run(FRESH, steps).asked[i].verdict == Granted
    ensures AnswerStep(Run(FRESH, steps).asked[i].address, true) in steps
  {
    RunKeepsSound(FRESH, steps);
    ApprovalNeedsAcceptance(FRESH, steps, Run(FRESH, steps).asked[i].address);
    hide Run;
  }

  lemma ApprovedStep(g: Gate, step: Step, address: Address)
    requires Sound(g) && g.approved == Some(address)
    ensures var next := Do(g, step);
            && next.approved == Some(address) && next.notices == g.notices
            && next.asked == if !step.RequestStep? then g.asked else
                 g.asked + [Asked(step.address, if step.address == address then Granted else Refused)]
  {
    assert g.waiters == [];
  }

  /** The requests among the steps, as an approved gate answers them. */
  function AskedApproved(steps: seq<Step>, address: Address): seq<Asked> {
    if steps == [] then []
    else
      (if steps[0].RequestStep?
       then [Asked(steps[0].address, if steps[0].address == address then Granted else Refused)] else [])
      + AskedApproved(steps[1..], address)
  }

  lemma {:induction false} ApprovedRun(g: Gate, later: seq<Step>, address: Address)
    requires Sound(g) && g.approved == Some(address)
    ensures var last := Run(g, later);
            && last.approved == Some(address) && last.notices == g.notices
            && last.asked == g.asked + AskedApproved(later, address)
    decreases |later|
  {
    hide Do, Sound;
    if later != [] {
      var next := Do(g, later[0]);
      ApprovedStep(g, later[0], address);
      StepKeepsSound(g, later[0]);
      ApprovedRun(next, later[1..], address);
      var now := if later[0].RequestStep?
      then [Asked(later[0].address, if later[0].address == address then Granted else Refused)] else [];
      var rest := AskedApproved(later[1..], address);
      assert AskedApproved(later, address) == now + rest;
      assert next.asked == g.asked + now;
      hide *;
      assert g.asked + now + rest == g.asked + (now + rest);
    } else {
      assert g.asked + [] == g.asked;
    }
  }

  /**
   * Once an identity is approved, no interleaving changes anything any more: earlier verdicts stand, nobody is
   * notified, and each later request is granted at once if it is for that identity and refused if not, whatever is
   * answered.
   */
  lemma ApprovalIsFinal(steps: seq<Step>, later: seq<Step>, address: Address)
    requires Run(FRESH, steps).approved == Some(address)
    ensures var before := Run(FRESH, steps);
            var last := Run(before, later);
            && last.approved == Some(address) && last.notices == before.notices
            && last.asked == before.asked + AskedApproved(later, address)
  {
    RunKeepsSound(FRESH, steps);
    hide Run, AskedApproved;
    ApprovedRun(Run(FRESH, steps), later, address);
  }
}

/** The imperative `AgentGate`, proved to implement the functions of module PairingGate. */
module SetupGate {
  import opened Collections
  import opened Machine
  import opened PairingGate

  class AgentGate {
    var active: Option<Address>
    var approved: Option<Address>
    var waiters: seq<nat>
    /** What every caller of `Request` has been told so far. */
    var asked: seq<Asked>
    var notices: seq<Notice>
    var open: bool
    ghost var unanswered: nat

    ghost function State(): Gate
      reads this
    {
      Gate(active, approved, waiters, asked, notices, open, unanswered)
    }

    constructor ()
      ensures State() == FRESH
    {
      active, approved, waiters, asked, notices, open, unanswered := None, None, [], [], [], true, 0;
    }

    method SendNotice(notice: Notice) returns (ok: bool)
      modifies this`notices, this`unanswered
      ensures ok == open
      ensures notices == (if ok then old(notices) + [notice] else old(notices))
      ensures unanswered == old(unanswered) + if ok then 1 else 0
    {
      if open {
        notices, unanswered := notices + [notice], unanswered + 1;
      }
      return open;
    }

    /** The part of `request` that holds the lock; a caller told `Pending` then waits for its verdict. */
    method Request(address: Address, passkey: Option<nat>)
      modifies this
      ensures State() == PairingGate.Request(old(State()), address, passkey)
    {
      if approved == Some(address) {
        asked := asked + [Asked(address, Granted)];
        return;
      }
      if approved.Some? || (active.Some? && active.value != address) {
        asked := asked + [Asked(address, Refused)];
        return;
      }
      var first := active.None?;
      active := Some(address);
      waiters := waiters + [|asked|];
      if first {
        var sent := SendNotice(Notice(address, passkey));
        if !sent {
          asked := asked + [Asked(address, Canceled)];
          return;
        }
      }
      asked := asked + [Asked(address, Pending)];
    }

    method Answer(address: Address, accepted: bool) returns (r: Result<(), SetupFailure>)
      modifies this
      ensures (State(), r) == PairingGate.Answer(old(State()), address, accepted)
    {
      if active != Some(address) {
        return Err(PairingFailed);
      }
      if accepted {
        approved := Some(address);
      } else {
        active := None;
      }
      ghost var all := TellAll(asked, waiters, VerdictOf(accepted));
      while waiters != []
        invariant TellAll(asked, waiters, VerdictOf(accepted)) == all
        invariant active == (if accepted then old(active) else None) && approved == if accepted then Some(address)
                  else old(approved)
        invariant notices == old(notices) && open == old(open)
        decreases |waiters|
      {
        asked := Tell(asked, waiters[0], VerdictOf(accepted));
        waiters := waiters[1..];
      }
      unanswered := 0;
      return Ok(());
    }
  }
}
