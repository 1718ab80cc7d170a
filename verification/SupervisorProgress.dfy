/** How often the loop refreshes BlueZ while the phone is away, to the turn, and how soon it is Ready again. */
module SupervisorProgress {
  import opened Collections
  import opened Supervisor
  import opened SupervisorInvariants
  import opened SupervisorRecovery
  import opened SupervisorEffects
  import S = Session
  import T = Transport
  import SessionRuns

  // ----- the phone stays away -----

  /** Every turn finds the phone missing, or finds nothing registered and registers anew. */
  predicate PhoneAway(env: S.Env, s: State, turns: seq<Turn>)
    requires S.DrainsAll(env)
    decreases |turns|
  {
    turns == [] ||
    (var seen := T.Reconcile(s.held, turns[0].bus).answer;
     && (seen == T.Gives(T.WaitingForPhone) || (seen == T.Gives(T.Advertising) && !s.held.registrations))
     && PhoneAway(env, RunTurn(env, s, turns[0]), turns[1..]))
  }

  function Unregistered(s: State): nat {
    if s.held.registrations then 0 else 1
  }

  /**
   * The account between two points: waits pay for the refreshes, at first three for one and then six, and every turn
   * that was not a wait registered what the start or a refresh had left unregistered.
   */
  predicate Paces(start: State, s: State, turns: nat) {
    var waits, stalls := s.log.waits - start.log.waits, s.log.stallRefreshes - start.log.stallRefreshes;
    && turns == waits + Unregistered(start) + stalls - Unregistered(s)
    && (s.waiting > 0 ==> s.held.registrations)
    && (if s.refreshIndex == 0 then stalls == 0 && s.waiting == waits && s.waiting < 3
        else s.refreshIndex == 1 && stalls > 0 && 6 * stalls + s.waiting == waits + 3 && s.waiting < 6)
  }

  /** Only what is registered can be seen without the phone, and registering afresh is all that happens otherwise. */
  lemma AwayKeepsRegistrations(r: T.Resources, b: T.Bus)
    ensures var seen := T.Reconcile(r, b);
            && (seen.answer == T.Gives(T.WaitingForPhone) ==> r.registrations && seen.held.registrations)
            && (seen.answer == T.Gives(T.Advertising) ==> seen.held.registrations)
  {
    var bluez := T.EnsureBluez(r, b.sessionOpens, b.adapterFound);
    var reopened := T.EnsureBluez(T.ResetBluezSession(bluez.held), b.sessionReopens, b.adapterRefound);
    RegisterRegisters(bluez.held, b);
    RegisterRegisters(reopened.held, b);
    hide T.Register;
  }

  lemma RegisterRegisters(r: T.Resources, b: T.Bus)
    ensures var s := T.Register(r, b);
            && (s.answer == T.Gives(T.WaitingForPhone) ==> r.registrations && s.held.registrations)
            && (s.answer == T.Gives(T.Advertising) ==> s.held.registrations)
  {}

  /** One more turn without the phone, as far as the account goes. */
  predicate AwayTurn(s: State, next: State) {
    var waiting := Min(s.waiting + 1, 255);
    if next.log.waits == s.log.waits then
      !s.held.registrations && next.held.registrations && next.waiting == 0 && next.refreshIndex == s.refreshIndex
      && next.log.stallRefreshes == s.log.stallRefreshes
    else
      && s.held.registrations && next.log.waits == s.log.waits + 1
      && (if waiting >= PASSIVE_REFRESH_RECONCILES[Min(s.refreshIndex, 1)]
          then next.waiting == 0 && next.refreshIndex == Min(s.refreshIndex + 1, 1) && !next.held.registrations
               && next.log.stallRefreshes == s.log.stallRefreshes + 1
          else next.waiting == waiting && next.refreshIndex == s.refreshIndex && next.held.registrations
               && next.log.stallRefreshes == s.log.stallRefreshes)
  }

  lemma AwayTurnKeepsPace(start: State, s: State, next: State, turns: nat)
    requires Paces(start, s, turns) && AwayTurn(s, next)
    ensures Paces(start, next, turns + 1)
  {}

  lemma AwayReconcile(env: S.Env, s: State, b: T.Bus, a: T.SubscribeAnswers)
    requires S.DrainsAll(env) && !s.active
    requires var seen := T.Reconcile(s.held, b).answer;
             seen == T.Gives(T.WaitingForPhone) || (seen == T.Gives(T.Advertising) && !s.held.registrations)
    ensures AwayTurn(s, ReconcileOnce(env, s, b, a))
  {
    ReconcileCounters(env, s, b, a);
    ReconcileEffects(env, s, b, a);
    AwayKeepsRegistrations(s.held, b);
    hide ReconcileOnce, T.Reconcile, T.Subscribe, S.DrainsAll, S.End;
  }

  lemma AwayTurnIsReconcile(env: S.Env, s: State, t: Turn)
    requires S.DrainsAll(env) && AtLoopHead(s) && PhoneAway(env, s, [t])
    ensures RunTurn(env, s, t) == ReconcileOnce(env, s, t.bus, t.subscribe)
    ensures AtLoopHead(RunTurn(env, s, t)) && !RunTurn(env, s, t).active
    ensures var seen := T.Reconcile(s.held, t.bus).answer;
            seen == T.Gives(T.WaitingForPhone) || (seen == T.Gives(T.Advertising) && !s.held.registrations)
  {
    ReconcileCounters(env, s, t.bus, t.subscribe);
    hide RunTurn, ReconcileOnce, AtLoopHead, T.Reconcile, T.Subscribe, S.DrainsAll, NextCounters, CountersOf;
    QuietTurn(env, s, t);
  }

  lemma {:induction false} AwayKeepsPace(env: S.Env, start: State, s: State, turns: seq<Turn>, before: nat)
    requires S.DrainsAll(env) && AtLoopHead(s) && !s.active && Paces(start, s, before) && PhoneAway(env, s, turns)
    ensures Paces(start, RunTurns(env, s, turns), before + |turns|)
    decreases |turns|
  {
    hide RunTurn, AtLoopHead, S.DrainsAll, Paces, T.Reconcile, AwayTurn, ReconcileOnce;
    if turns != [] {
      var next := RunTurn(env, s, turns[0]);
      assert PhoneAway(env, s, [turns[0]]) by { assert PhoneAway(env, next, [turns[0]][1..]); }
      AwayTurnIsReconcile(env, s, turns[0]);
      AwayReconcile(env, s, turns[0].bus, turns[0].subscribe);
      AwayTurnKeepsPace(start, s, next, before);
      AwayKeepsPace(env, start, next, turns[1..], before + 1);
    }
  }

  /**
   * While the phone stays away, however long, W waits cause exactly (W+3)/6 refreshes. Counted in turns, since each
   * refresh costs one turn to register again, there are exactly (N+4)/7 refreshes in N turns, or (N+3)/7 if nothing was
   * registered at the start.
   */
  lemma AbsenceRefreshesExactly(env: S.Env, s: State, turns: seq<Turn>)
    requires S.DrainsAll(env) && AtLoopHead(s) && !s.active && TrackingReset(CountersOf(s)) && PhoneAway(env, s, turns)
    ensures var last := RunTurns(env, s, turns);
            var stalls := last.log.stallRefreshes - s.log.stallRefreshes;
            && stalls == (last.log.waits - s.log.waits + 3) / 6
            && stalls == (|turns| + if s.held.registrations then 4 else 3) / 7
  {
    AwayKeepsPace(env, s, s, turns, 0);
    hide RunTurns, PhoneAway, AtLoopHead, S.DrainsAll;
  }

  /** Everything works, but the phone is not connected. */
  const AWAY: T.Bus :=
    T.Bus(true, true, T.Gives(true), T.Gives(1), true, true, T.Gives(0), true, true,
          T.Gives(true), T.Fails, T.Gives(true), T.Gives(false), T.Fails, T.Fails)

  const REGISTERED: T.Resources := T.Resources(true, true, true, Some(0), false, false, None)

  function AwayTurns(n: nat): seq<Turn> {
    seq(n, i => Turn(AWAY, T.SubscribeAnswers(true, true), [], TimerFirst))
  }

  lemma AwayObservations()
    ensures T.Reconcile(T.RELEASED, AWAY) == T.Step(REGISTERED, T.Gives(T.Advertising))
    ensures T.Reconcile(REGISTERED, AWAY) == T.Step(REGISTERED, T.Gives(T.WaitingForPhone))
  {}

  lemma {:induction false} AwayForever(env: S.Env, s: State, n: nat)
    requires S.DrainsAll(env) && AtLoopHead(s) && !s.active && (s.held == T.RELEASED || s.held == REGISTERED)
    ensures PhoneAway(env, s, AwayTurns(n))
    decreases n
  {
    if n > 0 {
      var t := AwayTurns(n)[0];
      var next := RunTurn(env, s, t);
      AwayObservations();
      assert PhoneAway(env, s, [t]) by { hide RunTurn, S.DrainsAll; assert PhoneAway(env, next, [t][1..]); }
      AwayTurnIsReconcile(env, s, t);
      ReconcileEffects(env, s, AWAY, t.subscribe);
      hide RunTurn, ReconcileOnce, AtLoopHead, T.Reconcile, T.Subscribe, S.DrainsAll, S.End;
      assert AwayTurns(n)[1..] == AwayTurns(n - 1);
      AwayForever(env, next, n - 1);
    }
  }

  /**
   * From the start of the daemon such an absence can last for any number of turns; the second refresh is in the
   * eleventh.
   */
  lemma AbsenceFromTheStart(env: S.Env, n: nat)
    requires S.DrainsAll(env)
    ensures PhoneAway(env, PublishCurrent(CREATED), AwayTurns(n))
    ensures RunTurns(env, PublishCurrent(CREATED), AwayTurns(n)).log.stallRefreshes == (n + 3) / 7
  {
    var start := PublishCurrent(CREATED);
    StartIsAtLoopHead();
    AwayForever(env, start, n);
    hide RunTurns, S.DrainsAll, PhoneAway, AwayTurns;
    AwayTurnsLength(n);
    AbsenceRefreshesExactly(env, start, AwayTurns(n));
  }

  lemma AwayTurnsLength(n: nat)
    ensures |AwayTurns(n)| == n
  {}

  // ----- recovery -----

  /** Every question that one reconciliation may ask gets a good answer. */
  predicate Good(t: Turn) {
    var b := t.bus;
    && b.sessionOpens && b.adapterFound && b.sessionReopens && b.adapterRefound && b.powered == T.Gives(true)
    && b.activeInstances.Gives? && b.instancesBefore.Gives? && b.applicationServed && b.advertised
    && b.deviceKnown == T.Gives(true) && b.paired == T.Gives(true) && b.connected == T.Gives(true)
    && b.servicesResolved == T.Gives(true) && b.ancsComplete == T.Gives(true)
    && t.subscribe == T.SubscribeAnswers(true, true)
  }

  lemma GoodObservation(r: T.Resources, t: Turn)
    requires T.Consistent(r) && Good(t)
    ensures var seen := T.Reconcile(r, t.bus);
            && seen.answer.Gives?
            && (seen.answer.value.Ready? || seen.answer.value.Available? || seen.answer.value.Advertising?)
            && (seen.answer.value.Available? ==> T.Subscribe(seen.held, t.subscribe).answer.Gives?)
            && (seen.answer.value.Advertising? ==>
                  seen.held.registrations && seen.held.baseline == Some(t.bus.instancesBefore.value))
            && (r.registrations && t.bus.activeInstances.value > r.baseline.value ==> !seen.answer.value.Advertising?)
  {}

  /**
   * Two good reconciliations make the loop Ready from wherever it is, whatever went wrong before: the first does, or it
   * registers anew and the second does, provided the new advertisement is among the active ones by then.
   */
  lemma TwoGoodTurnsMakeReady(env: S.Env, s: State, first: Turn, second: Turn)
    requires S.DrainsAll(env) && AtLoopHead(s) && Good(first) && Good(second)
    requires second.bus.activeInstances.value > first.bus.instancesBefore.value
    ensures var r := ReconcileOnce(env, s, first.bus, first.subscribe);
            || (r.snapshot.state == Ready && r.active)
            || (r.snapshot.state == Advertising && RunTurn(env, s, first) == r
                && var r2 := ReconcileOnce(env, r, second.bus, second.subscribe); r2.snapshot.state == Ready && r2.active)
  {
    GoodReconcile(env, s, first);
    var r := ReconcileOnce(env, s, first.bus, first.subscribe);
    hide AtLoopHead, ReconcileOnce, Good, RunTurn, S.DrainsAll;
    if r.snapshot.state == Advertising {
      QuietTurn(env, s, first);
      GoodReconcile(env, r, second);
    }
  }

  lemma GoodReconcile(env: S.Env, s: State, t: Turn)
    requires S.DrainsAll(env) && AtLoopHead(s) && Good(t)
    ensures var r := ReconcileOnce(env, s, t.bus, t.subscribe);
            || (r.snapshot.state == Ready && r.active)
            || (r.snapshot.state == Advertising && r.held.registrations
                && r.held.baseline == Some(t.bus.instancesBefore.value)
                && !(s.held.registrations && s.held.baseline.Some?
                     && t.bus.activeInstances.value > s.held.baseline.value))
  {
    GoodObservation(s.held, t);
    ReconcileCounters(env, s, t.bus, t.subscribe);
    ReconcileEffects(env, s, t.bus, t.subscribe);
    hide ReconcileOnce, T.Reconcile, T.Subscribe, S.DrainsAll, S.End, Good, SessionRuns.Empty, LastPublished, AllLayered;
  }
}
