/** What failures of a disk can leave of a change of audio rules, and what undoing the applied part then gives. */
module AudioCompensation {
  import opened Collections
  import opened AudioRules

  /** A disk operation that failed; a `Late` write took effect before it was reported as failed. */
  datatype Fault = Unreadable(path: Path) | Unremovable(path: Path) | Unwritten(path: Path) | Late(path: Path)

  /** An error is known by the markers that its outermost message contains. */
  datatype Marker = ConflictMarker | CleanupMarker | RestartMarker

  type Message = set<Marker>

  /**
   * During a rollback a path keeps its content, is freed if the change created it, or gets its removed content back.
   */
  ghost predicate Restoring(before: Disk, now: Disk, c: RuleChange) {
    forall p ::
      || Find(now, p) == Find(before, p)
      || (p in Paths(c.created) && p !in now)
      || (p in now && OwnedRule(p, now[p]) in c.removed)
  }

  /** What the change created has its content or is gone. */
  ghost predicate Intact(disk: Disk, rules: seq<OwnedRule>) {
    forall i :: 0 <= i < |rules| ==>
      Find(disk, rules[i].path) == None || Find(disk, rules[i].path) == Some(rules[i].content)
  }

  /** The disk while creations are undone from the newest on: the first `i` of them are still to be removed. */
  ghost predicate CreationsLeft(before: Disk, disk: Disk, created: seq<OwnedRule>, i: nat) {
    && i <= |created|
    && disk - Paths(created[..i]) == before - Paths(created)
    && (forall j :: 0 <= j < i ==> Find(disk, created[j].path) == Find(before, created[j].path))
    && (forall p :: Find(disk, p) == Find(before, p) || (p in Paths(created) && p !in disk))
  }

  lemma CreationsStep(before: Disk, disk: Disk, created: seq<OwnedRule>, i: nat)
    requires i < |created| && DistinctPaths(created) && CreationsLeft(before, disk, created, i + 1)
    ensures CreationsLeft(before, disk - {created[i].path}, created, i)
  {}

  lemma CreationsStart(disk: Disk, created: seq<OwnedRule>)
    ensures CreationsLeft(disk, disk, created, |created|)
  {}

  /** The disk while removals are undone from the newest on: the first `i` of them are still to be put back. */
  ghost predicate RemovalsLeft(before: Disk, disk: Disk, removed: seq<OwnedRule>, i: nat) {
    && i <= |removed|
    && disk + Contents(removed[..i]) == before + Contents(removed)
    && (forall j :: 0 <= j < i ==> Find(disk, removed[j].path) == Find(before, removed[j].path))
    && PutBack(before, disk, removed)
  }

  /** A path holds what it did, or the content of a removed rule. */
  ghost predicate PutBack(before: Disk, disk: Disk, removed: seq<OwnedRule>) {
    forall p :: Find(disk, p) == Find(before, p) || (p in disk && OwnedRule(p, disk[p]) in removed)
  }

  lemma WriteFirst(disk: Disk, others: Disk, p: Path, content: Content)
    requires p !in others
    ensures disk[p := content] + others == disk + others[p := content]
  {}

  lemma WriteAhead(disk: Disk, removed: seq<OwnedRule>, i: nat)
    requires i < |removed| && DistinctPaths(removed)
    ensures disk[removed[i].path := removed[i].content] + Contents(removed[..i]) == disk + Contents(removed[..i + 1])
  {
    ContentsOfPrefix(removed, i);
    hide Contents;
    WriteFirst(disk, Contents(removed[..i]), removed[i].path, removed[i].content);
  }

  lemma RemovalsStep(before: Disk, disk: Disk, removed: seq<OwnedRule>, i: nat)
    requires i < |removed| && DistinctPaths(removed) && RemovalsLeft(before, disk, removed, i + 1)
    ensures RemovalsLeft(before, disk[removed[i].path := removed[i].content], removed, i)
  {
    var x := removed[i];
    var after := disk[x.path := x.content];
    WriteAhead(disk, removed, i);
    hide Contents;
    PutBackStep(before, disk, removed, x);
    forall j | 0 <= j < i ensures Find(after, removed[j].path) == Find(before, removed[j].path) {
      assert Find(disk, removed[j].path) == Find(before, removed[j].path);
    }
  }

  lemma PutBackStep(before: Disk, disk: Disk, removed: seq<OwnedRule>, x: OwnedRule)
    requires x in removed && PutBack(before, disk, removed)
    ensures PutBack(before, disk[x.path := x.content], removed)
  {}

  lemma RemovalsStart(disk: Disk, removed: seq<OwnedRule>)
    ensures RemovalsLeft(disk, disk, removed, |removed|)
  {
    assert removed[..|removed|] == removed;
    hide Contents;
  }

  lemma NothingLeft(before: Disk, disk: Disk, removed: seq<OwnedRule>)
    requires RemovalsLeft(before, disk, removed, 0)
    ensures disk == before + Contents(removed)
  {}

  /** A failure at `f` left everything in place, except for a write that took effect. */
  function Leftover(before: Disk, desired: Rules, f: Fault): Disk {
    if f.Late? && f.path in desired then before[f.path := desired[f.path]] else before
  }

  /**
   * What `reconcile` may answer, by the faults that happened: none means the target is reached, or a conflict that
   * changed nothing; one means the disk is as before, or, after a late write to a free path, has just that path; two,
   * or a late write to a path that was replaced, mean a failed cleanup.
   */
  ghost predicate Reconciled(before: Disk, now: Disk, previous: Rules, desired: Rules, order: seq<Path>, faults: seq<Fault>,
                             r: Result<RuleChange, Message>) {
    match r
    case Ok(change) =>
      && faults == [] && !Conflicting(before, previous, desired)
      && now == Target(before, previous, desired) && change == Plan(before, previous, desired, order)
    case Err(m) =>
      if m == {ConflictMarker} then faults == [] && Conflicting(before, previous, desired) && now == before
      else if m == {} then
        |faults| == 1 && now == Leftover(before, desired, faults[0])
        && (faults[0].Late? ==> FreeWrite(before, desired, faults[0]))
      else m == {CleanupMarker} && CleanupFailed(before, now, previous, desired, faults)
  }

  predicate FreeWrite(before: Disk, desired: Rules, f: Fault) {
    f.Late? && f.path in desired && f.path !in before
  }

  predicate ReplacingWrite(before: Disk, desired: Rules, f: Fault) {
    f.Late? && f.path in desired && f.path in before
  }

  ghost predicate CleanupFailed(before: Disk, now: Disk, previous: Rules, desired: Rules, faults: seq<Fault>) {
    && (|faults| == 2 || (|faults| == 1 && ReplacingWrite(before, desired, faults[0])))
    && Between(before, now, previous.Keys + desired.Keys, desired)
  }

  /** Undoing part of a change keeps every path between old and desired content. */
  lemma RestoringIsBetween(before: Disk, now: Disk, later: Disk, owned: set<Path>, desired: Rules, c: RuleChange)
    requires Undoable(before, c) && Paths(c.created) <= owned
    requires Between(before, now, owned, desired) && Restoring(now, later, c)
    ensures Between(before, later, owned, desired)
  {}

  /** The change writes only desired content, and only on owned paths. */
  ghost predicate Serves(c: RuleChange, owned: set<Path>, desired: Rules) {
    && Paths(c.created) <= owned && Paths(c.removed) <= owned
    && forall r :: r in c.created ==> Find(desired, r.path) == Some(r.content)
  }

  lemma PlanServes(disk: Disk, previous: Rules, desired: Rules, order: seq<Path>)
    requires Lists(order, previous.Keys + desired.Keys)
    ensures Serves(Plan(disk, previous, desired, order), previous.Keys + desired.Keys, desired)
  {
    forall r | r in Creations(disk, previous, desired, order)
      ensures r.path in order && Find(desired, r.path) == Some(r.content)
    {
      CreationsAt(disk, previous, desired, order, r);
    }
    forall r | r in Removals(disk, previous, desired, order) ensures r.path in order {
      RemovalsAt(disk, previous, desired, order, r);
    }
  }

  lemma AppliedIsBetween(before: Disk, c: RuleChange, owned: set<Path>, desired: Rules)
    requires Undoable(before, c) && Serves(c, owned, desired)
    ensures Between(before, Apply(before, c), owned, desired)
  {
    var now := Apply(before, c);
    forall p
      ensures Find(now, p) == Find(before, p) || (p in owned && (Find(now, p) == None || Find(now, p) == Find(desired, p)))
    {
      if p in Paths(c.created) {
        var r :| r in c.created && r.path == p;
        AppliedAt(before, c, r);
      }
    }
  }

  lemma PrefixServes(before: Disk, c: RuleChange, i: nat, owned: set<Path>, desired: Rules)
    requires Undoable(before, c) && Serves(c, owned, desired)
    ensures i <= |c.removed| ==>
              Undoable(before, RuleChange([], c.removed[..i])) && Serves(RuleChange([], c.removed[..i]), owned, desired)
    ensures i <= |c.created| ==>
              && Undoable(before, RuleChange(c.created[..i], c.removed))
              && Serves(RuleChange(c.created[..i], c.removed), owned, desired)
  {}

  /**
   * A failed apply step: nothing was applied in the end, or the cleanup failed and every path is between old and new.
   */
  ghost predicate Failed(before: Disk, now: Disk, owned: set<Path>, desired: Rules, faults: seq<Fault>, message: Message) {
    if message == {} then
      |faults| == 1 && now == Leftover(before, desired, faults[0])
      && (faults[0].Late? ==> FreeWrite(before, desired, faults[0]))
    else
      && message == {CleanupMarker} && Between(before, now, owned, desired)
      && (|faults| == 2 || (|faults| == 1 && ReplacingWrite(before, desired, faults[0])))
  }

  lemma ApplyRemovals(disk: Disk, removed: seq<OwnedRule>)
    ensures Apply(disk, RuleChange([], removed)) == disk - Paths(removed)
  {}

  /**
   * The change was applied, and the next step failed with `f`: without effect, or as a late write of a desired rule.
   */
  ghost predicate StepFailed(before: Disk, now: Disk, applied: RuleChange, f: Fault, owned: set<Path>, desired: Rules) {
    if !f.Late? then now == Apply(before, applied)
    else
      && f.path in owned && f.path in desired && f.path !in Paths(applied.created)
      && now == Apply(before, applied)[f.path := desired[f.path]]
      && (f.path in before ==> before[f.path] != desired[f.path] && f.path in Paths(applied.removed))
  }

  lemma AfterFailedStep(before: Disk, now: Disk, applied: RuleChange, f: Fault, owned: set<Path>, desired: Rules)
    requires Undoable(before, applied) && Serves(applied, owned, desired)
             && StepFailed(before, now, applied, f, owned, desired)
    ensures Between(before, now, owned, desired)
    ensures RolledBack(now, applied) == if ReplacingWrite(before, desired, f) then None
            else Some(Leftover(before, desired, f))
    ensures f.Late? ==> FreeWrite(before, desired, f) || ReplacingWrite(before, desired, f)
  {
    AppliedIsBetween(before, applied, owned, desired);
    if !f.Late? {
      RollbackUndoesApply(before, applied);
    } else {
      var x := OwnedRule(f.path, desired[f.path]);
      WriteIsBetween(before, Apply(before, applied), owned, desired, x);
      if f.path in before {
        LateWriteConflicts(before, applied, x);
      } else {
        LateWriteStays(before, applied, x);
      }
    }
    hide Contents, RolledBack, Apply, Between, Undoable, Serves;
  }

  lemma WriteIsBetween(before: Disk, now: Disk, owned: set<Path>, desired: Rules, x: OwnedRule)
    requires Between(before, now, owned, desired) && x.path in owned && Find(desired, x.path) == Some(x.content)
    ensures Between(before, now[x.path := x.content], owned, desired)
  {}

  lemma Overlay(disk: Disk, others: Disk, p: Path, content: Content)
    ensures disk + others[p := content] == (disk + others)[p := content]
  {}

  lemma CreateStep(before: Disk, c: RuleChange, j: nat)
    requires Undoable(before, c) && j < |c.created|
    ensures Apply(before, RuleChange(c.created[..j + 1], c.removed))
            == Apply(before, RuleChange(c.created[..j], c.removed))[c.created[j].path := c.created[j].content]
    ensures c.created[j].path !in Paths(c.created[..j])
  {
    ContentsOfPrefix(c.created, j);
    hide Contents;
    Overlay(before - Paths(c.removed), Contents(c.created[..j]), c.created[j].path, c.created[j].content);
  }

  lemma CreateStart(before: Disk, c: RuleChange)
    ensures Apply(before, RuleChange(c.created[..0], c.removed)) == before - Paths(c.removed)
  {}

  lemma CreateMayFail(before: Disk, c: RuleChange, j: nat, owned: set<Path>, desired: Rules)
    requires Undoable(before, c) && Serves(c, owned, desired) && j < |c.created|
    ensures var x, applied := c.created[j], RuleChange(c.created[..j], c.removed);
            && StepFailed(before, Apply(before, applied), applied, Unwritten(x.path), owned, desired)
            && StepFailed(before, Apply(before, applied)[x.path := x.content], applied, Late(x.path), owned, desired)
  {}

  lemma RemoveStep(before: Disk, c: RuleChange, i: nat)
    requires Undoable(before, c) && i < |c.removed|
    ensures var p := c.removed[i].path;
            p in before - Paths(c.removed[..i]) && before - Paths(c.removed[..i + 1]) == before - Paths(c.removed[..i]) - {p}
  {}

  // ----- with reload -----

  /**
   * What happened during a call: failed disk operations, attempts to restart WirePlumber, and how many of those
   * failed.
   */
  datatype Events = Events(faults: seq<Fault>, restarts: nat, failedRestarts: nat)

  /** What `rollback_change` may answer, by what happened. */
  ghost predicate Undone(before: Disk, now: Disk, c: RuleChange, e: Events, r: Result<(), Message>) {
    && Restoring(before, now, c)
    && if r.Ok? then RolledBack(before, c) == Some(now) && e == Events([], if c.Changed() then 1 else 0, 0)
       else if r.error == {ConflictMarker} then c.Changed() && RolledBack(before, c) == None && e == Events([], 0, 0)
       else c.Changed() && r.error == {} && ((|e.faults| == 1 && e.restarts == 0 && e.failedRestarts == 0)
                              || (RolledBack(before, c) == Some(now) && e == Events([], 1, 1)))
  }

  /** What `reconcile_with_reload` may answer, by what happened. */
  ghost predicate Reloaded(before: Disk, now: Disk, previous: Rules, desired: Rules, order: seq<Path>, e: Events,
                           r: Result<RuleChange, Message>) {
    if r.Ok? then
      Reconciled(before, now, previous, desired, order, e.faults, r)
      && e.restarts == (if r.value.Changed() then 1 else 0) && e.failedRestarts == 0
    else if e.restarts == 0 then
      Reconciled(before, now, previous, desired, order, e.faults, r) && e.failedRestarts == 0
    else
      && !Conflicting(before, previous, desired)
      && if r.error == {RestartMarker} then e == Events([], 2, 1) && now == before
         else
           && r.error == {CleanupMarker}
           && ((e == Events([], 2, 2) && now == before)
               || (|e.faults| == 1 && e.restarts == 1 && e.failedRestarts == 1
                   && Between(before, now, previous.Keys + desired.Keys, desired)))
  }

  /** Rolling back a change that `reconcile` reports restores the disk exactly, without a conflict. */
  lemma ReportedChangeIsUndone(before: Disk, now: Disk, previous: Rules, desired: Rules, order: seq<Path>, c: RuleChange)
    requires Lists(order, previous.Keys + desired.Keys)
    requires Reconciled(before, now, previous, desired, order, [], Ok(c))
    ensures DistinctPaths(c.created) && DistinctPaths(c.removed) && RolledBack(now, c) == Some(before)
    ensures Undoable(before, c) && now == Apply(before, c) && Serves(c, previous.Keys + desired.Keys, desired)
    ensures !Conflicting(before, previous, desired)
  {
    PlanIsUndoable(before, previous, desired, order);
    PlanReachesTarget(before, previous, desired, order);
    PlanServes(before, previous, desired, order);
    hide Plan, Apply, RolledBack, Target, Conflicting;
    RollbackUndoesApply(before, c);
  }

  lemma NothingToUndo(disk: Disk)
    ensures RolledBack(disk, UNCHANGED) == Some(disk) && Restoring(disk, disk, UNCHANGED)
  {
    assert disk - Paths([]) + Contents([]) == disk;
  }

  /** The error after a failed restart and the attempt to undo the change. */
  function RestartError(undone: Result<(), Message>): Message {
    if undone.Err? then {CleanupMarker} + undone.error else {RestartMarker}
  }

  lemma FailedRestart(before: Disk, now: Disk, after: Disk, previous: Rules, desired: Rules, order: seq<Path>,
                      c: RuleChange,
                      e: Events, undone: Result<(), Message>)
    requires Lists(order, previous.Keys + desired.Keys)
    requires Reconciled(before, now, previous, desired, order, [], Ok(c)) && c.Changed()
    requires Undone(now, after, c, e, undone)
    ensures Reloaded(before, after, previous, desired, order,
                     e.(restarts := e.restarts + 1, failedRestarts := e.failedRestarts + 1),
                     Err(RestartError(undone)))
  {
    hide Reconciled, Conflicting, Between, Restoring, RolledBack, Apply, Undoable, DistinctPaths, Lists;
    var owned := previous.Keys + desired.Keys;
    ReportedChangeIsUndone(before, now, previous, desired, order, c);
    AppliedIsBetween(before, c, owned, desired);
    RestoringIsBetween(before, now, after, owned, desired, c);
    assert undone.Err? ==> RolledBack(now, c) != None && undone.error == {};
  }

  lemma NoRestart(before: Disk, now: Disk, previous: Rules, desired: Rules, order: seq<Path>, faults: seq<Fault>,
                  r: Result<RuleChange, Message>)
    requires Reconciled(before, now, previous, desired, order, faults, r) && (r.Err? || !r.value.Changed())
    ensures Reloaded(before, now, previous, desired, order, Events(faults, 0, 0), r)
  {}

  lemma OneRestart(before: Disk, now: Disk, previous: Rules, desired: Rules, order: seq<Path>, faults: seq<Fault>,
                   c: RuleChange)
    requires Reconciled(before, now, previous, desired, order, faults, Ok(c)) && c.Changed()
    ensures faults == [] && Reloaded(before, now, previous, desired, order, Events([], 1, 0), Ok(c))
  {}
}
