/**
 * The plan of src/audio.rs on the content of a disk: what is removed and created for a change from one finite set of
 * rules to another, and what undoing that change does.
 */
module AudioRules {
  import opened Bytes
  import opened Collections

  type Path = string
  type Content = seq<byte>
  type Disk = map<Path, Content>
  type Rules = map<Path, Content>

  const NO_RULES: Rules := map[]

  datatype OwnedRule = OwnedRule(path: Path, content: Content)

  datatype RuleChange = RuleChange(created: seq<OwnedRule>, removed: seq<OwnedRule>) {
    predicate Changed() {
      created != [] || removed != []
    }
  }

  const UNCHANGED: RuleChange := RuleChange([], [])

  function Find<K, V>(m: map<K, V>, k: K): Option<V> {
    if k in m then Some(m[k]) else None
  }

  datatype Decision = Keep | Create | Remove | Replace | Conflict

  /** What must happen to one owned path. */
  function Decide(disk: Disk, previous: Rules, desired: Rules, p: Path): Decision {
    var found, had, wanted := Find(disk, p), Find(previous, p), Find(desired, p);
    if found == wanted then Keep
    else if found == None then Create
    else if found != had then Conflict
    else if wanted == None then Remove
    else Replace
  }

  ghost predicate Conflicting(disk: Disk, previous: Rules, desired: Rules) {
    exists p :: p in previous.Keys + desired.Keys && Decide(disk, previous, desired, p).Conflict?
  }

  function Removals(disk: Disk, previous: Rules, desired: Rules, order: seq<Path>): seq<OwnedRule> {
    if order == [] then []
    else
      var front, p := order[..|order| - 1], order[|order| - 1];
      var d := Decide(disk, previous, desired, p);
      Removals(disk, previous, desired, front) + if d.Remove? || d.Replace? then [OwnedRule(p, previous[p])] else []
  }

  function Creations(disk: Disk, previous: Rules, desired: Rules, order: seq<Path>): seq<OwnedRule> {
    if order == [] then []
    else
      var front, p := order[..|order| - 1], order[|order| - 1];
      var d := Decide(disk, previous, desired, p);
      Creations(disk, previous, desired, front) + if d.Create? || d.Replace? then [OwnedRule(p, desired[p])] else []
  }

  function Plan(disk: Disk, previous: Rules, desired: Rules, order: seq<Path>): RuleChange {
    RuleChange(Creations(disk, previous, desired, order), Removals(disk, previous, desired, order))
  }

  function Paths(rules: seq<OwnedRule>): (paths: set<Path>) {
    set r | r in rules :: r.path
  }

  /** The content the rules would give their paths; a later rule wins. */
  function Contents(rules: seq<OwnedRule>): (m: Disk)
    ensures m.Keys == Paths(rules)
  {
    if rules == [] then map[] else Contents(rules[..|rules| - 1])[rules[|rules| - 1].path := rules[|rules| - 1].content]
  }

  /** The disk after every removal and then every creation of a change. */
  function Apply(disk: Disk, c: RuleChange): Disk {
    disk - Paths(c.removed) + Contents(c.created)
  }

  /** The disk after undoing a change, unless a path of the change holds something else by now. */
  ghost function RolledBack(disk: Disk, c: RuleChange): Option<Disk> {
    var bare := disk - Paths(c.created);
    if (exists r :: r in c.created && r.path in disk && disk[r.path] != r.content)
       || (exists r :: r in c.removed && r.path in bare && bare[r.path] != r.content)
    then None else Some(bare + Contents(c.removed))
  }

  ghost predicate DistinctPaths(rules: seq<OwnedRule>) {
    forall i, j :: 0 <= i < j < |rules| ==> rules[i].path != rules[j].path
  }

  /**
   * A change that removes what is there and creates only where nothing, or something else that it removes, is there.
   */
  ghost predicate Undoable(disk: Disk, c: RuleChange) {
    && DistinctPaths(c.created) && DistinctPaths(c.removed)
    && (forall r :: r in c.removed ==> r.path in disk && disk[r.path] == r.content)
    && (forall r :: r in c.created ==> r.path in disk ==> disk[r.path] != r.content && r.path in Paths(c.removed))
  }

  // ----- contents -----

  lemma {:induction false} ContentsAt(rules: seq<OwnedRule>, r: OwnedRule)
    requires DistinctPaths(rules) && r in rules
    ensures Contents(rules)[r.path] == r.content
    decreases |rules|
  {
    var last := rules[|rules| - 1];
    if r != last {
      assert r in rules[..|rules| - 1];
      ContentsAt(rules[..|rules| - 1], r);
    }
  }

  lemma ContentsOfPrefix(rules: seq<OwnedRule>, i: nat)
    requires i < |rules|
    ensures Contents(rules[..i + 1]) == Contents(rules[..i])[rules[i].path := rules[i].content]
    ensures Paths(rules[..i + 1]) == Paths(rules[..i]) + {rules[i].path}
  {
    assert rules[..i + 1][..i] == rules[..i];
    assert Contents(rules[..i + 1]).Keys == Contents(rules[..i]).Keys + {rules[i].path};
  }

  // ----- the plan -----

  lemma {:induction false} RemovalsAt(disk: Disk, previous: Rules, desired: Rules, order: seq<Path>, r: OwnedRule)
    ensures r in Removals(disk, previous, desired, order)
            <==> r.path in order && (var d := Decide(disk, previous, desired, r.path);
                                     (d.Remove? || d.Replace?) && r.content == previous[r.path])
    decreases |order|
  {
    if order != [] {
      RemovalsAt(disk, previous, desired, order[..|order| - 1], r);
      assert order == order[..|order| - 1] + [order[|order| - 1]];
    }
  }

  lemma {:induction false} CreationsAt(disk: Disk, previous: Rules, desired: Rules, order: seq<Path>, r: OwnedRule)
    ensures r in Creations(disk, previous, desired, order)
            <==> r.path in order && (var d := Decide(disk, previous, desired, r.path);
                                     (d.Create? || d.Replace?) && r.content == desired[r.path])
    decreases |order|
  {
    if order != [] {
      CreationsAt(disk, previous, desired, order[..|order| - 1], r);
      assert order == order[..|order| - 1] + [order[|order| - 1]];
    }
  }

  lemma {:induction false} RemovalsDistinct(disk: Disk, previous: Rules, desired: Rules, order: seq<Path>)
    requires Distinct(order)
    ensures DistinctPaths(Removals(disk, previous, desired, order))
    decreases |order|
  {
    if order != [] {
      var front := order[..|order| - 1];
      RemovalsDistinct(disk, previous, desired, front);
      forall r | r in Removals(disk, previous, desired, front) ensures r.path in front {
        RemovalsAt(disk, previous, desired, front, r);
      }
    }
  }

  lemma {:induction false} CreationsDistinct(disk: Disk, previous: Rules, desired: Rules, order: seq<Path>)
    requires Distinct(order)
    ensures DistinctPaths(Creations(disk, previous, desired, order))
    decreases |order|
  {
    if order != [] {
      var front := order[..|order| - 1];
      CreationsDistinct(disk, previous, desired, front);
      forall r | r in Creations(disk, previous, desired, front) ensures r.path in front {
        CreationsAt(disk, previous, desired, front, r);
      }
    }
  }

  /** Every plan can be undone. */
  lemma PlanIsUndoable(disk: Disk, previous: Rules, desired: Rules, order: seq<Path>)
    requires Distinct(order)
    ensures Undoable(disk, Plan(disk, previous, desired, order))
  {
    RemovalsDistinct(disk, previous, desired, order);
    CreationsDistinct(disk, previous, desired, order);
    var c := Plan(disk, previous, desired, order);
    forall r | r in c.removed ensures r.path in disk && disk[r.path] == r.content {
      RemovalsAt(disk, previous, desired, order, r);
    }
    forall r | r in c.created ensures r.path in disk ==> disk[r.path] != r.content && r.path in Paths(c.removed) {
      CreationsAt(disk, previous, desired, order, r);
      if r.path in disk {
        RemovalsAt(disk, previous, desired, order, OwnedRule(r.path, previous[r.path]));
        assert OwnedRule(r.path, previous[r.path]) in c.removed;
      }
    }
  }

  /** The disk a change aims at: the desired content on every owned path, everything else as before. */
  function Target(disk: Disk, previous: Rules, desired: Rules): Disk {
    disk - (previous.Keys + desired.Keys) + desired
  }

  /**
   * Without a conflict, applying the plan gives exactly the desired content on owned paths and touches nothing else.
   */
  lemma PlanReachesTarget(disk: Disk, previous: Rules, desired: Rules, order: seq<Path>)
    requires Lists(order, previous.Keys + desired.Keys) && !Conflicting(disk, previous, desired)
    ensures Apply(disk, Plan(disk, previous, desired, order)) == Target(disk, previous, desired)
  {
    var c := Plan(disk, previous, desired, order);
    var after, target := Apply(disk, c), Target(disk, previous, desired);
    PlanIsUndoable(disk, previous, desired, order);
    hide Conflicting, Removals, Creations, Undoable, Contents;
    forall p ensures Find(after, p) == Find(target, p) {
      PlanReachesTargetAt(disk, previous, desired, order, p);
    }
    MapsEqual(after, target);
  }

  lemma MapsEqual<K, V>(a: map<K, V>, b: map<K, V>)
    requires forall k :: Find(a, k) == Find(b, k)
    ensures a == b
  {
    forall k ensures k in a <==> k in b {
      assert Find(a, k) == Find(b, k);
    }
    forall k | k in a ensures a[k] == b[k] {
      assert Find(a, k) == Find(b, k);
    }
  }

  lemma RemovedPathsOfPlan(disk: Disk, previous: Rules, desired: Rules, order: seq<Path>, p: Path)
    ensures p in Paths(Removals(disk, previous, desired, order))
            <==> p in order && (var d := Decide(disk, previous, desired, p); d.Remove? || d.Replace?)
  {}

  lemma CreationsPush(disk: Disk, previous: Rules, desired: Rules, front: seq<Path>, last: Path)
    ensures var d := Decide(disk, previous, desired, last);
            var c := Creations(disk, previous, desired, front);
            if d.Create? || d.Replace?
            then last in desired
                 && Creations(disk, previous, desired, front + [last]) == c + [OwnedRule(last, desired[last])]
            else Creations(disk, previous, desired, front + [last]) == c
  {}

  lemma {:induction false} CreatedContentOfPlan(disk: Disk, previous: Rules, desired: Rules, order: seq<Path>, p: Path)
    ensures Find(Contents(Creations(disk, previous, desired, order)), p)
            == if p in order && (var d := Decide(disk, previous, desired, p); d.Create? || d.Replace?)
              then Find(desired, p) else None
    decreases |order|
  {
    if order == [] {
      return;
    }
    hide Decide, Contents, Creations;
    var front, last := order[..|order| - 1], order[|order| - 1];
    CreatedContentOfPlan(disk, previous, desired, front, p);
    assert order == front + [last];
    CreationsPush(disk, previous, desired, front, last);
    if last in desired {
      ContentsPush(Creations(disk, previous, desired, front), OwnedRule(last, desired[last]));
    }
  }

  lemma ContentsPush(rules: seq<OwnedRule>, r: OwnedRule)
    ensures Contents(rules + [r]) == Contents(rules)[r.path := r.content]
  {}

  lemma PlanReachesTargetAt(disk: Disk, previous: Rules, desired: Rules, order: seq<Path>, p: Path)
    requires Lists(order, previous.Keys + desired.Keys) && !Conflicting(disk, previous, desired)
    ensures Find(Apply(disk, Plan(disk, previous, desired, order)), p) == Find(Target(disk, previous, desired), p)
  {
    RemovedPathsOfPlan(disk, previous, desired, order, p);
    CreatedContentOfPlan(disk, previous, desired, order, p);
    hide Removals, Creations, Contents, Paths;
    assert p in order ==> !Decide(disk, previous, desired, p).Conflict?;
  }

  lemma TargetAt(disk: Disk, previous: Rules, desired: Rules, p: Path)
    requires p in previous.Keys + desired.Keys
    ensures Find(Target(disk, previous, desired), p) == Find(desired, p)
  {}

  /** A plan is empty exactly if the disk is already as desired: applying again changes nothing. */
  lemma PlanIsEmptyExactly(disk: Disk, previous: Rules, desired: Rules, order: seq<Path>)
    requires Lists(order, previous.Keys + desired.Keys) && !Conflicting(disk, previous, desired)
    ensures !Plan(disk, previous, desired, order).Changed() <==> disk == Target(disk, previous, desired)
  {
    var c := Plan(disk, previous, desired, order);
    PlanReachesTarget(disk, previous, desired, order);
    hide Removals, Creations, Conflicting, Target, Apply;
    if c == UNCHANGED {
      assert Apply(disk, UNCHANGED) == disk by { ApplyNothing(disk); }
    } else {
      var r := if c.created != [] then c.created[0] else c.removed[0];
      CreationsAt(disk, previous, desired, order, r);
      RemovalsAt(disk, previous, desired, order, r);
      TargetAt(disk, previous, desired, r.path);
    }
  }

  lemma ApplyNothing(disk: Disk)
    ensures Apply(disk, UNCHANGED) == disk
  {}

  // ----- undoing -----

  lemma AppliedAt(disk: Disk, c: RuleChange, r: OwnedRule)
    requires DistinctPaths(c.created) && r in c.created
    ensures r.path in Apply(disk, c) && Apply(disk, c)[r.path] == r.content
  {
    ContentsAt(c.created, r);
  }

  /** Rolling back an applied change restores the disk exactly and never meets a conflict. */
  lemma RollbackUndoesApply(disk: Disk, c: RuleChange)
    requires Undoable(disk, c)
    ensures RolledBack(Apply(disk, c), c) == Some(disk)
  {
    var after := Apply(disk, c);
    var bare := after - Paths(c.created);
    forall r | r in c.created ensures r.path in after && after[r.path] == r.content {
      AppliedAt(disk, c, r);
    }
    forall p ensures Find(bare + Contents(c.removed), p) == Find(disk, p) {
      if p in Paths(c.removed) {
        var r :| r in c.removed && r.path == p;
        ContentsAt(c.removed, r);
      }
    }
    MapsEqual(bare + Contents(c.removed), disk);
  }

  /** A failed write that took effect on a free path: undoing the rest leaves its content behind. */
  lemma LateWriteStays(disk: Disk, c: RuleChange, x: OwnedRule)
    requires Undoable(disk, c) && x.path !in Paths(c.created) && x.path !in disk
    ensures RolledBack(Apply(disk, c)[x.path := x.content], c) == Some(disk[x.path := x.content])
  {
    var late := disk[x.path := x.content];
    assert Apply(late, c) == Apply(disk, c)[x.path := x.content];
    RollbackUndoesApply(late, c);
  }

  /** A failed write that took effect on a path whose old content was removed first: undoing stops at a conflict. */
  lemma LateWriteConflicts(disk: Disk, c: RuleChange, x: OwnedRule)
    requires Undoable(disk, c) && x.path !in Paths(c.created) && x.path in disk && disk[x.path] != x.content
    requires x.path in Paths(c.removed)
    ensures RolledBack(Apply(disk, c)[x.path := x.content], c) == None
  {}

  // ----- between two rule sets -----

  /** Every path holds its old content; an owned path may also be free or hold its desired content. */
  ghost predicate Between(before: Disk, now: Disk, owned: set<Path>, desired: Rules) {
    forall p ::
      Find(now, p) == Find(before, p) || (p in owned && (Find(now, p) == None || Find(now, p) == Find(desired, p)))
  }
}
