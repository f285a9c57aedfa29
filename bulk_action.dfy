/**
 The bulk action: one "run action A on N targets" request fanned out into one
 sub-job per target.

 The decisions are pure functions over values (target validation, the
 concurrency limit, the plan record, batch slicing, the reconciliation of a
 batch against the targets that still exist, and the display strings). The
 class `BulkAction` holds what the workflow engine stores for the action: the
 planned input, the concurrency level, the log of triggered sub-plans and the
 log of runs handed on to the generic sub-plan runner.
 */
module Actions {
  import opened Wrappers
  import opened RubyValues

  /** Identifiers of targets, and class names kept as opaque keys. */
  type Id = int
  type ClassName = string

  /** A target object: its database id and its class. */
  datatype Target = Target(id: Id, klass: ClassName)

  /** The two ways planning rejects its targets. */
  datatype BulkError = EmptyBulkAction | TargetsOfDifferentTypes

  /** Either `check_targets!` returns, or it raises. */
  datatype Checked = Ok | Raised(error: BulkError)

  /** The record stored by `plan_self`. */
  datatype PlanInput = PlanInput(
    actionClass: ClassName,
    targetIds: seq<Id>,
    targetClass: ClassName,
    args: seq<Value>,
    kwargs: seq<(Value, Value)>)

  /** One call of `trigger(action_class, target, *args)`; `None` is Ruby's nil target. */
  datatype Trigger = Trigger(actionClass: ClassName, target: Option<Target>, args: seq<Value>)

  /** What a sub-task reports about itself for display (`humanized`). */
  datatype Humanized = Humanized(action: string, input: Value)

  /** The argument of `run`: none given, the engine's Skip event, or any other event. */
  datatype RunEvent = NoEvent | SkipEvent | OtherEvent(name: string)

  /** The engine's rescue strategies. */
  datatype Rescue = Pause | Skip | Fail

  // ---------------------------------------------------------------------------
  // check_targets!

  /** The distinct classes of the targets (`targets.map(&:class).uniq`). */
  function Classes(targets: seq<Target>): (cs: set<ClassName>) {
    set t | t in targets :: t.klass
  }

  /** For a non-empty list, there is more than one class exactly when some
      target's class differs from the first target's. */
  lemma ClassesCount(targets: seq<Target>)
    requires |targets| > 0
    ensures |Classes(targets)| > 1 <==> exists i | 0 <= i < |targets| :: targets[i].klass != targets[0].klass
  {
    var c0 := targets[0].klass;
    var cs := Classes(targets);
    assert c0 in cs;
    if exists i | 0 <= i < |targets| :: targets[i].klass != c0 {
      var i :| 0 <= i < |targets| && targets[i].klass != c0;
      assert targets[i] in targets;
      assert targets[i].klass in cs - {c0};
      assert |cs - {c0}| >= 1;
      assert |cs| == |cs - {c0}| + 1;
    } else {
      assert cs == {c0};
    }
  }

  /** Planning refuses an empty list and a list whose targets have more than
      one class; every other list passes. */
  function CheckTargets(targets: seq<Target>): (r: Checked)
    ensures r == Raised(EmptyBulkAction) <==> |targets| == 0
    ensures r == Raised(TargetsOfDifferentTypes) <==>
      |targets| > 0 && exists i | 0 <= i < |targets| :: targets[i].klass != targets[0].klass
    ensures r == Ok <==>
      |targets| > 0 && forall i | 0 <= i < |targets| :: targets[i].klass == targets[0].klass
  {
    if |targets| == 0 then Raised(EmptyBulkAction)
    else
      ClassesCount(targets);
      if |Classes(targets)| > 1 then Raised(TargetsOfDifferentTypes) else Ok
  }

  // ---------------------------------------------------------------------------
  // extract_concurrency_limit

  const LimitKey: Value := Sym("concurrency_limit")

  /** `arg.is_a?(Hash) && arg.key?(:concurrency_limit)` */
  predicate IsLimitHash(arg: Value) {
    HasKey(arg, LimitKey)
  }

  /** The first positional Hash carrying `:concurrency_limit` supplies the limit,
      unless its value is nil or false; otherwise the explicit keyword `limit`. */
  function ExtractConcurrencyLimit(args: seq<Value>, limit: Value): (r: Value)
    ensures (forall i | 0 <= i < |args| :: !IsLimitHash(args[i])) ==> r == limit
    ensures forall i | 0 <= i < |args| && IsLimitHash(args[i]) && (forall j | 0 <= j < i :: !IsLimitHash(args[j])) ::
      r == (if Truthy(Fetch(args[i], LimitKey)) then Fetch(args[i], LimitKey) else limit)
  {
    match FindIndex(args, IsLimitHash)
    case None => limit
    case Some(i) => Or(Fetch(args[i], LimitKey), limit)
  }

  /** The result is always one of the candidates: the explicit limit, or the
      value under `:concurrency_limit` of some positional Hash. */
  lemma ExtractedLimitOrigin(args: seq<Value>, limit: Value)
    ensures var r := ExtractConcurrencyLimit(args, limit);
      r == limit || exists i | 0 <= i < |args| :: IsLimitHash(args[i]) && r == Fetch(args[i], LimitKey)
  {
    match FindIndex(args, IsLimitHash)
    case None =>
    case Some(i) =>
  }

  /** A later Hash never overrides an earlier one: only the first Hash with the
      key matters, whatever follows it. */
  lemma ExtractIgnoresLaterArgs(args: seq<Value>, more: seq<Value>, limit: Value)
    requires FindIndex(args, IsLimitHash).Some?
    ensures ExtractConcurrencyLimit(args + more, limit) == ExtractConcurrencyLimit(args, limit)
  {
    var i := FindIndex(args, IsLimitHash).value;
    var all := args + more;
    assert all[i] == args[i];
    assert forall j | 0 <= j < i :: all[j] == args[j];
  }

  // ---------------------------------------------------------------------------
  // plan

  /** `targets.map(&:id)`: one id per target, in order, duplicates kept. */
  function Ids(targets: seq<Target>): (ids: seq<Id>)
    ensures |ids| == |targets|
    ensures forall i | 0 <= i < |targets| :: ids[i] == targets[i].id
  {
    if |targets| == 0 then [] else [targets[0].id] + Ids(targets[1..])
  }

  /** The record `plan_self` stores for a successful plan. */
  function PlanRecord(actionClass: ClassName, targets: seq<Target>, args: seq<Value>, kwargs: seq<(Value, Value)>): (p: PlanInput)
    requires |targets| > 0
    ensures |p.targetIds| == |targets|
    ensures forall i | 0 <= i < |targets| :: p.targetIds[i] == targets[i].id
    ensures p.targetClass == targets[0].klass
    ensures p.actionClass == actionClass && p.args == args && p.kwargs == kwargs
  {
    PlanInput(actionClass, Ids(targets), targets[0].klass, args, kwargs)
  }

  // ---------------------------------------------------------------------------
  // batch, total_count

  /** `input[:target_ids].count` */
  function TotalCount(plan: PlanInput): (n: nat)
    ensures n == |plan.targetIds|
  {
    |plan.targetIds|
  }

  function Min(a: int, b: int): (m: int) {
    if a <= b then a else b
  }

  /** `Array#slice(from, size)` on the planned ids: a negative `from` counts from
      the end; a start outside the list or a negative size gives nil. */
  function Batch(plan: PlanInput, from: int, size: int): (r: Option<seq<Id>>)
    ensures r.Some? <==> size >= 0 && -|plan.targetIds| <= from <= |plan.targetIds|
    ensures r.Some? ==>
      var start := if from < 0 then from + |plan.targetIds| else from;
      |r.value| == Min(size, |plan.targetIds| - start) &&
      forall k | 0 <= k < |r.value| :: r.value[k] == plan.targetIds[start + k]
  {
    var ids := plan.targetIds;
    var start := if from < 0 then from + |ids| else from;
    if size < 0 || start < 0 || start > |ids| then None
    else Some(ids[start..Min(start + size, |ids|)])
  }

  /** Two consecutive windows read the same ids, in the same order, as the one
      window that spans both. */
  lemma ConsecutiveBatches(plan: PlanInput, from: nat, n: nat, m: nat)
    requires from + n <= |plan.targetIds|
    ensures Batch(plan, from, n).Some? && Batch(plan, from + n, m).Some?
    ensures Batch(plan, from, n).value + Batch(plan, from + n, m).value == Batch(plan, from, n + m).value
  {
    var ids := plan.targetIds;
    assert ids[from..from + n] + ids[from + n..Min(from + n + m, |ids|)] == ids[from..Min(from + n + m, |ids|)];
  }

  /** The window from 0 of size `total_count` is the whole planned id list. */
  lemma WholeBatch(plan: PlanInput)
    ensures Batch(plan, 0, TotalCount(plan)) == Some(plan.targetIds)
  {
    assert plan.targetIds[0..|plan.targetIds|] == plan.targetIds;
  }

  // ---------------------------------------------------------------------------
  // create_sub_plans

  /** Ruby's `Array#-`: the elements of `a` with every occurrence of anything
      that appears in `b` removed, and every occurrence of anything else kept. */
  function Without(a: seq<Id>, b: seq<Id>): (r: seq<Id>)
    ensures forall x :: multiset(r)[x] == if x in b then 0 else multiset(a)[x]
  {
    if |a| == 0 then []
    else
      assert a == [a[0]] + a[1..];
      if a[0] in b then Without(a[1..], b) else [a[0]] + Without(a[1..], b)
  }

  /** No two targets share an id. */
  predicate DistinctIds(targets: seq<Target>) {
    forall i, j | 0 <= i < j < |targets| :: targets[i].id != targets[j].id
  }

  predicate Distinct(ids: seq<Id>) {
    forall i, j | 0 <= i < j < |ids| :: ids[i] != ids[j]
  }

  /** What `target_class.unscoped.where(:id => batch)` may answer: records of the
      target class whose ids are in the batch, one per id, in any order. */
  predicate IsLookupResult(found: seq<Target>, batch: seq<Id>, targetClass: ClassName) {
    && (forall k | 0 <= k < |found| :: found[k].id in batch && found[k].klass == targetClass)
    && DistinctIds(found)
  }

  /** The argument list every sub-plan receives: the planned `args`, with the
      planned `kwargs` as one trailing Hash only when there are any. */
  function SubPlanArgs(plan: PlanInput): (r: seq<Value>)
    ensures |r| == |plan.args| + (if |plan.kwargs| == 0 then 0 else 1)
    ensures r[..|plan.args|] == plan.args
    ensures |plan.kwargs| > 0 ==> r[|plan.args|] == Hash(plan.kwargs)
  {
    if |plan.kwargs| == 0 then plan.args else plan.args + [Hash(plan.kwargs)]
  }

  /** `targets + missing`: the found records, then one nil per missing id. */
  function Units(found: seq<Target>, missing: nat): (u: seq<Option<Target>>)
    ensures |u| == |found| + missing
    ensures forall k | 0 <= k < |found| :: u[k] == Some(found[k])
    ensures forall k | |found| <= k < |u| :: u[k].None?
  {
    seq(|found|, k requires 0 <= k < |found| => Some(found[k])) + seq(missing, _ => None)
  }

  /** The triggers `create_sub_plans` issues for one batch, given what the lookup found:
      one per found record, in the lookup's order, then one nil target per batch
      id that no found record has, all with the same action and arguments. */
  function SubPlanTriggers(plan: PlanInput, batch: seq<Id>, found: seq<Target>): (r: seq<Trigger>)
    ensures |r| == |found| + |Without(batch, Ids(found))|
    ensures forall k | 0 <= k < |r| :: r[k].actionClass == plan.actionClass && r[k].args == SubPlanArgs(plan)
    ensures forall k | 0 <= k < |found| :: r[k].target == Some(found[k])
    ensures forall k | |found| <= k < |r| :: r[k].target == None
  {
    var units := Units(found, |Without(batch, Ids(found))|);
    seq(|units|, k requires 0 <= k < |units| => Trigger(plan.actionClass, units[k], SubPlanArgs(plan)))
  }

  /** In a list without repeats, an element occurs once or not at all. */
  lemma {:induction false} DistinctMultiplicity(ids: seq<Id>, x: Id)
    requires Distinct(ids)
    ensures multiset(ids)[x] == if x in ids then 1 else 0
  {
    if |ids| > 0 {
      assert ids == [ids[0]] + ids[1..];
      assert Distinct(ids[1..]);
      DistinctMultiplicity(ids[1..], x);
      assert ids[0] !in ids[1..];
    }
  }

  /** Ids of distinct records are distinct. */
  lemma IdsDistinct(found: seq<Target>)
    requires DistinctIds(found)
    ensures Distinct(Ids(found))
  {
  }

  /** Found records and missing placeholders together never outnumber the batch
      ids: each found record uses up at least one occurrence of its id. */
  lemma TriggerCountAtMostBatch(plan: PlanInput, batch: seq<Id>, found: seq<Target>)
    requires IsLookupResult(found, batch, plan.targetClass)
    ensures |SubPlanTriggers(plan, batch, found)| <= |batch|
  {
    var ids := Ids(found);
    var w := Without(batch, ids);
    IdsDistinct(found);
    var covered := multiset(ids) + multiset(w);
    forall x ensures covered[x] <= multiset(batch)[x] {
      DistinctMultiplicity(ids, x);
      if x in ids {
        var k :| 0 <= k < |ids| && ids[k] == x;
        assert found[k].id == x;
      }
    }
    var rest := multiset(batch) - covered;
    assert multiset(batch) == covered + rest;
  }

  /** When the batch has no repeated id, the number of triggers is exactly the
      batch size, however many of its targets have disappeared. */
  lemma TriggerCountEqualsBatch(plan: PlanInput, batch: seq<Id>, found: seq<Target>)
    requires IsLookupResult(found, batch, plan.targetClass)
    requires Distinct(batch)
    ensures |SubPlanTriggers(plan, batch, found)| == |batch|
  {
    var ids := Ids(found);
    var w := Without(batch, ids);
    IdsDistinct(found);
    forall x ensures (multiset(ids) + multiset(w))[x] == multiset(batch)[x] {
      DistinctMultiplicity(ids, x);
      DistinctMultiplicity(batch, x);
      if x in ids {
        var k :| 0 <= k < |ids| && ids[k] == x;
        assert found[k].id == x;
      }
    }
    assert multiset(ids) + multiset(w) == multiset(batch);
  }

  /** Repeated ids, which `plan` keeps, break the one-trigger-per-id count:
      a batch [7, 7] whose one record is found yields one trigger, not two. */
  lemma RepeatedIdsLoseTriggers()
    ensures var plan := PlanInput("Actions::Host::Update", [7, 7], "Host", [], []);
      var found := [Target(7, "Host")];
      && IsLookupResult(found, [7, 7], plan.targetClass)
      && |SubPlanTriggers(plan, [7, 7], found)| == 1
  {
    var found := [Target(7, "Host")];
    assert Ids(found) == [7];
    assert Without([7], [7]) == [];
    assert Without([7, 7], [7]) == [];
  }

  /** Ids [1, 2, 3] with only 3 and 1 still present (found in that order):
      three triggers, the two records first, then one nil placeholder. */
  lemma MissingTargetScenario()
    ensures var plan := PlanInput("Actions::Host::Update", [1, 2, 3], "Host", [], []);
      var found := [Target(3, "Host"), Target(1, "Host")];
      var r := SubPlanTriggers(plan, [1, 2, 3], found);
      && |r| == 3
      && r[0].target == Some(Target(3, "Host"))
      && r[1].target == Some(Target(1, "Host"))
      && r[2].target == None
  {
    var plan := PlanInput("Actions::Host::Update", [1, 2, 3], "Host", [], []);
    var found := [Target(3, "Host"), Target(1, "Host")];
    var ids: seq<Id> := [3, 1];
    assert Ids(found) == ids;
    assert Without([3], ids) == [];
    assert Without([2, 3], ids) == [2] + Without([3], ids);
    assert Without([1, 2, 3], ids) == Without([2, 3], ids);
    var r := SubPlanTriggers(plan, [1, 2, 3], found);
    assert |r| == 3;
  }

  // ---------------------------------------------------------------------------
  // humanized_name, humanized_input, rescue_strategy

  /** The first sub-task's action name unchanged, or "Bulk action" before any exists. */
  function HumanizedName(subTasks: seq<Humanized>): (r: string)
    ensures |subTasks| == 0 ==> r == "Bulk action"
    ensures |subTasks| > 0 ==> r == subTasks[0].action
  {
    if |subTasks| > 0 then subTasks[0].action else "Bulk action"
  }

  /** nil before any sub-task exists; otherwise the first sub-task's action name
      lower-cased, then its own input as a list, then "...". */
  function HumanizedInput(subTasks: seq<Humanized>): (r: Option<seq<Value>>)
    ensures r.None? <==> |subTasks| == 0
    ensures r.Some? ==>
      var shown := ToArray(subTasks[0].input);
      && |r.value| == |shown| + 2
      && r.value[0] == Str(Downcase(subTasks[0].action))
      && r.value[1..|r.value| - 1] == shown
      && r.value[|r.value| - 1] == Str("...")
  {
    if |subTasks| == 0 then None
    else
      var a := subTasks[0];
      Some([Str(Downcase(a.action))] + ToArray(a.input) + [Str("...")])
  }

  /** Name and input describe the same sub-task: the input starts with the name
      lower-cased, and carries no upper-case letter there even when the name does. */
  lemma NameAndInputAgree(subTasks: seq<Humanized>)
    requires |subTasks| > 0
    ensures HumanizedInput(subTasks).Some?
    ensures HumanizedInput(subTasks).value[0] == Str(Downcase(HumanizedName(subTasks)))
    ensures forall i | 0 <= i < |HumanizedInput(subTasks).value[0].s| :: !IsUpper(HumanizedInput(subTasks).value[0].s[i])
  {
  }

  /** A failing sub-plan is skipped; it never pauses or fails the bulk action. */
  function RescueStrategy(): (r: Rescue)
    ensures r == Skip
  {
    Skip
  }

  // ---------------------------------------------------------------------------
  // The action's stored state

  class BulkAction {
    /** The record stored by `plan_self`; nil until planned. */
    var input: Option<PlanInput>
    /** The value handed to `limit_concurrency_level!`, if it was called. */
    var concurrencyLevel: Option<Value>
    /** Every `trigger` issued so far, in order. */
    var triggered: seq<Trigger>
    /** Every event `run` handed on to the generic sub-plan runner. */
    var superRuns: seq<RunEvent>

    constructor ()
      ensures input == None && concurrencyLevel == None
      ensures triggered == [] && superRuns == []
    {
      input := None;
      concurrencyLevel := None;
      triggered := [];
      superRuns := [];
    }

    /** `plan`: validate the targets (raising leaves nothing changed), set the
        concurrency level when a truthy limit is found, and store the plan. */
    method Plan(actionClass: ClassName, targets: seq<Target>, args: seq<Value>,
                concurrencyLimit: Value, kwargs: seq<(Value, Value)>) returns (outcome: Checked)
      modifies this
      ensures outcome == CheckTargets(targets)
      ensures outcome.Raised? ==> input == old(input) && concurrencyLevel == old(concurrencyLevel)
      ensures outcome.Ok? ==>
        && input == Some(PlanRecord(actionClass, targets, args, kwargs))
        && input.value.targetIds == Ids(targets)
        && TotalCount(input.value) == |targets|
      ensures outcome.Ok? ==>
        var limit := ExtractConcurrencyLimit(args, concurrencyLimit);
        concurrencyLevel == if Truthy(limit) then Some(limit) else old(concurrencyLevel)
      ensures triggered == old(triggered) && superRuns == old(superRuns)
    {
      outcome := CheckTargets(targets);
      if outcome.Raised? {
        return;
      }
      var limit := ExtractConcurrencyLimit(args, concurrencyLimit);
      if Truthy(limit) {
        concurrencyLevel := Some(limit);
      }
      input := Some(PlanRecord(actionClass, targets, args, kwargs));
    }

    /** `run`: hand the event on to the generic runner unless it is Skip. */
    method Run(event: RunEvent) returns (delegated: bool)
      modifies this
      ensures delegated <==> event != SkipEvent
      ensures superRuns == if delegated then old(superRuns) + [event] else old(superRuns)
      ensures input == old(input) && concurrencyLevel == old(concurrencyLevel) && triggered == old(triggered)
    {
      delegated := event != SkipEvent;
      if delegated {
        superRuns := superRuns + [event];
      }
    }

    /** `create_sub_plans` for the current batch, given the records the lookup
        found for it: trigger one sub-plan per element of `targets + missing`. */
    method CreateSubPlans(currentBatch: seq<Id>, found: seq<Target>) returns (created: seq<Trigger>)
      requires input.Some?
      requires IsLookupResult(found, currentBatch, input.value.targetClass)
      modifies this
      ensures input == old(input) && concurrencyLevel == old(concurrencyLevel) && superRuns == old(superRuns)
      ensures created == SubPlanTriggers(input.value, currentBatch, found)
      ensures triggered == old(triggered) + created
    {
      var plan := input.value;
      var missing := |Without(currentBatch, Ids(found))|;
      var units := Units(found, missing);
      var args := SubPlanArgs(plan);
      ghost var spec := SubPlanTriggers(plan, currentBatch, found);
      created := [];
      var k := 0;
      while k < |units|
        invariant 0 <= k <= |units| == |spec|
        invariant created == spec[..k]
        invariant triggered == old(triggered) + created
        invariant input == old(input) && concurrencyLevel == old(concurrencyLevel) && superRuns == old(superRuns)
      {
        var t := Trigger(plan.actionClass, units[k], args);
        triggered := triggered + [t];
        created := created + [t];
        k := k + 1;
      }
    }
  }

  /** Two hosts with a positional limit of 2: the targets pass, the ids are
      [1, 2], the limit is 2, and with both hosts found the batch [1, 2]
      triggers the two hosts in the lookup's order and no placeholder. */
  lemma TwoHostsScenario()
    ensures var hosts := [Target(1, "Host"), Target(2, "Host")];
      var args := [Hash([(LimitKey, Int(2))])];
      var plan := PlanRecord("Actions::Host::Update", hosts, args, []);
      var r := SubPlanTriggers(plan, [1, 2], hosts);
      && CheckTargets(hosts) == Ok
      && plan.targetIds == [1, 2]
      && ExtractConcurrencyLimit(args, Nil) == Int(2)
      && |r| == 2 && r[0].target == Some(hosts[0]) && r[1].target == Some(hosts[1])
      && r[0].args == args
  {
    var hosts := [Target(1, "Host"), Target(2, "Host")];
    var args := [Hash([(LimitKey, Int(2))])];
    assert IsLimitHash(args[0]);
    assert Fetch(args[0], LimitKey) == Int(2);
    var ids: seq<Id> := [1, 2];
    assert Ids(hosts) == ids;
    assert Without([2], ids) == [];
    assert Without([1, 2], ids) == Without([2], ids);
  }
}
