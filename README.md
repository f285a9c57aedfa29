# BulkAction — a Dafny model of the bulk fan-out action

`Actions::BulkAction` takes one request: "run action A on N targets". It plans
that request once. The workflow engine then calls it batch by batch, and for
each batch it triggers one sub-plan per target. This project models the
decision logic of that action:

- the validation of the target list (`check_targets!`);
- the choice of the concurrency limit (`extract_concurrency_limit`);
- the plan record stored by `plan` (the ids in order with duplicates kept, the
  first target's class, the shared `args` and `kwargs`);
- batch slicing and counting (`batch`, `total_count`);
- the reconciliation of one batch against the targets that still exist, and
  the list of triggers that follows (`create_sub_plans`);
- the display strings (`humanized_name`, `humanized_input`), the skip
  short-circuit of `run`, and the rescue strategy.

Files:

- `wrappers.dfy`: `Option`.
- `ruby_values.dfy`: module `RubyValues`. Ruby values (nil, booleans,
  integers, strings, symbols, arrays, insertion-ordered hashes) and the
  core-library operations the action uses on them. These are truthiness and
  `||`, `Enumerable#find` (modelled as the index of the first match, followed
  by reading the element at that index), `Hash#key?`/`fetch`, `Kernel#Array`
  and `String#downcase`.
- `bulk_action.dfy`: module `Actions`. The pure decisions are functions over
  values. Class `Actions.BulkAction` holds what the engine stores for the
  action:
  - the planned input;
  - the concurrency level passed to `limit_concurrency_level!`;
  - an append-only log of `trigger` calls;
  - a log of the events `run` hands on to its superclass.

  `Plan`, `Run` and `CreateSubPlans` update these fields. `CreateSubPlans`
  does so in a loop, one trigger per element of `targets + missing`.

The data-store lookup `target_class.unscoped.where(:id => current_batch)` is
not computed. It is the parameter `found` of `CreateSubPlans`, constrained by
`IsLookupResult`: records of the target class, with ids drawn from the batch,
no id twice, in any order. `current_batch` is a parameter too.

Three behaviours of the code are worth stating outright:

- `humanized_name` returns the first sub-task's action name unchanged. Only
  `humanized_input` lower-cases it, as its first element.
- With no positional Hash holding `:concurrency_limit`, the limit is the
  keyword argument `concurrency_limit`, which is nil by default. A Hash value
  of nil or false also falls back to that keyword.
- `plan` keeps duplicate target ids, and `Array#-` removes every occurrence of
  a found id. So a batch with a repeated id that is found yields fewer
  triggers than it has ids. `RepeatedIdsLoseTriggers` shows this for the batch
  [7, 7]. In general `TriggerCountAtMostBatch` bounds the count by the batch
  size, and `TriggerCountEqualsBatch` gives equality when the batch has no
  repeated id.

## Model

| member | source | states |
|---|---|---|
| Actions.CheckTargets | app/lib/actions/bulk_action.rb:62-67 | raises EmptyBulkAction iff the list is empty; raises TargetsOfDifferentTypes iff it is non-empty and some target's class differs from the first's; passes iff it is non-empty and all classes are equal |
| Actions.ClassesCount | app/lib/actions/bulk_action.rb:64 | for a non-empty list, more than one distinct class (`map(&:class).uniq.length > 1`) iff some class differs from the first target's |
| Actions.ExtractConcurrencyLimit | app/lib/actions/bulk_action.rb:79-81 | with no positional Hash holding `:concurrency_limit` the result is the keyword `limit`; otherwise the first such Hash decides: its value if truthy, else `limit` |
| Actions.ExtractedLimitOrigin | app/lib/actions/bulk_action.rb:80 | the result is always the keyword `limit` or the `:concurrency_limit` value of some positional Hash |
| Actions.ExtractIgnoresLaterArgs | app/lib/actions/bulk_action.rb:80 | once some arg is a Hash with the key, appending further args never changes the result (the first such Hash wins) |
| RubyValues.FindIndex | app/lib/actions/bulk_action.rb:80 | `find` is modelled as the index of the first element that satisfies the block (no earlier element does), or None for find's nil when no element does; the caller then reads the element at that index |
| RubyValues.Fetch | app/lib/actions/bulk_action.rb:80 | `fetch` on a present key answers the value stored under that key |
| RubyValues.Or | app/lib/actions/bulk_action.rb:80 | Ruby's or-operator answers its left operand when that is neither nil nor false, and its right operand otherwise |
| Actions.Ids | app/lib/actions/bulk_action.rb:15 | `targets.map(&:id)` has one id per target, at the same position: same length, same order, duplicates kept |
| Actions.PlanRecord | app/lib/actions/bulk_action.rb:14-18 | the stored record holds, position by position, the id of each target (duplicates kept), the first target's class, and the action class, `args` and `kwargs` as given |
| Actions.BulkAction.Plan | app/lib/actions/bulk_action.rb:10-19 | the outcome is `check_targets!`'s; on a raise nothing changes; otherwise the record is stored with `total_count == targets.length`, and the concurrency level is set exactly when the extracted limit is truthy; no trigger is issued |
| Actions.TotalCount | app/lib/actions/bulk_action.rb:73-75 | the count is the number of planned ids |
| Actions.Batch | app/lib/actions/bulk_action.rb:69-71 | `slice(from, size)` is nil exactly when size < 0 or the start lies outside the list; otherwise it is the contiguous run of ids from the start, of length min(size, len - start), with a negative `from` counted from the end |
| Actions.ConsecutiveBatches | app/lib/actions/bulk_action.rb:69-71 | two adjacent windows read, in order, exactly the ids of the window that spans both |
| Actions.WholeBatch | app/lib/actions/bulk_action.rb:69-75 | the window from 0 of size `total_count` is the whole planned id list |
| Actions.Without | app/lib/actions/bulk_action.rb:52 | `current_batch - found_ids` drops every occurrence of an id that was found and keeps every occurrence of one that was not |
| Actions.SubPlanArgs | app/lib/actions/bulk_action.rb:54-55 | the sub-plan argument list begins with the planned `args` and has `kwargs` as one trailing Hash exactly when `kwargs` is non-empty |
| Actions.Units | app/lib/actions/bulk_action.rb:52-57 | `targets + missing` holds the found records first, in the lookup's order, then one nil per missing id |
| Actions.SubPlanTriggers | app/lib/actions/bulk_action.rb:47-60 | the number of triggers is (found records) + (batch ids equal to no found id); all carry the planned action class and the same argument list; the found records come first, in the lookup's order, and every later trigger has a nil target |
| Actions.TriggerCountAtMostBatch | app/lib/actions/bulk_action.rb:50-58 | for any lookup result, a batch never yields more triggers than it has ids |
| Actions.TriggerCountEqualsBatch | app/lib/actions/bulk_action.rb:50-58 | when the batch has no repeated id, it yields exactly as many triggers as ids, however many targets vanished |
| Actions.RepeatedIdsLoseTriggers | app/lib/actions/bulk_action.rb:52-57 | the batch [7, 7], with its one record found, yields a single trigger |
| Actions.MissingTargetScenario | app/lib/actions/bulk_action.rb:50-59 | ids [1, 2, 3] with records 3 and 1 found give three triggers: record 3, record 1, then one nil placeholder |
| Actions.TwoHostsScenario | app/lib/actions/bulk_action.rb:10-59 | two hosts with a positional limit of 2 pass validation, give ids [1, 2] and limit 2, and, both found, trigger the two hosts in lookup order with the planned args and no placeholder |
| Actions.BulkAction.CreateSubPlans | app/lib/actions/bulk_action.rb:47-60 | the triggers issued for the batch are exactly `SubPlanTriggers` of the stored plan, appended to the trigger log in order; the plan, concurrency level and run log are unchanged |
| Actions.HumanizedName | app/lib/actions/bulk_action.rb:25-31 | "Bulk action" when there is no sub-task; otherwise the first sub-task's action name, not lower-cased |
| Actions.HumanizedInput | app/lib/actions/bulk_action.rb:37-43 | nil iff there is no sub-task; otherwise the first element is the action name lower-cased, the last is "...", and the middle is `Array(input)` |
| Actions.NameAndInputAgree | app/lib/actions/bulk_action.rb:25-43 | the input's first element is the lower-cased name and holds no upper-case letter |
| Actions.RescueStrategy | app/lib/actions/bulk_action.rb:33-35 | the rescue strategy is always Skip, never Pause or Fail |
| Actions.BulkAction.Run | app/lib/actions/bulk_action.rb:21-23 | the event is handed on to the superclass exactly when it is not the Skip event; nothing else changes |
| RubyValues.Downcase | app/lib/actions/bulk_action.rb:40 | same length, no upper-case letter left, upper-case letters mapped to their lower-case letters, everything else unchanged |
| RubyValues.DowncaseIdempotent | app/lib/actions/bulk_action.rb:40 | lower-casing twice is lower-casing once |
| RubyValues.ToArray | app/lib/actions/bulk_action.rb:41 | `Array(x)`: nil gives [], an array itself, a hash one `[key, value]` pair per entry in entry order, anything else a one-element list |

## Left out

- The workflow engine. The model does not run the superclass's `run` (it is logged), persist `plan_self` (it is a field), or create sub-plans in `trigger` (it is logged). It also does not enforce `limit_concurrency_level!` (the value is stored).
- The database lookup `unscoped.where(:id => ...)`. It is the parameter `found`, constrained by `IsLookupResult`; its order is arbitrary.
- `current_batch` and the batch size. They come from the generic sub-plan superclass, which is not part of this model. `current_batch` is a parameter.
- The reflective class resolution (`to_s`, `constantize`). Action and target classes are opaque strings.
- Translation (`_`, `N_`) and the text of the `Foreman::Exception` messages. The two raises are the two values of `BulkError`.
- `task.sub_tasks` comes from the engine. The display functions take the sub-tasks' `humanized` records as a parameter, and `humanized[:action]` is taken to be a string.
- RubyValues.Downcase: lower-cases ASCII letters only; Ruby's `String#downcase` also maps non-ASCII letters.
- RubyValues.Fetch: a Ruby Hash holds one entry per key; an ordered list of pairs could repeat a key, and then the first entry is the one fetched.
