# Octopus timeline, deadline and progress core in Dafny

Octopus is a personal project/goal tracker: projects sit in status columns
(Active, Completed, On-Hold, Abandoned), each project has goals, and a
Gantt-style timeline shows projects and goals over time. This project models
the server-side Python that feeds those views and proves properties of it:

- **Timeline data** (`utils/timeline.py`, module `Timeline` in `timeline.dfy`):
  flattening projects and their goals into one ordered list of timeline
  items (dashboard and single project), the padded date window, the
  multi-criteria filter, and the Gantt date axis with its zoom level.
- **Deadlines** (`utils/deadline.py`, module `Deadline` in `deadline.dfy`):
  the signed days/hours left, the overdue and approaching flags, the
  human-readable "Due in ..." / "Overdue by ..." text, and the CSS class.
- **Progress** (`web/models.py`, module `Models` in `models.dfy`): the goal
  based progress percentage of a project and the dictionary a project is
  serialised to.
- `common.dfy` (module `Common`): `Option` for Python's `None`, and the
  day/hour units.

Instants are whole UTC seconds (`int`). Every clock reading of the source
(`datetime.utcnow()`) is an explicit parameter `now`. `timedelta.days` is the
floor of the day count, which is Dafny's `/` by a positive divisor
(`Common.WholeDays`).

The flattening functions, the date window and the date axis change local
lists and variables in loops in the source, so they are methods with loops
and invariants, each proved against a specification function
(`DashboardItems`, `EarliestStart`, `LatestReach`) or against the property
it promises outright. The filter, the deadline functions and the progress
computation are pure in the source and are functions here.

The filter is modelled as the source runs it: one comprehension per truthy
criterion, applied in the source's order (`Stages`, `ApplyStages`). It is
proved equal to an independent one-pass definition (`Where` with
`Matches`), from which order preservation and the exact membership
condition follow.

Two notions of "approaching" differ in the source. `calculate_time_remaining`
uses `delta.days <= 3`, which holds for a deadline due right now and for one
3 days and some hours away. The standalone `is_approaching` requires
`now < deadline <= now + 3 days`. `Deadline.ApproachingNotions` proves the
one-way implication and exhibits both differences. `get_deadline_status`
uses the first notion.

## Model

| member | source | states |
|---|---|---|
| `Timeline.DashboardLength` | utils/timeline.py:15-25 | the dashboard list has one item per project plus one per goal |
| `Timeline.GetTimelineItemsForDashboard` | utils/timeline.py:8-25 | the nested append loops build exactly the dashboard list: each project's block, in project order |
| `Timeline.DashboardLayout` | utils/timeline.py:15-25 | project k sits after the k earlier projects and all their goals, and is immediately followed by its own goals in order |
| `Timeline.BlockStartStep` | utils/timeline.py:17-23 | the next project's block starts right after this project's goals |
| `Timeline.DashboardAppend` | utils/timeline.py:17-23 | the dashboard list of two runs of projects is the concatenation of their lists, so each project's block does not depend on the projects around it |
| `Timeline.GetTimelineItemsForProject` | utils/timeline.py:28-38 | the project's item comes first, then its goals' items in order; the same list the dashboard builds for this project alone |
| `Timeline.EarliestStartIsLeast` | utils/timeline.py:54-66 | the running minimum is None exactly when no item has a start, and otherwise is the start of some item and no later than any start |
| `Timeline.LatestReachIsGreatest` | utils/timeline.py:68-74 | the running maximum over each item's end, or its start when it has no end, is None exactly when no item has either, and otherwise is attained and is an upper bound |
| `Timeline.CalculateDateRange` | utils/timeline.py:41-86 | the padding is 7 days unless given; no items gives now minus and plus 30 days whatever the padding; otherwise the earliest start (default now - 30 days) minus the padding and the latest reach (default now) plus the padding |
| `Timeline.LatestReachOnlyByReach` | utils/timeline.py:68-74 | an item's start affects the maximum only when the item has no end |
| `Timeline.Where` | utils/timeline.py:110-146 | the one-pass reference filter is an order-preserving subsequence that holds exactly the matching items, each matching item as often as in the input and no other item at all |
| `Timeline.FilterTimelineItems` | utils/timeline.py:89-146 | the chain of comprehensions equals the one-pass filter: an order-preserving subsequence holding exactly the input items that meet every truthy criterion, every matching occurrence kept |
| `Timeline.FalsyCriteriaKeepAll` | utils/timeline.py:112-118 | with no dates and no project id, a None or empty status list and a None or empty type remove nothing |
| `Timeline.ProjectFilter` | utils/timeline.py:118-122 | the project-id filter keeps exactly that project's goals and the project item with that id, also for id 0 |
| `Timeline.DateFilters` | utils/timeline.py:124-144 | both date bounds are inclusive; an item without an end passes the start bound and one without a start passes the end bound |
| `Timeline.PrepareGanttData` | utils/timeline.py:149-205 | zoom day up to 14 whole days, week up to 90, month beyond; tick k is k steps after the minimum with position k; every tick is at most the maximum and one more step would pass it; the axis has (max - min) div step + 1 ticks, none when min > max; items pass through unchanged |
| `Timeline.AxisLength` | utils/timeline.py:178-197 | the number of ticks is fixed by the last tick being at most the maximum and the next one beyond it |
| `Common.WholeDays` | utils/timeline.py:164 | `timedelta.days` is the day count d with d days at most the delta and d + 1 days beyond it |
| `Deadline.CalculateTimeRemaining` | utils/deadline.py:8-38 | None exactly without a deadline; hours in 0..23; overdue exactly when the deadline is before now; days at most 0 when overdue and at least 0 otherwise; abs(days) days plus hours hours is the distance to the deadline truncated to the hour; approaching exactly when now <= deadline < now + 4 days, hence never when overdue |
| `Deadline.Describe` | utils/deadline.py:56-84 | each text branch in terms of the distance to the deadline: "Overdue" under one day late, "by 1 day" under two, "by N days" (N >= 2 whole days) beyond; years from 730 days on with N = days div 365 >= 2, never the one-year branch; "Due now", "in 1 hour", "in N hours" (2..23) within the first day; "tomorrow" on the second; "in N days" (2..729) up to 730 days |
| `Deadline.DecimalRoundTrip` | utils/deadline.py:63 | the decimal text inserted into a message reads back as the number |
| `Deadline.OnlyOneYearBranchSaysOneYear` | utils/deadline.py:68-73 | only the one-year branch produces the text "Due in 1 year" |
| `Deadline.FormatTimeRemaining` | utils/deadline.py:41-84 | None exactly without a deadline, otherwise the text of the branch `Describe` picks |
| `Deadline.NeverDueInOneYear` | utils/deadline.py:68-73 | no deadline and clock ever yield the text "Due in 1 year" |
| `Deadline.IsOverdue` | utils/deadline.py:87-91 | false without a deadline |
| `Deadline.IsOverdueAgrees` | utils/deadline.py:87-91 | the standalone check holds exactly when `calculate_time_remaining` at the same now reports overdue |
| `Deadline.IsApproaching` | utils/deadline.py:94-102 | the threshold is 3 days unless given; false without a deadline, and never true of a passed deadline |
| `Deadline.ApproachingNotions` | utils/deadline.py:94-102 | with 3 days the standalone check implies the remaining-time flag; the converse fails for a deadline due now and one 3 days and an hour away |
| `Deadline.GetDeadlineStatus` | utils/deadline.py:105-140 | None exactly without a deadline; exactly one of the three CSS classes, overdue before approaching before normal, each in terms of the deadline and now; the flags and display are those of the remaining time and the formatted text at the same now |
| `Models.CountCompleted` | web/models.py:42 | the completed count is at most the number of goals, 0 exactly when no goal is "Completed", and the number of goals exactly when all are |
| `Models.CountCompletedReplace` | web/models.py:42 | only the exact status "Completed" counts: replacing a goal changes the count by the completedness of the old and new goal alone |
| `Models.PercentBounds` | web/models.py:43 | the percentage lies in 0..100, is 0 when nothing is completed and 100 when everything is |
| `Models.PercentMonotone` | web/models.py:43 | for a fixed number of goals the percentage does not decrease as the completed count rises |
| `Models.CalculateProgress` | web/models.py:38-43 | 0 without goals, 0 when none is completed, 100 when all are, always in 0..100 |
| `Models.ProgressMonotone` | web/models.py:38-43 | of two projects with equally many goals, the one with more completed goals has at least the progress |
| `Models.ToDict` | web/models.py:45-59 | 'progress' is the computed progress (in 0..100); each optional date and the category are absent exactly when unset; the plain fields and the category's id, name and color are copied |

## Left out

- Models.CalculateProgress: computes `(completed * 100) div n` in integers; the source's floating-point `int((completed / n) * 100)` can come out one lower (29 of 100 gives 28), so only the bounds, the 0 and 100 cases and monotonicity are claimed for the source.
- `get_timeline_item()` of projects and goals is not part of this model: the list builders take it as the parameters `projectItem` and `goalItem`.
- Timeline items keep only the keys the core reads (id, type, status, project_id, start_date, end_date); name, category color and duration pass through untouched in the source and are dropped here.
- Parsing ISO date strings (`fromisoformat` with the 'Z' replacement) and mixing aware and naive datetimes: items hold integer instants or None.
- Label and date text (`strftime`, `isoformat`): a tick carries its instant and which pattern ("%b %d" or "%b %Y") renders it; a deadline status carries the instant its two date strings render; serialised dates carry the instant or None.
- Date overflow: instants are unbounded integers, so the `OverflowError` that `datetime` raises outside years 1..9999 (for instance `now ± timedelta(days=30)` in `calculate_date_range` or the axis step past `datetime.max` in `prepare_gantt_data`) never occurs in the model.
- Precision below one second (timedelta microseconds): instants are whole seconds.
- Clock reads: `now` is a parameter; `get_deadline_status` reads the clock twice in the source (once for the remaining time, once for the text), the model uses one reading for both.
- `Goal.to_dict` and the ORM column definitions, relationships, cascades and defaults of `web/models.py`: records are plain values with goals as a sequence.
- `web/routes.py`: a route returning fixed mock data to a template, with no logic.
- The client-side timeline renderer and the drag-and-drop status board are not part of this model.
