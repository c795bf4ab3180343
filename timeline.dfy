/** Server-side preparation of timeline (Gantt) data: flattening projects and
    their goals into timeline items, the padded date window, the
    multi-criteria filter and the date axis with its zoom level. Instants are
    whole UTC seconds; the clock reading is the parameter `now`. */
module Timeline {
  import opened Common
  import opened Models

  /** A timeline item, reduced to the keys this module reads: the item's id,
      its 'type' ("project" or "goal"), its status, the owning project's id
      (goals only), and its optional start and end instants. */
  datatype TimelineItem = TimelineItem(
    id: int,
    kind: string,
    status: string,
    projectId: Option<int>,
    start: Option<int>,
    end: Option<int>)

  const ProjectKind: string := "project"

  // ---------------------------------------------------------------------
  // Flattening projects and goals
  // ---------------------------------------------------------------------

  /** The items of `goals`, in order. */
  function GoalItems(goals: seq<Goal>, goalItem: Goal -> TimelineItem): (r: seq<TimelineItem>)
    ensures |r| == |goals|
  {
    if goals == [] then [] else GoalItems(goals[..|goals| - 1], goalItem) + [goalItem(goals[|goals| - 1])]
  }

  /** The goal items are those of the goals, position by position. */
  lemma {:induction false} GoalItemsAt(goals: seq<Goal>, goalItem: Goal -> TimelineItem, g: nat)
    requires g < |goals|
    ensures GoalItems(goals, goalItem)[g] == goalItem(goals[g])
  {
    if g < |goals| - 1 {
      GoalItemsAt(goals[..|goals| - 1], goalItem, g);
    }
  }

  /** A project's item followed by the items of its goals. */
  function ProjectBlock(p: Project, projectItem: Project -> TimelineItem, goalItem: Goal -> TimelineItem): seq<TimelineItem>
  {
    [projectItem(p)] + GoalItems(p.goals, goalItem)
  }

  /** Total number of goals over all projects. */
  function TotalGoals(projects: seq<Project>): nat
  {
    if projects == [] then 0
    else TotalGoals(projects[..|projects| - 1]) + |projects[|projects| - 1].goals|
  }

  /** The dashboard list: every project's block, in project order. */
  function DashboardItems(projects: seq<Project>, projectItem: Project -> TimelineItem, goalItem: Goal -> TimelineItem): seq<TimelineItem>
  {
    if projects == [] then []
    else
      var last := projects[|projects| - 1];
      DashboardItems(projects[..|projects| - 1], projectItem, goalItem) + ProjectBlock(last, projectItem, goalItem)
  }

  /** The dashboard list has one item per project plus one per goal. */
  lemma {:induction false} DashboardLength(projects: seq<Project>, projectItem: Project -> TimelineItem, goalItem: Goal -> TimelineItem)
    ensures |DashboardItems(projects, projectItem, goalItem)| == |projects| + TotalGoals(projects)
  {
    if projects != [] {
      DashboardLength(projects[..|projects| - 1], projectItem, goalItem);
    }
  }

  lemma GoalItemsStep(goals: seq<Goal>, goalItem: Goal -> TimelineItem, g: nat)
    requires g < |goals|
    ensures GoalItems(goals[..g + 1], goalItem) == GoalItems(goals[..g], goalItem) + [goalItem(goals[g])]
  {
    assert goals[..g + 1][..g] == goals[..g];
  }

  lemma DashboardStep(projects: seq<Project>, projectItem: Project -> TimelineItem, goalItem: Goal -> TimelineItem, i: nat)
    requires i < |projects|
    ensures DashboardItems(projects[..i + 1], projectItem, goalItem)
      == DashboardItems(projects[..i], projectItem, goalItem) + ProjectBlock(projects[i], projectItem, goalItem)
  {
    assert projects[..i + 1][..i] == projects[..i];
  }

  /** `get_timeline_items_for_dashboard`. `projectItem` and `goalItem` stand
      for the records' `get_timeline_item()`. */
  method GetTimelineItemsForDashboard(projects: seq<Project>, projectItem: Project -> TimelineItem, goalItem: Goal -> TimelineItem)
    returns (items: seq<TimelineItem>)
    ensures items == DashboardItems(projects, projectItem, goalItem)
  {
    items := [];
    for i := 0 to |projects|
      invariant items == DashboardItems(projects[..i], projectItem, goalItem)
    {
      var project := projects[i];
      ghost var before := items;
      items := items + [projectItem(project)];
      for g := 0 to |project.goals|
        invariant items == before + [projectItem(project)] + GoalItems(project.goals[..g], goalItem)
      {
        items := items + [goalItem(project.goals[g])];
        GoalItemsStep(project.goals, goalItem, g);
      }
      assert project.goals[..|project.goals|] == project.goals;
      DashboardStep(projects, projectItem, goalItem, i);
    }
    assert projects[..|projects|] == projects;
  }

  /** The dashboard list of two runs of projects is the concatenation of
      their lists. */
  lemma {:induction false} DashboardAppend(a: seq<Project>, b: seq<Project>, projectItem: Project -> TimelineItem, goalItem: Goal -> TimelineItem)
    ensures DashboardItems(a + b, projectItem, goalItem)
      == DashboardItems(a, projectItem, goalItem) + DashboardItems(b, projectItem, goalItem)
    decreases |b|
  {
    if b == [] {
      assert a + b == a;
    } else {
      var init := b[..|b| - 1];
      var block := ProjectBlock(b[|b| - 1], projectItem, goalItem);
      DashboardAppend(a, init, projectItem, goalItem);
      assert (a + b)[..|a + b| - 1] == a + init;
      assert (a + b)[|a + b| - 1] == b[|b| - 1];
      var whole := DashboardItems(a + b, projectItem, goalItem);
      var left := DashboardItems(a, projectItem, goalItem);
      var mid := DashboardItems(init, projectItem, goalItem);
      assert whole == DashboardItems(a + init, projectItem, goalItem) + block;
      assert DashboardItems(b, projectItem, goalItem) == mid + block;
      assert (left + mid) + block == left + (mid + block);
    }
  }

  /** Where project `k` starts in the dashboard list: after the `k` earlier
      projects and all their goals. */
  function BlockStart(projects: seq<Project>, k: nat): nat
    requires k <= |projects|
  {
    k + TotalGoals(projects[..k])
  }

  /** The dashboard list around project `k`: the list of the projects before
      it, its block, and the list of the projects after it. */
  lemma DashboardSplit(projects: seq<Project>, projectItem: Project -> TimelineItem, goalItem: Goal -> TimelineItem, k: nat)
    requires k < |projects|
    ensures DashboardItems(projects, projectItem, goalItem)
      == DashboardItems(projects[..k], projectItem, goalItem)
         + ProjectBlock(projects[k], projectItem, goalItem)
         + DashboardItems(projects[k + 1..], projectItem, goalItem)
  {
    assert projects == projects[..k + 1] + projects[k + 1..];
    DashboardAppend(projects[..k + 1], projects[k + 1..], projectItem, goalItem);
    DashboardStep(projects, projectItem, goalItem, k);
  }

  /** In the dashboard list each project sits at its block start and is
      immediately followed by its own goals, in order. */
  lemma DashboardLayout(projects: seq<Project>, projectItem: Project -> TimelineItem, goalItem: Goal -> TimelineItem, k: nat)
    requires k < |projects|
    ensures var items := DashboardItems(projects, projectItem, goalItem);
      var at := BlockStart(projects, k);
      at + |projects[k].goals| < |items| &&
      items[at] == projectItem(projects[k]) &&
      (forall g :: 0 <= g < |projects[k].goals| ==> items[at + 1 + g] == goalItem(projects[k].goals[g]))
  {
    var p := projects[k];
    var before := DashboardItems(projects[..k], projectItem, goalItem);
    var block := ProjectBlock(p, projectItem, goalItem);
    var after := DashboardItems(projects[k + 1..], projectItem, goalItem);
    DashboardSplit(projects, projectItem, goalItem, k);
    DashboardLength(projects[..k], projectItem, goalItem);
    InMiddle(before, block, after, 0);
    forall g | 0 <= g < |p.goals|
      ensures DashboardItems(projects, projectItem, goalItem)[BlockStart(projects, k) + 1 + g] == goalItem(p.goals[g])
    {
      InMiddle(before, block, after, 1 + g);
      GoalItemsAt(p.goals, goalItem, g);
    }
  }

  /** Indexing into the middle part of a concatenation. */
  lemma InMiddle(x: seq<TimelineItem>, y: seq<TimelineItem>, z: seq<TimelineItem>, j: nat)
    requires j < |y|
    ensures |x| + j < |x + y + z| && (x + y + z)[|x| + j] == y[j]
  {
  }

  /** The next project's block starts right after this project's goals. */
  lemma BlockStartStep(projects: seq<Project>, k: nat)
    requires k < |projects|
    ensures BlockStart(projects, k + 1) == BlockStart(projects, k) + 1 + |projects[k].goals|
  {
    assert projects[..k + 1][..k] == projects[..k];
  }

  /** `get_timeline_items_for_project`: the project first, then its goals in
      order; the same list the dashboard builds for this project alone. */
  method GetTimelineItemsForProject(project: Project, projectItem: Project -> TimelineItem, goalItem: Goal -> TimelineItem)
    returns (items: seq<TimelineItem>)
    ensures |items| == 1 + |project.goals|
    ensures items[0] == projectItem(project)
    ensures forall g :: 0 <= g < |project.goals| ==> items[1 + g] == goalItem(project.goals[g])
    ensures items == DashboardItems([project], projectItem, goalItem)
  {
    items := [projectItem(project)];
    for g := 0 to |project.goals|
      invariant items == [projectItem(project)] + GoalItems(project.goals[..g], goalItem)
    {
      items := items + [goalItem(project.goals[g])];
      GoalItemsStep(project.goals, goalItem, g);
    }
    assert project.goals[..|project.goals|] == project.goals;
    forall g | 0 <= g < |project.goals| ensures items[1 + g] == goalItem(project.goals[g]) {
      GoalItemsAt(project.goals, goalItem, g);
    }
    assert [project][..0] == [];
  }

  // ---------------------------------------------------------------------
  // Date window
  // ---------------------------------------------------------------------

  /** The running minimum over the items' starts, as the loop of
      `calculate_date_range` keeps it. */
  function EarliestStart(items: seq<TimelineItem>): Option<int>
  {
    if items == [] then None
    else
      var m := EarliestStart(items[..|items| - 1]);
      var s := items[|items| - 1].start;
      if s.Some? && (m.None? || s.value < m.value) then s else m
  }

  /** The running minimum is `None` when no item has a start, and otherwise
      the start of some item and no later than any start. */
  lemma {:induction false} EarliestStartIsLeast(items: seq<TimelineItem>)
    ensures EarliestStart(items).None? <==> forall i :: 0 <= i < |items| ==> items[i].start.None?
    ensures EarliestStart(items).Some? ==> exists i :: 0 <= i < |items| && items[i].start == EarliestStart(items)
    ensures EarliestStart(items).Some? ==>
      forall i :: 0 <= i < |items| && items[i].start.Some? ==> EarliestStart(items).value <= items[i].start.value
  {
    if items != [] {
      var init := items[..|items| - 1];
      EarliestStartIsLeast(init);
      assert forall i :: 0 <= i < |init| ==> init[i] == items[i];
    }
  }

  /** How far an item reaches to the right: its end, or its start when it
      has no end. */
  function Reach(item: TimelineItem): Option<int>
  {
    if item.end.Some? then item.end else item.start
  }

  /** The running maximum over the items' reaches, as the loop of
      `calculate_date_range` keeps it. */
  function LatestReach(items: seq<TimelineItem>): Option<int>
  {
    if items == [] then None
    else
      var m := LatestReach(items[..|items| - 1]);
      var r := Reach(items[|items| - 1]);
      if r.Some? && (m.None? || r.value > m.value) then r else m
  }

  /** The running maximum is `None` when no item has a start or an end, and
      otherwise the reach of some item and no earlier than any reach. */
  lemma {:induction false} LatestReachIsGreatest(items: seq<TimelineItem>)
    ensures LatestReach(items).None? <==> forall i :: 0 <= i < |items| ==> Reach(items[i]).None?
    ensures LatestReach(items).Some? ==> exists i :: 0 <= i < |items| && Reach(items[i]) == LatestReach(items)
    ensures LatestReach(items).Some? ==>
      forall i :: 0 <= i < |items| && Reach(items[i]).Some? ==> Reach(items[i]).value <= LatestReach(items).value
  {
    if items != [] {
      var init := items[..|items| - 1];
      LatestReachIsGreatest(init);
      assert forall i :: 0 <= i < |init| ==> init[i] == items[i];
    }
  }

  /** `calculate_date_range`: for no items, 30 days either side of now,
      whatever the padding; otherwise the earliest start (or 30 days before
      now if no item has one) minus the padding, and the latest reach (or
      now if no item has a start or an end) plus the padding. */
  method CalculateDateRange(items: seq<TimelineItem>, now: int, paddingDays: int := 7)
    returns (minDate: int, maxDate: int)
    ensures items == [] ==> minDate == now - Days(30) && maxDate == now + Days(30)
    ensures items != [] ==>
      minDate == (if EarliestStart(items).Some? then EarliestStart(items).value else now - Days(30)) - Days(paddingDays)
    ensures items != [] ==>
      maxDate == (if LatestReach(items).Some? then LatestReach(items).value else now) + Days(paddingDays)
  {
    if items == [] {
      return now - Days(30), now + Days(30);
    }
    var lo: Option<int> := None;
    var hi: Option<int> := None;
    for i := 0 to |items|
      invariant lo == EarliestStart(items[..i])
      invariant hi == LatestReach(items[..i])
    {
      var start := items[i].start;
      var end := items[i].end;
      if start.Some? {
        if lo.None? || start.value < lo.value {
          lo := start;
        }
      }
      if end.Some? {
        if hi.None? || end.value > hi.value {
          hi := end;
        }
      } else if start.Some? {
        if hi.None? || start.value > hi.value {
          hi := start;
        }
      }
      assert items[..i + 1][..i] == items[..i];
    }
    assert items[..|items|] == items;
    minDate := if lo.Some? then lo.value else now - Days(30);
    maxDate := if hi.Some? then hi.value else now;
    minDate := minDate - Days(paddingDays);
    maxDate := maxDate + Days(paddingDays);
  }

  /** An item's start affects the latest reach only when the item has no
      end: two lists that agree on every item's reach have the same latest
      reach. */
  lemma {:induction false} LatestReachOnlyByReach(a: seq<TimelineItem>, b: seq<TimelineItem>)
    requires |a| == |b|
    requires forall i :: 0 <= i < |a| ==> Reach(a[i]) == Reach(b[i])
    ensures LatestReach(a) == LatestReach(b)
  {
    if a != [] {
      LatestReachOnlyByReach(a[..|a| - 1], b[..|b| - 1]);
    }
  }

  // ---------------------------------------------------------------------
  // Filtering
  // ---------------------------------------------------------------------

  /** The keyword arguments of `filter_timeline_items`. An empty status list
      and an empty type string are falsy in the source, like `None`. */
  datatype Criteria = Criteria(
    dateStart: Option<int>,
    dateEnd: Option<int>,
    status: Option<seq<string>>,
    projectId: Option<int>,
    itemType: Option<string>)

  /** One list comprehension of the filter. */
  datatype Stage =
    | ByType(kind: string)
    | ByStatus(statuses: seq<string>)
    | ByProject(projectId: int)
    | EndsAfter(dateStart: int)
    | StartsBefore(dateEnd: int)

  predicate Passes(item: TimelineItem, stage: Stage)
  {
    match stage
    case ByType(kind) => item.kind == kind
    case ByStatus(statuses) => item.status in statuses
    case ByProject(id) => item.projectId == Some(id) || (item.kind == ProjectKind && item.id == id)
    case EndsAfter(dateStart) => item.end.None? || item.end.value >= dateStart
    case StartsBefore(dateEnd) => item.start.None? || item.start.value <= dateEnd
  }

  /** `[i for i in filtered if <stage>]`. */
  function KeepPassing(items: seq<TimelineItem>, stage: Stage): seq<TimelineItem>
  {
    if items == [] then []
    else (if Passes(items[0], stage) then [items[0]] else []) + KeepPassing(items[1..], stage)
  }

  /** The comprehensions the source runs, in its order, for the criteria
      that are truthy; `project_id` is tested with `is not None`, so 0
      still filters. */
  function Stages(c: Criteria): seq<Stage>
  {
    (if c.itemType.Some? && c.itemType.value != "" then [ByType(c.itemType.value)] else [])
    + (if c.status.Some? && c.status.value != [] then [ByStatus(c.status.value)] else [])
    + (if c.projectId.Some? then [ByProject(c.projectId.value)] else [])
    + (if c.dateStart.Some? then [EndsAfter(c.dateStart.value)] else [])
    + (if c.dateEnd.Some? then [StartsBefore(c.dateEnd.value)] else [])
  }

  /** `filtered = items`, then each stage replaces `filtered` by the items
      of it that pass. */
  function ApplyStages(items: seq<TimelineItem>, stages: seq<Stage>): seq<TimelineItem>
    decreases |stages|
  {
    if stages == [] then items else ApplyStages(KeepPassing(items, stages[0]), stages[1..])
  }

  /** Reference meaning of the criteria, as one condition per item. */
  predicate Matches(item: TimelineItem, c: Criteria)
  {
    (c.itemType.None? || c.itemType.value == "" || item.kind == c.itemType.value)
    && (c.status.None? || c.status.value == [] || item.status in c.status.value)
    && (c.projectId.None? || item.projectId == c.projectId
        || (item.kind == ProjectKind && item.id == c.projectId.value))
    && (c.dateStart.None? || item.end.None? || item.end.value >= c.dateStart.value)
    && (c.dateEnd.None? || item.start.None? || item.start.value <= c.dateEnd.value)
  }

  /** `r` is `s` with some elements removed, order kept: the first element
      of `s` is either used for the first element of `r` or skipped. */
  predicate IsSubsequence(r: seq<TimelineItem>, s: seq<TimelineItem>)
    decreases |s|
  {
    if r == [] then true
    else if s == [] then false
    else (r[0] == s[0] && IsSubsequence(r[1..], s[1..])) || IsSubsequence(r, s[1..])
  }

  /** One pass over `items` keeping, in order, those that match. */
  function Where(items: seq<TimelineItem>, c: Criteria): (r: seq<TimelineItem>)
    ensures |r| <= |items|
    ensures IsSubsequence(r, items)
    ensures forall x :: x in r <==> x in items && Matches(x, c)
    ensures forall x :: multiset(r)[x] == if Matches(x, c) then multiset(items)[x] else 0
  {
    if items == [] then []
    else if Matches(items[0], c) then
      assert items == [items[0]] + items[1..];
      var rest := Where(items[1..], c);
      assert ([items[0]] + rest)[1..] == rest;
      [items[0]] + rest
    else
      assert items == [items[0]] + items[1..];
      Where(items[1..], c)
  }

  /** Every item passes all of `Stages(c)` exactly when it matches `c`. */
  lemma StagesMeanMatches(x: TimelineItem, c: Criteria)
    ensures AllPass(x, Stages(c)) <==> Matches(x, c)
  {
    var t := if c.itemType.Some? && c.itemType.value != "" then [ByType(c.itemType.value)] else [];
    var s := if c.status.Some? && c.status.value != [] then [ByStatus(c.status.value)] else [];
    var p := if c.projectId.Some? then [ByProject(c.projectId.value)] else [];
    var a := if c.dateStart.Some? then [EndsAfter(c.dateStart.value)] else [];
    var b := if c.dateEnd.Some? then [StartsBefore(c.dateEnd.value)] else [];
    assert Stages(c) == t + s + p + a + b;
    assert AllPass(x, t) <==> (c.itemType.None? || c.itemType.value == "" || x.kind == c.itemType.value) by {
      if t != [] { AllPassOne(x, t[0]); }
    }
    assert AllPass(x, s) <==> (c.status.None? || c.status.value == [] || x.status in c.status.value) by {
      if s != [] { AllPassOne(x, s[0]); }
    }
    assert AllPass(x, p) <==> (c.projectId.None? || x.projectId == c.projectId
        || (x.kind == ProjectKind && x.id == c.projectId.value)) by {
      if p != [] { AllPassOne(x, p[0]); }
    }
    assert AllPass(x, a) <==> (c.dateStart.None? || x.end.None? || x.end.value >= c.dateStart.value) by {
      if a != [] { AllPassOne(x, a[0]); }
    }
    assert AllPass(x, b) <==> (c.dateEnd.None? || x.start.None? || x.start.value <= c.dateEnd.value) by {
      if b != [] { AllPassOne(x, b[0]); }
    }
    AllPassConcat(x, t, s);
    AllPassConcat(x, t + s, p);
    AllPassConcat(x, t + s + p, a);
    AllPassConcat(x, t + s + p + a, b);
  }

  predicate AllPass(x: TimelineItem, stages: seq<Stage>)
  {
    forall j :: 0 <= j < |stages| ==> Passes(x, stages[j])
  }

  lemma AllPassOne(x: TimelineItem, stage: Stage)
    ensures AllPass(x, [stage]) <==> Passes(x, stage)
  {
    assert [stage][0] == stage;
  }

  lemma AllPassConcat(x: TimelineItem, u: seq<Stage>, v: seq<Stage>)
    ensures AllPass(x, u + v) <==> AllPass(x, u) && AllPass(x, v)
  {
    if AllPass(x, u) && AllPass(x, v) {
      forall j | 0 <= j < |u + v| ensures Passes(x, (u + v)[j]) {
        if j >= |u| { assert (u + v)[j] == v[j - |u|]; }
      }
    }
    if AllPass(x, u + v) {
      forall j | 0 <= j < |u| ensures Passes(x, u[j]) {
        assert (u + v)[j] == u[j];
      }
      forall j | 0 <= j < |v| ensures Passes(x, v[j]) {
        assert (u + v)[|u| + j] == v[j];
      }
    }
  }

  /** One pass keeping the items that pass every stage. Only a stepping
      stone between the staged filter and `Where`: it has the stages'
      shape and `Where`'s single pass. */
  function KeepAll(items: seq<TimelineItem>, stages: seq<Stage>): seq<TimelineItem>
  {
    if items == [] then []
    else (if AllPass(items[0], stages) then [items[0]] else []) + KeepAll(items[1..], stages)
  }

  /** Filtering by one stage and then by the rest is filtering once by all. */
  lemma {:induction false} KeepPassingThenAll(items: seq<TimelineItem>, stage: Stage, rest: seq<Stage>)
    ensures KeepAll(KeepPassing(items, stage), rest) == KeepAll(items, [stage] + rest)
  {
    if items != [] {
      var x := items[0];
      KeepPassingThenAll(items[1..], stage, rest);
      AllPassConcat(x, [stage], rest);
      AllPassOne(x, stage);
      var tail := KeepPassing(items[1..], stage);
      if Passes(x, stage) {
        assert KeepPassing(items, stage) == [x] + tail;
        assert ([x] + tail)[1..] == tail;
      } else {
        assert KeepPassing(items, stage) == tail;
      }
    }
  }

  lemma {:induction false} KeepAllNone(items: seq<TimelineItem>)
    ensures KeepAll(items, []) == items
  {
    if items != [] {
      KeepAllNone(items[1..]);
    }
  }

  /** Running the stages one after the other is one pass keeping the items
      that pass all of them. */
  lemma {:induction false} ApplyStagesIsKeepAll(items: seq<TimelineItem>, stages: seq<Stage>)
    ensures ApplyStages(items, stages) == KeepAll(items, stages)
    decreases |stages|
  {
    if stages == [] {
      KeepAllNone(items);
    } else {
      ApplyStagesIsKeepAll(KeepPassing(items, stages[0]), stages[1..]);
      KeepPassingThenAll(items, stages[0], stages[1..]);
      assert [stages[0]] + stages[1..] == stages;
    }
  }

  lemma {:induction false} KeepAllIsWhere(items: seq<TimelineItem>, c: Criteria)
    ensures KeepAll(items, Stages(c)) == Where(items, c)
  {
    if items != [] {
      StagesMeanMatches(items[0], c);
      KeepAllIsWhere(items[1..], c);
    }
  }

  /** `filter_timeline_items`: the result is exactly the input items that
      match every truthy criterion, in their input order. */
  function FilterTimelineItems(items: seq<TimelineItem>, c: Criteria): (r: seq<TimelineItem>)
    ensures r == Where(items, c)
    ensures IsSubsequence(r, items)
    ensures forall x :: x in r <==> x in items && Matches(x, c)
    ensures forall x :: multiset(r)[x] == if Matches(x, c) then multiset(items)[x] else 0
  {
    ApplyStagesIsKeepAll(items, Stages(c));
    KeepAllIsWhere(items, c);
    ApplyStages(items, Stages(c))
  }

  /** Falsy criteria (None, an empty status list, an empty type string)
      remove nothing. */
  lemma FalsyCriteriaKeepAll(items: seq<TimelineItem>, status: Option<seq<string>>, itemType: Option<string>)
    requires status.None? || status.value == []
    requires itemType.None? || itemType.value == ""
    ensures FilterTimelineItems(items, Criteria(None, None, status, None, itemType)) == items
  {
  }

  /** The project filter keeps an item exactly when it is a goal of that
      project or the project itself, also for the id 0. */
  lemma ProjectFilter(items: seq<TimelineItem>, id: int, x: TimelineItem)
    ensures x in FilterTimelineItems(items, Criteria(None, None, None, Some(id), None)) <==>
      x in items && (x.projectId == Some(id) || (x.kind == ProjectKind && x.id == id))
  {
  }

  /** Both date filters are inclusive, an item without an end survives the
      start bound, and an item without a start survives the end bound. */
  lemma DateFilters(items: seq<TimelineItem>, dateStart: int, dateEnd: int, x: TimelineItem)
    ensures x in FilterTimelineItems(items, Criteria(Some(dateStart), Some(dateEnd), None, None, None)) <==>
      x in items && (x.end.None? || x.end.value >= dateStart) && (x.start.None? || x.start.value <= dateEnd)
  {
  }

  // ---------------------------------------------------------------------
  // Gantt axis
  // ---------------------------------------------------------------------

  datatype ZoomLevel = Day | Week | Month

  /** The strftime pattern of a tick label: "%b %d" or "%b %Y". */
  datatype LabelFormat = MonthDay | MonthYear

  /** One entry of the date axis: the tick's instant, the pattern its label
      is rendered with, and its position. */
  datatype Tick = Tick(date: int, format: LabelFormat, position: nat)

  datatype GanttData = GanttData(
    items: seq<TimelineItem>,
    dateAxis: seq<Tick>,
    minDate: int,
    maxDate: int,
    zoomLevel: ZoomLevel)

  /** Days between two ticks at a zoom level. */
  function StepDays(z: ZoomLevel): (d: nat)
    ensures d >= 1
  {
    match z
    case Day => 1
    case Week => 7
    case Month => 30
  }

  function LabelFor(z: ZoomLevel): LabelFormat
  {
    if z == Month then MonthYear else MonthDay
  }

  /** `prepare_gantt_data`: the zoom level follows the whole days between
      the two dates (day up to 14, week up to 90, month beyond); tick `k`
      sits `k` steps after the minimum and has position `k`; every tick is
      at most the maximum and one more step would pass it, so the axis is
      empty when the minimum is after the maximum. Items pass through
      unchanged. */
  method PrepareGanttData(items: seq<TimelineItem>, minDate: int, maxDate: int) returns (data: GanttData)
    ensures data.items == items && data.minDate == minDate && data.maxDate == maxDate
    ensures data.zoomLevel == Day <==> WholeDays(maxDate - minDate) <= 14
    ensures data.zoomLevel == Week <==> 14 < WholeDays(maxDate - minDate) <= 90
    ensures data.zoomLevel == Month <==> 90 < WholeDays(maxDate - minDate)
    ensures var step := Days(StepDays(data.zoomLevel));
      forall k :: 0 <= k < |data.dateAxis| ==>
        data.dateAxis[k] == Tick(minDate + k * step, LabelFor(data.zoomLevel), k)
    ensures forall k :: 0 <= k < |data.dateAxis| ==> data.dateAxis[k].date <= maxDate
    ensures minDate + |data.dateAxis| * Days(StepDays(data.zoomLevel)) > maxDate
    ensures minDate > maxDate ==> data.dateAxis == []
    ensures |data.dateAxis| ==
      if minDate > maxDate then 0 else (maxDate - minDate) / Days(StepDays(data.zoomLevel)) + 1
  {
    var totalDays := WholeDays(maxDate - minDate);
    var zoom: ZoomLevel;
    var stepDays: nat;
    if totalDays <= 14 {
      zoom, stepDays := Day, 1;
    } else if totalDays <= 90 {
      zoom, stepDays := Week, 7;
    } else {
      zoom, stepDays := Month, 30;
    }
    var step := Days(stepDays);
    var axis: seq<Tick> := [];
    var current := minDate;
    var position: nat := 0;
    while current <= maxDate
      invariant |axis| == position
      invariant current == minDate + position * step
      invariant forall k :: 0 <= k < position ==> axis[k] == Tick(minDate + k * step, LabelFor(zoom), k)
      invariant forall k :: 0 <= k < position ==> axis[k].date <= maxDate
      invariant position > 0 ==> minDate <= maxDate
      decreases maxDate - current
    {
      axis := axis + [Tick(current, LabelFor(zoom), position)];
      current := current + step;
      position := position + 1;
    }
    if position > 0 {
      assert axis[position - 1].date == minDate + (position - 1) * step;
    }
    AxisLength(minDate, maxDate, step, position);
    data := GanttData(items, axis, minDate, maxDate, zoom);
  }

  /** The number of ticks the axis of `PrepareGanttData` has: none when the
      minimum is after the maximum, otherwise one more than the whole steps
      that fit between them. */
  lemma AxisLength(minDate: int, maxDate: int, step: int, n: nat)
    requires step > 0
    requires n == 0 || minDate + (n - 1) * step <= maxDate
    requires minDate + n * step > maxDate
    ensures n == if minDate > maxDate then 0 else (maxDate - minDate) / step + 1
  {
    if minDate <= maxDate {
      var q := (maxDate - minDate) / step;
      assert q * step <= maxDate - minDate < (q + 1) * step;
      MulCancel(n - 1, q + 1, step);
      MulCancel(q, n, step);
    }
  }
}
