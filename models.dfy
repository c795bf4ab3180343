/** The stored records of the tracker (categories, projects and their goals)
    as plain values, with the progress percentage a project derives from its
    goals and the dictionary a project is serialised to. Columns become
    fields; the `goals` relationship becomes a sequence. */
module Models {
  import opened Common

  /** Status a goal must have, exactly, to count as done. */
  const Completed: string := "Completed"

  datatype Category = Category(id: int, name: string, color: string)

  datatype Goal = Goal(
    id: int,
    projectId: int,
    title: string,
    status: string,
    dateCreated: Option<int>,
    dateCompleted: Option<int>,
    deadline: Option<int>)

  datatype Project = Project(
    id: int,
    title: string,
    description: Option<string>,
    status: string,
    category: Option<Category>,
    orderIndex: int,
    dateCreated: Option<int>,
    dateCompleted: Option<int>,
    dateOnHold: Option<int>,
    dateAbandoned: Option<int>,
    deadline: Option<int>,
    goals: seq<Goal>)

  /** The serialised category. */
  datatype CategoryDict = CategoryDict(id: int, name: string, color: string)

  /** The serialised project. A date field holds the instant that the
      source renders as text (`strftime`/`isoformat`), or `None`. */
  datatype ProjectDict = ProjectDict(
    id: int,
    title: string,
    description: Option<string>,
    status: string,
    category: Option<CategoryDict>,
    progress: int,
    orderIndex: int,
    dateCreated: Option<int>,
    dateCompleted: Option<int>,
    dateOnHold: Option<int>,
    dateAbandoned: Option<int>,
    deadline: Option<int>)

  /** Number of goals whose status is exactly "Completed" (the generator
      `sum(1 for goal in goals if goal.status == 'Completed')`). */
  function CountCompleted(goals: seq<Goal>): (c: nat)
    ensures c <= |goals|
    ensures c == 0 <==> forall i :: 0 <= i < |goals| ==> goals[i].status != Completed
    ensures c == |goals| <==> forall i :: 0 <= i < |goals| ==> goals[i].status == Completed
  {
    if goals == [] then 0
    else CountCompleted(goals[1..]) + (if goals[0].status == Completed then 1 else 0)
  }

  /** Only the status "Completed" counts: replacing one goal changes the
      count by whether the old and the new goal are completed, whatever
      other status either has. */
  lemma {:induction false} CountCompletedReplace(goals: seq<Goal>, i: nat, g: Goal)
    requires i < |goals|
    ensures CountCompleted(goals[i := g]) + (if goals[i].status == Completed then 1 else 0)
      == CountCompleted(goals) + (if g.status == Completed then 1 else 0)
  {
    if i > 0 {
      CountCompletedReplace(goals[1..], i - 1, g);
      assert goals[i := g][1..] == goals[1..][i - 1 := g];
    } else {
      assert goals[i := g][1..] == goals[1..];
    }
  }

  /** The percentage `completed` out of `total`, truncated. */
  function Percent(completed: nat, total: nat): (p: nat)
    requires completed <= total
  {
    if total == 0 then 0 else completed * 100 / total
  }

  /** `Project.calculate_progress`: 0 for a project without goals, otherwise
      the truncated percentage of completed goals. */
  function CalculateProgress(p: Project): (r: nat)
    ensures r <= 100
    ensures p.goals == [] ==> r == 0
    ensures CountCompleted(p.goals) == 0 ==> r == 0
    ensures p.goals != [] && CountCompleted(p.goals) == |p.goals| ==> r == 100
  {
    PercentBounds(CountCompleted(p.goals), |p.goals|);
    Percent(CountCompleted(p.goals), |p.goals|)
  }

  /** The percentage lies in 0..100, is 0 for nothing done and 100 for
      everything done. */
  lemma PercentBounds(completed: nat, total: nat)
    requires completed <= total
    ensures Percent(completed, total) <= 100
    ensures completed == 0 ==> Percent(completed, total) == 0
    ensures 0 < total && completed == total ==> Percent(completed, total) == 100
  {
    if total > 0 {
      DivLeq(completed * 100, total * 100, total);
      assert total * 100 / total == 100;
    }
  }

  lemma DivLeq(a: nat, b: nat, d: nat)
    requires a <= b && d > 0
    ensures a / d <= b / d
  {
    var qa, qb := a / d, b / d;
    assert qa * d <= a;
    assert b < (qb + 1) * d;
    MulCancel(qa, qb + 1, d);
  }

  /** For a fixed number of goals, completing more goals never lowers the
      percentage. */
  lemma PercentMonotone(c1: nat, c2: nat, total: nat)
    requires c1 <= c2 <= total
    ensures Percent(c1, total) <= Percent(c2, total)
  {
    if total > 0 {
      DivLeq(c1 * 100, c2 * 100, total);
    }
  }

  /** Progress of two projects with equally many goals follows their
      completed counts. */
  lemma ProgressMonotone(p: Project, q: Project)
    requires |p.goals| == |q.goals|
    requires CountCompleted(p.goals) <= CountCompleted(q.goals)
    ensures CalculateProgress(p) <= CalculateProgress(q)
  {
    PercentMonotone(CountCompleted(p.goals), CountCompleted(q.goals), |q.goals|);
  }

  /** `Category.to_dict`. */
  function CategoryToDict(c: Category): CategoryDict
  {
    CategoryDict(c.id, c.name, c.color)
  }

  /** `Project.to_dict`: 'progress' is the computed progress, not the stored
      column, and each optional date is absent exactly when unset. */
  function ToDict(p: Project): (d: ProjectDict)
    ensures d.progress == CalculateProgress(p) && 0 <= d.progress <= 100
    ensures d.id == p.id && d.title == p.title && d.status == p.status
    ensures d.description == p.description && d.orderIndex == p.orderIndex
    ensures d.category.None? <==> p.category.None?
    ensures p.category.Some? ==>
      && d.category.value.id == p.category.value.id
      && d.category.value.name == p.category.value.name
      && d.category.value.color == p.category.value.color
    ensures d.dateCreated.None? <==> p.dateCreated.None?
    ensures d.dateCompleted.None? <==> p.dateCompleted.None?
    ensures d.dateOnHold.None? <==> p.dateOnHold.None?
    ensures d.dateAbandoned.None? <==> p.dateAbandoned.None?
    ensures d.deadline.None? <==> p.deadline.None?
  {
    ProjectDict(
      p.id, p.title, p.description, p.status,
      if p.category.Some? then Some(CategoryToDict(p.category.value)) else None,
      CalculateProgress(p),
      p.orderIndex,
      p.dateCreated, p.dateCompleted, p.dateOnHold, p.dateAbandoned, p.deadline)
  }
}
