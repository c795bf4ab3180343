/** Deadline arithmetic for projects and goals: the signed time left until a
    deadline split into days and hours, the overdue and approaching flags,
    the human-readable "Due in ..." / "Overdue by ..." text and the CSS class
    a template uses. Instants are whole UTC seconds; the clock reading that
    the source takes itself is the parameter `now`. */
module Deadline {
  import opened Common

  /** What `calculate_time_remaining` reports. */
  datatype TimeRemaining = TimeRemaining(days: int, hours: int, isOverdue: bool, isApproaching: bool)

  function Abs(x: int): nat { if x < 0 then -x else x }

  /** `calculate_time_remaining`: `days` is the whole-day part of the
      distance to the deadline, negated when the deadline has passed;
      `hours` the whole hours left over. The deadline is approaching when it
      has not passed and the floor of the signed day count is at most 3. */
  function CalculateTimeRemaining(deadline: Option<int>, now: int): (r: Option<TimeRemaining>)
    ensures r.None? <==> deadline.None?
    ensures r.Some? ==> 0 <= r.value.hours < 24
    ensures r.Some? ==> (r.value.isOverdue <==> deadline.value < now)
    ensures r.Some? && r.value.isOverdue ==> r.value.days <= 0
    ensures r.Some? && !r.value.isOverdue ==> r.value.days >= 0
    ensures r.Some? ==>
      var dist := Abs(deadline.value - now);
      Days(Abs(r.value.days)) + r.value.hours * SecondsPerHour <= dist
      < Days(Abs(r.value.days)) + (r.value.hours + 1) * SecondsPerHour
    ensures r.Some? ==> (r.value.isApproaching <==> now <= deadline.value < now + Days(4))
    ensures r.Some? && r.value.isApproaching ==> !r.value.isOverdue
  {
    match deadline
    case None => None
    case Some(d) =>
      var delta := d - now;
      var isOverdue := delta < 0;
      var absDelta := Abs(delta);
      var days := absDelta / SecondsPerDay;
      var hours := (absDelta % SecondsPerDay) / SecondsPerHour;
      Some(TimeRemaining(
        if !isOverdue then days else -days,
        hours,
        isOverdue,
        !isOverdue && WholeDays(delta) <= 3))
  }

  /** One constructor per `return` of `format_time_remaining`. */
  datatype Display =
    | Overdue                 // "Overdue"
    | OverdueOneDay           // "Overdue by 1 day"
    | OverdueDays(n: nat)     // "Overdue by {n} days"
    | DueOneYear              // "Due in 1 year"
    | DueYears(n: nat)        // "Due in {n} years"
    | DueNow                  // "Due now"
    | DueOneHour              // "Due in 1 hour"
    | DueHours(n: nat)        // "Due in {n} hours"
    | DueTomorrow             // "Due tomorrow"
    | DueDays(n: nat)         // "Due in {n} days"

  /** The branch `format_time_remaining` takes for a present deadline, and
      what each branch means in terms of the distance `deadline - now`:
      overdue text by whole days late, years from 730 days on (and then at
      least 2 years, so "Due in 1 year" is never chosen), hours within the
      first day, "tomorrow" on the second, days up to 729. */
  function Describe(deadline: int, now: int): (d: Display)
    ensures d == Overdue <==> now - SecondsPerDay < deadline < now
    ensures d == OverdueOneDay <==> now - Days(2) < deadline <= now - SecondsPerDay
    ensures d.OverdueDays? <==> deadline <= now - Days(2)
    ensures d.OverdueDays? ==> d.n >= 2 && d.n == (now - deadline) / SecondsPerDay
    ensures d.DueYears? <==> deadline - now >= Days(730)
    ensures d.DueYears? ==> d.n >= 2 && d.n == (deadline - now) / SecondsPerDay / 365
    ensures d != DueOneYear
    ensures d == DueNow <==> now <= deadline < now + SecondsPerHour
    ensures d == DueOneHour <==> now + SecondsPerHour <= deadline < now + 2 * SecondsPerHour
    ensures d.DueHours? <==> now + 2 * SecondsPerHour <= deadline < now + SecondsPerDay
    ensures d.DueHours? ==> 2 <= d.n < 24 && d.n == (deadline - now) / SecondsPerHour
    ensures d == DueTomorrow <==> now + SecondsPerDay <= deadline < now + Days(2)
    ensures d.DueDays? <==> now + Days(2) <= deadline < now + Days(730)
    ensures d.DueDays? ==> 2 <= d.n < 730 && d.n == (deadline - now) / SecondsPerDay
  {
    var r := CalculateTimeRemaining(Some(deadline), now).value;
    if r.isOverdue then
      var days := Abs(r.days);
      if days == 0 then Overdue
      else if days == 1 then OverdueOneDay
      else OverdueDays(days)
    else
      var days: nat := r.days;
      var hours: nat := r.hours;
      if days >= 730 then
        var years := days / 365;
        if years == 1 then DueOneYear else DueYears(years)
      else if days == 0 then
        if hours == 0 then DueNow
        else if hours == 1 then DueOneHour
        else DueHours(hours)
      else if days == 1 then DueTomorrow
      else DueDays(days)
  }

  /** The decimal digit for 0..9. */
  function DigitChar(n: nat): (c: char)
    requires n < 10
    ensures '0' <= c <= '9'
  {
    ('0' as int + n) as char
  }

  /** Python's `str(n)` for a natural number: decimal digits, no leading zero. */
  function Decimal(n: nat): (s: string)
    ensures |s| >= 1
    ensures forall i :: 0 <= i < |s| ==> '0' <= s[i] <= '9'
    ensures |s| > 1 ==> s[0] != '0'
  {
    if n < 10 then [DigitChar(n)] else Decimal(n / 10) + [DigitChar(n % 10)]
  }

  /** The number a string of decimal digits denotes. */
  function DecimalValue(s: string): nat
    requires forall i :: 0 <= i < |s| ==> '0' <= s[i] <= '9'
  {
    if s == [] then 0 else DecimalValue(s[..|s| - 1]) * 10 + (s[|s| - 1] - '0') as nat
  }

  /** Reading back the decimal text of `n` gives `n`. */
  lemma {:induction false} DecimalRoundTrip(n: nat)
    ensures DecimalValue(Decimal(n)) == n
  {
    var s := Decimal(n);
    if n >= 10 {
      DecimalRoundTrip(n / 10);
      assert s[..|s| - 1] == Decimal(n / 10);
      assert s[|s| - 1] == DigitChar(n % 10);
    }
  }

  /** The text of each branch. */
  function Text(d: Display): string
  {
    match d
    case Overdue => "Overdue"
    case OverdueOneDay => "Overdue by 1 day"
    case OverdueDays(n) => "Overdue by " + Decimal(n) + " days"
    case DueOneYear => "Due in 1 year"
    case DueYears(n) => "Due in " + Decimal(n) + " years"
    case DueNow => "Due now"
    case DueOneHour => "Due in 1 hour"
    case DueHours(n) => "Due in " + Decimal(n) + " hours"
    case DueTomorrow => "Due tomorrow"
    case DueDays(n) => "Due in " + Decimal(n) + " days"
  }

  /** No branch other than the one-year branch produces the text
      "Due in 1 year". */
  lemma OnlyOneYearBranchSaysOneYear(d: Display)
    ensures Text(d) == "Due in 1 year" <==> d == DueOneYear
  {
    match d
    case DueYears(n) =>
      assert |Text(d)| > 13;
    case DueHours(n) =>
      assert |Text(d)| > 13;
    case DueDays(n) =>
      if |Decimal(n)| == 1 {
        assert Text(d)[9] == 'd';
      } else {
        assert |Text(d)| > 13;
      }
    case DueOneHour =>
      assert Text(d)[9] == 'h';
    case OverdueDays(n) =>
      assert Text(d)[0] == 'O';
    case _ =>
  }

  /** `format_time_remaining`: `None` without a deadline, otherwise the text
      of the branch `Describe` picks. */
  function FormatTimeRemaining(deadline: Option<int>, now: int): (s: Option<string>)
    ensures s.None? <==> deadline.None?
    ensures s.Some? ==> s.value == Text(Describe(deadline.value, now))
  {
    match deadline
    case None => None
    case Some(d) => Some(Text(Describe(d, now)))
  }

  /** Whatever the deadline, the text is never "Due in 1 year": years are
      only reported from 730 days on. */
  lemma NeverDueInOneYear(deadline: Option<int>, now: int)
    ensures FormatTimeRemaining(deadline, now) != Some("Due in 1 year")
  {
    if deadline.Some? && FormatTimeRemaining(deadline, now) == Some("Due in 1 year") {
      OnlyOneYearBranchSaysOneYear(Describe(deadline.value, now));
    }
  }

  /** `is_overdue`: the clock is past the deadline; false without one. */
  function IsOverdue(deadline: Option<int>, now: int): (b: bool)
    ensures b ==> deadline.Some?
  {
    deadline.Some? && now > deadline.value
  }

  /** The standalone check agrees with the flag `calculate_time_remaining`
      reports at the same instant. */
  lemma IsOverdueAgrees(deadline: Option<int>, now: int)
    ensures IsOverdue(deadline, now) <==>
      (deadline.Some? && CalculateTimeRemaining(deadline, now).value.isOverdue)
  {
  }

  /** `is_approaching`: the deadline lies after now and no later than
      `days` days from now (3 unless given); false without one. */
  function IsApproaching(deadline: Option<int>, now: int, days: int := 3): (b: bool)
    ensures b ==> deadline.Some? && !IsOverdue(deadline, now)
  {
    deadline.Some? && now < deadline.value <= now + Days(days)
  }

  /** With the default threshold of 3 days the standalone check implies the
      flag of `calculate_time_remaining`, but not conversely: that flag also
      holds for a deadline due right now and for one 3 days and some hours
      away. */
  lemma ApproachingNotions(deadline: int, now: int)
    ensures IsApproaching(Some(deadline), now) ==>
      CalculateTimeRemaining(Some(deadline), now).value.isApproaching
    ensures CalculateTimeRemaining(Some(now), now).value.isApproaching
    ensures !IsApproaching(Some(now), now)
    ensures CalculateTimeRemaining(Some(now + Days(3) + SecondsPerHour), now).value.isApproaching
    ensures !IsApproaching(Some(now + Days(3) + SecondsPerHour), now)
  {
  }

  /** What `get_deadline_status` returns. `date` is the instant that both
      formatted date strings render. */
  datatype DeadlineStatus = DeadlineStatus(
    display: string,
    cssClass: string,
    date: int,
    isOverdue: bool,
    isApproaching: bool)

  const OverdueClass: string := "deadline-overdue"
  const WarningClass: string := "deadline-warning"
  const NormalClass: string := "deadline-normal"

  /** `get_deadline_status`, with one clock reading for both the remaining
      time and the text: the CSS class follows the priority overdue, then
      approaching, then normal, and the flags are those of
      `calculate_time_remaining`. */
  function GetDeadlineStatus(deadline: Option<int>, now: int): (r: Option<DeadlineStatus>)
    ensures r.None? <==> deadline.None?
    ensures r.Some? ==> r.value.cssClass in {OverdueClass, WarningClass, NormalClass}
    ensures r.Some? ==> (r.value.cssClass == OverdueClass <==> deadline.value < now)
    ensures r.Some? ==> (r.value.cssClass == WarningClass <==> now <= deadline.value < now + Days(4))
    ensures r.Some? ==> (r.value.cssClass == NormalClass <==> deadline.value >= now + Days(4))
    ensures r.Some? ==> r.value.isOverdue == CalculateTimeRemaining(deadline, now).value.isOverdue
    ensures r.Some? ==> r.value.isApproaching == CalculateTimeRemaining(deadline, now).value.isApproaching
    ensures r.Some? ==> Some(r.value.display) == FormatTimeRemaining(deadline, now)
    ensures r.Some? ==> r.value.date == deadline.value
  {
    match deadline
    case None => None
    case Some(d) =>
      var remaining := CalculateTimeRemaining(deadline, now).value;
      var display := FormatTimeRemaining(deadline, now).value;
      var cssClass :=
        if remaining.isOverdue then OverdueClass
        else if remaining.isApproaching then WarningClass
        else NormalClass;
      Some(DeadlineStatus(display, cssClass, d, remaining.isOverdue, remaining.isApproaching))
  }
}
