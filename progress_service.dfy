/**
 * The progress arithmetic of the progress service: the total percentage of
 * a project over all roles, the per-role percentages of the two display
 * formatters, and the statistics over a list of projects.
 *
 * `Math.round(a / b)` for `b > 0` is `floor(a / b + 1/2)`, which on the
 * integers is `(2a + b) / (2b)` with floor division; the model computes
 * that exact rational rounding (see `RoundDiv`).
 */
module ProgressService {
  import opened Js
  import Roles
  import ListOps

  /** A count as the backend may send it: left out, `null`, or a number. */
  datatype Count = Undefined | Null | Number(n: int)

  /** `count || 0` */
  function CountOrZero(c: Count): (r: int)
    ensures c.Number? ==> r == c.n
    ensures !c.Number? ==> r == 0
  {
    if c.Number? then c.n else 0
  }

  /** `count > 0`: `undefined > 0` and `null > 0` are both false. */
  predicate Positive(c: Count) {
    c.Number? && c.n > 0
  }

  /** The counts of one role: `{completed, total}`. */
  datatype RoleCounts = RoleCounts(completed: Count, total: Count)

  /** A JavaScript number as far as these formulas produce one. */
  datatype Num = Finite(n: int) | NaN

  /** A project's progress; `roles` maps role keys to their counts, in the
      order `Object.keys` lists them, or is missing. */
  datatype Progress = Progress(projectId: string, roles: Option<seq<(string, RoleCounts)>>)

  /** One entry of `roleProgress`. */
  datatype RoleLine = RoleLine(role: string, roleDisplayName: string, completed: int, total: int, percentage: Num)

  /** What formatProgressForDisplay adds to the progress object. */
  datatype ProgressDisplay = ProgressDisplay(progress: Progress, totalProgressPercentage: int, roleProgress: seq<RoleLine>)

  /** The input of formatRoleProgressForDisplay: one role's counts and the
      number of its checklist items, when present. */
  datatype RoleProgress = RoleProgress(counts: RoleCounts, items: Option<nat>)

  /** What formatRoleProgressForDisplay produces. */
  datatype RoleProgressDisplay = RoleProgressDisplay(
    progress: RoleProgress, role: string, roleDisplayName: string, progressPercentage: Num, itemCount: nat)

  /** The summary of getProgressStatistics. */
  datatype Statistics = Statistics(
    totalProjects: nat, completedProjects: nat, inProgressProjects: int, averageProgress: int, completionRate: int)

  /** `Math.round(a / b)` for a positive `b`: the integer nearest to `a / b`,
      halves rounded up. */
  function RoundDiv(a: int, b: int): (r: int)
    requires b > 0
    ensures 2 * b * r <= 2 * a + b < 2 * b * (r + 1)
  {
    (2 * a + b) / (2 * b)
  }

  /** Rounding a quotient that lies in `[0, k]` stays in `[0, k]`. */
  lemma {:induction false} RoundDivRange(a: int, b: int, k: nat)
    requires b > 0 && 0 <= a <= k * b
    ensures 0 <= RoundDiv(a, b) <= k
  {
    var r := RoundDiv(a, b);
    var m := 2 * b;
    assert m * r <= 2 * a + b < m * (r + 1);
    assert m * 0 == 0;
    MulMonotone(m, r + 1, 0);
    var kb := k * b;
    assert m * (k + 1) == 2 * kb + 2 * b;
    assert 2 * a + b < m * (k + 1);
    MulMonotone(m, k + 1, r);
  }

  /** Multiplying by a positive factor keeps the order both ways. */
  lemma MulMonotone(m: int, x: int, y: int)
    requires m > 0
    ensures m * x <= m * y <==> x <= y
  {
    if x > y {
      assert m * x - m * y == m * (x - y);
    }
  }

  /** `Math.round((c / t) * 100)` for a positive total. */
  function RoundPercent(c: int, t: int): (r: int)
    requires t > 0
    ensures 2 * t * r <= 200 * c + t < 2 * t * (r + 1)
  {
    RoundDiv(100 * c, t)
  }

  /** A share between none and all is a percentage between 0 and 100. */
  lemma {:induction false} RoundPercentRange(c: int, t: int)
    requires 0 <= c <= t && t > 0
    ensures 0 <= RoundPercent(c, t) <= 100
  {
    RoundDivRange(100 * c, t, 100);
  }

  /** Below 200 items, a percentage rounds to 100 exactly when every item
      is done; at 200 items, 199 done already rounds to 100. */
  lemma {:induction false} FullIffAllDone(c: int, t: int)
    requires 0 <= c <= t && 0 < t < 200
    ensures RoundPercent(c, t) == 100 <==> c == t
  {
    var r := RoundPercent(c, t);
    var m := 2 * t;
    assert m * r <= 200 * c + t < m * (r + 1);
    assert m * 100 == 200 * t;
    if c == t {
      assert m * 101 == 202 * t;
      MulMonotone(m, 101, r);
      MulMonotone(m, r + 1, 100);
    } else {
      assert 200 * c + t <= 201 * t - 200 < 200 * t;
      MulMonotone(m, 100, r);
    }
  }

  lemma NearlyDoneRoundsToFull()
    ensures RoundPercent(199, 200) == 100
  {
  }

  // ---------------------------------------------------------------------
  // calculateTotalProgress

  /** `roles.reduce((sum, role) => sum + (role.total || 0), 0)` */
  function SumTotal(rs: seq<(string, RoleCounts)>): int {
    if rs == [] then 0 else CountOrZero(rs[0].1.total) + SumTotal(rs[1..])
  }

  /** `roles.reduce((sum, role) => sum + (role.completed || 0), 0)` */
  function SumCompleted(rs: seq<(string, RoleCounts)>): int {
    if rs == [] then 0 else CountOrZero(rs[0].1.completed) + SumCompleted(rs[1..])
  }

  /** Every role's completed count lies between 0 and its total. */
  predicate CountsConsistent(c: RoleCounts) {
    0 <= CountOrZero(c.completed) <= CountOrZero(c.total)
  }

  predicate Consistent(p: Progress) {
    p.roles.Some? ==> forall i :: 0 <= i < |p.roles.value| ==> CountsConsistent(p.roles.value[i].1)
  }

  lemma {:induction false} SumsConsistent(rs: seq<(string, RoleCounts)>)
    requires forall i :: 0 <= i < |rs| ==> CountsConsistent(rs[i].1)
    ensures 0 <= SumCompleted(rs) <= SumTotal(rs)
  {
    if rs != [] {
      SumsConsistent(rs[1..]);
    }
  }

  /** calculateTotalProgress: the rounded share of completed items over all
      roles, 0 without roles or without items. */
  function CalculateTotalProgress(p: Progress): (r: int)
    ensures p.roles.None? ==> r == 0
    ensures p.roles.Some? && SumTotal(p.roles.value) <= 0 ==> r == 0
    ensures p.roles.Some? && SumTotal(p.roles.value) > 0 ==>
      r == RoundPercent(SumCompleted(p.roles.value), SumTotal(p.roles.value))
  {
    match p.roles
    case None => 0
    case Some(rs) =>
      var total := SumTotal(rs);
      if total > 0 then RoundPercent(SumCompleted(rs), total) else 0
  }

  /** With consistent counts the total progress is a percentage. */
  lemma TotalProgressRange(p: Progress)
    requires Consistent(p)
    ensures 0 <= CalculateTotalProgress(p) <= 100
  {
    if p.roles.Some? {
      SumsConsistent(p.roles.value);
      if SumTotal(p.roles.value) > 0 {
        RoundPercentRange(SumCompleted(p.roles.value), SumTotal(p.roles.value));
      }
    }
  }

  // ---------------------------------------------------------------------
  // Per-role percentages

  /**
   * The per-role percentage as written: `total > 0 ? Math.round(completed /
   * total * 100) : 0`. An undefined `completed` makes the quotient NaN,
   * although the same line displays that `completed` as 0; a `null` one is
   * read as the number 0.
   */
  function AsWrittenPercentage(c: RoleCounts): (r: Num)
    ensures !Positive(c.total) ==> r == Finite(0)
    ensures Positive(c.total) && c.completed.Undefined? ==> r == NaN
    ensures Positive(c.total) && c.completed.Null? ==> r == Finite(0)
    ensures Positive(c.total) && c.completed.Number? ==>
              r == Finite(RoundPercent(c.completed.n, c.total.n))
  {
    if Positive(c.total) then
      match c.completed
      case Undefined => NaN
      case Null => Finite(0)  // `null / total * 100` is 0
      case Number(k) => Finite(RoundPercent(k, c.total.n))
    else Finite(0)
  }

  /** One line of `roleProgress`: its counts with `|| 0` and the percentage
      as written. */
  function Line(role: string, c: RoleCounts): RoleLine {
    RoleLine(role, RoleDisplayName(role), CountOrZero(c.completed), CountOrZero(c.total), AsWrittenPercentage(c))
  }

  /** The corrected per-role percentage: computed from the counts as the
      line displays them, so a missing `completed` is read as 0. */
  function Percentage(c: RoleCounts): (r: int)
    ensures CountOrZero(c.total) > 0 ==> r == RoundPercent(CountOrZero(c.completed), CountOrZero(c.total))
    ensures CountOrZero(c.total) <= 0 ==> r == 0
  {
    if Positive(c.total) then RoundPercent(CountOrZero(c.completed), c.total.n) else 0
  }

  /** The finding: a role with items and no `completed` count is shown as
      "0 of 4" next to a NaN percentage, by both display formatters. */
  lemma MissingCompletedGivesNaN()
    ensures AsWrittenPercentage(RoleCounts(Undefined, Number(4))) == NaN
    ensures var l := Line("tester", RoleCounts(Undefined, Number(4)));
      l.completed == 0 && l.total == 4 && l.percentage == NaN
    ensures FormatRoleProgressForDisplay(Some(RoleProgress(RoleCounts(Undefined, Number(4)), None)), "tester")
              .value.progressPercentage == NaN
  {
  }

  /** The corrected percentage always agrees with the counts shown beside
      it, and coincides with the code as written wherever that is a number;
      the code as written is NaN exactly for an undefined `completed` with a
      positive total. */
  lemma PercentageMatchesShownCounts(role: string, c: RoleCounts)
    ensures var l := Line(role, c);
      Percentage(c) == (if l.total > 0 then RoundPercent(l.completed, l.total) else 0)
    ensures AsWrittenPercentage(c).Finite? ==> AsWrittenPercentage(c).n == Percentage(c)
    ensures AsWrittenPercentage(c).NaN? <==> CountOrZero(c.total) > 0 && c.completed.Undefined?
  {
    if Positive(c.total) && c.completed.Null? {
      assert RoundPercent(0, c.total.n) == 0 by {
        var t := c.total.n;
        var r := RoundPercent(0, t);
        assert 2 * t * r <= t < 2 * t * (r + 1);
        MulMonotone(2 * t, r, 0);
        MulMonotone(2 * t, 0, r);
      }
    }
  }

  /** getRoleDisplayName of the progress service. */
  function RoleDisplayName(role: string): (r: string)
    ensures role == "designer" ==> r == "Designer"
    ensures role == "developer" ==> r == "Utvecklare"
    ensures role == "tester" ==> r == "Testare"
    ensures role !in Roles.NonAdmin ==> r == role
  {
    match role
    case "designer" => "Designer"
    case "developer" => "Utvecklare"
    case "tester" => "Testare"
    case _ => role
  }

  /** formatProgressForDisplay: null for a missing progress object; one
      line per role key, in key order; the date is not modelled. */
  function FormatProgressForDisplay(p: Option<Progress>): (r: Option<ProgressDisplay>)
    ensures p.None? <==> r.None?
    ensures r.Some? ==> r.value.progress == p.value
    ensures r.Some? ==> r.value.totalProgressPercentage == CalculateTotalProgress(p.value)
    ensures r.Some? && p.value.roles.None? ==> r.value.roleProgress == []
    ensures r.Some? && p.value.roles.Some? ==>
      var rs := p.value.roles.value;
      |r.value.roleProgress| == |rs| &&
      forall i :: 0 <= i < |rs| ==> r.value.roleProgress[i] == Line(rs[i].0, rs[i].1)
  {
    match p
    case None => None
    case Some(pr) =>
      var lines := match pr.roles
        case None => []
        case Some(rs) => seq(|rs|, i requires 0 <= i < |rs| => Line(rs[i].0, rs[i].1));
      Some(ProgressDisplay(pr, CalculateTotalProgress(pr), lines))
  }

  /** formatRoleProgressForDisplay: null for a missing progress object; the
      role's percentage; missing items become an empty list. */
  function FormatRoleProgressForDisplay(p: Option<RoleProgress>, role: string): (r: Option<RoleProgressDisplay>)
    ensures p.None? <==> r.None?
    ensures r.Some? ==> r.value.progress == p.value && r.value.role == role
    ensures r.Some? ==> r.value.roleDisplayName == RoleDisplayName(role)
    ensures r.Some? ==> r.value.progressPercentage == AsWrittenPercentage(p.value.counts)
    ensures r.Some? ==> r.value.itemCount == (if p.value.items.Some? then p.value.items.value else 0)
  {
    match p
    case None => None
    case Some(rp) =>
      Some(RoleProgressDisplay(rp, role, RoleDisplayName(role), AsWrittenPercentage(rp.counts),
                               if rp.items.Some? then rp.items.value else 0))
  }

  // ---------------------------------------------------------------------
  // getProgressStatistics

  function IsComplete(p: Progress): bool {
    CalculateTotalProgress(p) == 100
  }

  function SumProgress(ps: seq<Progress>): int {
    if ps == [] then 0 else CalculateTotalProgress(ps[0]) + SumProgress(ps[1..])
  }

  lemma {:induction false} SumProgressRange(ps: seq<Progress>)
    requires forall i :: 0 <= i < |ps| ==> Consistent(ps[i])
    ensures 0 <= SumProgress(ps) <= 100 * |ps|
  {
    if ps != [] {
      TotalProgressRange(ps[0]);
      SumProgressRange(ps[1..]);
    }
  }

  /** getProgressStatistics: null unless given an array. */
  function GetProgressStatistics(data: Option<seq<Progress>>): (r: Option<Statistics>)
    ensures data.None? <==> r.None?
    ensures r.Some? ==> r.value.totalProjects == |data.value|
    ensures r.Some? ==> r.value.completedProjects == ListOps.Count(data.value, IsComplete)
    ensures r.Some? ==> r.value.inProgressProjects == r.value.totalProjects - r.value.completedProjects >= 0
    ensures r.Some? && data.value == [] ==> r.value.averageProgress == 0 && r.value.completionRate == 0
    ensures r.Some? && data.value != [] ==>
      r.value.averageProgress == RoundDiv(SumProgress(data.value), |data.value|) &&
      r.value.completionRate == RoundPercent(r.value.completedProjects, |data.value|)
  {
    match data
    case None => None
    case Some(ps) =>
      var n := |ps|;
      var done := ListOps.Count(ps, IsComplete);
      Some(Statistics(n, done, n - done,
                      if n > 0 then RoundDiv(SumProgress(ps), n) else 0,
                      if n > 0 then RoundPercent(done, n) else 0))
  }

  /** With consistent counts the average progress and the completion rate
      are percentages. */
  lemma StatisticsRange(ps: seq<Progress>)
    requires forall i :: 0 <= i < |ps| ==> Consistent(ps[i])
    ensures var s := GetProgressStatistics(Some(ps)).value;
      0 <= s.averageProgress <= 100 && 0 <= s.completionRate <= 100
  {
    if ps != [] {
      SumProgressRange(ps);
      RoundDivRange(SumProgress(ps), |ps|, 100);
      RoundPercentRange(ListOps.Count(ps, IsComplete), |ps|);
    }
  }
}
