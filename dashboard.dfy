/**
 * The teacher dashboard (frontend/src/app/dashboard/page.tsx): totals and rounded averages
 * over the classes with their zero-division guards, the class search, and the colour and
 * icon a class card shows for its performance.
 */
module Dashboard {
  import opened Text
  import opened Lists

  datatype ClassInfo = ClassInfo(
    name: string, subject: string, totalStudents: int, presentToday: int,
    averagePerformance: real, performanceTrend: string)

  datatype Overview = Overview(totalStudents: int, totalPresent: int, averagePerformance: int, overallAttendance: int)

  function Students(c: ClassInfo): int { c.totalStudents }
  function Present(c: ClassInfo): int { c.presentToday }
  function Performance(c: ClassInfo): real { c.averagePerformance }

  /** `Math.round(part / whole * 100)` when `whole > 0`, otherwise 0. */
  function Percentage(part: int, whole: int): int {
    if whole > 0 then Round(part as real / whole as real * 100.0) else 0
  }

  /**
   * The statistics row: summed students and present students, the rounded mean performance
   * (0 without classes) and the rounded attendance percentage (0 without students).
   */
  function OverviewOf(classes: seq<ClassInfo>): Overview {
    var totalStudents := SumInt(classes, Students);
    var totalPresent := SumInt(classes, Present);
    Overview(totalStudents, totalPresent, RoundedMean(classes, Performance), Percentage(totalPresent, totalStudents))
  }

  /** Without classes every statistic is 0: both divisions are guarded. */
  lemma NoClassesAllZero()
    ensures OverviewOf([]) == Overview(0, 0, 0, 0)
  {
  }

  lemma RatioBounds(a: real, b: real)
    requires 0.0 <= a <= b && b > 0.0
    ensures 0.0 <= a / b <= 1.0
    ensures a == b ==> a / b == 1.0
  {
  }

  /** A part between 0 and the whole gives a percentage between 0 and 100. */
  lemma PercentageBounds(part: int, whole: int)
    requires 0 <= part <= whole
    ensures 0 <= Percentage(part, whole) <= 100
    ensures part == whole && whole > 0 ==> Percentage(part, whole) == 100
  {
    if whole > 0 {
      var q := part as real / whole as real;
      RatioBounds(part as real, whole as real);
      RoundWithin(q * 100.0, 0, 100);
    }
  }

  /**
   * When no class reports more present students than it has, overall attendance lies
   * between 0 and 100; performances between 0 and 100 give a mean between 0 and 100.
   */
  lemma OverviewBounds(classes: seq<ClassInfo>)
    requires forall i :: 0 <= i < |classes| ==> 0 <= classes[i].presentToday <= classes[i].totalStudents
    requires forall i :: 0 <= i < |classes| ==> 0.0 <= classes[i].averagePerformance <= 100.0
    ensures 0 <= OverviewOf(classes).totalPresent <= OverviewOf(classes).totalStudents
    ensures 0 <= OverviewOf(classes).overallAttendance <= 100
    ensures 0 <= OverviewOf(classes).averagePerformance <= 100
  {
    SumIntMonotone(classes, Present, Students);
    PercentageBounds(SumInt(classes, Present), SumInt(classes, Students));
    if classes != [] {
      RoundedMeanWithin(classes, Performance, 0, 100);
    }
  }

  /** The class search: the name or the subject contains the term, ignoring case. */
  function ClassMatcher(term: string): ClassInfo -> bool {
    (c: ClassInfo) => ContainsIgnoringCase(c.name, term) || ContainsIgnoringCase(c.subject, term)
  }

  function FilteredClasses(classes: seq<ClassInfo>, term: string): seq<ClassInfo> {
    Filter(classes, ClassMatcher(term))
  }

  /** A class is shown exactly when its name or subject contains the term; an empty term shows every class in order. */
  lemma FilteredClassesSpec(classes: seq<ClassInfo>, term: string)
    ensures forall c :: c in FilteredClasses(classes, term) <==>
      c in classes && (ContainsIgnoringCase(c.name, term) || ContainsIgnoringCase(c.subject, term))
    ensures term == "" ==> FilteredClasses(classes, term) == classes
  {
    FilterKeeps(classes, ClassMatcher(term));
    if term == "" {
      forall i | 0 <= i < |classes| ensures ClassMatcher(term)(classes[i]) {
        ContainsEmpty(Lower(classes[i].name));
      }
      FilterAll(classes, ClassMatcher(term));
    }
  }

  const Green := "text-green-600"
  const Blue := "text-blue-600"
  const Yellow := "text-yellow-600"
  const Red := "text-red-600"

  /** The order of the colour bands, from worst to best. */
  function ColorRank(color: string): nat {
    if color == Green then 3 else if color == Blue then 2 else if color == Yellow then 1 else 0
  }

  /** `getPerformanceColor`: green from 85, blue from 75, yellow from 65, red below. */
  function PerformanceColor(performance: real): (color: string)
    ensures color in {Green, Blue, Yellow, Red}
    ensures color == Green <==> performance >= 85.0
    ensures color == Red <==> performance < 65.0
  {
    if performance >= 85.0 then Green
    else if performance >= 75.0 then Blue
    else if performance >= 65.0 then Yellow
    else Red
  }

  /** A better performance never gets a worse colour. */
  lemma PerformanceColorMonotone(p: real, q: real)
    requires p <= q
    ensures ColorRank(PerformanceColor(p)) <= ColorRank(PerformanceColor(q))
  {
  }

  const TrendUp := "\U{1F4C8}"
  const TrendDown := "\U{1F4C9}"
  const TrendFlat := "\U{27A1}\U{FE0F}"

  /** `getTrendIcon`: a rising chart for "up", a falling one for "down", an arrow for anything else. */
  function TrendIcon(trend: string): (icon: string)
    ensures icon == TrendUp <==> trend == "up"
    ensures icon == TrendDown <==> trend == "down"
    ensures icon == TrendFlat <==> trend != "up" && trend != "down"
  {
    if trend == "up" then TrendUp else if trend == "down" then TrendDown else TrendFlat
  }
}
