/**
 * The lesson-planner page (frontend/src/app/lesson-planner/page.tsx): the search over lesson
 * plans and the statistics row.
 */
module LessonPlanner {
  import opened Text
  import opened Lists

  datatype LessonPlan = LessonPlan(subject: string, classes: seq<string>, description: string, progress: real)

  datatype PlanStats = PlanStats(totalSubjects: nat, totalClasses: int, averageProgress: int)

  /** Some class name contains the term, ignoring case. */
  predicate SomeClassMatches(classes: seq<string>, term: string) {
    exists i :: 0 <= i < |classes| && ContainsIgnoringCase(classes[i], term)
  }

  function PlanMatcher(term: string): LessonPlan -> bool {
    (p: LessonPlan) =>
      ContainsIgnoringCase(p.subject, term) || SomeClassMatches(p.classes, term) || ContainsIgnoringCase(p.description, term)
  }

  /** `filteredLessonPlans`: the plans whose subject, some class or description contains the term. */
  function FilteredLessonPlans(plans: seq<LessonPlan>, term: string): seq<LessonPlan> {
    Filter(plans, PlanMatcher(term))
  }

  /** A plan is shown exactly when it matches; an empty search shows every plan, in order. */
  lemma FilteredLessonPlansSpec(plans: seq<LessonPlan>, term: string)
    ensures forall p :: p in FilteredLessonPlans(plans, term) <==> (p in plans &&
      (ContainsIgnoringCase(p.subject, term) || SomeClassMatches(p.classes, term) || ContainsIgnoringCase(p.description, term)))
    ensures term == "" ==> FilteredLessonPlans(plans, term) == plans
  {
    FilterKeeps(plans, PlanMatcher(term));
    if term == "" {
      forall i | 0 <= i < |plans| ensures PlanMatcher(term)(plans[i]) {
        ContainsEmpty(Lower(plans[i].subject));
      }
      FilterAll(plans, PlanMatcher(term));
    }
  }

  function ClassCount(p: LessonPlan): int { |p.classes| }
  function Progress(p: LessonPlan): real { p.progress }

  /** `stats`: the number of plans, the summed number of classes, and the rounded mean progress (0 without plans). */
  function Stats(plans: seq<LessonPlan>): PlanStats {
    PlanStats(|plans|, SumInt(plans, ClassCount), RoundedMean(plans, Progress))
  }

  /**
   * One subject per plan and a class total that is never negative; progress values between
   * 0 and 100 give an average between 0 and 100; no plans give zeros.
   */
  lemma StatsSpec(plans: seq<LessonPlan>)
    ensures Stats(plans).totalSubjects == |plans|
    ensures Stats(plans).totalClasses >= 0
    ensures plans == [] ==> Stats(plans) == PlanStats(0, 0, 0)
    ensures (forall i :: 0 <= i < |plans| ==> 0.0 <= plans[i].progress <= 100.0) ==>
      0 <= Stats(plans).averageProgress <= 100
  {
    SumIntMonotone(plans, ClassCount, ClassCount);
    if plans != [] && forall i :: 0 <= i < |plans| ==> 0.0 <= plans[i].progress <= 100.0 {
      RoundedMeanWithin(plans, Progress, 0, 100);
    }
  }

  /** Adding a plan adds its classes to the class total. */
  lemma TotalClassesAppend(plans: seq<LessonPlan>, p: LessonPlan)
    ensures Stats(plans + [p]).totalClasses == Stats(plans).totalClasses + |p.classes|
  {
    assert (plans + [p])[..|plans|] == plans;
  }
}
