/**
 * The AI-audit page (frontend/src/app/ai-audit/page.tsx): the search and status filter over
 * recorded teaching sessions, the per-status counts, the average engagement, and the
 * engagement colour.
 */
module AiAudit {
  import opened Text
  import opened Lists

  datatype Session = Session(title: string, subject: string, className: string, status: string, engagementScore: real)

  function SessionMatcher(term: string, statusFilter: string): Session -> bool {
    (s: Session) =>
      && (ContainsIgnoringCase(s.title, term) || ContainsIgnoringCase(s.subject, term) || ContainsIgnoringCase(s.className, term))
      && (statusFilter == "all" || s.status == statusFilter)
  }

  /** `filteredSessions`: the search matches the title, subject or class, and the status filter is 'all' or the session's status. */
  function FilteredSessions(sessions: seq<Session>, term: string, statusFilter: string): seq<Session> {
    Filter(sessions, SessionMatcher(term, statusFilter))
  }

  /** A session is kept exactly when both the search and the status filter match; an empty search with 'all' keeps all. */
  lemma FilteredSessionsSpec(sessions: seq<Session>, term: string, statusFilter: string)
    ensures forall s :: s in FilteredSessions(sessions, term, statusFilter) <==> (s in sessions
      && (ContainsIgnoringCase(s.title, term) || ContainsIgnoringCase(s.subject, term) || ContainsIgnoringCase(s.className, term))
      && (statusFilter == "all" || s.status == statusFilter))
    ensures term == "" && statusFilter == "all" ==> FilteredSessions(sessions, term, statusFilter) == sessions
  {
    FilterKeeps(sessions, SessionMatcher(term, statusFilter));
    if term == "" && statusFilter == "all" {
      forall i | 0 <= i < |sessions| ensures SessionMatcher(term, statusFilter)(sessions[i]) {
        ContainsEmpty(Lower(sessions[i].title));
      }
      FilterAll(sessions, SessionMatcher(term, statusFilter));
    }
  }

  function HasStatus(status: string): Session -> bool {
    (s: Session) => s.status == status
  }

  /** `recordedSessions.filter(s => s.status === status).length`. */
  function StatusCount(sessions: seq<Session>, status: string): nat {
    |Filter(sessions, HasStatus(status))|
  }

  /** When every session is analyzed, processing or pending, the three counts add up to the total. */
  lemma {:induction false} StatusCountsPartition(sessions: seq<Session>)
    requires forall i :: 0 <= i < |sessions| ==> sessions[i].status in {"analyzed", "processing", "pending"}
    ensures StatusCount(sessions, "analyzed") + StatusCount(sessions, "processing") + StatusCount(sessions, "pending") == |sessions|
  {
    if sessions != [] {
      StatusCountsPartition(sessions[1..]);
    }
  }

  function Scored(s: Session): bool { s.engagementScore > 0.0 }
  function Engagement(s: Session): real { s.engagementScore }

  /**
   * The average engagement: the rounded mean over the sessions with a positive score, and 0
   * when there are none (the division gives NaN there and `|| 0` turns it into 0).
   */
  function AverageEngagement(sessions: seq<Session>): int {
    RoundedMean(Filter(sessions, Scored), Engagement)
  }

  /** Unscored sessions do not pull the average down: scores up to 100 give an average between 0 and 100, and 0 when nothing is scored. */
  lemma AverageEngagementSpec(sessions: seq<Session>)
    ensures (forall i :: 0 <= i < |sessions| ==> !Scored(sessions[i])) ==> AverageEngagement(sessions) == 0
    ensures (forall i :: 0 <= i < |sessions| ==> sessions[i].engagementScore <= 100.0) ==>
      0 <= AverageEngagement(sessions) <= 100
    ensures AverageEngagement(sessions) == AverageEngagement(Filter(sessions, Scored))
  {
    var scored := Filter(sessions, Scored);
    FilterSatisfies(sessions, Scored);
    FilterKeeps(sessions, Scored);
    if forall i :: 0 <= i < |sessions| ==> !Scored(sessions[i]) {
      FilterNone(sessions, Scored);
    }
    if scored != [] && forall i :: 0 <= i < |sessions| ==> sessions[i].engagementScore <= 100.0 {
      RoundedMeanWithin(scored, Engagement, 0, 100);
    }
    FilterAll(scored, Scored);
  }

  const Green := "text-green-600"
  const Blue := "text-blue-600"
  const Yellow := "text-yellow-600"
  const Red := "text-red-600"

  function ColorRank(color: string): nat {
    if color == Green then 3 else if color == Blue then 2 else if color == Yellow then 1 else 0
  }

  /** `getEngagementColor`: green from 90, blue from 75, yellow from 60, red below. */
  function EngagementColor(score: real): (color: string)
    ensures color in {Green, Blue, Yellow, Red}
    ensures color == Green <==> score >= 90.0
    ensures color == Red <==> score < 60.0
  {
    if score >= 90.0 then Green
    else if score >= 75.0 then Blue
    else if score >= 60.0 then Yellow
    else Red
  }

  /** A higher engagement never gets a worse colour. */
  lemma EngagementColorMonotone(p: real, q: real)
    requires p <= q
    ensures ColorRank(EngagementColor(p)) <= ColorRank(EngagementColor(q))
  {
  }
}
