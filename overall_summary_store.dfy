/** The per-case store of generated overall summaries: a map from case id to
    summary with overwrite, lookup and clear. Persistence to tab-scoped
    storage is not modelled. */
module OverallSummaryStore {
  import opened Wrappers
  import opened ApiModels

  class SummaryStore {
    var summaries: map<int, OverallSummary>

    constructor ()
      ensures summaries == map[]
    {
      summaries := map[];
    }

    /** `getSummary`: the stored summary, or `None` for a case without one. */
    function GetSummary(caseId: int): (r: Option<OverallSummary>)
      reads this
      ensures r.Some? <==> caseId in summaries
      ensures r.Some? ==> r.value == summaries[caseId]
    {
      if caseId in summaries then Some(summaries[caseId]) else None
    }

    /** `setSummary`: stores the summary under the case, replacing any earlier
        one as a whole; every other case keeps its summary. */
    method SetSummary(caseId: int, summary: OverallSummary)
      modifies this
      ensures summaries == old(summaries)[caseId := summary]
      ensures GetSummary(caseId) == Some(summary)
      ensures forall k :: k != caseId ==> GetSummary(k) == old(GetSummary(k))
    {
      summaries := summaries[caseId := summary];
    }

    method ClearSummaries()
      modifies this
      ensures summaries == map[]
      ensures forall k :: GetSummary(k).None?
    {
      summaries := map[];
    }
  }

  /** Storing the same summary twice is the same as storing it once, and a
      second store under a key replaces the first. */
  lemma SetSummaryIdempotent(m: map<int, OverallSummary>, caseId: int, s1: OverallSummary, s2: OverallSummary)
    ensures m[caseId := s1][caseId := s1] == m[caseId := s1]
    ensures m[caseId := s1][caseId := s2] == m[caseId := s2]
  {
  }
}
