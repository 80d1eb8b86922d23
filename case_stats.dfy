/** The summary tiles over the case list: open cases and total documents.
    The two percentage tiles are not part of this model. */
module CaseStats {
  import opened Seqs
  import opened ApiModels

  predicate IsOpen(c: Case) {
    c.status == "OPEN"
  }

  function DocumentCount(c: Case): int {
    c.documentCount
  }

  /** `cases.filter(c => c.status === "OPEN").length`. */
  function ActiveCases(cases: seq<Case>): (r: nat)
    ensures r <= |cases|
  {
    Count(cases, IsOpen)
  }

  /** `cases.reduce((acc, c) => acc + c.document_count, 0) || 0`; the
      fallback only matters for a non-numeric sum. */
  function Documents(cases: seq<Case>): (r: int)
    ensures cases == [] ==> r == 0
    ensures |cases| == 1 ==> r == cases[0].documentCount
  {
    assert |cases| == 1 ==>
      cases[1..] == [] && SumBy(cases, DocumentCount) == DocumentCount(cases[0]) + SumBy(cases[1..], DocumentCount);
    SumBy(cases, DocumentCount)
  }

  /** Open cases tallied one by one, as a reference for the filtered count. */
  function TallyOpen(cases: seq<Case>): nat {
    if cases == [] then 0 else (if IsOpen(cases[0]) then 1 else 0) + TallyOpen(cases[1..])
  }

  lemma {:induction false} ActiveCasesIsTally(cases: seq<Case>)
    ensures ActiveCases(cases) == TallyOpen(cases)
  {
    if cases != [] {
      ActiveCasesIsTally(cases[1..]);
    }
  }

  /** Active Cases equals the list's length exactly when every case is open. */
  lemma AllActiveIff(cases: seq<Case>)
    ensures ActiveCases(cases) == |cases| <==> forall i :: 0 <= i < |cases| ==> IsOpen(cases[i])
  {
    CountAllIff(cases, IsOpen);
  }

  /** Both tiles add up over a split list, and both are zero for no cases. */
  lemma StatsAppend(a: seq<Case>, b: seq<Case>)
    ensures ActiveCases(a + b) == ActiveCases(a) + ActiveCases(b)
    ensures Documents(a + b) == Documents(a) + Documents(b)
    ensures ActiveCases([]) == 0 && Documents([]) == 0
  {
    FilterAppend(a, b, IsOpen);
    SumByAppend(a, b, DocumentCount);
  }

  /** Documents is never negative when no case reports a negative count. */
  lemma {:induction false} DocumentsNonNegative(cases: seq<Case>)
    requires forall i :: 0 <= i < |cases| ==> cases[i].documentCount >= 0
    ensures Documents(cases) >= 0
  {
    if cases != [] {
      DocumentsNonNegative(cases[1..]);
    }
  }
}
