/** The case dashboard: the search and status filter applied to the case
    list, and the paging state it hands to the grid and the table. */
module CaseDashboard {
  import opened Wrappers
  import opened Text
  import opened Seqs
  import opened ApiModels
  import CreateCaseModal

  /** The title, or the description when there is one, holds the query,
      both lower-cased; so a verbatim occurrence always matches. */
  function MatchesSearch(c: Case, query: string): (r: bool)
    ensures Contains(c.title, query) ==> r
    ensures c.description.Some? && Contains(c.description.value, query) ==> r
  {
    var q := ToLower(query);
    LowerKeepsOccurrence(c.title, query);
    LowerKeepsOccurrence(c.description.GetOr(""), query);
    Contains(ToLower(c.title), q)
    || (c.description.Some? && Contains(ToLower(c.description.value), q))
  }

  /** The search ignores the case of the query. */
  lemma SearchIgnoresQueryCase(c: Case, query: string)
    ensures MatchesSearch(c, query) == MatchesSearch(c, ToLower(query))
  {
    ToLowerIdempotent(query);
  }

  /** "all" admits every case; any other filter is compared exactly. */
  predicate MatchesFilter(c: Case, status: string) {
    status == "all" || c.status == status
  }

  /** The values the status menu offers. */
  const StatusFilters := ["all", "OPEN", "IN_PROGRESS", "RESOLVED", "CLOSED"]

  /** A case created with the form's "In Progress" option has the status
      "IN PROGRESS", which no entry of the status menu but "all" admits. */
  lemma InProgressCasesEscapeFilter(c: Case)
    requires c.status == CreateCaseModal.StatusOptions[1]
    ensures MatchesFilter(c, StatusFilters[0])
    ensures forall i :: 1 <= i < |StatusFilters| ==> !MatchesFilter(c, StatusFilters[i])
  {
    assert c.status[2] == ' ';
    forall i | 1 <= i < |StatusFilters| ensures c.status != StatusFilters[i] {
      if |StatusFilters[i]| == |c.status| {
        assert StatusFilters[i][2] != ' ';
      }
    }
  }

  function Admits(query: string, status: string): Case -> bool {
    c => MatchesSearch(c, query) && MatchesFilter(c, status)
  }

  function FilteredCases(cases: seq<Case>, query: string, status: string): (r: seq<Case>)
    ensures |r| <= |cases|
    ensures forall i :: 0 <= i < |r| ==> MatchesSearch(r[i], query) && MatchesFilter(r[i], status)
    ensures IsSubsequence(r, cases)
  {
    FilterIsSubsequence(cases, Admits(query, status));
    Filter(cases, Admits(query, status))
  }

  /** A case is listed exactly when it is in the list and passes both tests. */
  lemma FilteredCasesExact(cases: seq<Case>, query: string, status: string, c: Case)
    ensures c in FilteredCases(cases, query, status) <==>
      c in cases && MatchesSearch(c, query) && MatchesFilter(c, status)
  {
    FilterMembership(cases, Admits(query, status), c);
  }

  /** With an empty query and "all", every case is listed, in order. */
  lemma NoFilterListsAll(cases: seq<Case>)
    ensures FilteredCases(cases, "", "all") == cases
  {
    forall i | 0 <= i < |cases| ensures Admits("", "all")(cases[i]) {
      assert ToLower("") == "";
      assert "" <= ToLower(cases[i].title);
    }
    FilterKeepsAll(cases, Admits("", "all"));
  }

  datatype ViewMode = Grid | Table

  datatype DashboardState = DashboardState(
    searchQuery: string,
    filterStatus: string,
    viewMode: ViewMode,
    visibleCards: int,
    currentPage: int,
    pageSize: int)

  /** The dashboard's state when it mounts. */
  function Initial(): (s: DashboardState)
    ensures s.visibleCards == 5 && s.currentPage == 1 && s.pageSize == 10
    ensures s.searchQuery == "" && s.filterStatus == "all" && s.viewMode == Grid
  {
    DashboardState("", "all", Grid, 5, 1, 10)
  }

  /** A freshly mounted dashboard lists every case. */
  lemma InitiallyListsAll(cases: seq<Case>)
    ensures FilteredCases(cases, Initial().searchQuery, Initial().filterStatus) == cases
  {
    NoFilterListsAll(cases);
  }
}
