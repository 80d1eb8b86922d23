/** The signed-in shell: the case list it owns, which view is shown, the
    selected case, and the create-case modal flag. API answers are inputs. */
module Layout {
  import opened Wrappers
  import opened ApiModels
  import AuthStore

  datatype View = Dashboard | CaseDetailsView

  /** The `cases` endpoint's answer: `items` may be absent. */
  datatype CaseList = CaseList(items: Option<seq<Case>>, total: int)

  /** The steps of `handleLogout`, in the order they happen. */
  datatype LogoutStep = ClearStorage | StoreLogout | LogoutPopup

  /** `prev.map(c => c.case_id === u.case_id ? u : c)`. */
  function ReplaceById(cases: seq<Case>, u: Case): (r: seq<Case>)
    ensures |r| == |cases|
    ensures forall i :: 0 <= i < |cases| && cases[i].caseId == u.caseId ==> r[i] == u
    ensures forall i :: 0 <= i < |cases| && cases[i].caseId != u.caseId ==> r[i] == cases[i]
  {
    if cases == [] then []
    else [if cases[0].caseId == u.caseId then u else cases[0]] + ReplaceById(cases[1..], u)
  }

  /** Replacing with the same case twice is the same as once. */
  lemma ReplaceByIdIdempotent(cases: seq<Case>, u: Case)
    ensures ReplaceById(ReplaceById(cases, u), u) == ReplaceById(cases, u)
  {
  }

  /** An update for a case that is not listed leaves the list as it was. */
  lemma {:induction false} ReplaceUnknownIsIdentity(cases: seq<Case>, u: Case)
    requires forall i :: 0 <= i < |cases| ==> cases[i].caseId != u.caseId
    ensures ReplaceById(cases, u) == cases
  {
    if cases != [] {
      ReplaceUnknownIsIdentity(cases[1..], u);
      assert [cases[0]] + cases[1..] == cases;
    }
  }

  /** The ids of the list are unchanged by a replacement. */
  lemma ReplaceKeepsIds(cases: seq<Case>, u: Case)
    ensures forall i :: 0 <= i < |cases| ==> ReplaceById(cases, u)[i].caseId == cases[i].caseId
  {
  }

  class Workspace {
    var cases: seq<Case>
    var currentView: View
    var selectedCase: Option<Case>
    var isCreateCaseOpen: bool

    constructor ()
      ensures cases == [] && currentView == Dashboard && selectedCase.None? && !isCreateCaseOpen
    {
      cases := [];
      currentView := Dashboard;
      selectedCase := None;
      isCreateCaseOpen := false;
    }

    /** The case-load effect, run when the view changes. It fetches only in
        the dashboard view, and replaces the list only when the answer has
        `items`. Returns whether a fetch was made. */
    method LoadCases(result: Option<CaseList>) returns (fetched: bool)
      modifies this
      ensures fetched <==> old(currentView) == Dashboard
      ensures cases == (if fetched && result.Some? && result.value.items.Some?
                        then result.value.items.value else old(cases))
      ensures currentView == old(currentView) && selectedCase == old(selectedCase)
      ensures isCreateCaseOpen == old(isCreateCaseOpen)
    {
      fetched := currentView == Dashboard;
      if fetched && result.Some? && result.value.items.Some? {
        cases := result.value.items.value;
      }
    }

    method HandleOpenCase(c: Case)
      modifies this
      ensures selectedCase == Some(c) && currentView == CaseDetailsView
      ensures cases == old(cases) && isCreateCaseOpen == old(isCreateCaseOpen)
    {
      selectedCase := Some(c);
      currentView := CaseDetailsView;
    }

    method HandleNewCase()
      modifies this
      ensures isCreateCaseOpen
      ensures cases == old(cases) && currentView == old(currentView) && selectedCase == old(selectedCase)
    {
      isCreateCaseOpen := true;
    }

    /** `handleCaseCreated`. `created` is the API's answer (`None` on failure). */
    method HandleCaseCreated(created: Option<Case>)
      modifies this
      ensures created.Some? ==> cases == [created.value] + old(cases) && !isCreateCaseOpen
      ensures created.None? ==> cases == old(cases) && isCreateCaseOpen == old(isCreateCaseOpen)
      ensures currentView == old(currentView) && selectedCase == old(selectedCase)
    {
      if created.Some? {
        cases := [created.value] + cases;
        isCreateCaseOpen := false;
      }
    }

    method HandleBackToDashboard()
      modifies this
      ensures currentView == Dashboard && selectedCase.None?
      ensures cases == old(cases) && isCreateCaseOpen == old(isCreateCaseOpen)
    {
      currentView := Dashboard;
      selectedCase := None;
    }

    /** `handleCaseUpdated`: every listed case with the same id is replaced,
        and the update becomes the selection. */
    method HandleCaseUpdated(u: Case)
      modifies this
      ensures cases == ReplaceById(old(cases), u)
      ensures selectedCase == Some(u)
      ensures currentView == old(currentView) && isCreateCaseOpen == old(isCreateCaseOpen)
    {
      cases := ReplaceById(cases, u);
      selectedCase := Some(u);
    }
  }

  /** `handleLogout`: persisted storage is cleared, then the in-memory store,
      and only then is the identity provider's logout popup opened. Returns
      the steps in order. */
  method HandleLogout(store: AuthStore.SessionStore) returns (steps: seq<LogoutStep>)
    modifies store
    ensures store.State() == AuthStore.SignedOut
    ensures steps == [ClearStorage, StoreLogout, LogoutPopup]
  {
    steps := [ClearStorage];
    store.Logout();
    steps := steps + [StoreLogout];
    steps := steps + [LogoutPopup];
  }
}
