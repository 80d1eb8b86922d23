/** The card grid of cases, revealed a few at a time with "Load More". */
module CaseGrid {
  import opened Seqs
  import opened ApiModels

  /** Cards shown and a loading placeholder are exclusive. */
  datatype GridView = LoadingCard | Cards(shown: seq<Case>, loadMore: bool)

  /** How many more cards one press of "Load More" reveals. */
  const LoadMoreStep := 6

  function Grid(cases: seq<Case>, visibleCards: int, loading: bool): (r: GridView)
    ensures loading <==> r.LoadingCard?
    ensures r.Cards? && visibleCards >= 0 ==>
      r.shown == cases[..if visibleCards < |cases| then visibleCards else |cases|]
    ensures r.Cards? ==> (r.loadMore <==> visibleCards < |cases|)
  {
    if loading then LoadingCard
    else Cards(Slice(cases, 0, visibleCards), visibleCards < |cases|)
  }

  /** The count handed to the parent when "Load More" is pressed. */
  function LoadMore(visibleCards: int): (r: int)
    ensures r - visibleCards == LoadMoreStep
  {
    visibleCards + LoadMoreStep
  }

  /** Pressing "Load More" keeps the cards already shown, in place, and adds
      the next ones, up to six. */
  lemma LoadMoreExtends(cases: seq<Case>, visibleCards: nat)
    requires visibleCards < |cases|
    ensures var before := Grid(cases, visibleCards, false).shown;
            var after := Grid(cases, LoadMore(visibleCards), false).shown;
      && before < after
      && |after| - |before| == if |cases| - visibleCards < LoadMoreStep then |cases| - visibleCards else LoadMoreStep
  {
  }

  /** Once all cards are shown the button disappears. */
  lemma AllShownHidesButton(cases: seq<Case>, visibleCards: nat)
    requires visibleCards >= |cases|
    ensures Grid(cases, visibleCards, false) == Cards(cases, false)
  {
    assert cases[..|cases|] == cases;
  }
}
