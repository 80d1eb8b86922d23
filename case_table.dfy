/** The paged table of cases: page count, the rows of one page, and the
    Previous/Next buttons. */
module CaseTable {
  import opened Wrappers
  import opened Seqs

  /** `Math.ceil(n / pageSize)`. */
  function TotalPages(n: nat, pageSize: nat): (r: nat)
    requires pageSize > 0
    ensures r * pageSize >= n
    ensures r == 0 || (r - 1) * pageSize < n
  {
    (n + pageSize - 1) / pageSize
  }

  function Min(a: int, b: int): int {
    if a < b then a else b
  }

  /** `pageSize` consecutive entries from position `lo`, as `slice` takes them. */
  function Window<T>(cases: seq<T>, lo: int, pageSize: nat): (r: seq<T>)
    ensures |r| <= pageSize
    ensures lo >= 0 ==> r == cases[Min(lo, |cases|)..Min(lo + pageSize, |cases|)]
  {
    Slice(cases, lo, lo + pageSize)
  }

  /** Page `page` starts where page `page - 1` ends. This only supplies the
      multiplication step that `Page` and `PagesUpToIsPrefix` need. */
  lemma PageStart(page: int, pageSize: nat)
    ensures page * pageSize == (page - 1) * pageSize + pageSize
    ensures page >= 1 ==> (page - 1) * pageSize >= 0
  {
  }

  /** `cases.slice((page - 1) * pageSize, page * pageSize)`. */
  function Page<T>(cases: seq<T>, page: int, pageSize: nat): (r: seq<T>)
    ensures |r| <= pageSize
    ensures page >= 1 ==> r == cases[Min((page - 1) * pageSize, |cases|)..Min(page * pageSize, |cases|)]
  {
    PageStart(page, pageSize);
    Window(cases, (page - 1) * pageSize, pageSize)
  }

  /** Pages 1 to k, one after another. */
  function PagesUpTo<T>(cases: seq<T>, k: nat, pageSize: nat): seq<T> {
    if k == 0 then [] else PagesUpTo(cases, k - 1, pageSize) + Page(cases, k, pageSize)
  }

  lemma {:induction false} PagesUpToIsPrefix<T>(cases: seq<T>, k: nat, pageSize: nat)
    ensures PagesUpTo(cases, k, pageSize) == cases[..Min(k * pageSize, |cases|)]
  {
    if k > 0 {
      PagesUpToIsPrefix(cases, k - 1, pageSize);
      PageStart(k, pageSize);
      var lo := Min((k - 1) * pageSize, |cases|);
      var hi := Min(k * pageSize, |cases|);
      assert PagesUpTo(cases, k, pageSize) == cases[..lo] + cases[lo..hi];
      assert cases[..lo] + cases[lo..hi] == cases[..hi];
    }
  }

  /** Reading every page in turn shows the whole list once, in order. */
  lemma PagesCoverAll<T>(cases: seq<T>, pageSize: nat)
    requires pageSize > 0
    ensures PagesUpTo(cases, TotalPages(|cases|, pageSize), pageSize) == cases
  {
    PagesUpToIsPrefix(cases, TotalPages(|cases|, pageSize), pageSize);
  }

  datatype Button = Previous | Next

  predicate PreviousDisabled(page: int) {
    page == 1
  }

  predicate NextDisabled(page: int, totalPages: nat) {
    page == totalPages
  }

  /** The page a press leads to, or `None` when the button is disabled. */
  function Press(b: Button, page: int, totalPages: nat): (r: Option<int>)
    ensures r.None? <==> (if b == Previous then PreviousDisabled(page) else NextDisabled(page, totalPages))
    ensures r.Some? ==> r.value == (if b == Previous then page - 1 else page + 1)
  {
    match b
    case Previous => if page == 1 then None else Some(page - 1)
    case Next => if page == totalPages then None else Some(page + 1)
  }

  /** From a page within range, an enabled button keeps the page within range. */
  lemma PressStaysInRange(b: Button, page: int, totalPages: nat)
    requires 1 <= page <= totalPages
    ensures var r := Press(b, page, totalPages); r.Some? ==> 1 <= r.value <= totalPages
  {
  }

  /** With no cases there are no pages, and Next is never disabled: it leads
      past the last page indefinitely. */
  lemma NextNeverDisabledWhenEmpty(page: int, pageSize: nat)
    requires pageSize > 0 && page >= 1
    ensures TotalPages(0, pageSize) == 0
    ensures Press(Next, page, TotalPages(0, pageSize)) == Some(page + 1)
  {
  }
}
