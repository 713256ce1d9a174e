/** `dbUtils.paginate`, `dbUtils.search` and the JavaScript `Array.prototype.slice`
    they and the API routes page with. */
module DbUtils {
  import opened Wrappers
  import opened Seqs
  import opened Strings

  /** How `slice` resolves an index: a negative one counts from the end, and the
      result is clamped to `[0, len]`. */
  function SliceIndex(k: int, len: nat): (r: nat)
    ensures r <= len
    ensures 0 <= k <= len ==> r == k
    ensures k > len ==> r == len
    ensures k < 0 ==> r == if len + k < 0 then 0 else len + k
  {
    if k < 0 then (if len + k < 0 then 0 else len + k)
    else if k > len then len
    else k
  }

  /** `s.slice(start, end)`. */
  function JsSlice<T>(s: seq<T>, start: int, end: int): seq<T> {
    var from, to := SliceIndex(start, |s|), SliceIndex(end, |s|);
    if from < to then s[from..to] else []
  }

  /** The `{ items, total, hasMore }` answer of `paginate`. */
  datatype Page<T> = Page(items: seq<T>, total: nat, hasMore: bool)

  function StartIndex(page: int, limit: int): int {
    (page - 1) * limit
  }

  function EndIndex(page: int, limit: int): int {
    StartIndex(page, limit) + limit
  }

  /** `dbUtils.paginate(items, page, limit)`; the API routes inline the same computation. */
  function Paginate<T>(items: seq<T>, page: int, limit: int): Page<T> {
    Page(JsSlice(items, StartIndex(page, limit), EndIndex(page, limit)),
         |items|,
         EndIndex(page, limit) < |items|)
  }

  function Min(a: int, b: int): int {
    if a <= b then a else b
  }

  /** For a page number of at least 1 and a non-negative limit, the window
      `[(page-1)*limit, (page-1)*limit + limit)` of `items`, clipped to its length. */
  function Window<T>(items: seq<T>, page: int, limit: int): (w: seq<T>)
    requires page >= 1 && limit >= 0
    ensures |w| <= limit
  {
    var start := StartIndex(page, limit);
    assert start >= 0 by {
      assert page - 1 >= 0;
    }
    items[Min(start, |items|)..Min(start + limit, |items|)]
  }

  /** In that case the page is the window, `total` is the length of `items` and
      `hasMore` says the window ends before it. */
  lemma PaginateWindow<T>(items: seq<T>, page: int, limit: int)
    requires page >= 1 && limit >= 0
    ensures var p := Paginate(items, page, limit);
      && p.items == Window(items, page, limit)
      && p.total == |items|
      && (p.hasMore <==> StartIndex(page, limit) + limit < |items|)
  {
    var start := StartIndex(page, limit);
    assert start >= 0 by {
      assert page - 1 >= 0;
    }
  }

  /** `part` is the run of `whole` that starts at index `i`. */
  ghost predicate RunAt<T>(part: seq<T>, whole: seq<T>, i: int) {
    0 <= i && i + |part| <= |whole| && part == whole[i..i + |part|]
  }

  lemma SliceIndexMonotone(a: int, b: int, len: nat)
    requires a <= b
    ensures SliceIndex(b, len) - SliceIndex(a, len) <= b - a
  {
  }

  /** Whatever the arguments, the page is a contiguous run of `items`; with a
      non-negative limit it has at most `limit` elements. A page of 0 or less makes
      `slice` count from the end, and so does a negative limit, which can return
      almost everything: page 1 with limit -1 drops only the last item. */
  lemma PaginateBounded<T>(items: seq<T>, page: int, limit: int)
    ensures var p := Paginate(items, page, limit);
      && (limit >= 0 ==> |p.items| <= limit)
      && exists i :: RunAt(p.items, items, i)
  {
    var n := |items|;
    var start, end := StartIndex(page, limit), EndIndex(page, limit);
    var from, to := SliceIndex(start, n), SliceIndex(end, n);
    if limit >= 0 {
      SliceIndexMonotone(start, end, n);
    }
    assert Paginate(items, page, limit).items == JsSlice(items, start, end);
    if from < to {
      assert JsSlice(items, start, end) == items[from..to];
      assert RunAt(items[from..to], items, from);
    } else {
      assert RunAt([], items, 0);
    }
  }

  /** Some searched field of `item` is a string whose lower case contains `q`.
      A field that is not a string is `None` and never matches. */
  function AnyFieldContains<T>(item: T, fields: seq<T -> Option<string>>, q: string): (r: bool)
    ensures r <==> exists i :: 0 <= i < |fields| && fields[i](item).Some? && Contains(Lower(fields[i](item).value), q)
  {
    if fields == [] then false
    else
      var here := fields[0](item).Some? && Contains(Lower(fields[0](item).value), q);
      var rest := AnyFieldContains(item, fields[1..], q);
      assert forall i :: 1 <= i < |fields| ==> fields[i] == fields[1..][i - 1];
      here || rest
  }

  function MatchesQuery<T>(fields: seq<T -> Option<string>>, q: string): T -> bool {
    item => AnyFieldContains(item, fields, q)
  }

  /** `dbUtils.search(items, query, searchFields)`. */
  function Search<T>(items: seq<T>, query: string, fields: seq<T -> Option<string>>): seq<T> {
    if Trim(query) == "" then items
    else Filter(items, MatchesQuery(fields, Lower(query)))
  }

  /** A blank query (empty or all whitespace) returns the input unchanged. */
  lemma SearchBlank<T>(items: seq<T>, query: string, fields: seq<T -> Option<string>>)
    requires AllSpace(query)
    ensures Search(items, query, fields) == items
  {
    TrimEmptyIffBlank(query);
  }

  /** The search result keeps the order of the input: it is a sub-list of it. */
  lemma SearchOrder<T>(items: seq<T>, query: string, fields: seq<T -> Option<string>>)
    ensures IsSubsequence(Search(items, query, fields), items)
  {
    if Trim(query) == "" {
      SubsequenceReflexive(items);
    } else {
      FilterIsSubsequence(items, MatchesQuery(fields, Lower(query)));
    }
  }

  /** For a query that is not blank, an item is in the result exactly when it is in the
      input and one of its searched string fields, lower-cased, contains the lower-cased query. */
  lemma SearchMatches<T>(items: seq<T>, query: string, fields: seq<T -> Option<string>>)
    requires !AllSpace(query)
    ensures forall i :: 0 <= i < |Search(items, query, fields)| ==>
      Search(items, query, fields)[i] in items && AnyFieldContains(Search(items, query, fields)[i], fields, Lower(query))
    ensures forall i :: 0 <= i < |items| && AnyFieldContains(items[i], fields, Lower(query)) ==>
      items[i] in Search(items, query, fields)
  {
    TrimEmptyIffBlank(query);
  }
}
