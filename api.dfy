/** What the API route handlers under app/api share: the JSON answer with its HTTP status,
    the `{ id, username, avatar, level }` summary they attach for a session's host or a
    drop's author, and how they read defaulted query parameters. */
module Api {
  import opened Wrappers
  import opened Seqs
  import opened Sorting
  import opened Database
  import opened DbUtils

  /** A `NextResponse.json(...)`: a success body, or `{ error }` with its status. */
  datatype Response<T> = Ok(body: T) | Error(status: int, message: string)

  datatype UserSummary = UserSummary(id: string, username: string, avatar: Option<string>, level: int)

  function Summary(u: User): (s: UserSummary)
    ensures s.id == u.id && s.username == u.username && s.avatar == u.avatar && s.level == u.level
  {
    UserSummary(u.id, u.username, u.avatar, u.level)
  }

  /** The summary of the user with id `id`, or null when no user has it. */
  function SummaryOf(users: seq<User>, id: string): (r: Option<UserSummary>)
    ensures r.None? <==> forall j :: 0 <= j < |users| ==> users[j].id != id
    ensures r.Some? ==> exists i :: (0 <= i < |users| && users[i].id == id && r.value == Summary(users[i])
      && forall j :: 0 <= j < i ==> users[j].id != id)
  {
    match FindById(users, UserId, id)
    case None => None
    case Some(u) => Some(Summary(u))
  }

  /** A numeric query parameter as the routes read it,
      `Number.parseInt(searchParams.get(name) || fallback)`: `Absent` when it is missing or
      empty, so the fallback is parsed; `Digits(n)` when it parses to `n`; `NotANumber`
      when it does not parse. */
  datatype IntQuery = Absent | Digits(n: int) | NotANumber

  /** The number the route computes with; `None` is NaN. */
  function IntParam(q: IntQuery, fallback: int): (r: Option<int>)
    ensures q.Absent? ==> r == Some(fallback)
    ensures q.Digits? ==> r == Some(q.n)
    ensures q.NotANumber? ==> r.None?
  {
    match q
    case Absent => Some(fallback)
    case Digits(n) => Some(n)
    case NotANumber => None
  }

  /** The paging the routes inline: `slice((page - 1) * limit, (page - 1) * limit + limit)`
      with `hasMore: endIndex < length`, where `None` is NaN. A NaN bound makes `slice`
      start and end at 0, and a comparison with NaN is false, so a NaN page or limit gives
      an empty page without more to come. */
  function RoutePage<T>(items: seq<T>, page: Option<int>, limit: Option<int>): (r: Page<T>)
    ensures r.total == |items|
    ensures page.None? || limit.None? ==> r.items == [] && !r.hasMore
    ensures page.Some? && limit.Some? ==> r == Paginate(items, page.value, limit.value)
  {
    if page.Some? && limit.Some? then Paginate(items, page.value, limit.value)
    else Page([], |items|, false)
  }

  /** A filter applied only when its switch is on, as the routes' `if (...) list = list.filter(...)`. */
  function FilterWhen<T>(on: bool, s: seq<T>, p: T -> bool): (r: seq<T>)
    ensures !on ==> r == s
    ensures on ==> r == Filter(s, p)
  {
    if on then Filter(s, p) else s
  }

  lemma FilterWhenMembers<T>(on: bool, s: seq<T>, p: T -> bool)
    ensures forall x :: x in FilterWhen(on, s, p) <==> x in s && (on ==> p(x))
  {
    FilterMembers(s, p);
  }

  lemma FilterWhenIsSubsequence<T>(on: bool, s: seq<T>, p: T -> bool)
    ensures IsSubsequence(FilterWhen(on, s, p), s)
  {
    if on {
      FilterIsSubsequence(s, p);
    } else {
      SubsequenceReflexive(s);
    }
  }

  lemma FilterWhenSorted<T>(on: bool, s: seq<T>, p: T -> bool, key: T -> int)
    requires SortedBy(s, key)
    ensures SortedBy(FilterWhen(on, s, p), key)
  {
    if on {
      FilterSorted(s, p, key);
    }
  }
}
