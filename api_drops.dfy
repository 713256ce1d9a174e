/** `GET` and `POST /api/drops` (app/api/drops/route.ts): newest-first drops filtered by
    tag and by a search over content and tags, paged, each with its author's summary;
    and drop creation with its XP award. */
module ApiDrops {
  import opened Wrappers
  import opened Seqs
  import opened Strings
  import opened Sorting
  import opened Database
  import opened DbUtils
  import opened Api
  import opened Auth

  /** `drop.tags.includes(tag)`: an exact, case-sensitive match. */
  function HasTag(tag: string): Drop -> bool
  {
    (d: Drop) => tag in d.tags
  }

  /** `tags.some(tag => tag.toLowerCase().includes(q))`. */
  function AnyTagContains(tags: seq<string>, q: string): (r: bool)
    ensures r <==> exists i :: 0 <= i < |tags| && Contains(Lower(tags[i]), q)
  {
    if tags == [] then false
    else
      assert forall i :: 1 <= i < |tags| ==> tags[i] == tags[1..][i - 1];
      Contains(Lower(tags[0]), q) || AnyTagContains(tags[1..], q)
  }

  function DropMatches(q: string): Drop -> bool
  {
    (d: Drop) => Contains(Lower(d.content), q) || AnyTagContains(d.tags, q)
  }

  predicate TagFiltering(tag: Option<string>)
  {
    Truthy(tag) && tag.value != "all"
  }

  /** `findAll` (newest first), then the tag filter unless the tag is missing or "all",
      then the search for any non-empty query, untrimmed. */
  function Filtered(drops: seq<Drop>, tag: Option<string>, search: Option<string>): seq<Drop>
  {
    FilterWhen(Truthy(search),
      FilterWhen(TagFiltering(tag), DropsFindAll(drops), HasTag(tag.GetOr(""))),
      DropMatches(Lower(search.GetOr(""))))
  }

  /** A drop with its `author`, null when no user has its `authorId`. */
  datatype DropView = DropView(drop: Drop, author: Option<UserSummary>)

  function WithAuthors(drops: seq<Drop>, users: seq<User>): (r: seq<DropView>)
    ensures |r| == |drops|
    ensures forall i :: 0 <= i < |r| ==> r[i].drop == drops[i] && r[i].author == SummaryOf(users, drops[i].authorId)
  {
    seq(|drops|, i requires 0 <= i < |drops| => DropView(drops[i], SummaryOf(users, drops[i].authorId)))
  }

  /** The answer; a NaN page or limit is echoed as null. */
  datatype DropsPage = DropsPage(drops: seq<DropView>, total: nat, page: Option<int>, limit: Option<int>, hasMore: bool)

  function Get(drops: seq<Drop>, users: seq<User>, tag: Option<string>, search: Option<string>,
               page: IntQuery, limit: IntQuery): DropsPage
  {
    var p, l := IntParam(page, 1), IntParam(limit, 10);
    var found := RoutePage(Filtered(drops, tag, search), p, l);
    DropsPage(WithAuthors(found.items, users), found.total, p, l, found.hasMore)
  }

  /** A drop survives exactly when it is stored, carries the tag when one applies, and
      matches the query in its content or one of its tags when there is one. */
  lemma FilteredMembers(drops: seq<Drop>, tag: Option<string>, search: Option<string>)
    ensures forall d :: d in Filtered(drops, tag, search) <==>
      (d in drops
       && (TagFiltering(tag) ==> tag.value in d.tags)
       && (Truthy(search) ==> Contains(Lower(d.content), Lower(search.value)) || AnyTagContains(d.tags, Lower(search.value))))
  {
    var all := DropsFindAll(drops);
    DropsFindAllMembers(drops);
    var byTag := FilterWhen(TagFiltering(tag), all, HasTag(tag.GetOr("")));
    FilterWhenMembers(TagFiltering(tag), all, HasTag(tag.GetOr("")));
    FilterWhenMembers(Truthy(search), byTag, DropMatches(Lower(search.GetOr(""))));
  }

  /** The filters keep `findAll`'s order, so the list stays newest first. */
  lemma FilteredOrder(drops: seq<Drop>, tag: Option<string>, search: Option<string>)
    ensures IsSubsequence(Filtered(drops, tag, search), DropsFindAll(drops))
    ensures var f := Filtered(drops, tag, search);
      forall i, j :: 0 <= i < j < |f| ==> f[i].createdAt >= f[j].createdAt
  {
    var all := DropsFindAll(drops);
    var byTag := FilterWhen(TagFiltering(tag), all, HasTag(tag.GetOr("")));
    FilterWhenIsSubsequence(TagFiltering(tag), all, HasTag(tag.GetOr("")));
    FilterWhenIsSubsequence(Truthy(search), byTag, DropMatches(Lower(search.GetOr(""))));
    SubsequenceTransitive(Filtered(drops, tag, search), byTag, all);
    SortBySorted(drops, NewestFirst);
    FilterWhenSorted(TagFiltering(tag), all, HasTag(tag.GetOr("")), NewestFirst);
    FilterWhenSorted(Truthy(search), byTag, DropMatches(Lower(search.GetOr(""))), NewestFirst);
    var f := Filtered(drops, tag, search);
    assert SortedBy(f, NewestFirst);
    assert forall i, j :: 0 <= i < j < |f| ==> NewestFirst(f[i]) <= NewestFirst(f[j]);
  }

  /** The answer pages the filtered list and attaches each drop's author; `total` is the
      filtered count. For a page of at least 1 and a non-negative limit the drops are the
      window of that list and `hasMore` says the window ends before it; a page or limit
      that is not a number gives no drops and no more. */
  lemma GetPage(drops: seq<Drop>, users: seq<User>, tag: Option<string>, search: Option<string>,
                page: IntQuery, limit: IntQuery)
    requires page.Digits? ==> page.n >= 1
    requires limit.Digits? ==> limit.n >= 0
    ensures var f := Filtered(drops, tag, search);
      var p, l := IntParam(page, 1), IntParam(limit, 10);
      var g := Get(drops, users, tag, search, page, limit);
      && g.total == |f| && g.page == p && g.limit == l
      && (p.Some? && l.Some? ==>
            g.drops == WithAuthors(Window(f, p.value, l.value), users)
            && (g.hasMore <==> StartIndex(p.value, l.value) + l.value < |f|))
      && (p.None? || l.None? ==> g.drops == [] && !g.hasMore)
  {
    var p, l := IntParam(page, 1), IntParam(limit, 10);
    if p.Some? && l.Some? {
      PaginateWindow(Filtered(drops, tag, search), p.value, l.value);
    }
  }

  /** The drop `POST` stores: trimmed content, `tags || []`, no likes, no comments. */
  function NewDrop(id: string, content: string, tags: Option<seq<string>>, authorId: string, now: int): (d: Drop)
    ensures d.id == id && d.content == Trim(content) && d.authorId == authorId
    ensures d.tags == tags.GetOr([]) && d.likes == 0 && d.comments == 0
    ensures d.createdAt == now && d.updatedAt == now
  {
    Drop(id, Trim(content), authorId, 0, 0, tags.GetOr([]), now, now)
  }

  const ContentRequired := "Content is required"

  /** `POST`: 401 without a session, 400 for missing or blank content; otherwise the
      drop is stored and `auth.addXP(50)` runs. */
  method Post(auth: AuthState, drops: Table<Drop>, content: Option<string>, tags: Option<seq<string>>,
              id: string, now: int) returns (r: Response<Drop>)
    requires auth.Valid()
    modifies drops, auth`currentUser, auth.users
    ensures old(auth.currentUser).None? ==>
      r == Error(401, AuthenticationRequired) && drops.rows == old(drops.rows)
      && auth.users.rows == old(auth.users.rows) && auth.currentUser == old(auth.currentUser)
    ensures old(auth.currentUser).Some? && (!Truthy(content) || Trim(content.value) == "") ==>
      r == Error(400, ContentRequired) && drops.rows == old(drops.rows)
      && auth.users.rows == old(auth.users.rows) && auth.currentUser == old(auth.currentUser)
    ensures old(auth.currentUser).Some? && Truthy(content) && Trim(content.value) != "" ==>
      var user := old(auth.currentUser).value;
      var drop := NewDrop(id, content.value, tags, user.id, now);
      var i := old(auth.users.IndexOf(user.id));
      && r == Ok(drop) && drops.rows == old(drops.rows) + [drop]
      && (i.None? ==> auth.users.rows == old(auth.users.rows) && auth.currentUser == old(auth.currentUser))
      && (i.Some? ==>
            auth.users.rows == old(auth.users.rows)[i.value := MergeUser(old(auth.users.rows)[i.value], XpPatch(user.xp + 50), now)]
            && auth.currentUser == Some(Project(auth.users.rows[i.value])))
  {
    var user := auth.GetCurrentUser();
    if user.None? {
      return Error(401, AuthenticationRequired);
    }
    if !Truthy(content) || Trim(content.value) == "" {
      return Error(400, ContentRequired);
    }
    var drop := drops.Create(NewDrop(id, content.value, tags, user.value.id, now));
    var _ := auth.AddXP(50, now);
    r := Ok(drop);
  }
}
