/** `GET` and `POST /api/sessions` (app/api/sessions/route.ts): sessions in schedule
    order filtered by status, type and difficulty, paged, each with its host's summary;
    and session creation. */
module ApiSessions {
  import opened Wrappers
  import opened Seqs
  import opened Strings
  import opened Sorting
  import opened Database
  import opened DbUtils
  import opened Api
  import opened Auth
  import opened ServerActions

  function StatusIs(status: string): Session -> bool
  {
    (s: Session) => s.status == status
  }

  function KindIs(kind: string): Session -> bool
  {
    (s: Session) => s.kind == kind
  }

  function DifficultyIs(difficulty: string): Session -> bool
  {
    (s: Session) => s.difficulty == difficulty
  }

  /** Type and difficulty have an "all" escape; status has none. */
  predicate Selects(param: Option<string>)
  {
    Truthy(param) && param.value != "all"
  }

  /** `findAll` (earliest first), then status whenever given, then type and difficulty
      unless missing or "all". */
  function Filtered(sessions: seq<Session>, status: Option<string>, kind: Option<string>,
                    difficulty: Option<string>): seq<Session>
  {
    var byStatus := FilterWhen(Truthy(status), SessionsFindAll(sessions), StatusIs(status.GetOr("")));
    var byKind := FilterWhen(Selects(kind), byStatus, KindIs(kind.GetOr("")));
    FilterWhen(Selects(difficulty), byKind, DifficultyIs(difficulty.GetOr("")))
  }

  /** A session with its `host`, null when no user has its `hostId`. */
  datatype SessionView = SessionView(session: Session, host: Option<UserSummary>)

  function WithHosts(sessions: seq<Session>, users: seq<User>): (r: seq<SessionView>)
    ensures |r| == |sessions|
    ensures forall i :: 0 <= i < |r| ==> r[i].session == sessions[i] && r[i].host == SummaryOf(users, sessions[i].hostId)
  {
    seq(|sessions|, i requires 0 <= i < |sessions| => SessionView(sessions[i], SummaryOf(users, sessions[i].hostId)))
  }

  /** The answer; a NaN page or limit is echoed as null. */
  datatype SessionsPage = SessionsPage(sessions: seq<SessionView>, total: nat, page: Option<int>, limit: Option<int>, hasMore: bool)

  function Get(sessions: seq<Session>, users: seq<User>, status: Option<string>, kind: Option<string>,
               difficulty: Option<string>, page: IntQuery, limit: IntQuery): SessionsPage
  {
    var p, l := IntParam(page, 1), IntParam(limit, 10);
    var found := RoutePage(Filtered(sessions, status, kind, difficulty), p, l);
    SessionsPage(WithHosts(found.items, users), found.total, p, l, found.hasMore)
  }

  /** A session survives exactly when it is stored and matches every filter that applies;
      status applies whenever given, so status "all" keeps only sessions whose status is
      "all", while type or difficulty "all" keeps everything. */
  lemma FilteredMembers(sessions: seq<Session>, status: Option<string>, kind: Option<string>, difficulty: Option<string>)
    ensures forall s :: s in Filtered(sessions, status, kind, difficulty) <==>
      (s in sessions
       && (Truthy(status) ==> s.status == status.value)
       && (Selects(kind) ==> s.kind == kind.value)
       && (Selects(difficulty) ==> s.difficulty == difficulty.value))
  {
    var all := SessionsFindAll(sessions);
    var byStatus := FilterWhen(Truthy(status), all, StatusIs(status.GetOr("")));
    var byKind := FilterWhen(Selects(kind), byStatus, KindIs(kind.GetOr("")));
    SessionsFindAllMembers(sessions);
    FilterWhenMembers(Truthy(status), all, StatusIs(status.GetOr("")));
    FilterWhenMembers(Selects(kind), byStatus, KindIs(kind.GetOr("")));
    FilterWhenMembers(Selects(difficulty), byKind, DifficultyIs(difficulty.GetOr("")));
  }

  /** The filters keep `findAll`'s order, so the list stays earliest `scheduledAt` first. */
  lemma FilteredOrder(sessions: seq<Session>, status: Option<string>, kind: Option<string>, difficulty: Option<string>)
    ensures IsSubsequence(Filtered(sessions, status, kind, difficulty), SessionsFindAll(sessions))
    ensures var f := Filtered(sessions, status, kind, difficulty);
      forall i, j :: 0 <= i < j < |f| ==> f[i].scheduledAt <= f[j].scheduledAt
  {
    var all := SessionsFindAll(sessions);
    var byStatus := FilterWhen(Truthy(status), all, StatusIs(status.GetOr("")));
    var byKind := FilterWhen(Selects(kind), byStatus, KindIs(kind.GetOr("")));
    var f := FilterWhen(Selects(difficulty), byKind, DifficultyIs(difficulty.GetOr("")));
    assert f == Filtered(sessions, status, kind, difficulty);
    FilterWhenIsSubsequence(Truthy(status), all, StatusIs(status.GetOr("")));
    FilterWhenIsSubsequence(Selects(kind), byStatus, KindIs(kind.GetOr("")));
    FilterWhenIsSubsequence(Selects(difficulty), byKind, DifficultyIs(difficulty.GetOr("")));
    SubsequenceTransitive(byKind, byStatus, all);
    SubsequenceTransitive(f, byKind, all);
    SortBySorted(sessions, ScheduledAt);
    FilterWhenSorted(Truthy(status), all, StatusIs(status.GetOr("")), ScheduledAt);
    FilterWhenSorted(Selects(kind), byStatus, KindIs(kind.GetOr("")), ScheduledAt);
    FilterWhenSorted(Selects(difficulty), byKind, DifficultyIs(difficulty.GetOr("")), ScheduledAt);
    assert forall i, j :: 0 <= i < j < |f| ==> ScheduledAt(f[i]) <= ScheduledAt(f[j]);
  }

  /** The answer pages the filtered list and attaches each session's host; `total` is
      the filtered count. For a page of at least 1 and a non-negative limit the sessions
      are the window of that list and `hasMore` says the window ends before it; a page or
      limit that is not a number gives no sessions and no more. */
  lemma GetPage(sessions: seq<Session>, users: seq<User>, status: Option<string>, kind: Option<string>,
                difficulty: Option<string>, page: IntQuery, limit: IntQuery)
    requires page.Digits? ==> page.n >= 1
    requires limit.Digits? ==> limit.n >= 0
    ensures var f := Filtered(sessions, status, kind, difficulty);
      var p, l := IntParam(page, 1), IntParam(limit, 10);
      var g := Get(sessions, users, status, kind, difficulty, page, limit);
      && g.total == |f| && g.page == p && g.limit == l
      && (p.Some? && l.Some? ==>
            g.sessions == WithHosts(Window(f, p.value, l.value), users)
            && (g.hasMore <==> StartIndex(p.value, l.value) + l.value < |f|))
      && (p.None? || l.None? ==> g.sessions == [] && !g.hasMore)
  {
    var p, l := IntParam(page, 1), IntParam(limit, 10);
    if p.Some? && l.Some? {
      PaginateWindow(Filtered(sessions, status, kind, difficulty), p.value, l.value);
    }
  }

  const MissingFields := "Title, description, type, difficulty, and scheduled time are required"

  /** `POST`: 401 without a session, 400 when a required field is missing; otherwise the
      session is stored with duration `|| 3600`, `maxParticipants || 20`, no participants
      and status "upcoming". `parseDate` stands for `new Date(scheduledAt)`. */
  method Post(auth: AuthState, sessions: Table<Session>, title: Option<string>, description: Option<string>,
              kind: Option<string>, difficulty: Option<string>, duration: Option<int>, maxParticipants: Option<int>,
              scheduledAt: Option<string>, parseDate: string -> int, id: string, now: int) returns (r: Response<Session>)
    modifies sessions
    ensures auth.currentUser.None? ==> r == Error(401, AuthenticationRequired) && sessions.rows == old(sessions.rows)
    ensures (auth.currentUser.Some?
      && (!Truthy(title) || !Truthy(description) || !Truthy(kind) || !Truthy(difficulty) || !Truthy(scheduledAt))) ==>
      r == Error(400, MissingFields)
      && sessions.rows == old(sessions.rows)
    ensures (auth.currentUser.Some?
      && Truthy(title) && Truthy(description) && Truthy(kind) && Truthy(difficulty) && Truthy(scheduledAt)) ==>
      var s := SessionFromForm(id, title.value, description.value, kind.value, difficulty.value, duration,
                               maxParticipants, auth.currentUser.value.id, parseDate(scheduledAt.value), now);
      r == Ok(s) && sessions.rows == old(sessions.rows) + [s]
  {
    var user := auth.GetCurrentUser();
    if user.None? {
      return Error(401, AuthenticationRequired);
    }
    if !Truthy(title) || !Truthy(description) || !Truthy(kind) || !Truthy(difficulty) || !Truthy(scheduledAt) {
      return Error(400, MissingFields);
    }
    var s := sessions.Create(SessionFromForm(id, title.value, description.value, kind.value, difficulty.value,
                                             duration, maxParticipants, user.value.id, parseDate(scheduledAt.value), now));
    r := Ok(s);
  }
}
