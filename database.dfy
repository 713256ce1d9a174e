/** The array-backed mock store of lib/database.ts: one table per entity, each a list of
    records that `create` appends to, `update` rewrites in place and `delete` splices.
    Dates are plain integers (milliseconds); ids and "now" are supplied by the caller. */
module Database {
  import opened Wrappers
  import opened Seqs
  import opened Sorting

  datatype User = User(
    id: string, username: string, email: string, avatar: Option<string>, bio: Option<string>,
    level: int, xp: int, reputation: int,
    githubUsername: Option<string>, linkedinUrl: Option<string>, redditUsername: Option<string>,
    createdAt: int, updatedAt: int)

  datatype Room = Room(
    id: string, name: string, description: string, language: string, isPrivate: bool,
    maxParticipants: int, currentParticipants: int, hostId: string, createdAt: int, updatedAt: int)

  datatype Drop = Drop(
    id: string, content: string, authorId: string, likes: int, comments: int, tags: seq<string>,
    createdAt: int, updatedAt: int)

  /** `kind` is the source's `type` field. */
  datatype Session = Session(
    id: string, title: string, description: string, kind: string, difficulty: string,
    duration: int, maxParticipants: int, currentParticipants: int, hostId: string,
    scheduledAt: int, status: string, createdAt: int, updatedAt: int)

  datatype Achievement = Achievement(
    id: string, name: string, description: string, icon: string, category: string,
    xpReward: int, createdAt: int)

  function UserId(u: User): string { u.id }
  function RoomId(r: Room): string { r.id }
  function DropId(d: Drop): string { d.id }
  function SessionId(s: Session): string { s.id }
  function AchievementId(a: Achievement): string { a.id }

  /** A `Partial<User>`: `None` leaves a field alone. An optional field can be supplied
      as an explicit null, so its patch is `Some(None)`. A supplied `updatedAt` is
      always overridden by the update, so a patch does not carry one. */
  datatype UserPatch = UserPatch(
    id: Option<string>, username: Option<string>, email: Option<string>,
    avatar: Option<Option<string>>, bio: Option<Option<string>>,
    level: Option<int>, xp: Option<int>, reputation: Option<int>,
    githubUsername: Option<Option<string>>, linkedinUrl: Option<Option<string>>,
    redditUsername: Option<Option<string>>, createdAt: Option<int>)

  datatype RoomPatch = RoomPatch(
    id: Option<string>, name: Option<string>, description: Option<string>, language: Option<string>,
    isPrivate: Option<bool>, maxParticipants: Option<int>, currentParticipants: Option<int>,
    hostId: Option<string>, createdAt: Option<int>)

  datatype DropPatch = DropPatch(
    id: Option<string>, content: Option<string>, authorId: Option<string>, likes: Option<int>,
    comments: Option<int>, tags: Option<seq<string>>, createdAt: Option<int>)

  datatype SessionPatch = SessionPatch(
    id: Option<string>, title: Option<string>, description: Option<string>, kind: Option<string>,
    difficulty: Option<string>, duration: Option<int>, maxParticipants: Option<int>,
    currentParticipants: Option<int>, hostId: Option<string>, scheduledAt: Option<int>,
    status: Option<string>, createdAt: Option<int>)

  const NoUserChanges := UserPatch(None, None, None, None, None, None, None, None, None, None, None, None)

  /** `{ ...u, ...p, updatedAt: now }`. */
  function MergeUser(u: User, p: UserPatch, now: int): (r: User)
    ensures r.updatedAt == now
    ensures p.id.Some? ==> r.id == p.id.value
    ensures p.id.None? ==> r.id == u.id
    ensures p.username.Some? ==> r.username == p.username.value
    ensures p.username.None? ==> r.username == u.username
    ensures p.email.Some? ==> r.email == p.email.value
    ensures p.email.None? ==> r.email == u.email
    ensures p.avatar.Some? ==> r.avatar == p.avatar.value
    ensures p.avatar.None? ==> r.avatar == u.avatar
    ensures p.bio.Some? ==> r.bio == p.bio.value
    ensures p.bio.None? ==> r.bio == u.bio
    ensures p.level.Some? ==> r.level == p.level.value
    ensures p.level.None? ==> r.level == u.level
    ensures p.xp.Some? ==> r.xp == p.xp.value
    ensures p.xp.None? ==> r.xp == u.xp
    ensures p.reputation.Some? ==> r.reputation == p.reputation.value
    ensures p.reputation.None? ==> r.reputation == u.reputation
    ensures p.githubUsername.Some? ==> r.githubUsername == p.githubUsername.value
    ensures p.githubUsername.None? ==> r.githubUsername == u.githubUsername
    ensures p.linkedinUrl.Some? ==> r.linkedinUrl == p.linkedinUrl.value
    ensures p.linkedinUrl.None? ==> r.linkedinUrl == u.linkedinUrl
    ensures p.redditUsername.Some? ==> r.redditUsername == p.redditUsername.value
    ensures p.redditUsername.None? ==> r.redditUsername == u.redditUsername
    ensures p.createdAt.Some? ==> r.createdAt == p.createdAt.value
    ensures p.createdAt.None? ==> r.createdAt == u.createdAt
  {
    u.(id := p.id.GetOr(u.id), username := p.username.GetOr(u.username),
       email := p.email.GetOr(u.email), avatar := p.avatar.GetOr(u.avatar), bio := p.bio.GetOr(u.bio),
       level := p.level.GetOr(u.level), xp := p.xp.GetOr(u.xp), reputation := p.reputation.GetOr(u.reputation),
       githubUsername := p.githubUsername.GetOr(u.githubUsername), linkedinUrl := p.linkedinUrl.GetOr(u.linkedinUrl),
       redditUsername := p.redditUsername.GetOr(u.redditUsername), createdAt := p.createdAt.GetOr(u.createdAt),
       updatedAt := now)
  }

  /** An update that supplies nothing still stamps `updatedAt` and changes nothing else. */
  lemma MergeUserNothing(u: User, now: int)
    ensures MergeUser(u, NoUserChanges, now) == u.(updatedAt := now)
  {
  }

  /** Applying the same update twice is applying it once (at the later time). */
  lemma MergeUserIdempotent(u: User, p: UserPatch, t1: int, t2: int)
    ensures MergeUser(MergeUser(u, p, t1), p, t2) == MergeUser(u, p, t2)
  {
  }

  function MergeRoom(r0: Room, p: RoomPatch, now: int): (r: Room)
    ensures r.updatedAt == now
    ensures p.id.Some? ==> r.id == p.id.value
    ensures p.id.None? ==> r.id == r0.id
    ensures p.name.Some? ==> r.name == p.name.value
    ensures p.name.None? ==> r.name == r0.name
    ensures p.description.Some? ==> r.description == p.description.value
    ensures p.description.None? ==> r.description == r0.description
    ensures p.language.Some? ==> r.language == p.language.value
    ensures p.language.None? ==> r.language == r0.language
    ensures p.isPrivate.Some? ==> r.isPrivate == p.isPrivate.value
    ensures p.isPrivate.None? ==> r.isPrivate == r0.isPrivate
    ensures p.maxParticipants.Some? ==> r.maxParticipants == p.maxParticipants.value
    ensures p.maxParticipants.None? ==> r.maxParticipants == r0.maxParticipants
    ensures p.currentParticipants.Some? ==> r.currentParticipants == p.currentParticipants.value
    ensures p.currentParticipants.None? ==> r.currentParticipants == r0.currentParticipants
    ensures p.hostId.Some? ==> r.hostId == p.hostId.value
    ensures p.hostId.None? ==> r.hostId == r0.hostId
    ensures p.createdAt.Some? ==> r.createdAt == p.createdAt.value
    ensures p.createdAt.None? ==> r.createdAt == r0.createdAt
  {
    r0.(id := p.id.GetOr(r0.id), name := p.name.GetOr(r0.name), description := p.description.GetOr(r0.description),
        language := p.language.GetOr(r0.language), isPrivate := p.isPrivate.GetOr(r0.isPrivate),
        maxParticipants := p.maxParticipants.GetOr(r0.maxParticipants),
        currentParticipants := p.currentParticipants.GetOr(r0.currentParticipants),
        hostId := p.hostId.GetOr(r0.hostId), createdAt := p.createdAt.GetOr(r0.createdAt), updatedAt := now)
  }

  function MergeDrop(d: Drop, p: DropPatch, now: int): (r: Drop)
    ensures r.updatedAt == now
    ensures p.id.Some? ==> r.id == p.id.value
    ensures p.id.None? ==> r.id == d.id
    ensures p.content.Some? ==> r.content == p.content.value
    ensures p.content.None? ==> r.content == d.content
    ensures p.authorId.Some? ==> r.authorId == p.authorId.value
    ensures p.authorId.None? ==> r.authorId == d.authorId
    ensures p.likes.Some? ==> r.likes == p.likes.value
    ensures p.likes.None? ==> r.likes == d.likes
    ensures p.comments.Some? ==> r.comments == p.comments.value
    ensures p.comments.None? ==> r.comments == d.comments
    ensures p.tags.Some? ==> r.tags == p.tags.value
    ensures p.tags.None? ==> r.tags == d.tags
    ensures p.createdAt.Some? ==> r.createdAt == p.createdAt.value
    ensures p.createdAt.None? ==> r.createdAt == d.createdAt
  {
    d.(id := p.id.GetOr(d.id), content := p.content.GetOr(d.content), authorId := p.authorId.GetOr(d.authorId),
       likes := p.likes.GetOr(d.likes), comments := p.comments.GetOr(d.comments), tags := p.tags.GetOr(d.tags),
       createdAt := p.createdAt.GetOr(d.createdAt), updatedAt := now)
  }

  function MergeSession(s: Session, p: SessionPatch, now: int): (r: Session)
    ensures r.updatedAt == now
    ensures p.id.Some? ==> r.id == p.id.value
    ensures p.id.None? ==> r.id == s.id
    ensures p.title.Some? ==> r.title == p.title.value
    ensures p.title.None? ==> r.title == s.title
    ensures p.description.Some? ==> r.description == p.description.value
    ensures p.description.None? ==> r.description == s.description
    ensures p.kind.Some? ==> r.kind == p.kind.value
    ensures p.kind.None? ==> r.kind == s.kind
    ensures p.difficulty.Some? ==> r.difficulty == p.difficulty.value
    ensures p.difficulty.None? ==> r.difficulty == s.difficulty
    ensures p.duration.Some? ==> r.duration == p.duration.value
    ensures p.duration.None? ==> r.duration == s.duration
    ensures p.maxParticipants.Some? ==> r.maxParticipants == p.maxParticipants.value
    ensures p.maxParticipants.None? ==> r.maxParticipants == s.maxParticipants
    ensures p.currentParticipants.Some? ==> r.currentParticipants == p.currentParticipants.value
    ensures p.currentParticipants.None? ==> r.currentParticipants == s.currentParticipants
    ensures p.hostId.Some? ==> r.hostId == p.hostId.value
    ensures p.hostId.None? ==> r.hostId == s.hostId
    ensures p.scheduledAt.Some? ==> r.scheduledAt == p.scheduledAt.value
    ensures p.scheduledAt.None? ==> r.scheduledAt == s.scheduledAt
    ensures p.status.Some? ==> r.status == p.status.value
    ensures p.status.None? ==> r.status == s.status
    ensures p.createdAt.Some? ==> r.createdAt == p.createdAt.value
    ensures p.createdAt.None? ==> r.createdAt == s.createdAt
  {
    s.(id := p.id.GetOr(s.id), title := p.title.GetOr(s.title), description := p.description.GetOr(s.description),
       kind := p.kind.GetOr(s.kind), difficulty := p.difficulty.GetOr(s.difficulty),
       duration := p.duration.GetOr(s.duration), maxParticipants := p.maxParticipants.GetOr(s.maxParticipants),
       currentParticipants := p.currentParticipants.GetOr(s.currentParticipants), hostId := p.hostId.GetOr(s.hostId),
       scheduledAt := p.scheduledAt.GetOr(s.scheduledAt), status := p.status.GetOr(s.status),
       createdAt := p.createdAt.GetOr(s.createdAt), updatedAt := now)
  }

  function HasId<T>(idOf: T -> string, id: string): T -> bool {
    r => idOf(r) == id
  }

  /** `findById`: the first record whose id is `id`, or null when none has it. */
  function FindById<T>(rows: seq<T>, idOf: T -> string, id: string): (r: Option<T>)
    ensures r.None? <==> forall j :: 0 <= j < |rows| ==> idOf(rows[j]) != id
    ensures r.Some? ==> exists i :: (0 <= i < |rows| && rows[i] == r.value && idOf(rows[i]) == id
      && forall j :: 0 <= j < i ==> idOf(rows[j]) != id)
  {
    Find(rows, HasId(idOf, id))
  }

  /** One table: a list of records updated in place, with the id of a record given by `idOf`. */
  class Table<T> {
    var rows: seq<T>
    const idOf: T -> string

    constructor (idOf: T -> string, rows: seq<T>)
      ensures this.idOf == idOf && this.rows == rows
    {
      this.idOf := idOf;
      this.rows := rows;
    }

    /** `findIndex`: the index of the first record with id `id`, None for the source's -1. */
    function IndexOf(id: string): (r: Option<nat>)
      reads this
      ensures r.Some? ==> (r.value < |rows| && idOf(rows[r.value]) == id
        && forall j :: 0 <= j < r.value ==> idOf(rows[j]) != id)
      ensures r.None? <==> forall j :: 0 <= j < |rows| ==> idOf(rows[j]) != id
    {
      FirstIndex(rows, HasId(idOf, id))
    }

    /** `create`: appends the record at the end and returns it; earlier records stay. */
    method Create(record: T) returns (r: T)
      modifies this
      ensures rows == old(rows) + [record]
      ensures r == record
    {
      rows := rows + [record];
      r := record;
    }

    /** `update`: replaces the first record with id `id` by `merge` of it and returns the
        new record; with no such record it returns null and changes nothing. */
    method Update(id: string, merge: T -> T) returns (r: Option<T>)
      modifies this
      ensures old(IndexOf(id)).None? ==> r.None? && rows == old(rows)
      ensures old(IndexOf(id)).Some? ==>
        var i := old(IndexOf(id)).value;
        rows == old(rows)[i := merge(old(rows)[i])] && r == Some(rows[i])
    {
      var i := IndexOf(id);
      if i.None? {
        return None;
      }
      rows := rows[i.value := merge(rows[i.value])];
      r := Some(rows[i.value]);
    }

    /** `delete`: removes the first record with id `id`, keeping the others in order, and
        returns true; with no such record it returns false and changes nothing. */
    method Delete(id: string) returns (ok: bool)
      modifies this
      ensures ok <==> old(IndexOf(id)).Some?
      ensures ok ==> rows == RemoveAt(old(rows), old(IndexOf(id)).value)
      ensures !ok ==> rows == old(rows)
    {
      var i := IndexOf(id);
      if i.None? {
        return false;
      }
      rows := RemoveAt(rows, i.value);
      ok := true;
    }
  }

  /** The module-level tables of the store. Achievements are only ever read. */
  class Store {
    const users: Table<User>
    const rooms: Table<Room>
    const drops: Table<Drop>
    const sessions: Table<Session>
    const achievements: seq<Achievement>

    constructor (users: seq<User>, rooms: seq<Room>, drops: seq<Drop>, sessions: seq<Session>,
                 achievements: seq<Achievement>)
      ensures this.users.idOf == UserId && this.rooms.idOf == RoomId
      ensures this.drops.idOf == DropId && this.sessions.idOf == SessionId
      ensures fresh(this.users) && fresh(this.rooms) && fresh(this.drops) && fresh(this.sessions)
      ensures this.users.rows == users && this.rooms.rows == rooms && this.drops.rows == drops
      ensures this.sessions.rows == sessions && this.achievements == achievements
    {
      this.users := new Table(UserId, users);
      this.rooms := new Table(RoomId, rooms);
      this.drops := new Table(DropId, drops);
      this.sessions := new Table(SessionId, sessions);
      this.achievements := achievements;
    }
  }

  /** `users.findByUsername`: the first user with that username, or null. */
  function FindByUsername(users: seq<User>, username: string): (r: Option<User>)
    ensures r.None? <==> forall j :: 0 <= j < |users| ==> users[j].username != username
    ensures r.Some? ==> exists i :: (0 <= i < |users| && users[i] == r.value && r.value.username == username
      && forall j :: 0 <= j < i ==> users[j].username != username)
  {
    Find(users, (u: User) => u.username == username)
  }

  /** `rooms.findByHost`: the rooms hosted by `hostId`, in stored order. */
  function RoomsByHost(rooms: seq<Room>, hostId: string): (r: seq<Room>)
    ensures forall i :: 0 <= i < |r| ==> r[i] in rooms && r[i].hostId == hostId
    ensures forall i :: 0 <= i < |rooms| && rooms[i].hostId == hostId ==> rooms[i] in r
    ensures IsSubsequence(r, rooms)
  {
    var keep := (room: Room) => room.hostId == hostId;
    FilterIsSubsequence(rooms, keep);
    Filter(rooms, keep)
  }

  /** `drops.findByAuthor`: the drops by `authorId`, in stored order. */
  function DropsByAuthor(drops: seq<Drop>, authorId: string): (r: seq<Drop>)
    ensures forall i :: 0 <= i < |r| ==> r[i] in drops && r[i].authorId == authorId
    ensures forall i :: 0 <= i < |drops| && drops[i].authorId == authorId ==> drops[i] in r
    ensures IsSubsequence(r, drops)
  {
    var keep := (d: Drop) => d.authorId == authorId;
    FilterIsSubsequence(drops, keep);
    Filter(drops, keep)
  }

  /** `sessions.findByHost`. */
  function SessionsByHost(sessions: seq<Session>, hostId: string): (r: seq<Session>)
    ensures forall i :: 0 <= i < |r| ==> r[i] in sessions && r[i].hostId == hostId
    ensures forall i :: 0 <= i < |sessions| && sessions[i].hostId == hostId ==> sessions[i] in r
    ensures IsSubsequence(r, sessions)
  {
    var keep := (s: Session) => s.hostId == hostId;
    FilterIsSubsequence(sessions, keep);
    Filter(sessions, keep)
  }

  /** `sessions.findByStatus`. */
  function SessionsByStatus(sessions: seq<Session>, status: string): (r: seq<Session>)
    ensures forall i :: 0 <= i < |r| ==> r[i] in sessions && r[i].status == status
    ensures forall i :: 0 <= i < |sessions| && sessions[i].status == status ==> sessions[i] in r
    ensures IsSubsequence(r, sessions)
  {
    var keep := (s: Session) => s.status == status;
    FilterIsSubsequence(sessions, keep);
    Filter(sessions, keep)
  }

  /** `achievements.findByCategory`: an exact, case-sensitive match. */
  function AchievementsByCategory(achievements: seq<Achievement>, category: string): (r: seq<Achievement>)
    ensures forall i :: 0 <= i < |r| ==> r[i] in achievements && r[i].category == category
    ensures forall i :: 0 <= i < |achievements| && achievements[i].category == category ==> achievements[i] in r
    ensures IsSubsequence(r, achievements)
  {
    var keep := (a: Achievement) => a.category == category;
    FilterIsSubsequence(achievements, keep);
    Filter(achievements, keep)
  }

  /** The sort key of `drops.findAll`, whose comparator `b - a` on `createdAt` puts the
      newest first. */
  function NewestFirst(d: Drop): int { -d.createdAt }

  function ScheduledAt(s: Session): int { s.scheduledAt }

  /** `drops.findAll`: a sorted copy; the stored list keeps its order. */
  function DropsFindAll(drops: seq<Drop>): seq<Drop> {
    SortBy(drops, NewestFirst)
  }

  /** `sessions.findAll`: a copy sorted by `scheduledAt`, earliest first. */
  function SessionsFindAll(sessions: seq<Session>): seq<Session> {
    SortBy(sessions, ScheduledAt)
  }

  /** `drops.findAll` returns every stored drop, each as often as it is stored, newest first. */
  lemma DropsFindAllSpec(drops: seq<Drop>)
    ensures multiset(DropsFindAll(drops)) == multiset(drops)
    ensures forall i, j :: 0 <= i < j < |drops| ==> DropsFindAll(drops)[i].createdAt >= DropsFindAll(drops)[j].createdAt
  {
    SortByPermutation(drops, NewestFirst);
    SortBySorted(drops, NewestFirst);
    var r := DropsFindAll(drops);
    assert forall i, j :: 0 <= i < j < |r| ==> NewestFirst(r[i]) <= NewestFirst(r[j]);
  }

  /** `sessions.findAll` returns every stored session, earliest `scheduledAt` first. */
  lemma SessionsFindAllSpec(sessions: seq<Session>)
    ensures multiset(SessionsFindAll(sessions)) == multiset(sessions)
    ensures forall i, j :: 0 <= i < j < |sessions| ==>
      SessionsFindAll(sessions)[i].scheduledAt <= SessionsFindAll(sessions)[j].scheduledAt
  {
    SortByPermutation(sessions, ScheduledAt);
    SortBySorted(sessions, ScheduledAt);
    var r := SessionsFindAll(sessions);
    assert forall i, j :: 0 <= i < j < |r| ==> ScheduledAt(r[i]) <= ScheduledAt(r[j]);
  }

  lemma DropsFindAllMembers(drops: seq<Drop>)
    ensures forall d :: d in DropsFindAll(drops) <==> d in drops
  {
    DropsFindAllSpec(drops);
    assert forall d :: d in DropsFindAll(drops) <==> d in multiset(DropsFindAll(drops));
  }

  lemma SessionsFindAllMembers(sessions: seq<Session>)
    ensures forall s :: s in SessionsFindAll(sessions) <==> s in sessions
  {
    SessionsFindAllSpec(sessions);
    assert forall s :: s in SessionsFindAll(sessions) <==> s in multiset(SessionsFindAll(sessions));
  }
}
