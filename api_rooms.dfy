/** `GET` and `POST /api/rooms` (app/api/rooms/route.ts): the language filter, the search
    over name and description, the page slice, and room creation. */
module ApiRooms {
  import opened Wrappers
  import opened Seqs
  import opened Strings
  import opened Database
  import opened DbUtils
  import opened Api
  import opened Auth

  function LanguageIs(language: string): Room -> bool
  {
    (r: Room) => r.language == language
  }

  /** The search test of the route: the lower-cased name or description contains `q`. */
  function RoomMatches(q: string): Room -> bool
  {
    (r: Room) => Contains(Lower(r.name), q) || Contains(Lower(r.description), q)
  }

  predicate LanguageFiltering(language: Option<string>)
  {
    Truthy(language) && language.value != "all"
  }

  /** The filtered list: exact language (unless missing or "all"), then a search that
      runs for any non-empty query, untrimmed. */
  function Filtered(rooms: seq<Room>, language: Option<string>, search: Option<string>): seq<Room>
  {
    FilterWhen(Truthy(search),
      FilterWhen(LanguageFiltering(language), rooms, LanguageIs(language.GetOr(""))),
      RoomMatches(Lower(search.GetOr(""))))
  }

  /** The `{ rooms, total, page, limit, hasMore }` answer; a NaN page or limit is
      echoed as null. */
  datatype RoomsPage = RoomsPage(rooms: seq<Room>, total: nat, page: Option<int>, limit: Option<int>, hasMore: bool)

  function Get(rooms: seq<Room>, language: Option<string>, search: Option<string>,
               page: IntQuery, limit: IntQuery): RoomsPage
  {
    var p, l := IntParam(page, 1), IntParam(limit, 10);
    var found := RoutePage(Filtered(rooms, language, search), p, l);
    RoomsPage(found.items, found.total, p, l, found.hasMore)
  }

  /** A room survives the filters exactly when it is stored, has the requested language
      when one applies, and matches the query when there is one; the stored order is kept. */
  lemma FilteredSpec(rooms: seq<Room>, language: Option<string>, search: Option<string>)
    ensures forall r :: r in Filtered(rooms, language, search) <==>
      (r in rooms
       && (LanguageFiltering(language) ==> r.language == language.value)
       && (Truthy(search) ==> Contains(Lower(r.name), Lower(search.value)) || Contains(Lower(r.description), Lower(search.value))))
    ensures IsSubsequence(Filtered(rooms, language, search), rooms)
  {
    var byLanguage := FilterWhen(LanguageFiltering(language), rooms, LanguageIs(language.GetOr("")));
    FilterWhenMembers(LanguageFiltering(language), rooms, LanguageIs(language.GetOr("")));
    FilterWhenMembers(Truthy(search), byLanguage, RoomMatches(Lower(search.GetOr(""))));
    FilterWhenIsSubsequence(LanguageFiltering(language), rooms, LanguageIs(language.GetOr("")));
    FilterWhenIsSubsequence(Truthy(search), byLanguage, RoomMatches(Lower(search.GetOr(""))));
    SubsequenceTransitive(Filtered(rooms, language, search), byLanguage, rooms);
  }

  /** The answer pages the filtered list, and `total` is the filtered count. For a page
      of at least 1 and a non-negative limit (defaults 1 and 10) the rooms are the window
      `[(page-1)*limit, (page-1)*limit + limit)` of that list and `hasMore` says the window
      ends before it; a page or limit that is not a number gives no rooms and no more. */
  lemma GetPage(rooms: seq<Room>, language: Option<string>, search: Option<string>, page: IntQuery, limit: IntQuery)
    requires page.Digits? ==> page.n >= 1
    requires limit.Digits? ==> limit.n >= 0
    ensures var f := Filtered(rooms, language, search);
      var p, l := IntParam(page, 1), IntParam(limit, 10);
      var g := Get(rooms, language, search, page, limit);
      && g.total == |f| && g.page == p && g.limit == l
      && (p.Some? && l.Some? ==>
            g.rooms == Window(f, p.value, l.value) && (g.hasMore <==> StartIndex(p.value, l.value) + l.value < |f|))
      && (p.None? || l.None? ==> g.rooms == [] && !g.hasMore)
  {
    var p, l := IntParam(page, 1), IntParam(limit, 10);
    if p.Some? && l.Some? {
      PaginateWindow(Filtered(rooms, language, search), p.value, l.value);
    }
  }

  /** The room `POST` stores: `isPrivate || false`, `maxParticipants || 10`, one
      participant, hosted by the caller. */
  function NewRoom(id: string, name: string, description: string, language: string, isPrivate: Option<bool>,
                   maxParticipants: Option<int>, hostId: string, now: int): (r: Room)
    ensures r.id == id && r.name == name && r.description == description && r.language == language
    ensures r.isPrivate <==> isPrivate == Some(true)
    ensures r.maxParticipants == OrDefault(maxParticipants, 10)
    ensures r.currentParticipants == 1 && r.hostId == hostId
    ensures r.createdAt == now && r.updatedAt == now
  {
    Room(id, name, description, language, isPrivate == Some(true), OrDefault(maxParticipants, 10), 1, hostId, now, now)
  }

  const MissingFields := "Name, description, and language are required"

  /** `POST`: 401 without a session, 400 when name, description or language is missing. */
  method Post(auth: AuthState, rooms: Table<Room>, name: Option<string>, description: Option<string>,
              language: Option<string>, isPrivate: Option<bool>, maxParticipants: Option<int>,
              id: string, now: int) returns (r: Response<Room>)
    modifies rooms
    ensures auth.currentUser.None? ==> r == Error(401, AuthenticationRequired) && rooms.rows == old(rooms.rows)
    ensures auth.currentUser.Some? && (!Truthy(name) || !Truthy(description) || !Truthy(language)) ==>
      r == Error(400, MissingFields) && rooms.rows == old(rooms.rows)
    ensures auth.currentUser.Some? && Truthy(name) && Truthy(description) && Truthy(language) ==>
      var room := NewRoom(id, name.value, description.value, language.value, isPrivate, maxParticipants,
                          auth.currentUser.value.id, now);
      r == Ok(room) && rooms.rows == old(rooms.rows) + [room]
  {
    var user := auth.GetCurrentUser();
    if user.None? {
      return Error(401, AuthenticationRequired);
    }
    if !Truthy(name) || !Truthy(description) || !Truthy(language) {
      return Error(400, MissingFields);
    }
    var room := rooms.Create(NewRoom(id, name.value, description.value, language.value, isPrivate,
                                     maxParticipants, user.value.id, now));
    r := Ok(room);
  }
}
