/** The form handlers of lib/server-actions.ts: field checks in the order the source makes
    them, the `parseInt(...) || default` defaults, tag splitting, and the store and session
    changes each action makes once its checks pass. A form field is `None` when
    `formData.get` gives null; a number field is already parsed, `None` standing for NaN. */
module ServerActions {
  import opened Wrappers
  import opened Seqs
  import opened Strings
  import opened Database
  import opened Auth

  /** What an action resolves to: an `{ error }`, a `{ success, value }`, or a redirect. */
  datatype Outcome<T> = Failure(error: string) | Success(value: T) | Redirect(location: string)

  const LoginFieldsMissing := "Email and password are required"
  const InvalidCredentials := "Invalid credentials"
  const AllFieldsRequired := "All fields are required"
  const PasswordTooShort := "Password must be at least 6 characters long"
  const UsernameTaken := "Registration failed. Username may already exist."
  const RoomFieldsMissing := "Name, description, and language are required"
  const ContentRequired := "Content is required"
  const ProfileUpdateFailed := "Failed to update profile"
  const Dashboard := "/dashboard"
  const LoginRetry := "Login failed. Please try again."
  const RegisterRetry := "Registration failed. Please try again."

  /** `tagsString ? tagsString.split(",").map(tag => tag.trim()) : []`. */
  function ParseTags(tagsString: Option<string>): (tags: seq<string>)
    ensures !Truthy(tagsString) ==> tags == []
    ensures Truthy(tagsString) ==>
      |tags| == |Split(tagsString.value, ',')|
      && forall i :: 0 <= i < |tags| ==> tags[i] == Trim(Split(tagsString.value, ',')[i])
  {
    if Truthy(tagsString) then Map(Split(tagsString.value, ','), Trim) else []
  }

  /** A present tag string gives one trimmed tag per comma-separated piece: one more tag
      than it has commas, empty pieces included, and no tag holds a comma or starts or
      ends with whitespace. */
  lemma ParseTagsSpec(tagsString: string)
    requires tagsString != ""
    ensures |ParseTags(Some(tagsString))| == Count(tagsString, ',') + 1
    ensures forall i :: 0 <= i < |ParseTags(Some(tagsString))| ==>
      var t := ParseTags(Some(tagsString))[i];
      ',' !in t && (t != "" ==> !IsSpace(t[0]) && !IsSpace(t[|t| - 1]))
  {
    SplitCount(tagsString, ',');
    var pieces := Split(tagsString, ',');
    forall i | 0 <= i < |pieces|
      ensures ',' !in Trim(pieces[i])
    {
      TrimInside(pieces[i], ',');
    }
  }

  /** The room `createRoomAction` stores. */
  function RoomFromForm(id: string, name: string, description: string, language: string,
                        isPrivate: Option<string>, maxParticipants: Option<int>, hostId: string, now: int): (r: Room)
    ensures r.id == id && r.name == name && r.description == description && r.language == language
    ensures r.isPrivate <==> isPrivate == Some("true")
    ensures r.maxParticipants == OrDefault(maxParticipants, 10)
    ensures r.currentParticipants == 1 && r.hostId == hostId
    ensures r.createdAt == now && r.updatedAt == now
  {
    Room(id, name, description, language, isPrivate == Some("true"), OrDefault(maxParticipants, 10), 1, hostId, now, now)
  }

  /** The drop `createDropAction` stores. */
  function DropFromForm(id: string, content: string, tags: Option<string>, authorId: string, now: int): (d: Drop)
    ensures d.id == id && d.content == Trim(content) && d.tags == ParseTags(tags) && d.authorId == authorId
    ensures d.likes == 0 && d.comments == 0
    ensures d.createdAt == now && d.updatedAt == now
  {
    Drop(id, Trim(content), authorId, 0, 0, ParseTags(tags), now, now)
  }

  /** The session `createSessionAction` stores; `scheduledAt` is the parsed date. */
  function SessionFromForm(id: string, title: string, description: string, kind: string, difficulty: string,
                           duration: Option<int>, maxParticipants: Option<int>, hostId: string,
                           scheduledAt: int, now: int): (s: Session)
    ensures s.id == id && s.title == title && s.description == description && s.kind == kind
    ensures s.difficulty == difficulty && s.hostId == hostId && s.scheduledAt == scheduledAt
    ensures s.duration == OrDefault(duration, 3600) && s.maxParticipants == OrDefault(maxParticipants, 20)
    ensures s.currentParticipants == 0 && s.status == "upcoming"
    ensures s.createdAt == now && s.updatedAt == now
  {
    Session(id, title, description, kind, difficulty, OrDefault(duration, 3600), OrDefault(maxParticipants, 20),
            0, hostId, scheduledAt, "upcoming", now, now)
  }

  /** The patch `updateProfileAction` sends: the four fields, each overwritten, a missing
      field with null. */
  function ProfilePatch(bio: Option<string>, githubUsername: Option<string>, linkedinUrl: Option<string>,
                        redditUsername: Option<string>): (p: UserPatch)
    ensures p.bio == Some(bio) && p.githubUsername == Some(githubUsername)
    ensures p.linkedinUrl == Some(linkedinUrl) && p.redditUsername == Some(redditUsername)
    ensures p.id.None? && p.username.None? && p.email.None? && p.avatar.None?
    ensures p.level.None? && p.xp.None? && p.reputation.None? && p.createdAt.None?
  {
    NoUserChanges.(bio := Some(bio), githubUsername := Some(githubUsername),
                   linkedinUrl := Some(linkedinUrl), redditUsername := Some(redditUsername))
  }

  /** `loginAction`: both fields must be filled before `auth.login` is asked; a refused
      login is InvalidCredentials and a successful one goes to the dashboard. */
  method LoginAction(auth: AuthState, email: Option<string>, password: Option<string>, now: int)
    returns (r: Outcome<AuthUser>)
    modifies auth`currentUser
    ensures !Truthy(email) || !Truthy(password) ==>
      r == Failure(LoginFieldsMissing) && auth.currentUser == old(auth.currentUser)
    ensures Truthy(email) && Truthy(password) ==>
      var found := FindByUsername(auth.users.rows, UsernameOf(email.value));
      && (found.None? || Utf16Length(password.value) < 6 ==> r == Failure(InvalidCredentials) && auth.currentUser == old(auth.currentUser))
      && (found.Some? && Utf16Length(password.value) >= 6 ==> r == Redirect(Dashboard) && auth.currentUser == Some(Project(found.value)))
  {
    if !Truthy(email) || !Truthy(password) {
      return Failure(LoginFieldsMissing);
    }
    var result := auth.Login(email.value, password.value, now);
    if result.None? {
      return Failure(InvalidCredentials);
    }
    r := Redirect(Dashboard);
  }

  /** `registerAction`: missing fields, then a short password, are refused before
      `auth.register` is called; a taken username is refused by it. */
  method RegisterAction(auth: AuthState, username: Option<string>, email: Option<string>, password: Option<string>,
                        id: string, now: int) returns (r: Outcome<AuthUser>)
    modifies auth`currentUser, auth.users
    ensures !Truthy(username) || !Truthy(email) || !Truthy(password) ==>
      r == Failure(AllFieldsRequired) && auth.users.rows == old(auth.users.rows)
      && auth.currentUser == old(auth.currentUser)
    ensures Truthy(username) && Truthy(email) && Truthy(password) && Utf16Length(password.value) < 6 ==>
      r == Failure(PasswordTooShort) && auth.users.rows == old(auth.users.rows)
      && auth.currentUser == old(auth.currentUser)
    ensures Truthy(username) && Truthy(email) && Truthy(password) && Utf16Length(password.value) >= 6 ==>
      && (FindByUsername(old(auth.users.rows), username.value).Some? ==>
            r == Failure(UsernameTaken)
            && auth.users.rows == old(auth.users.rows) && auth.currentUser == old(auth.currentUser))
      && (FindByUsername(old(auth.users.rows), username.value).None? ==>
            var u := NewUser(id, username.value, email.value, now);
            r == Redirect(Dashboard) && auth.users.rows == old(auth.users.rows) + [u]
            && auth.currentUser == Some(Project(u)))
  {
    if !Truthy(username) || !Truthy(email) || !Truthy(password) {
      return Failure(AllFieldsRequired);
    }
    if Utf16Length(password.value) < 6 {
      return Failure(PasswordTooShort);
    }
    var result := auth.Register(username.value, email.value, password.value, id, now);
    if result.None? {
      return Failure(UsernameTaken);
    }
    r := Redirect(Dashboard);
  }

  /** `loginAction` as written: `redirect()` throws to redirect, and it runs inside the
      `try`, so its throw lands in the `catch`. A successful login therefore leaves the
      user logged in and still answers LoginRetry. */
  method LoginActionAsWritten(auth: AuthState, email: Option<string>, password: Option<string>, now: int)
    returns (r: Outcome<AuthUser>)
    modifies auth`currentUser
    ensures !r.Redirect?
    ensures !Truthy(email) || !Truthy(password) ==>
      r == Failure(LoginFieldsMissing) && auth.currentUser == old(auth.currentUser)
    ensures Truthy(email) && Truthy(password) ==>
      var found := FindByUsername(auth.users.rows, UsernameOf(email.value));
      && (found.None? || Utf16Length(password.value) < 6 ==> r == Failure(InvalidCredentials) && auth.currentUser == old(auth.currentUser))
      && (found.Some? && Utf16Length(password.value) >= 6 ==> r == Failure(LoginRetry) && auth.currentUser == Some(Project(found.value)))
  {
    r := LoginAction(auth, email, password, now);
    if r.Redirect? {
      r := Failure(LoginRetry);
    }
  }

  /** `registerAction` as written: the same caught redirect, so a new account is created
      and logged in while the answer is RegisterRetry. */
  method RegisterActionAsWritten(auth: AuthState, username: Option<string>, email: Option<string>,
                                 password: Option<string>, id: string, now: int) returns (r: Outcome<AuthUser>)
    modifies auth`currentUser, auth.users
    ensures !r.Redirect?
    ensures !Truthy(username) || !Truthy(email) || !Truthy(password) ==>
      r == Failure(AllFieldsRequired) && auth.users.rows == old(auth.users.rows)
      && auth.currentUser == old(auth.currentUser)
    ensures Truthy(username) && Truthy(email) && Truthy(password) && Utf16Length(password.value) < 6 ==>
      r == Failure(PasswordTooShort) && auth.users.rows == old(auth.users.rows)
      && auth.currentUser == old(auth.currentUser)
    ensures Truthy(username) && Truthy(email) && Truthy(password) && Utf16Length(password.value) >= 6 ==>
      && (FindByUsername(old(auth.users.rows), username.value).Some? ==>
            r == Failure(UsernameTaken)
            && auth.users.rows == old(auth.users.rows) && auth.currentUser == old(auth.currentUser))
      && (FindByUsername(old(auth.users.rows), username.value).None? ==>
            var u := NewUser(id, username.value, email.value, now);
            r == Failure(RegisterRetry) && auth.users.rows == old(auth.users.rows) + [u]
            && auth.currentUser == Some(Project(u)))
  {
    r := RegisterAction(auth, username, email, password, id, now);
    if r.Redirect? {
      r := Failure(RegisterRetry);
    }
  }

  /** A stored "alice" signing in as alice@devhive.io with "secret": as written they are
      logged in and told that the login failed; the intended action redirects them. */
  method LoginRedirectSwallowed(alice: User, now: int) returns (written: Outcome<AuthUser>, intended: Outcome<AuthUser>, loggedIn: bool)
    requires alice.username == "alice"
    ensures written == Failure(LoginRetry) && loggedIn
    ensures intended == Redirect(Dashboard)
  {
    UsernameOfAddress("alice", "devhive.io");
    assert "alice@devhive.io" == "alice" + "@" + "devhive.io";
    assert Utf16Length("secret") >= 6;
    var users := new Table(UserId, [alice]);
    var auth := new AuthState(users);
    written := LoginActionAsWritten(auth, Some("alice@devhive.io"), Some("secret"), now);
    loggedIn := auth.IsAuthenticated();
    var other := new Table(UserId, [alice]);
    var second := new AuthState(other);
    intended := LoginAction(second, Some("alice@devhive.io"), Some("secret"), now);
  }

  /** `logoutAction`: ends the session and goes to the home page. */
  method LogoutAction(auth: AuthState) returns (r: Outcome<AuthUser>)
    modifies auth`currentUser
    ensures r == Redirect("/") && !auth.IsAuthenticated()
  {
    auth.Logout();
    r := Redirect("/");
  }

  /** `createRoomAction`: authentication first, then name, description and language. */
  method CreateRoomAction(auth: AuthState, rooms: Table<Room>, name: Option<string>, description: Option<string>,
                          language: Option<string>, isPrivate: Option<string>, maxParticipants: Option<int>,
                          id: string, now: int) returns (r: Outcome<Room>)
    modifies rooms
    ensures auth.currentUser.None? ==> r == Failure(AuthenticationRequired) && rooms.rows == old(rooms.rows)
    ensures auth.currentUser.Some? && (!Truthy(name) || !Truthy(description) || !Truthy(language)) ==>
      r == Failure(RoomFieldsMissing) && rooms.rows == old(rooms.rows)
    ensures auth.currentUser.Some? && Truthy(name) && Truthy(description) && Truthy(language) ==>
      var room := RoomFromForm(id, name.value, description.value, language.value, isPrivate, maxParticipants,
                               auth.currentUser.value.id, now);
      r == Success(room) && rooms.rows == old(rooms.rows) + [room]
  {
    var user := auth.GetCurrentUser();
    if user.None? {
      return Failure(AuthenticationRequired);
    }
    if !Truthy(name) || !Truthy(description) || !Truthy(language) {
      return Failure(RoomFieldsMissing);
    }
    var room := rooms.Create(RoomFromForm(id, name.value, description.value, language.value, isPrivate,
                                          maxParticipants, user.value.id, now));
    r := Success(room);
  }

  /** `createDropAction`: authentication first, then non-blank content; the drop is stored
      and its author is awarded 50 XP. */
  method CreateDropAction(auth: AuthState, drops: Table<Drop>, content: Option<string>, tags: Option<string>,
                          id: string, now: int) returns (r: Outcome<Drop>)
    requires auth.Valid()
    modifies drops, auth`currentUser, auth.users
    ensures old(auth.currentUser).None? ==>
      r == Failure(AuthenticationRequired) && drops.rows == old(drops.rows)
      && auth.users.rows == old(auth.users.rows) && auth.currentUser == old(auth.currentUser)
    ensures old(auth.currentUser).Some? && (!Truthy(content) || Trim(content.value) == "") ==>
      r == Failure(ContentRequired) && drops.rows == old(drops.rows)
      && auth.users.rows == old(auth.users.rows) && auth.currentUser == old(auth.currentUser)
    ensures old(auth.currentUser).Some? && Truthy(content) && Trim(content.value) != "" ==>
      var user := old(auth.currentUser).value;
      var drop := DropFromForm(id, content.value, tags, user.id, now);
      var i := old(auth.users.IndexOf(user.id));
      && r == Success(drop) && drops.rows == old(drops.rows) + [drop]
      && (i.None? ==> auth.users.rows == old(auth.users.rows) && auth.currentUser == old(auth.currentUser))
      && (i.Some? ==>
            auth.users.rows == old(auth.users.rows)[i.value := MergeUser(old(auth.users.rows)[i.value], XpPatch(user.xp + 50), now)]
            && auth.currentUser == Some(Project(auth.users.rows[i.value])))
  {
    var user := auth.GetCurrentUser();
    if user.None? {
      return Failure(AuthenticationRequired);
    }
    if !Truthy(content) || Trim(content.value) == "" {
      return Failure(ContentRequired);
    }
    var drop := drops.Create(DropFromForm(id, content.value, tags, user.value.id, now));
    var _ := auth.AddXP(50, now);
    r := Success(drop);
  }

  /** `createSessionAction`: authentication first, then every required field;
      `parseDate` stands for `new Date(scheduledAt)`. */
  method CreateSessionAction(auth: AuthState, sessions: Table<Session>, title: Option<string>,
                             description: Option<string>, kind: Option<string>, difficulty: Option<string>,
                             duration: Option<int>, maxParticipants: Option<int>, scheduledAt: Option<string>,
                             parseDate: string -> int, id: string, now: int) returns (r: Outcome<Session>)
    modifies sessions
    ensures auth.currentUser.None? ==> r == Failure(AuthenticationRequired) && sessions.rows == old(sessions.rows)
    ensures (auth.currentUser.Some?
      && (!Truthy(title) || !Truthy(description) || !Truthy(kind) || !Truthy(difficulty) || !Truthy(scheduledAt))) ==>
      r == Failure(AllFieldsRequired) && sessions.rows == old(sessions.rows)
    ensures (auth.currentUser.Some?
      && Truthy(title) && Truthy(description) && Truthy(kind) && Truthy(difficulty) && Truthy(scheduledAt)) ==>
      var s := SessionFromForm(id, title.value, description.value, kind.value, difficulty.value, duration,
                               maxParticipants, auth.currentUser.value.id, parseDate(scheduledAt.value), now);
      r == Success(s) && sessions.rows == old(sessions.rows) + [s]
  {
    var user := auth.GetCurrentUser();
    if user.None? {
      return Failure(AuthenticationRequired);
    }
    if !Truthy(title) || !Truthy(description) || !Truthy(kind) || !Truthy(difficulty) || !Truthy(scheduledAt) {
      return Failure(AllFieldsRequired);
    }
    var s := sessions.Create(SessionFromForm(id, title.value, description.value, kind.value, difficulty.value,
                                             duration, maxParticipants, user.value.id, parseDate(scheduledAt.value), now));
    r := Success(s);
  }

  /** `updateProfileAction`: authentication first; the four profile fields are written as
      given, and a vanished user record is ProfileUpdateFailed. */
  method UpdateProfileAction(auth: AuthState, bio: Option<string>, githubUsername: Option<string>,
                             linkedinUrl: Option<string>, redditUsername: Option<string>, now: int)
    returns (r: Outcome<AuthUser>)
    requires auth.Valid()
    modifies auth`currentUser, auth.users
    ensures old(auth.currentUser).None? ==>
      r == Failure(AuthenticationRequired) && auth.users.rows == old(auth.users.rows) && auth.currentUser.None?
    ensures old(auth.currentUser).Some? ==>
      var i := old(auth.users.IndexOf(auth.currentUser.value.id));
      && (i.None? ==> r == Failure(ProfileUpdateFailed) && auth.users.rows == old(auth.users.rows)
                      && auth.currentUser == old(auth.currentUser))
      && (i.Some? ==>
            var u := MergeUser(old(auth.users.rows)[i.value], ProfilePatch(bio, githubUsername, linkedinUrl, redditUsername), now);
            auth.users.rows == old(auth.users.rows)[i.value := u]
            && r == Success(Project(u)) && auth.currentUser == Some(Project(u)))
  {
    var user := auth.GetCurrentUser();
    if user.None? {
      return Failure(AuthenticationRequired);
    }
    var updated := auth.UpdateProfile(ProfilePatch(bio, githubUsername, linkedinUrl, redditUsername), now);
    if updated.None? {
      return Failure(ProfileUpdateFailed);
    }
    r := Success(updated.value);
  }
}
