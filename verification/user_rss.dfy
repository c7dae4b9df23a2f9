/**
 * The Instagram profile object of `instagram_rss/instagram_user_rss.py`:
 * the session cookies, the one user lookup, and the properties that run
 * that lookup only while the field behind them is still `None`.
 *
 * The HTTP request is an oracle `fetch`: given the cookies and which of the
 * two lookups is sent, it gives the `user` object of the JSON answer. A
 * missing `user` object is a record whose fields are all `None`.
 */
module UserRss {
  import opened Wrappers
  import opened Strings

  /** A user id as the profile holds it: the value it was given, or the int the setter made of it. */
  datatype Id = IdText(text: string) | IdInt(n: int)

  /** Python truthiness of an optional user id. */
  predicate IdTruthy(id: Option<Id>) {
    match id
    case None => false
    case Some(IdText(s)) => s != ""
    case Some(IdInt(n)) => n != 0
  }

  /** `int(value)` in the `user_id` setter; `None` where Python raises ValueError. */
  function ToInt(id: Id): Option<int> {
    match id
    case IdInt(n) => Some(n)
    case IdText(s) => PyInt(s)
  }

  /** The request cookies: `sessionid` and `ds_user_id`, either of which may be `None`. */
  type Cookies = map<string, Option<string>>

  /** The two lookups of `_get_user_data`: by user id (line 44) or by username (line 48). */
  datatype Lookup = ById(id: Id) | ByUsername(name: string)

  /** The `user` object of a lookup answer; each key may be absent. */
  datatype UserRecord = UserRecord(
    id: Option<Id>,
    username: Option<string>,
    fullName: Option<string>,
    biography: Option<string>,
    followedByViewer: Option<bool>,
    isPrivate: Option<bool>,
    profilePicUrl: Option<string>)

  /** `UserNotFoundError`, or the ValueError of `int()` on an id that is not a number. */
  datatype LookupError = UserNotFound | InvalidUserId

  /** The seven fields behind the lazy properties; `None` means not known yet. */
  datatype Profile = Profile(
    userId: Option<Id>,
    username: Option<string>,
    fullName: Option<string>,
    biography: Option<string>,
    iconUrl: Option<string>,
    private: Option<bool>,
    followed: Option<bool>)

  /** The lazy properties of lines 66-110. */
  datatype Field = UserIdField | UsernameField | FullNameField | BiographyField | IconUrlField | PrivateField | FollowedField

  /** Whether the field behind a property is set, so that reading it fetches nothing. */
  predicate IsSet(p: Profile, f: Field) {
    match f
    case UserIdField => p.userId.Some?
    case UsernameField => p.username.Some?
    case FullNameField => p.fullName.Some?
    case BiographyField => p.biography.Some?
    case IconUrlField => p.iconUrl.Some?
    case PrivateField => p.private.Some?
    case FollowedField => p.followed.Some?
  }

  /** The request `_get_user_data` sends: by id when the id is truthy, else by username; none without either. */
  function LookupFor(p: Profile): (l: Option<Lookup>)
    ensures l.None? <==> !Truthy(p.username) && !IdTruthy(p.userId)
    ensures IdTruthy(p.userId) ==> l == Some(ById(p.userId.value))
    ensures !IdTruthy(p.userId) && Truthy(p.username) ==> l == Some(ByUsername(p.username.value))
  {
    if IdTruthy(p.userId) then Some(ById(p.userId.value))
    else if Truthy(p.username) then Some(ByUsername(p.username.value))
    else None
  }

  /**
   * `_get_user_data` (lines 37-64) as a function of the fields before it:
   * the fields after it, or the exception it raises (the fields then stay
   * as they were).
   */
  function UserData(p: Profile, cookies: Cookies, fetch: (Cookies, Lookup) -> UserRecord): (r: Result<Profile, LookupError>)
    // neither a username nor a user id: UserNotFoundError, without a request
    ensures LookupFor(p).None? ==> r == Err(UserNotFound)
    // an answer without a truthy id: UserNotFoundError
    ensures LookupFor(p).Some? && !IdTruthy(fetch(cookies, LookupFor(p).value).id) ==> r == Err(UserNotFound)
    // success: the id goes through int(), every other field is copied from the answer
    ensures r.Ok? ==>
      var user := fetch(cookies, LookupFor(p).value);
      LookupFor(p).Some? && IdTruthy(user.id) && ToInt(user.id.value).Some? &&
      r.value == Profile(Some(IdInt(ToInt(user.id.value).value)), user.username, user.fullName,
        user.biography, user.profilePicUrl, user.isPrivate, user.followedByViewer)
    // an answer with a truthy id that int() accepts succeeds
    ensures r.Ok? <==>
      LookupFor(p).Some? && IdTruthy(fetch(cookies, LookupFor(p).value).id) &&
      ToInt(fetch(cookies, LookupFor(p).value).id.value).Some?
    // a truthy id that int() rejects raises ValueError
    ensures r == Err(InvalidUserId) <==>
      LookupFor(p).Some? && IdTruthy(fetch(cookies, LookupFor(p).value).id) &&
      ToInt(fetch(cookies, LookupFor(p).value).id.value).None?
  {
    match LookupFor(p)
    case None => Err(UserNotFound)
    case Some(lookup) =>
      var user := fetch(cookies, lookup);
      if !IdTruthy(user.id) then Err(UserNotFound)
      else match ToInt(user.id.value)
        case None => Err(InvalidUserId)
        case Some(n) =>
          Ok(Profile(Some(IdInt(n)), user.username, user.fullName, user.biography,
            user.profilePicUrl, user.isPrivate, user.followedByViewer))
  }

  /** A property read: the fields as they are when its field is set, else after `_get_user_data`. */
  function Read(p: Profile, f: Field, cookies: Cookies, fetch: (Cookies, Lookup) -> UserRecord): (r: Result<Profile, LookupError>)
    ensures IsSet(p, f) ==> r == Ok(p)
    ensures !IsSet(p, f) ==> r == UserData(p, cookies, fetch)
  {
    if IsSet(p, f) then Ok(p) else UserData(p, cookies, fetch)
  }

  /** After a successful lookup the user id is an int, so `user_id` never fetches again. */
  lemma UserIdSettles(p: Profile, cookies: Cookies, fetch: (Cookies, Lookup) -> UserRecord)
    requires UserData(p, cookies, fetch).Ok?
    ensures UserData(p, cookies, fetch).value.userId.Some?
    ensures UserData(p, cookies, fetch).value.userId.value.IdInt?
  {
  }

  /**
   * A property whose read left its field set answers the next read with the
   * same fields, whatever the lookup would now return.
   */
  lemma ReadIsStable(p: Profile, f: Field, cookies: Cookies,
                     fetch: (Cookies, Lookup) -> UserRecord, later: (Cookies, Lookup) -> UserRecord)
    requires Read(p, f, cookies, fetch).Ok? && IsSet(Read(p, f, cookies, fetch).value, f)
    ensures Read(Read(p, f, cookies, fetch).value, f, cookies, later) == Read(p, f, cookies, fetch)
  {
  }

  /** The fields after a read of `f`: those `Read` gives, or the fields before it when the lookup failed. */
  function AfterRead(p: Profile, f: Field, cookies: Cookies, fetch: (Cookies, Lookup) -> UserRecord): (q: Profile)
    ensures IsSet(p, f) ==> q == p
    ensures !IsSet(p, f) && Read(p, f, cookies, fetch).Ok? ==> IsSet(q, UserIdField)
  {
    var r := Read(p, f, cookies, fetch);
    if r.Ok? then r.value else p
  }

  /** The lookups a read of `f` sends: one when the field is unset and a lookup can be formed, else none. */
  function SentBy(p: Profile, f: Field): (sent: seq<Lookup>)
    ensures |sent| <= 1
    ensures IsSet(p, f) ==> sent == []
  {
    if !IsSet(p, f) && LookupFor(p).Some? then [LookupFor(p).value] else []
  }

  /** Whether a lookup answer carries the key behind a property. */
  predicate Supplies(user: UserRecord, f: Field) {
    match f
    case UserIdField => user.id.Some?
    case UsernameField => user.username.Some?
    case FullNameField => user.fullName.Some?
    case BiographyField => user.biography.Some?
    case IconUrlField => user.profilePicUrl.Some?
    case PrivateField => user.isPrivate.Some?
    case FollowedField => user.followedByViewer.Some?
  }

  /**
   * After a successful lookup, a property other than `user_id` is settled
   * exactly when the answer carried its key. A key missing from the answer
   * leaves the field `None`, and the next read of that property sends the
   * lookup again.
   */
  lemma MissingKeyRefetches(p: Profile, f: Field, cookies: Cookies,
                            fetch: (Cookies, Lookup) -> UserRecord, later: (Cookies, Lookup) -> UserRecord)
    requires f != UserIdField
    requires UserData(p, cookies, fetch).Ok?
    ensures IsSet(UserData(p, cookies, fetch).value, f) <==> Supplies(fetch(cookies, LookupFor(p).value), f)
    ensures !Supplies(fetch(cookies, LookupFor(p).value), f) ==>
      Read(UserData(p, cookies, fetch).value, f, cookies, later) == UserData(UserData(p, cookies, fetch).value, cookies, later)
  {
  }

  const InstagramBase := "https://www.instagram.com/"

  /** The `url` property (lines 112-114): the base URL, then `str()` of the username. */
  function ProfileUrl(username: Option<string>): (u: string)
    ensures |u| >= |InstagramBase| && u[..|InstagramBase|] == InstagramBase && u[|InstagramBase|..] == ShowOptStr(username)
  {
    InstagramBase + ShowOptStr(username)
  }

  /** `ds_user_id` (lines 33-35): the session id up to its first `%`; `None` for an empty or missing one. */
  function DsUserId(sessionId: Option<string>): (r: Option<string>)
    ensures r.None? <==> !Truthy(sessionId)
    ensures r.Some? ==> r.value <= sessionId.value && '%' !in r.value
    ensures r.Some? ==> |r.value| == |sessionId.value| || sessionId.value[|r.value|] == '%'
  {
    if Truthy(sessionId) then Some(Split(sessionId.value, '%')[0]) else None
  }

  /** A session id without `%` is its own `ds_user_id`. */
  lemma {:induction false} DsUserIdWhole(s: string)
    requires s != "" && '%' !in s
    ensures DsUserId(Some(s)) == Some(s)
  {
    SplitWithout(s, '%');
  }

  /** `InstagramUserRSS`: the profile object and the fields behind its properties. */
  class InstagramUserRss {
    const baseUrl: string := InstagramBase
    const sessionId: Option<string>
    const cookies: Cookies
    var userId: Option<Id>
    var username: Option<string>
    var fullName: Option<string>
    var biography: Option<string>
    var iconUrl: Option<string>
    var private: Option<bool>
    var followed: Option<bool>
    /** The lookups sent so far, in order. */
    ghost var requests: seq<Lookup>

    function State(): Profile
      reads this
    {
      Profile(userId, username, fullName, biography, iconUrl, private, followed)
    }

    /** Lines 18-31; the assertion of line 19 is the caller's obligation. */
    constructor (sessionId: Option<string>, username: Option<string>, userId: Option<Id>)
      requires Truthy(username) || IdTruthy(userId)
      ensures this.sessionId == sessionId && baseUrl == InstagramBase
      ensures cookies == map["sessionid" := sessionId, "ds_user_id" := DsUserId(sessionId)]
      ensures State() == Profile(userId, username, None, None, None, None, None)
      ensures requests == []
    {
      this.sessionId := sessionId;
      cookies := map["sessionid" := sessionId, "ds_user_id" := DsUserId(sessionId)];
      this.username := username;
      this.userId := userId;
      fullName, biography, iconUrl, private, followed := None, None, None, None, None;
      requests := [];
    }

    /** `_get_user_data` (lines 37-64): one lookup, then every field from its answer, or an error. */
    method GetUserData(fetch: (Cookies, Lookup) -> UserRecord) returns (err: Option<LookupError>)
      modifies this
      ensures var u := UserData(old(State()), cookies, fetch);
        (u.Ok? ==> err == None && State() == u.value) &&
        (u.Err? ==> err == Some(u.error) && State() == old(State()))
      ensures requests == old(requests) + (if LookupFor(old(State())).Some? then [LookupFor(old(State())).value] else [])
    {
      if !Truthy(username) && !IdTruthy(userId) {
        return Some(UserNotFound);
      }
      var lookup := if IdTruthy(userId) then ById(userId.value) else ByUsername(username.value);
      requests := requests + [lookup];
      var user := fetch(cookies, lookup);
      if !IdTruthy(user.id) {
        return Some(UserNotFound);
      }
      var n := ToInt(user.id.value);
      if n.None? {
        return Some(InvalidUserId);
      }
      userId := Some(IdInt(n.value));
      username := user.username;
      fullName := user.fullName;
      biography := user.biography;
      followed := user.followedByViewer;
      private := user.isPrivate;
      iconUrl := user.profilePicUrl;
      err := None;
    }

    /** The shared shape of the lazy properties: fetch only while the field is unset. */
    method Refresh(f: Field, fetch: (Cookies, Lookup) -> UserRecord) returns (err: Option<LookupError>)
      modifies this
      ensures var r := Read(old(State()), f, cookies, fetch);
        (r.Ok? ==> err == None && State() == r.value) &&
        (r.Err? ==> err == Some(r.error) && State() == old(State()))
      ensures IsSet(old(State()), f) ==> requests == old(requests)
      ensures !IsSet(old(State()), f) ==>
        requests == old(requests) + (if LookupFor(old(State())).Some? then [LookupFor(old(State())).value] else [])
    {
      if IsSet(State(), f) {
        return None;
      }
      err := GetUserData(fetch);
    }

    /** The `user_id` property (lines 66-70). */
    method GetUserId(fetch: (Cookies, Lookup) -> UserRecord) returns (r: Result<Option<Id>, LookupError>)
      modifies this
      ensures var next := Read(old(State()), UserIdField, cookies, fetch);
        r == (if next.Ok? then Ok(next.value.userId) else Err(next.error))
      ensures old(userId).Some? ==> r == Ok(old(userId)) && requests == old(requests) && State() == old(State())
      ensures State() == AfterRead(old(State()), UserIdField, cookies, fetch)
      ensures requests == old(requests) + SentBy(old(State()), UserIdField)
    {
      var err := Refresh(UserIdField, fetch);
      r := if err.None? then Ok(userId) else Err(err.value);
    }

    /** The `username` property (lines 76-80). */
    method GetUsername(fetch: (Cookies, Lookup) -> UserRecord) returns (r: Result<Option<string>, LookupError>)
      modifies this
      ensures var next := Read(old(State()), UsernameField, cookies, fetch);
        r == (if next.Ok? then Ok(next.value.username) else Err(next.error))
      ensures old(username).Some? ==> r == Ok(old(username)) && requests == old(requests) && State() == old(State())
      ensures State() == AfterRead(old(State()), UsernameField, cookies, fetch)
      ensures requests == old(requests) + SentBy(old(State()), UsernameField)
    {
      var err := Refresh(UsernameField, fetch);
      r := if err.None? then Ok(username) else Err(err.value);
    }

    /** The `full_name` property (lines 82-86). */
    method GetFullName(fetch: (Cookies, Lookup) -> UserRecord) returns (r: Result<Option<string>, LookupError>)
      modifies this
      ensures var next := Read(old(State()), FullNameField, cookies, fetch);
        r == (if next.Ok? then Ok(next.value.fullName) else Err(next.error))
      ensures old(fullName).Some? ==> r == Ok(old(fullName)) && requests == old(requests) && State() == old(State())
      ensures State() == AfterRead(old(State()), FullNameField, cookies, fetch)
      ensures requests == old(requests) + SentBy(old(State()), FullNameField)
    {
      var err := Refresh(FullNameField, fetch);
      r := if err.None? then Ok(fullName) else Err(err.value);
    }

    /** The `biography` property (lines 88-92). */
    method GetBiography(fetch: (Cookies, Lookup) -> UserRecord) returns (r: Result<Option<string>, LookupError>)
      modifies this
      ensures var next := Read(old(State()), BiographyField, cookies, fetch);
        r == (if next.Ok? then Ok(next.value.biography) else Err(next.error))
      ensures old(biography).Some? ==> r == Ok(old(biography)) && requests == old(requests) && State() == old(State())
      ensures State() == AfterRead(old(State()), BiographyField, cookies, fetch)
      ensures requests == old(requests) + SentBy(old(State()), BiographyField)
    {
      var err := Refresh(BiographyField, fetch);
      r := if err.None? then Ok(biography) else Err(err.value);
    }

    /** The `icon_url` property (lines 94-98). */
    method GetIconUrl(fetch: (Cookies, Lookup) -> UserRecord) returns (r: Result<Option<string>, LookupError>)
      modifies this
      ensures var next := Read(old(State()), IconUrlField, cookies, fetch);
        r == (if next.Ok? then Ok(next.value.iconUrl) else Err(next.error))
      ensures old(iconUrl).Some? ==> r == Ok(old(iconUrl)) && requests == old(requests) && State() == old(State())
      ensures State() == AfterRead(old(State()), IconUrlField, cookies, fetch)
      ensures requests == old(requests) + SentBy(old(State()), IconUrlField)
    {
      var err := Refresh(IconUrlField, fetch);
      r := if err.None? then Ok(iconUrl) else Err(err.value);
    }

    /** The `followed` property (lines 100-104). */
    method GetFollowed(fetch: (Cookies, Lookup) -> UserRecord) returns (r: Result<Option<bool>, LookupError>)
      modifies this
      ensures var next := Read(old(State()), FollowedField, cookies, fetch);
        r == (if next.Ok? then Ok(next.value.followed) else Err(next.error))
      ensures old(followed).Some? ==> r == Ok(old(followed)) && requests == old(requests) && State() == old(State())
      ensures State() == AfterRead(old(State()), FollowedField, cookies, fetch)
      ensures requests == old(requests) + SentBy(old(State()), FollowedField)
    {
      var err := Refresh(FollowedField, fetch);
      r := if err.None? then Ok(followed) else Err(err.value);
    }

    /** The `private` property (lines 106-110). */
    method GetPrivate(fetch: (Cookies, Lookup) -> UserRecord) returns (r: Result<Option<bool>, LookupError>)
      modifies this
      ensures var next := Read(old(State()), PrivateField, cookies, fetch);
        r == (if next.Ok? then Ok(next.value.private) else Err(next.error))
      ensures old(private).Some? ==> r == Ok(old(private)) && requests == old(requests) && State() == old(State())
      ensures State() == AfterRead(old(State()), PrivateField, cookies, fetch)
      ensures requests == old(requests) + SentBy(old(State()), PrivateField)
    {
      var err := Refresh(PrivateField, fetch);
      r := if err.None? then Ok(private) else Err(err.value);
    }

    /** The `url` property (lines 112-114), which reads `username` first. */
    method GetUrl(fetch: (Cookies, Lookup) -> UserRecord) returns (r: Result<string, LookupError>)
      modifies this
      ensures var next := Read(old(State()), UsernameField, cookies, fetch);
        r == (if next.Ok? then Ok(ProfileUrl(next.value.username)) else Err(next.error))
      ensures old(username).Some? ==> r == Ok(baseUrl + old(username).value) && requests == old(requests)
      ensures State() == AfterRead(old(State()), UsernameField, cookies, fetch)
      ensures requests == old(requests) + SentBy(old(State()), UsernameField)
    {
      var name := GetUsername(fetch);
      r := if name.Ok? then Ok(baseUrl + ShowOptStr(name.value)) else Err(name.error);
    }
  }
}
