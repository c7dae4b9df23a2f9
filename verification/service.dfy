/**
 * The HTTP entry point `GET /instagram/{query}` (instagram_rss/__main__.py):
 * which Instagram identity a request names, the cache key it is stored
 * under, and the get-then-populate flow over the response cache.
 *
 * The cache itself (aiocache, memory or Redis) is a key→string store whose
 * entries the library may expire on its own; here it is the class `Cache`
 * holding a map. Logging in, looking a profile up and rendering the feed
 * are calls into Instaloader and into the feed generator; they are the
 * oracle `Upstream`, fixed for one request.
 */
module Service {
  import opened Wrappers
  import opened Strings

  /** The feed-selection query values, after FastAPI applied their defaults. */
  datatype FeedParams = FeedParams(
    posts: Option<bool>,
    postsLimit: Option<int>,
    reels: Option<bool>,
    reelsLimit: Option<int>,
    stories: Option<bool>,
    tagged: Option<bool>,
    taggedLimit: Option<int>)

  /** One request: the path token, the optional `user_id`/`username` query values, the feed selection. */
  datatype Request = Request(
    query: string,
    userId: Option<string>,
    username: Option<string>,
    params: FeedParams)

  /** The identity a request resolves to; either part may be missing. */
  datatype Identity = Identity(userId: Option<string>, username: Option<string>)

  predicate Identified(id: Identity) {
    Truthy(id.userId) || Truthy(id.username)
  }

  /**
   * Lines 49-50: an explicit (truthy) `user_id` or `username` query value
   * wins; otherwise the path token fills `user_id` when it is numeric and
   * `username` when it is not. The request names nobody exactly when neither
   * query value is given and the path token is empty.
   */
  function Resolve(query: string, userId: Option<string>, username: Option<string>): (id: Identity)
    ensures Truthy(userId) ==> id.userId == userId
    ensures Truthy(username) ==> id.username == username
    ensures !Truthy(userId) ==> id.userId == (if IsNumeric(query) then Some(query) else None)
    ensures !Truthy(username) ==> id.username == (if IsNumeric(query) then None else Some(query))
    ensures !Truthy(userId) && !Truthy(username) ==> (id.userId.Some? != id.username.Some?)
    ensures !Identified(id) <==> !Truthy(userId) && !Truthy(username) && query == ""
  {
    Identity(
      if Truthy(userId) then userId else if IsNumeric(query) then Some(query) else None,
      if Truthy(username) then username else if !IsNumeric(query) then Some(query) else None)
  }

  /**
   * Line 58: the nine parameters written one after another, `-` between
   * them, except that nothing separates `reels_limit` from `stories`.
   */
  function CacheKey(id: Identity, p: FeedParams): string {
    ShowOptStr(id.userId) + "-" + ShowOptStr(id.username) + "-" + KeyTail(p)
  }

  /** The part of the key of line 58 that follows the identity, grouped from the right. */
  function KeyTail(p: FeedParams): string {
    ShowOptBool(p.posts) + ("-" + (ShowOptInt(p.postsLimit) + ("-" + (ShowOptBool(p.reels)
    + ("-" + (ShowOptInt(p.reelsLimit) + (ShowOptBool(p.stories) + ("-" + (ShowOptBool(p.tagged)
    + ("-" + ShowOptInt(p.taggedLimit)))))))))))
  }

  /** Every feed parameter that follows the identity can be read back from the key. */
  lemma {:induction false} KeyTailInjective(p: FeedParams, q: FeedParams)
    requires KeyTail(p) == KeyTail(q)
    ensures p == q
  {
    var tagged1, tagged2 := ShowOptBool(p.tagged) + ("-" + ShowOptInt(p.taggedLimit)), ShowOptBool(q.tagged) + ("-" + ShowOptInt(q.taggedLimit));
    var stories1, stories2 := ShowOptBool(p.stories) + ("-" + tagged1), ShowOptBool(q.stories) + ("-" + tagged2);
    var rl1, rl2 := ShowOptInt(p.reelsLimit) + stories1, ShowOptInt(q.reelsLimit) + stories2;
    var reels1, reels2 := ShowOptBool(p.reels) + ("-" + rl1), ShowOptBool(q.reels) + ("-" + rl2);
    var pl1, pl2 := ShowOptInt(p.postsLimit) + ("-" + reels1), ShowOptInt(q.postsLimit) + ("-" + reels2);
    assert KeyTail(p) == ShowOptBool(p.posts) + ("-" + pl1);
    assert KeyTail(q) == ShowOptBool(q.posts) + ("-" + pl2);
    ShowOptBoolPrefix(p.posts, q.posts, "-" + pl1, "-" + pl2);
    assert pl1 == ("-" + pl1)[1..] && pl2 == ("-" + pl2)[1..];
    ShowOptIntPrefix(p.postsLimit, q.postsLimit, "-" + reels1, "-" + reels2);
    assert reels1 == ("-" + reels1)[1..] && reels2 == ("-" + reels2)[1..];
    ShowOptBoolPrefix(p.reels, q.reels, "-" + rl1, "-" + rl2);
    assert rl1 == ("-" + rl1)[1..] && rl2 == ("-" + rl2)[1..];
    assert stories1[0] == ShowOptBool(p.stories)[0] && stories2[0] == ShowOptBool(q.stories)[0];
    ShowOptIntPrefix(p.reelsLimit, q.reelsLimit, stories1, stories2);
    ShowOptBoolPrefix(p.stories, q.stories, "-" + tagged1, "-" + tagged2);
    assert tagged1 == ("-" + tagged1)[1..] && tagged2 == ("-" + tagged2)[1..];
    ShowOptBoolPrefix(p.tagged, q.tagged, "-" + ShowOptInt(p.taggedLimit), "-" + ShowOptInt(q.taggedLimit));
    assert ShowOptInt(p.taggedLimit) == ("-" + ShowOptInt(p.taggedLimit))[1..];
    assert ShowOptInt(q.taggedLimit) == ("-" + ShowOptInt(q.taggedLimit))[1..];
    ShowOptIntPrefix(p.taggedLimit, q.taggedLimit, [], []);
  }

  /**
   * Two requests for the same identity share a key only when they ask for
   * the same feed: no feed parameter is missing from the key, and the
   * missing `-` before `stories` does not make two selections collide.
   */
  lemma CacheKeySeparatesParams(id: Identity, p: FeedParams, q: FeedParams)
    ensures CacheKey(id, p) == CacheKey(id, q) <==> p == q
  {
    if CacheKey(id, p) == CacheKey(id, q) {
      var head := ShowOptStr(id.userId) + "-" + ShowOptStr(id.username) + "-";
      assert KeyTail(p) == (head + KeyTail(p))[|head|..];
      assert KeyTail(q) == (head + KeyTail(q))[|head|..];
      KeyTailInjective(p, q);
    }
  }

  /** The response cache: aiocache's key→value store, with entries it keeps until they expire. */
  class Cache {
    var entries: map<string, string>

    constructor ()
      ensures entries == map[]
    {
      entries := map[];
    }
  }

  /** A lookup that the handler counts as a hit: a stored value that is truthy (non-empty). */
  predicate Hit(entries: map<string, string>, key: string) {
    key in entries && entries[key] != ""
  }

  /** `get_cached_item` (lines 25-29): the stored value, or None when the key is absent. */
  method GetCachedItem(cache: Cache, key: string) returns (r: Option<string>)
    ensures r.Some? <==> key in cache.entries
    ensures r.Some? ==> r.value == cache.entries[key]
    ensures Truthy(r) <==> Hit(cache.entries, key)
  {
    r := if key in cache.entries then Some(cache.entries[key]) else None;
  }

  /** `set_cached_item` (lines 32-33): store `value` under `key`, replacing what was there. */
  method SetCachedItem(cache: Cache, key: string, value: string)
    modifies cache
    ensures cache.entries == old(cache.entries)[key := value]
  {
    cache.entries := cache.entries[key := value];
  }

  /** What `Instaloader.login` does with the configured credentials. */
  datatype LoginResult = Accepted | TwoFactorRequired | Rejected

  /**
   * The login environment of lines 63-77: whether a session file exists,
   * whether `load_session_from_file` raises on it (unreadable or corrupt),
   * whether `test_login` accepts it, what a password login does, whether
   * the TOTP two-factor login succeeds and whether `save_session_to_file`
   * raises.
   */
  datatype Session = Session(
    fileExists: bool,
    loadFails: bool,
    sessionValid: bool,
    login: LoginResult,
    twoFactorAccepted: bool,
    saveFails: bool)

  /** The login block either raises (the exception leaves the handler) or finishes with `logged_in`. */
  datatype LoginOutcome = Raised | Finished(loggedIn: bool)

  /** A password login is needed: there is no session file, or `test_login` rejects it. */
  predicate NeedsPasswordLogin(s: Session) {
    !(s.fileExists && s.sessionValid)
  }

  /**
   * The login block raises exactly when loading an existing session file
   * raises, or when a password login is needed and it fails, or it succeeds
   * and saving the new session raises.
   */
  predicate LoginRaises(s: Session) {
    (s.fileExists && s.loadFails)
    || (NeedsPasswordLogin(s)
        && (s.login == Rejected || (s.login == TwoFactorRequired && !s.twoFactorAccepted) || s.saveFails))
  }

  /**
   * Lines 63-77. Whenever it finishes, `logged_in` is true, so the
   * 401 "Login failed" response of lines 79-81 can never be sent.
   */
  method LogIn(s: Session) returns (o: LoginOutcome)
    ensures o.Finished? ==> o.loggedIn
    ensures o.Raised? <==> LoginRaises(s)
    ensures s.fileExists && s.loadFails ==> o.Raised?
  {
    var loggedIn := false;
    if s.fileExists {
      if s.loadFails {
        return Raised;
      }
      loggedIn := s.sessionValid;
    }
    if !loggedIn {
      if s.login == Rejected {
        return Raised;
      }
      if s.login == TwoFactorRequired && !s.twoFactorAccepted {
        return Raised;
      }
      loggedIn := true;
      if s.saveFails {
        return Raised;
      }
    }
    o := Finished(loggedIn);
  }

  /** What the feed generator returns for a user id: text, bytes, or an exception. */
  datatype Rendered = RenderRaised | RenderedText(text: string) | RenderedBytes(bytes: seq<bv8>)

  /** The calls a request makes outside this module, as their answers. */
  datatype Upstream = Upstream(
    session: Session,
    profileFound: string -> bool,             // Profile.from_id succeeds for this user id
    useridOf: string -> Option<int>,          // Profile.from_username(...).userid; None: it raised
    render: (string, FeedParams) -> Rendered, // the feed document for this user id
    decode: seq<bv8> -> Option<string>)       // bytes.decode(); None: the bytes are not UTF-8

  /** A response body: text, or the bytes the feed generator produced. */
  datatype Body = Text(text: string) | Bytes(bytes: seq<bv8>)

  datatype Response =
    | Plain(status: int, content: Body, mediaType: Option<string>)
    | Redirect(status: int, location: string)
    | InternalError  // an exception left the handler; FastAPI answers 500

  const BadRequest := Plain(400, Text("Please provide a username or user_id"), Some("text/plain"))
  const Xml := Some("application/xml")

  /** The interactions of one request with the cache and with Instagram, in order. */
  datatype Effect = ReadCache(key: string) | LoginAttempt | ProfileLookup | Render | WriteCache(key: string, value: string)

  /** Lines 87-96: where a request by username is sent once its user id is known. */
  function RedirectUrl(userid: int, p: FeedParams): string {
    "/instagram/" + ShowInt(userid) + "?" + Join(Items(RedirectQuery(p)), '&')
  }

  /** The query of the redirect: the four feeds switched off, the three limits as given. */
  function RedirectQuery(p: FeedParams): seq<(string, string)> {
    [("posts", "0"), ("reels", "0"), ("tagged", "0"), ("stories", "0"),
     ("posts_limit", ShowOptInt(p.postsLimit)), ("reels_limit", ShowOptInt(p.reelsLimit)),
     ("tagged_limit", ShowOptInt(p.taggedLimit))]
  }

  /** Each pair written `name=value`. */
  function Items(pairs: seq<(string, string)>): (items: seq<string>)
    ensures |items| == |pairs|
    ensures forall i :: 0 <= i < |pairs| ==> items[i] == pairs[i].0 + "=" + pairs[i].1
  {
    seq(|pairs|, i requires 0 <= i < |pairs| => pairs[i].0 + "=" + pairs[i].1)
  }

  /** The path of a URL: the text before the first `?`. */
  function PathOf(url: string): string {
    Split(url, '?')[0]
  }

  /** The query of a URL as name/value pairs: after the first `?`, cut at `&`, each pair cut at `=`. */
  function QueryPairs(url: string): seq<(string, string)> {
    var parts := Split(url, '?');
    if |parts| < 2 then [] else PairsOf(Split(parts[1], '&'))
  }

  function PairsOf(items: seq<string>): (pairs: seq<(string, string)>)
    ensures |pairs| == |items|
  {
    seq(|items|, i requires 0 <= i < |items| => PairOf(items[i]))
  }

  /** `name=value` as a pair; an item without `=` has an empty value. */
  function PairOf(item: string): (string, string) {
    var kv := Split(item, '=');
    (kv[0], if |kv| > 1 then kv[1] else "")
  }

  /** The structure characters of a URL. */
  predicate PlainText(s: string) {
    '?' !in s && '&' !in s && '=' !in s
  }

  /** The text of an optional int holds none of the characters that structure a URL. */
  lemma ShowOptIntPlain(n: Option<int>)
    ensures PlainText(ShowOptInt(n))
  {
    var s := ShowOptInt(n);
    if n.Some? && n.value < 0 {
      assert s == "-" + NatToString(-n.value);
      assert forall i :: 1 <= i < |s| ==> IsDigit(s[i]) by {
        forall i | 1 <= i < |s| ensures IsDigit(s[i]) {
          assert s[i] == NatToString(-n.value)[i - 1];
        }
      }
    }
  }

  /** A `name=value` item whose value has no `=` splits into that name and value. */
  lemma SplitPair(name: string, value: string)
    requires '=' !in name && '=' !in value
    ensures PairOf(name + "=" + value) == (name, value)
  {
    SplitAround(name, value, '=');
    SplitWithout(name, '=');
    SplitWithout(value, '=');
  }

  /** Joined text holds a character only if one of the pieces or the separator does. */
  lemma {:induction false} JoinWithout(parts: seq<string>, sep: char, c: char)
    requires |parts| >= 1 && c != sep
    requires forall i :: 0 <= i < |parts| ==> c !in parts[i]
    ensures c !in Join(parts, sep)
    decreases |parts|
  {
    if |parts| > 1 {
      JoinWithout(parts[1..], sep, c);
    }
  }

  /**
   * A URL written as a path, `?`, and `&`-joined `name=value` items reads
   * back as that path and those pairs, when none of the parts holds `?`,
   * `&` or `=`.
   */
  lemma QueryRoundTrip(path: string, pairs: seq<(string, string)>)
    requires |pairs| >= 1 && PlainText(path)
    requires forall i :: 0 <= i < |pairs| ==> PlainText(pairs[i].0) && PlainText(pairs[i].1)
    ensures PathOf(path + "?" + Join(Items(pairs), '&')) == path
    ensures QueryPairs(path + "?" + Join(Items(pairs), '&')) == pairs
  {
    var items := Items(pairs);
    forall i | 0 <= i < |items| ensures '?' !in items[i] && '&' !in items[i] {
      assert items[i] == pairs[i].0 + "=" + pairs[i].1;
    }
    var query := Join(items, '&');
    JoinWithout(items, '&', '?');
    SplitAround(path, query, '?');
    SplitWithout(path, '?');
    SplitWithout(query, '?');
    assert Split(path + "?" + query, '?') == [path, query];
    SplitJoin(items, '&');
    forall i | 0 <= i < |pairs| ensures PairsOf(items)[i] == pairs[i] {
      SplitPair(pairs[i].0, pairs[i].1);
    }
  }

  /**
   * The redirect of lines 87-96 leads to `/instagram/<userid>` and asks for
   * posts, reels, tagged and stories set to 0, with the three limits carried
   * over unchanged.
   */
  lemma RedirectCarriesLimits(userid: int, p: FeedParams)
    ensures PathOf(RedirectUrl(userid, p)) == "/instagram/" + ShowInt(userid)
    ensures QueryPairs(RedirectUrl(userid, p)) == [
      ("posts", "0"), ("reels", "0"), ("tagged", "0"), ("stories", "0"),
      ("posts_limit", ShowOptInt(p.postsLimit)), ("reels_limit", ShowOptInt(p.reelsLimit)),
      ("tagged_limit", ShowOptInt(p.taggedLimit))]
  {
    ShowOptIntPlain(Some(userid));
    assert PlainText("/instagram/");
    RedirectQueryPlain(p);
    QueryRoundTrip("/instagram/" + ShowInt(userid), RedirectQuery(p));
  }

  /** No name or value of the redirect's query holds `?`, `&` or `=`. */
  lemma RedirectQueryPlain(p: FeedParams)
    ensures forall i :: 0 <= i < |RedirectQuery(p)| ==> PlainText(RedirectQuery(p)[i].0) && PlainText(RedirectQuery(p)[i].1)
  {
    ShowOptIntPlain(p.postsLimit);
    ShowOptIntPlain(p.reelsLimit);
    ShowOptIntPlain(p.taggedLimit);
    var q := RedirectQuery(p);
    forall i | 0 <= i < |q| ensures PlainText(q[i].0) && PlainText(q[i].1) {
      if i < 4 {
        assert PlainText(q[i].0) && q[i].1 == "0";
      }
    }
  }

  /**
   * `instagram_query` (lines 36-110). The ghost `effects` lists what the
   * request did, in order, so that the contract can say what did not happen.
   */
  method InstagramQuery(cache: Cache, req: Request, up: Upstream) returns (resp: Response, ghost effects: seq<Effect>)
    modifies cache
    // no identity: 400, and the cache is neither read nor written
    ensures var id := Resolve(req.query, req.userId, req.username);
      !Identified(id) ==> resp == BadRequest && effects == [] && cache.entries == old(cache.entries)
    // a truthy cached value is the answer; nothing else happens
    ensures var id := Resolve(req.query, req.userId, req.username); var key := CacheKey(id, req.params);
      Identified(id) && Hit(old(cache.entries), key) ==>
        resp == Plain(200, Text(old(cache.entries)[key]), Xml) && effects == [ReadCache(key)]
        && cache.entries == old(cache.entries)
    // a miss (absent or empty value) goes on to log in
    ensures var id := Resolve(req.query, req.userId, req.username); var key := CacheKey(id, req.params);
      Identified(id) && !Hit(old(cache.entries), key) ==>
        |effects| >= 2 && effects[..2] == [ReadCache(key), LoginAttempt]
        && (LoginRaises(up.session) ==>
              resp == InternalError && effects == [ReadCache(key), LoginAttempt] && cache.entries == old(cache.entries))
    // by username: a redirect to the numeric id, and nothing is cached
    ensures var id := Resolve(req.query, req.userId, req.username); var key := CacheKey(id, req.params);
      Identified(id) && !Truthy(id.userId) && !Hit(old(cache.entries), key) && !LoginRaises(up.session) ==>
        cache.entries == old(cache.entries)
        && effects == [ReadCache(key), LoginAttempt, ProfileLookup]
        && resp == (match up.useridOf(id.username.value)
                    case None => InternalError
                    case Some(userid) => Redirect(302, RedirectUrl(userid, req.params)))
    // by user id: the rendered feed is stored, as text, under the key before it is returned
    ensures var id := Resolve(req.query, req.userId, req.username); var key := CacheKey(id, req.params);
      Truthy(id.userId) && !Hit(old(cache.entries), key) && !LoginRaises(up.session) ==>
        if !up.profileFound(id.userId.value) then
          resp == InternalError && cache.entries == old(cache.entries)
          && effects == [ReadCache(key), LoginAttempt, ProfileLookup]
        else match up.render(id.userId.value, req.params)
          case RenderRaised =>
            resp == InternalError && cache.entries == old(cache.entries)
            && effects == [ReadCache(key), LoginAttempt, ProfileLookup, Render]
          case RenderedText(t) =>
            resp == Plain(200, Text(t), Xml) && cache.entries == old(cache.entries)[key := t]
            && effects == [ReadCache(key), LoginAttempt, ProfileLookup, Render, WriteCache(key, t)]
          case RenderedBytes(b) =>
            if up.decode(b).None? then
              resp == InternalError && cache.entries == old(cache.entries)
              && effects == [ReadCache(key), LoginAttempt, ProfileLookup, Render]
            else
              resp == Plain(200, Bytes(b), Xml) && cache.entries == old(cache.entries)[key := up.decode(b).value]
              && effects == [ReadCache(key), LoginAttempt, ProfileLookup, Render, WriteCache(key, up.decode(b).value)]
  {
    var id := Resolve(req.query, req.userId, req.username);
    if !Identified(id) {
      return BadRequest, [];
    }
    var key := CacheKey(id, req.params);
    var cached := GetCachedItem(cache, key);
    effects := [ReadCache(key)];
    if Truthy(cached) {
      return Plain(200, Text(cached.value), Xml), effects;
    }

    var login := LogIn(up.session);
    effects := effects + [LoginAttempt];
    if login.Raised? {
      return InternalError, effects;
    }
    // the 401 "Login failed" branch (lines 79-81) is dead
    assert login.loggedIn;

    effects := effects + [ProfileLookup];
    if Truthy(id.userId) {
      if !up.profileFound(id.userId.value) {
        return InternalError, effects;
      }
    } else {
      var userid := up.useridOf(id.username.value);
      if userid.None? {
        return InternalError, effects;
      }
      return Redirect(302, RedirectUrl(userid.value, req.params)), effects;
    }

    effects := effects + [Render];
    var body: Body;
    var text: string;
    match up.render(id.userId.value, req.params) {
      case RenderRaised =>
        return InternalError, effects;
      case RenderedText(t) =>
        body, text := Text(t), t;
      case RenderedBytes(b) =>
        var decoded := up.decode(b);
        if decoded.None? {
          return InternalError, effects;
        }
        body, text := Bytes(b), decoded.value;
    }
    SetCachedItem(cache, key, text);
    effects := effects + [WriteCache(key, text)];
    resp := Plain(200, body, Xml);
  }

  /**
   * The same request twice: once the first has stored a non-empty feed, the
   * second is answered from the cache with that text, without logging in.
   */
  method RepeatQuery(cache: Cache, req: Request, up: Upstream)
    returns (first: Response, second: Response, ghost firstEffects: seq<Effect>, ghost secondEffects: seq<Effect>)
    modifies cache
    ensures forall key, v :: WriteCache(key, v) in firstEffects && v != "" ==>
      second == Plain(200, Text(v), Xml) && secondEffects == [ReadCache(key)]
  {
    first, firstEffects := InstagramQuery(cache, req, up);
    second, secondEffects := InstagramQuery(cache, req, up);
  }
}
