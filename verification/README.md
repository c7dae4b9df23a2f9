# instagram_rss in Dafny

A verified model of the core of instagram_rss. This is a small web service that turns an Instagram
profile into an Atom/RSS feed. A browser userscript adds a link to that feed on Instagram pages.

The model has five modules:

- **Strings** (`strings.dfy`) holds the text operations the service relies on:
  - Python's `str()` of `None`, booleans and integers;
  - `int()` and `str.isnumeric()`;
  - `split`/`join` on one character.

  It proves that `int(str(n)) == n`, and that split and join are inverse to each other.
- **Service** (`service.dfy`) models the endpoint `GET /instagram/{query}` of `instagram_rss/__main__.py`:
  - which identity a request names;
  - the cache key;
  - the cache, a class whose entry map the methods update;
  - the login block;
  - the redirect for a username;
  - the whole request flow as a method over the cache.

  The request flow records what it did, in order, in a ghost effect list.
- **UserRss** (`user_rss.dfy`) models the class `InstagramUserRSS` of `instagram_rss/instagram_user_rss.py`:
  - its cookies and `ds_user_id`;
  - `_get_user_data`, with the HTTP request as an oracle `fetch`;
  - the seven lazy properties, which fetch only while their field is `None`;
  - `url`.

  A ghost list records the lookups sent.
- **FeedEntries** (`feed_entries.dfy`) models the entry-building of `generate_rss_feed`:
  - the feed head;
  - the placeholder entry for a private, unfollowed profile without posts;
  - one entry per post, its content built by `+=` in a loop;
  - one entry per story;
  - the stable sort by publication time.
- **Userscript** (`userscript.dfy`) models `userscript/userscript.user.js`:
  - the profile name taken from the path;
  - the feed URL;
  - the two guards;
  - the insertion of the link after the home anchor, on a page given as a flat list of elements.

## Model

| member | source | states |
|---|---|---|
| Strings.ParseNatToString | instagram_rss/__main__.py:58 | Reading back the decimal digits `str()` writes for a non-negative int gives the int. |
| Strings.ShowInt | instagram_rss/__main__.py:58 | `str()` of an int: a minus sign for a negative one, then its decimal digits; never empty. Read back by `PyIntShowInt`. |
| Strings.PyInt | instagram_rss/instagram_user_rss.py:72-74 | `int()` of a text: an optional sign and decimal digits, else a ValueError (`None`). `PyIntShowInt` states it inverts `ShowInt`. |
| Strings.PyIntShowInt | instagram_rss/instagram_user_rss.py:72-74 | `int(str(n)) == n` for every int, negative ones included. |
| Strings.IsNumeric | instagram_rss/__main__.py:49-50 | `str.isnumeric()`: a non-empty run of digits. `IsNumericShowInt` states which `str(n)` pass. |
| Strings.IsNumericShowInt | instagram_rss/__main__.py:49-50 | `str(n).isnumeric()` holds exactly when `n >= 0`. |
| Strings.ShowOptBool | instagram_rss/__main__.py:58 | The f-string text of an optional bool: "None", "True" or "False". `ShowOptBoolPrefix` states that the three are told apart. |
| Strings.ShowOptBoolPrefix | instagram_rss/__main__.py:58 | Two texts that each start with the text of an optional bool are equal only if the bools and the remainders are equal. |
| Strings.ShowOptInt | instagram_rss/__main__.py:58 | The f-string text of an optional int: "None" or `str()` of the int. `ShowOptIntPrefix` states that it determines the int. |
| Strings.ShowOptIntPrefix | instagram_rss/__main__.py:58 | The text of an optional int followed by a non-digit determines the int and the remainder. |
| Strings.Split | userscript/userscript.user.js:20 | There is at least one piece and no piece holds the separator. The first piece is a prefix that ends at the end of the text or at a separator. |
| Strings.JoinSplit | userscript/userscript.user.js:20 | Joining the pieces of a split with the separator gives the text back. |
| Strings.SplitJoin | instagram_rss/__main__.py:87-96 | Splitting joined pieces that hold no separator gives the pieces back. |
| Strings.SplitAround | userscript/userscript.user.js:20 | A split at a separator is the split of the part before it, then the split of the part after it. |
| Strings.FirstPiece | userscript/userscript.user.js:20-21 | The first piece of a split is the text before the first separator. |
| Strings.SplitWithout | instagram_rss/instagram_user_rss.py:35 | Text without the separator splits into itself alone. |
| Service.Resolve | instagram_rss/__main__.py:49-50 | A truthy `user_id` or `username` query value is kept. Otherwise a numeric path token becomes the user id and any other token the username. Without query values exactly one of the two is filled. The request names nobody exactly when both query values are falsy and the token is empty. |
| Service.CacheKey | instagram_rss/__main__.py:58 | The nine values joined by "-", with none before `stories`. `CacheKeySeparatesParams` states that it separates every feed selection. |
| Service.KeyTailInjective | instagram_rss/__main__.py:58 | The key text after the identity determines all seven feed parameters. |
| Service.CacheKeySeparatesParams | instagram_rss/__main__.py:58 | For one identity, two feed selections share a cache key if and only if they are equal. The missing `-` before `stories` causes no collision. |
| Service.GetCachedItem | instagram_rss/__main__.py:25-29 | Returns the stored value exactly when the key is present. The value is truthy exactly when the handler counts a hit. |
| Service.SetCachedItem | instagram_rss/__main__.py:32-33 | The entry map afterwards is the one before with `key` mapped to `value`. |
| Service.LogIn | instagram_rss/__main__.py:63-81 | The block raises exactly when loading an existing session file raises, or when there is no valid session and the password or two-factor login fails, or that login succeeds and saving the session raises. A corrupt session file therefore fails the request before any password login. When it finishes, `logged_in` is true, so the 401 response is never sent. |
| Service.RedirectUrl | instagram_rss/__main__.py:86-96 | `/instagram/<userid>`, `?` and the redirect query. `RedirectCarriesLimits` states how it reads back. |
| Service.RedirectQuery | instagram_rss/__main__.py:88-95 | The four feeds switched off and the three limits as given, in source order. `RedirectQueryPlain` states that none of its parts disturbs the URL. |
| Service.Items | instagram_rss/__main__.py:88-95 | One `name=value` item per pair, in order. |
| Service.ShowOptIntPlain | instagram_rss/__main__.py:93-95 | The text of an optional int holds no `?`, `&` or `=`. |
| Service.SplitPair | instagram_rss/__main__.py:89-95 | A `name=value` item without other `=` reads back as that name and value. |
| Service.JoinWithout | instagram_rss/__main__.py:88-95 | Joined text holds a character only if a piece or the separator does. |
| Service.RedirectQueryPlain | instagram_rss/__main__.py:89-95 | No name or value in the redirect's query holds `?`, `&` or `=`. |
| Service.QueryRoundTrip | instagram_rss/__main__.py:87-96 | A path, `?` and `&`-joined items read back as the same path and pairs, when no part holds `?`, `&` or `=`. |
| Service.RedirectCarriesLimits | instagram_rss/__main__.py:86-97 | The redirect leads to `/instagram/<userid>` and asks for posts, reels, tagged and stories set to 0. The three limits are carried over unchanged. |
| Service.InstagramQuery | instagram_rss/__main__.py:36-110 | Without an identity it answers 400 and never touches the cache. A truthy cached value is the answer, and nothing else happens. On a miss it logs in. A username gets a 302 redirect to the user id's URL, and nothing is cached. A user id gets the rendered feed, whose text is stored under the key before it is returned. Every exception answers 500 and leaves the cache unchanged. |
| Service.RepeatQuery | instagram_rss/__main__.py:58-61 | Once a request has stored a non-empty feed, the same request is answered from the cache with that text. It then neither logs in nor renders. |
| UserRss.LookupFor | instagram_rss/instagram_user_rss.py:38-50 | The lookup is by id when the id is truthy, else by username, and there is none when both are falsy. |
| UserRss.ToInt | instagram_rss/instagram_user_rss.py:72-74 | The `user_id` setter's `int()` of an id that is an int or a text. `UserData` states that an id it rejects raises ValueError. |
| UserRss.UserData | instagram_rss/instagram_user_rss.py:37-64 | Without a username and a user id it raises UserNotFoundError and sends no request. An answer without a truthy id raises UserNotFoundError. A truthy id that `int()` rejects raises ValueError, and only then. An answer whose id is truthy and accepted by `int()` always succeeds. On success the id is `int()` of the answer's id and every other field is copied from the answer. |
| UserRss.Read | instagram_rss/instagram_user_rss.py:66-110 | A property answers from its field when the field is not `None`, else after `_get_user_data`. |
| UserRss.UserIdSettles | instagram_rss/instagram_user_rss.py:52-54 | After a successful lookup the user id is set, and it is an int. |
| UserRss.ReadIsStable | instagram_rss/instagram_user_rss.py:66-110 | A read that left its field set answers the next read with the same fields, whatever the lookup would now return. |
| UserRss.MissingKeyRefetches | instagram_rss/instagram_user_rss.py:55-60 | For each of username, full name, biography, icon, followed and private: after a successful lookup the field is set exactly when the answer carried its key. A missing key leaves the field `None`, so the next read of that property fetches again. |
| UserRss.ProfileUrl | instagram_rss/instagram_user_rss.py:112-114 | The URL is the Instagram base followed by `str()` of the username. |
| UserRss.DsUserId | instagram_rss/instagram_user_rss.py:33-35 | `None` exactly when the session id is falsy. Otherwise it is the prefix of the session id before the first `%`. |
| UserRss.DsUserIdWhole | instagram_rss/instagram_user_rss.py:33-35 | A non-empty session id without `%` is its own `ds_user_id`. |
| UserRss.InstagramUserRss.constructor | instagram_rss/instagram_user_rss.py:18-31 | Sets the base URL and both cookies. Keeps the given username and id, with every other field `None` and no lookup sent. |
| UserRss.InstagramUserRss.GetUserData | instagram_rss/instagram_user_rss.py:37-64 | Success sets the fields as `UserData` gives them. An error leaves the fields unchanged. The one lookup sent is recorded. |
| UserRss.InstagramUserRss.Refresh | instagram_rss/instagram_user_rss.py:66-110 | Fetches exactly when the property's field is `None`, and the new fields are those of `Read`. |
| UserRss.AfterRead | instagram_rss/instagram_user_rss.py:66-110 | A read of a set field leaves the fields as they were. A read that fetched successfully leaves the user id set. |
| UserRss.SentBy | instagram_rss/instagram_user_rss.py:66-110 | A read sends at most one lookup, and none when its field is set. |
| UserRss.InstagramUserRss.GetUserId | instagram_rss/instagram_user_rss.py:66-70 | Returns the field after `Read`, or the lookup's error. A set field is returned without a request. The fields afterwards are those the read leaves (`AfterRead`), and the lookups sent grow by exactly the one the read sends (`SentBy`): none when the field was set. |
| UserRss.InstagramUserRss.GetUsername | instagram_rss/instagram_user_rss.py:76-80 | Returns the field after `Read`, or the lookup's error. A set field is returned without a request. The fields afterwards are those the read leaves (`AfterRead`), and the lookups sent grow by exactly the one the read sends (`SentBy`): none when the field was set. |
| UserRss.InstagramUserRss.GetFullName | instagram_rss/instagram_user_rss.py:82-86 | Returns the field after `Read`, or the lookup's error. A set field is returned without a request. The fields afterwards are those the read leaves (`AfterRead`), and the lookups sent grow by exactly the one the read sends (`SentBy`): none when the field was set. |
| UserRss.InstagramUserRss.GetBiography | instagram_rss/instagram_user_rss.py:88-92 | Returns the field after `Read`, or the lookup's error. A set field is returned without a request. The fields afterwards are those the read leaves (`AfterRead`), and the lookups sent grow by exactly the one the read sends (`SentBy`): none when the field was set. |
| UserRss.InstagramUserRss.GetIconUrl | instagram_rss/instagram_user_rss.py:94-98 | Returns the field after `Read`, or the lookup's error. A set field is returned without a request. The fields afterwards are those the read leaves (`AfterRead`), and the lookups sent grow by exactly the one the read sends (`SentBy`): none when the field was set. |
| UserRss.InstagramUserRss.GetFollowed | instagram_rss/instagram_user_rss.py:100-104 | Returns the field after `Read`, or the lookup's error. A set field is returned without a request. The fields afterwards are those the read leaves (`AfterRead`), and the lookups sent grow by exactly the one the read sends (`SentBy`): none when the field was set. |
| UserRss.InstagramUserRss.GetPrivate | instagram_rss/instagram_user_rss.py:106-110 | Returns the field after `Read`, or the lookup's error. A set field is returned without a request. The fields afterwards are those the read leaves (`AfterRead`), and the lookups sent grow by exactly the one the read sends (`SentBy`): none when the field was set. |
| UserRss.InstagramUserRss.GetUrl | instagram_rss/instagram_user_rss.py:112-114 | The profile URL of the username after reading it. With the username known it sends no request. The fields afterwards are those the read leaves (`AfterRead`), and the lookups sent grow by exactly the one the read sends (`SentBy`): none when the field was set. |
| FeedEntries.PostTitle | instagram_rss/instagram_user_rss.py:179-183 | The text of the first caption edge's node. It is "(no title)" when the edges are missing or empty, or when the first edge has no node or no text. |
| FeedEntries.Present | instagram_rss/instagram_user_rss.py:190-193 | The present child nodes are never more than the child edges. |
| FeedEntries.PresentAppend | instagram_rss/instagram_user_rss.py:190-193 | Filtering keeps the order: the present nodes of two runs of edges are those of the first run, then those of the second. |
| FeedEntries.PresentMembers | instagram_rss/instagram_user_rss.py:190-193 | A node is kept exactly when some child edge holds a non-empty node. |
| FeedEntries.PresentAll | instagram_rss/instagram_user_rss.py:190-193 | When every child is present, the children are kept as they are, in order. |
| FeedEntries.MediaNodes | instagram_rss/instagram_user_rss.py:190-193 | The main node first, then the present children. Without a sidecar, only the main node. |
| FeedEntries.Fragment | instagram_rss/instagram_user_rss.py:196-201 | A video tag for a video node, else the image linked with `img_index` `i + 1`. `ImageIndexReadsBack` states what the index reads back as. |
| FeedEntries.Fragments | instagram_rss/instagram_user_rss.py:195-201 | One HTML fragment per media node, in order, the `i`-th carrying image number `i + 1`. |
| FeedEntries.ImageLinkInjective | instagram_rss/instagram_user_rss.py:201 | Two image fragments showing the same picture are equal only when they link to the same target. |
| FeedEntries.ImageIndexReadsBack | instagram_rss/instagram_user_rss.py:195-201 | An image fragment links to the post link followed by `?img_index=` and digits that read back as `i + 1`. The same picture at two positions of a post gives two different fragments. |
| FeedEntries.PostLink | instagram_rss/instagram_user_rss.py:175 | The base URL, `p/`, the shortcode and `/`. `PostLinkInjective` states that it tells shortcodes apart. |
| FeedEntries.PostEntry | instagram_rss/instagram_user_rss.py:173-204 | The entry of one post. `PostEntryFields` states its fields and `BuildPostEntry` that the loop builds it. |
| FeedEntries.PostEntryFields | instagram_rss/instagram_user_rss.py:173-204 | The id and link are the post link, the author is the full name and the title is the caption title. The publication time is the post's timestamp. The content is the header followed by one fragment per media node. |
| FeedEntries.PostLinkInjective | instagram_rss/instagram_user_rss.py:175 | Two posts with the same link have the same shortcode. |
| FeedEntries.PostEntryIdsDistinct | instagram_rss/instagram_user_rss.py:175-176 | Entries of posts with different shortcodes have different ids. |
| FeedEntries.BuildPostContent | instagram_rss/instagram_user_rss.py:194-201 | Repeated `+=` builds the header followed by every fragment, in order. |
| FeedEntries.BuildPostEntry | instagram_rss/instagram_user_rss.py:172-204 | The loop-built entry of a post equals `PostEntry`. |
| FeedEntries.PostEntries | instagram_rss/instagram_user_rss.py:172-204 | One entry per post, in order. |
| FeedEntries.FirstVersion | instagram_rss/instagram_user_rss.py:222 | A missing list gives the default empty version. An empty list raises IndexError. Otherwise the first element. |
| FeedEntries.StoryAttachment | instagram_rss/instagram_user_rss.py:222-230 | A non-empty first video version wins. Otherwise the first image candidate, or no media. An empty version or candidate list raises IndexError. |
| FeedEntries.ImageOnlyWithoutVideo | instagram_rss/instagram_user_rss.py:222-230 | A story shows an image only if it has no video, and then the image is its first candidate. |
| FeedEntries.StoryEntry | instagram_rss/instagram_user_rss.py:208-233 | A story's entry fails exactly when reading its media raises IndexError. |
| FeedEntries.StoryLink | instagram_rss/instagram_user_rss.py:210 | The base URL, `stories/`, the username, the pk and `/`. `StoryLinkInjective` states that it tells pks apart. |
| FeedEntries.StoryContent | instagram_rss/instagram_user_rss.py:217-230 | The story header followed by its video or image fragment, or nothing. `StoryEntryFields` states it is the entry's content. |
| FeedEntries.StoryEntryFields | instagram_rss/instagram_user_rss.py:209-233 | The id and link are the story link, the author is the full name and the title is "<username> story". The time is the story's, and the content shows its media. |
| FeedEntries.StoryLinkInjective | instagram_rss/instagram_user_rss.py:210 | Two stories of a profile with the same link have the same `pk`. |
| FeedEntries.StoryEntryIdsDistinct | instagram_rss/instagram_user_rss.py:210-211 | Entries of stories with different `pk`s have different ids. |
| FeedEntries.StoryEntries | instagram_rss/instagram_user_rss.py:208-233 | The stories loop, when it succeeds, gives one entry per story. |
| FeedEntries.StoryEntriesFail | instagram_rss/instagram_user_rss.py:208-233 | The story loop raises exactly when some story raises. |
| FeedEntries.StoryEntriesEach | instagram_rss/instagram_user_rss.py:208-233 | When the story loop finishes, entry `i` is the entry of story `i`. |
| FeedEntries.StoryEntriesLast | instagram_rss/instagram_user_rss.py:208-233 | A finished story loop ends with the entry of the last story. The stories before it finished too. |
| FeedEntries.IsPlaceholderCase | instagram_rss/instagram_user_rss.py:157 | No posts, a private profile and not followed. `HeadEntries` and `PlaceholderAlone` state what it selects. |
| FeedEntries.PlaceholderText | instagram_rss/instagram_user_rss.py:163-164 | "<username> private: <private> followed: <followed>". `Placeholder` states it is the title and the content. |
| FeedEntries.Placeholder | instagram_rss/instagram_user_rss.py:157-168 | Identified and linked by the profile URL, authored by the full name, titled with the username, private and followed flags. Published now. |
| FeedEntries.HeadEntries | instagram_rss/instagram_user_rss.py:156-204 | The placeholder alone for a private, unfollowed profile without posts; otherwise one entry per post. |
| FeedEntries.Insert | instagram_rss/instagram_user_rss.py:235 | One step of the stable sort: the entry goes behind every entry of its time or earlier. `InsertPermutes`, `InsertSorted` and `InsertStable` state its promises. |
| FeedEntries.SortByPublished | instagram_rss/instagram_user_rss.py:235 | `entries.sort(key=published)`. `SortPermutes`, `SortIsAscending` and `SortIsStable` state that it is a stable, ascending permutation. |
| FeedEntries.InsertPermutes | instagram_rss/instagram_user_rss.py:235 | Inserting adds exactly the one entry. |
| FeedEntries.SortPermutes | instagram_rss/instagram_user_rss.py:235 | The sorted entries are a permutation of the entries. |
| FeedEntries.InsertSorted | instagram_rss/instagram_user_rss.py:235 | Inserting into ascending entries keeps them ascending. |
| FeedEntries.SortIsAscending | instagram_rss/instagram_user_rss.py:235 | The sorted entries are in ascending order of publication time. |
| FeedEntries.PublishedAtAppend | instagram_rss/instagram_user_rss.py:235 | Selecting the entries of one time distributes over concatenation. |
| FeedEntries.InsertStable | instagram_rss/instagram_user_rss.py:235 | Inserting into ascending entries puts the new entry after the others published at the same time. |
| FeedEntries.SortIsStable | instagram_rss/instagram_user_rss.py:235 | The sort is stable: entries published at the same time keep their order. |
| FeedEntries.BuildHeadEntries | instagram_rss/instagram_user_rss.py:156-204 | The placeholder branch or the post loop builds exactly `HeadEntries`. |
| FeedEntries.BuildPostEntries | instagram_rss/instagram_user_rss.py:172-204 | The loop appends exactly the entry of each post, in order. |
| FeedEntries.EntriesArePostEntries | instagram_rss/instagram_user_rss.py:172-204 | Entries that match the posts' entries one by one are the posts' entries. |
| FeedEntries.GenerateEntries | instagram_rss/instagram_user_rss.py:156-235 | IndexError when some story raises. Otherwise the head entries and then the story entries, stably sorted by publication time. |
| FeedEntries.FeedEntriesSortedComplete | instagram_rss/instagram_user_rss.py:156-236 | The feed's entries are ascending by time and hold every head and story entry exactly as often as it occurs. Entries of the same time keep their order. |
| FeedEntries.SortKeeps | instagram_rss/instagram_user_rss.py:235 | Every entry is still present after the sort. |
| FeedEntries.PlaceholderAlone | instagram_rss/instagram_user_rss.py:157-168 | A private, unfollowed profile without posts has the placeholder and its story entries in the feed, and nothing else. |
| FeedEntries.PostsKept | instagram_rss/instagram_user_rss.py:169-204 | Otherwise the entry of every post is in the feed. |
| FeedEntries.FeedHead | instagram_rss/instagram_user_rss.py:145-154 | The feed id and link are the profile URL and its title is the username. The `subtitle(...)` call is made only for a truthy biography, with that biography. The `description(...)` call, which feedgen also takes as the subtitle, gets the biography or "(no description)". The `icon(...)` and `logo(...)` calls are both made, with the icon URL, only when it is truthy. |
| Userscript.SplitSeveral | userscript/userscript.user.js:20-21 | A split has a second piece exactly when the separator occurs. |
| Userscript.GetProfileName | userscript/userscript.user.js:19-23 | The name is defined exactly when the path holds `/`, and it holds no `/`. |
| Userscript.ProfileNameOfPath | userscript/userscript.user.js:19-23 | `/<name>` and `/<name>/...` give `<name>`. |
| Userscript.RootPathHasNoName | userscript/userscript.user.js:30-34 | The root path gives the empty name, so the handler stops. |
| Userscript.RssUrl | userscript/userscript.user.js:40 | The URL is the service base, `/`, then the name. |
| Userscript.FeedUrlNamesUser | userscript/userscript.user.js:40 | The feed URL ends in `/instagram/<name>`, the service's route. The token after that slash is the name, and the service reads a name that is not a number as the username. |
| Userscript.RssLink | userscript/userscript.user.js:43-45 | An `a` element whose `href` is the feed URL and whose text is "RSS". `HandlerInsertsAfterAnchor` states where it goes. |
| Userscript.Handled | userscript/userscript.user.js:29-53 | The ready handler on a flat page. `HandlerInsertsAfterAnchor` states when it changes the page and how. |
| Userscript.FirstProfileAnchor | userscript/userscript.user.js:36 | The first element matching `a[href="/"][role="link"]`, or none when no element matches. |
| Userscript.HandlerInsertsAfterAnchor | userscript/userscript.user.js:29-52 | The page changes exactly when the name is truthy and the anchor exists. The one new element then stands right after the first anchor and links to the name's feed. |
| Userscript.Page.constructor | userscript/userscript.user.js:29 | The page holds the given elements. |
| Userscript.Page.Ready | userscript/userscript.user.js:29-52 | The page's elements afterwards are the handled ones. |

## Left out

- The cache's time-to-live and its backend choice are left out. aiocache may drop an entry at any time, but the model's cache only changes through `SetCachedItem`.
- FastAPI's query parsing and defaults, the environment settings and the request timeout are left out. The feed parameters arrive already parsed.
- `Service.InstagramQuery` does not model how the renderer is called. Instaloader's login, the profile lookup and the rendering are answers of the `Upstream` oracle. In the service the class is also constructed with arguments its own `__init__` does not accept, so the model treats rendering as an opaque call that may raise. The decoding of a bytes feed is an oracle too.
- `Service.InstagramQuery`: the health-check endpoint and the uvicorn start-up are left out.
- `Service.GetCachedItem` never fails in the model. In the source the store is Redis whenever one is configured, and `cache.get` raises when Redis is unreachable or the call times out. The request then answers 500 before any login.
- `Service.SetCachedItem` never fails in the model. In the source `cache.set` raises in the same way after a successful render, so the request answers 500 rather than the 200 that `Service.InstagramQuery` promises for that branch.
- `UserRss.UserData` does not model a failing request. Its `fetch` oracle always returns a record. In the source, `tools.get` raises on a network error and `response.json()` raises on an answer that is not JSON, such as the login page served for an expired session. That exception reaches every lazy property and is not one of the `LookupError` cases.
- `UserRss.UserData` does not model a `user` value that is JSON `null`, nor `KeyError`s from the answer. A missing `user` object is a record whose fields are all `None`.
- `Service.InstagramQuery` leaves out the handler's logging: the debug line for a cache hit and the error line before the 401 response. They write to the log and change no answer.
- `Strings.PyInt` accepts only an optional sign and ASCII digits. Python's `int()` also accepts surrounding whitespace, `_` separators and non-ASCII digits.
- `Strings.IsNumeric` covers ASCII digits only, not every Unicode numeric character.
- `UserRss.InstagramUserRss.constructor`: the timeout field is left out, since only the HTTP calls use it.
- `fetch_posts`, `fetch_stories` and `get_rss` are HTTP calls and are left out. Their results are the `posts` and `stories` parameters of `GenerateEntries`.
- `FeedEntries.GenerateEntries`: the feedgen serialization is left out. So are `entry.source`, `entry.updated` and the conversion of timestamps to timezone-aware datetimes. Publication times are integer timestamps.
- `FeedEntries.GenerateEntries` takes the profile's fields as a snapshot. It does not model the order in which `generate_rss_feed` reads the properties, nor the lookups those reads may trigger.
- `FeedEntries.GenerateEntries`: the `DEBUG` branch that writes a file and opens a browser is left out.
- `FeedEntries.GenerateEntries` does not model a `KeyError` from a missing key. Its records always carry the keys that `generate_rss_feed` indexes directly: a post's `node`, `shortcode` and `taken_at_timestamp`; a media node's `video_url` or `display_url`; a story's `pk` and `taken_at`; and the `url` of a story's video or image. In the source a missing one raises.
- `FeedEntries.GenerateEntries` does not model explicit JSON `null` values in posts and stories. `FeedEntries.PostTitle` gives "(no title)" for a missing caption text, but a first caption edge whose `text` is `null` gives the title `None` in the source. A `null` `edge_sidecar_to_children` or a `null` version list raises in the source. The records cannot hold either case.
- `Service.InstagramQuery` and `Service.RepeatQuery` model requests one at a time. The handler is async and awaits the cache, so concurrent misses on one key each log in, render and write the cache, the last write winning. That interleaving is not modelled.
- `FeedEntries.SortByPublished` is a function that returns the sorted entries. `list.sort` sorts in place, a library call with the same stable ordering.
- `Userscript.Page.Ready` models the page as a flat list of elements in document order. Three things are left out:
  - the DOM tree;
  - the link's styling;
  - the `setTimeout` delay and the `console.log` call.
