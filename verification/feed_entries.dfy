/**
 * The entries of the feed that `generate_rss_feed` builds
 * (`instagram_rss/instagram_user_rss.py`, lines 143-236): one per post,
 * or one placeholder for a private profile that is not followed, then one
 * per story, sorted by publication time. An entry is a plain record with an
 * integer timestamp; the feed generator that serialises it is not modelled.
 */
module FeedEntries {
  import opened Wrappers
  import opened Strings
  import opened UserRss

  /** `node` of a caption edge; `text` may be absent. */
  datatype CaptionNode = CaptionNode(text: Option<string>)

  /** An edge of `edge_media_to_caption`; `None` is an edge without a node. */
  datatype CaptionEdge = CaptionEdge(node: Option<CaptionNode>)

  /** A media node: a video with its URL, or an image with its display URL. */
  datatype Media = Media(isVideo: bool, videoUrl: string, displayUrl: string)

  /** An edge of `edge_sidecar_to_children`; `None` is an edge whose node is absent or empty. */
  datatype ChildEdge = ChildEdge(node: Option<Media>)

  /**
   * A post's main node. `caption` is `None` when `edge_media_to_caption` or its
   * `edges` is absent, `children` likewise for `edge_sidecar_to_children`.
   */
  datatype Post = Post(
    shortcode: string,
    takenAt: int,
    caption: Option<seq<CaptionEdge>>,
    media: Media,
    children: Option<seq<ChildEdge>>)

  /**
   * A story. `videoVersions` and `imageCandidates` are `None` when absent;
   * each version is `None` when it is an empty object, else its `url`.
   */
  datatype Story = Story(
    pk: int,
    takenAt: int,
    videoVersions: Option<seq<Option<string>>>,
    imageCandidates: Option<seq<Option<string>>>)

  /** A feed entry: id, link, author, title, HTML content, publication time. */
  datatype FeedEntry = FeedEntry(id: string, link: string, author: Option<string>, title: string, content: string, published: int)

  /** The IndexError of `[0]` on an empty version or candidate list. */
  datatype FeedError = IndexError

  const NoTitle := "(no title)"

  /**
   * Lines 179-183: the `text` of the first caption edge's node; the default
   * when the edges are absent or empty, or the first one has no text.
   */
  function PostTitle(caption: Option<seq<CaptionEdge>>): (t: string)
    ensures caption.None? || caption.value == [] ==> t == NoTitle
    ensures caption.Some? && caption.value != [] && caption.value[0].node.Some? && caption.value[0].node.value.text.Some?
      ==> t == caption.value[0].node.value.text.value
    ensures caption.Some? && caption.value != [] && (caption.value[0].node.None? || caption.value[0].node.value.text.None?)
      ==> t == NoTitle
  {
    var edges := if caption.None? || caption.value == [] then [CaptionEdge(None)] else caption.value;
    match edges[0].node
    case None => NoTitle
    case Some(n) => if n.text.Some? then n.text.value else NoTitle
  }

  /** The child nodes that are present and not empty, in order. */
  function Present(edges: seq<ChildEdge>): (nodes: seq<Media>)
    ensures |nodes| <= |edges|
    decreases |edges|
  {
    if edges == [] then []
    else
      var last := edges[|edges| - 1];
      Present(edges[..|edges| - 1]) + (if last.node.Some? then [last.node.value] else [])
  }

  /** A node is kept exactly when some child edge holds it. */
  lemma {:induction false} PresentMembers(edges: seq<ChildEdge>, m: Media)
    ensures m in Present(edges) <==> exists i :: 0 <= i < |edges| && edges[i].node == Some(m)
    decreases |edges|
  {
    if edges != [] {
      var n := |edges|;
      var init := edges[..n - 1];
      PresentMembers(init, m);
      if m in Present(edges) {
        if m in Present(init) {
          var i :| 0 <= i < n - 1 && init[i].node == Some(m);
          assert edges[i] == init[i];
        } else {
          assert edges[n - 1].node == Some(m);
        }
      } else {
        forall i | 0 <= i < n ensures edges[i].node != Some(m) {
          if i < n - 1 {
            assert edges[i] == init[i];
          }
        }
      }
    }
  }

  /**
   * Filtering keeps the order of the children: the present nodes of two runs
   * of edges are those of the first run followed by those of the second.
   */
  lemma {:induction false} PresentAppend(a: seq<ChildEdge>, b: seq<ChildEdge>)
    ensures Present(a + b) == Present(a) + Present(b)
    decreases |b|
  {
    if b == [] {
      assert a + b == a;
    } else {
      var n := |b|;
      assert (a + b)[..|a + b| - 1] == a + b[..n - 1];
      assert (a + b)[|a + b| - 1] == b[n - 1];
      PresentAppend(a, b[..n - 1]);
      var kept := if b[n - 1].node.Some? then [b[n - 1].node.value] else [];
      AppendAssoc3(Present(a), Present(b[..n - 1]), kept);
    }
  }

  /** When every child is present, the children are taken as they are, in order. */
  lemma {:induction false} PresentAll(edges: seq<ChildEdge>)
    requires forall i :: 0 <= i < |edges| ==> edges[i].node.Some?
    ensures |Present(edges)| == |edges|
    ensures forall i :: 0 <= i < |edges| ==> Present(edges)[i] == edges[i].node.value
    decreases |edges|
  {
    if edges != [] {
      var n := |edges|;
      var init := edges[..n - 1];
      assert forall i :: 0 <= i < n - 1 ==> init[i] == edges[i];
      PresentAll(init);
      assert Present(edges) == Present(init) + [edges[n - 1].node.value];
    }
  }

  /** Lines 190-193: the main node, then the present child nodes. */
  function MediaNodes(post: Post): (nodes: seq<Media>)
    ensures |nodes| >= 1 && nodes[0] == post.media
    ensures post.children.None? ==> nodes == [post.media]
    ensures post.children.Some? ==> nodes[1..] == Present(post.children.value)
  {
    var children := if post.children.None? then [ChildEdge(None)] else post.children.value;
    [post.media] + Present(children)
  }

  /** The video fragment of lines 198 and 225. */
  function VideoTag(url: string): string {
    "<br><br><video controls><source src=\"" + url + "\" type=\"video/mp4\"></video>"
  }

  /** The image fragment of lines 201 and 230: an image linked to `href`. */
  function ImageLink(href: string, url: string): string {
    "<br><br><a href=\"" + href + "\"><img src=\"" + url + "\"/></a>"
  }

  /** The link of the `i`-th image of a post (line 201): the post link with `img_index` set to `i + 1`. */
  function ImageHref(link: string, i: nat): string {
    link + "?img_index=" + NatToString(i + 1)
  }

  /** The fragment of the `i`-th media node of a post (lines 196-201). */
  function Fragment(m: Media, link: string, i: nat): string {
    if m.isVideo then VideoTag(m.videoUrl)
    else ImageLink(ImageHref(link, i), m.displayUrl)
  }

  /** One fragment per media node, in order, the `i`-th numbered `i + 1`. */
  function Fragments(nodes: seq<Media>, link: string): (fs: seq<string>)
    ensures |fs| == |nodes|
    ensures forall i :: 0 <= i < |nodes| ==> fs[i] == Fragment(nodes[i], link, i)
  {
    seq(|nodes|, i requires 0 <= i < |nodes| => Fragment(nodes[i], link, i))
  }

  /** Two image links to the same picture are equal only when their targets are. */
  lemma ImageLinkInjective(h: string, k: string, url: string)
    requires ImageLink(h, url) == ImageLink(k, url)
    ensures h == k
  {
    var open := "<br><br><a href=\"";
    var close := "\"><img src=\"" + url + "\"/></a>";
    assert ImageLink(h, url) == open + (h + close);
    assert ImageLink(k, url) == open + (k + close);
    CommonPrefix(open, h + close, k + close);
    CommonSuffix(h, k, close);
  }

  /**
   * The image number written into a fragment's link reads back as `i + 1`,
   * so the same picture at two positions of a post gives two different
   * fragments.
   */
  lemma ImageIndexReadsBack(m: Media, link: string, i: nat, j: nat)
    requires !m.isVideo
    ensures |ImageHref(link, i)| > |link + "?img_index="|
    ensures ImageHref(link, i)[..|link + "?img_index="|] == link + "?img_index="
    ensures ParseDigits(ImageHref(link, i)[|link + "?img_index="|..]) == i + 1
    ensures Fragment(m, link, i) == Fragment(m, link, j) ==> i == j
  {
    var prefix := link + "?img_index=";
    assert ImageHref(link, i)[|prefix|..] == NatToString(i + 1);
    ParseNatToString(i + 1);
    if Fragment(m, link, i) == Fragment(m, link, j) {
      ImageLinkInjective(ImageHref(link, i), ImageHref(link, j), m.displayUrl);
      CommonPrefix(prefix, NatToString(i + 1), NatToString(j + 1));
      NatToStringInjective(i + 1, j + 1);
    }
  }

  /** Line 175. */
  function PostLink(post: Post): string {
    InstagramBase + "p/" + post.shortcode + "/"
  }

  /** The start of a post's content (line 194). */
  function PostHeader(p: Profile, link: string, title: string): string {
    ShowOptStr(p.username) + " <a href='" + link + "'>post</a><br>" + title
  }

  /** The entry of one post (lines 173-204). */
  function PostEntry(p: Profile, post: Post): FeedEntry {
    var link := PostLink(post);
    var title := PostTitle(post.caption);
    FeedEntry(link, link, p.fullName, title,
      PostHeader(p, link, title) + Concat(Fragments(MediaNodes(post), link)), post.takenAt)
  }

  /**
   * A post's entry is identified and linked by the post link and authored
   * by the profile's full name; its title is the caption's, it is published
   * at the post's time, and its content is the header followed by one
   * fragment per media node.
   */
  lemma PostEntryFields(p: Profile, post: Post)
    ensures var e := PostEntry(p, post);
      e.id == e.link == PostLink(post) && e.author == p.fullName && e.title == PostTitle(post.caption) &&
      e.published == post.takenAt &&
      e.content == PostHeader(p, PostLink(post), e.title) + Concat(Fragments(MediaNodes(post), PostLink(post)))
  {
  }

  /** Equal post links mean equal shortcodes. */
  lemma PostLinkInjective(a: Post, b: Post)
    requires PostLink(a) == PostLink(b)
    ensures a.shortcode == b.shortcode
  {
    var head := InstagramBase + "p/";
    AppendAssoc3(head, a.shortcode, "/");
    AppendAssoc3(head, b.shortcode, "/");
    CommonPrefix(head, a.shortcode + "/", b.shortcode + "/");
    CommonSuffix(a.shortcode, b.shortcode, "/");
  }

  /** Entries of posts with different shortcodes have different ids. */
  lemma PostEntryIdsDistinct(p: Profile, a: Post, b: Post)
    requires a.shortcode != b.shortcode
    ensures PostEntry(p, a).id != PostEntry(p, b).id
  {
    PostEntryFields(p, a);
    PostEntryFields(p, b);
    if PostEntry(p, a).id == PostEntry(p, b).id {
      PostLinkInjective(a, b);
    }
  }

  /** Lines 194-201: the header, then `+=` of one fragment per media node. */
  method BuildPostContent(header: string, nodes: seq<Media>, link: string) returns (content: string)
    ensures content == header + Concat(Fragments(nodes, link))
  {
    ghost var fs := Fragments(nodes, link);
    content := header;
    for i := 0 to |nodes|
      invariant content == header + Concat(fs[..i])
    {
      var f := Fragment(nodes[i], link, i);
      AppendPiece(header, fs, i, content, f);
      content := content + f;
    }
    assert fs[..|nodes|] == fs;
  }

  /** One more piece written after a prefix of the pieces. */
  lemma ConcatPrefix(fs: seq<string>, i: nat)
    requires i < |fs|
    ensures Concat(fs[..i + 1]) == Concat(fs[..i]) + fs[i]
  {
    assert fs[..i + 1][..i] == fs[..i];
  }

  /** The `+=` step: text holding a prefix of the pieces, then the next piece. */
  lemma AppendPiece(header: string, fs: seq<string>, i: nat, content: string, f: string)
    requires i < |fs| && content == header + Concat(fs[..i]) && f == fs[i]
    ensures content + f == header + Concat(fs[..i + 1])
  {
    ConcatPrefix(fs, i);
  }

  /** The entry of one post, its content built as the source builds it. */
  method BuildPostEntry(p: Profile, post: Post) returns (e: FeedEntry)
    ensures e == PostEntry(p, post)
  {
    var link := PostLink(post);
    var title := PostTitle(post.caption);
    var content := BuildPostContent(PostHeader(p, link, title), MediaNodes(post), link);
    e := FeedEntry(link, link, p.fullName, title, content, post.takenAt);
  }

  /** The entries of the posts, one per post, in order. */
  function PostEntries(p: Profile, posts: seq<Post>): (es: seq<FeedEntry>)
    ensures |es| == |posts|
    ensures forall i :: 0 <= i < |posts| ==> es[i] == PostEntry(p, posts[i])
  {
    seq(|posts|, i requires 0 <= i < |posts| => PostEntry(p, posts[i]))
  }

  /** What a story shows: nothing, its video, or its image. */
  datatype Attachment = NoMedia | VideoOf(url: string) | ImageOf(url: string)

  /** `x.get(key, [{}])[0]` of lines 222 and 227: the first version; an empty list raises IndexError. */
  function FirstVersion(versions: Option<seq<Option<string>>>): (r: Result<Option<string>, FeedError>)
    ensures versions.None? ==> r == Ok(None)
    ensures versions.Some? && versions.value == [] ==> r == Err(IndexError)
    ensures versions.Some? && versions.value != [] ==> r == Ok(versions.value[0])
  {
    match versions
    case None => Ok(None)
    case Some(vs) => if vs == [] then Err(IndexError) else Ok(vs[0])
  }

  /** Lines 222-230: the first video version when it is not empty, else the first image candidate. */
  function StoryAttachment(s: Story): (r: Result<Attachment, FeedError>)
    ensures FirstVersion(s.videoVersions).Err? ==> r == Err(IndexError)
    ensures FirstVersion(s.videoVersions) == Ok(None) ==>
      r == match FirstVersion(s.imageCandidates)
           case Err(e) => Err(e)
           case Ok(None) => Ok(NoMedia)
           case Ok(Some(u)) => Ok(ImageOf(u))
    ensures forall u :: FirstVersion(s.videoVersions) == Ok(Some(u)) ==> r == Ok(VideoOf(u))
  {
    match FirstVersion(s.videoVersions)
    case Err(e) => Err(e)
    case Ok(Some(u)) => Ok(VideoOf(u))
    case Ok(None) =>
      match FirstVersion(s.imageCandidates)
      case Err(e) => Err(e)
      case Ok(None) => Ok(NoMedia)
      case Ok(Some(u)) => Ok(ImageOf(u))
  }

  /** A story shows its image only when its video versions give no video. */
  lemma ImageOnlyWithoutVideo(s: Story)
    requires StoryAttachment(s).Ok? && StoryAttachment(s).value.ImageOf?
    ensures s.videoVersions.None? || (s.videoVersions.value != [] && s.videoVersions.value[0].None?)
    ensures s.imageCandidates.Some? && s.imageCandidates.value != []
    ensures s.imageCandidates.value[0] == Some(StoryAttachment(s).value.url)
  {
  }

  /** Line 210. */
  function StoryLink(p: Profile, s: Story): string {
    InstagramBase + "stories/" + ShowOptStr(p.username) + "/" + ShowInt(s.pk) + "/"
  }

  /** The title of a story entry (line 214). */
  function StoryTitle(p: Profile): string {
    ShowOptStr(p.username) + " story"
  }

  /** The content of a story entry (lines 217 and 222-230): a link to the story, then its media. */
  function StoryContent(p: Profile, link: string, a: Attachment): string {
    var header := ShowOptStr(p.username) + " <a href=\"" + link + "\">story</a><br>" + StoryTitle(p);
    match a
    case NoMedia => header
    case VideoOf(u) => header + VideoTag(u)
    case ImageOf(u) => header + ImageLink(link, u)
  }

  /** The entry of one story (lines 209-233), or the IndexError its versions raise. */
  function StoryEntry(p: Profile, s: Story): (r: Result<FeedEntry, FeedError>)
    ensures r.Err? <==> StoryAttachment(s).Err?
  {
    match StoryAttachment(s)
    case Err(e) => Err(e)
    case Ok(a) =>
      var link := StoryLink(p, s);
      Ok(FeedEntry(link, link, p.fullName, StoryTitle(p), StoryContent(p, link, a), s.takenAt))
  }

  /**
   * A story's entry is identified and linked by the story link and authored
   * by the profile's full name; it is published at the story's time, and its
   * content shows the story's media.
   */
  lemma StoryEntryFields(p: Profile, s: Story)
    requires StoryEntry(p, s).Ok?
    ensures var e := StoryEntry(p, s).value;
      e.id == e.link == StoryLink(p, s) && e.author == p.fullName && e.title == StoryTitle(p) &&
      e.published == s.takenAt && e.content == StoryContent(p, StoryLink(p, s), StoryAttachment(s).value)
  {
  }

  /** Equal story links of a profile mean equal `pk`s. */
  lemma StoryLinkInjective(p: Profile, s: Story, t: Story)
    requires StoryLink(p, s) == StoryLink(p, t)
    ensures s.pk == t.pk
  {
    var head := InstagramBase + "stories/" + ShowOptStr(p.username) + "/";
    AppendAssoc3(head, ShowInt(s.pk), "/");
    AppendAssoc3(head, ShowInt(t.pk), "/");
    CommonPrefix(head, ShowInt(s.pk) + "/", ShowInt(t.pk) + "/");
    ShowIntPrefix(s.pk, t.pk, "/", "/");
  }

  /** Entries of two stories with different `pk`s have different ids. */
  lemma StoryEntryIdsDistinct(p: Profile, s: Story, t: Story)
    requires StoryEntry(p, s).Ok? && StoryEntry(p, t).Ok? && s.pk != t.pk
    ensures StoryEntry(p, s).value.id != StoryEntry(p, t).value.id
  {
    StoryEntryFields(p, s);
    StoryEntryFields(p, t);
    if StoryEntry(p, s).value.id == StoryEntry(p, t).value.id {
      StoryLinkInjective(p, s, t);
    }
  }

  /** The entries of the stories, one per story in order, or IndexError if any story raises it. */
  function StoryEntries(p: Profile, stories: seq<Story>): (r: Result<seq<FeedEntry>, FeedError>)
    ensures r.Ok? ==> |r.value| == |stories|
    decreases |stories|
  {
    if stories == [] then Ok([])
    else
      match StoryEntries(p, stories[..|stories| - 1])
      case Err(e) => Err(e)
      case Ok(es) =>
        match StoryEntry(p, stories[|stories| - 1])
        case Err(e) => Err(e)
        case Ok(e) => Ok(es + [e])
  }

  /** The story loop raises exactly when one of the stories raises. */
  lemma {:induction false} StoryEntriesFail(p: Profile, stories: seq<Story>)
    ensures StoryEntries(p, stories).Err? <==> exists i :: 0 <= i < |stories| && StoryEntry(p, stories[i]).Err?
    decreases |stories|
  {
    if stories != [] {
      var n := |stories|;
      var init := stories[..n - 1];
      StoryEntriesFail(p, init);
      if StoryEntries(p, init).Err? {
        var i :| 0 <= i < n - 1 && StoryEntry(p, init[i]).Err?;
        assert init[i] == stories[i];
      } else if StoryEntry(p, stories[n - 1]).Err? {
      } else {
        forall i | 0 <= i < n ensures StoryEntry(p, stories[i]).Ok? {
          if i < n - 1 {
            assert init[i] == stories[i];
          }
        }
      }
    }
  }

  /** When the story loop finishes, entry `i` is the entry of story `i`. */
  lemma {:induction false} StoryEntriesEach(p: Profile, stories: seq<Story>, i: nat)
    requires StoryEntries(p, stories).Ok? && i < |stories|
    ensures StoryEntry(p, stories[i]) == Ok(StoryEntries(p, stories).value[i])
    decreases |stories|
  {
    var n := |stories|;
    var init := stories[..n - 1];
    StoryEntriesLast(p, stories);
    if i < n - 1 {
      StoryEntriesEach(p, init, i);
      assert init[i] == stories[i];
    }
  }

  /** A finished story loop ends with the entry of the last story. */
  lemma StoryEntriesLast(p: Profile, stories: seq<Story>)
    requires stories != [] && StoryEntries(p, stories).Ok?
    ensures StoryEntries(p, stories[..|stories| - 1]).Ok? && StoryEntry(p, stories[|stories| - 1]).Ok?
    ensures StoryEntries(p, stories).value
      == StoryEntries(p, stories[..|stories| - 1]).value + [StoryEntry(p, stories[|stories| - 1]).value]
  {
  }

  /** Line 157: no posts, a private profile, and not followed by the viewer. */
  predicate IsPlaceholderCase(p: Profile, posts: seq<Post>) {
    posts == [] && p.private == Some(true) && p.followed != Some(true)
  }

  /** The title and content of the placeholder (lines 163-164). */
  function PlaceholderText(p: Profile): string {
    ShowOptStr(p.username) + " private: " + ShowOptBool(p.private) + " followed: " + ShowOptBool(p.followed)
  }

  /** Lines 159-168; `now` is the current time, which the model takes as a parameter. */
  function Placeholder(p: Profile, now: int): (e: FeedEntry)
    ensures e.id == e.link == ProfileUrl(p.username) && e.author == p.fullName
    ensures e.title == e.content == PlaceholderText(p) && e.published == now
  {
    FeedEntry(ProfileUrl(p.username), ProfileUrl(p.username), p.fullName, PlaceholderText(p), PlaceholderText(p), now)
  }

  /** The entries before the stories: the placeholder alone, or one per post. */
  function HeadEntries(p: Profile, posts: seq<Post>, now: int): (es: seq<FeedEntry>)
    ensures IsPlaceholderCase(p, posts) ==> es == [Placeholder(p, now)]
    ensures !IsPlaceholderCase(p, posts) ==> es == PostEntries(p, posts)
  {
    if IsPlaceholderCase(p, posts) then [Placeholder(p, now)] else PostEntries(p, posts)
  }

  // Sorting by publication time (line 235): Python's list.sort is stable.

  predicate SortedByPublished(s: seq<FeedEntry>) {
    forall i, j :: 0 <= i < j < |s| ==> s[i].published <= s[j].published
  }

  /** Places `e` after every entry published no later than it. */
  function Insert(e: FeedEntry, s: seq<FeedEntry>): seq<FeedEntry>
    decreases |s|
  {
    if s == [] then [e]
    else if e.published < s[0].published then [e] + s
    else [s[0]] + Insert(e, s[1..])
  }

  lemma {:induction false} InsertPermutes(e: FeedEntry, s: seq<FeedEntry>)
    ensures multiset(Insert(e, s)) == multiset(s) + multiset{e}
    decreases |s|
  {
    if s != [] && e.published >= s[0].published {
      InsertPermutes(e, s[1..]);
      assert s == [s[0]] + s[1..];
    }
  }

  /** `entries.sort(key=published)`: a stable sort, as insertion of each entry in turn. */
  function SortByPublished(s: seq<FeedEntry>): seq<FeedEntry>
    decreases |s|
  {
    if s == [] then [] else Insert(s[|s| - 1], SortByPublished(s[..|s| - 1]))
  }

  /** The sorted entries are the same entries, each as often as before. */
  lemma {:induction false} SortPermutes(s: seq<FeedEntry>)
    ensures multiset(SortByPublished(s)) == multiset(s)
    decreases |s|
  {
    if s != [] {
      var init, last := s[..|s| - 1], s[|s| - 1];
      SortPermutes(init);
      InsertPermutes(last, SortByPublished(init));
      assert SortByPublished(s) == Insert(last, SortByPublished(init));
      InitLast(s);
      assert multiset(s) == multiset(init) + multiset{last};
    }
  }

  lemma {:induction false} InsertSorted(e: FeedEntry, s: seq<FeedEntry>)
    requires SortedByPublished(s)
    ensures SortedByPublished(Insert(e, s))
    ensures Insert(e, s)[0] == e || (s != [] && Insert(e, s)[0] == s[0])
    decreases |s|
  {
    if s != [] {
      assert forall j :: 0 <= j < |s| ==> s[0].published <= s[j].published;
      if e.published >= s[0].published {
        var rest := Insert(e, s[1..]);
        InsertSorted(e, s[1..]);
        assert s[0].published <= rest[0].published;
        assert forall j :: 0 <= j < |rest| ==> rest[0].published <= rest[j].published;
      }
    }
  }

  /** The sorted entries are in ascending order of publication time. */
  lemma {:induction false} SortIsAscending(s: seq<FeedEntry>)
    ensures SortedByPublished(SortByPublished(s))
    decreases |s|
  {
    if s != [] {
      SortIsAscending(s[..|s| - 1]);
      InsertSorted(s[|s| - 1], SortByPublished(s[..|s| - 1]));
    }
  }

  /** The entries of `s` published at `t`, in order. */
  function PublishedAt(s: seq<FeedEntry>, t: int): seq<FeedEntry>
    decreases |s|
  {
    if s == [] then []
    else (if s[0].published == t then [s[0]] else []) + PublishedAt(s[1..], t)
  }

  lemma PublishedAtCons(x: FeedEntry, s: seq<FeedEntry>, t: int)
    ensures PublishedAt([x] + s, t) == PublishedAt([x], t) + PublishedAt(s, t)
  {
    assert ([x] + s)[1..] == s;
    assert [x][1..] == [];
  }

  lemma {:induction false} PublishedAtAppend(a: seq<FeedEntry>, b: seq<FeedEntry>, t: int)
    ensures PublishedAt(a + b, t) == PublishedAt(a, t) + PublishedAt(b, t)
    decreases |a|
  {
    if a == [] {
      assert a + b == b;
    } else {
      assert a + b == [a[0]] + (a[1..] + b);
      assert a == [a[0]] + a[1..];
      PublishedAtAppend(a[1..], b, t);
      PublishedAtCons(a[0], a[1..] + b, t);
      PublishedAtCons(a[0], a[1..], t);
    }
  }

  /** Entries none of which is published at `t` have none at `t`. */
  lemma {:induction false} PublishedAtNone(s: seq<FeedEntry>, t: int)
    requires forall j :: 0 <= j < |s| ==> s[j].published != t
    ensures PublishedAt(s, t) == []
    decreases |s|
  {
    if s != [] {
      PublishedAtNone(s[1..], t);
    }
  }

  /** The entries at `t` of a single entry. */
  lemma PublishedAtOne(e: FeedEntry, t: int)
    ensures PublishedAt([e], t) == if e.published == t then [e] else []
  {
    assert [e][1..] == [];
  }

  /** An entry placed before sorted entries all published later. */
  lemma InsertStableFront(e: FeedEntry, s: seq<FeedEntry>, t: int)
    requires SortedByPublished(s) && s != [] && e.published < s[0].published
    ensures PublishedAt([e] + s, t) == PublishedAt(s, t) + PublishedAt([e], t)
  {
    PublishedAtCons(e, s, t);
    PublishedAtOne(e, t);
    if e.published == t {
      assert forall j :: 0 <= j < |s| ==> s[0].published <= s[j].published;
      PublishedAtNone(s, t);
    }
  }

  /** Inserting into sorted entries keeps the entries of every time in order, `e` after its equals. */
  lemma {:induction false} InsertStable(e: FeedEntry, s: seq<FeedEntry>, t: int)
    requires SortedByPublished(s)
    ensures PublishedAt(Insert(e, s), t) == PublishedAt(s, t) + PublishedAt([e], t)
    decreases |s|
  {
    if s == [] {
      assert Insert(e, s) == [e];
    } else if e.published < s[0].published {
      assert Insert(e, s) == [e] + s;
      InsertStableFront(e, s, t);
    } else {
      assert SortedByPublished(s[1..]);
      InsertStable(e, s[1..], t);
      InsertStableBehind(e, s, t);
    }
  }

  /** A non-empty sequence is its front followed by its last element. */
  lemma InitLast<T>(s: seq<T>)
    requires s != []
    ensures s == s[..|s| - 1] + [s[|s| - 1]]
  {
  }

  /** An entry placed behind the first of the entries, given that it keeps the order among the rest. */
  lemma InsertStableBehind(e: FeedEntry, s: seq<FeedEntry>, t: int)
    requires s != [] && e.published >= s[0].published
    requires PublishedAt(Insert(e, s[1..]), t) == PublishedAt(s[1..], t) + PublishedAt([e], t)
    ensures PublishedAt(Insert(e, s), t) == PublishedAt(s, t) + PublishedAt([e], t)
  {
    var rest := s[1..];
    var inserted := Insert(e, rest);
    assert Insert(e, s) == [s[0]] + inserted;
    PublishedAtCons(s[0], inserted, t);
    PublishedAtCons(s[0], rest, t);
    assert [s[0]] + rest == s;
    AppendAssoc3(PublishedAt([s[0]], t), PublishedAt(rest, t), PublishedAt([e], t));
  }

  /** The sort is stable: the entries of each publication time keep their order. */
  lemma {:induction false} SortIsStable(s: seq<FeedEntry>, t: int)
    ensures PublishedAt(SortByPublished(s), t) == PublishedAt(s, t)
    decreases |s|
  {
    if s != [] {
      var init, last := s[..|s| - 1], s[|s| - 1];
      SortIsStable(init, t);
      SortIsAscending(init);
      InsertStable(last, SortByPublished(init), t);
      InitLast(s);
      PublishedAtAppend(init, [last], t);
    }
  }

  /** Lines 156-204: the placeholder alone, or the loop over the posts. */
  method BuildHeadEntries(p: Profile, posts: seq<Post>, now: int) returns (entries: seq<FeedEntry>)
    ensures entries == HeadEntries(p, posts, now)
  {
    if posts == [] && p.private == Some(true) && p.followed != Some(true) {
      entries := [Placeholder(p, now)];
    } else {
      entries := BuildPostEntries(p, posts);
    }
  }

  /** Lines 172-204: the loop that appends one entry per post. */
  method BuildPostEntries(p: Profile, posts: seq<Post>) returns (entries: seq<FeedEntry>)
    ensures entries == PostEntries(p, posts)
  {
    entries := [];
    for i := 0 to |posts|
      invariant |entries| == i
      invariant forall k :: 0 <= k < i ==> entries[k] == PostEntry(p, posts[k])
    {
      var e := BuildPostEntry(p, posts[i]);
      entries := entries + [e];
    }
    EntriesArePostEntries(p, posts, entries);
  }

  /** Entries that agree with the posts' entries one by one are the posts' entries. */
  lemma EntriesArePostEntries(p: Profile, posts: seq<Post>, entries: seq<FeedEntry>)
    requires |entries| == |posts| && forall k :: 0 <= k < |posts| ==> entries[k] == PostEntry(p, posts[k])
    ensures entries == PostEntries(p, posts)
  {
  }

  /** One story that raises makes the whole story loop raise. */
  lemma StoryFails(p: Profile, stories: seq<Story>, i: nat)
    requires i < |stories| && StoryEntry(p, stories[i]).Err?
    ensures StoryEntries(p, stories).Err?
  {
    StoryEntriesFail(p, stories);
  }

  /** One more story entry after those of a prefix of the stories. */
  lemma StoryStep(p: Profile, stories: seq<Story>, i: nat)
    requires i < |stories| && StoryEntries(p, stories[..i]).Ok? && StoryEntry(p, stories[i]).Ok?
    ensures StoryEntries(p, stories[..i + 1]) == Ok(StoryEntries(p, stories[..i]).value + [StoryEntry(p, stories[i]).value])
  {
    assert stories[..i + 1][..i] == stories[..i];
  }

  /**
   * The entry-building of `generate_rss_feed` (lines 156-235): the head
   * entries, then one per story, then the stable sort; an empty version
   * list of a story raises IndexError.
   */
  method GenerateEntries(p: Profile, posts: seq<Post>, stories: seq<Story>, now: int) returns (r: Result<seq<FeedEntry>, FeedError>)
    ensures StoryEntries(p, stories).Err? ==> r == Err(IndexError)
    ensures StoryEntries(p, stories).Ok? ==> r == Ok(SortByPublished(HeadEntries(p, posts, now) + StoryEntries(p, stories).value))
  {
    var entries := BuildHeadEntries(p, posts, now);
    ghost var head := entries;
    for i := 0 to |stories|
      invariant StoryEntries(p, stories[..i]).Ok?
      invariant entries == head + StoryEntries(p, stories[..i]).value
    {
      var e := StoryEntry(p, stories[i]);
      if e.Err? {
        StoryFails(p, stories, i);
        return Err(IndexError);
      }
      StoryStep(p, stories, i);
      entries := entries + [e.value];
    }
    assert stories[..|stories|] == stories;
    r := Ok(SortByPublished(entries));
  }

  /**
   * The feed's entries are sorted ascending by publication time, hold each
   * head and story entry exactly as often as they occur, and keep the order
   * of entries published at the same time.
   */
  lemma FeedEntriesSortedComplete(p: Profile, posts: seq<Post>, stories: seq<Story>, now: int, t: int)
    requires StoryEntries(p, stories).Ok?
    ensures var all := HeadEntries(p, posts, now) + StoryEntries(p, stories).value;
      SortedByPublished(SortByPublished(all)) &&
      multiset(SortByPublished(all)) == multiset(all) &&
      PublishedAt(SortByPublished(all), t) == PublishedAt(all, t)
  {
    var all := HeadEntries(p, posts, now) + StoryEntries(p, stories).value;
    SortIsAscending(all);
    SortPermutes(all);
    SortIsStable(all, t);
  }

  /** Every entry is among the sorted entries. */
  lemma SortKeeps(s: seq<FeedEntry>, i: nat)
    requires i < |s|
    ensures s[i] in SortByPublished(s)
  {
    SortPermutes(s);
    assert s[i] in multiset(s);
  }

  /**
   * A private, unfollowed profile without posts has the placeholder and its
   * story entries in its feed, and nothing else.
   */
  lemma PlaceholderAlone(p: Profile, posts: seq<Post>, stories: seq<Story>, now: int)
    requires StoryEntries(p, stories).Ok? && IsPlaceholderCase(p, posts)
    ensures multiset(SortByPublished(HeadEntries(p, posts, now) + StoryEntries(p, stories).value))
      == multiset{Placeholder(p, now)} + multiset(StoryEntries(p, stories).value)
  {
    var head, rest := HeadEntries(p, posts, now), StoryEntries(p, stories).value;
    SortPermutes(head + rest);
    assert head == [Placeholder(p, now)];
  }

  /** Otherwise the entry of every post is in the feed. */
  lemma PostsKept(p: Profile, posts: seq<Post>, stories: seq<Story>, now: int, k: nat)
    requires StoryEntries(p, stories).Ok? && !IsPlaceholderCase(p, posts) && k < |posts|
    ensures PostEntry(p, posts[k]) in SortByPublished(HeadEntries(p, posts, now) + StoryEntries(p, stories).value)
  {
    var all := HeadEntries(p, posts, now) + StoryEntries(p, stories).value;
    assert all[k] == PostEntry(p, posts[k]);
    SortKeeps(all, k);
  }

  /**
   * The feed's own fields as the calls of lines 145-154 set them: `subtitle`
   * is the argument of the `subtitle(...)` call, made only for a truthy
   * biography, and `description` that of `description(...)`, which feedgen
   * also uses as the subtitle. Serialization is not part of this model.
   */
  datatype FeedMeta = FeedMeta(id: string, title: Option<string>, subtitle: Option<string>, description: string,
                               link: string, icon: Option<string>, logo: Option<string>)

  /** The feed is identified and linked by the profile URL; biography, icon and logo only when truthy. */
  function FeedHead(p: Profile): (m: FeedMeta)
    ensures m.id == m.link == ProfileUrl(p.username) && m.title == p.username
    ensures m.subtitle.Some? <==> Truthy(p.biography)
    ensures m.subtitle.Some? ==> m.subtitle == p.biography
    ensures m.description == if Truthy(p.biography) then p.biography.value else "(no description)"
    ensures m.icon.Some? <==> Truthy(p.iconUrl)
    ensures m.icon.Some? ==> m.icon == p.iconUrl
    ensures m.logo == m.icon
  {
    var image := if Truthy(p.iconUrl) then p.iconUrl else None;
    FeedMeta(ProfileUrl(p.username), p.username,
      if Truthy(p.biography) then p.biography else None,
      if Truthy(p.biography) then p.biography.value else "(no description)",
      ProfileUrl(p.username),
      image, image)
  }

}
