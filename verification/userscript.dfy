/**
 * The browser userscript (`userscript/userscript.user.js`): on an Instagram
 * page it reads the profile name from the first path segment and places an
 * "RSS" link to the feed service right after the page's home anchor.
 *
 * The page is a flat list of elements in document order; the anchor has no
 * modelled children, so "after the anchor" is the next position.
 */
module Userscript {
  import opened Wrappers
  import opened Strings
  import Service

  /** Line 17: the feed service's endpoint. */
  const UrlBase := "https://instagramrss.alertua.duckdns.org/instagram"

  /** A split has more than one piece exactly when the separator occurs. */
  lemma {:induction false} SplitSeveral(s: string, sep: char)
    ensures |Split(s, sep)| > 1 <==> sep in s
  {
    if sep in s {
      var i :| 0 <= i < |s| && s[i] == sep;
      var a, b := s[..i], s[i + 1..];
      assert s == a + [sep] + b;
      SplitAround(a, b, sep);
    } else {
      SplitWithout(s, sep);
    }
  }

  /**
   * `get_profile_name` (lines 19-23): element 1 of the pathname split on
   * `/`; `undefined` (here `None`) when the pathname holds no `/`.
   */
  function GetProfileName(pathname: string): (name: Option<string>)
    ensures name.Some? <==> '/' in pathname
    ensures name.Some? ==> '/' !in name.value
  {
    SplitSeveral(pathname, '/');
    var parts := Split(pathname, '/');
    if |parts| > 1 then Some(parts[1]) else None
  }

  /** A path `/<name>` or `/<name>/...` names the profile `<name>`. */
  lemma {:induction false} ProfileNameOfPath(name: string, rest: string)
    requires '/' !in name
    requires rest == "" || rest[0] == '/'
    ensures GetProfileName("/" + name + rest) == Some(name)
  {
    AppendAssoc3("/", name, rest);
    DropFirst("/", name + rest);
    FirstPiece(name, rest, '/');
  }

  /** Lines 30-34: the root path `/` gives the empty name, so the handler stops there. */
  lemma RootPathHasNoName()
    ensures GetProfileName("/") == Some("")
    ensures !Truthy(GetProfileName("/"))
  {
    ProfileNameOfPath("", "");
  }

  /** Line 40: the feed URL of a profile. */
  function RssUrl(name: string): (u: string)
    ensures |u| == |UrlBase| + 1 + |name|
    ensures u[..|UrlBase|] == UrlBase && u[|UrlBase|] == '/' && u[|UrlBase| + 1..] == name
  {
    UrlBase + "/" + name
  }

  /**
   * The feed URL ends in the service's route `/instagram/<name>`: the token
   * after the route's slash is the name, and the service reads a name that
   * is not a number as the username.
   */
  lemma FeedUrlNamesUser(name: string)
    requires name != "" && !IsNumeric(name)
    ensures UrlBase[|UrlBase| - |"/instagram"|..] == "/instagram"
    ensures RssUrl(name)[|UrlBase| - |"/instagram"|..] == "/instagram/" + name
    ensures var token := RssUrl(name)[|UrlBase| + 1..];
      token == name && Service.Resolve(token, None, None) == Service.Identity(None, Some(name))
  {
  }

  /** An element of the page: its tag, `href` and `role` attributes, and text. */
  datatype Element = Element(tag: string, href: Option<string>, role: Option<string>, text: string)

  /** The selector `a[href="/"][role="link"]` of line 36. */
  predicate IsProfileAnchor(e: Element) {
    e.tag == "a" && e.href == Some("/") && e.role == Some("link")
  }

  /** `document.querySelector`: the position of the first matching element. */
  function FirstProfileAnchor(page: seq<Element>): (k: Option<nat>)
    ensures k.Some? ==> k.value < |page| && IsProfileAnchor(page[k.value])
    ensures k.Some? ==> forall j :: 0 <= j < k.value ==> !IsProfileAnchor(page[j])
    ensures k.None? ==> forall j :: 0 <= j < |page| ==> !IsProfileAnchor(page[j])
    decreases |page|
  {
    if page == [] then None
    else if IsProfileAnchor(page[0]) then Some(0)
    else
      var rest := FirstProfileAnchor(page[1..]);
      if rest.None? then None else Some(rest.value + 1)
  }

  /** The link of lines 43-48 (its styling aside). */
  function RssLink(name: string): Element {
    Element("a", Some(RssUrl(name)), None, "RSS")
  }

  /**
   * The ready handler (lines 29-52) on a page: unchanged without a truthy
   * profile name or without the anchor; otherwise the link inserted right
   * after the anchor.
   */
  function Handled(page: seq<Element>, pathname: string): seq<Element> {
    var name := GetProfileName(pathname);
    if !Truthy(name) then page
    else match FirstProfileAnchor(page)
      case None => page
      case Some(k) => page[..k + 1] + [RssLink(name.value)] + page[k + 1..]
  }

  /**
   * A link is added only when the name is truthy and the anchor is found;
   * it is the one new element, it stands right after the first anchor, and
   * it points at the feed of the name.
   */
  lemma {:induction false} HandlerInsertsAfterAnchor(page: seq<Element>, pathname: string)
    ensures Handled(page, pathname) != page <==>
      Truthy(GetProfileName(pathname)) && FirstProfileAnchor(page).Some?
    ensures Truthy(GetProfileName(pathname)) && FirstProfileAnchor(page).Some? ==>
      var k := FirstProfileAnchor(page).value;
      var out := Handled(page, pathname);
      |out| == |page| + 1 && out[..k + 1] == page[..k + 1] && out[k + 2..] == page[k + 1..] &&
      IsProfileAnchor(out[k]) && out[k + 1].href == Some(RssUrl(GetProfileName(pathname).value))
  {
    var name := GetProfileName(pathname);
    if Truthy(name) && FirstProfileAnchor(page).Some? {
      var k := FirstProfileAnchor(page).value;
      var out := Handled(page, pathname);
      assert out == page[..k + 1] + [RssLink(name.value)] + page[k + 1..];
      assert |out| == |page| + 1;
      assert out[..k + 1] == page[..k + 1];
      assert out[k + 2..] == page[k + 1..];
    }
  }

  /** The page the handler works on; its elements change only by the insertion. */
  class Page {
    var elements: seq<Element>

    constructor (elements: seq<Element>)
      ensures this.elements == elements
    {
      this.elements := elements;
    }

    /** Lines 29-52 run on this page for the given location. */
    method Ready(pathname: string)
      modifies this
      ensures elements == Handled(old(elements), pathname)
    {
      var name := GetProfileName(pathname);
      if !Truthy(name) {
        return;
      }
      var anchor := FirstProfileAnchor(elements);
      if anchor.Some? {
        var k := anchor.value;
        elements := elements[..k + 1] + [RssLink(name.value)] + elements[k + 1..];
      }
    }
  }
}
