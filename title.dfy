/**
 * `extractTitleFromPage`, identical in both copies of the server: scan the
 * page's properties in key order and return the text of the first `title`
 * property whose first segment carries some, preferring `plain_text` over
 * `text.content`.
 */
module Title {
  import opened Json

  /**
   * The values `props[key]` for `key of Object.keys(props)`, in order: the
   * members of an object, the elements of an array. Any other truthy value
   * yields nothing that can be a title property (a string's keys reach
   * one-character strings, which have no `type`), so it is modelled as
   * having no entries.
   */
  function Entries(props: Json): seq<Json> {
    match props
    case JObj(ms) => seq(|ms|, i requires 0 <= i < |ms| => ms[i].value)
    case JArr(xs) => xs
    case _ => []
  }

  /** `prop?.type === 'title' && Array.isArray(prop.title)` */
  predicate IsTitleProperty(prop: Json) {
    && Dot(Some(prop), "type") == Some(JStr("title"))
    && Dot(Some(prop), "title").Some?
    && Dot(Some(prop), "title").value.JArr?
  }

  /** `first?.plain_text` when truthy, else `first?.text?.content` when truthy, else nothing. */
  function SegmentText(first: Option<Json>): (r: Option<Json>)
    ensures r.Some? ==> Truthy(r)
  {
    if Truthy(Dot(first, "plain_text")) then Dot(first, "plain_text")
    else if Truthy(Dot(Dot(first, "text"), "content")) then Dot(Dot(first, "text"), "content")
    else None
  }

  /** What one property contributes: the text of its first segment when it is a title property. */
  function PropertyTitle(prop: Json): (r: Option<Json>)
    ensures r.Some? ==> IsTitleProperty(prop) && Truthy(r)
  {
    if IsTitleProperty(prop) then SegmentText(First(Dot(Some(prop), "title"))) else None
  }

  /** What each entry contributes, in scan order. */
  function Contributions(entries: seq<Json>): (cs: seq<Option<Json>>)
    ensures |cs| == |entries|
  {
    seq(|entries|, i requires 0 <= i < |entries| => PropertyTitle(entries[i]))
  }

  /** The first contribution that is not undefined. */
  function FirstSome(cs: seq<Option<Json>>): Option<Json> {
    if cs == [] then None
    else if cs[0].Some? then cs[0]
    else FirstSome(cs[1..])
  }

  /** The value `extractTitleFromPage(page)` returns; `None` is undefined. */
  function PageTitle(page: Option<Json>): Option<Json> {
    if !Truthy(page) || !Truthy(Dot(page, "properties")) then None
    else FirstSome(Contributions(Entries(Dot(page, "properties").value)))
  }

  /**
   * The scan stops at the first contribution and returns it; it finds
   * nothing exactly when nothing contributes.
   */
  lemma {:induction false} FirstSomeIsFirstMatch(cs: seq<Option<Json>>)
    ensures FirstSome(cs).None? <==> forall i :: 0 <= i < |cs| ==> cs[i].None?
    ensures forall i :: 0 <= i < |cs| && cs[i].Some? && (forall j :: 0 <= j < i ==> cs[j].None?) ==>
      FirstSome(cs) == cs[i]
    ensures FirstSome(cs).Some? ==> exists i :: 0 <= i < |cs| && FirstSome(cs) == cs[i]
  {
    if cs != [] && cs[0].None? {
      FirstSomeIsFirstMatch(cs[1..]);
      assert forall i :: 1 <= i < |cs| ==> cs[i] == cs[1..][i - 1];
    }
  }

  /**
   * Over a page's entries: the scan returns the text of the first title
   * property that yields text, and nothing exactly when no property yields any.
   */
  lemma ScanIsFirstMatch(es: seq<Json>)
    ensures FirstSome(Contributions(es)).None? <==> forall i :: 0 <= i < |es| ==> PropertyTitle(es[i]).None?
    ensures forall i :: 0 <= i < |es| && PropertyTitle(es[i]).Some? && (forall j :: 0 <= j < i ==> PropertyTitle(es[j]).None?) ==>
      FirstSome(Contributions(es)) == PropertyTitle(es[i])
  {
    var cs := Contributions(es);
    FirstSomeIsFirstMatch(cs);
    assert forall i :: 0 <= i < |es| ==> cs[i] == PropertyTitle(es[i]);
  }

  /** A title, when found, is a truthy value taken from some title property of the page. */
  lemma PageTitleFromSomeProperty(page: Option<Json>)
    ensures PageTitle(page).Some? ==>
      && Truthy(PageTitle(page))
      && Truthy(page) && Truthy(Dot(page, "properties"))
      && exists e :: e in Entries(Dot(page, "properties").value) && IsTitleProperty(e) && PageTitle(page) == PropertyTitle(e)
  {
    if PageTitle(page).Some? {
      var es := Entries(Dot(page, "properties").value);
      var cs := Contributions(es);
      FirstSomeIsFirstMatch(cs);
      var i :| 0 <= i < |cs| && FirstSome(cs) == cs[i];
      assert es[i] in es;
    }
  }

  /** An absent or falsy page, or one without truthy properties, has no title. */
  lemma NoPropertiesNoTitle(page: Option<Json>)
    requires page.None? || page == Some(JNull) || Dot(page, "properties").None?
    ensures PageTitle(page).None?
  {
  }

  /**
   * A title property whose first segment has a truthy `plain_text` yields it;
   * when `plain_text` is falsy but `text.content` is truthy, that is used.
   */
  lemma PlainTextPreferred(prop: Json, first: Json)
    requires IsTitleProperty(prop) && First(Dot(Some(prop), "title")) == Some(first)
    ensures Truthy(Dot(Some(first), "plain_text")) ==> PropertyTitle(prop) == Dot(Some(first), "plain_text")
    ensures !Truthy(Dot(Some(first), "plain_text")) && Truthy(Dot(Dot(Some(first), "text"), "content")) ==>
      PropertyTitle(prop) == Dot(Dot(Some(first), "text"), "content")
    ensures !Truthy(Dot(Some(first), "plain_text")) && !Truthy(Dot(Dot(Some(first), "text"), "content")) ==>
      PropertyTitle(prop).None?
  {
  }

  /** `extractTitleFromPage(page)`: the loop over `Object.keys(props)` with early return. */
  method ExtractTitleFromPage(page: Option<Json>) returns (title: Option<Json>)
    ensures title == PageTitle(page)
  {
    if !Truthy(page) || !Truthy(Dot(page, "properties")) {
      return None;
    }
    var entries := Entries(Dot(page, "properties").value);
    ghost var cs := Contributions(entries);
    for i := 0 to |entries|
      invariant PageTitle(page) == FirstSome(cs[i..])
    {
      var prop := entries[i];
      assert cs[i..][1..] == cs[i + 1..];
      if Dot(Some(prop), "type") == Some(JStr("title")) && Dot(Some(prop), "title").Some? && Dot(Some(prop), "title").value.JArr? {
        var first := First(Dot(Some(prop), "title"));
        if Truthy(Dot(first, "plain_text")) {
          return Dot(first, "plain_text");
        }
        if Truthy(Dot(Dot(first, "text"), "content")) {
          return Dot(Dot(first, "text"), "content");
        }
      }
    }
    return None;
  }
}
