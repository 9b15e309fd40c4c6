/**
 * The result normalizers of the tool handlers, identical in both copies:
 * search and database listing map each result record to a small summary,
 * page listing maps each page to `{id, url, title}`, and the append tools
 * report the ids of the blocks the remote side created.
 *
 * A JavaScript expression that reads a property of `null` (or calls `map`
 * on something that is not an array) throws; such an outcome is `Thrown`,
 * which the tool layer passes on as an execution error.
 */
module Normalize {
  import opened Json
  import Title

  datatype Outcome<T> = Ok(value: T) | Thrown

  /** `rs.map(f)` where `f` reads a property of its argument, so a null element throws. */
  function MapNonNull(f: Json -> Json, rs: seq<Json>): (o: Outcome<seq<Json>>)
    ensures o.Ok? <==> JNull !in rs
    ensures o.Ok? ==> |o.value| == |rs| && forall i :: 0 <= i < |rs| ==> o.value[i] == f(rs[i])
  {
    if rs == [] then Ok([])
    else if rs[0] == JNull then Thrown
    else match MapNonNull(f, rs[1..])
      case Thrown => Thrown
      case Ok(tail) =>
        assert forall i :: 1 <= i < |rs| ==> rs[i] == rs[1..][i - 1];
        Ok([f(rs[0])] + tail)
  }

  predicate IsPage(r: Json) {
    Get(r, "object") == Some(JStr("page"))
  }

  predicate IsDatabase(r: Json) {
    Get(r, "object") == Some(JStr("database"))
  }

  /** `r.title?.[0]?.plain_text`: a database's title. */
  function DatabaseTitle(r: Json): Option<Json> {
    Dot(First(Dot(Some(r), "title")), "plain_text")
  }

  /** `{id: r.id, object: r.object, title, url: r.url}`, undefined members dropped. */
  function Summary(r: Json, title: Option<Json>): seq<Member> {
    Field("id", Get(r, "id")) + Field("object", Get(r, "object")) + Field("title", title) + Field("url", Get(r, "url"))
  }

  /** The summary of one search result: pages and databases with a title and url, anything else `{id, object}`. */
  function SearchItem(r: Json): Json {
    if IsPage(r) then JObj(Summary(r, Title.PageTitle(Some(r))))
    else if IsDatabase(r) then JObj(Summary(r, DatabaseTitle(r)))
    else JObj(Field("id", Get(r, "id")) + Field("object", Get(r, "object")))
  }

  /** The summary of one database listed by `notion_list_databases`, whatever its kind. */
  function DatabaseItem(r: Json): Json {
    JObj(Summary(r, DatabaseTitle(r)))
  }

  /** `{id: p.id, url: p.url, title: extractTitleFromPage(p)}` */
  function PageRow(p: Json): Json {
    JObj(Field("id", Get(p, "id")) + Field("url", Get(p, "url")) + Field("title", Title.PageTitle(Some(p))))
  }

  /** `!!res.has_more` */
  function HasMore(res: Json): bool {
    Truthy(Get(res, "has_more"))
  }

  /** `{results, has_more}` */
  function Listing(items: seq<Json>, res: Json): Json {
    JObj([Member("results", JArr(items)), Member("has_more", JBool(HasMore(res)))])
  }

  /** `res.results.map(f)`: throws unless `res` is non-null and its `results` is an array with no null element. */
  function MapResults(f: Json -> Json, res: Json): Outcome<seq<Json>> {
    if res == JNull then Thrown
    else match Get(res, "results")
      case Some(JArr(rs)) => MapNonNull(f, rs)
      case _ => Thrown
  }

  /** `(res.results || []).map(f)`: a falsy `results` counts as the empty list. */
  function MapResultsOrEmpty(f: Json -> Json, res: Json): Outcome<seq<Json>> {
    if res == JNull then Thrown
    else if !Truthy(Get(res, "results")) then Ok([])
    else match Get(res, "results")
      case Some(JArr(rs)) => MapNonNull(f, rs)
      case _ => Thrown
  }

  /** The structured output of `notion_search`. */
  function NormalizeSearch(res: Json): Outcome<Json> {
    match MapResults(SearchItem, res)
    case Ok(items) => Ok(Listing(items, res))
    case Thrown => Thrown
  }

  /** The structured output of `notion_list_databases`. */
  function NormalizeDatabases(res: Json): Outcome<Json> {
    match MapResults(DatabaseItem, res)
    case Ok(items) => Ok(Listing(items, res))
    case Thrown => Thrown
  }

  /** The structured output of `notion_list_pages_in_database`. */
  function NormalizePages(res: Json): Outcome<Json> {
    match MapResultsOrEmpty(PageRow, res)
    case Ok(items) => Ok(Listing(items, res))
    case Thrown => Thrown
  }

  /** `bs.map((b) => b?.id).filter(Boolean)`: the truthy ids, in order. */
  function TruthyIds(bs: seq<Json>): (ids: seq<Json>)
    ensures |ids| <= |bs|
    ensures forall x :: x in ids ==> Truthy(Some(x))
  {
    if bs == [] then []
    else
      var id := Dot(Some(bs[0]), "id");
      (if Truthy(id) then [id.value] else []) + TruthyIds(bs[1..])
  }

  /** The structured output of `notion_append_blocks`: `{success: true, added_block_ids}`. */
  function AppendBlocksOutput(res: Json): Outcome<Json> {
    if res == JNull then Thrown
    else if !Truthy(Get(res, "results")) then Ok(JObj([Member("success", JBool(true)), Member("added_block_ids", JArr([]))]))
    else match Get(res, "results")
      case Some(JArr(bs)) => Ok(JObj([Member("success", JBool(true)), Member("added_block_ids", JArr(TruthyIds(bs)))]))
      case _ => Thrown
  }

  /** The structured output of `notion_append_paragraph`: `{success: true, added_block_id: res.results?.[0]?.id}`. */
  function AppendParagraphOutput(res: Json): Outcome<Json> {
    if res == JNull then Thrown
    else Ok(JObj([Member("success", JBool(true))] + Field("added_block_id", Dot(First(Get(res, "results")), "id"))))
  }

  // Properties of the normalizers

  /** The members of a summary: each read from the record, the title as given, nothing else. */
  lemma SummaryLookup(r: Json, title: Option<Json>, k: string)
    ensures Lookup(Summary(r, title), k) ==
      if k == "id" then Get(r, "id")
      else if k == "object" then Get(r, "object")
      else if k == "title" then title
      else if k == "url" then Get(r, "url")
      else None
  {
    var a, b, c, d := Field("id", Get(r, "id")), Field("object", Get(r, "object")), Field("title", title), Field("url", Get(r, "url"));
    assert Summary(r, title) == a + (b + (c + d));
    LookupAppend(a, b + (c + d), k);
    LookupAppend(b, c + d, k);
    LookupAppend(c, d, k);
  }

  /**
   * Per kind: a page is summarised with the title `extractTitleFromPage`
   * finds, a database with `title[0].plain_text`, both with their id, kind
   * and url; any other record yields its id and kind and nothing else.
   */
  lemma SearchItemShape(r: Json, k: string)
    ensures var item := SearchItem(r).members;
      && Lookup(item, "id") == Get(r, "id")
      && Lookup(item, "object") == Get(r, "object")
      && (IsPage(r) ==> Lookup(item, "title") == Title.PageTitle(Some(r)) && Lookup(item, "url") == Get(r, "url"))
      && (IsDatabase(r) ==> Lookup(item, "title") == DatabaseTitle(r) && Lookup(item, "url") == Get(r, "url"))
      && (k != "id" && k != "object" && k != "title" && k != "url" ==> Lookup(item, k).None?)
      && (!IsPage(r) && !IsDatabase(r) && k != "id" && k != "object" ==> Lookup(item, k).None?)
  {
    var t := if IsPage(r) then Title.PageTitle(Some(r)) else DatabaseTitle(r);
    SummaryLookup(r, t, "id");
    SummaryLookup(r, t, "object");
    SummaryLookup(r, t, "title");
    SummaryLookup(r, t, "url");
    SummaryLookup(r, t, k);
    var a, b := Field("id", Get(r, "id")), Field("object", Get(r, "object"));
    LookupAppend(a, b, "id");
    LookupAppend(a, b, "object");
    LookupAppend(a, b, k);
  }

  /** A listed page row holds its id, url and title and never an `object` member. */
  lemma PageRowShape(p: Json, k: string)
    ensures var row := PageRow(p).members;
      && Lookup(row, "id") == Get(p, "id")
      && Lookup(row, "url") == Get(p, "url")
      && Lookup(row, "title") == Title.PageTitle(Some(p))
      && (k != "id" && k != "url" && k != "title" ==> Lookup(row, k).None?)
  {
    var t := Title.PageTitle(Some(p));
    assert "id" != "url" && "id" != "title" && "url" != "title" by {
      assert |"id"| != |"url"| && |"id"| != |"title"| && |"url"| != |"title"|;
    }
    FieldsLookup("id", Get(p, "id"), "url", Get(p, "url"), "title", t, "id");
    FieldsLookup("id", Get(p, "id"), "url", Get(p, "url"), "title", t, "url");
    FieldsLookup("id", Get(p, "id"), "url", Get(p, "url"), "title", t, "title");
    FieldsLookup("id", Get(p, "id"), "url", Get(p, "url"), "title", t, k);
  }

  /**
   * Search normalization succeeds exactly when the response is an object
   * whose `results` is an array without null elements; it then keeps the
   * length and the order of the results, summarises each one by itself, and
   * coerces `has_more` to a boolean, so an absent flag becomes false.
   */
  lemma NormalizeSearchPreservesOrder(res: Json)
    ensures NormalizeSearch(res).Ok? <==>
      res != JNull && Get(res, "results").Some? && Get(res, "results").value.JArr? && JNull !in Get(res, "results").value.elems
    ensures NormalizeSearch(res).Ok? ==>
      var rs := Get(res, "results").value.elems;
      var out := NormalizeSearch(res).value.members;
      && Lookup(out, "results").Some? && Lookup(out, "results").value.JArr?
      && |Lookup(out, "results").value.elems| == |rs|
      && (forall i :: 0 <= i < |rs| ==> Lookup(out, "results").value.elems[i] == SearchItem(rs[i]))
      && Lookup(out, "has_more") == Some(JBool(Truthy(Get(res, "has_more"))))
      && (Get(res, "has_more").None? ==> Lookup(out, "has_more") == Some(JBool(false)))
  {
  }

  /** Database listing: same success condition, same order, every record summarised as a database, `has_more` coerced to a boolean. */
  lemma NormalizeDatabasesPreservesOrder(res: Json)
    ensures NormalizeDatabases(res).Ok? <==>
      res != JNull && Get(res, "results").Some? && Get(res, "results").value.JArr? && JNull !in Get(res, "results").value.elems
    ensures NormalizeDatabases(res).Ok? ==>
      var rs := Get(res, "results").value.elems;
      var out := NormalizeDatabases(res).value.members;
      && Lookup(out, "results").Some? && Lookup(out, "results").value.JArr?
      && |Lookup(out, "results").value.elems| == |rs|
      && (forall i :: 0 <= i < |rs| ==> Lookup(out, "results").value.elems[i] == DatabaseItem(rs[i]))
      && Lookup(out, "has_more") == Some(JBool(Truthy(Get(res, "has_more"))))
  {
  }

  /**
   * Page listing: a missing or falsy `results` gives an empty list; an
   * array without nulls is mapped row by row, in order; `has_more` defaults
   * to false.
   */
  lemma NormalizePagesPreservesOrder(res: Json)
    ensures res == JNull ==> NormalizePages(res) == Thrown
    ensures res != JNull && !Truthy(Get(res, "results")) ==> NormalizePages(res) == Ok(Listing([], res))
    ensures Get(res, "results").Some? && Get(res, "results").value.JArr? && JNull !in Get(res, "results").value.elems ==>
      var rs := Get(res, "results").value.elems;
      && NormalizePages(res).Ok?
      && var items := Lookup(NormalizePages(res).value.members, "results").value.elems;
      && |items| == |rs|
      && forall i :: 0 <= i < |rs| ==> items[i] == PageRow(rs[i])
    ensures Get(res, "has_more").None? && NormalizePages(res).Ok? ==>
      Lookup(NormalizePages(res).value.members, "has_more") == Some(JBool(false))
  {
  }

  /** `filter` after `map` distributes over concatenation: the ids of a split list are the ids of its parts. */
  lemma {:induction false} TruthyIdsAppend(a: seq<Json>, b: seq<Json>)
    ensures TruthyIds(a + b) == TruthyIds(a) + TruthyIds(b)
  {
    if a != [] {
      assert (a + b)[0] == a[0] && (a + b)[1..] == a[1..] + b;
      TruthyIdsAppend(a[1..], b);
    } else {
      assert a + b == b;
    }
  }

  /** Every kept id is the id of some block, and a block whose id is truthy keeps it. */
  lemma {:induction false} TruthyIdsAreIds(bs: seq<Json>)
    ensures forall x :: x in TruthyIds(bs) ==> exists b :: b in bs && Dot(Some(b), "id") == Some(x)
    ensures forall b :: b in bs && Truthy(Dot(Some(b), "id")) ==> Dot(Some(b), "id").value in TruthyIds(bs)
  {
    if bs != [] {
      TruthyIdsAreIds(bs[1..]);
      assert forall b :: b in bs[1..] ==> b in bs;
      assert forall b :: b in bs ==> b == bs[0] || b in bs[1..];
    }
  }

  /** When every block has a truthy id, nothing is dropped: the ids are the blocks' ids, in order. */
  lemma {:induction false} TruthyIdsKeepAll(bs: seq<Json>)
    requires forall i :: 0 <= i < |bs| ==> Truthy(Dot(Some(bs[i]), "id"))
    ensures |TruthyIds(bs)| == |bs|
    ensures forall i :: 0 <= i < |bs| ==> Some(TruthyIds(bs)[i]) == Dot(Some(bs[i]), "id")
  {
    if bs != [] {
      assert forall i :: 1 <= i < |bs| ==> bs[i] == bs[1..][i - 1];
      TruthyIdsKeepAll(bs[1..]);
    }
  }

  /** Append-blocks always reports success; absent results give no ids, an array gives its truthy ids. */
  lemma AppendBlocksReportsIds(res: Json)
    ensures res == JNull ==> AppendBlocksOutput(res) == Thrown
    ensures res != JNull && Get(res, "results").None? ==>
      AppendBlocksOutput(res) == Ok(JObj([Member("success", JBool(true)), Member("added_block_ids", JArr([]))]))
    ensures Get(res, "results").Some? && Get(res, "results").value.JArr? ==>
      AppendBlocksOutput(res) == Ok(JObj([Member("success", JBool(true)), Member("added_block_ids", JArr(TruthyIds(Get(res, "results").value.elems)))]))
    ensures AppendBlocksOutput(res).Ok? ==> Lookup(AppendBlocksOutput(res).value.members, "success") == Some(JBool(true))
  {
  }

  /**
   * Append-paragraph reports success and the id of the first created block;
   * without results, or when that block has no id, the id is left out.
   */
  lemma AppendParagraphReportsFirstId(res: Json)
    ensures res == JNull ==> AppendParagraphOutput(res) == Thrown
    ensures res != JNull ==> AppendParagraphOutput(res).Ok?
    ensures Get(res, "results").Some? && Get(res, "results").value.JArr? && |Get(res, "results").value.elems| > 0 ==>
      var first := Get(res, "results").value.elems[0];
      AppendParagraphOutput(res) == Ok(JObj([Member("success", JBool(true))] + Field("added_block_id", Dot(Some(first), "id"))))
    ensures res != JNull && Get(res, "results").None? ==>
      AppendParagraphOutput(res) == Ok(JObj([Member("success", JBool(true))]))
  {
    if res != JNull && Get(res, "results").None? {
      assert Field("added_block_id", Dot(First(Get(res, "results")), "id")) == [];
      assert [Member("success", JBool(true))] + [] == [Member("success", JBool(true))];
    }
  }
}
