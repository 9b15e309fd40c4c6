/**
 * End-to-end behaviour of single tool calls and of startup, on concrete
 * arguments and a concrete client reply.
 */
module Scenarios {
  import opened Json
  import P = Payloads
  import N = Normalize
  import Title
  import opened Tools
  import DistCredential

  /** A page as the search endpoint returns it, with one title property `Name`. */
  function PageRecord(id: string, url: string, title: string): Json {
    JObj([Member("object", JStr("page")), Member("id", JStr(id)), Member("url", JStr(url)),
      Member("properties", JObj([Member("Name", TitleColumn(title))]))])
  }

  /** A title property whose one segment has `plain_text`. */
  function TitleColumn(title: string): Json {
    JObj([Member("type", JStr("title")), Member("title", JArr([JObj([Member("plain_text", JStr(title))])]))])
  }

  /** A database record as the search endpoint returns it. */
  function DatabaseRecord(id: string, url: string, title: string): Json {
    JObj([Member("object", JStr("database")), Member("id", JStr(id)), Member("url", JStr(url)),
      Member("title", JArr([JObj([Member("plain_text", JStr(title))])]))])
  }

  /** `{id, object, title, url}` with string values, in that order. */
  function SummaryRecord(id: string, kind: string, title: string, url: string): Json {
    JObj([Member("id", JStr(id)), Member("object", JStr(kind)), Member("title", JStr(title)), Member("url", JStr(url))])
  }

  const RoadmapPage: Json := PageRecord("p1", "https://www.notion.so/p1", "Roadmap Q3")
  const RoadmapDatabase: Json := DatabaseRecord("d1", "https://www.notion.so/d1", "Roadmap DB")

  const SearchReply: Json := JObj([
    Member("results", JArr([RoadmapPage, RoadmapDatabase])),
    Member("has_more", JBool(false))])

  /** Keys of the two record shapes, told apart by length. */
  lemma RecordKeysDistinct()
    ensures "object" != "id" && "object" != "url" && "id" != "url"
    ensures "object" != "properties" && "id" != "properties" && "url" != "properties"
    ensures "object" != "title" && "id" != "title" && "url" != "title"
  {
    assert |"object"| != |"id"| && |"object"| != |"url"| && |"id"| != |"url"|;
    assert |"object"| != |"properties"| && |"id"| != |"properties"| && |"url"| != |"properties"|;
    assert |"object"| != |"title"| && |"id"| != |"title"| && |"url"| != |"title"|;
  }

  lemma PageRecordFields(id: string, url: string, title: string)
    ensures var r := PageRecord(id, url, title);
      && Get(r, "object") == Some(JStr("page"))
      && Get(r, "id") == Some(JStr(id))
      && Get(r, "url") == Some(JStr(url))
      && Get(r, "properties") == Some(JObj([Member("Name", TitleColumn(title))]))
  {
    RecordKeysDistinct();
    var pm := PageRecord(id, url, title).members;
    LookupQuad(pm[0], pm[1], pm[2], pm[3]);
  }

  lemma DatabaseRecordFields(id: string, url: string, title: string)
    ensures var r := DatabaseRecord(id, url, title);
      && Get(r, "object") == Some(JStr("database"))
      && Get(r, "id") == Some(JStr(id))
      && Get(r, "url") == Some(JStr(url))
      && Get(r, "title") == Some(JArr([JObj([Member("plain_text", JStr(title))])]))
  {
    RecordKeysDistinct();
    var dm := DatabaseRecord(id, url, title).members;
    LookupQuad(dm[0], dm[1], dm[2], dm[3]);
  }

  /** What the title column contributes to the title scan. */
  lemma TitleColumnContributes(title: string)
    requires title != ""
    ensures Title.PropertyTitle(TitleColumn(title)) == Some(JStr(title))
  {
    var tm := TitleColumn(title).members;
    assert tm[0].key != tm[1].key by { assert tm[0].key[1] != tm[1].key[1]; }
    LookupPair(tm[0], tm[1]);
    assert Title.IsTitleProperty(TitleColumn(title));
  }

  /** The title of such a page is the text of its `Name` property. */
  lemma PageRecordTitle(id: string, url: string, title: string)
    requires title != ""
    ensures Title.PageTitle(Some(PageRecord(id, url, title))) == Some(JStr(title))
  {
    PageRecordFields(id, url, title);
    NameColumnScan(title);
  }

  /** Scanning properties that hold only the title column finds its text. */
  lemma NameColumnScan(title: string)
    requires title != ""
    ensures Title.FirstSome(Title.Contributions(Title.Entries(JObj([Member("Name", TitleColumn(title))])))) == Some(JStr(title))
  {
    TitleColumnContributes(title);
    assert Title.Entries(JObj([Member("Name", TitleColumn(title))])) == [TitleColumn(title)];
    Title.ScanIsFirstMatch([TitleColumn(title)]);
  }

  /** The summary of a record whose `id`, `object` and `url` are strings. */
  lemma SummaryOfStrings(r: Json, id: string, kind: string, title: string, url: string)
    requires Get(r, "id") == Some(JStr(id)) && Get(r, "object") == Some(JStr(kind)) && Get(r, "url") == Some(JStr(url))
    ensures N.Summary(r, Some(JStr(title))) == SummaryRecord(id, kind, title, url).members
  {
  }

  /** The search summary of such a page: its id, `object: "page"`, its title and its url. */
  lemma PageRecordItem(id: string, url: string, title: string)
    requires title != ""
    ensures N.SearchItem(PageRecord(id, url, title)) == SummaryRecord(id, "page", title, url)
  {
    PageRecordTitle(id, url, title);
    PageRecordFields(id, url, title);
    SummaryOfStrings(PageRecord(id, url, title), id, "page", title, url);
  }

  /** The search summary of such a database: its id, `object: "database"`, its title and its url. */
  lemma DatabaseRecordItem(id: string, url: string, title: string)
    ensures N.SearchItem(DatabaseRecord(id, url, title)) == SummaryRecord(id, "database", title, url)
  {
    var r := DatabaseRecord(id, url, title);
    DatabaseRecordFields(id, url, title);
    assert !N.IsPage(r) by { assert JStr("database") != JStr("page") by { assert |"database"| != |"page"|; } }
    assert N.DatabaseTitle(r) == Some(JStr(title));
    SummaryOfStrings(r, id, "database", title, url);
  }

  /**
   * `notion_search` with `{query: "Roadmap"}` against a client answering
   * with one page and one database: the search request carries only the
   * query, and the output lists both records as `{id, object, title, url}`
   * with `has_more: false`.
   */
  lemma SearchRoadmap()
    ensures Parse(Search, JObj([Member("query", JStr("Roadmap"))])) == Valid(SearchArgs("Roadmap", None, None))
    ensures RequestOf(SearchArgs("Roadmap", None, None)) == P.Request(P.Search, [Member("query", JStr("Roadmap"))])
    ensures Respond(SearchArgs("Roadmap", None, None), SearchReply) == N.Ok(JObj([
      Member("results", JArr([
        SummaryRecord("p1", "page", "Roadmap Q3", "https://www.notion.so/p1"),
        SummaryRecord("d1", "database", "Roadmap DB", "https://www.notion.so/d1")])),
      Member("has_more", JBool(false))]))
  {
    var ms := [Member("query", JStr("Roadmap"))];
    assert Lookup(ms, "filter").None? && Lookup(ms, "page_size").None? by {
      assert |"filter"| != |"query"| && |"page_size"| != |"query"|;
    }
    SearchQueryOnly("Roadmap");
    SearchRoadmapOutput();
  }

  lemma SearchQueryOnly(query: string)
    ensures RequestOf(SearchArgs(query, None, None)) == P.Request(P.Search, [Member("query", JStr(query))])
  {
  }

  lemma SearchRoadmapOutput()
    ensures N.NormalizeSearch(SearchReply) == N.Ok(JObj([
      Member("results", JArr([
        SummaryRecord("p1", "page", "Roadmap Q3", "https://www.notion.so/p1"),
        SummaryRecord("d1", "database", "Roadmap DB", "https://www.notion.so/d1")])),
      Member("has_more", JBool(false))]))
  {
    PageRecordItem("p1", "https://www.notion.so/p1", "Roadmap Q3");
    DatabaseRecordItem("d1", "https://www.notion.so/d1", "Roadmap DB");
    var sm := SearchReply.members;
    assert sm[0].key != sm[1].key by { assert sm[0].key[0] != sm[1].key[0]; }
    LookupPair(sm[0], sm[1]);
    MapPair(N.SearchItem, RoadmapPage, RoadmapDatabase);
  }

  /** Mapping over two non-null results. */
  lemma MapPair(f: Json -> Json, a: Json, b: Json)
    requires a != JNull && b != JNull
    ensures N.MapNonNull(f, [a, b]) == N.Ok([f(a), f(b)])
  {
    assert JNull !in [a, b];
    var items := N.MapNonNull(f, [a, b]).value;
    assert |items| == 2 && items[0] == f(a) && items[1] == f(b);
    assert items == [f(a), f(b)];
  }

  /**
   * `notion_create_page` with `{database_id: "db1", title: "Task A"}` sends
   * a create request whose properties are exactly `{Name: {title: [{text: {content: "Task A"}}]}}`.
   */
  lemma CreateTaskA()
    ensures var raw := JObj([Member("database_id", JStr("db1")), Member("title", JStr("Task A"))]);
      && Parse(CreatePage, raw) == Valid(CreatePageArgs("db1", "Task A", "Name", None))
      && RequestOf(CreatePageArgs("db1", "Task A", "Name", None)) ==
         P.CreateRequest(P.Obj1("database_id", JStr("db1")), [Member("Name", P.TitleProperty("Task A"))])
  {
    var ms := [Member("database_id", JStr("db1")), Member("title", JStr("Task A"))];
    assert ms[0].key != ms[1].key by { assert |ms[0].key| != |ms[1].key|; }
    LookupPair(ms[0], ms[1]);
    assert Keys(ms) == ["database_id", "title"];
    assert "title_property" !in Keys(ms) && "properties" !in Keys(ms) by {
      assert |"title_property"| != |"database_id"| && |"title_property"| != |"title"|;
      assert |"properties"| != |"database_id"| && |"properties"| != |"title"|;
    }
    CreatePageDefaults(ms, "db1", "Task A");
  }

  /**
   * `notion_append_todo` with `{parent_block_id: "blk1", text: "Buy milk"}`
   * appends one `to_do` child with `checked: false`.
   */
  lemma AppendBuyMilk()
    ensures var raw := JObj([Member("parent_block_id", JStr("blk1")), Member("text", JStr("Buy milk"))]);
      && Parse(AppendTodo, raw) == Valid(AppendTodoArgs("blk1", "Buy milk", false))
      && RequestOf(AppendTodoArgs("blk1", "Buy milk", false)) == P.AppendRequest("blk1", [P.TodoBlock("Buy milk", false)])
      && Get(P.TodoBlock("Buy milk", false), "type") == Some(JStr("to_do"))
      && Get(P.TodoBody("Buy milk", false), "checked") == Some(JBool(false))
  {
    var ms := [Member("parent_block_id", JStr("blk1")), Member("text", JStr("Buy milk"))];
    assert ms[0].key != ms[1].key by { assert |ms[0].key| != |ms[1].key|; }
    LookupPair(ms[0], ms[1]);
    assert Keys(ms) == ["parent_block_id", "text"];
    assert "checked" !in Keys(ms) by {
      assert |"checked"| != |"parent_block_id"| && |"checked"| != |"text"|;
    }
    AppendTodoDefaultUnchecked(ms, "blk1", "Buy milk");
  }

  /**
   * With no credential variable set, off Windows, the built copy exits with
   * a nonzero status and a diagnostic naming all four accepted variables.
   */
  lemma NoCredentialExits(registry: map<string, string>)
    ensures var l := DistCredential.Startup(DistCredential.FirstUsable(DistCredential.Candidates(false, map[], registry)));
      && l.Exit? && l.status != 0
      && forall name :: name in DistCredential.KeyNames ==> DistCredential.Mentions(l.diagnostic, name)
  {
    var cs := DistCredential.Candidates(false, map[], registry);
    DistCredential.CandidatesPerPlatform(map[], registry);
    DistCredential.FirstUsableNone(cs);
    DistCredential.DiagnosticNamesEveryKey();
  }
}
