/**
 * The tool catalog of `buildNotionServer`, identical in both copies: each
 * tool validates its arguments against its declared input schema, sends
 * one request to the Notion client and turns the reply into its structured
 * output. The client is a stub that records every request it receives and
 * answers with a fixed reply.
 */
module Tools {
  import opened Json
  import P = Payloads
  import N = Normalize

  /** The nineteen tools, in registration order. */
  datatype Tool =
    | Search | GetPage | ListBlocks | AppendParagraph | CreatePage | CreateSubpage
    | QueryDatabase | UpdatePage | GetBlock | AppendBlocks | ArchivePage | UnarchivePage
    | DeleteBlock | UpdateBlockText | AppendHeading | AppendTodo | ListDatabases
    | ListPagesInDatabase | AppendImageUrl
  {
    /** The name the tool is registered under. */
    function Name(): string {
      match this
      case Search => "notion_search"
      case GetPage => "notion_get_page"
      case ListBlocks => "notion_list_blocks"
      case AppendParagraph => "notion_append_paragraph"
      case CreatePage => "notion_create_page"
      case CreateSubpage => "notion_create_subpage"
      case QueryDatabase => "notion_query_database"
      case UpdatePage => "notion_update_page"
      case GetBlock => "notion_get_block"
      case AppendBlocks => "notion_append_blocks"
      case ArchivePage => "notion_archive_page"
      case UnarchivePage => "notion_unarchive_page"
      case DeleteBlock => "notion_delete_block"
      case UpdateBlockText => "notion_update_block_text"
      case AppendHeading => "notion_append_heading"
      case AppendTodo => "notion_append_todo"
      case ListDatabases => "notion_list_databases"
      case ListPagesInDatabase => "notion_list_pages_in_database"
      case AppendImageUrl => "notion_append_image_url"
    }
  }

  /** Validated arguments, one shape per tool, with defaults already applied. */
  datatype Args =
    | SearchArgs(query: string, kind: Option<string>, pageSize: Option<int>)
    | GetPageArgs(pageId: string)
    | ListBlocksArgs(blockId: string, pageSize: Option<int>)
    | AppendParagraphArgs(parentBlockId: string, text: string)
    | CreatePageArgs(databaseId: string, title: string, titleProperty: string, extra: Option<seq<Member>>)
    | CreateSubpageArgs(parentPageId: string, title: string, titleProperty: string, extra: Option<seq<Member>>)
    | QueryDatabaseArgs(databaseId: string, filter: Option<seq<Member>>, sorts: Option<seq<Json>>, startCursor: Option<string>, pageSize: Option<int>)
    | UpdatePageArgs(pageId: string, properties: seq<Member>)
    | GetBlockArgs(blockId: string)
    | AppendBlocksArgs(parentBlockId: string, blocks: seq<Json>)
    | ArchivePageArgs(pageId: string)
    | UnarchivePageArgs(pageId: string)
    | DeleteBlockArgs(blockId: string)
    | UpdateBlockTextArgs(blockId: string, textKind: P.TextKind, text: string)
    | AppendHeadingArgs(parentBlockId: string, level: P.HeadingLevel, text: string)
    | AppendTodoArgs(parentBlockId: string, text: string, checked: bool)
    | ListDatabasesArgs(queryText: Option<string>, pageSize: Option<int>)
    | ListPagesArgs(databaseId: string, pageSize: Option<int>)
    | AppendImageArgs(parentBlockId: string, url: string)

  /** Why the arguments were refused: they are not an object, or the named field breaks the schema. */
  datatype Rejection = NotAnObject | BadField(field: string)

  datatype Parsed<T> = Valid(value: T) | Invalid(why: Rejection) {
    predicate IsFailure() { Invalid? }
    function PropagateFailure<U>(): Parsed<U> requires Invalid? { Invalid(why) }
    function Extract(): T requires Valid? { value }
  }

  // Field validators, one per kind of schema entry

  /** `z.string().min(1)` */
  function RequiredString(ms: seq<Member>, k: string): (r: Parsed<string>)
    ensures r.Valid? <==> Lookup(ms, k).Some? && Lookup(ms, k).value.JStr? && Lookup(ms, k).value.s != ""
    ensures r.Valid? ==> Lookup(ms, k) == Some(JStr(r.value))
    ensures r.Invalid? ==> r.why == BadField(k)
  {
    match Lookup(ms, k)
    case Some(JStr(s)) => if |s| >= 1 then Valid(s) else Invalid(BadField(k))
    case _ => Invalid(BadField(k))
  }

  /** `z.string()` (the URL syntax of `z.string().url()` is not checked) */
  function AnyString(ms: seq<Member>, k: string): (r: Parsed<string>)
    ensures r.Valid? <==> Lookup(ms, k).Some? && Lookup(ms, k).value.JStr?
    ensures r.Valid? ==> Lookup(ms, k) == Some(JStr(r.value))
    ensures r.Invalid? ==> r.why == BadField(k)
  {
    match Lookup(ms, k)
    case Some(JStr(s)) => Valid(s)
    case _ => Invalid(BadField(k))
  }

  /** `z.string().optional()` */
  function OptionalString(ms: seq<Member>, k: string): (r: Parsed<Option<string>>)
    ensures r.Valid? <==> Lookup(ms, k).None? || Lookup(ms, k).value.JStr?
    ensures r.Valid? ==> OptStr(r.value) == Lookup(ms, k)
    ensures r.Invalid? ==> r.why == BadField(k)
  {
    match Lookup(ms, k)
    case None => Valid(None)
    case Some(JStr(s)) => Valid(Some(s))
    case _ => Invalid(BadField(k))
  }

  /** `z.string().min(1).default(d)`: an absent field takes the default, a present one must be non-empty. */
  function StringOr(ms: seq<Member>, k: string, default: string): (r: Parsed<string>)
    ensures r.Valid? <==> Lookup(ms, k).None? || (Lookup(ms, k).value.JStr? && Lookup(ms, k).value.s != "")
    ensures Lookup(ms, k).None? ==> r == Valid(default)
    ensures Lookup(ms, k).Some? && r.Valid? ==> Lookup(ms, k) == Some(JStr(r.value)) && r.value != ""
    ensures r.Invalid? ==> r.why == BadField(k)
  {
    match Lookup(ms, k)
    case None => Valid(default)
    case Some(JStr(s)) => if |s| >= 1 then Valid(s) else Invalid(BadField(k))
    case _ => Invalid(BadField(k))
  }

  /** `z.number().int().min(1).max(100).optional()` */
  function OptionalPageSize(ms: seq<Member>, k: string): (r: Parsed<Option<int>>)
    ensures r.Valid? ==> PageSizeOk(r.value)
    ensures r.Invalid? <==> Lookup(ms, k).Some? && !(Lookup(ms, k).value.JNum? && 1 <= Lookup(ms, k).value.n <= 100)
    ensures r.Valid? ==> P.OptNum(r.value) == Lookup(ms, k)
    ensures r.Invalid? ==> r.why == BadField(k)
  {
    match Lookup(ms, k)
    case None => Valid(None)
    case Some(JNum(n)) => if 1 <= n <= 100 then Valid(Some(n)) else Invalid(BadField(k))
    case _ => Invalid(BadField(k))
  }

  /** `z.record(z.any())` */
  function RequiredRecord(ms: seq<Member>, k: string): (r: Parsed<seq<Member>>)
    ensures r.Valid? <==> Lookup(ms, k).Some? && Lookup(ms, k).value.JObj?
    ensures r.Valid? ==> Lookup(ms, k) == Some(JObj(r.value))
    ensures r.Invalid? ==> r.why == BadField(k)
  {
    match Lookup(ms, k)
    case Some(JObj(r)) => Valid(r)
    case _ => Invalid(BadField(k))
  }

  /** `z.record(z.any()).optional()` */
  function OptionalRecord(ms: seq<Member>, k: string): (r: Parsed<Option<seq<Member>>>)
    ensures r.Valid? <==> Lookup(ms, k).None? || Lookup(ms, k).value.JObj?
    ensures r.Valid? ==> RecordOpt(r.value) == Lookup(ms, k)
    ensures r.Invalid? ==> r.why == BadField(k)
  {
    match Lookup(ms, k)
    case None => Valid(None)
    case Some(JObj(r)) => Valid(Some(r))
    case _ => Invalid(BadField(k))
  }

  predicate AllRecords(xs: seq<Json>) {
    forall i :: 0 <= i < |xs| ==> xs[i].JObj?
  }

  /** `z.array(z.record(z.any())).optional()` */
  function OptionalRecords(ms: seq<Member>, k: string): (r: Parsed<Option<seq<Json>>>)
    ensures r.Valid? <==> Lookup(ms, k).None? || (Lookup(ms, k).value.JArr? && AllRecords(Lookup(ms, k).value.elems))
    ensures r.Valid? ==> ArrayOpt(r.value) == Lookup(ms, k)
    ensures r.Valid? && r.value.Some? ==> AllRecords(r.value.value)
    ensures r.Invalid? ==> r.why == BadField(k)
  {
    match Lookup(ms, k)
    case None => Valid(None)
    case Some(JArr(xs)) => if AllRecords(xs) then Valid(Some(xs)) else Invalid(BadField(k))
    case _ => Invalid(BadField(k))
  }

  /** `z.array(z.record(z.any())).min(1)` */
  function BlockList(ms: seq<Member>, k: string): (r: Parsed<seq<Json>>)
    ensures r.Valid? <==> Lookup(ms, k).Some? && Lookup(ms, k).value.JArr? && |Lookup(ms, k).value.elems| >= 1 && AllRecords(Lookup(ms, k).value.elems)
    ensures r.Valid? ==> Lookup(ms, k) == Some(JArr(r.value))
    ensures r.Invalid? ==> r.why == BadField(k)
  {
    match Lookup(ms, k)
    case Some(JArr(xs)) => if |xs| >= 1 && AllRecords(xs) then Valid(xs) else Invalid(BadField(k))
    case _ => Invalid(BadField(k))
  }

  /** `z.boolean().default(d)` */
  function BoolOr(ms: seq<Member>, k: string, default: bool): (r: Parsed<bool>)
    ensures r.Valid? <==> Lookup(ms, k).None? || Lookup(ms, k).value.JBool?
    ensures Lookup(ms, k).None? ==> r == Valid(default)
    ensures Lookup(ms, k).Some? && r.Valid? ==> Lookup(ms, k) == Some(JBool(r.value))
    ensures r.Invalid? ==> r.why == BadField(k)
  {
    match Lookup(ms, k)
    case None => Valid(default)
    case Some(JBool(b)) => Valid(b)
    case _ => Invalid(BadField(k))
  }

  /** `z.object({value: z.enum(['page', 'database']), property: z.literal('object')}).optional()`: the kind searched for. */
  function OptionalKindFilter(ms: seq<Member>, k: string): (r: Parsed<Option<string>>)
    ensures r.Valid? <==> Lookup(ms, k).None? || (Lookup(ms, k).value.JObj? && IsKindFilter(Lookup(ms, k).value.members))
    ensures r.Valid? && r.value.Some? ==> r.value.value in ["page", "database"]
    ensures r.Valid? ==> (r.value.None? <==> Lookup(ms, k).None?)
    ensures r.Valid? && r.value.Some? ==> Lookup(Lookup(ms, k).value.members, "value") == Some(JStr(r.value.value))
    ensures r.Invalid? ==> r.why == BadField(k)
  {
    match Lookup(ms, k)
    case None => Valid(None)
    case Some(JObj(f)) =>
      if IsKindFilter(f) then Valid(Some(Lookup(f, "value").value.s)) else Invalid(BadField(k))
    case _ => Invalid(BadField(k))
  }

  /** `{value: z.enum(['page', 'database']), property: z.literal('object')}` */
  predicate IsKindFilter(f: seq<Member>) {
    (Lookup(f, "value") == Some(JStr("page")) || Lookup(f, "value") == Some(JStr("database")))
    && Lookup(f, "property") == Some(JStr("object"))
  }

  /** The heading level an enum string names. */
  function LevelNamed(s: string): (r: Option<P.HeadingLevel>)
    ensures r.Some? <==> s in ["heading_1", "heading_2", "heading_3"]
    ensures r.Some? ==> r.value.Name() == s
  {
    if s == "heading_1" then Some(P.H1)
    else if s == "heading_2" then Some(P.H2)
    else if s == "heading_3" then Some(P.H3)
    else None
  }

  /** `z.enum(['heading_1', 'heading_2', 'heading_3']).default('heading_2')` */
  function HeadingLevelOr(ms: seq<Member>, k: string): (r: Parsed<P.HeadingLevel>)
    ensures r.Valid? <==> Lookup(ms, k).None? || Lookup(ms, k).value in [JStr("heading_1"), JStr("heading_2"), JStr("heading_3")]
    ensures Lookup(ms, k).None? ==> r == Valid(P.H2)
    ensures Lookup(ms, k).Some? && r.Valid? ==> Lookup(ms, k) == Some(JStr(r.value.Name()))
    ensures r.Invalid? ==> r.why == BadField(k)
  {
    match Lookup(ms, k)
    case None => Valid(P.H2)
    case Some(JStr(s)) => if LevelNamed(s).Some? then Valid(LevelNamed(s).value) else Invalid(BadField(k))
    case _ => Invalid(BadField(k))
  }

  /** `z.enum(['paragraph', 'heading_1', 'heading_2', 'heading_3'])` */
  function RequiredTextKind(ms: seq<Member>, k: string): (r: Parsed<P.TextKind>)
    ensures r.Valid? <==> Lookup(ms, k).Some? && Lookup(ms, k).value in [JStr("paragraph"), JStr("heading_1"), JStr("heading_2"), JStr("heading_3")]
    ensures r.Valid? ==> Lookup(ms, k) == Some(JStr(r.value.Name()))
    ensures r.Invalid? ==> r.why == BadField(k)
  {
    match Lookup(ms, k)
    case Some(JStr(s)) =>
      if s == "paragraph" then Valid(P.Paragraph)
      else if LevelNamed(s).Some? then Valid(P.Heading(LevelNamed(s).value))
      else Invalid(BadField(k))
    case _ => Invalid(BadField(k))
  }

  // The input schemas as data

  /** The kinds of input-schema entry the tools declare, one per zod schema used. */
  datatype Entry =
    | StringMin1                 // z.string().min(1)
    | StringAny                  // z.string()
    | StringOptional             // z.string().optional()
    | StringMin1Default(d: string) // z.string().min(1).default(d)
    | PageSizeOptional           // z.number().int().min(1).max(100).optional()
    | RecordRequired             // z.record(z.any())
    | RecordOptional             // z.record(z.any()).optional()
    | RecordArrayOptional        // z.array(z.record(z.any())).optional()
    | RecordArrayMin1            // z.array(z.record(z.any())).min(1)
    | BooleanDefault(b: bool)    // z.boolean().default(b)
    | KindFilterOptional         // z.object({value: z.enum(['page', 'database']), property: z.literal('object')}).optional()
    | HeadingEnumDefault         // z.enum(['heading_1', 'heading_2', 'heading_3']).default('heading_2')
    | TextKindEnum               // z.enum(['paragraph', 'heading_1', 'heading_2', 'heading_3'])

  /** One named entry of an input schema. */
  datatype Field = Field(key: string, entry: Entry)

  /** The values an entry admits, `None` standing for an absent member. */
  predicate Accepts(e: Entry, v: Option<Json>) {
    match e
    case StringMin1 => v.Some? && v.value.JStr? && v.value.s != ""
    case StringAny => v.Some? && v.value.JStr?
    case StringOptional => v.None? || v.value.JStr?
    case StringMin1Default(_) => v.None? || (v.value.JStr? && v.value.s != "")
    case PageSizeOptional => v.None? || (v.value.JNum? && 1 <= v.value.n <= 100)
    case RecordRequired => v.Some? && v.value.JObj?
    case RecordOptional => v.None? || v.value.JObj?
    case RecordArrayOptional => v.None? || (v.value.JArr? && AllRecords(v.value.elems))
    case RecordArrayMin1 => v.Some? && v.value.JArr? && |v.value.elems| >= 1 && AllRecords(v.value.elems)
    case BooleanDefault(_) => v.None? || v.value.JBool?
    case KindFilterOptional => v.None? || (v.value.JObj? && IsKindFilter(v.value.members))
    case HeadingEnumDefault => v.None? || v.value in [JStr("heading_1"), JStr("heading_2"), JStr("heading_3")]
    case TextKindEnum => v.Some? && v.value in [JStr("paragraph"), JStr("heading_1"), JStr("heading_2"), JStr("heading_3")]
  }

  /** The declared input schema of each tool, entry by entry. */
  function Schema(tool: Tool): seq<Field> {
    match tool
    case Search => [Field("query", StringMin1), Field("filter", KindFilterOptional), Field("page_size", PageSizeOptional)]
    case GetPage => [Field("page_id", StringMin1)]
    case ListBlocks => [Field("block_id", StringMin1), Field("page_size", PageSizeOptional)]
    case AppendParagraph => [Field("parent_block_id", StringMin1), Field("text", StringMin1)]
    case CreatePage =>
      [Field("database_id", StringMin1), Field("title", StringMin1),
       Field("title_property", StringMin1Default("Name")), Field("properties", RecordOptional)]
    case CreateSubpage =>
      [Field("parent_page_id", StringMin1), Field("title", StringMin1),
       Field("title_property", StringMin1Default("title")), Field("properties", RecordOptional)]
    case QueryDatabase =>
      [Field("database_id", StringMin1), Field("filter", RecordOptional), Field("sorts", RecordArrayOptional),
       Field("start_cursor", StringOptional), Field("page_size", PageSizeOptional)]
    case UpdatePage => [Field("page_id", StringMin1), Field("properties", RecordRequired)]
    case GetBlock => [Field("block_id", StringMin1)]
    case AppendBlocks => [Field("parent_block_id", StringMin1), Field("blocks", RecordArrayMin1)]
    case ArchivePage => [Field("page_id", StringMin1)]
    case UnarchivePage => [Field("page_id", StringMin1)]
    case DeleteBlock => [Field("block_id", StringMin1)]
    case UpdateBlockText => [Field("block_id", StringMin1), Field("type", TextKindEnum), Field("text", StringMin1)]
    case AppendHeading => [Field("parent_block_id", StringMin1), Field("level", HeadingEnumDefault), Field("text", StringMin1)]
    case AppendTodo => [Field("parent_block_id", StringMin1), Field("text", StringMin1), Field("checked", BooleanDefault(false))]
    case ListDatabases => [Field("query", StringOptional), Field("page_size", PageSizeOptional)]
    case ListPagesInDatabase => [Field("database_id", StringMin1), Field("page_size", PageSizeOptional)]
    case AppendImageUrl => [Field("parent_block_id", StringMin1), Field("url", StringAny)]
  }

  /** Every entry of the schema admits what the arguments hold under its key. */
  predicate Conforms(fs: seq<Field>, ms: seq<Member>) {
    forall f :: f in fs ==> Accepts(f.entry, Lookup(ms, f.key))
  }

  /** Validation of a tool's arguments against its input schema; unknown members are dropped. */
  function Parse(tool: Tool, raw: Json): (r: Parsed<Args>)
    ensures r.Valid? <==> raw.JObj? && Conforms(Schema(tool), raw.members)
    ensures !raw.JObj? ==> r == Invalid(NotAnObject)
    ensures r.Valid? ==> ToolOf(r.value) == tool && WithinBounds(r.value)
  {
    if !raw.JObj? then Invalid(NotAnObject)
    else
      var ms := raw.members;
      match tool
      case Search => ParseSearch(ms)
      case GetPage => ParseGetPage(ms)
      case ListBlocks => ParseListBlocks(ms)
      case AppendParagraph => ParseAppendParagraph(ms)
      case CreatePage => ParseCreatePage(ms)
      case CreateSubpage => ParseCreateSubpage(ms)
      case QueryDatabase => ParseQueryDatabase(ms)
      case UpdatePage => ParseUpdatePage(ms)
      case GetBlock => ParseGetBlock(ms)
      case AppendBlocks => ParseAppendBlocks(ms)
      case ArchivePage => ParseArchivePage(ms)
      case UnarchivePage => ParseUnarchivePage(ms)
      case DeleteBlock => ParseDeleteBlock(ms)
      case UpdateBlockText => ParseUpdateBlockText(ms)
      case AppendHeading => ParseAppendHeading(ms)
      case AppendTodo => ParseAppendTodo(ms)
      case ListDatabases => ParseListDatabases(ms)
      case ListPagesInDatabase => ParseListPages(ms)
      case AppendImageUrl => ParseAppendImage(ms)
  }

  // The input schema of each tool

  /** `{query: z.string().min(1), filter: {value, property}.optional(), page_size}` */
  function ParseSearch(ms: seq<Member>): (r: Parsed<Args>)
    ensures r.Valid? <==> Conforms(Schema(Search), ms)
    ensures r.Valid? <==>
      && RequiredString(ms, "query").Valid?
      && OptionalKindFilter(ms, "filter").Valid?
      && OptionalPageSize(ms, "page_size").Valid?
    ensures r.Valid? ==> r == Valid(SearchArgs(
      RequiredString(ms, "query").value,
      OptionalKindFilter(ms, "filter").value,
      OptionalPageSize(ms, "page_size").value))
    ensures r.Valid? ==> WithinBounds(r.value)
  {
    var query :- RequiredString(ms, "query");
    var kind :- OptionalKindFilter(ms, "filter");
    var pageSize :- OptionalPageSize(ms, "page_size");
    Valid(SearchArgs(query, kind, pageSize))
  }

  /** `{page_id: z.string().min(1)}` */
  function ParseGetPage(ms: seq<Member>): (r: Parsed<Args>)
    ensures r.Valid? <==> Conforms(Schema(GetPage), ms)
    ensures r.Valid? <==> RequiredString(ms, "page_id").Valid?
    ensures r.Valid? ==> r == Valid(GetPageArgs(RequiredString(ms, "page_id").value))
    ensures r.Valid? ==> WithinBounds(r.value)
  {
    var pageId :- RequiredString(ms, "page_id");
    Valid(GetPageArgs(pageId))
  }

  /** `{block_id: z.string().min(1), page_size}` */
  function ParseListBlocks(ms: seq<Member>): (r: Parsed<Args>)
    ensures r.Valid? <==> Conforms(Schema(ListBlocks), ms)
    ensures r.Valid? <==>
      && RequiredString(ms, "block_id").Valid?
      && OptionalPageSize(ms, "page_size").Valid?
    ensures r.Valid? ==> r == Valid(ListBlocksArgs(
      RequiredString(ms, "block_id").value,
      OptionalPageSize(ms, "page_size").value))
    ensures r.Valid? ==> WithinBounds(r.value)
  {
    var blockId :- RequiredString(ms, "block_id");
    var pageSize :- OptionalPageSize(ms, "page_size");
    Valid(ListBlocksArgs(blockId, pageSize))
  }

  /** `{parent_block_id: z.string().min(1), text: z.string().min(1)}` */
  function ParseAppendParagraph(ms: seq<Member>): (r: Parsed<Args>)
    ensures r.Valid? <==> Conforms(Schema(AppendParagraph), ms)
    ensures r.Valid? <==>
      && RequiredString(ms, "parent_block_id").Valid?
      && RequiredString(ms, "text").Valid?
    ensures r.Valid? ==> r == Valid(AppendParagraphArgs(
      RequiredString(ms, "parent_block_id").value,
      RequiredString(ms, "text").value))
    ensures r.Valid? ==> WithinBounds(r.value)
  {
    var parent :- RequiredString(ms, "parent_block_id");
    var text :- RequiredString(ms, "text");
    Valid(AppendParagraphArgs(parent, text))
  }

  /** `{database_id, title, title_property: z.string().min(1).default('Name'), properties: z.record(z.any()).optional()}` */
  function ParseCreatePage(ms: seq<Member>): (r: Parsed<Args>)
    ensures r.Valid? <==> Conforms(Schema(CreatePage), ms)
    ensures r.Valid? <==>
      && RequiredString(ms, "database_id").Valid?
      && RequiredString(ms, "title").Valid?
      && StringOr(ms, "title_property", "Name").Valid?
      && OptionalRecord(ms, "properties").Valid?
    ensures r.Valid? ==> r == Valid(CreatePageArgs(
      RequiredString(ms, "database_id").value,
      RequiredString(ms, "title").value,
      StringOr(ms, "title_property", "Name").value,
      OptionalRecord(ms, "properties").value))
    ensures r.Valid? ==> WithinBounds(r.value)
  {
    var databaseId :- RequiredString(ms, "database_id");
    var title :- RequiredString(ms, "title");
    var titleProperty :- StringOr(ms, "title_property", "Name");
    var properties :- OptionalRecord(ms, "properties");
    Valid(CreatePageArgs(databaseId, title, titleProperty, properties))
  }

  /** `{parent_page_id, title, title_property: z.string().min(1).default('title'), properties: z.record(z.any()).optional()}` */
  function ParseCreateSubpage(ms: seq<Member>): (r: Parsed<Args>)
    ensures r.Valid? <==> Conforms(Schema(CreateSubpage), ms)
    ensures r.Valid? <==>
      && RequiredString(ms, "parent_page_id").Valid?
      && RequiredString(ms, "title").Valid?
      && StringOr(ms, "title_property", "title").Valid?
      && OptionalRecord(ms, "properties").Valid?
    ensures r.Valid? ==> r == Valid(CreateSubpageArgs(
      RequiredString(ms, "parent_page_id").value,
      RequiredString(ms, "title").value,
      StringOr(ms, "title_property", "title").value,
      OptionalRecord(ms, "properties").value))
    ensures r.Valid? ==> WithinBounds(r.value)
  {
    var parent :- RequiredString(ms, "parent_page_id");
    var title :- RequiredString(ms, "title");
    var titleProperty :- StringOr(ms, "title_property", "title");
    var properties :- OptionalRecord(ms, "properties");
    Valid(CreateSubpageArgs(parent, title, titleProperty, properties))
  }

  /** `{database_id, filter: z.record(z.any()).optional(), sorts: z.array(z.record(z.any())).optional(), start_cursor, page_size}` */
  function ParseQueryDatabase(ms: seq<Member>): (r: Parsed<Args>)
    ensures r.Valid? <==> Conforms(Schema(QueryDatabase), ms)
    ensures r.Valid? <==>
      && RequiredString(ms, "database_id").Valid?
      && OptionalRecord(ms, "filter").Valid?
      && OptionalRecords(ms, "sorts").Valid?
      && OptionalString(ms, "start_cursor").Valid?
      && OptionalPageSize(ms, "page_size").Valid?
    ensures r.Valid? ==> r == Valid(QueryDatabaseArgs(
      RequiredString(ms, "database_id").value,
      OptionalRecord(ms, "filter").value,
      OptionalRecords(ms, "sorts").value,
      OptionalString(ms, "start_cursor").value,
      OptionalPageSize(ms, "page_size").value))
    ensures r.Valid? ==> WithinBounds(r.value)
  {
    var databaseId :- RequiredString(ms, "database_id");
    var filter :- OptionalRecord(ms, "filter");
    var sorts :- OptionalRecords(ms, "sorts");
    var cursor :- OptionalString(ms, "start_cursor");
    var pageSize :- OptionalPageSize(ms, "page_size");
    Valid(QueryDatabaseArgs(databaseId, filter, sorts, cursor, pageSize))
  }

  /** `{page_id: z.string().min(1), properties: z.record(z.any())}` */
  function ParseUpdatePage(ms: seq<Member>): (r: Parsed<Args>)
    ensures r.Valid? <==> Conforms(Schema(UpdatePage), ms)
    ensures r.Valid? <==>
      && RequiredString(ms, "page_id").Valid?
      && RequiredRecord(ms, "properties").Valid?
    ensures r.Valid? ==> r == Valid(UpdatePageArgs(
      RequiredString(ms, "page_id").value,
      RequiredRecord(ms, "properties").value))
    ensures r.Valid? ==> WithinBounds(r.value)
  {
    var pageId :- RequiredString(ms, "page_id");
    var properties :- RequiredRecord(ms, "properties");
    Valid(UpdatePageArgs(pageId, properties))
  }

  /** `{block_id: z.string().min(1)}` */
  function ParseGetBlock(ms: seq<Member>): (r: Parsed<Args>)
    ensures r.Valid? <==> Conforms(Schema(GetBlock), ms)
    ensures r.Valid? <==> RequiredString(ms, "block_id").Valid?
    ensures r.Valid? ==> r == Valid(GetBlockArgs(RequiredString(ms, "block_id").value))
    ensures r.Valid? ==> WithinBounds(r.value)
  {
    var blockId :- RequiredString(ms, "block_id");
    Valid(GetBlockArgs(blockId))
  }

  /** `{parent_block_id: z.string().min(1), blocks: z.array(z.record(z.any())).min(1)}` */
  function ParseAppendBlocks(ms: seq<Member>): (r: Parsed<Args>)
    ensures r.Valid? <==> Conforms(Schema(AppendBlocks), ms)
    ensures r.Valid? <==>
      && RequiredString(ms, "parent_block_id").Valid?
      && BlockList(ms, "blocks").Valid?
    ensures r.Valid? ==> r == Valid(AppendBlocksArgs(
      RequiredString(ms, "parent_block_id").value,
      BlockList(ms, "blocks").value))
    ensures r.Valid? ==> WithinBounds(r.value)
  {
    var parent :- RequiredString(ms, "parent_block_id");
    var blocks :- BlockList(ms, "blocks");
    Valid(AppendBlocksArgs(parent, blocks))
  }

  /** `{page_id: z.string().min(1)}` */
  function ParseArchivePage(ms: seq<Member>): (r: Parsed<Args>)
    ensures r.Valid? <==> Conforms(Schema(ArchivePage), ms)
    ensures r.Valid? <==> RequiredString(ms, "page_id").Valid?
    ensures r.Valid? ==> r == Valid(ArchivePageArgs(RequiredString(ms, "page_id").value))
    ensures r.Valid? ==> WithinBounds(r.value)
  {
    var pageId :- RequiredString(ms, "page_id");
    Valid(ArchivePageArgs(pageId))
  }

  /** `{page_id: z.string().min(1)}` */
  function ParseUnarchivePage(ms: seq<Member>): (r: Parsed<Args>)
    ensures r.Valid? <==> Conforms(Schema(UnarchivePage), ms)
    ensures r.Valid? <==> RequiredString(ms, "page_id").Valid?
    ensures r.Valid? ==> r == Valid(UnarchivePageArgs(RequiredString(ms, "page_id").value))
    ensures r.Valid? ==> WithinBounds(r.value)
  {
    var pageId :- RequiredString(ms, "page_id");
    Valid(UnarchivePageArgs(pageId))
  }

  /** `{block_id: z.string().min(1)}` */
  function ParseDeleteBlock(ms: seq<Member>): (r: Parsed<Args>)
    ensures r.Valid? <==> Conforms(Schema(DeleteBlock), ms)
    ensures r.Valid? <==> RequiredString(ms, "block_id").Valid?
    ensures r.Valid? ==> r == Valid(DeleteBlockArgs(RequiredString(ms, "block_id").value))
    ensures r.Valid? ==> WithinBounds(r.value)
  {
    var blockId :- RequiredString(ms, "block_id");
    Valid(DeleteBlockArgs(blockId))
  }

  /** `{block_id, type: z.enum(['paragraph', 'heading_1', 'heading_2', 'heading_3']), text: z.string().min(1)}` */
  function ParseUpdateBlockText(ms: seq<Member>): (r: Parsed<Args>)
    ensures r.Valid? <==> Conforms(Schema(UpdateBlockText), ms)
    ensures r.Valid? <==>
      && RequiredString(ms, "block_id").Valid?
      && RequiredTextKind(ms, "type").Valid?
      && RequiredString(ms, "text").Valid?
    ensures r.Valid? ==> r == Valid(UpdateBlockTextArgs(
      RequiredString(ms, "block_id").value,
      RequiredTextKind(ms, "type").value,
      RequiredString(ms, "text").value))
    ensures r.Valid? ==> WithinBounds(r.value)
  {
    var blockId :- RequiredString(ms, "block_id");
    var kind :- RequiredTextKind(ms, "type");
    var text :- RequiredString(ms, "text");
    Valid(UpdateBlockTextArgs(blockId, kind, text))
  }

  /** `{parent_block_id, level: z.enum([...]).default('heading_2'), text: z.string().min(1)}` */
  function ParseAppendHeading(ms: seq<Member>): (r: Parsed<Args>)
    ensures r.Valid? <==> Conforms(Schema(AppendHeading), ms)
    ensures r.Valid? <==>
      && RequiredString(ms, "parent_block_id").Valid?
      && HeadingLevelOr(ms, "level").Valid?
      && RequiredString(ms, "text").Valid?
    ensures r.Valid? ==> r == Valid(AppendHeadingArgs(
      RequiredString(ms, "parent_block_id").value,
      HeadingLevelOr(ms, "level").value,
      RequiredString(ms, "text").value))
    ensures r.Valid? ==> WithinBounds(r.value)
  {
    var parent :- RequiredString(ms, "parent_block_id");
    var level :- HeadingLevelOr(ms, "level");
    var text :- RequiredString(ms, "text");
    Valid(AppendHeadingArgs(parent, level, text))
  }

  /** `{parent_block_id, text: z.string().min(1), checked: z.boolean().default(false)}` */
  function ParseAppendTodo(ms: seq<Member>): (r: Parsed<Args>)
    ensures r.Valid? <==> Conforms(Schema(AppendTodo), ms)
    ensures r.Valid? <==>
      && RequiredString(ms, "parent_block_id").Valid?
      && RequiredString(ms, "text").Valid?
      && BoolOr(ms, "checked", false).Valid?
    ensures r.Valid? ==> r == Valid(AppendTodoArgs(
      RequiredString(ms, "parent_block_id").value,
      RequiredString(ms, "text").value,
      BoolOr(ms, "checked", false).value))
    ensures r.Valid? ==> WithinBounds(r.value)
  {
    var parent :- RequiredString(ms, "parent_block_id");
    var text :- RequiredString(ms, "text");
    var checked :- BoolOr(ms, "checked", false);
    Valid(AppendTodoArgs(parent, text, checked))
  }

  /** `{query: z.string().optional(), page_size}` */
  function ParseListDatabases(ms: seq<Member>): (r: Parsed<Args>)
    ensures r.Valid? <==> Conforms(Schema(ListDatabases), ms)
    ensures r.Valid? <==>
      && OptionalString(ms, "query").Valid?
      && OptionalPageSize(ms, "page_size").Valid?
    ensures r.Valid? ==> r == Valid(ListDatabasesArgs(
      OptionalString(ms, "query").value,
      OptionalPageSize(ms, "page_size").value))
    ensures r.Valid? ==> WithinBounds(r.value)
  {
    var query :- OptionalString(ms, "query");
    var pageSize :- OptionalPageSize(ms, "page_size");
    Valid(ListDatabasesArgs(query, pageSize))
  }

  /** `{database_id: z.string().min(1), page_size}` */
  function ParseListPages(ms: seq<Member>): (r: Parsed<Args>)
    ensures r.Valid? <==> Conforms(Schema(ListPagesInDatabase), ms)
    ensures r.Valid? <==>
      && RequiredString(ms, "database_id").Valid?
      && OptionalPageSize(ms, "page_size").Valid?
    ensures r.Valid? ==> r == Valid(ListPagesArgs(
      RequiredString(ms, "database_id").value,
      OptionalPageSize(ms, "page_size").value))
    ensures r.Valid? ==> WithinBounds(r.value)
  {
    var databaseId :- RequiredString(ms, "database_id");
    var pageSize :- OptionalPageSize(ms, "page_size");
    Valid(ListPagesArgs(databaseId, pageSize))
  }

  /** `{parent_block_id: z.string().min(1), url: z.string().url()}` */
  function ParseAppendImage(ms: seq<Member>): (r: Parsed<Args>)
    ensures r.Valid? <==> Conforms(Schema(AppendImageUrl), ms)
    ensures r.Valid? <==>
      && RequiredString(ms, "parent_block_id").Valid?
      && AnyString(ms, "url").Valid?
    ensures r.Valid? ==> r == Valid(AppendImageArgs(
      RequiredString(ms, "parent_block_id").value,
      AnyString(ms, "url").value))
    ensures r.Valid? ==> WithinBounds(r.value)
  {
    var parent :- RequiredString(ms, "parent_block_id");
    var url :- AnyString(ms, "url");
    Valid(AppendImageArgs(parent, url))
  }

  /** The tool a set of validated arguments belongs to. */
  function ToolOf(a: Args): Tool {
    match a
    case SearchArgs(_, _, _) => Search
    case GetPageArgs(_) => GetPage
    case ListBlocksArgs(_, _) => ListBlocks
    case AppendParagraphArgs(_, _) => AppendParagraph
    case CreatePageArgs(_, _, _, _) => CreatePage
    case CreateSubpageArgs(_, _, _, _) => CreateSubpage
    case QueryDatabaseArgs(_, _, _, _, _) => QueryDatabase
    case UpdatePageArgs(_, _) => UpdatePage
    case GetBlockArgs(_) => GetBlock
    case AppendBlocksArgs(_, _) => AppendBlocks
    case ArchivePageArgs(_) => ArchivePage
    case UnarchivePageArgs(_) => UnarchivePage
    case DeleteBlockArgs(_) => DeleteBlock
    case UpdateBlockTextArgs(_, _, _) => UpdateBlockText
    case AppendHeadingArgs(_, _, _) => AppendHeading
    case AppendTodoArgs(_, _, _) => AppendTodo
    case ListDatabasesArgs(_, _) => ListDatabases
    case ListPagesArgs(_, _) => ListPagesInDatabase
    case AppendImageArgs(_, _) => AppendImageUrl
  }

  /** The search filter `{value, property: 'object'}` as validation passes it on. */
  function KindFilter(kind: Option<string>): Option<Json> {
    if kind.Some? then Some(JObj([Member("value", JStr(kind.value)), Member("property", JStr("object"))])) else None
  }

  function RecordOpt(r: Option<seq<Member>>): Option<Json> {
    if r.Some? then Some(JObj(r.value)) else None
  }

  function ArrayOpt(xs: Option<seq<Json>>): Option<Json> {
    if xs.Some? then Some(JArr(xs.value)) else None
  }

  /** The one request each handler sends. */
  function RequestOf(a: Args): P.Request {
    match a
    case SearchArgs(query, kind, pageSize) => P.SearchRequest(Some(query), KindFilter(kind), pageSize)
    case GetPageArgs(pageId) => P.RetrievePageRequest(pageId)
    case ListBlocksArgs(blockId, pageSize) => P.ListChildrenRequest(blockId, pageSize)
    case AppendParagraphArgs(parent, text) => P.AppendRequest(parent, [P.ParagraphBlock(text)])
    case CreatePageArgs(databaseId, title, titleProperty, properties) =>
      P.CreateRequest(P.Obj1("database_id", JStr(databaseId)), P.PageProperties(titleProperty, title, properties))
    case CreateSubpageArgs(parent, title, titleProperty, properties) =>
      P.CreateRequest(P.Obj1("page_id", JStr(parent)), P.PageProperties(titleProperty, title, properties))
    case QueryDatabaseArgs(databaseId, filter, sorts, cursor, pageSize) =>
      P.QueryRequest(databaseId, RecordOpt(filter), ArrayOpt(sorts), cursor, pageSize)
    case UpdatePageArgs(pageId, properties) => P.UpdatePropertiesRequest(pageId, properties)
    case GetBlockArgs(blockId) => P.RetrieveBlockRequest(blockId)
    case AppendBlocksArgs(parent, blocks) => P.AppendRequest(parent, blocks)
    case ArchivePageArgs(pageId) => P.ArchiveRequest(pageId, true)
    case UnarchivePageArgs(pageId) => P.ArchiveRequest(pageId, false)
    case DeleteBlockArgs(blockId) => P.DeleteBlockRequest(blockId)
    case UpdateBlockTextArgs(blockId, kind, text) => P.UpdateTextRequest(blockId, kind, text)
    case AppendHeadingArgs(parent, level, text) => P.AppendRequest(parent, [P.HeadingBlock(level, text)])
    case AppendTodoArgs(parent, text, checked) => P.AppendRequest(parent, [P.TodoBlock(text, checked)])
    case ListDatabasesArgs(query, pageSize) => P.SearchRequest(query, Some(P.DatabaseFilter), pageSize)
    case ListPagesArgs(databaseId, pageSize) => P.QueryRequest(databaseId, None, None, None, pageSize)
    case AppendImageArgs(parent, url) => P.AppendRequest(parent, [P.ImageBlock(url)])
  }

  /** The structured output a handler builds from the client's reply. */
  function Respond(a: Args, reply: Json): N.Outcome<Json> {
    match a
    case SearchArgs(_, _, _) => N.NormalizeSearch(reply)
    case AppendParagraphArgs(_, _) => N.AppendParagraphOutput(reply)
    case AppendBlocksArgs(_, _) => N.AppendBlocksOutput(reply)
    case ListDatabasesArgs(_, _) => N.NormalizeDatabases(reply)
    case ListPagesArgs(_, _) => N.NormalizePages(reply)
    case _ => N.Ok(reply)
  }

  /** How a tool call ends: refused by validation, failed in the handler, or answered. */
  datatype ToolResult = Rejected(why: Rejection) | Failed | Answered(structured: Json)

  function ResultOf(o: N.Outcome<Json>): ToolResult {
    if o.Ok? then Answered(o.value) else Failed
  }

  /** A Notion client that records each request and answers every one with `reply`. */
  class StubClient {
    var sent: seq<P.Request>
    const reply: Json

    constructor (reply: Json)
      ensures sent == [] && this.reply == reply
    {
      sent := [];
      this.reply := reply;
    }

    method Send(request: P.Request) returns (response: Json)
      modifies this
      ensures sent == old(sent) + [request]
      ensures response == reply
    {
      sent := sent + [request];
      response := reply;
    }
  }

  /**
   * A tool call: validation first, and only valid arguments reach the
   * handler, which sends exactly one request and builds its output.
   */
  method CallTool(client: StubClient, tool: Tool, raw: Json) returns (result: ToolResult)
    modifies client
    ensures Parse(tool, raw).Invalid? ==> result == Rejected(Parse(tool, raw).why) && client.sent == old(client.sent)
    ensures Parse(tool, raw).Valid? ==>
      && client.sent == old(client.sent) + [RequestOf(Parse(tool, raw).value)]
      && result == ResultOf(Respond(Parse(tool, raw).value, client.reply))
  {
    var parsed := Parse(tool, raw);
    if parsed.Invalid? {
      return Rejected(parsed.why);
    }
    var response := client.Send(RequestOf(parsed.value));
    result := ResultOf(Respond(parsed.value, response));
  }

  // Properties of validation

  /** The bounds the schemas declare, as the validated arguments satisfy them. */
  predicate PageSizeOk(n: Option<int>) {
    n.Some? ==> 1 <= n.value <= 100
  }

  predicate WithinBounds(a: Args) {
    match a
    case SearchArgs(query, kind, pageSize) => query != "" && (kind.Some? ==> kind.value in ["page", "database"]) && PageSizeOk(pageSize)
    case GetPageArgs(pageId) => pageId != ""
    case ListBlocksArgs(blockId, pageSize) => blockId != "" && PageSizeOk(pageSize)
    case AppendParagraphArgs(parent, text) => parent != "" && text != ""
    case CreatePageArgs(databaseId, title, titleProperty, _) => databaseId != "" && title != "" && titleProperty != ""
    case CreateSubpageArgs(parent, title, titleProperty, _) => parent != "" && title != "" && titleProperty != ""
    case QueryDatabaseArgs(databaseId, _, sorts, _, pageSize) =>
      databaseId != "" && (sorts.Some? ==> AllRecords(sorts.value)) && PageSizeOk(pageSize)
    case UpdatePageArgs(pageId, _) => pageId != ""
    case GetBlockArgs(blockId) => blockId != ""
    case AppendBlocksArgs(parent, blocks) => parent != "" && |blocks| >= 1 && AllRecords(blocks)
    case ArchivePageArgs(pageId) => pageId != ""
    case UnarchivePageArgs(pageId) => pageId != ""
    case DeleteBlockArgs(blockId) => blockId != ""
    case UpdateBlockTextArgs(blockId, _, text) => blockId != "" && text != ""
    case AppendHeadingArgs(parent, _, text) => parent != "" && text != ""
    case AppendTodoArgs(parent, text, _) => parent != "" && text != ""
    case ListDatabasesArgs(_, pageSize) => PageSizeOk(pageSize)
    case ListPagesArgs(databaseId, pageSize) => databaseId != "" && PageSizeOk(pageSize)
    case AppendImageArgs(parent, _) => parent != ""
  }

  /** The fields each tool requires (no default, not optional). */
  function RequiredFields(tool: Tool): seq<string> {
    match tool
    case Search => ["query"]
    case GetPage => ["page_id"]
    case ListBlocks => ["block_id"]
    case AppendParagraph => ["parent_block_id", "text"]
    case CreatePage => ["database_id", "title"]
    case CreateSubpage => ["parent_page_id", "title"]
    case QueryDatabase => ["database_id"]
    case UpdatePage => ["page_id", "properties"]
    case GetBlock => ["block_id"]
    case AppendBlocks => ["parent_block_id", "blocks"]
    case ArchivePage => ["page_id"]
    case UnarchivePage => ["page_id"]
    case DeleteBlock => ["block_id"]
    case UpdateBlockText => ["block_id", "type", "text"]
    case AppendHeading => ["parent_block_id", "text"]
    case AppendTodo => ["parent_block_id", "text"]
    case ListDatabases => []
    case ListPagesInDatabase => ["database_id"]
    case AppendImageUrl => ["parent_block_id", "url"]
  }

  /** Omitting a required field gets the call rejected, so no request reaches the client. */
  lemma MissingRequiredFieldRejected(tool: Tool, ms: seq<Member>, k: string)
    requires k in RequiredFields(tool) && k !in Keys(ms)
    ensures Parse(tool, JObj(ms)).Invalid?
  {
    LookupFound(ms, k);
    match tool
    case Search => assert ParseSearch(ms).Invalid?;
    case GetPage => assert ParseGetPage(ms).Invalid?;
    case ListBlocks => assert ParseListBlocks(ms).Invalid?;
    case AppendParagraph => assert ParseAppendParagraph(ms).Invalid?;
    case CreatePage => assert ParseCreatePage(ms).Invalid?;
    case CreateSubpage => assert ParseCreateSubpage(ms).Invalid?;
    case QueryDatabase => assert ParseQueryDatabase(ms).Invalid?;
    case UpdatePage => assert ParseUpdatePage(ms).Invalid?;
    case GetBlock => assert ParseGetBlock(ms).Invalid?;
    case AppendBlocks => assert ParseAppendBlocks(ms).Invalid?;
    case ArchivePage => assert ParseArchivePage(ms).Invalid?;
    case UnarchivePage => assert ParseUnarchivePage(ms).Invalid?;
    case DeleteBlock => assert ParseDeleteBlock(ms).Invalid?;
    case UpdateBlockText => assert ParseUpdateBlockText(ms).Invalid?;
    case AppendHeading => assert ParseAppendHeading(ms).Invalid?;
    case AppendTodo => assert ParseAppendTodo(ms).Invalid?;
    case ListDatabases =>
    case ListPagesInDatabase => assert ParseListPages(ms).Invalid?;
    case AppendImageUrl => assert ParseAppendImage(ms).Invalid?;
  }

  /** An empty `blocks` list is rejected before the client is called. */
  lemma EmptyBlocksRejected(ms: seq<Member>)
    requires Lookup(ms, "blocks") == Some(JArr([]))
    ensures Parse(AppendBlocks, JObj(ms)).Invalid?
  {
  }

  /** A `page_size` outside 1..100 is rejected by every tool that takes one. */
  lemma PageSizeOutOfRangeRejected(ms: seq<Member>, n: int)
    requires Lookup(ms, "page_size") == Some(JNum(n)) && !(1 <= n <= 100)
    ensures Parse(Search, JObj(ms)).Invalid?
    ensures Parse(ListBlocks, JObj(ms)).Invalid?
    ensures Parse(QueryDatabase, JObj(ms)).Invalid?
    ensures Parse(ListDatabases, JObj(ms)).Invalid?
    ensures Parse(ListPagesInDatabase, JObj(ms)).Invalid?
  {
    assert OptionalPageSize(ms, "page_size").Invalid?;
    SchemasRejectPageSize(ms);
  }

  lemma SchemasRejectPageSize(ms: seq<Member>)
    requires OptionalPageSize(ms, "page_size").Invalid?
    ensures ParseSearch(ms).Invalid? && ParseListBlocks(ms).Invalid? && ParseQueryDatabase(ms).Invalid?
    ensures ParseListDatabases(ms).Invalid? && ParseListPages(ms).Invalid?
  {
    if RequiredString(ms, "database_id").Valid? && OptionalRecord(ms, "filter").Valid? &&
       OptionalRecords(ms, "sorts").Valid? && OptionalString(ms, "start_cursor").Valid? {
    }
  }

  /**
   * `notion_create_page` without `title_property` or `properties` names the
   * title property "Name" and sends exactly that one property.
   */
  lemma CreatePageDefaults(ms: seq<Member>, databaseId: string, title: string)
    requires Lookup(ms, "database_id") == Some(JStr(databaseId)) && databaseId != ""
    requires Lookup(ms, "title") == Some(JStr(title)) && title != ""
    requires "title_property" !in Keys(ms) && "properties" !in Keys(ms)
    ensures Parse(CreatePage, JObj(ms)) == Valid(CreatePageArgs(databaseId, title, "Name", None))
    ensures RequestOf(CreatePageArgs(databaseId, title, "Name", None)) ==
      P.CreateRequest(P.Obj1("database_id", JStr(databaseId)), [Member("Name", P.TitleProperty(title))])
  {
    CreatePageSchemaDefaults(ms, databaseId, title);
    CreatePageDispatch(ms);
    DefaultTitleRequest(CreatePageArgs(databaseId, title, "Name", None));
  }

  /** Without extra properties, a create request carries only the title property. */
  lemma DefaultTitleRequest(a: Args)
    requires (a.CreatePageArgs? || a.CreateSubpageArgs?) && a.extra.None?
    ensures RequestOf(a) == P.CreateRequest(
      if a.CreatePageArgs? then P.Obj1("database_id", JStr(a.databaseId)) else P.Obj1("page_id", JStr(a.parentPageId)),
      [Member(a.titleProperty, P.TitleProperty(a.title))])
  {
    P.PagePropertiesMerge(a.titleProperty, a.title, None, a.titleProperty);
  }

  lemma CreatePageDispatch(ms: seq<Member>)
    ensures Parse(CreatePage, JObj(ms)) == ParseCreatePage(ms)
  {
  }

  lemma CreatePageSchemaDefaults(ms: seq<Member>, databaseId: string, title: string)
    requires Lookup(ms, "database_id") == Some(JStr(databaseId)) && databaseId != ""
    requires Lookup(ms, "title") == Some(JStr(title)) && title != ""
    requires "title_property" !in Keys(ms) && "properties" !in Keys(ms)
    ensures ParseCreatePage(ms) == Valid(CreatePageArgs(databaseId, title, "Name", None))
  {
    assert RequiredString(ms, "database_id") == Valid(databaseId);
    assert RequiredString(ms, "title") == Valid(title);
    LookupFound(ms, "title_property");
    LookupFound(ms, "properties");
    assert StringOr(ms, "title_property", "Name") == Valid("Name");
    assert OptionalRecord(ms, "properties") == Valid(None);
  }

  /** `notion_create_subpage` without `title_property` or `properties` names the title property "title". */
  lemma CreateSubpageDefaults(ms: seq<Member>, parentPageId: string, title: string)
    requires Lookup(ms, "parent_page_id") == Some(JStr(parentPageId)) && parentPageId != ""
    requires Lookup(ms, "title") == Some(JStr(title)) && title != ""
    requires "title_property" !in Keys(ms) && "properties" !in Keys(ms)
    ensures Parse(CreateSubpage, JObj(ms)) == Valid(CreateSubpageArgs(parentPageId, title, "title", None))
    ensures RequestOf(CreateSubpageArgs(parentPageId, title, "title", None)) ==
      P.CreateRequest(P.Obj1("page_id", JStr(parentPageId)), [Member("title", P.TitleProperty(title))])
  {
    CreateSubpageSchemaDefaults(ms, parentPageId, title);
    CreateSubpageDispatch(ms);
    DefaultTitleRequest(CreateSubpageArgs(parentPageId, title, "title", None));
  }

  lemma CreateSubpageDispatch(ms: seq<Member>)
    ensures Parse(CreateSubpage, JObj(ms)) == ParseCreateSubpage(ms)
  {
  }

  lemma CreateSubpageSchemaDefaults(ms: seq<Member>, parentPageId: string, title: string)
    requires Lookup(ms, "parent_page_id") == Some(JStr(parentPageId)) && parentPageId != ""
    requires Lookup(ms, "title") == Some(JStr(title)) && title != ""
    requires "title_property" !in Keys(ms) && "properties" !in Keys(ms)
    ensures ParseCreateSubpage(ms) == Valid(CreateSubpageArgs(parentPageId, title, "title", None))
  {
    assert RequiredString(ms, "parent_page_id") == Valid(parentPageId);
    assert RequiredString(ms, "title") == Valid(title);
    LookupFound(ms, "title_property");
    LookupFound(ms, "properties");
    assert StringOr(ms, "title_property", "title") == Valid("title");
    assert OptionalRecord(ms, "properties") == Valid(None);
  }

  /**
   * The title property of a created page always carries the given title
   * under the validated key, whatever else `properties` holds: the extra
   * properties cannot replace it unless they use that same key.
   */
  lemma CreatedPageKeepsTitle(a: Args)
    requires a.CreatePageArgs? || a.CreateSubpageArgs?
    requires a.extra.Some? ==> DistinctKeys(a.extra.value) && a.titleProperty !in Keys(a.extra.value)
    ensures var props := RequestOf(a).params;
      && Lookup(props, "properties").Some?
      && Lookup(props, "properties").value == JObj(P.PageProperties(a.titleProperty, a.title, a.extra))
      && Lookup(P.PageProperties(a.titleProperty, a.title, a.extra), a.titleProperty) == Some(P.TitleProperty(a.title))
  {
    P.PagePropertiesMerge(a.titleProperty, a.title, a.extra, a.titleProperty);
  }

  /** `notion_append_heading` without `level` appends one `heading_2` block carrying the text. */
  lemma AppendHeadingDefaultLevel(ms: seq<Member>, parent: string, text: string)
    requires Lookup(ms, "parent_block_id") == Some(JStr(parent)) && parent != ""
    requires Lookup(ms, "text") == Some(JStr(text)) && text != ""
    requires "level" !in Keys(ms)
    ensures Parse(AppendHeading, JObj(ms)) == Valid(AppendHeadingArgs(parent, P.H2, text))
    ensures RequestOf(AppendHeadingArgs(parent, P.H2, text)) == P.AppendRequest(parent, [P.HeadingBlock(P.H2, text)])
    ensures Get(P.HeadingBlock(P.H2, text), "type") == Some(JStr("heading_2"))
  {
    HeadingDefaultParses(ms, parent, text);
    HeadingDispatch(ms);
    HeadingRequest(parent, P.H2, text);
  }

  lemma HeadingDispatch(ms: seq<Member>)
    ensures Parse(AppendHeading, JObj(ms)) == ParseAppendHeading(ms)
  {
  }

  /**
   * `notion_append_heading` appends to the parent exactly one child: a block
   * whose type is the chosen level's name and whose text is the text given.
   */
  lemma HeadingRequest(parent: string, level: P.HeadingLevel, text: string)
    ensures var req := RequestOf(AppendHeadingArgs(parent, level, text));
      && req.op == P.AppendChildren
      && Lookup(req.params, "block_id") == Some(JStr(parent))
      && Lookup(req.params, "children") == Some(JArr([P.HeadingBlock(level, text)]))
    ensures Get(P.HeadingBlock(level, text), "type") == Some(JStr(level.Name()))
    ensures P.BlockText(P.HeadingBlock(level, text)) == Some(JStr(text))
  {
    P.AppendRequestFields(parent, [P.HeadingBlock(level, text)]);
    P.BlockBuildersCarryText(text, level, false);
  }

  lemma HeadingDefaultParses(ms: seq<Member>, parent: string, text: string)
    requires Lookup(ms, "parent_block_id") == Some(JStr(parent)) && parent != ""
    requires Lookup(ms, "text") == Some(JStr(text)) && text != ""
    requires "level" !in Keys(ms)
    ensures ParseAppendHeading(ms) == Valid(AppendHeadingArgs(parent, P.H2, text))
  {
    assert RequiredString(ms, "parent_block_id") == Valid(parent);
    LookupFound(ms, "level");
    assert HeadingLevelOr(ms, "level") == Valid(P.H2);
    assert RequiredString(ms, "text") == Valid(text);
  }

  /** `notion_append_todo` without `checked` appends one unchecked `to_do` block carrying the text. */
  lemma AppendTodoDefaultUnchecked(ms: seq<Member>, parent: string, text: string)
    requires Lookup(ms, "parent_block_id") == Some(JStr(parent)) && parent != ""
    requires Lookup(ms, "text") == Some(JStr(text)) && text != ""
    requires "checked" !in Keys(ms)
    ensures Parse(AppendTodo, JObj(ms)) == Valid(AppendTodoArgs(parent, text, false))
    ensures RequestOf(AppendTodoArgs(parent, text, false)) == P.AppendRequest(parent, [P.TodoBlock(text, false)])
    ensures Get(P.TodoBlock(text, false), "type") == Some(JStr("to_do"))
    ensures Get(P.TodoBody(text, false), "checked") == Some(JBool(false))
  {
    TodoDefaultParses(ms, parent, text);
    TodoDispatch(ms);
    TodoRequest(parent, text, false);
    P.TodoBlockChecked(text, false);
  }

  lemma TodoDispatch(ms: seq<Member>)
    ensures Parse(AppendTodo, JObj(ms)) == ParseAppendTodo(ms)
  {
  }

  /**
   * `notion_append_todo` appends to the parent exactly one `to_do` child that
   * carries the text and the checked state given.
   */
  lemma TodoRequest(parent: string, text: string, checked: bool)
    ensures var req := RequestOf(AppendTodoArgs(parent, text, checked));
      && req.op == P.AppendChildren
      && Lookup(req.params, "block_id") == Some(JStr(parent))
      && Lookup(req.params, "children") == Some(JArr([P.TodoBlock(text, checked)]))
    ensures Get(P.TodoBlock(text, checked), "type") == Some(JStr("to_do"))
    ensures P.BlockText(P.TodoBlock(text, checked)) == Some(JStr(text))
    ensures Dot(Get(P.TodoBlock(text, checked), "to_do"), "checked") == Some(JBool(checked))
  {
    P.AppendRequestFields(parent, [P.TodoBlock(text, checked)]);
    P.BlockBuildersCarryText(text, P.H2, checked);
    P.TodoBlockChecked(text, checked);
  }

  lemma TodoDefaultParses(ms: seq<Member>, parent: string, text: string)
    requires Lookup(ms, "parent_block_id") == Some(JStr(parent)) && parent != ""
    requires Lookup(ms, "text") == Some(JStr(text)) && text != ""
    requires "checked" !in Keys(ms)
    ensures ParseAppendTodo(ms) == Valid(AppendTodoArgs(parent, text, false))
  {
    assert RequiredString(ms, "parent_block_id") == Valid(parent);
    assert RequiredString(ms, "text") == Valid(text);
    LookupFound(ms, "checked");
    assert BoolOr(ms, "checked", false) == Valid(false);
  }

  /**
   * Archiving and unarchiving accept the same arguments and send the same
   * page update, differing only in the `archived` flag; `notion_delete_block`
   * is the block-level counterpart and sends a delete request for the block.
   */
  lemma ArchiveUnarchiveSymmetric(raw: Json, k: string)
    ensures Parse(ArchivePage, raw).Valid? <==> Parse(UnarchivePage, raw).Valid?
    ensures Parse(ArchivePage, raw).Valid? ==>
      var archive, unarchive := RequestOf(Parse(ArchivePage, raw).value), RequestOf(Parse(UnarchivePage, raw).value);
      && archive.op == unarchive.op == P.UpdatePage
      && (k != "archived" ==> Lookup(archive.params, k) == Lookup(unarchive.params, k))
      && Lookup(archive.params, "archived") == Some(JBool(true))
      && Lookup(unarchive.params, "archived") == Some(JBool(false))
  {
    if Parse(ArchivePage, raw).Valid? {
      P.ArchiveDiffersOnlyInFlag(Parse(ArchivePage, raw).value.pageId, k);
    }
  }
}
