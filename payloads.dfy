/**
 * The request payloads the tool handlers send to the Notion client,
 * identical in both copies of the server: the block objects, the title
 * property injected on page creation, and one parameter object per remote
 * call. A member whose value is undefined is left out, as the client's
 * serializer leaves it out.
 */
module Payloads {
  import opened Json

  /** The remote operations the handlers call. */
  datatype Operation =
    | Search            // notion.search
    | RetrievePage      // notion.pages.retrieve
    | CreatePage        // notion.pages.create
    | UpdatePage        // notion.pages.update
    | QueryDatabase     // notion.databases.query
    | ListChildren      // notion.blocks.children.list
    | AppendChildren    // notion.blocks.children.append
    | RetrieveBlock     // notion.blocks.retrieve
    | UpdateBlock       // notion.blocks.update
    | DeleteBlock       // notion.blocks.delete

  /** One call to the remote API: the operation and its parameter object. */
  datatype Request = Request(op: Operation, params: seq<Member>)

  /** The heading levels `heading_1`, `heading_2`, `heading_3`. */
  datatype HeadingLevel = H1 | H2 | H3 {
    function Name(): string {
      match this
      case H1 => "heading_1"
      case H2 => "heading_2"
      case H3 => "heading_3"
    }
  }

  /** The block types whose text `notion_update_block_text` rewrites. */
  datatype TextKind = Paragraph | Heading(level: HeadingLevel) {
    function Name(): string {
      match this
      case Paragraph => "paragraph"
      case Heading(level) => level.Name()
    }
  }

  function Obj1(k: string, v: Json): Json {
    JObj([Member(k, v)])
  }

  /** `{type: 'text', text: {content: text}}` */
  function TextSegment(text: string): Json {
    JObj([Member("type", JStr("text")), Member("text", Obj1("content", JStr(text)))])
  }

  /** `{rich_text: [segment]}` */
  function RichTextBody(text: string): Json {
    Obj1("rich_text", JArr([TextSegment(text)]))
  }

  /**
   * `{object: 'block', type: kind, [kind]: body}` for a kind the handlers
   * use (`paragraph`, a heading, `to_do`, `image`): three distinct keys in
   * the order written.
   */
  function BlockObject(kind: string, body: Json): Json {
    JObj([Member("object", JStr("block")), Member("type", JStr(kind)), Member(kind, body)])
  }

  /**
   * The same object literal for an arbitrary computed kind: the members are
   * written in order, so a kind equal to `object` or `type` overwrites that
   * member in place.
   */
  function ComputedBlockObject(kind: string, body: Json): Json {
    JObj(Put(Put([Member("object", JStr("block"))], "type", JStr(kind)), kind, body))
  }

  function ParagraphBlock(text: string): Json {
    BlockObject("paragraph", RichTextBody(text))
  }

  function HeadingBlock(level: HeadingLevel, text: string): Json {
    var body := RichTextBody(text);
    match level
    case H1 => BlockObject("heading_1", body)
    case H2 => BlockObject("heading_2", body)
    case H3 => BlockObject("heading_3", body)
  }

  /** `{checked: !!checked, rich_text: [segment]}` */
  function TodoBody(text: string, checked: bool): Json {
    JObj([Member("checked", JBool(checked)), Member("rich_text", JArr([TextSegment(text)]))])
  }

  function TodoBlock(text: string, checked: bool): Json {
    BlockObject("to_do", TodoBody(text, checked))
  }

  /** `{object: 'block', type: 'image', image: {type: 'external', external: {url}}}` */
  function ImageBlock(url: string): Json {
    BlockObject("image", JObj([Member("type", JStr("external")), Member("external", Obj1("url", JStr(url)))]))
  }

  /** `{title: [{text: {content: title}}]}` */
  function TitleProperty(title: string): Json {
    Obj1("title", JArr([Obj1("text", Obj1("content", JStr(title)))]))
  }

  /** `{[key]: TitleProperty(title), ...(extra ?? {})}` */
  function PageProperties(key: string, title: string, extra: Option<seq<Member>>): seq<Member> {
    Spread([Member(key, TitleProperty(title))], extra.GetOr([]))
  }

  function OptNum(n: Option<int>): Option<Json> {
    if n.Some? then Some(JNum(n.value)) else None
  }

  // The parameter objects, one per handler

  function SearchRequest(query: Option<string>, filter: Option<Json>, pageSize: Option<int>): Request {
    Request(Search, Field("query", OptStr(query)) + Field("filter", filter) + Field("page_size", OptNum(pageSize)))
  }

  /** `{property: 'object', value: 'database'}`, the fixed filter of `notion_list_databases`. */
  const DatabaseFilter: Json := JObj([Member("property", JStr("object")), Member("value", JStr("database"))])

  function RetrievePageRequest(pageId: string): Request {
    Request(RetrievePage, [Member("page_id", JStr(pageId))])
  }

  function ListChildrenRequest(blockId: string, pageSize: Option<int>): Request {
    Request(ListChildren, [Member("block_id", JStr(blockId))] + Field("page_size", OptNum(pageSize)))
  }

  function AppendRequest(parentBlockId: string, children: seq<Json>): Request {
    Request(AppendChildren, [Member("block_id", JStr(parentBlockId)), Member("children", JArr(children))])
  }

  function CreateRequest(parent: Json, properties: seq<Member>): Request {
    Request(CreatePage, [Member("parent", parent), Member("properties", JObj(properties))])
  }

  function QueryRequest(databaseId: string, filter: Option<Json>, sorts: Option<Json>, startCursor: Option<string>, pageSize: Option<int>): Request {
    Request(QueryDatabase,
      [Member("database_id", JStr(databaseId))] + Field("filter", filter) + Field("sorts", sorts)
      + Field("start_cursor", OptStr(startCursor)) + Field("page_size", OptNum(pageSize)))
  }

  function UpdatePropertiesRequest(pageId: string, properties: seq<Member>): Request {
    Request(UpdatePage, [Member("page_id", JStr(pageId)), Member("properties", JObj(properties))])
  }

  /** `{page_id, archived}`, shared by archive and unarchive. */
  function ArchiveRequest(pageId: string, archived: bool): Request {
    Request(UpdatePage, [Member("page_id", JStr(pageId)), Member("archived", JBool(archived))])
  }

  function RetrieveBlockRequest(blockId: string): Request {
    Request(RetrieveBlock, [Member("block_id", JStr(blockId))])
  }

  function DeleteBlockRequest(blockId: string): Request {
    Request(DeleteBlock, [Member("block_id", JStr(blockId))])
  }

  /** `{block_id, ...{[type]: {rich_text: [segment]}}}` */
  function UpdateTextRequest(blockId: string, kind: TextKind, text: string): Request {
    Request(UpdateBlock, Spread([Member("block_id", JStr(blockId))], [Member(kind.Name(), RichTextBody(text))]))
  }

  // Reading a payload back

  /** `body.rich_text[0].text.content`: the text a block body carries. */
  function BodyText(body: Json): Option<Json> {
    var first := First(Get(body, "rich_text"));
    var text := if first.Some? then Get(first.value, "text") else None;
    if text.Some? then Get(text.value, "content") else None
  }

  /** `b[b.type].rich_text[0].text.content`: the text a block carries. */
  function BlockText(b: Json): Option<Json> {
    var kind := Get(b, "type");
    if kind.Some? && kind.value.JStr? then
      var body := Get(b, kind.value.s);
      if body.Some? then BodyText(body.value) else None
    else None
  }

  /** `prop.title[0].text.content`: the text a title property carries. */
  function TitleText(prop: Json): Option<Json> {
    var first := First(Get(prop, "title"));
    var text := if first.Some? then Get(first.value, "text") else None;
    if text.Some? then Get(text.value, "content") else None
  }

  // Properties of the builders

  /**
   * A computed block object for a kind other than `object` and `type` has
   * exactly the members `object`, `type` and the kind, in this order.
   */
  lemma BlockObjectShape(kind: string, body: Json)
    requires kind != "object" && kind != "type"
    ensures ComputedBlockObject(kind, body) == BlockObject(kind, body)
  {
    var m0 := [Member("object", JStr("block"))];
    assert Keys(m0) == ["object"];
    PutNew(m0, "type", JStr(kind));
    var m1 := m0 + [Member("type", JStr(kind))];
    assert Keys(m1) == ["object", "type"];
    PutNew(m1, kind, body);
  }

  /** A text segment reads back its content, and so do the two block bodies built around one. */
  lemma SegmentReadBack(text: string, checked: bool)
    ensures Get(TextSegment(text), "text") == Some(Obj1("content", JStr(text)))
    ensures BodyText(RichTextBody(text)) == Some(JStr(text))
    ensures BodyText(TodoBody(text, checked)) == Some(JStr(text))
  {
    var sm := TextSegment(text).members;
    assert sm[0].key != sm[1].key by { assert sm[0].key[1] != sm[1].key[1]; }
    LookupPair(sm[0], sm[1]);
    assert Get(Obj1("content", JStr(text)), "content") == Some(JStr(text));
    assert First(Some(JArr([TextSegment(text)]))) == Some(TextSegment(text));
    assert Get(RichTextBody(text), "rich_text") == Some(JArr([TextSegment(text)]));
    var tb := TodoBody(text, checked).members;
    assert tb[0].key != tb[1].key by { assert tb[0].key[0] != tb[1].key[0]; }
    LookupPair(tb[0], tb[1]);
    assert Get(TodoBody(text, checked), "rich_text") == Some(JArr([TextSegment(text)]));
  }

  /** A block object reads back its kind and its body, and so the body's text. */
  lemma BlockObjectReadBack(kind: string, body: Json)
    requires kind != "object" && kind != "type"
    ensures Get(BlockObject(kind, body), "type") == Some(JStr(kind))
    ensures Get(BlockObject(kind, body), kind) == Some(body)
    ensures BlockText(BlockObject(kind, body)) == BodyText(body)
  {
    assert "object" != "type" by { assert |"object"| != |"type"|; }
    LookupTriple(Member("object", JStr("block")), Member("type", JStr(kind)), Member(kind, body));
  }

  /** Each block builder yields a block of its kind whose text reads back as the text given. */
  lemma BlockBuildersCarryText(text: string, level: HeadingLevel, checked: bool)
    ensures Get(ParagraphBlock(text), "type") == Some(JStr("paragraph")) && BlockText(ParagraphBlock(text)) == Some(JStr(text))
    ensures Get(HeadingBlock(level, text), "type") == Some(JStr(level.Name())) && BlockText(HeadingBlock(level, text)) == Some(JStr(text))
    ensures Get(TodoBlock(text, checked), "type") == Some(JStr("to_do")) && BlockText(TodoBlock(text, checked)) == Some(JStr(text))
  {
    SegmentReadBack(text, checked);
    BlockObjectReadBack("paragraph", RichTextBody(text));
    BlockObjectReadBack(level.Name(), RichTextBody(text));
    BlockObjectReadBack("to_do", TodoBody(text, checked));
  }

  /** An append request names the parent block and carries the children in order. */
  lemma AppendRequestFields(parentBlockId: string, children: seq<Json>)
    ensures AppendRequest(parentBlockId, children).op == AppendChildren
    ensures Lookup(AppendRequest(parentBlockId, children).params, "block_id") == Some(JStr(parentBlockId))
    ensures Lookup(AppendRequest(parentBlockId, children).params, "children") == Some(JArr(children))
  {
    var ps := AppendRequest(parentBlockId, children).params;
    assert ps[0].key != ps[1].key by { assert ps[0].key[0] != ps[1].key[0]; }
    LookupPair(ps[0], ps[1]);
  }

  /** A to-do block carries the checked state it was built with. */
  lemma TodoBlockChecked(text: string, checked: bool)
    ensures Get(TodoBlock(text, checked), "to_do") == Some(TodoBody(text, checked))
    ensures Get(TodoBody(text, checked), "checked") == Some(JBool(checked))
  {
    BlockObjectReadBack("to_do", TodoBody(text, checked));
  }

  /** An image block is of kind `image` and carries its external URL. */
  lemma ImageBlockUrl(url: string)
    ensures Get(ImageBlock(url), "type") == Some(JStr("image"))
    ensures Dot(Dot(Dot(Some(ImageBlock(url)), "image"), "external"), "url") == Some(JStr(url))
  {
    var external := Obj1("url", JStr(url));
    var image := JObj([Member("type", JStr("external")), Member("external", external)]);
    BlockObjectReadBack("image", image);
    var im := image.members;
    assert im[0].key != im[1].key by { assert |im[0].key| != |im[1].key|; }
    LookupPair(im[0], im[1]);
    assert Dot(Some(ImageBlock(url)), "image") == Some(image);
    assert Dot(Some(image), "external") == Some(external);
    assert Dot(Some(external), "url") == Some(JStr(url));
  }

  /** The injected title property reads back as the title. */
  lemma TitlePropertyCarriesTitle(title: string)
    ensures TitleText(TitleProperty(title)) == Some(JStr(title))
  {
  }

  /**
   * Page properties: with no caller properties they are exactly the title
   * entry; otherwise every caller key takes the caller's value, the title
   * key keeps the title entry unless the caller overrides it, and no other key
   * appears. The title key stays first.
   */
  lemma PagePropertiesMerge(key: string, title: string, extra: Option<seq<Member>>, k: string)
    requires extra.Some? ==> DistinctKeys(extra.value)
    ensures extra.None? ==> PageProperties(key, title, extra) == [Member(key, TitleProperty(title))]
    ensures var props := PageProperties(key, title, extra);
      var ex := extra.GetOr([]);
      && Lookup(props, k) == (if k in Keys(ex) then Lookup(ex, k) else if k == key then Some(TitleProperty(title)) else None)
      && |props| > 0 && props[0].key == key
      && DistinctKeys(props)
  {
    var base := [Member(key, TitleProperty(title))];
    var ex := extra.GetOr([]);
    SpreadLookup(base, ex, k);
    SpreadKeysPrefix(base, ex);
    SpreadKeepsDistinct(base, ex);
  }

  /** Archive and unarchive send the same update, differing only in the archived flag. */
  lemma ArchiveDiffersOnlyInFlag(pageId: string, k: string)
    ensures ArchiveRequest(pageId, true).op == ArchiveRequest(pageId, false).op == UpdatePage
    ensures Keys(ArchiveRequest(pageId, true).params) == Keys(ArchiveRequest(pageId, false).params) == ["page_id", "archived"]
    ensures k != "archived" ==> Lookup(ArchiveRequest(pageId, true).params, k) == Lookup(ArchiveRequest(pageId, false).params, k)
    ensures Lookup(ArchiveRequest(pageId, true).params, "archived") == Some(JBool(true))
    ensures Lookup(ArchiveRequest(pageId, false).params, "archived") == Some(JBool(false))
  {
  }

  /**
   * The block-text update names the block and has one content member, keyed
   * by the chosen type and holding one text segment with the new text.
   */
  lemma UpdateTextShape(blockId: string, kind: TextKind, text: string)
    ensures UpdateTextRequest(blockId, kind, text).op == UpdateBlock
    ensures UpdateTextRequest(blockId, kind, text).params == [Member("block_id", JStr(blockId)), Member(kind.Name(), RichTextBody(text))]
    ensures kind.Name() in ["paragraph", "heading_1", "heading_2", "heading_3"]
    ensures BodyText(RichTextBody(text)) == Some(JStr(text))
  {
    SegmentReadBack(text, false);
    var base := [Member("block_id", JStr(blockId))];
    var extra := [Member(kind.Name(), RichTextBody(text))];
    assert Keys(base) == ["block_id"];
    assert kind.Name() != "block_id" && kind.Name() in ["paragraph", "heading_1", "heading_2", "heading_3"] by {
      match kind
      case Paragraph =>
      case Heading(level) =>
        match level
        case H1 =>
        case H2 =>
        case H3 =>
    }
    PutNew(base, kind.Name(), RichTextBody(text));
    assert extra[1..] == [];
    assert Spread(base, extra) == Spread(Put(base, kind.Name(), RichTextBody(text)), []);
  }
}
