# Notion tool server: request and response marshalling

This project models the core of a Notion tool server for the Model Context
Protocol. `buildNotionServer` resolves an API key and registers nineteen
tools and three helper prompts. The repository keeps two copies of that
file, `dist/shared/notionServer.js` (the built copy) and
`src/shared/notionServer.ts` (the TypeScript source). Their handler,
normalizer, prompt and title logic is the same and is modelled once; their
credential lookup differs and is modelled once per copy.

Each tool works the same way:

1. The arguments are validated against the tool's input schema (`Tools.Parse`).
2. Valid arguments become exactly one request to the Notion client (`Tools.RequestOf`).
3. The client's reply becomes the tool's structured output (`Tools.Respond`, over the normalizers of `Normalize`).

`Tools.CallTool` puts the three steps together against `Tools.StubClient`.
The stub stands in for the Notion SDK: it records every request it is sent
and answers all of them with one fixed reply.

Modules:

- `Json`: JSON-like values. An object is a sequence of members in key
  enumeration order. `Put` models an assignment `obj[k] = v`: an existing key
  keeps its position and a new key goes last. `Spread` models `{...a, ...b}`.
  The module also covers property reads (`Get`), optional chaining (`Dot`,
  `First`) and truthiness (`Truthy`).
- `JsText`: `trim` (ECMAScript white space and line terminators),
  `toLowerCase` on ASCII letters, and `startsWith`.
- `DistCredential`: the candidate scan of the built copy and its startup check.
- `SrcCredential`: the `||` chain of the TypeScript copy and its startup
  check, plus where the two copies disagree.
- `Title`: `extractTitleFromPage`. It is a method with a loop, proved against
  the function `PageTitle`.
- `Normalize`: the search, database-listing, page-listing and append result
  normalizers. A JavaScript expression that reads a property of `null`
  throws; that outcome is `Thrown`.
- `Payloads`: the block objects, the injected title property, and the
  parameter object of every remote call.
- `Tools`:
  - the tool catalog and each tool's declared input schema as data (`Schema`, `Accepts`);
  - one validator per kind of schema entry, and the parse of each tool's arguments, proved to accept exactly the arguments that conform to the schema;
  - the request and output of each handler, and the bounds that validated arguments satisfy;
  - the stub client and a tool call.
- `Prompts`: argument completion by prefix, and the three JSON snippets.
- `Scenarios`: single calls on concrete values.
  - A search for "Roadmap" and its normalized output.
  - A page created with the default title key.
  - A to-do appended with the default `checked`.
  - A startup with no credential.

The model follows the code where it differs from the code's own description:

- In the TypeScript copy the `||` chain returns its last operand when no
  variable is truthy. With `NOTION_SECRET=""` the key is `""`, not
  undefined, and startup still exits (`SrcCredential.EmptySecretYieldsEmptyKey`).
- The TypeScript copy accepts `GEMINI_API_KEY`, but its missing-key
  diagnostic names only four variables, the same four the built copy names.
  Both copies print that same diagnostic.
- The title scan does not stop at the first title property. A title property
  whose first segment carries no text is skipped, and the scan goes on.
- The `?? 'Name'` and `?? 'title'` fall-backs on `title_property` never
  apply, because validation already supplies the default. What validation
  does pass on is a non-empty string.

## Model

| member | source | states |
|---|---|---|
| Json.Put | dist/shared/notionServer.js:169-178 | after `obj[k] = v` the key k reads v and every other key reads what it read before |
| Json.Spread | dist/shared/notionServer.js:169-178 | the members of `{...a, ...b}`: b's members are assigned over a one by one; SpreadLookup, SpreadKeys, SpreadKeysPrefix and SpreadKeepsDistinct state what that yields |
| Json.PutKeys | dist/shared/notionServer.js:354 | an assignment to an existing key keeps the key order; a new key is enumerated last |
| Json.PutNew | dist/shared/notionServer.js:354 | assigning a key the object lacks appends exactly one member |
| Json.PutKeepsDistinct | dist/shared/notionServer.js:169-178 | an assignment never creates a duplicate key |
| Json.SpreadLookup | dist/shared/notionServer.js:169-178 | in `{...a, ...b}` a key of b reads b's value, any other key reads a's (last write wins) |
| Json.SpreadKeys | dist/shared/notionServer.js:169-178 | a key is in the spread exactly when it is a key of a or of b |
| Json.SpreadKeysPrefix | dist/shared/notionServer.js:169-178 | a's keys come first in the spread, in their own order |
| Json.SpreadKeepsDistinct | dist/shared/notionServer.js:169-178 | a spread over an object with distinct keys keeps them distinct |
| Json.LookupFound | dist/shared/notionServer.js:169-178 | a property read finds nothing exactly when the key is not among the object's keys |
| Json.Dot | dist/shared/notionServer.js:86 | optional chaining short-circuits on undefined and null |
| Json.Get | dist/shared/notionServer.js:80-89 | `v.k` on a non-null value: the member of an object, undefined on strings, numbers, booleans and arrays |
| Json.First | dist/shared/notionServer.js:86 | `?.[0]`: the first element of a non-empty array, undefined for an empty one or a non-value |
| Json.Truthy | dist/shared/notionServer.js:91 | `!!v`: false for undefined, null, false, 0 and the empty string, true for every other value |
| Json.Field | dist/shared/notionServer.js:75-79 | a member `k: v` of an object literal, dropped when v is undefined; FieldsLookup reads such members back |
| JsText.TrimStart | dist/shared/notionServer.js:27 | the result is a suffix of the input; only white space was removed; it does not start with white space |
| JsText.TrimEnd | dist/shared/notionServer.js:27 | the result is a prefix of the input; only white space was removed; it does not end with white space |
| JsText.Trim | dist/shared/notionServer.js:27 | a non-empty trimmed string neither starts nor ends with white space |
| JsText.TrimIsSlice | dist/shared/notionServer.js:27 | the trimmed string is a slice of the input with only white space on either side |
| JsText.TrimEmptyIffAllSpace | dist/shared/notionServer.js:27 | `s.trim().length > 0` exactly when s is not all white space |
| JsText.TrimIdempotent | dist/shared/notionServer.js:28 | trimming twice equals trimming once |
| JsText.Lower | dist/shared/notionServer.js:419 | lower-casing keeps the length and maps every character on its own |
| DistCredential.CandidatesPerPlatform | dist/shared/notionServer.js:18-39 | both platforms try NOTION_API_KEY, GEMINI_NOTION_API_KEY, NOTION_TOKEN, NOTION_SECRET in this order; Windows labels carry the `HKCU:` prefix and read the registry |
| DistCredential.Candidates | dist/shared/notionServer.js:18-39 | the four candidates with their labels, from the registry on Windows and from the environment elsewhere, as CandidatesPerPlatform states |
| DistCredential.FirstUsable | dist/shared/notionServer.js:26-30 | the trimmed value and label of the first candidate holding a string with non-white-space content; FirstUsableIsFirstMatch and FirstUsableNone state this |
| DistCredential.FirstUsableNone | dist/shared/notionServer.js:40-45 | the scan finds no key exactly when no candidate's trimmed value is non-empty |
| DistCredential.FirstUsableIsFirstMatch | dist/shared/notionServer.js:26-30 | the scan returns the trimmed value and label of the first usable candidate |
| DistCredential.FirstUsableKeyTrimmed | dist/shared/notionServer.js:41-42 | a resolved key is non-empty and already trimmed |
| DistCredential.ResolveNotionApiKey | dist/shared/notionServer.js:17-46 | the loop with early return yields the first usable candidate's credential, or nothing |
| DistCredential.Startup | dist/shared/notionServer.js:47-54 | a missing key exits with status 1 and the diagnostic; otherwise the client authenticates with the key |
| DistCredential.StartsIffSomeCandidateUsable | dist/shared/notionServer.js:17-54 | the server starts exactly when some candidate is usable |
| DistCredential.DiagnosticNamesEveryKey | dist/shared/notionServer.js:50 | the diagnostic names each of the four accepted variables |
| SrcCredential.OrChainFirstTruthy | src/shared/notionServer.ts:6-14 | an `or` chain yields its first truthy operand, and its last operand when none is truthy |
| SrcCredential.OrChain | src/shared/notionServer.ts:7-13 | JavaScript `a || b || ...`; OrChainFirstTruthy states its result |
| SrcCredential.GetNotionApiKey | src/shared/notionServer.ts:6-14 | the `||` chain over the five variables read from the environment; GetNotionApiKeyFirstSet states its result |
| SrcCredential.GetNotionApiKeyFirstSet | src/shared/notionServer.ts:6-14 | the key is the untrimmed value of the first non-empty variable of the five; with none it is NOTION_SECRET's own value |
| SrcCredential.Startup | src/shared/notionServer.ts:16-25 | a falsy key exits with status 1 and the diagnostic; otherwise the client authenticates with the key unchanged |
| SrcCredential.BlankKeyAcceptedOnlyHere | src/shared/notionServer.ts:6-14 | any non-empty all-white-space NOTION_API_KEY starts this copy with that key, while the built copy resolves nothing from it |
| SrcCredential.GeminiApiKeyAcceptedOnlyHere | src/shared/notionServer.ts:10 | GEMINI_API_KEY alone starts this copy and not the built copy |
| SrcCredential.EmptySecretYieldsEmptyKey | src/shared/notionServer.ts:6-23 | `NOTION_SECRET=""` yields `""` rather than undefined, and the server exits |
| SrcCredential.CopiesAgreeOnTrimmedValues | src/shared/notionServer.ts:6-14 | with trimmed values and no GEMINI_API_KEY both copies start on the same key, or both stop |
| SrcCredential.OrChainSkip | src/shared/notionServer.ts:7-13 | an unset operand other than the last can be removed from the chain |
| SrcCredential.ChainsAgree | src/shared/notionServer.ts:7-13 | over trimmed values the candidate scan and the `or` chain pick the same value |
| Title.SegmentText | dist/shared/notionServer.js:473-477 | a segment yields only a truthy text |
| Title.Entries | dist/shared/notionServer.js:469-471 | the property values of a page in `Object.keys` order |
| Title.PageTitle | dist/shared/notionServer.js:466-481 | the title `extractTitleFromPage` returns; ScanIsFirstMatch, PageTitleFromSomeProperty and NoPropertiesNoTitle state it |
| Title.PropertyTitle | dist/shared/notionServer.js:472-477 | only a `title`-typed property with an array contributes, and what it contributes is truthy |
| Title.FirstSomeIsFirstMatch | dist/shared/notionServer.js:470-480 | the scan returns the first contribution and finds nothing exactly when nothing contributes |
| Title.ScanIsFirstMatch | dist/shared/notionServer.js:470-480 | over a page's properties the scan returns the first title property that yields text; one without text is skipped |
| Title.PageTitleFromSomeProperty | dist/shared/notionServer.js:466-481 | a found title is truthy and taken from a title property of that page |
| Title.NoPropertiesNoTitle | dist/shared/notionServer.js:467-468 | an absent or null page, or one without properties, has no title |
| Title.PlainTextPreferred | dist/shared/notionServer.js:473-477 | `plain_text` wins over `text.content`, which is used only when `plain_text` is falsy |
| Title.ExtractTitleFromPage | src/shared/notionServer.ts:561-573 | the loop with early return computes PageTitle |
| Normalize.MapNonNull | dist/shared/notionServer.js:80 | the map succeeds exactly when no element is null, and then keeps length and order |
| Normalize.SearchItem | dist/shared/notionServer.js:80-90 | the summary of one search result; SearchItemShape states it |
| Normalize.DatabaseItem | dist/shared/notionServer.js:385 | the summary of one listed database: id, object, first title segment, url |
| Normalize.PageRow | dist/shared/notionServer.js:395 | the row of one listed page; PageRowShape states it |
| Normalize.NormalizeSearch | dist/shared/notionServer.js:80-91 | the search output; NormalizeSearchPreservesOrder states it |
| Normalize.NormalizeDatabases | dist/shared/notionServer.js:384-386 | the database-listing output; NormalizeDatabasesPreservesOrder states it |
| Normalize.NormalizePages | dist/shared/notionServer.js:395-396 | the page-listing output; NormalizePagesPreservesOrder states it |
| Normalize.AppendBlocksOutput | dist/shared/notionServer.js:290-291 | the append-blocks output; AppendBlocksReportsIds states it |
| Normalize.AppendParagraphOutput | dist/shared/notionServer.js:148-149 | the append-paragraph output; AppendParagraphReportsFirstId states it |
| Normalize.SummaryLookup | dist/shared/notionServer.js:83 | a summary holds id, object, title and url as read from the record and nothing else |
| Normalize.SearchItemShape | dist/shared/notionServer.js:80-90 | a page takes its title from the title scan, a database from `title[0].plain_text`, any other kind yields only id and object |
| Normalize.PageRowShape | dist/shared/notionServer.js:395 | a listed page row holds id, url and the scanned title, and no `object` |
| Normalize.NormalizeSearchPreservesOrder | dist/shared/notionServer.js:80-91 | search output succeeds exactly when `results` is an array without nulls, keeps length and order, and an absent `has_more` becomes false |
| Normalize.NormalizeDatabasesPreservesOrder | dist/shared/notionServer.js:384-386 | database listing has the same success condition and order as search, summarises every record as a database, and reports `has_more` as its truthiness |
| Normalize.NormalizePagesPreservesOrder | src/shared/notionServer.ts:466-468 | page listing turns a falsy `results` into an empty list, maps pages in order, and defaults `has_more` to false |
| Normalize.TruthyIds | dist/shared/notionServer.js:290 | no more ids than blocks, and every kept id is truthy |
| Normalize.TruthyIdsAppend | dist/shared/notionServer.js:290 | the id filter distributes over concatenation, so it keeps order |
| Normalize.TruthyIdsAreIds | dist/shared/notionServer.js:290 | every kept id is some block's id, and every truthy block id is kept |
| Normalize.TruthyIdsKeepAll | dist/shared/notionServer.js:290 | when all ids are truthy they are all kept, in block order |
| Normalize.AppendBlocksReportsIds | dist/shared/notionServer.js:290-291 | append-blocks reports success with the truthy result ids, and absent results give an empty list |
| Normalize.AppendParagraphReportsFirstId | dist/shared/notionServer.js:148-149 | append-paragraph reports success with the first result's id, left out when there is none |
| Payloads.BlockObjectShape | dist/shared/notionServer.js:354 | a block object has exactly `object`, `type` and the kind key, in that order |
| Payloads.TextSegment | dist/shared/notionServer.js:144 | one rich-text segment `{type: text, text: {content}}`; SegmentReadBack reads its text back |
| Payloads.RichTextBody | dist/shared/notionServer.js:144 | a block body holding one text segment |
| Payloads.BlockObject | dist/shared/notionServer.js:354 | a block `{object, type, [type]: body}` for a type other than `object` and `type`; BlockObjectReadBack reads it back |
| Payloads.ComputedBlockObject | dist/shared/notionServer.js:447 | the same literal with a computed type, where a type named `object` or `type` overwrites that member; BlockObjectShape and BlocksSnippetTypeKind state both cases |
| Payloads.ParagraphBlock | dist/shared/notionServer.js:141-145 | the paragraph block of append-paragraph; BlockBuildersCarryText states it |
| Payloads.HeadingBlock | dist/shared/notionServer.js:354 | the heading block of the chosen level; BlockBuildersCarryText states it |
| Payloads.TodoBody | dist/shared/notionServer.js:372 | the to-do body with `checked` and the text; TodoBlockChecked states it |
| Payloads.TodoBlock | dist/shared/notionServer.js:372 | the to-do block; BlockBuildersCarryText and TodoBlockChecked state it |
| Payloads.ImageBlock | dist/shared/notionServer.js:408 | an external image block; ImageBlockUrl states it |
| Payloads.TitleProperty | dist/shared/notionServer.js:170-176 | the injected title property; TitlePropertyCarriesTitle states it |
| Payloads.PageProperties | dist/shared/notionServer.js:169-178 | the title entry spread with the caller's properties; PagePropertiesMerge states it |
| Payloads.SearchRequest | dist/shared/notionServer.js:75-79 | the `notion.search` parameters, undefined members dropped |
| Payloads.RetrievePageRequest | dist/shared/notionServer.js:104 | the `notion.pages.retrieve` parameters |
| Payloads.ListChildrenRequest | dist/shared/notionServer.js:121 | the `notion.blocks.children.list` parameters |
| Payloads.AppendRequest | dist/shared/notionServer.js:138-147 | the `notion.blocks.children.append` parameters; AppendRequestFields reads them back |
| Payloads.CreateRequest | dist/shared/notionServer.js:167-179 | the `notion.pages.create` parameters |
| Payloads.QueryRequest | dist/shared/notionServer.js:231-237 | the `notion.databases.query` parameters, undefined members dropped |
| Payloads.UpdatePropertiesRequest | dist/shared/notionServer.js:253-256 | the `notion.pages.update` parameters of update-page |
| Payloads.ArchiveRequest | dist/shared/notionServer.js:303 | the page update of archive and unarchive; ArchiveDiffersOnlyInFlag states it |
| Payloads.RetrieveBlockRequest | dist/shared/notionServer.js:269 | the `notion.blocks.retrieve` parameters |
| Payloads.DeleteBlockRequest | dist/shared/notionServer.js:322 | the `notion.blocks.delete` parameters |
| Payloads.UpdateTextRequest | dist/shared/notionServer.js:336-337 | the `notion.blocks.update` parameters; UpdateTextShape states them |
| Payloads.AppendRequestFields | dist/shared/notionServer.js:351-356 | an append request names the parent block and carries the children in order |
| Payloads.SegmentReadBack | dist/shared/notionServer.js:144 | a rich-text body and a to-do body read back the text they were built with |
| Payloads.BlockObjectReadBack | dist/shared/notionServer.js:354 | a block object reads back its kind and its body |
| Payloads.BlockBuildersCarryText | dist/shared/notionServer.js:141-145 | paragraph, heading and to-do blocks have their kind and read back their text |
| Payloads.TodoBlockChecked | dist/shared/notionServer.js:372 | a to-do block carries the checked state it was given |
| Payloads.ImageBlockUrl | dist/shared/notionServer.js:408 | an image block is an external image with the given URL |
| Payloads.TitlePropertyCarriesTitle | dist/shared/notionServer.js:170-176 | the injected title property reads back the title |
| Payloads.PagePropertiesMerge | dist/shared/notionServer.js:169-178 | page properties are the title entry with caller keys winning; no other key appears; the title key stays first |
| Payloads.ArchiveDiffersOnlyInFlag | dist/shared/notionServer.js:298-312 | archive and unarchive send the same page update except for `archived` |
| Payloads.UpdateTextShape | src/shared/notionServer.ts:388-389 | the block-text update has `block_id` and one content key equal to the chosen type, holding the new text |
| Tools.RequiredString | dist/shared/notionServer.js:133-134 | a required string is accepted exactly when present and non-empty; otherwise that field is named |
| Tools.AnyString | dist/shared/notionServer.js:403 | accepted exactly when the field is a string, and then as itself |
| Tools.OptionalString | dist/shared/notionServer.js:227 | accepted exactly when absent or a string, and passed on as it was |
| Tools.StringOr | dist/shared/notionServer.js:162 | an absent field takes the default; a present one is accepted exactly when it is a non-empty string, and then as itself; a rejection names the field |
| Tools.OptionalPageSize | dist/shared/notionServer.js:68 | `page_size` is rejected exactly when present and not an integer in 1..100 |
| Tools.RequiredRecord | dist/shared/notionServer.js:250 | accepted exactly when the field is an object, and then as itself |
| Tools.OptionalRecord | dist/shared/notionServer.js:163 | accepted exactly when absent or an object, and passed on as it was |
| Tools.OptionalRecords | dist/shared/notionServer.js:226 | accepted exactly when absent or an array of records, and then passed on unchanged |
| Tools.BlockList | dist/shared/notionServer.js:282 | `blocks` is accepted exactly when it is a non-empty array of records |
| Tools.BoolOr | dist/shared/notionServer.js:366 | an absent field takes the default; a present one is accepted exactly when it is a boolean, and then as itself |
| Tools.IsKindFilter | dist/shared/notionServer.js:66 | the search filter object `{value: page or database, property: object}` |
| Tools.OptionalKindFilter | dist/shared/notionServer.js:65-67 | accepted exactly when absent or an object whose `value` is page or database and whose `property` is object; the kind passed on is that `value` |
| Tools.LevelNamed | dist/shared/notionServer.js:347 | exactly heading_1, heading_2 and heading_3 name a level, and each names the level of that name |
| Tools.HeadingLevelOr | dist/shared/notionServer.js:347 | an absent level is heading_2; a present one is accepted exactly when it is one of the three heading names, and then as the level of that name |
| Tools.RequiredTextKind | dist/shared/notionServer.js:332 | accepted exactly when the field is paragraph or one of the three heading names, and then as the type of that name |
| Tools.Accepts | dist/shared/notionServer.js:59-403 | the values each kind of schema entry admits, with undefined for an absent field |
| Tools.Schema | dist/shared/notionServer.js:59-403 | the declared input schema of each of the nineteen tools, key by key |
| Tools.Conforms | dist/shared/notionServer.js:59-403 | every entry of a schema admits what the arguments hold under its key |
| Tools.ParseSearch | dist/shared/notionServer.js:63-69 | accepted exactly when the arguments conform to the schema (query non-empty string, filter absent or a page/database kind filter, page_size absent or 1..100); the parsed arguments carry each validated value |
| Tools.ParseGetPage | dist/shared/notionServer.js:101 | accepted exactly when the arguments conform to the schema (page_id non-empty string); the parsed arguments carry each validated value |
| Tools.ParseListBlocks | dist/shared/notionServer.js:115-118 | accepted exactly when the arguments conform to the schema (block_id non-empty string, page_size absent or 1..100); the parsed arguments carry each validated value |
| Tools.ParseAppendParagraph | dist/shared/notionServer.js:132-135 | accepted exactly when the arguments conform to the schema (parent_block_id and text non-empty strings); the parsed arguments carry each validated value |
| Tools.ParseCreatePage | dist/shared/notionServer.js:159-164 | accepted exactly when the arguments conform to the schema (database_id and title non-empty strings, title_property absent (then "Name") or non-empty, properties absent or an object); the parsed arguments carry each validated value |
| Tools.ParseCreateSubpage | dist/shared/notionServer.js:190-195 | accepted exactly when the arguments conform to the schema (parent_page_id and title non-empty strings, title_property absent (then "title") or non-empty, properties absent or an object); the parsed arguments carry each validated value |
| Tools.ParseQueryDatabase | dist/shared/notionServer.js:223-229 | accepted exactly when the arguments conform to the schema (database_id non-empty, filter absent or an object, sorts absent or an array of objects, start_cursor absent or a string, page_size absent or 1..100); the parsed arguments carry each validated value |
| Tools.ParseUpdatePage | dist/shared/notionServer.js:248-251 | accepted exactly when the arguments conform to the schema (page_id non-empty string, properties an object); the parsed arguments carry each validated value |
| Tools.ParseGetBlock | dist/shared/notionServer.js:267 | accepted exactly when the arguments conform to the schema (block_id non-empty string); the parsed arguments carry each validated value |
| Tools.ParseAppendBlocks | dist/shared/notionServer.js:280-283 | accepted exactly when the arguments conform to the schema (parent_block_id non-empty string, blocks a non-empty array of objects); the parsed arguments carry each validated value |
| Tools.ParseArchivePage | dist/shared/notionServer.js:301 | accepted exactly when the arguments conform to the schema (page_id non-empty string); the parsed arguments carry each validated value |
| Tools.ParseUnarchivePage | dist/shared/notionServer.js:310 | accepted exactly when the arguments conform to the schema (page_id non-empty string); the parsed arguments carry each validated value |
| Tools.ParseDeleteBlock | dist/shared/notionServer.js:320 | accepted exactly when the arguments conform to the schema (block_id non-empty string); the parsed arguments carry each validated value |
| Tools.ParseUpdateBlockText | dist/shared/notionServer.js:330-334 | accepted exactly when the arguments conform to the schema (block_id and text non-empty strings, type one of paragraph and the three heading names, mapped to the type of that name); the parsed arguments carry each validated value |
| Tools.ParseAppendHeading | dist/shared/notionServer.js:345-349 | accepted exactly when the arguments conform to the schema (parent_block_id and text non-empty strings, level absent (then heading_2) or one of the three heading names, mapped to the level of that name); the parsed arguments carry each validated value |
| Tools.ParseAppendTodo | dist/shared/notionServer.js:363-367 | accepted exactly when the arguments conform to the schema (parent_block_id and text non-empty strings, checked absent (then false) or a boolean, carried as given); the parsed arguments carry each validated value |
| Tools.ParseListDatabases | dist/shared/notionServer.js:382 | accepted exactly when the arguments conform to the schema (query absent or a string, page_size absent or 1..100); the parsed arguments carry each validated value |
| Tools.ParseListPages | dist/shared/notionServer.js:392 | accepted exactly when the arguments conform to the schema (database_id non-empty string, page_size absent or 1..100); the parsed arguments carry each validated value |
| Tools.ParseAppendImage | dist/shared/notionServer.js:403 | accepted exactly when the arguments conform to the schema (parent_block_id non-empty string, url a string); the parsed arguments carry each validated value |
| Tools.Parse | dist/shared/notionServer.js:59-413 | a tool's arguments are accepted exactly when they are an object conforming to that tool's declared schema; accepted arguments belong to that tool and satisfy every declared bound |
| Tools.RequestOf | dist/shared/notionServer.js:75-408 | the one request each handler sends; CallTool, CreatePageDefaults, HeadingRequest, TodoRequest and ArchiveUnarchiveSymmetric state what it holds |
| Tools.Respond | dist/shared/notionServer.js:80-397 | the structured output of each handler: the normalizers for search, listings and appends, the reply itself otherwise |
| Tools.StubClient.constructor | dist/shared/notionServer.js:54 | a new client has sent nothing |
| Tools.StubClient.Send | dist/shared/notionServer.js:75-79 | the client records the request and answers with its reply |
| Tools.CallTool | dist/shared/notionServer.js:74-95 | rejected arguments send nothing; valid ones send exactly the handler's request, and the result is the handler's output for the reply |
| Tools.MissingRequiredFieldRejected | dist/shared/notionServer.js:101 | a missing required field rejects the call |
| Tools.EmptyBlocksRejected | dist/shared/notionServer.js:282 | an empty `blocks` list rejects the call |
| Tools.PageSizeOutOfRangeRejected | dist/shared/notionServer.js:382 | every one of the five tools with `page_size` rejects the same arguments when the value lies outside 1..100 |
| Tools.SchemasRejectPageSize | dist/shared/notionServer.js:68 | an invalid `page_size` fails each of the five schemas that declare it, whatever the other fields hold |
| Tools.CreatePageDefaults | dist/shared/notionServer.js:156-179 | create-page with no title key or properties sends just `{Name: title}` under the database parent |
| Tools.CreateSubpageDefaults | dist/shared/notionServer.js:187-212 | create-subpage with no title key or properties sends just `{title: title}` under the page parent |
| Tools.CreatePageSchemaDefaults | dist/shared/notionServer.js:159-164 | create-page arguments without `title_property` and `properties` validate with the title key "Name" and no extra properties |
| Tools.CreateSubpageSchemaDefaults | dist/shared/notionServer.js:190-195 | create-subpage arguments without `title_property` and `properties` validate with the title key "title" and no extra properties |
| Tools.DefaultTitleRequest | dist/shared/notionServer.js:166-179 | without extra properties, a page is created under its parent with the title entry as its only property |
| Tools.CreatedPageKeepsTitle | src/shared/notionServer.ts:170-181 | the created page's properties keep the title under its key unless the caller reuses that key |
| Tools.AppendHeadingDefaultLevel | dist/shared/notionServer.js:342-356 | a heading without `level` is a `heading_2` |
| Tools.HeadingDefaultParses | dist/shared/notionServer.js:347 | validation gives the level the default `heading_2` |
| Tools.TodoDefaultParses | dist/shared/notionServer.js:366 | validation gives `checked` the default false |
| Tools.HeadingRequest | dist/shared/notionServer.js:350-356 | for every level, append-heading sends the parent id and one child whose type is the level's name and whose text is the text given |
| Tools.TodoRequest | dist/shared/notionServer.js:368-374 | for either checked value, append-todo sends the parent id and one `to_do` child carrying the text and that checked state |
| Tools.AppendTodoDefaultUnchecked | dist/shared/notionServer.js:360-374 | a to-do without `checked` is one unchecked `to_do` block carrying the text |
| Tools.ArchiveUnarchiveSymmetric | src/shared/notionServer.ts:340-354 | archive and unarchive accept the same arguments and differ only in the `archived` flag |
| Prompts.Filter | dist/shared/notionServer.js:419 | a filter never grows the list and keeps only passing candidates |
| Prompts.CompleteProperty | dist/shared/notionServer.js:419 | property completion; PropertyCompletionMembers and PropertyCompletionIgnoresCase state it |
| Prompts.CompleteOperator | dist/shared/notionServer.js:420 | operator completion; OperatorCompletionMembers and OperatorCompletionIsCaseSensitive state it |
| Prompts.CompleteBlockType | dist/shared/notionServer.js:438 | block-type completion; BlockTypeCompletionMembers states it |
| Prompts.FilterMembers | dist/shared/notionServer.js:419 | a candidate is kept exactly when it passes |
| Prompts.FilterAppend | dist/shared/notionServer.js:419 | filtering keeps list order |
| Prompts.FilterAll | dist/shared/notionServer.js:419 | when all candidates pass, the list comes back unchanged |
| Prompts.FilterNone | dist/shared/notionServer.js:420 | when no candidate passes, nothing comes back |
| Prompts.PropertyCompletionMembers | dist/shared/notionServer.js:419 | property completion offers the names whose lower-cased form starts with the lower-cased input |
| Prompts.OperatorCompletionMembers | dist/shared/notionServer.js:420 | operator completion offers the operators that start with the input |
| Prompts.BlockTypeCompletionMembers | dist/shared/notionServer.js:438 | block-type completion offers the types that start with the input |
| Prompts.EmptyInputCompletesEverything | dist/shared/notionServer.js:419-438 | an empty or undefined input completes to each whole list, in order |
| Prompts.EmptyPropertyInput | dist/shared/notionServer.js:419 | an empty property input offers every property name |
| Prompts.EmptyOperatorInput | dist/shared/notionServer.js:420 | an empty operator input offers every operator |
| Prompts.EmptyBlockTypeInput | dist/shared/notionServer.js:438 | an empty block-type input offers every block type |
| Prompts.EmptyPrefixKeepsAll | dist/shared/notionServer.js:419-420 | the empty prefix keeps every candidate, with case folding or without |
| Prompts.LowerIdempotent | dist/shared/notionServer.js:419 | lower-casing twice equals lower-casing once |
| Prompts.PropertyCompletionIgnoresCase | dist/shared/notionServer.js:419 | property completion does not depend on the input's case |
| Prompts.OperatorCompletionIsCaseSensitive | dist/shared/notionServer.js:420 | "EQ" completes to no operator while "eq" completes to `equals` |
| Prompts.EqualsCompletes | dist/shared/notionServer.js:420 | any input that `equals` starts with completes to `equals` |
| Prompts.NoUpperCaseOperator | dist/shared/notionServer.js:420 | no operator starts with "EQ" |
| Prompts.FilterSnippetFeedsQuery | dist/shared/notionServer.js:429 | the filter snippet ignores the operator, and its filter is accepted by the query tool and passed on unchanged |
| Prompts.FilterSnippet | dist/shared/notionServer.js:429 | the filter snippet value; FilterSnippetFeedsQuery states it |
| Prompts.BlocksSnippet | dist/shared/notionServer.js:447 | the blocks snippet value; BlocksSnippetAnyKind, BlocksSnippetTypeKind and BlocksSnippetMatchesTools state it |
| Prompts.CreatePageSnippet | dist/shared/notionServer.js:460 | the create-page snippet value; CreatePageSnippetMatchesTool states it |
| Prompts.BlocksSnippetMatchesTools | src/shared/notionServer.ts:534 | the blocks snippet builds the same paragraph, unchecked to-do and heading blocks as the append tools |
| Prompts.BlocksSnippetAnyKind | dist/shared/notionServer.js:447 | for any type other than `object` and `type`, the snippet is one block keyed by the type, carrying the text, with `checked` present exactly for `to_do` |
| Prompts.BlocksSnippetTypeKind | dist/shared/notionServer.js:447 | the type `type` overwrites the `type` member in place, leaving only `object` and `type` |
| Prompts.CreatePageSnippetMatchesTool | src/shared/notionServer.ts:552 | the create-page snippet has exactly the properties create-page sends, with an empty key falling back to "Name" |
| Scenarios.PageRecordTitle | dist/shared/notionServer.js:466-481 | a page whose only property is a title column has that column's plain text as its title |
| Scenarios.PageRecordItem | dist/shared/notionServer.js:81-84 | a page result is summarised as id, object, scanned title and url |
| Scenarios.DatabaseRecordItem | dist/shared/notionServer.js:85-88 | a database result is summarised with the plain text of its first title segment |
| Scenarios.SearchRoadmap | dist/shared/notionServer.js:60-96 | a one-word search sends only the query and lists the page and the database in reply order |
| Scenarios.SearchQueryOnly | dist/shared/notionServer.js:75-79 | a search without filter or page size sends only the query |
| Scenarios.SearchRoadmapOutput | dist/shared/notionServer.js:80-91 | the normalized search reply for a page and a database, with `has_more` false |
| Scenarios.MapPair | dist/shared/notionServer.js:80 | mapping over two non-null results maps each one |
| Scenarios.CreateTaskA | dist/shared/notionServer.js:166-179 | creating "Task A" sends `{Name: {title: [{text: {content: "Task A"}}]}}` |
| Scenarios.AppendBuyMilk | dist/shared/notionServer.js:368-374 | appending "Buy milk" sends one unchecked `to_do` child |
| Scenarios.NoCredentialExits | dist/shared/notionServer.js:47-52 | with no variable set the built copy exits non-zero with a diagnostic naming all four variables |

## Left out

- The Notion SDK, `async`/`await`, `console.error` and `process.exit`: the client is a stub that records requests and returns one fixed reply, and startup ends in a `Launch` value instead of a process exit.
- `readWindowsUserEnv`: the `reg query` subprocess and its regular expression are left out; the registry is a map holding what the query yields per name.
- The platform test `process.platform === 'win32'` is a parameter.
- `McpServer` registration, registration order, tool and prompt metadata (titles, descriptions), output-schema validation and the prompt argument schemas belong to the SDK.
- The `content` text of each response (`JSON.stringify(output, null, 2)`) and the prose of prompt messages: a response is modelled by its structured content, a snippet by the value it serializes.
- Tools.AnyString: does not check the URL syntax that `z.string().url()` demands of `notion_append_image_url`, because that is zod's internal URL parser.
- Tools.Parse: reports only the first invalid field, while zod reports every issue; zod internals such as coercion and key stripping order are not modelled.
- Json numbers are unbounded integers: floating point values, `NaN` and integer-like keys (which JavaScript enumerates before other keys) are not modelled.
- Json members whose value is `undefined` are dropped from objects, as the client serializer drops them; the model does not distinguish an undefined member from an absent one.
- `src/http.ts`, `src/server.ts`, `src/cli.ts` and `scripts/release.mjs` (transport binding, command-line dispatch and release copying) are outside the model.
- The server name and version strings differ between the copies and are not modelled.
- JsText.LowerChar: lower-cases ASCII letters only, while `toLowerCase` also folds other letters (the Kelvin sign to "k", a dotted capital I to two characters). Property completion does not depend on this: no lower-cased property name contains "k", or an "i" followed by a combining dot, so such an input matches no name either way.
