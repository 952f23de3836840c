# Template doc generation and list-sidebar helpers, modelled in Dafny

This project models two pure parts of the Memex browser extension (WorldBrain).

1. **Content-template data binding (`generateTemplateDocs`).** A user writes a
   Mustache-style template that uses placeholders such as `{{{PageTitle}}}` or
   `{{#Notes}}{{{NoteText}}}{{/Notes}}`. The engine finds which placeholders the
   code references. From the fetched page and annotation records it builds the
   "template docs" that the renderer gets: maps from placeholder keys to a
   string, a string list, or (for `Notes`) a list of nested docs. The
   implementation file is not part of this model. Its behaviour is the one the
   assertions of `src/copy-paster/template-doc-generation.test.ts` fix, and the
   model follows them:
   - With no annotations there is one doc per page. Title, url and tags are
     always present with their legacy aliases `title`, `url` and `tags`.
     `PageLink` is present only when referenced.
   - With annotations, page keys and note keys are present only when referenced.
     `PageTitle` or `PageUrl` brings the pair and both aliases. `PageTags` brings
     `PageTagList` and `tags`. `NoteTags` brings `NoteTagList`.
   - A note shows `NoteText` when it has a non-empty comment. Otherwise it shows
     `NoteHighlight` when it has a non-empty highlight. Otherwise it shows
     neither. Either literal in the template asks for this content.
   - Cardinality. A `Notes` section gives one doc whose `Notes` holds one merged
     page+note doc per annotation, with the page keys also at top level. With no
     note key referenced there is a single page doc. Otherwise there is one
     merged doc per annotation.
2. **List-sidebar helpers (`src/dashboard-refactor/lists-sidebar/util.ts`).**
   - `isListNameUnique` is a `reduce` over the local list ids. It can skip one
     id, the list being renamed.
   - `filterListsByQuery` is a case-insensitive substring filter over the local
     and followed list ids. It keeps their order.

Files:
- `wrappers.dfy`: `Option`.
- `strings.dfy`: substring search (`includes`) proved against an occurrence
  predicate, and ASCII case mapping.
- `template_docs.dfy`: the data model, reference scanner, data requirements,
  page and note contexts, and the cardinality dispatch.
- `template_docs_properties.dfy`: the shape lemmas, one per case of the
  dispatch, plus invariants over every doc and data-independence of skipped
  fetches.
- `lists_sidebar_util.dfy`: the two sidebar helpers and their lemmas.

Without annotations the tests expect title, url and tags even when only
`{{{PageTitle}}}` is written (`template-doc-generation.test.ts:54-75` and
`:143-172`), so `PageOnlyNeeds` forces them. With annotations, a doc holds only
the keys of referenced placeholders; `OnlyReferencedKeys` states this.

## Model

| member | source | states |
|---|---|---|
| TemplateDocs.ContentOf | src/copy-paster/template-doc-generation.test.ts:360-379 | a note's content is its comment when non-empty, else its highlight when non-empty, else absent; comment and highlight are exclusive |
| TemplateDocs.Scan | src/copy-paster/template-doc-generation.test.ts:240-335 | each placeholder is referenced exactly when its name occurs somewhere in the code; the Notes section exactly when both of its markers occur |
| TemplateDocs.NeedsOf | src/copy-paster/template-doc-generation.test.ts:175-192 | title and url are needed together when either is referenced; note content is needed when NoteText or NoteHighlight is referenced |
| TemplateDocs.PageOnlyNeeds | src/copy-paster/template-doc-generation.test.ts:54-75 | without annotations title and tags are always needed, while the page link keeps its own requirement |
| TemplateDocs.PlanFetches | src/copy-paster/template-doc-generation.test.ts:251-255 | a port is skipped only when its data cannot reach the docs: with annotations, pages are fetched only when a page key is referenced (a NoteText-only template gets no page keys) and notes only when a note key is referenced |
| TemplateDocs.PageContext | src/copy-paster/template-doc-generation.test.ts:54-101 | the page doc holds only page keys; each key group is present exactly when needed; aliases repeat their canonical values; tags are the page's tags joined and as a list |
| TemplateDocs.NoteContext | src/copy-paster/template-doc-generation.test.ts:251-335 | the note doc holds only note keys, never both NoteText and NoteHighlight, the content key chosen from the note's data, tags and link exactly when referenced |
| TemplateDocs.Merge | src/copy-paster/template-doc-generation.test.ts:257-265 | a merged doc has the union of the keys, the note's value winning on a shared key |
| TemplateDocs.PageDocs | src/copy-paster/template-doc-generation.test.ts:143-172 | one doc per page, in page order, each the full page context of its own page |
| TemplateDocs.NoteDocs | src/copy-paster/template-doc-generation.test.ts:481-565 | one doc per note, in note order, each the page context merged with that note's context |
| TemplateDocs.GenerateDocs | src/copy-paster/template-doc-generation.test.ts:54-769 | number of docs: one per page without annotations; one with a Notes section or without note references; otherwise one per annotation |
| TemplateDocs.GenerateTemplateDocs | src/copy-paster/template-doc-generation.test.ts:54-769 | the same cardinality table stated over the template code's references |
| TemplateDocsProperties.SinglePageWithoutNotes | src/copy-paster/template-doc-generation.test.ts:54-101 | one page, no annotations: exactly one doc with PageTitle, PageUrl, PageTags, PageTagList, title, url, tags and their values, plus PageLink exactly when referenced |
| TemplateDocsProperties.PagesWithoutNotes | src/copy-paster/template-doc-generation.test.ts:143-172 | N pages, no annotations: N docs, the i-th built from the i-th page, only page keys, no grouping key |
| TemplateDocsProperties.PageReferencesOnly | src/copy-paster/template-doc-generation.test.ts:404-479 | annotations but only page references: one doc with no note keys; tags keys and PageLink present exactly when referenced |
| TemplateDocsProperties.NoteDocsWithoutSection | src/copy-paster/template-doc-generation.test.ts:481-565 | without a Notes section, M annotations give M docs, each splitting exactly into the page context and its own note's context |
| TemplateDocsProperties.NoteContentChosenByData | src/copy-paster/template-doc-generation.test.ts:498-518 | each note doc has NoteText iff its note has a comment, NoteHighlight iff it has only a highlight, never both |
| TemplateDocsProperties.NoteLiteralIrrelevant | src/copy-paster/template-doc-generation.test.ts:360-379 | writing NoteText or NoteHighlight in the template yields the same docs |
| TemplateDocsProperties.NotesSectionShape | src/copy-paster/template-doc-generation.test.ts:567-690 | with a Notes section: one doc; page keys at top level and in every element; one element per annotation in order; only Notes at top level when no page key is referenced |
| TemplateDocsProperties.AliasesAlwaysConsistent | src/copy-paster/template-doc-generation.test.ts:268-294 | in every doc and section element, title/url/tags appear exactly with PageTitle/PageUrl/PageTagList and equal them |
| TemplateDocsProperties.NoteTagsNeverAliased | src/copy-paster/template-doc-generation.test.ts:268-279 | when PageTags is not referenced, no doc or element carries the `tags` alias, whatever note tags are referenced |
| TemplateDocsProperties.OnlyReferencedKeys | src/copy-paster/template-doc-generation.test.ts:175-238 | with annotations, every doc and element holds only keys of referenced placeholders and their companions |
| TemplateDocsProperties.PageDataUnusedWhenNotFetched | src/copy-paster/template-doc-generation.test.ts:251-255 | when the page port is skipped, changing the page records does not change the docs |
| TemplateDocsProperties.NoteDataUnusedWhenNotFetched | src/copy-paster/template-doc-generation.test.ts:404-425 | when the note port is skipped, changing the note records (keeping their number) does not change the docs |
| TemplateDocsProperties.NothingReferencedNothingFetched | src/copy-paster/template-doc-generation.test.ts:404-425 | with annotations and no reference, neither port is called and the result is one empty doc |
| Strings.Includes | src/dashboard-refactor/lists-sidebar/util.ts:30 | the substring test is true exactly when the needle occurs at some index of the string |
| Strings.Lower | src/dashboard-refactor/lists-sidebar/util.ts:28 | lower-casing keeps the length and maps each character |
| ListsSidebarUtil.FoldUnique | src/dashboard-refactor/lists-sidebar/util.ts:13-19 | the fold yields its starting accumulator and-ed with "no non-skipped id has exactly this name" |
| ListsSidebarUtil.IsListNameUnique | src/dashboard-refactor/lists-sidebar/util.ts:8-19 | true iff no local list id other than the skipped one has a name exactly equal to the given name |
| ListsSidebarUtil.NoListsEveryNameUnique | src/dashboard-refactor/lists-sidebar/util.ts:13-19 | with no local lists every name is unique |
| ListsSidebarUtil.SkippedListIgnored | src/dashboard-refactor/lists-sidebar/util.ts:14-16 | the skipped list's own data never changes the verdict |
| ListsSidebarUtil.RenameToOwnNameIsUnique | src/dashboard-refactor/lists-sidebar/util.ts:14-16 | renaming a list to its current name is accepted when no other local list has it |
| ListsSidebarUtil.FollowedListsIgnored | src/dashboard-refactor/lists-sidebar/util.ts:10-13 | followed lists never affect the verdict |
| ListsSidebarUtil.ComparisonIsCaseSensitive | src/dashboard-refactor/lists-sidebar/util.ts:18 | "work" is unique beside a list "Work", and "Work" is not |
| ListsSidebarUtil.FilterIds | src/dashboard-refactor/lists-sidebar/util.ts:29-34 | the filter's result is an order-preserving subsequence holding exactly the matching ids, each as many times as the input holds it |
| ListsSidebarUtil.FilterListsByQuery | src/dashboard-refactor/lists-sidebar/util.ts:21-36 | local and followed results are order-preserving subsequences; an id is kept iff its lower-cased name contains the lower-cased query, with every copy of a matching id kept |
| ListsSidebarUtil.EmptyQueryKeepsAll | src/dashboard-refactor/lists-sidebar/util.ts:28-30 | the empty query returns all local and all followed ids |
| ListsSidebarUtil.QueryCaseIgnored | src/dashboard-refactor/lists-sidebar/util.ts:28-30 | upper- or lower-casing the query leaves the result unchanged |

## Left out

- Storage and fetching are not modelled as calls: Storex objects, the integration-test setup and `getTemplateDataFetchers` (`template-doc-generation.test.ts:10-49`) are database I/O. Their results are the inputs `pages` and `notes`, one record per requested id, in request order. `PlanFetches` only records which port would be called.
- `joinTags` (its file is not part of this model) is the parameter `join`; its separator is not fixed.
- `PageLink` and `NoteLink` values are the opaque `link` fields of the records: the tests accept any string.
- The `{{#Pages}}` grouping section is not implemented upstream (its test is commented out) and is not modelled.
- Template parsing: a placeholder counts as referenced when its key name occurs anywhere in the code, so plain text mentioning a key over-detects. The `Notes` section counts when both `{{#Notes}}` and `{{/Notes}}` occur. `PageUrl` is detected too, although the tests never write it alone.
- TemplateDocs.GenerateDocs: with annotations, every note is paired with the first page, and at least one page is required. The tests always pass exactly one page with annotations, so what the engine does with several pages and annotations is not fixed.
- Unknown ids (a fetch returning nothing for an id) are not modelled; the records are assumed complete.
- `toLocaleLowerCase` is locale-dependent; the model lower-cases ASCII letters only (`Strings.Lower`).
- ListsSidebarUtil.IsListNameUnique requires `listData` to hold every local id other than the skipped one. This simplifies the source: its `&&` (`util.ts:18`) only looks up ids reached while the accumulator is still true, so after a clash a missing entry is never read. Callers keep `listData` complete.
- ListsSidebarUtil.FilterListsByQuery requires `listData` to hold every local and followed id; the source would throw on a missing entry.
- TemplateDocs.PlanFetches: without annotations it always fetches pages. This is a choice of the model: the legacy aliases need page data, and no assertion covers a template with no placeholder and no annotations. No assertion observes which port is called at all.
- Idempotence of the engine holds because every member is a function; it is not stated as a lemma.
- Not modelled, being out of this core:
  - the initial-sync orchestration in `src/sync/components/initial-sync/initial-sync-setup/logic.ts`: promises, event listeners and a floating-point progress percentage;
  - the React/Redux UI in `filters-sidebar-container.tsx`, `SyncNowOverlayPane.tsx` and `settings/index.jsx`;
  - the styling constants in `theme.ts`;
  - the reducer wiring in `ribbon-sidebar-controller/reducer.ts`.
