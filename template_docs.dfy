/**
 * The content-template data-binding engine (`generateTemplateDocs`): from a
 * template's code and the already fetched page and annotation records it
 * builds the documents a Mustache-style renderer is later given.
 *
 * The two fetch ports are not modelled as calls: their results come in as
 * `pages` and `notes`, one record per requested id, in request order. The
 * tag formatter `joinTags` is a parameter `join`; page and note links come
 * from an external resolver and are opaque `link` strings on the records.
 */
module TemplateDocs {

  import opened Wrappers
  import opened Strings

  // ---------------------------------------------------------------- data model

  /** The placeholder vocabulary shared with the renderer. */
  datatype Key =
    | PageTitle | PageUrl | PageTags | PageTagList | PageLink
    | NoteText | NoteHighlight | NoteTags | NoteTagList | NoteLink
    | Notes
    | LegacyTitle | LegacyUrl | LegacyTags

  /** The name a key has in template code. */
  function KeyName(k: Key): string
  {
    match k
    case PageTitle => "PageTitle"
    case PageUrl => "PageUrl"
    case PageTags => "PageTags"
    case PageTagList => "PageTagList"
    case PageLink => "PageLink"
    case NoteText => "NoteText"
    case NoteHighlight => "NoteHighlight"
    case NoteTags => "NoteTags"
    case NoteTagList => "NoteTagList"
    case NoteLink => "NoteLink"
    case Notes => "Notes"
    case LegacyTitle => "title"
    case LegacyUrl => "url"
    case LegacyTags => "tags"
  }

  /** A value in a template doc: a string, a list of strings, or the docs of an iteration section. */
  datatype Value = Text(text: string) | TextList(items: seq<string>) | Docs(docs: seq<map<Key, Value>>)

  type Doc = map<Key, Value>

  /** The keys filled from page data, the legacy aliases included. */
  const PageKeys: set<Key> := {PageTitle, PageUrl, PageTags, PageTagList, PageLink, LegacyTitle, LegacyUrl, LegacyTags}

  /** The keys filled from a single note's data. */
  const NoteKeys: set<Key> := {NoteText, NoteHighlight, NoteTags, NoteTagList, NoteLink}

  /** A fetched page. */
  datatype Page = Page(fullTitle: string, originalUrl: string, tags: seq<string>, link: string)

  /** A fetched annotation: its comment, its highlighted text (`body`) and its tags. */
  datatype Note = Note(comment: Option<string>, body: Option<string>, tags: seq<string>, link: string)

  /** What a note has to show: its comment, else its highlight, else nothing. */
  datatype NoteContent = Comment(text: string) | Highlight(text: string) | Absent

  function ContentOf(n: Note): (c: NoteContent)
    ensures c.Comment? <==> n.comment.Some? && n.comment.value != ""
    ensures c.Highlight? <==> !c.Comment? && n.body.Some? && n.body.value != ""
    ensures c.Comment? ==> c.text == n.comment.value
    ensures c.Highlight? ==> c.text == n.body.value
  {
    if n.comment.Some? && n.comment.value != "" then Comment(n.comment.value)
    else if n.body.Some? && n.body.value != "" then Highlight(n.body.value)
    else Absent
  }

  // ---------------------------------------------------------------- reference scanner

  /** Which placeholder tokens occur in the template code. */
  datatype Refs = Refs(
    pageTitle: bool, pageUrl: bool, pageTags: bool, pageLink: bool,
    noteText: bool, noteHighlight: bool, noteTags: bool, noteLink: bool,
    notesSection: bool)

  const NotesOpen: string := "{{#Notes}}"
  const NotesClose: string := "{{/Notes}}"

  /**
   * A key is referenced when its name occurs anywhere in the code, inside an
   * iteration section or not; the `Notes` section when both of its markers occur.
   */
  function Scan(code: string): (r: Refs)
    ensures r.pageTitle <==> Occurs(code, KeyName(PageTitle))
    ensures r.pageUrl <==> Occurs(code, KeyName(PageUrl))
    ensures r.pageTags <==> Occurs(code, KeyName(PageTags))
    ensures r.pageLink <==> Occurs(code, KeyName(PageLink))
    ensures r.noteText <==> Occurs(code, KeyName(NoteText))
    ensures r.noteHighlight <==> Occurs(code, KeyName(NoteHighlight))
    ensures r.noteTags <==> Occurs(code, KeyName(NoteTags))
    ensures r.noteLink <==> Occurs(code, KeyName(NoteLink))
    ensures r.notesSection <==> Occurs(code, NotesOpen) && Occurs(code, NotesClose)
  {
    Refs(
      Includes(code, KeyName(PageTitle)), Includes(code, KeyName(PageUrl)),
      Includes(code, KeyName(PageTags)), Includes(code, KeyName(PageLink)),
      Includes(code, KeyName(NoteText)), Includes(code, KeyName(NoteHighlight)),
      Includes(code, KeyName(NoteTags)), Includes(code, KeyName(NoteLink)),
      Includes(code, NotesOpen) && Includes(code, NotesClose))
  }

  // ---------------------------------------------------------------- data requirements

  /** The data a template needs, derived from its references. */
  datatype Needs = Needs(
    page: bool, pageTags: bool, pageLink: bool,
    noteContent: bool, noteTags: bool, noteLink: bool,
    notesSection: bool)
  {
    predicate AnyPage() { page || pageTags || pageLink }
    predicate AnyNote() { noteContent || noteTags || noteLink }
  }

  /**
   * Title and url are fetched together; either note-content literal asks for
   * the note's content, whichever key the data then selects.
   */
  function NeedsOf(r: Refs): (n: Needs)
    ensures n.page <==> r.pageTitle || r.pageUrl
    ensures n.noteContent <==> r.noteText || r.noteHighlight
    ensures (n.pageTags, n.pageLink, n.noteTags, n.noteLink, n.notesSection) ==
            (r.pageTags, r.pageLink, r.noteTags, r.noteLink, r.notesSection)
  {
    Needs(r.pageTitle || r.pageUrl, r.pageTags, r.pageLink,
          r.noteText || r.noteHighlight, r.noteTags, r.noteLink, r.notesSection)
  }

  /** Without annotations the page's title, url and tags are always filled in, for the legacy aliases. */
  function PageOnlyNeeds(n: Needs): (m: Needs)
    ensures m.page && m.pageTags && m.pageLink == n.pageLink
  {
    n.(page := true, pageTags := true)
  }

  /** Which fetch ports are called. */
  datatype FetchPlan = FetchPlan(fetchPages: bool, fetchNotes: bool)

  function PlanFetches(n: Needs, noteCount: nat): (p: FetchPlan)
    ensures p.fetchPages <==> noteCount == 0 || n.AnyPage()
    ensures p.fetchNotes <==> noteCount > 0 && n.AnyNote()
  {
    FetchPlan(noteCount == 0 || n.AnyPage(), noteCount > 0 && n.AnyNote())
  }

  // ---------------------------------------------------------------- contexts

  /** Restriction of a doc to some keys. */
  function Restrict(d: Doc, ks: set<Key>): (r: Doc)
    ensures r.Keys == d.Keys * ks
    ensures forall k :: k in r ==> r[k] == d[k]
  {
    map k | k in d && k in ks :: d[k]
  }

  /**
   * The page keys of a doc: each group appears exactly when it is needed,
   * and the legacy aliases always carry their canonical key's value.
   */
  function PageContext(n: Needs, p: Page, join: seq<string> -> string): (d: Doc)
    ensures d.Keys <= PageKeys
    ensures PageTitle in d <==> n.page
    ensures PageUrl in d <==> n.page
    ensures LegacyTitle in d <==> n.page
    ensures LegacyUrl in d <==> n.page
    ensures PageTags in d <==> n.pageTags
    ensures PageTagList in d <==> n.pageTags
    ensures LegacyTags in d <==> n.pageTags
    ensures PageLink in d <==> n.pageLink
    ensures n.page ==> d[PageTitle] == d[LegacyTitle] == Text(p.fullTitle)
    ensures n.page ==> d[PageUrl] == d[LegacyUrl] == Text(p.originalUrl)
    ensures n.pageTags ==> d[PageTags] == Text(join(p.tags))
    ensures n.pageTags ==> d[PageTagList] == d[LegacyTags] == TextList(p.tags)
    ensures n.pageLink ==> d[PageLink].Text?
  {
    var titleAndUrl: Doc := if n.page then
      map[PageTitle := Text(p.fullTitle), PageUrl := Text(p.originalUrl),
          LegacyTitle := Text(p.fullTitle), LegacyUrl := Text(p.originalUrl)]
    else map[];
    var tags: Doc := if n.pageTags then
      map[PageTags := Text(join(p.tags)), PageTagList := TextList(p.tags), LegacyTags := TextList(p.tags)]
    else map[];
    var link: Doc := if n.pageLink then map[PageLink := Text(p.link)] else map[];
    titleAndUrl + tags + link
  }

  /**
   * The note keys of a doc: at most one of NoteText and NoteHighlight, chosen
   * from the note's data; tags and link only when needed. No page key and no
   * `tags` alias.
   */
  function NoteContext(n: Needs, note: Note, join: seq<string> -> string): (d: Doc)
    ensures d.Keys <= NoteKeys
    ensures !(NoteText in d && NoteHighlight in d)
    ensures NoteText in d <==> n.noteContent && ContentOf(note).Comment?
    ensures NoteHighlight in d <==> n.noteContent && ContentOf(note).Highlight?
    ensures NoteText in d ==> d[NoteText] == Text(note.comment.value)
    ensures NoteHighlight in d ==> d[NoteHighlight] == Text(note.body.value)
    ensures NoteTags in d <==> n.noteTags
    ensures NoteTagList in d <==> n.noteTags
    ensures n.noteTags ==> d[NoteTags] == Text(join(note.tags)) && d[NoteTagList] == TextList(note.tags)
    ensures NoteLink in d <==> n.noteLink
    ensures n.noteLink ==> d[NoteLink].Text?
  {
    var content: Doc := if !n.noteContent then map[] else
      match ContentOf(note)
      case Comment(text) => map[NoteText := Text(text)]
      case Highlight(text) => map[NoteHighlight := Text(text)]
      case Absent => map[];
    var tags: Doc := if n.noteTags then
      map[NoteTags := Text(join(note.tags)), NoteTagList := TextList(note.tags)]
    else map[];
    var link: Doc := if n.noteLink then map[NoteLink := Text(note.link)] else map[];
    content + tags + link
  }

  /** Key union; on a shared key the second doc wins. */
  function Merge(a: Doc, b: Doc): (m: Doc)
    ensures m.Keys == a.Keys + b.Keys
    ensures forall k :: k in b ==> m[k] == b[k]
    ensures forall k :: k in a && k !in b ==> m[k] == a[k]
  {
    a + b
  }

  // ---------------------------------------------------------------- assembly

  /** One doc per page, each from its own page, when no annotation is given. */
  function PageDocs(n: Needs, pages: seq<Page>, join: seq<string> -> string): (docs: seq<Doc>)
    ensures |docs| == |pages|
    ensures forall i :: 0 <= i < |pages| ==> docs[i] == PageContext(PageOnlyNeeds(n), pages[i], join)
  {
    seq(|pages|, i requires 0 <= i < |pages| => PageContext(PageOnlyNeeds(n), pages[i], join))
  }

  /** One doc per note, in note order: the page context merged with that note's context. */
  function NoteDocs(n: Needs, page: Page, notes: seq<Note>, join: seq<string> -> string): (docs: seq<Doc>)
    ensures |docs| == |notes|
    ensures forall j :: 0 <= j < |notes| ==>
              docs[j] == Merge(PageContext(n, page, join), NoteContext(n, notes[j], join))
  {
    var pageContext := PageContext(n, page, join);
    seq(|notes|, j requires 0 <= j < |notes| => Merge(pageContext, NoteContext(n, notes[j], join)))
  }

  /**
   * The cardinality dispatch. Without annotations: one doc per page. With
   * annotations (all belonging to the first page): one doc holding the
   * `Notes` section when the template has one; else one page doc when no
   * note key is referenced; else one doc per note.
   */
  function GenerateDocs(n: Needs, pages: seq<Page>, notes: seq<Note>, join: seq<string> -> string): (docs: seq<Doc>)
    requires notes != [] ==> pages != []
    ensures notes == [] ==> |docs| == |pages|
    ensures notes != [] && (n.notesSection || !n.AnyNote()) ==> |docs| == 1
    ensures notes != [] && !n.notesSection && n.AnyNote() ==> |docs| == |notes|
  {
    if notes == [] then
      PageDocs(n, pages, join)
    else
      var pageContext := PageContext(n, pages[0], join);
      if n.notesSection then
        [pageContext[Notes := Docs(NoteDocs(n, pages[0], notes, join))]]
      else if !n.AnyNote() then
        [pageContext]
      else
        NoteDocs(n, pages[0], notes, join)
  }

  /** `generateTemplateDocs`: scan the template, then assemble from the fetched records. */
  function GenerateTemplateDocs(code: string, pages: seq<Page>, notes: seq<Note>, join: seq<string> -> string): (docs: seq<Doc>)
    requires notes != [] ==> pages != []
    ensures notes == [] ==> |docs| == |pages|
    ensures notes != [] && (Scan(code).notesSection || !NeedsOf(Scan(code)).AnyNote()) ==> |docs| == 1
    ensures notes != [] && !Scan(code).notesSection && NeedsOf(Scan(code)).AnyNote() ==> |docs| == |notes|
  {
    GenerateDocs(NeedsOf(Scan(code)), pages, notes, join)
  }
}
