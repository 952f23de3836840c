/**
 * What the assembled template docs look like, case by case of the
 * cardinality dispatch, and which data each shape depends on.
 */
module TemplateDocsProperties {

  import opened Strings
  import opened TemplateDocs

  /** The keys a doc may hold for templates with this data requirement (the Notes section included). */
  function ReferencedKeys(n: Needs): (ks: set<Key>)
    ensures n.page <==> PageTitle in ks
    ensures n.noteContent <==> NoteText in ks
    ensures n.notesSection <==> Notes in ks
  {
    (if n.page then {PageTitle, PageUrl, LegacyTitle, LegacyUrl} else {})
    + (if n.pageTags then {PageTags, PageTagList, LegacyTags} else {})
    + (if n.pageLink then {PageLink} else {})
    + (if n.noteContent then {NoteText, NoteHighlight} else {})
    + (if n.noteTags then {NoteTags, NoteTagList} else {})
    + (if n.noteLink then {NoteLink} else {})
    + (if n.notesSection then {Notes} else {})
  }

  /** The legacy aliases go with, and repeat, their canonical keys. */
  ghost predicate AliasesConsistent(d: Doc)
  {
    && (LegacyTitle in d <==> PageTitle in d)
    && (LegacyTitle in d ==> d[LegacyTitle] == d[PageTitle])
    && (LegacyUrl in d <==> PageUrl in d)
    && (LegacyUrl in d ==> d[LegacyUrl] == d[PageUrl])
    && (LegacyTags in d <==> PageTagList in d)
    && (LegacyTags in d ==> d[LegacyTags] == d[PageTagList] && PageTags in d)
  }

  /** The elements of a doc's `Notes` section, or none. */
  function SectionDocs(d: Doc): seq<Doc>
  {
    if Notes in d && d[Notes].Docs? then d[Notes].docs else []
  }

  // ---------------------------------------------------------------- no annotations

  /**
   * One page, no annotations: one doc with title, url and tags and their
   * aliases whatever the template references, and a page link exactly when
   * `PageLink` is referenced.
   */
  lemma SinglePageWithoutNotes(code: string, page: Page, join: seq<string> -> string)
    ensures var docs := GenerateTemplateDocs(code, [page], [], join);
      && |docs| == 1
      && docs[0].Keys == {PageTitle, PageUrl, PageTags, PageTagList, LegacyTitle, LegacyUrl, LegacyTags}
                         + (if Occurs(code, "PageLink") then {PageLink} else {})
      && docs[0][PageTitle] == docs[0][LegacyTitle] == Text(page.fullTitle)
      && docs[0][PageUrl] == docs[0][LegacyUrl] == Text(page.originalUrl)
      && docs[0][PageTags] == Text(join(page.tags))
      && docs[0][PageTagList] == docs[0][LegacyTags] == TextList(page.tags)
  {
  }

  /**
   * Several pages, no annotations: one doc per page, in page order, each
   * built from its own page, with no grouping key.
   */
  lemma PagesWithoutNotes(code: string, pages: seq<Page>, join: seq<string> -> string)
    ensures var docs := GenerateTemplateDocs(code, pages, [], join);
      && |docs| == |pages|
      && forall i :: 0 <= i < |pages| ==>
           && docs[i].Keys <= PageKeys
           && docs[i][PageTitle] == Text(pages[i].fullTitle)
           && docs[i][PageUrl] == Text(pages[i].originalUrl)
           && docs[i][PageTags] == Text(join(pages[i].tags))
           && docs[i][PageTagList] == TextList(pages[i].tags)
  {
  }

  // ---------------------------------------------------------------- annotations, page keys only

  /**
   * Annotations given but no note key referenced and no Notes section: a
   * single doc, from the page alone; tags and link only when referenced.
   */
  lemma PageReferencesOnly(code: string, pages: seq<Page>, notes: seq<Note>, join: seq<string> -> string)
    requires notes != [] && pages != []
    requires !Scan(code).notesSection
    requires !Occurs(code, "NoteText") && !Occurs(code, "NoteHighlight")
    requires !Occurs(code, "NoteTags") && !Occurs(code, "NoteLink")
    ensures var docs := GenerateTemplateDocs(code, pages, notes, join);
      && |docs| == 1
      && docs[0].Keys <= PageKeys
      && (PageTitle in docs[0] <==> Occurs(code, "PageTitle") || Occurs(code, "PageUrl"))
      && (PageTags in docs[0] <==> Occurs(code, "PageTags"))
      && (PageTagList in docs[0] <==> Occurs(code, "PageTags"))
      && (LegacyTags in docs[0] <==> Occurs(code, "PageTags"))
      && (PageLink in docs[0] <==> Occurs(code, "PageLink"))
      && (PageTitle in docs[0] ==> docs[0][PageTitle] == Text(pages[0].fullTitle))
  {
  }

  // ---------------------------------------------------------------- annotations, one doc per note

  /**
   * Note keys referenced, no Notes section: one doc per annotation, in
   * annotation order; each holds exactly the page context and that note's
   * own context, and nothing from any other note.
   */
  lemma NoteDocsWithoutSection(code: string, pages: seq<Page>, notes: seq<Note>, join: seq<string> -> string)
    requires notes != [] && pages != []
    requires !Scan(code).notesSection && NeedsOf(Scan(code)).AnyNote()
    ensures var n := NeedsOf(Scan(code));
            var docs := GenerateTemplateDocs(code, pages, notes, join);
      && |docs| == |notes|
      && forall j :: 0 <= j < |notes| ==>
           && docs[j].Keys <= PageKeys + NoteKeys
           && Restrict(docs[j], PageKeys) == PageContext(n, pages[0], join)
           && Restrict(docs[j], NoteKeys) == NoteContext(n, notes[j], join)
  {
    var n := NeedsOf(Scan(code));
    var docs := GenerateTemplateDocs(code, pages, notes, join);
    forall j | 0 <= j < |notes|
      ensures Restrict(docs[j], PageKeys) == PageContext(n, pages[0], join)
      ensures Restrict(docs[j], NoteKeys) == NoteContext(n, notes[j], join)
    {
      MergeSplits(PageContext(n, pages[0], join), NoteContext(n, notes[j], join));
    }
  }

  /** A merge of a page context and a note context splits back into the two. */
  lemma MergeSplits(pageContext: Doc, noteContext: Doc)
    requires pageContext.Keys <= PageKeys && noteContext.Keys <= NoteKeys
    ensures Restrict(Merge(pageContext, noteContext), PageKeys) == pageContext
    ensures Restrict(Merge(pageContext, noteContext), NoteKeys) == noteContext
  {
  }

  /**
   * Each note doc carries NoteText when its note has a comment, NoteHighlight
   * when it has only a highlight, never both, whichever of the two literals
   * the template wrote.
   */
  lemma NoteContentChosenByData(code: string, pages: seq<Page>, notes: seq<Note>, join: seq<string> -> string)
    requires notes != [] && pages != []
    requires !Scan(code).notesSection
    requires Occurs(code, "NoteText") || Occurs(code, "NoteHighlight")
    ensures var docs := GenerateTemplateDocs(code, pages, notes, join);
      && |docs| == |notes|
      && forall j :: 0 <= j < |notes| ==>
           && !(NoteText in docs[j] && NoteHighlight in docs[j])
           && (NoteText in docs[j] <==> notes[j].comment.Some? && notes[j].comment.value != "")
           && (NoteHighlight in docs[j] <==>
                 !(notes[j].comment.Some? && notes[j].comment.value != "") &&
                 notes[j].body.Some? && notes[j].body.value != "")
  {
    var n := NeedsOf(Scan(code));
    var docs := GenerateTemplateDocs(code, pages, notes, join);
    var pageContext := PageContext(n, pages[0], join);
    assert docs == NoteDocs(n, pages[0], notes, join);
    forall j | 0 <= j < |notes|
      ensures NoteText in docs[j] <==> NoteText in NoteContext(n, notes[j], join)
      ensures NoteHighlight in docs[j] <==> NoteHighlight in NoteContext(n, notes[j], join)
    {
      assert NoteText !in pageContext && NoteHighlight !in pageContext;
    }
  }

  /** Writing NoteText or NoteHighlight in the template makes no difference. */
  lemma NoteLiteralIrrelevant(r: Refs, pages: seq<Page>, notes: seq<Note>, join: seq<string> -> string)
    requires notes != [] ==> pages != []
    ensures GenerateDocs(NeedsOf(r.(noteText := true, noteHighlight := false)), pages, notes, join) ==
            GenerateDocs(NeedsOf(r.(noteText := false, noteHighlight := true)), pages, notes, join)
  {
  }

  // ---------------------------------------------------------------- annotations, Notes section

  /**
   * With a Notes section: a single doc whose `Notes` holds one element per
   * annotation, in order. The page context appears both at top level and in
   * every element; without page references the top level holds only `Notes`.
   */
  lemma NotesSectionShape(code: string, pages: seq<Page>, notes: seq<Note>, join: seq<string> -> string)
    requires notes != [] && pages != []
    requires Occurs(code, "{{#Notes}}") && Occurs(code, "{{/Notes}}")
    ensures var n := NeedsOf(Scan(code));
            var pageContext := PageContext(n, pages[0], join);
            var docs := GenerateTemplateDocs(code, pages, notes, join);
      && |docs| == 1
      && docs[0].Keys == pageContext.Keys + {Notes}
      && Restrict(docs[0], PageKeys) == pageContext
      && (!n.AnyPage() ==> docs[0].Keys == {Notes})
      && |SectionDocs(docs[0])| == |notes|
      && forall j :: 0 <= j < |notes| ==>
           && SectionDocs(docs[0])[j].Keys <= PageKeys + NoteKeys
           && Restrict(SectionDocs(docs[0])[j], PageKeys) == pageContext
           && Restrict(SectionDocs(docs[0])[j], NoteKeys) == NoteContext(n, notes[j], join)
  {
    var n := NeedsOf(Scan(code));
    var pageContext := PageContext(n, pages[0], join);
    var elements := NoteDocs(n, pages[0], notes, join);
    var d := pageContext[Notes := Docs(elements)];
    assert GenerateTemplateDocs(code, pages, notes, join) == [d];
    assert SectionDocs(d) == elements;
    TopLevelOfSection(pageContext, elements);
    if !n.AnyPage() {
      EmptyPageContext(n, pages[0], join);
    }
    forall j | 0 <= j < |notes|
      ensures elements[j].Keys <= PageKeys + NoteKeys
      ensures Restrict(elements[j], PageKeys) == pageContext
      ensures Restrict(elements[j], NoteKeys) == NoteContext(n, notes[j], join)
    {
      MergeSplits(pageContext, NoteContext(n, notes[j], join));
    }
  }

  /** Adding the Notes section to a page context keeps the page keys as they were. */
  lemma TopLevelOfSection(pageContext: Doc, elements: seq<Doc>)
    requires pageContext.Keys <= PageKeys
    ensures pageContext[Notes := Docs(elements)].Keys == pageContext.Keys + {Notes}
    ensures Restrict(pageContext[Notes := Docs(elements)], PageKeys) == pageContext
  {
  }

  // ---------------------------------------------------------------- invariants over every shape

  /** A page context keeps its aliases consistent. */
  lemma PageContextAliases(n: Needs, p: Page, join: seq<string> -> string)
    ensures AliasesConsistent(PageContext(n, p, join))
  {
  }

  /** Merging note keys or adding the Notes section leaves the aliases of a page context consistent. */
  lemma ExtendedAliases(pageContext: Doc, noteContext: Doc, elements: seq<Doc>)
    requires pageContext.Keys <= PageKeys && noteContext.Keys <= NoteKeys
    requires AliasesConsistent(pageContext)
    ensures AliasesConsistent(Merge(pageContext, noteContext))
    ensures AliasesConsistent(pageContext[Notes := Docs(elements)])
  {
  }

  /** Every doc satisfies `P`, and so does every element of its Notes section. */
  ghost predicate EveryDoc(docs: seq<Doc>, P: Doc -> bool)
  {
    forall i :: 0 <= i < |docs| ==> P(docs[i]) && forall e :: e in SectionDocs(docs[i]) ==> P(e)
  }

  /**
   * A property of page contexts that survives merging in note keys and
   * adding the Notes section holds of every doc and every section element.
   */
  lemma EveryDocFromContexts(n: Needs, pages: seq<Page>, notes: seq<Note>, join: seq<string> -> string, P: Doc -> bool)
    requires notes != [] ==> pages != []
    requires notes == [] ==> forall i :: 0 <= i < |pages| ==> P(PageContext(PageOnlyNeeds(n), pages[i], join))
    requires notes != [] ==> P(PageContext(n, pages[0], join))
    requires notes != [] ==> forall j :: 0 <= j < |notes| ==> P(Merge(PageContext(n, pages[0], join), NoteContext(n, notes[j], join)))
    requires notes != [] && n.notesSection ==> P(PageContext(n, pages[0], join)[Notes := Docs(NoteDocs(n, pages[0], notes, join))])
    ensures EveryDoc(GenerateDocs(n, pages, notes, join), P)
  {
    if notes == [] {
      EveryPageDoc(n, pages, join, P);
    } else {
      EveryNoteDoc(n, pages[0], notes, join, P);
    }
  }

  /** The case without annotations: the docs are page contexts and have no Notes section. */
  lemma EveryPageDoc(n: Needs, pages: seq<Page>, join: seq<string> -> string, P: Doc -> bool)
    requires forall i :: 0 <= i < |pages| ==> P(PageContext(PageOnlyNeeds(n), pages[i], join))
    ensures EveryDoc(GenerateDocs(n, pages, [], join), P)
  {
    var docs := PageDocs(n, pages, join);
    assert GenerateDocs(n, pages, [], join) == docs;
    forall i | 0 <= i < |docs| ensures P(docs[i]) && SectionDocs(docs[i]) == [] {
      NoSectionInPageContext(PageOnlyNeeds(n), pages[i], join);
    }
  }

  /** A page context has no Notes section. */
  lemma NoSectionInPageContext(n: Needs, p: Page, join: seq<string> -> string)
    ensures SectionDocs(PageContext(n, p, join)) == []
  {
    assert Notes !in PageKeys;
  }

  /** The cases with annotations: each doc is the page context, a merge, or the page context with its section. */
  lemma EveryNoteDoc(n: Needs, page: Page, notes: seq<Note>, join: seq<string> -> string, P: Doc -> bool)
    requires notes != []
    requires P(PageContext(n, page, join))
    requires forall j :: 0 <= j < |notes| ==> P(Merge(PageContext(n, page, join), NoteContext(n, notes[j], join)))
    requires n.notesSection ==> P(PageContext(n, page, join)[Notes := Docs(NoteDocs(n, page, notes, join))])
    ensures EveryDoc(GenerateDocs(n, [page], notes, join), P)
  {
    var pageContext := PageContext(n, page, join);
    var elements := NoteDocs(n, page, notes, join);
    var docs := GenerateDocs(n, [page], notes, join);
    forall j | 0 <= j < |notes| ensures P(elements[j]) && SectionDocs(elements[j]) == [] {
      var noteContext := NoteContext(n, notes[j], join);
      assert Notes !in pageContext && Notes !in noteContext;
    }
    if n.notesSection {
      assert docs == [pageContext[Notes := Docs(elements)]];
      assert SectionDocs(docs[0]) == elements;
    } else if !n.AnyNote() {
      assert docs == [pageContext];
      assert Notes !in pageContext;
    } else {
      assert docs == elements;
    }
  }

  /** Legacy aliases always accompany and repeat their canonical keys, at top level and in the Notes section. */
  lemma AliasesAlwaysConsistent(code: string, pages: seq<Page>, notes: seq<Note>, join: seq<string> -> string)
    requires notes != [] ==> pages != []
    ensures EveryDoc(GenerateTemplateDocs(code, pages, notes, join), d => AliasesConsistent(d))
  {
    var n := NeedsOf(Scan(code));
    if notes == [] {
      forall i | 0 <= i < |pages| ensures AliasesConsistent(PageContext(PageOnlyNeeds(n), pages[i], join)) {
        PageContextAliases(PageOnlyNeeds(n), pages[i], join);
      }
    } else {
      var pageContext := PageContext(n, pages[0], join);
      PageContextAliases(n, pages[0], join);
      forall j | 0 <= j < |notes| ensures AliasesConsistent(Merge(pageContext, NoteContext(n, notes[j], join))) {
        ExtendedAliases(pageContext, NoteContext(n, notes[j], join), []);
      }
      ExtendedAliases(pageContext, map[], NoteDocs(n, pages[0], notes, join));
    }
    EveryDocFromContexts(n, pages, notes, join, d => AliasesConsistent(d));
  }

  /** Referencing NoteTags without PageTags never yields the `tags` alias, in any doc or section element. */
  lemma NoteTagsNeverAliased(code: string, pages: seq<Page>, notes: seq<Note>, join: seq<string> -> string)
    requires notes != [] && pages != []
    requires !Occurs(code, "PageTags")
    ensures EveryDoc(GenerateTemplateDocs(code, pages, notes, join), d => LegacyTags !in d)
  {
    var n := NeedsOf(Scan(code));
    var pageContext := PageContext(n, pages[0], join);
    assert forall j :: 0 <= j < |notes| ==> LegacyTags !in Merge(pageContext, NoteContext(n, notes[j], join));
    EveryDocFromContexts(n, pages, notes, join, d => LegacyTags !in d);
  }

  /**
   * With annotations, a doc holds only keys for referenced placeholders
   * (with their companion and alias keys), at top level and in the Notes
   * section.
   */
  lemma OnlyReferencedKeys(code: string, pages: seq<Page>, notes: seq<Note>, join: seq<string> -> string)
    requires notes != [] && pages != []
    ensures var n := NeedsOf(Scan(code));
      EveryDoc(GenerateTemplateDocs(code, pages, notes, join), (d: Doc) => d.Keys <= ReferencedKeys(n))
  {
    var n := NeedsOf(Scan(code));
    var pageContext := PageContext(n, pages[0], join);
    ContextKeysReferenced(n, pages[0], notes[0], join);
    forall j | 0 <= j < |notes|
      ensures Merge(pageContext, NoteContext(n, notes[j], join)).Keys <= ReferencedKeys(n)
    {
      ContextKeysReferenced(n, pages[0], notes[j], join);
    }
    EveryDocFromContexts(n, pages, notes, join, (d: Doc) => d.Keys <= ReferencedKeys(n));
  }

  /** Page and note contexts hold only referenced keys. */
  lemma ContextKeysReferenced(n: Needs, p: Page, note: Note, join: seq<string> -> string)
    ensures PageContext(n, p, join).Keys <= ReferencedKeys(n)
    ensures NoteContext(n, note, join).Keys <= ReferencedKeys(n)
  {
  }

  // ---------------------------------------------------------------- fetching

  /** A page context with nothing needed is empty. */
  lemma EmptyPageContext(n: Needs, p: Page, join: seq<string> -> string)
    requires !n.AnyPage()
    ensures PageContext(n, p, join) == map[]
  {
  }

  /** A note context with nothing needed is empty. */
  lemma EmptyNoteContext(n: Needs, note: Note, join: seq<string> -> string)
    requires !n.AnyNote()
    ensures NoteContext(n, note, join) == map[]
  {
  }

  /** When the page port is not called, the docs do not depend on page data. */
  lemma PageDataUnusedWhenNotFetched(n: Needs, pages: seq<Page>, pages': seq<Page>, notes: seq<Note>, join: seq<string> -> string)
    requires notes != [] ==> pages != []
    requires |pages'| == |pages|
    requires !PlanFetches(n, |notes|).fetchPages
    ensures GenerateDocs(n, pages, notes, join) == GenerateDocs(n, pages', notes, join)
  {
  }

  /** When the note port is not called, the docs do not depend on note data, only on the number of notes. */
  lemma NoteDataUnusedWhenNotFetched(n: Needs, pages: seq<Page>, notes: seq<Note>, notes': seq<Note>, join: seq<string> -> string)
    requires notes != [] ==> pages != []
    requires |notes'| == |notes|
    requires !PlanFetches(n, |notes|).fetchNotes
    ensures GenerateDocs(n, pages, notes, join) == GenerateDocs(n, pages, notes', join)
  {
    if notes != [] {
      forall j | 0 <= j < |notes|
        ensures NoteContext(n, notes[j], join) == NoteContext(n, notes'[j], join)
      {
        EmptyNoteContext(n, notes[j], join);
        EmptyNoteContext(n, notes'[j], join);
      }
      assert NoteDocs(n, pages[0], notes, join) == NoteDocs(n, pages[0], notes', join);
    }
  }

  /**
   * With annotations and no placeholder referenced, neither port is called
   * and the result is a single empty doc.
   */
  lemma NothingReferencedNothingFetched(code: string, pages: seq<Page>, notes: seq<Note>, join: seq<string> -> string)
    requires notes != [] && pages != []
    requires Scan(code) == Refs(false, false, false, false, false, false, false, false, false)
    ensures PlanFetches(NeedsOf(Scan(code)), |notes|) == FetchPlan(false, false)
    ensures GenerateTemplateDocs(code, pages, notes, join) == [map[]]
  {
  }
}
