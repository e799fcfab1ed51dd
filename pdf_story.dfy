/**
 * The PDF generator's story: the ordered list of flowables that the table of
 * contents, the main content and each section append to `self.story`.
 * Flowables are abstract values (a paragraph in a named style, a vertical
 * spacer of so many millimetres, a page break); fonts, styles' looks, page
 * numbering and rendering are not part of this model.
 */
module PdfStory {
  import opened Wrappers
  import opened Dicts
  import opened Text
  import opened Catalogue
  import ApiStore

  /** The paragraph styles the table of contents and the content use. */
  datatype Style = TocTitle | TocSession | TocStep | SessionTitle | BodyIndent | ChapterTitle | SectionTitle | Body

  datatype Flowable = Para(style: Style, text: string) | Spacer(mm: nat) | PageBreak

  /** One value of `generated_content`; a missing `static_content` or `dynamic_content` reads as an empty dict. */
  datatype StepContent = StepContent(staticContent: StaticContent, dynamicContent: Dict<string, string>)

  /** What the story reads of `session_data`; `name` is `birth_data["name"]` when present. */
  datatype SessionData = SessionData(name: Option<string>, completedSteps: seq<string>, generatedContent: Dict<string, StepContent>)

  /** A section to add: its title and its text. */
  type Item = (string, string)

  // ---------------------------------------------------------------------------
  // Observing a story
  // ---------------------------------------------------------------------------

  /** The texts of the story's paragraphs in style `st`, in story order. */
  function Texts(story: seq<Flowable>, st: Style): seq<string>
  {
    if story == [] then []
    else
      var f := story[|story| - 1];
      Texts(story[..|story| - 1], st) + (if f.Para? && f.style == st then [f.text] else [])
  }

  /** The number of page breaks in the story. */
  function Breaks(story: seq<Flowable>): nat
  {
    if story == [] then 0
    else Breaks(story[..|story| - 1]) + (if story[|story| - 1].PageBreak? then 1 else 0)
  }

  lemma {:induction false} TextsConcat(a: seq<Flowable>, b: seq<Flowable>, st: Style)
    ensures Texts(a + b, st) == Texts(a, st) + Texts(b, st)
  {
    if b == [] {
      assert a + b == a;
    } else {
      var n := |b| - 1;
      TextsConcat(a, b[..n], st);
      assert (a + b)[..|a + b| - 1] == a + b[..n];
    }
  }

  lemma {:induction false} BreaksConcat(a: seq<Flowable>, b: seq<Flowable>)
    ensures Breaks(a + b) == Breaks(a) + Breaks(b)
  {
    if b == [] {
      assert a + b == a;
    } else {
      var n := |b| - 1;
      BreaksConcat(a, b[..n]);
      assert (a + b)[..|a + b| - 1] == a + b[..n];
    }
  }

  /** A story between a head and a tail shows the head's texts and breaks, then its own, then the tail's. */
  lemma Framed(head: seq<Flowable>, mid: seq<Flowable>, tail: seq<Flowable>, st: Style)
    ensures Texts(head + mid + tail, st) == Texts(head, st) + Texts(mid, st) + Texts(tail, st)
    ensures Breaks(head + mid + tail) == Breaks(head) + Breaks(mid) + Breaks(tail)
  {
    TextsConcat(head, mid, st);
    TextsConcat(head + mid, tail, st);
    BreaksConcat(head, mid);
    BreaksConcat(head + mid, tail);
  }

  /** A page break shows no text and one break. */
  lemma PageBreakFacts(st: Style)
    ensures Texts([PageBreak], st) == [] && Breaks([PageBreak]) == 1
  {
    assert [PageBreak][..0] == [];
  }

  /** `[f(s) for s in steps]` */
  function Lines(f: Step -> string, steps: seq<Step>): (r: seq<string>)
    ensures |r| == |steps|
  {
    if steps == [] then [] else Lines(f, steps[..|steps| - 1]) + [f(steps[|steps| - 1])]
  }

  lemma {:induction false} LinesConcat(f: Step -> string, a: seq<Step>, b: seq<Step>)
    ensures Lines(f, a + b) == Lines(f, a) + Lines(f, b)
  {
    if b == [] {
      assert a + b == a;
    } else {
      LinesConcat(f, a, b[..|b| - 1]);
      assert (a + b)[..|a + b| - 1] == a + b[..|b| - 1];
    }
  }

  // ---------------------------------------------------------------------------
  // _add_section
  // ---------------------------------------------------------------------------

  /** A piece as its paragraph shows it: stripped, with `<br/>` for each line break. */
  function Formatted(p: string): string
  {
    ReplaceNewlines(Strip(p))
  }

  /** The flowables of one `"\n\n"`-separated piece: nothing when it is blank, else its body paragraph and a 3 mm spacer. */
  function PieceFlowables(p: string): seq<Flowable>
  {
    if Strip(p) == "" then [] else [Para(Body, Formatted(p)), Spacer(3)]
  }

  /** The body of a section: its pieces' flowables, in order. */
  function BodyOf(pieces: seq<string>): seq<Flowable>
  {
    if pieces == [] then [] else BodyOf(pieces[..|pieces| - 1]) + PieceFlowables(pieces[|pieces| - 1])
  }

  /** One more piece extends the body by that piece's flowables. */
  lemma PiecesStep(pieces: seq<string>, i: nat, start: seq<Flowable>, prev: seq<Flowable>, next: seq<Flowable>)
    requires i < |pieces|
    requires prev == start + BodyOf(pieces[..i])
    requires next == prev + PieceFlowables(pieces[i])
    ensures next == start + BodyOf(pieces[..i + 1])
  {
    assert pieces[..i + 1][..i] == pieces[..i];
  }

  /** The pieces that hold something other than whitespace (Python's `if para_text.strip()`), in order. */
  function NonBlank(pieces: seq<string>): seq<string>
  {
    if pieces == [] then []
    else NonBlank(pieces[..|pieces| - 1]) + (if Strip(pieces[|pieces| - 1]) == "" then [] else [pieces[|pieces| - 1]])
  }

  /** `[Formatted(p) for p in pieces]` */
  function FormatAll(pieces: seq<string>): seq<string>
  {
    if pieces == [] then [] else FormatAll(pieces[..|pieces| - 1]) + [Formatted(pieces[|pieces| - 1])]
  }

  /** A piece is blank exactly when it is all whitespace; a non-blank one shows as a non-empty paragraph without line breaks. */
  lemma FormattedFacts(p: string)
    ensures Strip(p) == "" <==> AllSpace(p)
    ensures Strip(p) != "" ==> Formatted(p) != "" && '\n' !in Formatted(p)
  {
    StripFacts(p);
    ReplaceNewlinesFacts(Strip(p));
  }

  /**
   * Each non-blank piece gives exactly one body paragraph (its formatted
   * text) followed by a 3 mm spacer; blank pieces give nothing, and no piece
   * is reordered.
   */
  lemma {:induction false} BodyOfShape(pieces: seq<string>)
    ensures |BodyOf(pieces)| == 2 * |NonBlank(pieces)|
    ensures forall k :: 0 <= k < |NonBlank(pieces)| ==>
      BodyOf(pieces)[2 * k] == Para(Body, Formatted(NonBlank(pieces)[k])) && BodyOf(pieces)[2 * k + 1] == Spacer(3)
  {
    if pieces != [] {
      var n := |pieces| - 1;
      var init := pieces[..n];
      BodyOfShape(init);
      ShapedSnoc(BodyOf(init), NonBlank(init), pieces[n]);
    }
  }

  /** `body` is, for each piece of `nb` in order, its formatted paragraph and a 3 mm spacer. */
  predicate Shaped(body: seq<Flowable>, nb: seq<string>)
  {
    && |body| == 2 * |nb|
    && forall k :: 0 <= k < |nb| ==> body[2 * k] == Para(Body, Formatted(nb[k])) && body[2 * k + 1] == Spacer(3)
  }

  lemma ShapedSnoc(body: seq<Flowable>, nb: seq<string>, p: string)
    requires Shaped(body, nb)
    ensures Shaped(body + PieceFlowables(p), nb + if Strip(p) == "" then [] else [p])
  {
    if Strip(p) == "" {
      assert body + PieceFlowables(p) == body;
      assert nb + [] == nb;
    }
  }

  /** The non-blank pieces are exactly the pieces whose stripped text is non-empty. */
  lemma {:induction false} NonBlankMembers(pieces: seq<string>)
    ensures forall q :: q in NonBlank(pieces) <==> q in pieces && Strip(q) != ""
  {
    if pieces != [] {
      var n := |pieces| - 1;
      var init := pieces[..n];
      NonBlankMembers(init);
      assert pieces == init + [pieces[n]];
    }
  }

  lemma PieceTexts(p: string, st: Style)
    ensures Texts(PieceFlowables(p), st) == if st == Body && Strip(p) != "" then [Formatted(p)] else []
    ensures Breaks(PieceFlowables(p)) == 0
  {
    if Strip(p) != "" {
      var fs := PieceFlowables(p);
      var head := [Para(Body, Formatted(p))];
      assert fs[..1] == head;
      assert head[..0] == [];
      assert Texts(head, st) == if st == Body then [Formatted(p)] else [];
      assert Texts(fs, st) == Texts(head, st);
      assert Breaks(head) == 0;
    }
  }

  lemma {:induction false} BodyOfTexts(pieces: seq<string>)
    ensures Texts(BodyOf(pieces), Body) == FormatAll(NonBlank(pieces))
    ensures forall st :: st != Body ==> Texts(BodyOf(pieces), st) == []
    ensures Breaks(BodyOf(pieces)) == 0
  {
    if pieces != [] {
      var n := |pieces| - 1;
      var p := pieces[n];
      var init := pieces[..n];
      BodyOfTexts(init);
      BreaksConcat(BodyOf(init), PieceFlowables(p));
      PieceTexts(p, Body);
      forall st
        ensures Texts(BodyOf(pieces), st) == Texts(BodyOf(init), st) + Texts(PieceFlowables(p), st)
        ensures Texts(PieceFlowables(p), st) == if st == Body && Strip(p) != "" then [Formatted(p)] else []
      {
        TextsConcat(BodyOf(init), PieceFlowables(p), st);
        PieceTexts(p, st);
      }
      if Strip(p) != "" {
        var nb := NonBlank(init);
        assert NonBlank(pieces) == nb + [p];
        assert (nb + [p])[..|nb + [p]| - 1] == nb;
        assert FormatAll(nb + [p]) == FormatAll(nb) + [Formatted(p)];
        assert Texts(PieceFlowables(p), Body) == [Formatted(p)];
      } else {
        assert NonBlank(pieces) == NonBlank(init);
      }
    }
  }

  function TitlePara(title: string): seq<Flowable>
  {
    if title == "" then [] else [Para(SectionTitle, title)]
  }

  /**
   * `_add_section(title, content)`: nothing for empty content; otherwise the
   * title paragraph (only when the title is non-empty), the body, and a
   * closing 4 mm spacer.
   */
  function Section(title: string, content: string): (r: seq<Flowable>)
    ensures content == "" <==> r == []
    ensures r != [] ==> r[|r| - 1] == Spacer(4)
  {
    if content == "" then [] else TitlePara(title) + BodyOf(Split(content, "\n\n")) + [Spacer(4)]
  }

  /** A section's texts in one style are its title paragraph's, then its body's. */
  lemma SectionParts(title: string, content: string, st: Style)
    ensures Texts(Section(title, content), st) == if content == "" then [] else Texts(TitlePara(title), st) + Texts(BodyOf(Split(content, "\n\n")), st)
    ensures Breaks(Section(title, content)) == if content == "" then 0 else Breaks(TitlePara(title)) + Breaks(BodyOf(Split(content, "\n\n")))
  {
    if content != "" {
      var t, b := TitlePara(title), BodyOf(Split(content, "\n\n"));
      TextsConcat(t, b, st);
      TextsConcat(t + b, [Spacer(4)], st);
      BreaksConcat(t, b);
      BreaksConcat(t + b, [Spacer(4)]);
      assert [Spacer(4)][..0] == [];
    }
  }

  /**
   * A section shows its title exactly when both title and content are
   * non-empty, its formatted non-blank pieces as body paragraphs, no chapter
   * or session title, and no page break.
   */
  lemma SectionTexts(title: string, content: string)
    ensures Texts(Section(title, content), SectionTitle) == if title != "" && content != "" then [title] else []
    ensures Texts(Section(title, content), Body) == if content == "" then [] else FormatAll(NonBlank(Split(content, "\n\n")))
    ensures Texts(Section(title, content), ChapterTitle) == [] && Texts(Section(title, content), SessionTitle) == []
    ensures Breaks(Section(title, content)) == 0
  {
    SectionStyleText(title, content, SectionTitle);
    SectionStyleText(title, content, Body);
    SectionStyleText(title, content, ChapterTitle);
    SectionStyleText(title, content, SessionTitle);
  }

  lemma SectionStyleText(title: string, content: string, st: Style)
    ensures Texts(Section(title, content), st) ==
      if content == "" then []
      else if st == SectionTitle then (if title != "" then [title] else [])
      else if st == Body then FormatAll(NonBlank(Split(content, "\n\n")))
      else []
    ensures Breaks(Section(title, content)) == 0
  {
    SectionParts(title, content, st);
    TitleParaTexts(title, st);
    BodyOfTexts(Split(content, "\n\n"));
  }

  lemma TitleParaTexts(title: string, st: Style)
    ensures Texts(TitlePara(title), st) == if title != "" && st == SectionTitle then [title] else []
    ensures Breaks(TitlePara(title)) == 0
  {
    if title != "" {
      assert TitlePara(title)[..0] == [];
    }
  }

  /** The flowables of `f(x)` for each `x` of `xs`, one after the other. */
  function Flat<T>(f: T -> seq<Flowable>, xs: seq<T>): seq<Flowable>
  {
    if xs == [] then [] else Flat(f, xs[..|xs| - 1]) + f(xs[|xs| - 1])
  }

  lemma {:induction false} FlatConcat<T>(f: T -> seq<Flowable>, a: seq<T>, b: seq<T>)
    ensures Flat(f, a + b) == Flat(f, a) + Flat(f, b)
  {
    if b == [] {
      assert a + b == a;
    } else {
      var n := |b| - 1;
      FlatConcat(f, a, b[..n]);
      assert (a + b)[..|a + b| - 1] == a + b[..n];
    }
  }

  function ItemSection(it: Item): seq<Flowable>
  {
    Section(it.0, it.1)
  }

  /** The sections of `items`, one after the other. */
  function SectionsOf(items: seq<Item>): seq<Flowable>
  {
    Flat(ItemSection, items)
  }

  /** The titles that show: those of items with a non-empty title and non-empty text. */
  function ShownTitles(items: seq<Item>): seq<string>
  {
    if items == [] then []
    else
      var last := items[|items| - 1];
      ShownTitles(items[..|items| - 1]) + (if last.0 != "" && last.1 != "" then [last.0] else [])
  }

  lemma SectionsOfOne(it: Item)
    ensures SectionsOf([it]) == Section(it.0, it.1)
  {
    assert [it][..0] == [];
    assert Flat(ItemSection, [it]) == Flat(ItemSection, []) + ItemSection(it);
  }

  /** A story holding the sections of `before` grows by those of `item` into one holding the sections of both. */
  lemma SectionsStep(before: seq<Item>, item: seq<Item>, start: seq<Flowable>, prev: seq<Flowable>, next: seq<Flowable>)
    requires prev == start + SectionsOf(before)
    requires next == prev + SectionsOf(item)
    ensures next == start + SectionsOf(before + item)
  {
    FlatConcat(ItemSection, before, item);
  }

  lemma SectionsOfConcat(a: seq<Item>, b: seq<Item>)
    ensures SectionsOf(a + b) == SectionsOf(a) + SectionsOf(b)
  {
    FlatConcat(ItemSection, a, b);
  }

  /** The section titles of a run of sections are exactly the shown titles, in item order; no chapter, session or break. */
  lemma {:induction false} SectionsTexts(items: seq<Item>)
    ensures Texts(SectionsOf(items), SectionTitle) == ShownTitles(items)
    ensures Texts(SectionsOf(items), ChapterTitle) == [] && Texts(SectionsOf(items), SessionTitle) == []
    ensures Breaks(SectionsOf(items)) == 0
  {
    if items != [] {
      var last := items[|items| - 1];
      var init := SectionsOf(items[..|items| - 1]);
      var sec := Section(last.0, last.1);
      SectionsTexts(items[..|items| - 1]);
      SectionTexts(last.0, last.1);
      assert SectionsOf(items) == init + sec;
      TextsConcat(init, sec, SectionTitle);
      TextsConcat(init, sec, ChapterTitle);
      TextsConcat(init, sec, SessionTitle);
      BreaksConcat(init, sec);
    }
  }

  lemma {:induction false} ShownTitlesConcat(a: seq<Item>, b: seq<Item>)
    ensures ShownTitles(a + b) == ShownTitles(a) + ShownTitles(b)
  {
    if b == [] {
      assert a + b == a;
    } else {
      var n := |b| - 1;
      ShownTitlesConcat(a, b[..n]);
      assert (a + b)[..|a + b| - 1] == a + b[..n];
      assert (a + b)[|a + b| - 1] == b[n];
    }
  }

  // ---------------------------------------------------------------------------
  // The sections of one step
  // ---------------------------------------------------------------------------

  /** The static keys a step reads, in story order, each with the title used when its entry has none. */
  function StaticKeys(stepId: string): seq<(string, string)>
  {
    (if stepId == "1-A" then [("prologue", "はじめに")] else [])
    + [("theory", ""), ("theory_modality", ""), ("theory_angles", ""), ("lecture", "")]
  }

  /** The dynamic keys, in story order, with their fixed section titles. */
  const DynamicKeys: seq<(string, string)> :=
    [("analysis", "【配置分析】"), ("symbol", "【深層読解】"), ("scenario", "【シナリオ】"),
     ("action", "【提言とワーク】"), ("letter", "【CEOへの手紙】")]

  /** An entry the story can read with `.get`: a dict, or no entry at all. */
  predicate Readable(st: StaticContent, key: string)
  {
    Get(st, key).None? || Get(st, key).value.Fields?
  }

  /** The section one static key contributes; `None` when its entry is not a dict, so that `.get` raises. */
  function StaticItem(st: StaticContent, key: string, defaultTitle: string): (r: Option<seq<Item>>)
    ensures r.Some? <==> Readable(st, key)
  {
    match Get(st, key)
    case None => Some([])
    case Some(e) =>
      if e.Fields? then Some([(e.title.GetOr(defaultTitle), e.text.GetOr(""))]) else None
  }

  /** The sections of the static keys in order, or `None` when one of them raises. */
  function StaticItems(st: StaticContent, keys: seq<(string, string)>): Option<seq<Item>>
  {
    if keys == [] then Some([])
    else
      var last := keys[|keys| - 1];
      match StaticItems(st, keys[..|keys| - 1])
      case None => None
      case Some(a) =>
        match StaticItem(st, last.0, last.1)
        case None => None
        case Some(b) => Some(a + b)
  }

  /** The static sections are read without raising exactly when every key they look at holds a dict or nothing. */
  lemma {:induction false} StaticItemsSucceed(st: StaticContent, keys: seq<(string, string)>)
    ensures StaticItems(st, keys).Some? <==> forall k :: k in keys ==> Readable(st, k.0)
  {
    if keys != [] {
      var init := keys[..|keys| - 1];
      StaticItemsSucceed(st, init);
      assert keys == init + [keys[|keys| - 1]];
    }
  }

  /** The section one dynamic key contributes: its fixed title and its text, when the key is present. */
  function DynamicItem(d: Dict<string, string>, key: string, title: string): (r: seq<Item>)
    ensures HasKey(d, key) <==> r != []
  {
    match Get(d, key)
    case None => []
    case Some(c) => [(title, c)]
  }

  /** The sections of the dynamic keys present, in key order. */
  function DynamicItems(d: Dict<string, string>, keys: seq<(string, string)>): seq<Item>
  {
    if keys == [] then []
    else
      var last := keys[|keys| - 1];
      DynamicItems(d, keys[..|keys| - 1]) + DynamicItem(d, last.0, last.1)
  }

  lemma DynamicItemsSnoc(d: Dict<string, string>, keys: seq<(string, string)>, i: nat)
    requires i < |keys|
    ensures DynamicItems(d, keys[..i + 1]) == DynamicItems(d, keys[..i]) + DynamicItem(d, keys[i].0, keys[i].1)
  {
    assert keys[..i + 1][..i] == keys[..i];
  }

  lemma StaticItemsSnoc(st: StaticContent, keys: seq<(string, string)>, i: nat)
    requires i < |keys| && StaticItems(st, keys[..i]).Some?
    ensures StaticItems(st, keys[..i + 1]).Some? == Readable(st, keys[i].0)
    ensures Readable(st, keys[i].0) ==>
      StaticItems(st, keys[..i + 1]).value == StaticItems(st, keys[..i]).value + StaticItem(st, keys[i].0, keys[i].1).value
  {
    assert keys[..i + 1][..i] == keys[..i];
  }

  /** One more dynamic key's sections extend the story by the sections of one more key. */
  lemma DynamicSectionsStep(d: Dict<string, string>, keys: seq<(string, string)>, i: nat,
                            start: seq<Flowable>, prev: seq<Flowable>, next: seq<Flowable>)
    requires i < |keys|
    requires prev == start + SectionsOf(DynamicItems(d, keys[..i]))
    requires next == prev + SectionsOf(DynamicItem(d, keys[i].0, keys[i].1))
    ensures next == start + SectionsOf(DynamicItems(d, keys[..i + 1]))
  {
    DynamicItemsSnoc(d, keys, i);
    SectionsOfConcat(DynamicItems(d, keys[..i]), DynamicItem(d, keys[i].0, keys[i].1));
  }

  /** `generated_content.get(step_id, {})` */
  function ContentOf(data: SessionData, stepId: string): StepContent
  {
    Get(data.generatedContent, stepId).GetOr(StepContent([], []))
  }

  function SessionLine(p: Part): string
  {
    "Session " + p.partId + ": " + p.title.GetOr("")
  }

  function ChapterLine(s: Step): string
  {
    s.chapterNumber.GetOr("") + ": " + s.chapterTitle.GetOr("")
  }

  function TocStepLine(s: Step): string
  {
    "　" + s.stepId + ": " + s.chapterTitle.GetOr("")
  }

  /** What one catalogue step adds to the content: nothing unless completed; else its chapter title and sections. */
  function StepBlock(data: SessionData, s: Step): Option<seq<Flowable>>
  {
    if s.stepId !in data.completedSteps then Some([])
    else
      var c := ContentOf(data, s.stepId);
      match StaticItems(c.staticContent, StaticKeys(s.stepId))
      case None => None
      case Some(items) => Some(StepFlowables(ChapterLine(s), SectionsOf(items), SectionsOf(DynamicItems(c.dynamicContent, DynamicKeys))))
  }

  /** A completed step's flowables: its chapter line and a 4 mm spacer, its static then dynamic sections, an 8 mm spacer. */
  function StepFlowables(line: string, statics: seq<Flowable>, dynamic: seq<Flowable>): seq<Flowable>
  {
    [Para(ChapterTitle, line), Spacer(4)] + statics + dynamic + [Spacer(8)]
  }

  function StepsBlock(data: SessionData, steps: seq<Step>): Option<seq<Flowable>>
  {
    if steps == [] then Some([])
    else
      match StepsBlock(data, steps[..|steps| - 1])
      case None => None
      case Some(a) =>
        match StepBlock(data, steps[|steps| - 1])
        case None => None
        case Some(b) => Some(a + b)
  }

  /** A session's title paragraph, then its description and an 8 mm spacer when the description is non-empty. */
  function PartHeader(p: Part): seq<Flowable>
  {
    [Para(SessionTitle, SessionLine(p))]
    + (if p.description.Some? && p.description.value != "" then [Para(BodyIndent, p.description.value), Spacer(8)] else [])
  }

  function PartBlock(data: SessionData, p: Part): Option<seq<Flowable>>
  {
    match StepsBlock(data, p.steps)
    case None => None
    case Some(b) => Some(PartHeader(p) + b + [PageBreak])
  }

  /** `_build_content`: every catalogue session's block in order, or `None` when reading a static entry raises. */
  function Content(data: SessionData, cat: Catalogue): Option<seq<Flowable>>
  {
    if cat == [] then Some([])
    else
      match Content(data, cat[..|cat| - 1])
      case None => None
      case Some(a) =>
        match PartBlock(data, cat[|cat| - 1])
        case None => None
        case Some(b) => Some(a + b)
  }

  // ---------------------------------------------------------------------------
  // _build_table_of_contents
  // ---------------------------------------------------------------------------

  function TocSteps(completed: seq<string>, steps: seq<Step>): seq<Flowable>
  {
    if steps == [] then []
    else
      var s := steps[|steps| - 1];
      TocSteps(completed, steps[..|steps| - 1]) + (if s.stepId in completed then [Para(TocStep, TocStepLine(s))] else [])
  }

  function TocParts(completed: seq<string>, cat: Catalogue): seq<Flowable>
  {
    if cat == [] then []
    else
      var p := cat[|cat| - 1];
      TocParts(completed, cat[..|cat| - 1]) + [Para(TocSession, SessionLine(p))] + TocSteps(completed, p.steps)
  }

  /** One more session's entry and step lines extend the listing by one more session. */
  lemma TocPartsStep(completed: seq<string>, cat: Catalogue, i: nat, start: seq<Flowable>, prev: seq<Flowable>, next: seq<Flowable>)
    requires i < |cat|
    requires prev == start + TocParts(completed, cat[..i])
    requires next == prev + [Para(TocSession, SessionLine(cat[i]))] + TocSteps(completed, cat[i].steps)
    ensures next == start + TocParts(completed, cat[..i + 1])
  {
    assert cat[..i + 1][..i] == cat[..i];
  }

  /** One more step's line, when completed, extends the listing by one more step. */
  lemma TocStepsStep(completed: seq<string>, steps: seq<Step>, j: nat, start: seq<Flowable>, prev: seq<Flowable>, next: seq<Flowable>)
    requires j < |steps|
    requires prev == start + TocSteps(completed, steps[..j])
    requires next == prev + (if steps[j].stepId in completed then [Para(TocStep, TocStepLine(steps[j]))] else [])
    ensures next == start + TocSteps(completed, steps[..j + 1])
  {
    assert steps[..j + 1][..j] == steps[..j];
  }

  /** The table of contents: its heading and a 10 mm spacer, the sessions with their completed steps, a page break. */
  function TableOfContents(completed: seq<string>, cat: Catalogue): seq<Flowable>
  {
    TocHead() + TocParts(completed, cat) + [PageBreak]
  }

  function TocHead(): seq<Flowable>
  {
    [Para(TocTitle, "目次"), Spacer(10)]
  }

  // ---------------------------------------------------------------------------
  // Reference listings
  // ---------------------------------------------------------------------------

  /** The completed steps among `steps`, in order. */
  function CompletedOf(completed: seq<string>, steps: seq<Step>): (r: seq<Step>)
    ensures forall s :: s in r <==> s in steps && s.stepId in completed
  {
    if steps == [] then []
    else
      var s := steps[|steps| - 1];
      CompletedOf(completed, steps[..|steps| - 1]) + (if s.stepId in completed then [s] else [])
  }

  /** The completed steps of the whole catalogue, session after session. */
  function CompletedIn(completed: seq<string>, cat: Catalogue): seq<Step>
  {
    if cat == [] then [] else CompletedIn(completed, cat[..|cat| - 1]) + CompletedOf(completed, cat[|cat| - 1].steps)
  }

  function PartLines(cat: Catalogue): (r: seq<string>)
    ensures |r| == |cat|
  {
    if cat == [] then [] else PartLines(cat[..|cat| - 1]) + [SessionLine(cat[|cat| - 1])]
  }

  // ---------------------------------------------------------------------------
  // What the table of contents and the content show
  // ---------------------------------------------------------------------------

  lemma {:induction false} TocStepsFacts(completed: seq<string>, steps: seq<Step>)
    ensures Texts(TocSteps(completed, steps), TocStep) == Lines(TocStepLine, CompletedOf(completed, steps))
    ensures Texts(TocSteps(completed, steps), TocSession) == []
    ensures Breaks(TocSteps(completed, steps)) == 0
  {
    if steps != [] {
      var init := steps[..|steps| - 1];
      var s := steps[|steps| - 1];
      TocStepsFacts(completed, init);
      var tail: seq<Flowable> := if s.stepId in completed then [Para(TocStep, TocStepLine(s))] else [];
      TextsConcat(TocSteps(completed, init), tail, TocStep);
      TextsConcat(TocSteps(completed, init), tail, TocSession);
      BreaksConcat(TocSteps(completed, init), tail);
      if s.stepId in completed {
        assert tail[..0] == [];
      }
      LinesConcat(TocStepLine, CompletedOf(completed, init), if s.stepId in completed then [s] else []);
    }
  }

  lemma {:induction false} TocPartsFacts(completed: seq<string>, cat: Catalogue)
    ensures Texts(TocParts(completed, cat), TocStep) == Lines(TocStepLine, CompletedIn(completed, cat))
    ensures Texts(TocParts(completed, cat), TocSession) == PartLines(cat)
    ensures Breaks(TocParts(completed, cat)) == 0
  {
    if cat != [] {
      var init := cat[..|cat| - 1];
      var p := cat[|cat| - 1];
      TocPartsFacts(completed, init);
      TocStepsFacts(completed, p.steps);
      TocEntryFramed(TocParts(completed, init), SessionLine(p), TocSteps(completed, p.steps));
      LinesConcat(TocStepLine, CompletedIn(completed, init), CompletedOf(completed, p.steps));
    }
  }

  /**
   * The table of contents has one session entry per catalogue session, in
   * order, lists exactly the completed steps in catalogue order, and ends
   * with its only page break.
   */
  lemma TocFacts(completed: seq<string>, cat: Catalogue)
    ensures Texts(TableOfContents(completed, cat), TocSession) == PartLines(cat)
    ensures Texts(TableOfContents(completed, cat), TocStep) == Lines(TocStepLine, CompletedIn(completed, cat))
    ensures Breaks(TableOfContents(completed, cat)) == 1
    ensures TableOfContents(completed, cat)[|TableOfContents(completed, cat)| - 1] == PageBreak
  {
    TocPartsFacts(completed, cat);
    FramedTocFacts(TocParts(completed, cat));
  }

  /** A listing `a`, one session entry and that session's step lines `c`. */
  lemma TocEntryFramed(a: seq<Flowable>, line: string, c: seq<Flowable>)
    ensures Texts(a + [Para(TocSession, line)] + c, TocStep) == Texts(a, TocStep) + Texts(c, TocStep)
    ensures Texts(a + [Para(TocSession, line)] + c, TocSession) == Texts(a, TocSession) + [line] + Texts(c, TocSession)
    ensures Breaks(a + [Para(TocSession, line)] + c) == Breaks(a) + Breaks(c)
  {
    ParaFramedOther(a, TocSession, line, c, TocStep);
    ParaFramedOwn(a, line, c, TocSession);
  }

  /** A paragraph between `a` and `c` adds nothing to the texts of another style, nor to the breaks. */
  lemma ParaFramedOther(a: seq<Flowable>, s: Style, t: string, c: seq<Flowable>, st: Style)
    requires s != st
    ensures Texts(a + [Para(s, t)] + c, st) == Texts(a, st) + Texts(c, st)
    ensures Breaks(a + [Para(s, t)] + c) == Breaks(a) + Breaks(c)
  {
    var b := [Para(s, t)];
    assert b[..0] == [];
    assert Texts(b, st) == [] && Breaks(b) == 0;
    Framed(a, b, c, st);
    assert Texts(a, st) + [] == Texts(a, st);
  }

  /** A paragraph between `a` and `c` adds its text to the texts of its own style. */
  lemma ParaFramedOwn(a: seq<Flowable>, t: string, c: seq<Flowable>, st: Style)
    ensures Texts(a + [Para(st, t)] + c, st) == Texts(a, st) + [t] + Texts(c, st)
  {
    var b := [Para(st, t)];
    assert b[..0] == [];
    assert Texts(b, st) == [t];
    Framed(a, b, c, st);
  }

  /** The heading, the listing `parts` and a page break. */
  lemma FramedTocFacts(parts: seq<Flowable>)
    ensures Texts(TocHead() + parts + [PageBreak], TocSession) == Texts(parts, TocSession)
    ensures Texts(TocHead() + parts + [PageBreak], TocStep) == Texts(parts, TocStep)
    ensures Breaks(TocHead() + parts + [PageBreak]) == Breaks(parts) + 1
    ensures (TocHead() + parts + [PageBreak])[|TocHead() + parts + [PageBreak]| - 1] == PageBreak
  {
    TocHeadFacts(TocStep);
    TocHeadFacts(TocSession);
    PageBreakFacts(TocStep);
    PageBreakFacts(TocSession);
    Framed(TocHead(), parts, [PageBreak], TocStep);
    Framed(TocHead(), parts, [PageBreak], TocSession);
  }

  /** The heading of the table of contents shows only its title, and no break. */
  lemma TocHeadFacts(st: Style)
    ensures Texts(TocHead(), st) == if st == TocTitle then ["目次"] else []
    ensures Breaks(TocHead()) == 0
  {
    var head := TocHead();
    assert head[..1][..0] == [] && head[..1] == [Para(TocTitle, "目次")];
  }

  lemma StepFlowablesText(line: string, statics: seq<Flowable>, dynamic: seq<Flowable>, st: Style)
    requires Texts(statics, st) == [] && Texts(dynamic, st) == []
    ensures Texts(StepFlowables(line, statics, dynamic), st) == if st == ChapterTitle then [line] else []
  {
    var chapter := [Para(ChapterTitle, line), Spacer(4)];
    TextsConcat(chapter, statics, st);
    TextsConcat(chapter + statics, dynamic, st);
    TextsConcat(chapter + statics + dynamic, [Spacer(8)], st);
    assert chapter[..1][..0] == [] && chapter[..1] == [Para(ChapterTitle, line)];
    assert [Spacer(8)][..0] == [];
  }

  lemma StepFlowablesBreaks(line: string, statics: seq<Flowable>, dynamic: seq<Flowable>)
    requires Breaks(statics) == 0 && Breaks(dynamic) == 0
    ensures Breaks(StepFlowables(line, statics, dynamic)) == 0
  {
    var chapter := [Para(ChapterTitle, line), Spacer(4)];
    BreaksConcat(chapter, statics);
    BreaksConcat(chapter + statics, dynamic);
    BreaksConcat(chapter + statics + dynamic, [Spacer(8)]);
    assert chapter[..1][..0] == [] && chapter[..1] == [Para(ChapterTitle, line)];
    assert [Spacer(8)][..0] == [];
  }

  /** The section titles of a step's flowables: those of its static sections, then of its dynamic ones. */
  lemma StepFlowablesTitles(line: string, statics: seq<Flowable>, dynamic: seq<Flowable>)
    ensures Texts(StepFlowables(line, statics, dynamic), SectionTitle) == Texts(statics, SectionTitle) + Texts(dynamic, SectionTitle)
  {
    var chapter := [Para(ChapterTitle, line), Spacer(4)];
    assert StepFlowables(line, statics, dynamic) == chapter + (statics + dynamic) + [Spacer(8)];
    Framed(chapter, statics + dynamic, [Spacer(8)], SectionTitle);
    TextsConcat(statics, dynamic, SectionTitle);
    ChapterHeadNoSection(line);
    assert [Spacer(8)][..0] == [];
  }

  /** The chapter line and its spacer show no section title. */
  lemma ChapterHeadNoSection(line: string)
    ensures Texts([Para(ChapterTitle, line), Spacer(4)], SectionTitle) == []
  {
    var chapter := [Para(ChapterTitle, line), Spacer(4)];
    var head := [Para(ChapterTitle, line)];
    assert head[..0] == [];
    assert Texts(head, SectionTitle) == [];
    assert chapter[..1] == head;
    assert Texts(chapter, SectionTitle) == Texts(head, SectionTitle);
  }

  lemma StepFlowablesSections(line: string, a: seq<Item>, b: seq<Item>)
    ensures Texts(StepFlowables(line, SectionsOf(a), SectionsOf(b)), SectionTitle) == ShownTitles(a + b)
  {
    StepFlowablesTitles(line, SectionsOf(a), SectionsOf(b));
    SectionsTexts(a);
    SectionsTexts(b);
    ShownTitlesConcat(a, b);
  }

  /**
   * A completed step shows its section titles in the fixed order: the static
   * keys (the prologue for "1-A", then theory, theory_modality, theory_angles,
   * lecture), then the dynamic keys (analysis, symbol, scenario, action, letter).
   */
  lemma StepSectionTitles(data: SessionData, s: Step)
    requires s.stepId in data.completedSteps && StepBlock(data, s).Some?
    ensures var c := ContentOf(data, s.stepId);
      Texts(StepBlock(data, s).value, SectionTitle)
        == ShownTitles(StaticItems(c.staticContent, StaticKeys(s.stepId)).value + DynamicItems(c.dynamicContent, DynamicKeys))
  {
    var c := ContentOf(data, s.stepId);
    StepFlowablesSections(ChapterLine(s), StaticItems(c.staticContent, StaticKeys(s.stepId)).value,
                          DynamicItems(c.dynamicContent, DynamicKeys));
  }

  lemma StepBlockFacts(data: SessionData, s: Step)
    requires StepBlock(data, s).Some?
    ensures Texts(StepBlock(data, s).value, ChapterTitle) == if s.stepId in data.completedSteps then [ChapterLine(s)] else []
    ensures Texts(StepBlock(data, s).value, SessionTitle) == []
    ensures Breaks(StepBlock(data, s).value) == 0
  {
    if s.stepId in data.completedSteps {
      var c := ContentOf(data, s.stepId);
      var items := StaticItems(c.staticContent, StaticKeys(s.stepId)).value;
      var dynamic := DynamicItems(c.dynamicContent, DynamicKeys);
      SectionsTexts(items);
      SectionsTexts(dynamic);
      StepFlowablesText(ChapterLine(s), SectionsOf(items), SectionsOf(dynamic), ChapterTitle);
      StepFlowablesText(ChapterLine(s), SectionsOf(items), SectionsOf(dynamic), SessionTitle);
      StepFlowablesBreaks(ChapterLine(s), SectionsOf(items), SectionsOf(dynamic));
    }
  }

  lemma {:induction false} StepsBlockFacts(data: SessionData, steps: seq<Step>)
    requires StepsBlock(data, steps).Some?
    ensures Texts(StepsBlock(data, steps).value, ChapterTitle) == Lines(ChapterLine, CompletedOf(data.completedSteps, steps))
    ensures Texts(StepsBlock(data, steps).value, SessionTitle) == []
    ensures Breaks(StepsBlock(data, steps).value) == 0
  {
    if steps != [] {
      var init := steps[..|steps| - 1];
      var s := steps[|steps| - 1];
      StepsBlockFacts(data, init);
      StepBlockFacts(data, s);
      var a, b := StepsBlock(data, init).value, StepBlock(data, s).value;
      TextsConcat(a, b, ChapterTitle);
      TextsConcat(a, b, SessionTitle);
      BreaksConcat(a, b);
      LinesConcat(ChapterLine, CompletedOf(data.completedSteps, init), if s.stepId in data.completedSteps then [s] else []);
    }
  }

  lemma PartHeaderFacts(p: Part)
    ensures Texts(PartHeader(p), SessionTitle) == [SessionLine(p)]
    ensures Texts(PartHeader(p), ChapterTitle) == []
    ensures Breaks(PartHeader(p)) == 0
  {
    var title: seq<Flowable> := [Para(SessionTitle, SessionLine(p))];
    assert title[..0] == [];
    if p.description.Some? && p.description.value != "" {
      var d: seq<Flowable> := [Para(BodyIndent, p.description.value), Spacer(8)];
      assert d[..1][..0] == [] && d[..1] == [Para(BodyIndent, p.description.value)];
      TextsConcat(title, d, SessionTitle);
      TextsConcat(title, d, ChapterTitle);
      BreaksConcat(title, d);
    } else {
      assert PartHeader(p) == title;
    }
  }

  lemma PartBlockFacts(data: SessionData, p: Part)
    requires PartBlock(data, p).Some?
    ensures Texts(PartBlock(data, p).value, ChapterTitle) == Lines(ChapterLine, CompletedOf(data.completedSteps, p.steps))
    ensures Texts(PartBlock(data, p).value, SessionTitle) == [SessionLine(p)]
    ensures Breaks(PartBlock(data, p).value) == 1
  {
    StepsBlockFacts(data, p.steps);
    FramedPartFacts(p, StepsBlock(data, p.steps).value);
  }

  /** A session's header, its steps' flowables `b` and a page break. */
  lemma FramedPartFacts(p: Part, b: seq<Flowable>)
    requires Texts(b, SessionTitle) == [] && Breaks(b) == 0
    ensures Texts(PartHeader(p) + b + [PageBreak], ChapterTitle) == Texts(b, ChapterTitle)
    ensures Texts(PartHeader(p) + b + [PageBreak], SessionTitle) == [SessionLine(p)]
    ensures Breaks(PartHeader(p) + b + [PageBreak]) == 1
  {
    PartHeaderFacts(p);
    PageBreakFacts(SessionTitle);
    PageBreakFacts(ChapterTitle);
    Framed(PartHeader(p), b, [PageBreak], SessionTitle);
    Framed(PartHeader(p), b, [PageBreak], ChapterTitle);
  }

  /**
   * When the content is built without raising: it shows one session title per
   * catalogue session, in order; the chapter titles of exactly the completed
   * steps, in catalogue order; and one page break per session, the last
   * element being a page break.
   */
  lemma {:induction false} ContentFacts(data: SessionData, cat: Catalogue)
    requires Content(data, cat).Some?
    ensures Texts(Content(data, cat).value, SessionTitle) == PartLines(cat)
    ensures Texts(Content(data, cat).value, ChapterTitle) == Lines(ChapterLine, CompletedIn(data.completedSteps, cat))
    ensures Breaks(Content(data, cat).value) == |cat|
    ensures cat != [] ==> Content(data, cat).value[|Content(data, cat).value| - 1] == PageBreak
  {
    if cat != [] {
      var init := cat[..|cat| - 1];
      var p := cat[|cat| - 1];
      ContentFacts(data, init);
      PartBlockFacts(data, p);
      var a, b := Content(data, init).value, PartBlock(data, p).value;
      TextsConcat(a, b, ChapterTitle);
      TextsConcat(a, b, SessionTitle);
      BreaksConcat(a, b);
      LinesConcat(ChapterLine, CompletedIn(data.completedSteps, init), CompletedOf(data.completedSteps, p.steps));
    }
  }

  /** The table of contents and the content list the same steps, in the same order. */
  lemma TocMatchesContent(data: SessionData, cat: Catalogue)
    requires Content(data, cat).Some?
    ensures |Texts(TableOfContents(data.completedSteps, cat), TocStep)| == |Texts(Content(data, cat).value, ChapterTitle)|
    ensures forall k :: 0 <= k < |Texts(Content(data, cat).value, ChapterTitle)| ==>
      exists s :: (s in CompletedIn(data.completedSteps, cat)
        && Texts(TableOfContents(data.completedSteps, cat), TocStep)[k] == TocStepLine(s)
        && Texts(Content(data, cat).value, ChapterTitle)[k] == ChapterLine(s))
  {
    TocFacts(data.completedSteps, cat);
    ContentFacts(data, cat);
    var cs := CompletedIn(data.completedSteps, cat);
    forall k | 0 <= k < |Texts(Content(data, cat).value, ChapterTitle)|
      ensures exists s :: (s in cs
        && Texts(TableOfContents(data.completedSteps, cat), TocStep)[k] == TocStepLine(s)
        && Texts(Content(data, cat).value, ChapterTitle)[k] == ChapterLine(s))
    {
      LinesAt(TocStepLine, cs, k);
      LinesAt(ChapterLine, cs, k);
      assert cs[k] in cs;
    }
  }

  lemma {:induction false} LinesAt(f: Step -> string, steps: seq<Step>, k: nat)
    requires k < |steps|
    ensures Lines(f, steps)[k] == f(steps[k])
  {
    if k < |steps| - 1 {
      LinesAt(f, steps[..|steps| - 1], k);
    }
  }

  /** With no completed step the content reads no generated content: it always succeeds and shows no chapter. */
  lemma {:induction false} ContentWithoutSteps(data: SessionData, cat: Catalogue)
    requires data.completedSteps == []
    ensures Content(data, cat).Some?
    ensures Texts(Content(data, cat).value, ChapterTitle) == []
  {
    if cat != [] {
      ContentWithoutSteps(data, cat[..|cat| - 1]);
      EmptySteps(data, cat[|cat| - 1].steps);
    }
    ContentFacts(data, cat);
    NothingCompleted(data.completedSteps, cat);
  }

  lemma {:induction false} EmptySteps(data: SessionData, steps: seq<Step>)
    requires data.completedSteps == []
    ensures StepsBlock(data, steps) == Some([])
  {
    if steps != [] {
      EmptySteps(data, steps[..|steps| - 1]);
      assert StepBlock(data, steps[|steps| - 1]) == Some([]);
      var e: seq<Flowable> := [];
      assert e + e == e;
    }
  }

  lemma {:induction false} NoneCompletedOf(completed: seq<string>, steps: seq<Step>)
    requires completed == []
    ensures CompletedOf(completed, steps) == []
  {
    if steps != [] {
      NoneCompletedOf(completed, steps[..|steps| - 1]);
    }
  }

  lemma {:induction false} NothingCompleted(completed: seq<string>, cat: Catalogue)
    requires completed == []
    ensures CompletedIn(completed, cat) == []
  {
    if cat != [] {
      NothingCompleted(completed, cat[..|cat| - 1]);
      NoneCompletedOf(completed, cat[|cat| - 1].steps);
    }
  }

  // ---------------------------------------------------------------------------
  // The document title
  // ---------------------------------------------------------------------------

  const TitleSuffix: string := "様 人生経営戦略書"

  /** `_get_document_title`: the name (ユーザー when absent) followed by the fixed suffix. */
  function DocumentTitle(data: SessionData): (r: string)
    ensures |r| == |data.name.GetOr("ユーザー")| + |TitleSuffix|
    ensures data.name.Some? ==> r[..|data.name.value|] == data.name.value
    ensures data.name.None? ==> r[..4] == "ユーザー"
    ensures |r| >= |TitleSuffix| && r[|r| - |TitleSuffix|..] == TitleSuffix
  {
    data.name.GetOr("ユーザー") + TitleSuffix
  }

  /** The PDF's title for a stored API session is the one the PDF-structure preview announces. */
  lemma TitleMatchesPreview(s: ApiStore.StoredSession, data: SessionData)
    requires data.name == Some(s.birthName)
    ensures DocumentTitle(data) == ApiStore.PreviewTitle(s)
  {
  }

  // ---------------------------------------------------------------------------
  // The generator's story
  // ---------------------------------------------------------------------------

  /** The generator object: its inputs, and the story its build steps append to. */
  class StoryBuilder {
    const data: SessionData
    const master: Catalogue
    var story: seq<Flowable>

    constructor (data: SessionData, master: Catalogue)
      ensures this.data == data && this.master == master && story == []
    {
      this.data := data;
      this.master := master;
      story := [];
    }

    /** `_add_section` */
    method AddSection(title: string, content: string)
      modifies this
      ensures story == old(story) + Section(title, content)
    {
      if content == "" {
        assert old(story) + Section(title, content) == old(story) + [];
        return;
      }
      ghost var start := story;
      story := story + TitlePara(title);
      var pieces := Split(content, "\n\n");
      AddPieces(pieces);
      story := story + [Spacer(4)];
      assert story == start + (TitlePara(title) + BodyOf(pieces) + [Spacer(4)]);
    }

    /** The loop of `_add_section` over the pieces of the content. */
    method AddPieces(pieces: seq<string>)
      modifies this
      ensures story == old(story) + BodyOf(pieces)
    {
      for i := 0 to |pieces|
        invariant story == old(story) + BodyOf(pieces[..i])
      {
        ghost var prev := story;
        var text := Strip(pieces[i]);
        if text != "" {
          story := story + [Para(Body, ReplaceNewlines(text)), Spacer(3)];
        }
        PiecesStep(pieces, i, old(story), prev, story);
      }
      assert pieces[..|pieces|] == pieces;
    }

    /** One static key of a step; `false` when its entry is not a dict. */
    method AddStaticKey(st: StaticContent, key: string, defaultTitle: string) returns (ok: bool)
      modifies this
      ensures ok == Readable(st, key)
      ensures ok ==> story == old(story) + SectionsOf(StaticItem(st, key, defaultTitle).value)
    {
      var entry := Get(st, key);
      if entry.None? {
        return true;
      }
      var e := entry.value;
      if !e.Fields? {
        return false;
      }
      var title, text := e.title.GetOr(defaultTitle), e.text.GetOr("");
      SectionsOfOne((title, text));
      AddSection(title, text);
      return true;
    }

    /** The static sections of a step, in key order; `false` as soon as an entry is not a dict. */
    method AddStaticSections(keys: seq<(string, string)>, st: StaticContent) returns (ok: bool)
      modifies this
      ensures ok == StaticItems(st, keys).Some?
      ensures ok ==> story == old(story) + SectionsOf(StaticItems(st, keys).value)
    {
      for i := 0 to |keys|
        invariant StaticItems(st, keys[..i]).Some?
        invariant story == old(story) + SectionsOf(StaticItems(st, keys[..i]).value)
      {
        ghost var prev := story;
        ok := AddStaticKey(st, keys[i].0, keys[i].1);
        StaticItemsSnoc(st, keys, i);
        if !ok {
          StaticItemsStop(st, keys, i + 1);
          return;
        }
        SectionsStep(StaticItems(st, keys[..i]).value, StaticItem(st, keys[i].0, keys[i].1).value, old(story), prev, story);
      }
      assert keys[..|keys|] == keys;
      return true;
    }

    /** One dynamic key of a step, under its fixed title, when present. */
    method AddDynamicKey(d: Dict<string, string>, key: string, title: string)
      modifies this
      ensures story == old(story) + SectionsOf(DynamicItem(d, key, title))
    {
      match Get(d, key)
      case None =>
        assert SectionsOf([]) == [];
      case Some(c) =>
        SectionsOfOne((title, c));
        AddSection(title, c);
    }

    /** The dynamic sections of a step, in key order. */
    method AddDynamicSections(keys: seq<(string, string)>, d: Dict<string, string>)
      modifies this
      ensures story == old(story) + SectionsOf(DynamicItems(d, keys))
    {
      for i := 0 to |keys|
        invariant story == old(story) + SectionsOf(DynamicItems(d, keys[..i]))
      {
        ghost var prev := story;
        AddDynamicKey(d, keys[i].0, keys[i].1);
        DynamicSectionsStep(d, keys, i, old(story), prev, story);
      }
      assert keys[..|keys|] == keys;
    }

    /** `_build_table_of_contents` */
    method BuildTableOfContents()
      modifies this
      ensures story == old(story) + TableOfContents(data.completedSteps, master)
    {
      story := story + TocHead();
      ghost var start := story;
      var cat := master;
      for i := 0 to |cat|
        invariant story == start + TocParts(data.completedSteps, cat[..i])
      {
        var p := cat[i];
        ghost var prev := story;
        story := story + [Para(TocSession, SessionLine(p))];
        AddTocSteps(p.steps);
        TocPartsStep(data.completedSteps, cat, i, start, prev, story);
      }
      assert cat[..|cat|] == cat;
      story := story + [PageBreak];
    }

    /** The inner loop of `_build_table_of_contents`: one line per completed step of a session. */
    method AddTocSteps(steps: seq<Step>)
      modifies this
      ensures story == old(story) + TocSteps(data.completedSteps, steps)
    {
      for j := 0 to |steps|
        invariant story == old(story) + TocSteps(data.completedSteps, steps[..j])
      {
        ghost var prev := story;
        if steps[j].stepId in data.completedSteps {
          story := story + [Para(TocStep, TocStepLine(steps[j]))];
        }
        TocStepsStep(data.completedSteps, steps, j, old(story), prev, story);
      }
      assert steps[..|steps|] == steps;
    }
  }

  // ---------------------------------------------------------------------------
  // Raising stops everything
  // ---------------------------------------------------------------------------

  lemma {:induction false} StaticItemsStop(st: StaticContent, keys: seq<(string, string)>, i: nat)
    requires i <= |keys| && StaticItems(st, keys[..i]).None?
    ensures StaticItems(st, keys).None?
    decreases |keys| - i
  {
    if i < |keys| {
      assert keys[..i + 1][..i] == keys[..i];
      StaticItemsStop(st, keys, i + 1);
    } else {
      assert keys[..i] == keys;
    }
  }
}
