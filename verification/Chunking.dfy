/** Splitting a knowledge document into chunks: sections by heading, paragraphs by blank lines, and a
    greedy packing of paragraphs (rag/ingestion/chunking.py). */
module Chunking {
  import opened Domain

  // ---------------------------------------------------------------------------- text and white space

  predicate IsSpace(c: char) {
    c in {' ', '\t', '\n', '\r'}
  }

  /** The text without its white space. */
  function Ink(text: string): string {
    if text == "" then ""
    else if IsSpace(text[0]) then Ink(text[1..]) else [text[0]] + Ink(text[1..])
  }

  lemma {:induction false} InkConcat(a: string, b: string)
    ensures Ink(a + b) == Ink(a) + Ink(b)
  {
    if a == "" {
      assert a + b == b;
    } else {
      assert (a + b)[1..] == a[1..] + b;
      InkConcat(a[1..], b);
    }
  }

  function StripLeft(text: string): string {
    if text != "" && IsSpace(text[0]) then StripLeft(text[1..]) else text
  }

  function StripRight(text: string): string {
    if text != "" && IsSpace(text[|text| - 1]) then StripRight(text[..|text| - 1]) else text
  }

  /** `str.strip`. */
  function Strip(text: string): string {
    StripRight(StripLeft(text))
  }

  lemma {:induction false} StripLeftInk(text: string)
    ensures Ink(StripLeft(text)) == Ink(text)
  {
    if text != "" && IsSpace(text[0]) {
      StripLeftInk(text[1..]);
    }
  }

  lemma {:induction false} StripRightInk(text: string)
    ensures Ink(StripRight(text)) == Ink(text)
    ensures StripRight(text) != "" ==> !IsSpace(StripRight(text)[|StripRight(text)| - 1])
    ensures text != "" && !IsSpace(text[0]) ==> StripRight(text) != "" && StripRight(text)[0] == text[0]
  {
    if text != "" && IsSpace(text[|text| - 1]) {
      var rest, last := text[..|text| - 1], [text[|text| - 1]];
      StripRightInk(rest);
      assert text == rest + last;
      InkConcat(rest, last);
      assert last[1..] == "";
    }
  }

  lemma {:induction false} StripLeftHead(text: string)
    ensures StripLeft(text) != "" ==> !IsSpace(StripLeft(text)[0])
  {
    if text != "" && IsSpace(text[0]) {
      StripLeftHead(text[1..]);
    }
  }

  /** Text that neither starts nor ends with white space. */
  predicate Trim(text: string) {
    text != "" && !IsSpace(text[0]) && !IsSpace(text[|text| - 1])
  }

  /** Stripping loses no ink, and what is left is trim or empty. */
  lemma StripExact(text: string)
    ensures Ink(Strip(text)) == Ink(text)
    ensures Strip(text) == "" || Trim(Strip(text))
    ensures Trim(text) ==> Strip(text) == text
    ensures Trim(text) ==> Strip("\n\n" + text) == text
  {
    StripLeftInk(text);
    StripRightInk(StripLeft(text));
    StripLeftHead(text);
    if Trim(text) {
      assert ("\n\n" + text)[1..] == "\n" + text;
      assert ("\n" + text)[1..] == text;
      assert StripLeft("\n\n" + text) == StripLeft("\n" + text) == StripLeft(text) == text;
    }
  }

  // -------------------------------------------------------------------------------- the paragraphs

  /** `text.split("\n\n")`, with `current` the part read so far. */
  function Split(text: string, current: string): seq<string> {
    if text == "" then [current]
    else if |text| >= 2 && text[..2] == "\n\n" then [current] + Split(text[2..], "")
    else Split(text[1..], current + [text[0]])
  }

  function Trimmed(parts: seq<string>): seq<string> {
    if parts == [] then []
    else (if Strip(parts[0]) == "" then [] else [Strip(parts[0])]) + Trimmed(parts[1..])
  }

  /** The stripped parts between blank lines, without the empty ones. */
  function Paragraphs(text: string): seq<string> {
    Trimmed(Split(text, ""))
  }

  /** The ink of all texts, in order. */
  function InkOf(texts: seq<string>): string {
    if texts == [] then "" else Ink(texts[0]) + InkOf(texts[1..])
  }

  lemma {:induction false} InkOfConcat(a: seq<string>, b: seq<string>)
    ensures InkOf(a + b) == InkOf(a) + InkOf(b)
  {
    if a == [] {
      assert a + b == b;
    } else {
      assert (a + b)[1..] == a[1..] + b;
      InkOfConcat(a[1..], b);
    }
  }

  lemma InkOfCons(first: string, rest: seq<string>)
    ensures InkOf([first] + rest) == Ink(first) + InkOf(rest)
  {
    assert ([first] + rest)[1..] == rest;
  }

  lemma InkHead(current: string, text: string)
    requires text != ""
    ensures Ink(current + [text[0]]) + Ink(text[1..]) == Ink(current) + Ink(text)
  {
    InkConcat(current, [text[0]]);
    InkConcat([text[0]], text[1..]);
    assert text == [text[0]] + text[1..];
  }

  lemma InkAfterBlank(text: string)
    requires |text| >= 2 && text[..2] == "\n\n"
    ensures Ink(text[2..]) == Ink(text)
  {
    GapsHaveNoInk();
    InkConcat("\n\n", text[2..]);
    assert text == "\n\n" + text[2..];
  }

  lemma {:induction false} SplitInk(text: string, current: string)
    ensures InkOf(Split(text, current)) == Ink(current) + Ink(text)
    decreases |text|
  {
    if text == "" {
      InkOfCons(current, []);
      assert [current] == [current] + [];
    } else if |text| >= 2 && text[..2] == "\n\n" {
      SplitInk(text[2..], "");
      InkAfterBlank(text);
      InkOfCons(current, Split(text[2..], ""));
    } else {
      SplitInk(text[1..], current + [text[0]]);
      InkHead(current, text);
    }
  }

  lemma {:induction false} TrimmedExact(parts: seq<string>)
    ensures InkOf(Trimmed(parts)) == InkOf(parts)
    ensures forall p | p in Trimmed(parts) :: Trim(p)
  {
    if parts != [] {
      StripExact(parts[0]);
      TrimmedExact(parts[1..]);
      var head := if Strip(parts[0]) == "" then [] else [Strip(parts[0])];
      InkOfConcat(head, Trimmed(parts[1..]));
      if head != [] {
        assert head[1..] == [];
      }
    }
  }

  /** The paragraphs hold all the ink of the text, in order, and each is trim. */
  lemma ParagraphsExact(text: string)
    ensures InkOf(Paragraphs(text)) == Ink(text)
    ensures forall p | p in Paragraphs(text) :: Trim(p)
  {
    SplitInk(text, "");
    TrimmedExact(Split(text, ""));
  }

  // ---------------------------------------------------------------------------------- the packing

  /** Paragraphs with blank lines between them. */
  function Joined(group: seq<string>): string {
    if group == [] then ""
    else if |group| == 1 then group[0]
    else Joined(group[..|group| - 1]) + "\n\n" + group[|group| - 1]
  }

  function Flat(groups: seq<seq<string>>): seq<string> {
    if groups == [] then [] else groups[0] + Flat(groups[1..])
  }

  /** A chunk fits, or is one paragraph. */
  predicate Fits(group: seq<string>, max: int) {
    |group| == 1 || (|group| > 1 && |Joined(group)| <= max)
  }

  /** The greedy packing of `rest` behind the group in hand. */
  function Greedy(group: seq<string>, rest: seq<string>, max: int): seq<seq<string>>
    decreases rest
  {
    if rest == [] then if group == [] then [] else [group]
    else if group != [] && |Joined(group)| + |rest[0]| + 2 > max then [group] + Greedy([rest[0]], rest[1..], max)
    else Greedy(group + [rest[0]], rest[1..], max)
  }

  lemma {:induction false} FlatConcat(a: seq<seq<string>>, b: seq<seq<string>>)
    ensures Flat(a + b) == Flat(a) + Flat(b)
  {
    if a == [] {
      assert a + b == b;
    } else {
      assert (a + b)[1..] == a[1..] + b;
      FlatConcat(a[1..], b);
    }
  }

  lemma JoinedAppend(group: seq<string>, p: string)
    requires group != []
    ensures Joined(group + [p]) == Joined(group) + "\n\n" + p
  {
    assert (group + [p])[..|group|] == group;
  }

  lemma FlatCons(group: seq<string>, groups: seq<seq<string>>)
    ensures Flat([group] + groups) == group + Flat(groups)
  {
    assert ([group] + groups)[1..] == groups;
  }

  lemma FlatOne(group: seq<string>)
    ensures Flat([group]) == group
  {
    assert [group][1..] == [];
  }

  ghost predicate AllFit(groups: seq<seq<string>>, max: int) {
    forall i | 0 <= i < |groups| :: Fits(groups[i], max)
  }

  lemma AppendFits(group: seq<string>, p: string, max: int)
    requires group == [] || |Joined(group)| + |p| + 2 <= max
    ensures Fits(group + [p], max)
  {
    if group != [] {
      JoinedAppend(group, p);
    }
  }

  lemma ConsFits(group: seq<string>, groups: seq<seq<string>>, max: int)
    requires Fits(group, max) && AllFit(groups, max)
    ensures AllFit([group] + groups, max)
  {
  }

  lemma MoveOne(group: seq<string>, rest: seq<string>)
    requires rest != []
    ensures group + [rest[0]] + rest[1..] == group + rest == group + ([rest[0]] + rest[1..])
  {
  }

  /** The packing keeps the paragraphs and their order, and every chunk fits or is one paragraph. */
  lemma {:induction false} GreedyExact(group: seq<string>, rest: seq<string>, max: int)
    requires group == [] || Fits(group, max)
    ensures Flat(Greedy(group, rest, max)) == group + rest
    ensures AllFit(Greedy(group, rest, max), max)
    decreases rest
  {
    if rest == [] {
      FlatOne(group);
    } else {
      MoveOne(group, rest);
      if group != [] && |Joined(group)| + |rest[0]| + 2 > max {
        GreedyExact([rest[0]], rest[1..], max);
        FlatCons(group, Greedy([rest[0]], rest[1..], max));
        ConsFits(group, Greedy([rest[0]], rest[1..], max), max);
      } else {
        AppendFits(group, rest[0], max);
        GreedyExact(group + [rest[0]], rest[1..], max);
      }
    }
  }

  lemma {:induction false} JoinedAtLeast(before: seq<string>, group: seq<string>, after: seq<string>)
    requires group != []
    ensures |Joined(before + group + after)| >= |Joined(group)|
    decreases |before| + |after|
  {
    var all := before + group + after;
    if after != [] {
      var front := after[..|after| - 1];
      assert all == before + group + front + [after[|after| - 1]];
      JoinedAppend(before + group + front, after[|after| - 1]);
      JoinedAtLeast(before, group, front);
    } else if before != [] {
      assert all == before + group;
      JoinedPrepend(before[0], before[1..] + group);
      assert [before[0]] + (before[1..] + group) == before + group;
      assert before[1..] + group + [] == before[1..] + group;
      JoinedAtLeast(before[1..], group, []);
    } else {
      assert all == group;
    }
  }

  lemma {:induction false} JoinedPrepend(p: string, group: seq<string>)
    requires group != []
    ensures |Joined([p] + group)| == |p| + 2 + |Joined(group)|
  {
    var last := group[|group| - 1];
    if |group| == 1 {
      JoinedAppend([p], last);
      assert [p] + group == [p] + [last];
    } else {
      JoinedPrepend(p, group[..|group| - 1]);
      JoinedAppend([p] + group[..|group| - 1], last);
      assert [p] + group == [p] + group[..|group| - 1] + [last];
    }
  }

  /** A chunk that reaches over a group that was closed, and over the paragraph that closed it, does
      not fit. */
  lemma TooLong(before: seq<string>, group: seq<string>, p: string, after: seq<string>, max: int)
    requires group != [] && |Joined(group)| + |p| + 2 > max
    ensures !Fits(before + (group + [p]) + after, max)
  {
    JoinedAppend(group, p);
    JoinedAtLeast(before, group + [p], after);
  }

  /** The first chunk of any such partition ends before the paragraph that closed the group. */
  lemma FirstEnds(before: seq<string>, group: seq<string>, p: string, more: seq<string>, max: int, other: seq<seq<string>>)
    returns (between: seq<string>)
    requires group != [] && |Joined(group)| + |p| + 2 > max
    requires other != [] && Flat(other) == before + group + ([p] + more) && AllFit(other, max)
    ensures Flat(other[1..]) == between + [p] + more
  {
    var all, first := before + group + ([p] + more), other[0];
    assert all == first + Flat(other[1..]);
    assert all[..|first|] == first;
    if |first| > |before + group| {
      assert all[..|first|] == before + (group + [p]) + more[..|first| - |before + group| - 1];
      TooLong(before, group, p, more[..|first| - |before + group| - 1], max);
      assert false;
    }
    between := (before + group)[|first|..];
    assert Flat(other[1..]) == all[|first|..] == between + [p] + more;
  }

  /** No partition of the paragraphs into consecutive chunks that fit, or are one paragraph, has fewer
      chunks than the greedy one: not even one that may begin earlier. */
  lemma {:induction false} GreedyOptimal(before: seq<string>, group: seq<string>, rest: seq<string>, max: int, other: seq<seq<string>>)
    requires group != [] && Flat(other) == before + group + rest
    requires AllFit(other, max)
    ensures |Greedy(group, rest, max)| <= |other|
    decreases rest
  {
    assert other != [];
    if rest != [] {
      var p, more := rest[0], rest[1..];
      assert rest == [p] + more;
      if |Joined(group)| + |p| + 2 > max {
        var between := FirstEnds(before, group, p, more, max, other);
        GreedyOptimal(between, [p], more, max, other[1..]);
      } else {
        assert before + group + rest == before + (group + [p]) + more;
        GreedyOptimal(before, group + [p], more, max, other);
      }
    }
  }

  // --------------------------------------------------------------------------------- the document

  datatype Section = Section(title: string, lines: seq<string>)

  predicate IsSectionHeading(line: string) { |line| >= 3 && line[..3] == "## " }

  predicate IsTitle(line: string) { |line| >= 2 && line[..2] == "# " }

  /** The lines that are not headings. */
  function Body(lines: seq<string>): seq<string> {
    if lines == [] then []
    else if IsSectionHeading(lines[0]) || IsTitle(lines[0]) then Body(lines[1..])
    else [lines[0]] + Body(lines[1..])
  }

  /** The text before the first section heading. */
  function Block(lines: seq<string>): seq<string> {
    if lines == [] || IsSectionHeading(lines[0]) then []
    else if IsTitle(lines[0]) then Block(lines[1..])
    else [lines[0]] + Block(lines[1..])
  }

  /** The lines from the first section heading on. */
  function FromHeading(lines: seq<string>): (rest: seq<string>)
    ensures |rest| <= |lines| && (rest != [] ==> IsSectionHeading(rest[0]))
  {
    if lines == [] || IsSectionHeading(lines[0]) then lines else FromHeading(lines[1..])
  }

  /** A section, unless there is nothing in it. */
  function Closed(title: string, lines: seq<string>): seq<Section> {
    if lines == [] then [] else [Section(title, lines)]
  }

  /** The sections of lines that stand under `title`: its own lines up to the next heading, then, for
      each heading, the lines that stand under it. */
  function SectionsUnder(title: string, lines: seq<string>): seq<Section>
    decreases |lines|, 1
  {
    Closed(title, Block(lines)) + Later(FromHeading(lines))
  }

  function Later(rest: seq<string>): seq<Section>
    decreases |rest|, 0
  {
    if rest != [] && IsSectionHeading(rest[0]) then SectionsUnder(Strip(rest[0][3..]), rest[1..]) else []
  }

  /** The sections of a document. */
  function DocumentSections(lines: seq<string>): seq<Section> {
    SectionsUnder("overview", lines)
  }

  function LinesOf(sections: seq<Section>): seq<string> {
    if sections == [] then [] else sections[0].lines + LinesOf(sections[1..])
  }

  lemma {:induction false} LinesConcat(a: seq<Section>, b: seq<Section>)
    ensures LinesOf(a + b) == LinesOf(a) + LinesOf(b)
  {
    if a == [] {
      assert a + b == b;
    } else {
      assert (a + b)[1..] == a[1..] + b;
      LinesConcat(a[1..], b);
    }
  }

  lemma LinesOfOne(s: Section)
    ensures LinesOf([s]) == s.lines
  {
    assert [s][1..] == [];
  }

  lemma LinesOfClosed(title: string, lines: seq<string>)
    ensures LinesOf(Closed(title, lines)) == lines
  {
    if lines != [] {
      assert Closed(title, lines)[1..] == [];
    }
  }

  lemma {:induction false} BodySplits(lines: seq<string>)
    ensures Body(lines) == Block(lines) + Body(FromHeading(lines))
  {
    if lines != [] && !IsSectionHeading(lines[0]) {
      BodySplits(lines[1..]);
    }
  }

  /** Every line that is not a heading is in exactly one section, once, and in order; and no section is
      empty. */
  lemma {:induction false} SectionsExact(title: string, lines: seq<string>)
    ensures LinesOf(SectionsUnder(title, lines)) == Body(lines)
    ensures forall s | s in SectionsUnder(title, lines) :: s.lines != []
    decreases |lines|
  {
    var block, rest := Block(lines), FromHeading(lines);
    BodySplits(lines);
    LinesOfClosed(title, block);
    LinesConcat(Closed(title, block), Later(rest));
    if rest != [] {
      SectionsExact(Strip(rest[0][3..]), rest[1..]);
    }
  }

  /** What is still to come when `current` stands under `title` and `rest` is unread. */
  function ToCome(title: string, current: seq<string>, rest: seq<string>): seq<Section> {
    Closed(title, current + Block(rest)) + Later(FromHeading(rest))
  }

  lemma StartToCome(title: string, lines: seq<string>)
    ensures SectionsUnder(title, lines) == [] + ToCome(title, [], lines)
  {
    assert [] + Block(lines) == Block(lines);
  }

  lemma EndToCome(title: string, current: seq<string>)
    ensures ToCome(title, current, []) == Closed(title, current)
  {
    assert current + [] == current;
  }

  /** A heading closes the section in hand; any other line but a title joins it. */
  lemma NextToCome(sections: seq<Section>, title: string, current: seq<string>, rest: seq<string>)
    requires rest != []
    ensures sections + ToCome(title, current, rest)
         == if IsSectionHeading(rest[0]) then (sections + Closed(title, current)) + ToCome(Strip(rest[0][3..]), [], rest[1..])
            else if IsTitle(rest[0]) then sections + ToCome(title, current, rest[1..])
            else sections + ToCome(title, current + [rest[0]], rest[1..])
  {
    if IsSectionHeading(rest[0]) {
      assert current + Block(rest) == current;
      StartToCome(Strip(rest[0][3..]), rest[1..]);
    } else if !IsTitle(rest[0]) {
      assert current + Block(rest) == (current + [rest[0]]) + Block(rest[1..]);
    }
  }

  /** `_sections` before the slugs: the loop finds the sections of the document. */
  method Sections(lines: seq<string>) returns (sections: seq<Section>)
    ensures sections == DocumentSections(lines)
  {
    sections := [];
    var title, current := "overview", [];
    StartToCome(title, lines);
    assert lines[0..] == lines;
    ghost var all := DocumentSections(lines);
    for i := 0 to |lines|
      invariant all == sections + ToCome(title, current, lines[i..])
    {
      var line := lines[i];
      assert lines[i..][1..] == lines[i + 1..];
      NextToCome(sections, title, current, lines[i..]);
      if IsSectionHeading(line) {
        ghost var closed := sections + Closed(title, current);
        if current != [] {
          sections := sections + [Section(title, current)];
        }
        assert sections == closed;
        title, current := Strip(line[3..]), [];
      } else if !IsTitle(line) {
        current := current + [line];
      }
    }
    assert lines[|lines|..] == [];
    EndToCome(title, current);
    if current != [] {
      sections := sections + [Section(title, current)];
    }
  }

  /** `"\n".join(lines)`. */
  function JoinLines(lines: seq<string>): string {
    if lines == [] then ""
    else if |lines| == 1 then lines[0]
    else JoinLines(lines[..|lines| - 1]) + "\n" + lines[|lines| - 1]
  }

  lemma InkOfAppend(texts: seq<string>, last: string)
    ensures InkOf(texts + [last]) == InkOf(texts) + Ink(last)
  {
    InkOfConcat(texts, [last]);
    assert [last][1..] == [];
  }

  /** Text joined by white space has the ink of its parts. */
  lemma InkJoin(front: string, gap: string, last: string)
    requires Ink(gap) == ""
    ensures Ink(front + gap + last) == Ink(front) + Ink(last)
  {
    InkConcat(front + gap, last);
    InkConcat(front, gap);
  }

  lemma GapsHaveNoInk()
    ensures Ink("\n") == "" && Ink("\n\n") == ""
  {
    assert "\n\n"[1..] == "\n" && "\n"[1..] == "";
  }

  lemma FrontLast(texts: seq<string>)
    requires texts != []
    ensures texts == texts[..|texts| - 1] + [texts[|texts| - 1]]
  {
  }

  lemma {:induction false} JoinLinesInk(lines: seq<string>)
    ensures Ink(JoinLines(lines)) == InkOf(lines)
  {
    if lines != [] {
      var front, last := lines[..|lines| - 1], lines[|lines| - 1];
      FrontLast(lines);
      InkOfAppend(front, last);
      if |lines| > 1 {
        JoinLinesInk(front);
        GapsHaveNoInk();
        InkJoin(JoinLines(front), "\n", last);
      } else {
        assert front == [];
      }
    }
  }

  datatype ChunkPiece = ChunkPiece(section: string, index: nat, content: string)

  /** The chunks of one section, numbered from zero. */
  function PiecesOf(section: string, groups: seq<seq<string>>): seq<ChunkPiece> {
    seq(|groups|, i requires 0 <= i < |groups| => ChunkPiece(section, i, Joined(groups[i])))
  }

  /** What a section of a document becomes. */
  function SectionPieces(slug: string -> string, s: Section, max: int): seq<ChunkPiece> {
    PiecesOf(slug(s.title), Greedy([], Paragraphs(JoinLines(s.lines)), max))
  }

  function DocumentPieces(slug: string -> string, sections: seq<Section>, max: int): seq<ChunkPiece> {
    if sections == [] then []
    else DocumentPieces(slug, sections[..|sections| - 1], max) + SectionPieces(slug, sections[|sections| - 1], max)
  }

  lemma {:induction false} JoinedTrim(group: seq<string>)
    requires group != [] && forall p | p in group :: Trim(p)
    ensures Trim(Joined(group))
  {
    if |group| > 1 {
      JoinedTrim(group[..|group| - 1]);
      var front, last := Joined(group[..|group| - 1]), group[|group| - 1];
      assert last in group;
      assert (front + "\n\n" + last)[0] == front[0];
    } else {
      assert group[0] in group;
    }
  }

  /** The inner loop of `chunk_document`. */
  method Pack(section: string, paragraphs: seq<string>, max: int) returns (pieces: seq<ChunkPiece>)
    requires forall p | p in paragraphs :: Trim(p)
    ensures pieces == PiecesOf(section, Greedy([], paragraphs, max))
  {
    pieces := [];
    var current, index := "", 0;
    ghost var done, group := [], [];
    for i := 0 to |paragraphs|
      invariant index == |done| && pieces == PiecesOf(section, done)
      invariant current == Joined(group) && (current == "" <==> group == [])
      invariant forall p | p in group :: Trim(p)
      invariant Greedy([], paragraphs, max) == done + Greedy(group, paragraphs[i..], max)
    {
      var paragraph := paragraphs[i];
      assert paragraph in paragraphs && paragraphs[i..][1..] == paragraphs[i + 1..];
      GreedyNext(done, group, paragraphs[i..], max);
      if current != "" && |current| + |paragraph| + 2 > max {
        PiecesAppend(section, done, group);
        pieces := pieces + [ChunkPiece(section, index, current)];
        index, current := index + 1, "";
        done, group := done + [group], [];
      }
      NextCurrent(group, paragraph);
      current := Strip(current + "\n\n" + paragraph);
      group := group + [paragraph];
    }
    assert paragraphs[|paragraphs|..] == [];
    if current != "" {
      PiecesAppend(section, done, group);
      pieces := pieces + [ChunkPiece(section, index, current)];
    }
  }

  lemma GreedyNext(done: seq<seq<string>>, group: seq<string>, rest: seq<string>, max: int)
    requires rest != []
    ensures group != [] && |Joined(group)| + |rest[0]| + 2 > max ==>
              done + Greedy(group, rest, max) == done + [group] + Greedy([] + [rest[0]], rest[1..], max)
    ensures group == [] || |Joined(group)| + |rest[0]| + 2 <= max ==>
              done + Greedy(group, rest, max) == done + Greedy(group + [rest[0]], rest[1..], max)
  {
    assert [] + [rest[0]] == [rest[0]];
  }

  lemma PiecesAppend(section: string, groups: seq<seq<string>>, group: seq<string>)
    ensures PiecesOf(section, groups + [group]) == PiecesOf(section, groups) + [ChunkPiece(section, |groups|, Joined(group))]
  {
  }

  lemma NextCurrent(group: seq<string>, p: string)
    requires Trim(p) && forall q | q in group :: Trim(q)
    ensures Strip(Joined(group) + "\n\n" + p) == Joined(group + [p])
    ensures Joined(group + [p]) != ""
  {
    if group == [] {
      assert "" + "\n\n" + p == "\n\n" + p;
      assert group + [p] == [p];
      StripExact(p);
    } else {
      JoinedTrim(group);
      JoinedAppend(group, p);
      var text := Joined(group) + "\n\n" + p;
      assert text[0] == Joined(group)[0] && text[|text| - 1] == p[|p| - 1];
      StripExact(text);
    }
  }

  /** One turn of the outer loop. */
  method ChunkSection(s: Section, slug: string -> string, max: int) returns (pieces: seq<ChunkPiece>)
    ensures pieces == SectionPieces(slug, s, max)
  {
    var paragraphs := Paragraphs(JoinLines(s.lines));
    ParagraphsExact(JoinLines(s.lines));
    pieces := Pack(slug(s.title), paragraphs, max);
  }

  /** `chunk_document`; `slug` is `slugify`. */
  method ChunkDocument(lines: seq<string>, slug: string -> string, max: int) returns (pieces: seq<ChunkPiece>)
    ensures pieces == DocumentPieces(slug, DocumentSections(lines), max)
    ensures InkOf(Contents(pieces)) == InkOf(Body(lines))
  {
    var all := Sections(lines);
    pieces := [];
    for i := 0 to |all|
      invariant pieces == DocumentPieces(slug, all[..i], max)
    {
      var packed := ChunkSection(all[i], slug, max);
      DocumentMore(slug, all[..i], all[i], max);
      assert all[..i + 1] == all[..i] + [all[i]];
      pieces := pieces + packed;
    }
    assert all[..|all|] == all;
    ChunksKeepTheInk(lines, slug, max);
  }

  /** The chunks hold the ink of the lines that are no headings, in order. */
  lemma ChunksKeepTheInk(lines: seq<string>, slug: string -> string, max: int)
    ensures InkOf(Contents(DocumentPieces(slug, DocumentSections(lines), max))) == InkOf(Body(lines))
  {
    DocumentInk(slug, DocumentSections(lines), max);
    SectionsExact("overview", lines);
  }

  function Contents(pieces: seq<ChunkPiece>): seq<string> {
    seq(|pieces|, i requires 0 <= i < |pieces| => pieces[i].content)
  }

  lemma {:induction false} JoinedInk(group: seq<string>)
    ensures Ink(Joined(group)) == InkOf(group)
  {
    if group != [] {
      var front, last := group[..|group| - 1], group[|group| - 1];
      FrontLast(group);
      InkOfAppend(front, last);
      if |group| > 1 {
        JoinedInk(front);
        GapsHaveNoInk();
        InkJoin(Joined(front), "\n\n", last);
      } else {
        assert front == [];
      }
    }
  }

  lemma {:induction false} PiecesInk(section: string, groups: seq<seq<string>>)
    ensures InkOf(Contents(PiecesOf(section, groups))) == InkOf(Flat(groups))
  {
    if groups == [] {
      assert Contents(PiecesOf(section, groups)) == [];
    } else {
      var front, last := groups[..|groups| - 1], groups[|groups| - 1];
      PiecesInk(section, front);
      JoinedInk(last);
      assert groups == front + [last];
      FlatConcat(front, [last]);
      FlatOne(last);
      InkOfConcat(Flat(front), last);
      assert Contents(PiecesOf(section, groups)) == Contents(PiecesOf(section, front)) + [Joined(last)];
      InkOfAppend(Contents(PiecesOf(section, front)), Joined(last));
    }
  }

  lemma SectionInk(slug: string -> string, s: Section, max: int)
    ensures InkOf(Contents(SectionPieces(slug, s, max))) == InkOf(s.lines)
  {
    var text := JoinLines(s.lines);
    JoinLinesInk(s.lines);
    ParagraphsExact(text);
    GreedyExact([], Paragraphs(text), max);
    PiecesInk(slug(s.title), Greedy([], Paragraphs(text), max));
    assert [] + Paragraphs(text) == Paragraphs(text);
  }

  lemma ContentsInk(before: seq<ChunkPiece>, last: seq<ChunkPiece>)
    ensures InkOf(Contents(before + last)) == InkOf(Contents(before)) + InkOf(Contents(last))
  {
    assert Contents(before + last) == Contents(before) + Contents(last);
    InkOfConcat(Contents(before), Contents(last));
  }

  lemma DocumentInkStep(slug: string -> string, front: seq<Section>, s: Section, max: int)
    requires InkOf(Contents(DocumentPieces(slug, front, max))) == InkOf(LinesOf(front))
    ensures InkOf(Contents(DocumentPieces(slug, front + [s], max))) == InkOf(LinesOf(front + [s]))
  {
    DocumentMore(slug, front, s, max);
    SectionInk(slug, s, max);
    ContentsInk(DocumentPieces(slug, front, max), SectionPieces(slug, s, max));
    LinesConcat(front, [s]);
    LinesOfOne(s);
    InkOfConcat(LinesOf(front), s.lines);
  }

  /** No ink of the document is lost, repeated or reordered: the chunks hold exactly that of its
      lines other than headings. */
  lemma {:induction false} DocumentInk(slug: string -> string, sections: seq<Section>, max: int)
    ensures InkOf(Contents(DocumentPieces(slug, sections, max))) == InkOf(LinesOf(sections))
  {
    if sections != [] {
      var front, s := sections[..|sections| - 1], sections[|sections| - 1];
      assert sections == front + [s];
      DocumentInk(slug, front, max);
      DocumentInkStep(slug, front, s, max);
    }
  }

  /** The packing of a section: lossless, within the bound, and of the least number of chunks. */
  lemma SectionIsPackedBest(text: string, max: int, other: seq<seq<string>>)
    requires Flat(other) == Paragraphs(text) && AllFit(other, max)
    ensures var g := Greedy([], Paragraphs(text), max);
            && Flat(g) == Paragraphs(text) && AllFit(g, max)
            && |g| <= |other|
  {
    var p := Paragraphs(text);
    GreedyExact([], p, max);
    assert [] + p == p;
    if p != [] {
      assert [] + [p[0]] == [p[0]] && p == [] + [p[0]] + p[1..];
      GreedyOptimal([], [p[0]], p[1..], max, other);
    }
  }

  predicate SameId(p: ChunkPiece, q: ChunkPiece) {
    p.section == q.section && p.index == q.index
  }

  /** A chunk id is the document with the section's slug and the index in the section. */
  predicate DistinctPieces(pieces: seq<ChunkPiece>) {
    forall i, j | 0 <= i < j < |pieces| :: !SameId(pieces[i], pieces[j])
  }

  /** The section has more than white space. */
  predicate HasText(s: Section) {
    Ink(JoinLines(s.lines)) != ""
  }

  /** What a section calls its chunks, if it has any. */
  function NameOf(slug: string -> string, s: Section): Option<string> {
    if HasText(s) then Some(slug(s.title)) else None
  }

  function Names(slug: string -> string, sections: seq<Section>): seq<Option<string>> {
    seq(|sections|, i requires 0 <= i < |sections| => NameOf(slug, sections[i]))
  }

  predicate Clash(a: Option<string>, b: Option<string>) {
    a.Some? && a == b
  }

  /** No two sections with text share a slug. */
  ghost predicate NamesApart(names: seq<Option<string>>) {
    forall i, j | 0 <= i < j < |names| :: !Clash(names[i], names[j])
  }

  lemma GreedyEmpty(group: seq<string>, rest: seq<string>, max: int)
    ensures Greedy(group, rest, max) == [] <==> group + rest == []
    decreases rest
  {
    if rest != [] && (group == [] || |Joined(group)| + |rest[0]| + 2 <= max) {
      GreedyEmpty(group + [rest[0]], rest[1..], max);
      assert group + [rest[0]] != [];
    }
  }

  /** A section gives chunks exactly when it has text. */
  lemma PiecesIffText(slug: string -> string, s: Section, max: int)
    ensures SectionPieces(slug, s, max) != [] <==> HasText(s)
  {
    var text := JoinLines(s.lines);
    var paragraphs := Paragraphs(text);
    GreedyEmpty([], paragraphs, max);
    assert [] + paragraphs == paragraphs;
    ParagraphsExact(text);
    if paragraphs != [] {
      assert paragraphs[0] in paragraphs;
      assert Ink(paragraphs[0]) != "";
    }
  }

  lemma DistinctConcat(p: seq<ChunkPiece>, q: seq<ChunkPiece>)
    ensures DistinctPieces(p + q) <==>
            DistinctPieces(p) && DistinctPieces(q) && Apart(p, q)
  {
    var all := p + q;
    assert forall i | 0 <= i < |p| :: all[i] == p[i];
    assert forall j | 0 <= j < |q| :: all[|p| + j] == q[j];
    if DistinctPieces(all) {
      forall i, j | 0 <= i < |p| && 0 <= j < |q| ensures !SameId(p[i], q[j]) {
        assert !SameId(all[i], all[|p| + j]);
      }
      forall i, j | 0 <= i < j < |q| ensures !SameId(q[i], q[j]) {
        assert !SameId(all[|p| + i], all[|p| + j]);
      }
    }
  }

  predicate From(p: ChunkPiece, name: Option<string>) {
    name == Some(p.section)
  }

  ghost predicate Origin(p: ChunkPiece, names: seq<Option<string>>) {
    exists i :: 0 <= i < |names| && From(p, names[i])
  }

  ghost predicate FirstOf(pieces: seq<ChunkPiece>, name: Option<string>) {
    exists k :: 0 <= k < |pieces| && From(pieces[k], name) && pieces[k].index == 0
  }

  /** The chunks come from sections with text, and each of these gives one of index zero. */
  ghost predicate MadeFrom(pieces: seq<ChunkPiece>, names: seq<Option<string>>) {
    && (forall k | 0 <= k < |pieces| :: Origin(pieces[k], names))
    && forall i | 0 <= i < |names| && names[i].Some? :: FirstOf(pieces, names[i])
  }

  lemma PiecesMadeFrom(section: string, groups: seq<seq<string>>)
    requires groups != []
    ensures MadeFrom(PiecesOf(section, groups), [Some(section)])
  {
    var pieces := PiecesOf(section, groups);
    forall k | 0 <= k < |pieces| ensures Origin(pieces[k], [Some(section)]) {
      assert From(pieces[k], [Some(section)][0]);
    }
    assert From(pieces[0], Some(section)) && pieces[0].index == 0;
  }

  lemma SectionMadeFrom(slug: string -> string, s: Section, max: int)
    ensures MadeFrom(SectionPieces(slug, s, max), [NameOf(slug, s)])
    ensures DistinctPieces(SectionPieces(slug, s, max))
  {
    var groups := Greedy([], Paragraphs(JoinLines(s.lines)), max);
    PiecesIffText(slug, s, max);
    if groups != [] {
      PiecesMadeFrom(slug(s.title), groups);
    }
  }

  lemma OriginMore(p: ChunkPiece, front: seq<Option<string>>, name: Option<string>)
    ensures Origin(p, front + [name]) <==> Origin(p, front) || From(p, name)
  {
    var all := front + [name];
    assert all[|front|] == name && forall i | 0 <= i < |front| :: all[i] == front[i];
  }

  lemma FirstOfMore(p: seq<ChunkPiece>, q: seq<ChunkPiece>, name: Option<string>)
    ensures FirstOf(p, name) || FirstOf(q, name) ==> FirstOf(p + q, name)
  {
    if k :| 0 <= k < |p| && From(p[k], name) && p[k].index == 0 {
      assert (p + q)[k] == p[k];
    } else if k :| 0 <= k < |q| && From(q[k], name) && q[k].index == 0 {
      assert (p + q)[|p| + k] == q[k];
    }
  }

  lemma MadeFromMore(p: seq<ChunkPiece>, q: seq<ChunkPiece>, front: seq<Option<string>>, name: Option<string>)
    requires MadeFrom(p, front) && MadeFrom(q, [name])
    ensures MadeFrom(p + q, front + [name])
  {
    var pieces, names := p + q, front + [name];
    forall k | 0 <= k < |pieces| ensures Origin(pieces[k], names) {
      OriginMore(pieces[k], front, name);
      if k >= |p| {
        assert Origin(q[k - |p|], [name]);
      }
    }
    forall i | 0 <= i < |names| && names[i].Some? ensures FirstOf(pieces, names[i]) {
      FirstOfMore(p, q, names[i]);
      assert i < |front| ==> names[i] == front[i];
      assert i == |front| ==> names[i] == [name][0];
    }
  }

  lemma NamesMore(slug: string -> string, front: seq<Section>, s: Section)
    ensures Names(slug, front + [s]) == Names(slug, front) + [NameOf(slug, s)]
  {
  }

  lemma {:induction false} DocumentMadeFrom(slug: string -> string, sections: seq<Section>, max: int)
    ensures MadeFrom(DocumentPieces(slug, sections, max), Names(slug, sections))
  {
    if sections != [] {
      var front, s := sections[..|sections| - 1], sections[|sections| - 1];
      DocumentMadeFrom(slug, front, max);
      SectionMadeFrom(slug, s, max);
      MadeFromMore(DocumentPieces(slug, front, max), SectionPieces(slug, s, max), Names(slug, front), NameOf(slug, s));
      NamesMore(slug, front, s);
      assert sections == front + [s];
    }
  }

  ghost predicate Apart(p: seq<ChunkPiece>, q: seq<ChunkPiece>) {
    forall i, j | 0 <= i < |p| && 0 <= j < |q| :: !SameId(p[i], q[j])
  }

  ghost predicate NoClash(front: seq<Option<string>>, name: Option<string>) {
    forall i | 0 <= i < |front| :: !Clash(front[i], name)
  }

  lemma CrossExact(p: seq<ChunkPiece>, q: seq<ChunkPiece>, front: seq<Option<string>>, name: Option<string>)
    requires MadeFrom(p, front) && MadeFrom(q, [name])
    ensures Apart(p, q) <==> NoClash(front, name)
  {
    if i :| 0 <= i < |front| && Clash(front[i], name) {
      assert FirstOf(p, front[i]);
      var k :| 0 <= k < |p| && From(p[k], front[i]) && p[k].index == 0;
      assert FirstOf(q, [name][0]);
      var j :| 0 <= j < |q| && From(q[j], name) && q[j].index == 0;
      assert SameId(p[k], q[j]);
    } else {
      forall i, j | 0 <= i < |p| && 0 <= j < |q| ensures !SameId(p[i], q[j]) {
        assert Origin(p[i], front) && Origin(q[j], [name]);
        var k :| 0 <= k < |front| && From(p[i], front[k]);
        assert From(q[j], name) && !Clash(front[k], name);
      }
    }
  }

  lemma NamesApartMore(front: seq<Option<string>>, name: Option<string>)
    ensures NamesApart(front + [name]) <==> NamesApart(front) && NoClash(front, name)
  {
    var all := front + [name];
    assert all[|front|] == name && forall i | 0 <= i < |front| :: all[i] == front[i];
    if NamesApart(all) {
      forall i | 0 <= i < |front| ensures !Clash(front[i], name) {
        assert !Clash(all[i], all[|front|]);
      }
      forall i, j | 0 <= i < j < |front| ensures !Clash(front[i], front[j]) {
        assert !Clash(all[i], all[j]);
      }
    }
  }

  lemma OneMoreSection(p: seq<ChunkPiece>, q: seq<ChunkPiece>, front: seq<Option<string>>, name: Option<string>)
    requires MadeFrom(p, front) && MadeFrom(q, [name]) && DistinctPieces(q)
    ensures DistinctPieces(p + q) <==> DistinctPieces(p) && NoClash(front, name)
    ensures NamesApart(front + [name]) <==> NamesApart(front) && NoClash(front, name)
  {
    CrossExact(p, q, front, name);
    DistinctConcat(p, q);
    NamesApartMore(front, name);
  }

  lemma DocumentMore(slug: string -> string, front: seq<Section>, s: Section, max: int)
    ensures DocumentPieces(slug, front + [s], max) == DocumentPieces(slug, front, max) + SectionPieces(slug, s, max)
  {
    assert (front + [s])[..|front|] == front;
  }

  lemma ChunkIdsStep(slug: string -> string, front: seq<Section>, s: Section, max: int)
    requires DistinctPieces(DocumentPieces(slug, front, max)) <==> NamesApart(Names(slug, front))
    ensures DistinctPieces(DocumentPieces(slug, front + [s], max)) <==> NamesApart(Names(slug, front + [s]))
  {
    var p, q := DocumentPieces(slug, front, max), SectionPieces(slug, s, max);
    assert DistinctPieces(p + q) <==> NamesApart(Names(slug, front) + [NameOf(slug, s)]) by {
      DocumentMadeFrom(slug, front, max);
      SectionMadeFrom(slug, s, max);
      OneMoreSection(p, q, Names(slug, front), NameOf(slug, s));
    }
    DocumentMore(slug, front, s, max);
    NamesMore(slug, front, s);
  }

  /** The chunk ids of a document are distinct exactly when no two sections with text have titles of
      one slug; otherwise the snapshot store refuses the corpus. */
  lemma {:induction false} ChunkIdsExact(slug: string -> string, sections: seq<Section>, max: int)
    ensures DistinctPieces(DocumentPieces(slug, sections, max)) <==> NamesApart(Names(slug, sections))
  {
    if sections == [] {
      assert |DocumentPieces(slug, sections, max)| == |Names(slug, sections)| == 0;
    } else {
      var front, s := sections[..|sections| - 1], sections[|sections| - 1];
      assert sections == front + [s];
      ChunkIdsExact(slug, front, max);
      ChunkIdsStep(slug, front, s, max);
    }
  }

  /** So two sections of one title, both with text, are enough to have a document refused. */
  lemma SameTitleCollides(slug: string -> string, a: Section, b: Section, max: int)
    requires a.title == b.title && HasText(a) && HasText(b)
    ensures !DistinctPieces(DocumentPieces(slug, [a, b], max))
  {
    ChunkIdsExact(slug, [a, b], max);
    assert Clash(Names(slug, [a, b])[0], Names(slug, [a, b])[1]);
  }

  const TWICE_FAQ := ["## FAQ", "a", "## FAQ", "b"]

  lemma TwiceFaqSections()
    ensures DocumentSections(TWICE_FAQ) == [Section(Strip("FAQ"), ["a"]), Section(Strip("FAQ"), ["b"])]
  {
    assert TWICE_FAQ[0][3..] == "FAQ";
    var one := TWICE_FAQ[1..];
    assert one == ["a", "## FAQ", "b"] && one[1..] == ["## FAQ", "b"] && one[2..] == ["b"] && one[1..][1..] == ["b"];
    assert ["b"][1..] == [];
    assert Block(["b"]) == ["b"] && FromHeading(["b"]) == [];
    assert "## FAQ"[3..] == "FAQ" && "## FAQ"[..3] == "## ";
    assert SectionsUnder(Strip("FAQ"), ["b"]) == [Section(Strip("FAQ"), ["b"])];
    assert Block(one) == ["a"] && FromHeading(one) == one[1..];
  }

  /** A document of four lines whose two sections are both called FAQ. */
  lemma TwiceFaqCollides(slug: string -> string, max: int)
    ensures !DistinctPieces(DocumentPieces(slug, DocumentSections(TWICE_FAQ), max))
  {
    TwiceFaqSections();
    assert Ink("a") == "a" && Ink("b") == "b";
    SameTitleCollides(slug, Section(Strip("FAQ"), ["a"]), Section(Strip("FAQ"), ["b"]), max);
  }
}
