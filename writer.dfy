/**
 * The Markdown report of codes/markdown/writer.py: a header, then for each category a
 * heading and its papers, each with a link line, its abstract quoted line by line, and a
 * blank line. Abstract lines longer than `Width` are re-wrapped at word boundaries.
 * The dates of the header are parameters, and writing the file is not modelled.
 */
module Writer {
  import opened Text
  import opened OrderedDict
  import opened Pipeline
  import opened Seqs

  /** Lines longer than this are wrapped; it is also the wrapper's length budget. */
  const Width := 200

  /** The prefix of every abstract line. */
  const Quote := "  > "

  /**
   * The wrapping loop's state: the chunks emitted so far, the words of `current_line`
   * and `current_length`.
   */
  datatype Wrap = Wrap(emitted: seq<seq<string>>, current: seq<string>, length: nat)

  /**
   * One pass of the wrapping loop: the word joins the current chunk while the counter
   * stays within `Width`, otherwise the current chunk is emitted (even when empty) and
   * the word starts a new one. Joining adds one to the counter per word, starting over
   * adds only the word's length.
   */
  function WrapStep(st: Wrap, w: string): Wrap {
    if st.length + |w| + 1 <= Width then Wrap(st.emitted, st.current + [w], st.length + |w| + 1)
    else Wrap(st.emitted + [st.current], [w], |w|)
  }

  /** The wrapping loop's state after it has seen `ws`. */
  function WrapWords(ws: seq<string>): Wrap {
    if ws == [] then Wrap([], [], 0) else WrapStep(WrapWords(ws[..|ws| - 1]), ws[|ws| - 1])
  }

  /** The chunks a long line is cut into: those emitted in the loop, then the last one unless empty. */
  function Chunks(ws: seq<string>): seq<seq<string>> {
    var st := WrapWords(ws);
    if st.current != [] then st.emitted + [st.current] else st.emitted
  }

  /** Each chunk as an output line. */
  function Quoted(chunks: seq<seq<string>>): (lines: seq<string>)
    ensures |lines| == |chunks|
    ensures forall i :: 0 <= i < |chunks| ==> lines[i] == Quote + Join(" ", chunks[i])
  {
    seq(|chunks|, i requires 0 <= i < |chunks| => Quote + Join(" ", chunks[i]))
  }

  /** The output lines of one line of the abstract. */
  function AbstractLine(line: string): seq<string> {
    if |line| > Width then Quoted(Chunks(Words(line))) else [Quote + line]
  }

  /** The output lines of the abstract's lines, in order. */
  function AbstractLines(lines: seq<string>): seq<string> {
    FlatMap(AbstractLine, lines)
  }

  /** What `_add_abstract_lines` appends for `abstract`. */
  function AbstractBlock(abstractText: string): seq<string> {
    AbstractLines(SplitOn(abstractText, '\n'))
  }

  lemma QuotedSnoc(chunks: seq<seq<string>>, c: seq<string>)
    ensures Quoted(chunks + [c]) == Quoted(chunks) + [Quote + Join(" ", c)]
  {
  }

  lemma WrapWordsSnoc(words: seq<string>, j: int)
    requires 0 <= j < |words|
    ensures WrapWords(words[..j + 1]) == WrapStep(WrapWords(words[..j]), words[j])
  {
    assert words[..j + 1][..j] == words[..j];
  }

  /** The wrapping branch of `_add_abstract_lines` (lines 48-60): the chunks of `words`, quoted. */
  method AddWrappedWords(output: seq<string>, words: seq<string>) returns (out: seq<string>)
    ensures out == output + Quoted(Chunks(words))
  {
    out := output;
    var currentLine: seq<string> := [];
    var currentLength: nat := 0;
    for j := 0 to |words|
      invariant out == output + Quoted(WrapWords(words[..j]).emitted)
      invariant currentLine == WrapWords(words[..j]).current
      invariant currentLength == WrapWords(words[..j]).length
    {
      WrapWordsSnoc(words, j);
      var word := words[j];
      if currentLength + |word| + 1 <= Width {
        currentLine := currentLine + [word];
        currentLength := currentLength + |word| + 1;
      } else {
        QuotedSnoc(WrapWords(words[..j]).emitted, currentLine);
        out := out + [Quote + Join(" ", currentLine)];
        currentLine := [word];
        currentLength := |word|;
      }
    }
    assert words[..|words|] == words;
    if currentLine != [] {
      QuotedSnoc(WrapWords(words).emitted, currentLine);
      out := out + [Quote + Join(" ", currentLine)];
    }
  }

  /** The body of the loop over the abstract's lines (lines 47-62). */
  method AddLine(output: seq<string>, line: string) returns (out: seq<string>)
    ensures out == output + AbstractLine(line)
  {
    if |line| > Width {
      out := AddWrappedWords(output, Words(line));
    } else {
      out := output + [Quote + line];
    }
  }

  /** `_add_abstract_lines`: appends the abstract's output lines to `output`. */
  method AddAbstractLines(output: seq<string>, abstractText: string) returns (out: seq<string>)
    ensures out == output + AbstractBlock(abstractText)
  {
    out := AddLines(output, SplitOn(abstractText, '\n'));
  }

  /** The loop over the abstract's lines (lines 46-62). */
  method AddLines(output: seq<string>, abstractLines: seq<string>) returns (out: seq<string>)
    ensures out == output + AbstractLines(abstractLines)
  {
    out := output;
    for i := 0 to |abstractLines|
      invariant out == output + AbstractLines(abstractLines[..i])
    {
      FlatMapSnoc(AbstractLine, abstractLines, i);
      AppendAssoc(output, AbstractLines(abstractLines[..i]), AbstractLine(abstractLines[i]));
      out := AddLine(out, abstractLines[i]);
    }
    assert abstractLines[..|abstractLines|] == abstractLines;
  }

  /** The chunks' words, concatenated. */
  function Flatten(chunks: seq<seq<string>>): seq<string> {
    if chunks == [] then [] else Flatten(chunks[..|chunks| - 1]) + chunks[|chunks| - 1]
  }

  lemma FlattenSnoc(chunks: seq<seq<string>>, c: seq<string>)
    ensures Flatten(chunks + [c]) == Flatten(chunks) + c
  {
    assert (chunks + [c])[..|chunks|] == chunks;
  }

  /** One pass of the loop hands the word on: emitted chunks and the current one gain exactly `w`. */
  lemma WrapStepKeepsWords(st: Wrap, w: string)
    ensures Flatten(WrapStep(st, w).emitted) + WrapStep(st, w).current == Flatten(st.emitted) + st.current + [w]
  {
    if st.length + |w| + 1 > Width {
      FlattenSnoc(st.emitted, st.current);
    }
  }

  /** The loop neither loses, duplicates nor reorders words: emitted chunks and the current one spell `ws`. */
  lemma {:induction false} WrapKeepsWords(ws: seq<string>)
    ensures Flatten(WrapWords(ws).emitted) + WrapWords(ws).current == ws
  {
    if ws != [] {
      var init := ws[..|ws| - 1];
      WrapKeepsWords(init);
      WrapStepKeepsWords(WrapWords(init), ws[|ws| - 1]);
      assert ws == init + [ws[|ws| - 1]];
    }
  }

  /** The chunks of a long line, read in order, are exactly its words: `line.split()`. */
  lemma ChunksKeepWords(ws: seq<string>)
    ensures Flatten(Chunks(ws)) == ws
  {
    var st := WrapWords(ws);
    WrapKeepsWords(ws);
    FlattenSnoc(st.emitted, st.current);
  }

  /** A word of some chunk occurs in the concatenation. */
  lemma {:induction false} InFlatten(chunks: seq<seq<string>>, i: int, w: string)
    requires 0 <= i < |chunks| && w in chunks[i]
    ensures w in Flatten(chunks)
  {
    if i < |chunks| - 1 {
      InFlatten(chunks[..|chunks| - 1], i, w);
    }
  }

  /**
   * Re-splitting the emitted text gives the words back: the chunk texts of a long line,
   * split and read in order, are `line.split()`.
   */
  lemma WrapLineKeepsWords(line: string)
    ensures var cs := Chunks(Words(line));
            Flatten(seq(|cs|, i requires 0 <= i < |cs| => Words(Join(" ", cs[i])))) == Words(line)
  {
    var ws := Words(line);
    var cs := Chunks(ws);
    ChunksKeepWords(ws);
    forall i | 0 <= i < |cs| ensures Words(Join(" ", cs[i])) == cs[i] {
      forall w <- cs[i] ensures w != [] && NoSpace(w) {
        InFlatten(cs, i, w);
      }
      WordsOfJoin(cs[i]);
    }
    assert seq(|cs|, i requires 0 <= i < |cs| => Words(Join(" ", cs[i]))) == cs;
  }

  /**
   * What the counter means: while nothing has been emitted every word of the current chunk
   * counts its length plus one; after that the counter is the joined chunk's length.
   */
  predicate Budget(st: Wrap) {
    if st.emitted == [] then
      st.length == SumLen(st.current) + |st.current| && st.length <= Width
    else
      && st.current != []
      && st.length == SumLen(st.current) + |st.current| - 1
      && (|st.current| >= 2 ==> st.length <= Width)
  }

  /** A later chunk is never empty, and its text fits unless it is a single word. */
  predicate LaterFits(c: seq<string>) {
    c != [] && (|c| >= 2 ==> SumLen(c) + |c| - 1 <= Width)
  }

  /** The first chunk's words, each counted with one extra, fit: its text is at most `Width - 1` long. */
  predicate FirstFits(c: seq<string>) {
    SumLen(c) + |c| <= Width
  }

  predicate ChunksFit(chunks: seq<seq<string>>) {
    && (chunks != [] ==> FirstFits(chunks[0]))
    && forall i :: 1 <= i < |chunks| ==> LaterFits(chunks[i])
  }

  lemma WrapStepBudget(st: Wrap, w: string)
    requires Budget(st) && ChunksFit(st.emitted)
    ensures Budget(WrapStep(st, w)) && ChunksFit(WrapStep(st, w).emitted)
  {
    SumLenAppend(st.current, w);
    var r := WrapStep(st, w);
    if st.length + |w| + 1 > Width {
      assert r.emitted[..|st.emitted|] == st.emitted;
      assert SumLen([w]) == |w|;
    }
  }

  /** The loop keeps the counter's meaning, and every chunk it emits fits. */
  lemma {:induction false} WrapBudget(ws: seq<string>)
    ensures Budget(WrapWords(ws)) && ChunksFit(WrapWords(ws).emitted)
  {
    if ws != [] {
      WrapBudget(ws[..|ws| - 1]);
      WrapStepBudget(WrapWords(ws[..|ws| - 1]), ws[|ws| - 1]);
    }
  }

  /**
   * The wrapped chunks' widths: the first chunk's text has at most `Width - 1` characters,
   * every later chunk is non-empty and has at most `Width` characters unless it is a
   * single word.
   */
  lemma ChunkWidths(ws: seq<string>)
    ensures var cs := Chunks(ws);
            && (cs != [] && cs[0] != [] ==> |Join(" ", cs[0])| <= Width - 1)
            && forall i :: 1 <= i < |cs| ==> cs[i] != [] && (|cs[i]| >= 2 ==> |Join(" ", cs[i])| <= Width)
  {
    var st := WrapWords(ws);
    WrapBudget(ws);
    var cs := Chunks(ws);
    if st.current != [] {
      assert cs[..|st.emitted|] == st.emitted;
    }
    assert ChunksFit(cs);
    if cs != [] && cs[0] != [] {
      JoinLength(" ", cs[0]);
    }
    forall i | 1 <= i < |cs| && |cs[i]| >= 2 ensures |Join(" ", cs[i])| <= Width {
      JoinLength(" ", cs[i]);
    }
  }

  /** After the first word the current chunk is never empty, and only the first word can leave an empty chunk behind. */
  lemma {:induction false} FirstChunkShape(ws: seq<string>)
    requires ws != []
    ensures WrapWords(ws).current != []
    ensures WrapWords(ws).emitted == [] ==> |ws[0]| < Width
    ensures WrapWords(ws).emitted != [] ==> (WrapWords(ws).emitted[0] == [] <==> |ws[0]| >= Width)
  {
    var init := ws[..|ws| - 1];
    if init != [] {
      FirstChunkShape(init);
      assert init[0] == ws[0];
      var st := WrapWords(init);
      if st.emitted != [] {
        assert (st.emitted + [st.current])[0] == st.emitted[0];
      }
    }
  }

  /**
   * A long line yields no chunk exactly when it has no words, and its first chunk is
   * empty (a bare quote line is emitted) exactly when its first word has `Width` or more
   * characters.
   */
  lemma EmptyFirstChunk(ws: seq<string>)
    ensures Chunks(ws) == [] <==> ws == []
    ensures Chunks(ws) != [] ==> (Chunks(ws)[0] == [] <==> |ws[0]| >= Width)
  {
    if ws != [] {
      FirstChunkShape(ws);
    }
  }

  /** The abstract is handled line by line, in order: the first line's output comes first. */
  lemma AbstractBlockSplit(first: string, rest: string)
    requires '\n' !in first
    ensures AbstractBlock(first + "\n" + rest) == AbstractLine(first) + AbstractBlock(rest)
  {
    SplitOnAfterPiece(first, rest, '\n');
    FlatMapAppend(AbstractLine, [first], SplitOn(rest, '\n'));
    FlatMapSingle(AbstractLine, first);
  }

  /** A one-line abstract of at most `Width` characters is emitted verbatim behind the quote. */
  lemma ShortAbstract(a: string)
    requires '\n' !in a && |a| <= Width
    ensures AbstractBlock(a) == [Quote + a]
  {
    SplitOnWithoutSeparator(a, '\n');
    FlatMapSingle(AbstractLine, a);
  }

  /** The quote prefix starts every line. */
  predicate IsQuoted(line: string) {
    Quote <= line
  }

  /** Every output line of an abstract starts with the quote prefix. */
  lemma AbstractBlockQuoted(abstractText: string)
    ensures forall l <- AbstractBlock(abstractText) :: IsQuoted(l)
  {
    var lines := SplitOn(abstractText, '\n');
    forall x <- lines, l <- AbstractLine(x) ensures IsQuoted(l) {
      if |x| > Width {
        var q := Quoted(Chunks(Words(x)));
        var i :| 0 <= i < |q| && q[i] == l;
      }
    }
    FlatMapAll(AbstractLine, lines, IsQuoted);
  }

  /** The header: the title line and the date range, which ends with a newline of its own. */
  function Header(startDate: string, endDate: string): seq<string> {
    ["# ArXiv Papers", "Date range: " + startDate + " to " + endDate + "\n"]
  }

  /** A paper's link line. */
  function LinkLine(p: Paper): string {
    "- [" + p.title + "](" + p.url + ")"
  }

  /** A category's heading line. */
  function Heading(category: string): string {
    "\n## " + category
  }

  /** A paper's lines: its link, its abstract, then a blank line. */
  function PaperLines(p: Paper): seq<string> {
    [LinkLine(p)] + AbstractBlock(p.abstractText) + [""]
  }

  function PapersLines(ps: seq<Paper>): seq<string> {
    FlatMap(PaperLines, ps)
  }

  /** The block of one category: its heading, then its papers in list order. */
  function CategoryLines(d: Dict<Paper>, category: string): seq<string> {
    [Heading(category)] + PapersLines(Get(d, category))
  }

  function CategoryBlock(d: Dict<Paper>): string -> seq<string> {
    c => CategoryLines(d, c)
  }

  /** The blocks of the categories `ks`, in order. */
  function CategoriesLines(d: Dict<Paper>, ks: seq<string>): seq<string> {
    FlatMap(CategoryBlock(d), ks)
  }

  /** The report's lines: the header, then one block per category in the dict's order. */
  function DocumentLines(d: Dict<Paper>, startDate: string, endDate: string): seq<string> {
    Header(startDate, endDate) + CategoriesLines(d, d.keys)
  }

  /** The body of the paper loop (lines 28-30): link, abstract, blank line. */
  method AddPaper(output: seq<string>, p: Paper) returns (out: seq<string>)
    ensures out == output + PaperLines(p)
  {
    out := output + [LinkLine(p)];
    out := AddAbstractLines(out, p.abstractText);
    out := out + [""];
  }

  /** The paper loop of `write_papers` (lines 27-30) for one category's papers. */
  method AddPapers(output: seq<string>, papers: seq<Paper>) returns (out: seq<string>)
    ensures out == output + PapersLines(papers)
  {
    out := output;
    for j := 0 to |papers|
      invariant out == output + PapersLines(papers[..j])
    {
      FlatMapSnoc(PaperLines, papers, j);
      AppendAssoc(output, PapersLines(papers[..j]), PaperLines(papers[j]));
      out := AddPaper(out, papers[j]);
    }
    assert papers[..|papers|] == papers;
  }

  /** The body of the category loop (lines 26-30): the heading, then the category's papers. */
  method AddCategory(output: seq<string>, categories: Dict<Paper>, category: string) returns (out: seq<string>)
    ensures out == output + CategoryLines(categories, category)
  {
    out := output + [Heading(category)];
    out := AddPapers(out, Get(categories, category));
    AppendAssoc(output, [Heading(category)], PapersLines(Get(categories, category)));
  }

  /** `write_papers` up to the file write: the report text for `categories`. */
  method WritePapers(categories: Dict<Paper>, startDate: string, endDate: string) returns (markdown: string)
    ensures markdown == Join("\n", DocumentLines(categories, startDate, endDate))
  {
    var output: seq<string> := [];
    output := output + ["# ArXiv Papers"];
    output := output + ["Date range: " + startDate + " to " + endDate + "\n"];
    for i := 0 to |categories.keys|
      invariant output == Header(startDate, endDate) + CategoriesLines(categories, categories.keys[..i])
    {
      FlatMapSnoc(CategoryBlock(categories), categories.keys, i);
      AppendAssoc(Header(startDate, endDate), CategoriesLines(categories, categories.keys[..i]),
                  CategoryLines(categories, categories.keys[i]));
      output := AddCategory(output, categories, categories.keys[i]);
    }
    assert categories.keys[..|categories.keys|] == categories.keys;
    markdown := Join("\n", output);
  }

  /** Heading lines are the only ones that start with a newline. */
  predicate IsHeading(line: string) {
    line != [] && line[0] == '\n'
  }

  /** A line as the heading filter sees it: itself if it is a heading, nothing otherwise. */
  function HeadingOf(line: string): seq<string> {
    if IsHeading(line) then [line] else []
  }

  /** The heading lines of `lines`, in order. */
  function Headings(lines: seq<string>): seq<string> {
    FlatMap(HeadingOf, lines)
  }

  lemma {:induction false} NoHeadings(lines: seq<string>)
    requires forall l <- lines :: !IsHeading(l)
    ensures Headings(lines) == []
  {
    if lines != [] {
      NoHeadings(lines[..|lines| - 1]);
    }
  }

  /** A paper's lines hold no heading: they start with "- [", with the quote, or are blank. */
  lemma {:induction false} PapersNoHeadings(ps: seq<Paper>)
    ensures Headings(PapersLines(ps)) == []
  {
    if ps != [] {
      var p := ps[|ps| - 1];
      PapersNoHeadings(ps[..|ps| - 1]);
      AbstractBlockQuoted(p.abstractText);
      NoHeadings(PaperLines(p));
      FlatMapAppend(HeadingOf, PapersLines(ps[..|ps| - 1]), PaperLines(p));
    }
  }

  /** The headings of the category blocks are those of `ks`, in order. */
  lemma {:induction false} CategoriesHeadings(d: Dict<Paper>, ks: seq<string>)
    ensures Headings(CategoriesLines(d, ks)) == seq(|ks|, i requires 0 <= i < |ks| => Heading(ks[i]))
  {
    if ks != [] {
      var init, c := ks[..|ks| - 1], ks[|ks| - 1];
      CategoriesHeadings(d, init);
      PapersNoHeadings(Get(d, c));
      FlatMapAppend(HeadingOf, [Heading(c)], PapersLines(Get(d, c)));
      assert [Heading(c)][..0] == [];
      FlatMapAppend(HeadingOf, CategoriesLines(d, init), CategoryLines(d, c));
    }
  }

  /** The report has exactly one heading per category, in the dict's order, and nothing else that looks like one. */
  lemma DocumentHeadings(d: Dict<Paper>, startDate: string, endDate: string)
    ensures Headings(DocumentLines(d, startDate, endDate)) == seq(|d.keys|, i requires 0 <= i < |d.keys| => Heading(d.keys[i]))
  {
    NoHeadings(Header(startDate, endDate));
    CategoriesHeadings(d, d.keys);
    FlatMapAppend(HeadingOf, Header(startDate, endDate), CategoriesLines(d, d.keys));
  }
}
