/**
 * Per-paper enrichment and the category merge of codes/main.py.
 *
 * `list(executor.map(...))` returns the per-paper results in input order, so the merge
 * is modelled as one sequential pass over that list; the thread pool itself is not
 * modelled.
 */
module Pipeline {
  import opened Wrappers
  import opened Values
  import opened OrderedDict
  import opened AiClient
  import Translator
  import Classifier

  /** A paper as the pipeline hands it on: `{'title', 'abstract', 'url'}`. */
  datatype Paper = Paper(title: string, abstractText: string, url: string)

  /** A scraped paper as `main` reads it; its `'abstract'` entry may be missing. */
  datatype Listed = Listed(title: string, abstractText: Option<string>, arxivUrl: string)

  /** What `process_paper` returns: `(translated_paper, categories_list)`; `(None, None)` on failure. */
  datatype Enrichment = Enrichment(paper: Option<Paper>, labels: Value)

  /** The category list used when classification is disabled. */
  const Others := "others"

  /** The `formatted_papers` comprehension. */
  function FormatPapers(papers: seq<Listed>): (fs: seq<Paper>)
    ensures |fs| == |papers|
    ensures forall i :: 0 <= i < |papers| ==>
              && fs[i].title == papers[i].title
              && fs[i].url == papers[i].arxivUrl
              && fs[i].abstractText == if papers[i].abstractText.Some? then papers[i].abstractText.value else ""
  {
    seq(|papers|, i requires 0 <= i < |papers| =>
      Paper(papers[i].title, papers[i].abstractText.GetOr(""), papers[i].arxivUrl))
  }

  /**
   * `process_paper` over two ports: `translate` and `classify` return `None` when the
   * call raises. Any raised call turns the whole result into `(None, None)`.
   */
  function ProcessPaper(p: Paper, translateOn: bool, translate: string -> Option<string>,
                        classifyOn: bool, classify: (string, string) -> Option<Value>): (e: Enrichment)
    ensures e.paper.None? ==> e.labels == Null
    ensures e.paper.None? <==>
              || (translateOn && (translate(p.title).None? || translate(p.abstractText).None?))
              || (classifyOn && classify(p.title, p.abstractText).None?)
    ensures e.paper.Some? && !translateOn ==> e.paper.value == p
    ensures e.paper.Some? && translateOn ==>
              e.paper.value == Paper(translate(p.title).value, translate(p.abstractText).value, p.url)
    ensures e.paper.Some? && !classifyOn ==> e.labels == StrList([Others])
    ensures e.paper.Some? && classifyOn ==> e.labels == classify(p.title, p.abstractText).value
  {
    var translated :=
      if translateOn then
        match (translate(p.title), translate(p.abstractText))
        case (Some(t), Some(a)) => Some(Paper(t, a, p.url))
        case _ => None
      else
        Some(Paper(p.title, p.abstractText, p.url));
    var labels := if classifyOn then classify(p.title, p.abstractText) else Some(StrList([Others]));
    if translated.None? || labels.None? then Enrichment(None, Null)
    else Enrichment(translated, labels.value)
  }

  /** Classification sees the original text: how the paper is translated does not change its labels. */
  lemma LabelsIgnoreTranslation(p: Paper, translateOn: bool, classifyOn: bool,
                                classify: (string, string) -> Option<Value>,
                                translate1: string -> Option<string>, translate2: string -> Option<string>)
    requires ProcessPaper(p, translateOn, translate1, classifyOn, classify).paper.Some?
    requires ProcessPaper(p, translateOn, translate2, classifyOn, classify).paper.Some?
    ensures ProcessPaper(p, translateOn, translate1, classifyOn, classify).labels
         == ProcessPaper(p, translateOn, translate2, classifyOn, classify).labels
  {
  }

  /** `process_paper` with the repository's translator and classifier as the ports. */
  function Enrich(p: Paper, tr: Translator.Translator, cl: Classifier.Classifier,
                  chat: seq<Message> -> Option<string>, parse: string -> Option<Value>): (e: Enrichment)
    ensures e.paper.Some? && e.labels != Null
    ensures e.paper.value.url == p.url
    ensures !tr.client.useAi ==> e.paper.value == p
    ensures !cl.client.useAi ==> e.labels == StrList([Others])
    ensures cl.client.useAi ==> e.labels == Classifier.ClassifyPaper(cl, p.title, p.abstractText, chat, parse)
  {
    ProcessPaper(p, tr.client.useAi, s => Some(Translator.Translate(tr, s, chat)),
                 cl.client.useAi, (t, a) => Some(Classifier.ClassifyPaper(cl, t, a, chat, parse)))
  }

  /** `if translated_paper and categories_list`: the result contributes to the merge. */
  predicate Survives(e: Enrichment) {
    e.paper.Some? && Truthy(e.labels)
  }

  /** The categories a surviving result is filed under: what `for category in categories_list` yields. */
  function LabelsOf(e: Enrichment): (cs: seq<string>)
    requires Survives(e)
    ensures cs != []
  {
    Iterate(e.labels).value
  }

  /** One pass of the merge loop's body. */
  function MergeOne(d: Dict<Paper>, e: Enrichment): Dict<Paper> {
    if Survives(e) then AppendAll(d, LabelsOf(e), e.paper.value) else d
  }

  /** The `categories` dict after the merge loop has seen `rs`. */
  function Merged(rs: seq<Enrichment>): Dict<Paper> {
    if rs == [] then Empty() else MergeOne(Merged(rs[..|rs| - 1]), rs[|rs| - 1])
  }

  /** The merge loop of codes/main.py. */
  method MergeResults(results: seq<Enrichment>) returns (categories: Dict<Paper>)
    ensures categories == Merged(results)
  {
    categories := Dict([], map[]);
    for i := 0 to |results|
      invariant categories == Merged(results[..i])
    {
      assert results[..i + 1][..i] == results[..i];
      var translatedPaper, categoriesList := results[i].paper, results[i].labels;
      if translatedPaper.Some? && Truthy(categoriesList) {
        categories := FileUnderAll(categories, Iterate(categoriesList).value, translatedPaper.value);
      }
    }
    assert results[..|results|] == results;
  }

  /** The inner loop of the merge: `paper` appended under each of `names`, creating missing keys. */
  method FileUnderAll(categories: Dict<Paper>, names: seq<string>, paper: Paper) returns (r: Dict<Paper>)
    ensures r == AppendAll(categories, names, paper)
  {
    r := categories;
    for j := 0 to |names|
      invariant r == AppendAll(categories, names[..j], paper)
    {
      assert names[..j + 1][..j] == names[..j];
      var category := names[j];
      if category !in r.lists {
        r := Dict(r.keys + [category], r.lists[category := []]);
      }
      r := r.(lists := r.lists[category := r.lists[category] + [paper]]);
    }
    assert names[..|names|] == names;
  }

  /**
   * The papers a category's list should hold: each surviving result's paper, once per
   * occurrence of the category in its list, in the order of the results.
   */
  function Bucket(rs: seq<Enrichment>, c: string): seq<Paper> {
    if rs == [] then []
    else
      var e := rs[|rs| - 1];
      Bucket(rs[..|rs| - 1], c) + if Survives(e) then Repeat(e.paper.value, Count(LabelsOf(e), c)) else []
  }

  /** The number of category entries the surviving results ask for. */
  function LabelTotal(rs: seq<Enrichment>): nat {
    if rs == [] then 0
    else
      var e := rs[|rs| - 1];
      LabelTotal(rs[..|rs| - 1]) + if Survives(e) then |LabelsOf(e)| else 0
  }

  /** Each category's list is exactly its bucket: nothing lost, duplicated, or reordered. */
  lemma {:induction false} MergedLists(rs: seq<Enrichment>, c: string)
    ensures Get(Merged(rs), c) == Bucket(rs, c)
  {
    if rs != [] {
      MergedLists(rs[..|rs| - 1], c);
      var e := rs[|rs| - 1];
      if Survives(e) {
        GetAppendAll(Merged(rs[..|rs| - 1]), LabelsOf(e), e.paper.value, c);
      }
    }
  }

  /** The category names of the surviving results, in the order the merge loop iterates them. */
  function AllLabels(rs: seq<Enrichment>): seq<string> {
    if rs == [] then []
    else
      var e := rs[|rs| - 1];
      AllLabels(rs[..|rs| - 1]) + if Survives(e) then LabelsOf(e) else []
  }

  /**
   * Keys are created on first use: the dict's order, the order `write_papers` prints the
   * categories in, is the order in which the categories first occur across the results.
   */
  lemma {:induction false} MergedKeyOrder(rs: seq<Enrichment>)
    ensures Merged(rs).keys == WithFirstOccurrences([], AllLabels(rs))
  {
    if rs != [] {
      var init, e := rs[..|rs| - 1], rs[|rs| - 1];
      MergedKeyOrder(init);
      MergedKeys(init);
      assert Merged(rs) == MergeOne(Merged(init), e);
      if Survives(e) {
        AppendAllKeyOrder(Merged(init), LabelsOf(e), e.paper.value);
        FirstOccAppend([], AllLabels(init), LabelsOf(e));
        assert AllLabels(rs) == AllLabels(init) + LabelsOf(e);
      } else {
        assert AllLabels(rs) == AllLabels(init) + [];
        assert AllLabels(init) + [] == AllLabels(init);
      }
    }
  }

  /** The dict is well formed and its keys are exactly the categories of the surviving results. */
  lemma {:induction false} MergedKeys(rs: seq<Enrichment>)
    ensures Valid(Merged(rs))
    ensures forall c :: c in Merged(rs).lists <==>
              exists i :: 0 <= i < |rs| && Survives(rs[i]) && c in LabelsOf(rs[i])
  {
    if rs != [] {
      var init, e := rs[..|rs| - 1], rs[|rs| - 1];
      MergedKeys(init);
      if Survives(e) {
        AppendAllKeys(Merged(init), LabelsOf(e), e.paper.value);
      }
      forall c
        ensures c in Merged(rs).lists <==> exists i :: 0 <= i < |rs| && Survives(rs[i]) && c in LabelsOf(rs[i])
      {
        if c in Merged(rs).lists && c !in Merged(init).lists {
          assert Survives(rs[|rs| - 1]) && c in LabelsOf(rs[|rs| - 1]);
        }
        if exists i :: 0 <= i < |rs| && Survives(rs[i]) && c in LabelsOf(rs[i]) {
          var i :| 0 <= i < |rs| && Survives(rs[i]) && c in LabelsOf(rs[i]);
          if i < |rs| - 1 {
            assert init[i] == rs[i];
          }
        }
      }
    }
  }

  /** The lists hold one entry per category occurrence of each surviving result, and no more. */
  lemma {:induction false} MergedTotal(rs: seq<Enrichment>)
    ensures TotalSize(Merged(rs)) == LabelTotal(rs)
  {
    if rs != [] {
      var init, e := rs[..|rs| - 1], rs[|rs| - 1];
      MergedTotal(init);
      if Survives(e) {
        MergedKeys(init);
        TotalSizeAppendAll(Merged(init), LabelsOf(e), e.paper.value);
      }
    }
  }

  /** A failed or uncategorised result leaves the dict as it was. */
  lemma FailedResultAddsNothing(rs: seq<Enrichment>, e: Enrichment)
    requires !Survives(e)
    ensures Merged(rs + [e]) == Merged(rs)
  {
    assert (rs + [e])[..|rs|] == rs;
  }

  /** A single surviving result is filed under each of its categories, in order. */
  lemma MergedSingle(e: Enrichment)
    requires Survives(e)
    ensures Merged([e]) == AppendAll(Empty(), LabelsOf(e), e.paper.value)
  {
    assert [e][..0] == [];
  }

  /** Five distinct names, the second one repeated at the end, open five keys in order. */
  lemma {:induction false} FiveFirstOccurrences(names: seq<string>, x0: string, x1: string, x2: string, x3: string, x4: string)
    requires x0 != x1 && x0 != x2 && x0 != x3 && x0 != x4 && x1 != x2 && x1 != x3 && x1 != x4
    requires x2 != x3 && x2 != x4 && x3 != x4
    requires names == [x0, x1, x2, x3, x4, x1]
    ensures WithFirstOccurrences([], names) == [x0, x1, x2, x3, x4]
  {
    var n1: seq<string>, n2: seq<string>, n3: seq<string> := [x0], [x0, x1], [x0, x1, x2];
    var n4: seq<string>, n5: seq<string> := [x0, x1, x2, x3], [x0, x1, x2, x3, x4];
    assert n1[..0] == [] && n2[..1] == n1 && n3[..2] == n2 && n4[..3] == n3 && n5[..4] == n4 && names[..5] == n5;
    assert WithFirstOccurrences([], n1) == n1;
    assert WithFirstOccurrences([], n2) == n2;
    assert WithFirstOccurrences([], n3) == n3;
    assert WithFirstOccurrences([], n4) == n4;
    assert WithFirstOccurrences([], n5) == n5;
  }

  /** The letters of "Global" open five keys, in order. */
  lemma LettersOfGlobal(names: seq<string>)
    requires names == ["G", "l", "o", "b", "a", "l"]
    ensures WithFirstOccurrences([], names) == ["G", "l", "o", "b", "a"]
  {
    FiveFirstOccurrences(names, "G", "l", "o", "b", "a");
  }

  /** The letters of "Global" name "l" twice and never "Global" itself. */
  lemma LetterCounts(names: seq<string>)
    requires names == ["G", "l", "o", "b", "a", "l"]
    ensures Count(names, "l") == 2
    ensures Count(names, "Global") == 0
  {
    var n2: seq<string>, n5: seq<string> := ["G", "l"], ["G", "l", "o", "b", "a"];
    assert n2[..1] == ["G"] && ["G"][..0] == [];
    assert Count(n2, "l") == 1;
    assert n5[..2] == n2 && n5[..4][..3] == n5[..3] && n5[..3][..2] == n2 && names[..5] == n5;
    assert Count(n5, "l") == 1;
    CountPositive(names, "Global");
  }

  /** Iterating the string "Global" yields its six letters. */
  lemma GlobalCharacters()
    ensures Characters("Global") == ["G", "l", "o", "b", "a", "l"]
  {
    var cs := Characters("Global");
    assert |cs| == 6 && cs[0] == "G" && cs[1] == "l" && cs[2] == "o" && cs[3] == "b" && cs[4] == "a" && cs[5] == "l";
  }

  /** Filing one value under the letters of "Global", starting from an empty dict. */
  lemma LettersDict(names: seq<string>, v: Paper)
    requires WithFirstOccurrences([], names) == ["G", "l", "o", "b", "a"]
    requires Count(names, "l") == 2 && Count(names, "Global") == 0
    ensures AppendAll(Empty(), names, v).keys == ["G", "l", "o", "b", "a"]
    ensures Get(AppendAll(Empty(), names, v), "l") == [v, v]
    ensures Get(AppendAll(Empty(), names, v), "Global") == []
  {
    AppendAllKeyOrder(Empty(), names, v);
    GetAppendAll(Empty(), names, v, "l");
    GetAppendAll(Empty(), names, v, "Global");
    assert Repeat(v, 2) == [v, v];
  }

  /** A result whose category list is the string "Global" is filed under its letters. */
  lemma GlobalStringFiledUnderLetters(e: Enrichment)
    requires e.paper.Some? && e.labels == Str("Global")
    ensures Merged([e]).keys == ["G", "l", "o", "b", "a"]
    ensures Get(Merged([e]), "l") == [e.paper.value, e.paper.value]
    ensures Get(Merged([e]), "Global") == []
  {
    GlobalCharacters();
    LettersOfGlobal(LabelsOf(e));
    LetterCounts(LabelsOf(e));
    MergedSingle(e);
    LettersDict(LabelsOf(e), e.paper.value);
  }

  /**
   * When AI classification is on but the service call fails, the classifier's fallback
   * is the string "Global", and the merge loop iterates its characters: the paper is
   * filed under "G", "l", "o", "b" and "a", twice under "l", and never under "Global".
   */
  lemma FallbackFiledUnderLetters(p: Paper, tr: Translator.Translator, cl: Classifier.Classifier,
                                  chat: seq<Message> -> Option<string>, parse: string -> Option<Value>)
    requires cl.client.useAi
    requires chat(Classifier.ClassifyRequest(cl, p.title, p.abstractText)).None?
    ensures var e := Enrich(p, tr, cl, chat, parse);
            && Merged([e]).keys == ["G", "l", "o", "b", "a"]
            && Get(Merged([e]), "l") == [e.paper.value, e.paper.value]
            && Get(Merged([e]), "Global") == []
  {
    GlobalStringFiledUnderLetters(Enrich(p, tr, cl, chat, parse));
  }

  /**
   * With the listed fallback, a paper whose classification call fails is filed once,
   * under "Global" alone.
   */
  lemma ListedFallbackFiledUnderGlobal(p: Paper, tr: Translator.Translator, cl: Classifier.Classifier,
                                       chat: seq<Message> -> Option<string>, parse: string -> Option<Value>)
    requires cl.client.useAi
    requires chat(Classifier.ClassifyRequest(cl, p.title, p.abstractText)).None?
    ensures var e := ProcessPaper(p, tr.client.useAi, s => Some(Translator.Translate(tr, s, chat)),
                                  true, (t, a) => Some(Classifier.ClassifyPaperListed(cl, t, a, chat, parse)));
            && Merged([e]).keys == [Classifier.Fallback]
            && Get(Merged([e]), Classifier.Fallback) == [e.paper.value]
  {
    var e := ProcessPaper(p, tr.client.useAi, s => Some(Translator.Translate(tr, s, chat)),
                          true, (t, a) => Some(Classifier.ClassifyPaperListed(cl, t, a, chat, parse)));
    assert e.labels == StrList([Classifier.Fallback]);
    assert [e][..0] == [];
    SingleLabelStep(Empty(), e, Classifier.Fallback);
  }

  /** The results of `executor.map`: one per formatted paper, in input order. */
  function EnrichAll(papers: seq<Paper>, tr: Translator.Translator, cl: Classifier.Classifier,
                     chat: seq<Message> -> Option<string>, parse: string -> Option<Value>): (rs: seq<Enrichment>)
    ensures |rs| == |papers|
    ensures forall i :: 0 <= i < |papers| ==> rs[i] == Enrich(papers[i], tr, cl, chat, parse)
  {
    seq(|papers|, i requires 0 <= i < |papers| => Enrich(papers[i], tr, cl, chat, parse))
  }

  /** Lines 84-118 of `main`: format, enrich every paper, then merge by category. */
  method Categorize(papers: seq<Listed>, tr: Translator.Translator, cl: Classifier.Classifier,
                    chat: seq<Message> -> Option<string>, parse: string -> Option<Value>)
    returns (categories: Dict<Paper>)
    ensures categories == Merged(EnrichAll(FormatPapers(papers), tr, cl, chat, parse))
  {
    var formattedPapers := FormatPapers(papers);
    var results := EnrichAll(formattedPapers, tr, cl, chat, parse);
    categories := MergeResults(results);
  }

  /** A result labelled with the one-element list `[c]` adds its paper under `c` and nowhere else. */
  lemma SingleLabelStep(d: Dict<Paper>, e: Enrichment, c: string)
    requires e.paper.Some? && e.labels == StrList([c])
    ensures MergeOne(d, e) == Append(d, c, e.paper.value)
  {
    assert Survives(e);
    var cs := LabelsOf(e);
    assert cs == [c];
    assert cs[..0] == [];
    assert AppendAll(d, cs, e.paper.value) == Append(AppendAll(d, [], e.paper.value), c, e.paper.value);
  }

  /** Results that all carry the list `["others"]` are filed, in order, under that one key. */
  lemma {:induction false} AllOthersMerged(rs: seq<Enrichment>)
    requires forall i :: 0 <= i < |rs| ==> rs[i].paper.Some? && rs[i].labels == StrList([Others])
    ensures Merged(rs).keys == (if rs == [] then [] else [Others])
    ensures |Get(Merged(rs), Others)| == |rs|
    ensures forall i :: 0 <= i < |rs| ==> Get(Merged(rs), Others)[i] == rs[i].paper.value
  {
    if rs != [] {
      var init, e := rs[..|rs| - 1], rs[|rs| - 1];
      forall i | 0 <= i < |init|
        ensures init[i].paper.Some? && init[i].labels == StrList([Others])
      {
        assert init[i] == rs[i];
      }
      AllOthersMerged(init);
      var before := Merged(init);
      SingleLabelStep(before, e, Others);
      var after := Append(before, Others, e.paper.value);
      assert Merged(rs) == after;
      OthersIndices(rs, Get(before, Others));
    }
  }

  /** The "others" list after one more paper: the old list's papers, then the new one. */
  lemma OthersIndices(rs: seq<Enrichment>, g: seq<Paper>)
    requires rs != [] && forall i :: 0 <= i < |rs| ==> rs[i].paper.Some?
    requires |g| == |rs| - 1 && forall i :: 0 <= i < |rs| - 1 ==> g[i] == rs[i].paper.value
    ensures forall i :: 0 <= i < |rs| ==> (g + [rs[|rs| - 1].paper.value])[i] == rs[i].paper.value
  {
  }

  /**
   * With classification disabled every paper is filed exactly once, under "others",
   * in input order; with translation also disabled it is filed unchanged.
   */
  lemma ClassificationOffFilesUnderOthers(papers: seq<Paper>, tr: Translator.Translator,
                                          cl: Classifier.Classifier,
                                          chat: seq<Message> -> Option<string>,
                                          parse: string -> Option<Value>)
    requires !cl.client.useAi
    ensures var d := Merged(EnrichAll(papers, tr, cl, chat, parse));
            && d.keys == (if papers == [] then [] else [Others])
            && |Get(d, Others)| == |papers|
            && (forall i :: 0 <= i < |papers| ==> Get(d, Others)[i].url == papers[i].url)
            && (!tr.client.useAi ==> Get(d, Others) == papers)
  {
    var rs := EnrichAll(papers, tr, cl, chat, parse);
    AllOthersMerged(rs);
  }
}
