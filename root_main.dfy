/**
 * The category aggregation loop of the top-level script (main.py): each paper's
 * classification is iterated to create a key per category, and the paper's title is
 * then appended to one list. Because the append sits after the inner loop, it uses the
 * loop variable `category` as that loop left it: the last category of the current
 * paper, or, when the current list is empty, the one left over from an earlier paper.
 * On the first paper with an empty list that variable was never bound.
 */
module RootMain {
  import opened Wrappers
  import opened Values
  import opened OrderedDict

  /** A paper of the script together with what its classifier call returned. */
  datatype Classified = Classified(title: string, labels: Value)

  /**
   * What stops the loop: iterating `None` raises a TypeError, and reading `category`
   * before any assignment raises an UnboundLocalError.
   */
  datatype Failure = NotIterable | UnboundCategory

  /** The loop's state: the `categories` dict and the loop variable `category`. */
  datatype State = State(categories: Dict<string>, category: Option<string>)

  /** The categories a paper's classification yields when iterated (none for `None`). */
  function NamesOf(p: Classified): seq<string> {
    Iterate(p.labels).GetOr([])
  }

  /** Every classification can be iterated. */
  predicate Iterable(ps: seq<Classified>) {
    forall i :: 0 <= i < |ps| ==> !ps[i].labels.Null?
  }

  /** The inner loop's effect on the dict: a key with an empty list for each new name. */
  function EnsureKeys(d: Dict<string>, names: seq<string>): Dict<string> {
    if names == [] then d else EnsureKey(EnsureKeys(d, names[..|names| - 1]), names[|names| - 1])
  }

  lemma {:induction false} EnsureKeysEffect(d: Dict<string>, names: seq<string>)
    requires Valid(d)
    ensures Valid(EnsureKeys(d, names))
    ensures forall c :: c in EnsureKeys(d, names).lists <==> c in d.lists || c in names
    ensures forall c :: Get(EnsureKeys(d, names), c) == Get(d, c)
  {
    if names != [] {
      var init := names[..|names| - 1];
      EnsureKeysEffect(d, init);
      assert names == init + [names[|names| - 1]];
    }
  }

  /** The inner loop adds the names the dict lacks, in the order they first occur. */
  lemma {:induction false} EnsureKeysKeyOrder(d: Dict<string>, names: seq<string>)
    requires Valid(d)
    ensures EnsureKeys(d, names).keys == WithFirstOccurrences(d.keys, names)
  {
    if names != [] {
      var init := names[..|names| - 1];
      EnsureKeysKeyOrder(d, init);
      EnsureKeysEffect(d, init);
    }
  }

  /** New keys start empty: the inner loop stores nothing. */
  lemma {:induction false} EnsureKeysTotal(d: Dict<string>, names: seq<string>)
    requires Valid(d)
    ensures TotalSize(EnsureKeys(d, names)) == TotalSize(d)
  {
    if names != [] {
      var init := names[..|names| - 1];
      EnsureKeysTotal(d, init);
      EnsureKeysEffect(d, init);
      TotalSizeEnsureKey(EnsureKeys(d, init), names[|names| - 1]);
    }
  }

  /** One pass of the outer loop's body, lines 19-23 of main.py. */
  function Step(st: State, p: Classified): Result<State, Failure> {
    match Iterate(p.labels)
    case None => Err(NotIterable)
    case Some(names) =>
      var category := if names == [] then st.category else Some(names[|names| - 1]);
      if category.None? then Err(UnboundCategory)
      else Ok(State(Append(EnsureKeys(st.categories, names), category.value, p.title), category))
  }

  /** The state after the outer loop has seen `ps`, or the error that stopped it. */
  function Run(ps: seq<Classified>): Result<State, Failure> {
    if ps == [] then Ok(State(Empty(), None))
    else
      match Run(ps[..|ps| - 1])
      case Err(e) => Err(e)
      case Ok(st) => Step(st, ps[|ps| - 1])
  }

  /**
   * The inner loop (lines 20-22): a key for each name, and the loop variable left at
   * the last name, or untouched when there are none.
   */
  method CreateKeys(categories: Dict<string>, category: Option<string>, names: seq<string>)
    returns (categories': Dict<string>, category': Option<string>)
    requires category.Some? ==> category.value in categories.lists
    ensures categories' == EnsureKeys(categories, names)
    ensures category' == if names == [] then category else Some(names[|names| - 1])
    ensures category'.Some? ==> category'.value in categories'.lists
  {
    categories', category' := categories, category;
    for j := 0 to |names|
      invariant categories' == EnsureKeys(categories, names[..j])
      invariant category' == if j == 0 then category else Some(names[j - 1])
      invariant category'.Some? ==> category'.value in categories'.lists
      invariant categories.lists.Keys <= categories'.lists.Keys
    {
      assert names[..j + 1][..j] == names[..j];
      if names[j] !in categories'.lists {
        categories' := Dict(categories'.keys + [names[j]], categories'.lists[names[j] := []]);
      }
      category' := Some(names[j]);
    }
    assert names[..|names|] == names;
  }

  /** Lines 16-23 of `main`: the dict the script prints, or the exception it raises. */
  method Aggregate(papers: seq<Classified>) returns (r: Result<Dict<string>, Failure>)
    ensures r.Ok? <==> Run(papers).Ok?
    ensures r.Ok? ==> r.value == Run(papers).value.categories
    ensures r.Err? ==> r.error == Run(papers).error
  {
    var categories: Dict<string> := Dict([], map[]);
    var category: Option<string> := None;
    for i := 0 to |papers|
      invariant Run(papers[..i]) == Ok(State(categories, category))
      invariant category.Some? ==> category.value in categories.lists
    {
      assert papers[..i + 1][..i] == papers[..i];
      var categoriesList := Iterate(papers[i].labels);
      if categoriesList.None? {
        RunStopped(papers, i);
        return Err(NotIterable);
      }
      categories, category := CreateKeys(categories, category, categoriesList.value);
      if category.None? {
        RunStopped(papers, i);
        return Err(UnboundCategory);
      }
      categories := categories.(lists := categories.lists[category.value := categories.lists[category.value] + [papers[i].title]]);
    }
    assert papers[..|papers|] == papers;
    r := Ok(categories);
  }

  /** A paper that raises decides the outcome of the whole script. */
  lemma RunStopped(ps: seq<Classified>, i: int)
    requires 0 <= i < |ps| && Run(ps[..i + 1]).Err?
    ensures Run(ps) == Run(ps[..i + 1])
  {
    RunErrSticky(ps[..i + 1], ps[i + 1..]);
    assert ps[..i + 1] + ps[i + 1..] == ps;
  }

  /** An exception ends the script: later papers change nothing. */
  lemma {:induction false} RunErrSticky(ps: seq<Classified>, qs: seq<Classified>)
    requires Run(ps).Err?
    ensures Run(ps + qs) == Run(ps)
  {
    if qs != [] {
      var init := qs[..|qs| - 1];
      RunErrSticky(ps, init);
      assert (ps + qs)[..|ps + qs| - 1] == ps + init;
    } else {
      assert ps + qs == ps;
    }
  }

  /** Every category name the loop iterates over, in order. */
  function AllNames(ps: seq<Classified>): seq<string> {
    if ps == [] then [] else AllNames(ps[..|ps| - 1]) + NamesOf(ps[|ps| - 1])
  }

  function LastName(ns: seq<string>): Option<string> {
    if ns == [] then None else Some(ns[|ns| - 1])
  }

  /** The loop variable always holds the last category iterated so far. */
  lemma {:induction false} RunCategory(ps: seq<Classified>)
    requires Run(ps).Ok?
    ensures Run(ps).value.category == LastName(AllNames(ps))
    ensures ps != [] ==> Run(ps).value.category.Some?
  {
    if ps != [] {
      var init := ps[..|ps| - 1];
      RunCategory(init);
      var names := NamesOf(ps[|ps| - 1]);
      if names == [] {
        assert AllNames(ps) == AllNames(init) + [];
      }
    }
  }

  lemma IterableSnoc(ps: seq<Classified>)
    requires ps != []
    ensures Iterable(ps) <==> Iterable(ps[..|ps| - 1]) && !ps[|ps| - 1].labels.Null?
  {
    var init := ps[..|ps| - 1];
    if Iterable(init) && !ps[|ps| - 1].labels.Null? {
      forall i | 0 <= i < |ps| ensures !ps[i].labels.Null? {
        if i < |init| {
          assert ps[i] == init[i];
        }
      }
    }
  }

  /** One pass fails exactly on a non-iterable list, or on an empty one before any category was bound. */
  lemma StepOk(st: State, p: Classified)
    ensures Step(st, p).Ok? <==> !p.labels.Null? && (NamesOf(p) != [] || st.category.Some?)
  {
  }

  /** The script succeeds exactly when every classification is iterable and the first one is non-empty. */
  lemma {:induction false} RunSucceeds(ps: seq<Classified>)
    ensures Run(ps).Ok? <==> Iterable(ps) && (ps != [] ==> NamesOf(ps[0]) != [])
  {
    if ps != [] {
      var init, p := ps[..|ps| - 1], ps[|ps| - 1];
      RunSucceeds(init);
      IterableSnoc(ps);
      if init != [] {
        assert init[0] == ps[0];
      }
      if Run(init).Ok? {
        RunCategory(init);
        StepOk(Run(init).value, p);
      }
    }
  }

  /** The first paper's empty classification makes the append read an unbound `category`. */
  lemma EmptyFirstListUnbound(ps: seq<Classified>)
    requires ps != [] && ps[0].labels != Null && NamesOf(ps[0]) == []
    ensures Run(ps) == Err(UnboundCategory)
  {
    assert ps[..1][..0] == [];
    assert Run(ps[..1]) == Err(UnboundCategory);
    RunErrSticky(ps[..1], ps[1..]);
    assert ps[..1] + ps[1..] == ps;
  }

  /** Every category iterated gets a key, and nothing else is a key. */
  lemma {:induction false} RunKeys(ps: seq<Classified>)
    requires Run(ps).Ok?
    ensures Valid(Run(ps).value.categories)
    ensures forall c :: c in Run(ps).value.categories.lists <==> c in AllNames(ps)
  {
    if ps != [] {
      var init := ps[..|ps| - 1];
      RunKeys(init);
      RunCategory(ps);
      EnsureKeysEffect(Run(init).value.categories, NamesOf(ps[|ps| - 1]));
    }
  }

  /**
   * The dict's keys, in order, are the categories iterated, each at its first occurrence:
   * the append only ever targets a key the inner loop has already created.
   */
  lemma {:induction false} RunKeyOrder(ps: seq<Classified>)
    requires Run(ps).Ok?
    ensures Run(ps).value.categories.keys == WithFirstOccurrences([], AllNames(ps))
  {
    if ps != [] {
      var init, p := ps[..|ps| - 1], ps[|ps| - 1];
      assert Run(init).Ok?;
      var st := Run(init).value;
      RunKeyOrder(init);
      RunKeys(init);
      RunCategory(init);
      var names := NamesOf(p);
      EnsureKeysKeyOrder(st.categories, names);
      EnsureKeysEffect(st.categories, names);
      assert Run(ps) == Step(st, p);
      assert AllNames(ps) == AllNames(init) + names;
      FirstOccAppend([], AllNames(init), names);
    }
  }

  /**
   * The titles the script files under `c`: each paper's title, in paper order, when the
   * last category iterated up to and including that paper is `c`.
   */
  function FiledUnder(ps: seq<Classified>, c: string): seq<string> {
    if ps == [] then []
    else FiledUnder(ps[..|ps| - 1], c) + if LastName(AllNames(ps)) == Some(c) then [ps[|ps| - 1].title] else []
  }

  /** Each title is appended once, under the last category iterated so far, and never under the others. */
  lemma {:induction false} RunLists(ps: seq<Classified>, c: string)
    requires Run(ps).Ok?
    ensures Get(Run(ps).value.categories, c) == FiledUnder(ps, c)
  {
    if ps != [] {
      var init := ps[..|ps| - 1];
      RunLists(init, c);
      RunCategory(ps);
      RunKeys(init);
      EnsureKeysEffect(Run(init).value.categories, NamesOf(ps[|ps| - 1]));
    }
  }

  /** The dict holds exactly one title per paper. */
  lemma {:induction false} RunTotal(ps: seq<Classified>)
    requires Run(ps).Ok?
    ensures TotalSize(Run(ps).value.categories) == |ps|
  {
    if ps != [] {
      var init := ps[..|ps| - 1];
      RunTotal(init);
      RunKeys(init);
      var d := Run(init).value.categories;
      var names := NamesOf(ps[|ps| - 1]);
      EnsureKeysEffect(d, names);
      EnsureKeysTotal(d, names);
      TotalSizeAppend(EnsureKeys(d, names), Run(ps).value.category.value, ps[|ps| - 1].title);
    }
  }

  lemma EnsureKeysTwo(a: string, b: string)
    requires a != b
    ensures EnsureKeys(Empty(), [a, b]).keys == [a, b]
    ensures a in EnsureKeys(Empty(), [a, b]).lists && b in EnsureKeys(Empty(), [a, b]).lists
    ensures forall k :: Get(EnsureKeys(Empty<string>(), [a, b]), k) == []
  {
    var names := [a, b];
    var e: Dict<string> := Empty();
    assert names[..1] == [a] && [a][..0] == [];
    assert EnsureKeys(e, [a]) == EnsureKey(e, a);
    assert EnsureKeys(e, names) == EnsureKey(EnsureKey(e, a), b);
  }

  /**
   * A paper classified under two categories `a` and `b` is filed under `b` alone: `a`
   * gets a key with an empty list.
   */
  lemma LastCategoryOnly(title: string, a: string, b: string)
    requires a != b
    ensures var r := Run([Classified(title, StrList([a, b]))]);
            && r.Ok?
            && r.value.categories.keys == [a, b]
            && Get(r.value.categories, a) == []
            && Get(r.value.categories, b) == [title]
  {
    var ps := [Classified(title, StrList([a, b]))];
    assert ps[..0] == [];
    EnsureKeysTwo(a, b);
  }

  /** The evidently intended loop: the title is appended under every category of its list. */
  function FiledEach(ps: seq<Classified>): Result<Dict<string>, Failure> {
    if ps == [] then Ok(Empty())
    else
      match FiledEach(ps[..|ps| - 1])
      case Err(e) => Err(e)
      case Ok(d) =>
        var p := ps[|ps| - 1];
        if p.labels.Null? then Err(NotIterable) else Ok(AppendAll(d, NamesOf(p), p.title))
  }

  /** The titles a category should hold: each paper's, once per occurrence of the category in its list. */
  function EachBucket(ps: seq<Classified>, c: string): seq<string> {
    if ps == [] then []
    else EachBucket(ps[..|ps| - 1], c) + Repeat(ps[|ps| - 1].title, Count(NamesOf(ps[|ps| - 1]), c))
  }

  /** The corrected loop fails only on a non-iterable classification; an empty list is harmless. */
  lemma {:induction false} FiledEachSucceeds(ps: seq<Classified>)
    ensures FiledEach(ps).Ok? <==> Iterable(ps)
  {
    if ps != [] {
      FiledEachSucceeds(ps[..|ps| - 1]);
      IterableSnoc(ps);
    }
  }

  /** Under the corrected loop every category's list is exactly its bucket. */
  lemma {:induction false} FiledEachLists(ps: seq<Classified>, c: string)
    requires FiledEach(ps).Ok?
    ensures Get(FiledEach(ps).value, c) == EachBucket(ps, c)
  {
    if ps != [] {
      var init := ps[..|ps| - 1];
      FiledEachLists(init, c);
      var p := ps[|ps| - 1];
      GetAppendAll(FiledEach(init).value, NamesOf(p), p.title, c);
    }
  }

  /** The corrected loop files a paper classified under `a` and `b` under both. */
  lemma FiledEachBothCategories(title: string, a: string, b: string)
    requires a != b
    ensures var r := FiledEach([Classified(title, StrList([a, b]))]);
            && r.Ok?
            && Get(r.value, a) == [title]
            && Get(r.value, b) == [title]
  {
    var ps := [Classified(title, StrList([a, b]))];
    assert ps[..0] == [];
    var names := [a, b];
    var e: Dict<string> := Empty();
    assert names[..1] == [a] && [a][..0] == [];
    assert AppendAll(e, [a], title) == Append(e, a, title);
    assert AppendAll(e, names, title) == Append(Append(e, a, title), b, title);
  }
}
