/**
 * The niche catalogue filter of App.tsx: a niche is listed when it belongs to
 * the selected category (or the selection is 'all') and the search term,
 * lower-cased and trimmed, is empty or occurs in the niche's lower-cased
 * title, description or category.
 *
 * Lower-casing is modelled for ASCII letters only; trimming removes the
 * characters JavaScript's `trim` treats as white space or line terminators.
 */
module NicheFilter {

  datatype Niche = Niche(
    id: string,
    title: string,
    description: string,
    iconName: string,
    category: string,
    gradient: string)

  /** The category selection that places no restriction. */
  const AllCategories: string := "all"

  /** The page's filter inputs: the selected category and the raw search text. */
  datatype FilterState = FilterState(selectedCategory: string, searchTerm: string)

  function LowerChar(c: char): char
  {
    if 'A' <= c <= 'Z' then (c as int + 32) as char else c
  }

  function Lower(s: string): (r: string)
    ensures |r| == |s|
    ensures forall i :: 0 <= i < |s| ==> r[i] == LowerChar(s[i])
  {
    if s == [] then [] else [LowerChar(s[0])] + Lower(s[1..])
  }

  /** The characters `String.prototype.trim` removes. */
  predicate IsWhitespace(c: char)
  {
    var k := c as int;
    || 0x09 <= k <= 0x0D || k == 0x20 || k == 0xA0 || k == 0x1680
    || 0x2000 <= k <= 0x200A || k == 0x2028 || k == 0x2029 || k == 0x202F
    || k == 0x205F || k == 0x3000 || k == 0xFEFF
  }

  predicate AllWhitespace(s: string)
  {
    forall i :: 0 <= i < |s| ==> IsWhitespace(s[i])
  }

  /** `s` without its leading white space. */
  function TrimStart(s: string): (r: string)
    ensures |r| <= |s| && r == s[|s| - |r|..]
    ensures AllWhitespace(s[..|s| - |r|])
    ensures r == [] || !IsWhitespace(r[0])
  {
    if s != [] && IsWhitespace(s[0]) then
      var r := TrimStart(s[1..]);
      TrimStartStep(s, r);
      r
    else
      s
  }

  /** `s` without its trailing white space. */
  function TrimEnd(s: string): (r: string)
    ensures |r| <= |s| && r == s[..|r|]
    ensures AllWhitespace(s[|r|..])
    ensures r == [] || !IsWhitespace(r[|r| - 1])
  {
    if s != [] && IsWhitespace(s[|s| - 1]) then
      var r := TrimEnd(s[..|s| - 1]);
      TrimEndStep(s, r);
      r
    else
      s
  }

  /** Putting a leading white-space character back in front keeps what TrimStart promises. */
  lemma TrimStartStep(s: string, r: string)
    requires s != [] && IsWhitespace(s[0])
    requires |r| <= |s| - 1 && r == s[1..][|s| - 1 - |r|..] && AllWhitespace(s[1..][..|s| - 1 - |r|])
    ensures r == s[|s| - |r|..] && AllWhitespace(s[..|s| - |r|])
  {
    assert s[..|s| - |r|] == [s[0]] + s[1..][..|s| - 1 - |r|];
  }

  /** Putting a trailing white-space character back at the end keeps what TrimEnd promises. */
  lemma TrimEndStep(s: string, r: string)
    requires s != [] && IsWhitespace(s[|s| - 1])
    requires |r| <= |s| - 1 && r == s[..|s| - 1][..|r|] && AllWhitespace(s[..|s| - 1][|r|..])
    ensures r == s[..|r|] && AllWhitespace(s[|r|..])
  {
    assert s[|r|..] == s[..|s| - 1][|r|..] + [s[|s| - 1]];
  }

  function Trim(s: string): string
  {
    TrimEnd(TrimStart(s))
  }

  /** The term the filter searches for. */
  function NormalizedTerm(searchTerm: string): string
  {
    Trim(Lower(searchTerm))
  }

  predicate OccursAt(hay: string, needle: string, i: nat)
  {
    i + |needle| <= |hay| && hay[i..i + |needle|] == needle
  }

  /** `needle` occurs somewhere in `hay`. */
  ghost predicate OccursIn(hay: string, needle: string)
  {
    exists i: nat :: OccursAt(hay, needle, i)
  }

  /** `hay.includes(needle)`. */
  predicate Includes(hay: string, needle: string)
    ensures Includes(hay, needle) <==> OccursIn(hay, needle)
  {
    if needle <= hay then
      assert OccursAt(hay, needle, 0);
      true
    else if hay == [] then
      false
    else
      var rest := Includes(hay[1..], needle);
      assert forall i: nat :: OccursAt(hay[1..], needle, i) ==> OccursAt(hay, needle, i + 1);
      assert forall i: nat :: OccursAt(hay, needle, i) && i > 0 ==> OccursAt(hay[1..], needle, i - 1);
      rest
  }

  predicate MatchesCategory(n: Niche, selectedCategory: string)
  {
    selectedCategory == AllCategories || n.category == selectedCategory
  }

  /** The text test for an already normalized term. */
  predicate MatchesTerm(n: Niche, term: string)
  {
    || term == []
    || Includes(Lower(n.title), term)
    || Includes(Lower(n.description), term)
    || Includes(Lower(n.category), term)
  }

  predicate MatchesSearch(n: Niche, searchTerm: string)
  {
    MatchesTerm(n, NormalizedTerm(searchTerm))
  }

  predicate Keep(n: Niche, selectedCategory: string, searchTerm: string)
  {
    MatchesCategory(n, selectedCategory) && MatchesSearch(n, searchTerm)
  }

  /** `r` is `s` with some elements left out, in their original order. */
  predicate IsSubsequence<T(==)>(r: seq<T>, s: seq<T>)
    decreases |s|
  {
    if r == [] then true
    else if s == [] then false
    else if r[0] == s[0] then IsSubsequence(r[1..], s[1..])
    else IsSubsequence(r, s[1..])
  }

  /** `Array.prototype.filter`: the elements that pass `keep`, in their original order. */
  function Select<T>(s: seq<T>, keep: T -> bool): seq<T>
  {
    if s == [] then
      []
    else if keep(s[0]) then
      [s[0]] + Select(s[1..], keep)
    else
      Select(s[1..], keep)
  }

  /** The catalogue filter: the niches that pass both tests, in catalogue order. */
  function Filter(niches: seq<Niche>, selectedCategory: string, searchTerm: string): seq<Niche>
  {
    Select(niches, n => Keep(n, selectedCategory, searchTerm))
  }

  /** "Clear all filters": no search text and every category. */
  function ClearAll(state: FilterState): FilterState
  {
    FilterState(AllCategories, "")
  }

  /** The niches the grid shows for the given inputs. */
  function Visible(catalogue: seq<Niche>, state: FilterState): seq<Niche>
  {
    Filter(catalogue, state.selectedCategory, state.searchTerm)
  }

  /** Lower-casing neither creates nor removes white space. */
  lemma LowerKeepsWhitespace(s: string)
    ensures AllWhitespace(Lower(s)) <==> AllWhitespace(s)
  {
    var lowered := Lower(s);
    assert forall i :: 0 <= i < |s| ==> (IsWhitespace(lowered[i]) <==> IsWhitespace(s[i]));
  }

  /** Trimming leaves nothing exactly when the string is made only of white space. */
  lemma TrimEmptyIffBlank(s: string)
    ensures Trim(s) == [] <==> AllWhitespace(s)
  {
    var t := TrimStart(s);
    if t != [] {
      assert !IsWhitespace(t[0]);
    }
  }

  /** A term normalizes to nothing exactly when it is made only of white space. */
  lemma EmptyTermIffBlank(searchTerm: string)
    ensures NormalizedTerm(searchTerm) == [] <==> AllWhitespace(searchTerm)
  {
    LowerKeepsWhitespace(searchTerm);
    TrimEmptyIffBlank(Lower(searchTerm));
  }

  /** With the 'all' selection the category places no restriction. */
  lemma AllCategoriesKeepsEverySearchMatch(n: Niche, searchTerm: string)
    ensures Keep(n, AllCategories, searchTerm) <==> MatchesSearch(n, searchTerm)
  {
  }

  /** Any other selection keeps exactly the niches whose category equals it. */
  lemma CategorySelectionIsExact(n: Niche, selectedCategory: string, searchTerm: string)
    requires selectedCategory != AllCategories
    ensures Keep(n, selectedCategory, searchTerm) <==> n.category == selectedCategory && MatchesSearch(n, searchTerm)
  {
  }

  /**
   * A search term of only white space places no text restriction: every niche
   * of the selected category is listed.
   */
  lemma BlankTermMatchesEveryNiche(n: Niche, searchTerm: string)
    requires AllWhitespace(searchTerm)
    ensures MatchesSearch(n, searchTerm)
  {
    EmptyTermIffBlank(searchTerm);
  }

  /**
   * A non-empty normalized term matches exactly when it occurs in the lower-cased
   * title, description or category.
   */
  lemma TermMatchIsSubstringSearch(n: Niche, term: string)
    requires term != []
    ensures MatchesTerm(n, term) <==>
      OccursIn(Lower(n.title), term) || OccursIn(Lower(n.description), term) || OccursIn(Lower(n.category), term)
  {
  }

  /**
   * A search term with some visible character matches exactly when its
   * normalized form occurs in the lower-cased title, description or category.
   */
  lemma VisibleTermIsSubstringSearch(n: Niche, searchTerm: string)
    requires !AllWhitespace(searchTerm)
    ensures NormalizedTerm(searchTerm) != []
    ensures var term := NormalizedTerm(searchTerm);
      MatchesSearch(n, searchTerm) <==>
        OccursIn(Lower(n.title), term) || OccursIn(Lower(n.description), term) || OccursIn(Lower(n.category), term)
  {
    EmptyTermIffBlank(searchTerm);
    TermMatchIsSubstringSearch(n, NormalizedTerm(searchTerm));
  }

  /**
   * Case does not matter: two search terms, or two niches whose text fields, that
   * agree once lower-cased give the same verdict.
   */
  lemma SearchIgnoresCase(n: Niche, m: Niche, term1: string, term2: string)
    requires Lower(term1) == Lower(term2)
    requires Lower(n.title) == Lower(m.title)
    requires Lower(n.description) == Lower(m.description)
    requires Lower(n.category) == Lower(m.category)
    ensures MatchesSearch(n, term1) <==> MatchesSearch(m, term2)
  {
  }

  /** A subsequence of the tail is a subsequence of the whole. */
  lemma {:induction false} SkipHeadKeepsSubsequence<T>(r: seq<T>, s: seq<T>)
    requires s != [] && IsSubsequence(r, s[1..])
    ensures IsSubsequence(r, s)
    decreases |s|, 0
  {
    if r != [] && r[0] == s[0] {
      DropHeadKeepsSubsequence(r, s[1..]);
    }
  }

  /** Leaving out the first element of a subsequence leaves a subsequence. */
  lemma {:induction false} DropHeadKeepsSubsequence<T>(r: seq<T>, s: seq<T>)
    requires r != [] && IsSubsequence(r, s)
    ensures IsSubsequence(r[1..], s)
    decreases |s|, 1
  {
    if r[0] == s[0] {
      SkipHeadKeepsSubsequence(r[1..], s);
    } else {
      DropHeadKeepsSubsequence(r, s[1..]);
      SkipHeadKeepsSubsequence(r[1..], s);
    }
  }

  /** Filtering keeps the original order: the result is a subsequence of the input. */
  lemma {:induction false} SelectIsSubsequence<T>(s: seq<T>, keep: T -> bool)
    ensures IsSubsequence(Select(s, keep), s)
  {
    if s != [] {
      var rest := Select(s[1..], keep);
      SelectIsSubsequence(s[1..], keep);
      if keep(s[0]) {
        assert ([s[0]] + rest)[1..] == rest;
      } else {
        SkipHeadKeepsSubsequence(rest, s);
      }
    }
  }

  /**
   * Filtering keeps every element that passes, as often as it occurs, and
   * nothing else.
   */
  lemma {:induction false} SelectKeepsExactly<T>(s: seq<T>, keep: T -> bool)
    ensures forall x :: keep(x) ==> multiset(Select(s, keep))[x] == multiset(s)[x]
    ensures forall x :: !keep(x) ==> multiset(Select(s, keep))[x] == 0
  {
    if s != [] {
      SelectKeepsExactly(s[1..], keep);
      assert s == [s[0]] + s[1..];
    }
  }

  /** When every element passes, filtering changes nothing. */
  lemma {:induction false} SelectAllPass<T>(s: seq<T>, keep: T -> bool)
    requires forall i :: 0 <= i < |s| ==> keep(s[i])
    ensures Select(s, keep) == s
  {
    if s != [] {
      SelectAllPass(s[1..], keep);
      assert s == [s[0]] + s[1..];
    }
  }

  /**
   * The catalogue filter lists, in catalogue order, every niche that passes both
   * tests, each as often as it occurs in the catalogue, and no other niche.
   */
  lemma FilterListsExactlyKept(niches: seq<Niche>, selectedCategory: string, searchTerm: string)
    ensures IsSubsequence(Filter(niches, selectedCategory, searchTerm), niches)
    ensures forall n :: Keep(n, selectedCategory, searchTerm) ==>
      multiset(Filter(niches, selectedCategory, searchTerm))[n] == multiset(niches)[n]
    ensures forall n :: !Keep(n, selectedCategory, searchTerm) ==>
      multiset(Filter(niches, selectedCategory, searchTerm))[n] == 0
  {
    var keep := n => Keep(n, selectedCategory, searchTerm);
    SelectIsSubsequence(niches, keep);
    SelectKeepsExactly(niches, keep);
  }

  /** With every category selected and a blank term the whole catalogue is listed. */
  lemma BlankFiltersKeepAll(niches: seq<Niche>, searchTerm: string)
    requires AllWhitespace(searchTerm)
    ensures Filter(niches, AllCategories, searchTerm) == niches
  {
    var keep := n => Keep(n, AllCategories, searchTerm);
    forall i | 0 <= i < |niches| ensures keep(niches[i]) {
      BlankTermMatchesEveryNiche(niches[i], searchTerm);
    }
    SelectAllPass(niches, keep);
  }

  /** After "Clear all filters" the grid shows every niche of the catalogue. */
  lemma ClearAllShowsCatalogue(catalogue: seq<Niche>, state: FilterState)
    ensures Visible(catalogue, ClearAll(state)) == catalogue
  {
    BlankFiltersKeepAll(catalogue, "");
  }
}
