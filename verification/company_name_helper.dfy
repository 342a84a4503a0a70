/**
 * Normalisation of company names before they are compared with the
 * account names in the CRM: lower-case, strip dots at both ends, then cut
 * legal-form suffixes ("gmbh", "kg", "inc", ...) off the end, longest
 * suffixes first, each at most once.
 */
module CompanyNameHelper {
  import opened Text

  /** The legal-form suffixes in the order they are declared. */
  const DeclaredSuffixes: seq<string> := [
    "gmbh & co kg", "gmbh", "mbh", "kgaa", "se", "ag", "gbr", "kg", "& co", "inc", "ltd", "ug",
    "ug (haftungsbeschränkt)", "ug haftungsbeschränkt", "ohg", "ggmbh", "sa", "sarl", "sl", "srl", "ab", "corp"]

  /**
   * The order in which the suffixes are tried: DeclaredSuffixes stably sorted
   * by descending length (CompanySuffixesOrder proves it).
   */
  const CompanySuffixes: seq<string> := [
    "ug (haftungsbeschränkt)", "ug haftungsbeschränkt", "gmbh & co kg", "ggmbh",
    "gmbh", "kgaa", "& co", "sarl", "corp",
    "mbh", "gbr", "inc", "ltd", "ohg", "srl",
    "se", "ag", "kg", "ug", "sa", "sl", "ab"]

  /** CompanySuffixes[i] == DeclaredSuffixes[SortPositions[i]]. */
  const SortPositions: seq<nat> := [12, 13, 0, 15, 1, 3, 8, 17, 21, 2, 6, 9, 10, 14, 19, 4, 5, 7, 11, 16, 18, 20]
  /** The inverse permutation of SortPositions. */
  const SortInverse: seq<nat> := [2, 4, 9, 5, 15, 16, 10, 17, 6, 11, 12, 18, 0, 1, 13, 3, 19, 7, 20, 14, 21, 8]

  /**
   * `ys` is `xs` rearranged by the one-to-one `pos`, with lengths non-increasing
   * and elements of equal length in their original relative order: the result
   * of a stable descending sort by length.
   */
  ghost predicate IsStableDescendingSort(xs: seq<string>, ys: seq<string>, pos: seq<nat>) {
    |pos| == |ys| == |xs|
    && (forall i :: 0 <= i < |pos| ==> pos[i] < |xs| && ys[i] == xs[pos[i]])
    && (forall i, j :: 0 <= i < j < |pos| ==> pos[i] != pos[j])
    && (forall i, j :: 0 <= i < j < |ys| ==> |ys[i]| >= |ys[j]|)
    && (forall i, j :: 0 <= i < j < |ys| && |ys[i]| == |ys[j]| ==> pos[i] < pos[j])
  }

  /** Neighbour-by-neighbour order facts give the stable-sort property for all pairs. */
  lemma {:induction false} StableSortFromNeighbours(xs: seq<string>, ys: seq<string>, pos: seq<nat>, inv: seq<nat>)
    requires |pos| == |ys| == |xs| == |inv|
    requires forall i :: 0 <= i < |pos| ==> pos[i] < |xs| && ys[i] == xs[pos[i]] && inv[pos[i]] == i
    requires forall i :: 0 <= i < |ys| - 1 ==> |ys[i]| >= |ys[i + 1]|
    requires forall i :: 0 <= i < |ys| - 1 && |ys[i]| == |ys[i + 1]| ==> pos[i] < pos[i + 1]
    ensures IsStableDescendingSort(xs, ys, pos)
  {
    forall i, j | 0 <= i < j < |ys|
      ensures |ys[i]| >= |ys[j]| && (|ys[i]| == |ys[j]| ==> pos[i] < pos[j])
    {
      NeighbourChain(ys, pos, i, j);
    }
  }

  /** Order between neighbours extends to any two positions: lengths never grow, and equal lengths keep their declaration order. */
  lemma {:induction false} NeighbourChain(ys: seq<string>, pos: seq<nat>, i: nat, j: nat)
    requires i < j < |ys| == |pos|
    requires forall i :: 0 <= i < |ys| - 1 ==> |ys[i]| >= |ys[i + 1]|
    requires forall i :: 0 <= i < |ys| - 1 && |ys[i]| == |ys[i + 1]| ==> pos[i] < pos[i + 1]
    ensures |ys[i]| >= |ys[j]| && (|ys[i]| == |ys[j]| ==> pos[i] < pos[j])
    decreases j - i
  {
    if i + 1 < j {
      NeighbourChain(ys, pos, i + 1, j);
    }
  }

  lemma SuffixTablePermutation()
    ensures |SortPositions| == |CompanySuffixes| == |DeclaredSuffixes| == |SortInverse|
    ensures forall i :: 0 <= i < |SortPositions| ==> SortPositions[i] < |DeclaredSuffixes| && SortInverse[SortPositions[i]] == i
  {
  }

  lemma SuffixTableEntries()
    ensures forall i :: 0 <= i < |SortPositions| ==>
      SortPositions[i] < |DeclaredSuffixes| && CompanySuffixes[i] == DeclaredSuffixes[SortPositions[i]]
  {
  }

  lemma SuffixTableLengths()
    ensures forall i :: 0 <= i < |CompanySuffixes| - 1 ==> |CompanySuffixes[i]| >= |CompanySuffixes[i + 1]|
    ensures forall i :: 0 <= i < |CompanySuffixes| - 1 && |CompanySuffixes[i]| == |CompanySuffixes[i + 1]| ==>
      SortPositions[i] < SortPositions[i + 1]
  {
  }

  /** The suffixes are tried in declaration order stably sorted by descending length. */
  lemma CompanySuffixesOrder()
    ensures IsStableDescendingSort(DeclaredSuffixes, CompanySuffixes, SortPositions)
  {
    SuffixTablePermutation();
    SuffixTableEntries();
    SuffixTableLengths();
    StableSortFromNeighbours(DeclaredSuffixes, CompanySuffixes, SortPositions, SortInverse);
  }

  /** The name as the suffix loop first sees it: lower-cased, dots trimmed at both ends. */
  function Prepare(companyName: string): (r: string)
    ensures |r| <= |companyName|
    ensures r == [] || (r[0] != '.' && r[|r| - 1] != '.')
  {
    TrimChars(ToLower(companyName), {'.'})
  }

  /**
   * Prepare only lower-cases and cuts dots: its result is a slice of the
   * lower-cased name, and everything cut from either end is a dot (white
   * space is kept).
   */
  lemma PrepareCutsOnlyDots(companyName: string)
    ensures var l := ToLower(companyName);
      var r, i := Prepare(companyName), |l| - |TrimStart(l, {'.'})|;
      i + |r| <= |l| && r == l[i..i + |r|]
      && (forall k :: 0 <= k < i ==> l[k] == '.')
      && (forall k :: i + |r| <= k < |l| ==> l[k] == '.')
  {
    var l := ToLower(companyName);
    DotTrimIsInfix(l);
    assert Prepare(companyName) == TrimChars(l, {'.'});
  }

  /** TrimChars(s, {'.'}) is a slice of `s`, and only dots lie outside it. */
  lemma DotTrimIsInfix(s: string)
    ensures var r, i := TrimChars(s, {'.'}), |s| - |TrimStart(s, {'.'})|;
      i + |r| <= |s| && r == s[i..i + |r|]
      && (forall k :: 0 <= k < i ==> s[k] == '.')
      && (forall k :: i + |r| <= k < |s| ==> s[k] == '.')
  {
    TrimCharsIsInfix(s, {'.'});
  }

  /** One loop step: cut " " + suffix off the end when the name ends with it. */
  function Strip(name: string, suffix: string): string {
    var tail := " " + suffix;
    if EndsWith(name, tail) then name[..|name| - |tail|] else name
  }

  /** The loop from step `k` on: each of sfx[k..] tried once, in order. */
  function StripFrom(name: string, sfx: seq<string>, k: nat): string
    decreases |sfx| - k
  {
    if k >= |sfx| then name else StripFrom(Strip(name, sfx[k]), sfx, k + 1)
  }

  /** What RemoveCommonCompanySuffixes returns. */
  function Normalize(companyName: string): string {
    StripFrom(Prepare(companyName), CompanySuffixes, 0)
  }

  /** Removes the common legal-form suffixes from a company name. */
  method RemoveCommonCompanySuffixes(companyName: string) returns (name: string)
    ensures name == Normalize(companyName)
  {
    name := TrimChars(ToLower(companyName), {'.'});
    var i := 0;
    while i < |CompanySuffixes|
      invariant 0 <= i <= |CompanySuffixes|
      invariant StripFrom(name, CompanySuffixes, i) == Normalize(companyName)
    {
      ghost var before := name;
      var suffix := " " + CompanySuffixes[i];
      if EndsWith(name, suffix) {
        name := name[..|name| - |suffix|];
      }
      assert name == Strip(before, CompanySuffixes[i]);
      i := i + 1;
    }
  }

  /**
   * The steps from `k` on only ever cut the end off, and each cut starts at a
   * space: the result is a prefix of `name`, and when it is shorter, the
   * character of `name` right after it is a space.
   */
  lemma {:induction false} StripFromCutsAtSpace(name: string, sfx: seq<string>, k: nat)
    ensures var r := StripFrom(name, sfx, k);
      |r| <= |name| && r == name[..|r|] && (|r| < |name| ==> name[|r|] == ' ')
    decreases |sfx| - k
  {
    if k < |sfx| {
      var tail := " " + sfx[k];
      var next := Strip(name, sfx[k]);
      StripFromCutsAtSpace(next, sfx, k + 1);
      if EndsWith(name, tail) {
        EndsWithIsTail(name, tail);
        assert name[|next|] == tail[0];
      }
    }
  }

  /** The normalised name is the prepared name with a tail that starts with a space removed. */
  lemma NormalizeCutsAtSpace(companyName: string)
    ensures var p, r := Prepare(companyName), Normalize(companyName);
      |r| <= |p| && r == p[..|r|] && (|r| < |p| ==> p[|r|] == ' ')
  {
    StripFromCutsAtSpace(Prepare(companyName), CompanySuffixes, 0);
  }

  /** A prepared name without a space is returned unchanged: a bare "GmbH" stays "gmbh". */
  lemma NormalizeWithoutSpace(companyName: string)
    requires ' ' !in Prepare(companyName)
    ensures Normalize(companyName) == Prepare(companyName)
  {
    NormalizeCutsAtSpace(companyName);
  }

  /** Steps whose suffix does not end the name leave it as it is. */
  lemma {:induction false} StripFromSkip(name: string, sfx: seq<string>, i: nat, j: nat)
    requires i <= j <= |sfx|
    requires forall k :: i <= k < j ==> !EndsWith(name, " " + sfx[k])
    ensures StripFrom(name, sfx, i) == StripFrom(name, sfx, j)
    decreases j - i
  {
    if i < j {
      StripFromSkip(name, sfx, i + 1, j);
    }
  }

  lemma {:induction false} EndsWithAppended(a: string, b: string)
    ensures EndsWith(a + b, b)
    decreases |b|
  {
    if |b| > 0 {
      assert (a + b)[..|a + b| - 1] == a + b[..|b| - 1];
      EndsWithAppended(a, b[..|b| - 1]);
    }
  }

  /** A step whose suffix ends the name cuts it, space included. */
  lemma StripFromCut(name: string, sfx: seq<string>, k: nat, rest: string)
    requires k < |sfx| && name == rest + " " + sfx[k]
    ensures StripFrom(name, sfx, k) == StripFrom(rest, sfx, k + 1)
  {
    var tail := " " + sfx[k];
    EndsWithAppended(rest, tail);
    assert name == rest + tail;
    assert name[..|name| - |tail|] == rest;
  }
}
