/**
 * Worked examples of company-name normalisation. Each follows the suffix
 * loop step by step: runs of suffixes that do not end the name, then a cut.
 *
 * Every example `NormalizeX` is proved by `ChainX`, which composes the
 * example's steps: `LowerX` (lower-casing), `TrimX` or TrimDotsUnchanged
 * (trimming dots), and the suffix loop, either as `LoopX` or directly as
 * `StepX1`, `StepX2`, ... (one run of the loop each). These lemmas are
 * scaffolding for the example they precede; the general facts they use are
 * StripFromSkip, StripFromCut, NotEndsWithAt and the cuts and skips shared
 * by several examples (CutGmbh, CutKg, SkipToGmbh, SkipToKg, CutKgThenGmbh).
 * LongUgFirst and the `SplitX` lemmas only spell out a literal, so that
 * the loop lemmas see it as a concatenation.
 */
module CompanyNameExamples {
  import opened Text
  import opened CompanyNameHelper

  /** A name without a space passes every step unchanged. */
  lemma {:induction false} StripFromWithoutSpace(name: string, sfx: seq<string>, k: nat)
    requires ' ' !in name
    ensures StripFrom(name, sfx, k) == name
  {
    StripFromCutsAtSpace(name, sfx, k);
  }

  /** Trimming dots leaves a name that neither starts nor ends with a dot unchanged. */
  lemma TrimDotsUnchanged(l: string)
    requires l != [] && l[0] != '.' && l[|l| - 1] != '.'
    ensures TrimChars(l, {'.'}) == l
  {
    assert TrimStart(l, {'.'}) == l;
    assert TrimEnd(l, {'.'}) == l;
  }

  /** Step 4 cuts " gmbh" off any name that ends with it. */
  lemma CutGmbh(m: string)
    ensures StripFrom(m + " gmbh", CompanySuffixes, 4) == StripFrom(m, CompanySuffixes, 5)
  {
    assert CompanySuffixes[4] == "gmbh";
    StripFromCut(m + " gmbh", CompanySuffixes, 4, m);
  }

  /** Step 17 cuts " kg" off any name that ends with it. */
  lemma CutKg(m: string)
    ensures StripFrom(m + " kg", CompanySuffixes, 17) == StripFrom(m, CompanySuffixes, 18)
  {
    assert CompanySuffixes[17] == "kg";
    StripFromCut(m + " kg", CompanySuffixes, 17, m);
  }

  /** None of the four longer suffixes tried before "gmbh" ends a name that ends with " gmbh". */
  lemma SkipToGmbh(m: string)
    ensures StripFrom(m + " gmbh", CompanySuffixes, 0) == StripFrom(m + " gmbh", CompanySuffixes, 4)
  {
    var n := m + " gmbh";
    if 6 <= |n| {
      NotEndsWithAt(n, " " + CompanySuffixes[3], 5);
    }
    StripFromSkip(n, CompanySuffixes, 0, 4);
  }

  /** Steps 5 to 16 leave a name that ends with " kg" as it is. */
  lemma SkipToKg(m: string)
    ensures StripFrom(m + " kg", CompanySuffixes, 5) == StripFrom(m + " kg", CompanySuffixes, 17)
  {
    var n := m + " kg";
    NotEndsWithAt(n, " " + CompanySuffixes[13], 2);
    NotEndsWithAt(n, " " + CompanySuffixes[16], 2);
    StripFromSkip(n, CompanySuffixes, 5, 17);
  }

  /** " kg gmbh" is cut whole in one pass: "gmbh" at step 4, then "kg" at step 17. */
  lemma CutKgThenGmbh(m: string)
    ensures StripFrom(m + " kg" + " gmbh", CompanySuffixes, 0) == StripFrom(m, CompanySuffixes, 18)
  {
    SkipToGmbh(m + " kg");
    CutGmbh(m + " kg");
    SkipToKg(m);
    CutKg(m);
  }

  lemma LowerGmbhKg(c: string, l: string)
    requires c == "Foo GmbH KG" && l == "foo gmbh kg"
    ensures ToLower(c) == l
  {
    forall i | 0 <= i < |c| ensures ToLower(c)[i] == l[i] {
    }
  }

  lemma TrimGmbhKg(l: string, p: string)
    requires l == "foo gmbh kg" && p == "foo gmbh kg"
    ensures TrimChars(l, {'.'}) == p
  {
    TrimDotsUnchanged(l);
  }

  lemma StepGmbhKg1(sfx: seq<string>, n: string)
    requires sfx == CompanySuffixes && n == "foo gmbh kg"
    ensures StripFrom(n, sfx, 0) == StripFrom(n, sfx, 5)
  {
    StripFromSkip(n, sfx, 0, 5);
  }

  lemma StepGmbhKg2(sfx: seq<string>, n: string)
    requires sfx == CompanySuffixes && n == "foo gmbh"
    ensures StripFrom(n, sfx, 18) == StripFrom(n, sfx, 22)
  {
    StripFromSkip(n, sfx, 18, 22);
  }

  lemma LoopGmbhKg(sfx: seq<string>, p: string, r: string)
    requires sfx == CompanySuffixes && p == "foo gmbh kg" && r == "foo gmbh"
    ensures StripFrom(p, sfx, 0) == r
  {
    StepGmbhKg1(sfx, p);
    assert p == r + " kg";
    SkipToKg(r);
    CutKg(r);
    StepGmbhKg2(sfx, r);
  }

  lemma ChainGmbhKg(sfx: seq<string>, c: string, l: string, p: string, r: string)
    requires sfx == CompanySuffixes && c == "Foo GmbH KG" && l == "foo gmbh kg" && p == "foo gmbh kg" && r == "foo gmbh"
    ensures StripFrom(Prepare(c), sfx, 0) == r
  {
    LowerGmbhKg(c, l);
    TrimGmbhKg(l, p);
    LoopGmbhKg(sfx, p, r);
  }

  /** A single pass: "kg" is cut, and "gmbh", tried before it, stays. */
  lemma NormalizeGmbhKg()
    ensures Normalize("Foo GmbH KG") == "foo gmbh"
  {
    ChainGmbhKg(CompanySuffixes, "Foo GmbH KG", "foo gmbh kg", "foo gmbh kg", "foo gmbh");
  }

  lemma LowerGmbh(c: string, l: string)
    requires c == "foo gmbh" && l == "foo gmbh"
    ensures ToLower(c) == l
  {
    forall i | 0 <= i < |c| ensures ToLower(c)[i] == l[i] {
    }
  }

  lemma TrimGmbh(l: string, p: string)
    requires l == "foo gmbh" && p == "foo gmbh"
    ensures TrimChars(l, {'.'}) == p
  {
    TrimDotsUnchanged(l);
  }

  lemma LoopGmbh(sfx: seq<string>, p: string, r: string)
    requires sfx == CompanySuffixes && p == "foo gmbh" && r == "foo"
    ensures StripFrom(p, sfx, 0) == r
  {
    assert p == r + " gmbh";
    SkipToGmbh(r);
    CutGmbh(r);
    StripFromWithoutSpace(r, sfx, 5);
  }

  lemma ChainGmbh(sfx: seq<string>, c: string, l: string, p: string, r: string)
    requires sfx == CompanySuffixes && c == "foo gmbh" && l == "foo gmbh" && p == "foo gmbh" && r == "foo"
    ensures StripFrom(Prepare(c), sfx, 0) == r
  {
    LowerGmbh(c, l);
    TrimGmbh(l, p);
    LoopGmbh(sfx, p, r);
  }

  /** "gmbh" preceded by a space is cut. */
  lemma NormalizeGmbh()
    ensures Normalize("foo gmbh") == "foo"
  {
    ChainGmbh(CompanySuffixes, "foo gmbh", "foo gmbh", "foo gmbh", "foo");
  }

  lemma LowerGmbhCoKg(c: string, l: string)
    requires c == "Foo GmbH & Co KG" && l == "foo gmbh & co kg"
    ensures ToLower(c) == l
  {
    forall i | 0 <= i < |c| ensures ToLower(c)[i] == l[i] {
    }
  }

  lemma TrimGmbhCoKg(l: string, p: string)
    requires l == "foo gmbh & co kg" && p == "foo gmbh & co kg"
    ensures TrimChars(l, {'.'}) == p
  {
    TrimDotsUnchanged(l);
  }

  lemma StepGmbhCoKg1(sfx: seq<string>, n: string)
    requires sfx == CompanySuffixes && n == "foo gmbh & co kg"
    ensures StripFrom(n, sfx, 0) == StripFrom(n, sfx, 2)
  {
    StripFromSkip(n, sfx, 0, 2);
  }

  lemma StepGmbhCoKg2(sfx: seq<string>, n: string, m: string)
    requires sfx == CompanySuffixes && n == "foo gmbh & co kg" && m == "foo"
    ensures StripFrom(n, sfx, 2) == StripFrom(m, sfx, 3)
  {
    assert sfx[2] == "gmbh & co kg";
    assert n == m + " " + "gmbh & co kg";
    StripFromCut(n, sfx, 2, m);
  }

  lemma StepGmbhCoKg3(sfx: seq<string>, n: string)
    requires sfx == CompanySuffixes && n == "foo"
    ensures StripFrom(n, sfx, 3) == n
  {
    StripFromWithoutSpace(n, sfx, 3);
  }

  lemma ChainGmbhCoKg(sfx: seq<string>, c: string, l: string, p: string, r: string)
    requires sfx == CompanySuffixes && c == "Foo GmbH & Co KG" && l == "foo gmbh & co kg" && p == "foo gmbh & co kg" && r == "foo"
    ensures StripFrom(Prepare(c), sfx, 0) == r
  {
    LowerGmbhCoKg(c, l);
    TrimGmbhCoKg(l, p);
    StepGmbhCoKg1(sfx, p);
    StepGmbhCoKg2(sfx, p, r);
    StepGmbhCoKg3(sfx, r);
  }

  /** The compound form is cut whole, because it is tried before its parts. */
  lemma NormalizeGmbhCoKg()
    ensures Normalize("Foo GmbH & Co KG") == "foo"
  {
    ChainGmbhCoKg(CompanySuffixes, "Foo GmbH & Co KG", "foo gmbh & co kg", "foo gmbh & co kg", "foo");
  }

  lemma LowerGmbhCoDotKg(c: string, l: string)
    requires c == "Foo GmbH & Co. KG" && l == "foo gmbh & co. kg"
    ensures ToLower(c) == l
  {
    forall i | 0 <= i < |c| ensures ToLower(c)[i] == l[i] {
    }
  }

  lemma StepGmbhCoDotKg1(sfx: seq<string>, n: string)
    requires sfx == CompanySuffixes && n == "foo gmbh & co. kg"
    ensures StripFrom(n, sfx, 0) == StripFrom(n, sfx, 5)
  {
    NotEndsWithAt(n, " " + sfx[2], 4);
    StripFromSkip(n, sfx, 0, 5);
  }

  lemma StepGmbhCoDotKg2(sfx: seq<string>, n: string)
    requires sfx == CompanySuffixes && n == "foo gmbh & co."
    ensures StripFrom(n, sfx, 18) == StripFrom(n, sfx, 22)
  {
    StripFromSkip(n, sfx, 18, 22);
  }

  lemma LoopGmbhCoDotKg(sfx: seq<string>, p: string, r: string)
    requires sfx == CompanySuffixes && p == "foo gmbh & co. kg" && r == "foo gmbh & co."
    ensures StripFrom(p, sfx, 0) == r
  {
    StepGmbhCoDotKg1(sfx, p);
    assert p == r + " kg";
    SkipToKg(r);
    CutKg(r);
    StepGmbhCoDotKg2(sfx, r);
  }

  lemma ChainGmbhCoDotKg(sfx: seq<string>, c: string, l: string, r: string)
    requires sfx == CompanySuffixes && c == "Foo GmbH & Co. KG" && l == "foo gmbh & co. kg" && r == "foo gmbh & co."
    ensures StripFrom(Prepare(c), sfx, 0) == r
  {
    LowerGmbhCoDotKg(c, l);
    TrimDotsUnchanged(l);
    LoopGmbhCoDotKg(sfx, l, r);
  }

  /**
   * With a dot after "co" the compound form no longer matches; dots are
   * trimmed only at the ends, so only "kg" is cut.
   */
  lemma NormalizeGmbhCoDotKg()
    ensures Normalize("Foo GmbH & Co. KG") == "foo gmbh & co."
  {
    ChainGmbhCoDotKg(CompanySuffixes, "Foo GmbH & Co. KG", "foo gmbh & co. kg", "foo gmbh & co.");
  }

  lemma LowerHaftungsbeschraenkt(c: string, l: string)
    requires c == "Foo UG (haftungsbeschränkt)" && l == "foo ug (haftungsbeschränkt)"
    ensures ToLower(c) == l
  {
    forall i | 0 <= i < |c| ensures ToLower(c)[i] == l[i] {
    }
  }

  lemma TrimHaftungsbeschraenkt(l: string, p: string)
    requires l == "foo ug (haftungsbeschränkt)" && p == "foo ug (haftungsbeschränkt)"
    ensures TrimChars(l, {'.'}) == p
  {
    TrimDotsUnchanged(l);
  }

  lemma LongUgFirst()
    ensures CompanySuffixes[0] == "ug (haftungsbeschränkt)"
  {
  }

  lemma SplitHaftungsbeschraenkt(n: string, m: string, u: string)
    requires n == "foo ug (haftungsbeschränkt)" && m == "foo" && u == "ug (haftungsbeschränkt)"
    ensures n == m + " " + u
  {
  }

  lemma LoopHaftungsbeschraenkt(sfx: seq<string>, p: string, r: string)
    requires sfx == CompanySuffixes && p == "foo ug (haftungsbeschränkt)" && r == "foo"
    ensures StripFrom(p, sfx, 0) == r
  {
    LongUgFirst();
    SplitHaftungsbeschraenkt(p, r, CompanySuffixes[0]);
    StripFromCut(p, sfx, 0, r);
    StripFromWithoutSpace(r, sfx, 1);
  }

  lemma ChainHaftungsbeschraenkt(sfx: seq<string>, c: string, l: string, p: string, r: string)
    requires sfx == CompanySuffixes && c == "Foo UG (haftungsbeschränkt)" && l == "foo ug (haftungsbeschränkt)" && p == "foo ug (haftungsbeschränkt)" && r == "foo"
    ensures StripFrom(Prepare(c), sfx, 0) == r
  {
    LowerHaftungsbeschraenkt(c, l);
    TrimHaftungsbeschraenkt(l, p);
    LoopHaftungsbeschraenkt(sfx, p, r);
  }

  /** The long form of "ug" is cut whole, because longer suffixes are tried first. */
  lemma NormalizeHaftungsbeschraenkt()
    ensures Normalize("Foo UG (haftungsbeschränkt)") == "foo"
  {
    ChainHaftungsbeschraenkt(CompanySuffixes, "Foo UG (haftungsbeschränkt)", "foo ug (haftungsbeschränkt)", "foo ug (haftungsbeschränkt)", "foo");
  }

  lemma LowerKgGmbh(c: string, l: string)
    requires c == "Foo KG GmbH" && l == "foo kg gmbh"
    ensures ToLower(c) == l
  {
    forall i | 0 <= i < |c| ensures ToLower(c)[i] == l[i] {
    }
  }

  lemma TrimKgGmbh(l: string, p: string)
    requires l == "foo kg gmbh" && p == "foo kg gmbh"
    ensures TrimChars(l, {'.'}) == p
  {
    TrimDotsUnchanged(l);
  }

  lemma SplitKgGmbh(p: string, r: string)
    requires p == "foo kg gmbh" && r == "foo"
    ensures p == r + " kg" + " gmbh"
  {
  }

  lemma LoopKgGmbh(sfx: seq<string>, p: string, r: string)
    requires sfx == CompanySuffixes && p == "foo kg gmbh" && r == "foo"
    ensures StripFrom(p, sfx, 0) == r
  {
    SplitKgGmbh(p, r);
    CutKgThenGmbh(r);
    StripFromWithoutSpace(r, sfx, 18);
  }

  lemma ChainKgGmbh(sfx: seq<string>, c: string, l: string, p: string, r: string)
    requires sfx == CompanySuffixes && c == "Foo KG GmbH" && l == "foo kg gmbh" && p == "foo kg gmbh" && r == "foo"
    ensures StripFrom(Prepare(c), sfx, 0) == r
  {
    LowerKgGmbh(c, l);
    TrimKgGmbh(l, p);
    LoopKgGmbh(sfx, p, r);
  }

  /** Two suffixes are cut in one pass when they come in the order they are tried. */
  lemma NormalizeKgGmbh()
    ensures Normalize("Foo KG GmbH") == "foo"
  {
    ChainKgGmbh(CompanySuffixes, "Foo KG GmbH", "foo kg gmbh", "foo kg gmbh", "foo");
  }

  lemma LowerDots(c: string, l: string)
    requires c == "ACME Inc." && l == "acme inc."
    ensures ToLower(c) == l
  {
    forall i | 0 <= i < |c| ensures ToLower(c)[i] == l[i] {
    }
  }

  lemma TrimDots(l: string, p: string)
    requires l == "acme inc." && p == "acme inc"
    ensures TrimChars(l, {'.'}) == p
  {
    assert TrimStart(l, {'.'}) == l;
    assert l[..|l| - 1] == p;
    assert TrimEnd(p, {'.'}) == p;
    assert TrimEnd(l, {'.'}) == TrimEnd(p, {'.'});
  }

  lemma StepDots1(sfx: seq<string>, n: string)
    requires sfx == CompanySuffixes && n == "acme inc"
    ensures StripFrom(n, sfx, 0) == StripFrom(n, sfx, 11)
  {
    StripFromSkip(n, sfx, 0, 11);
  }

  lemma StepDots2(sfx: seq<string>, n: string, m: string)
    requires sfx == CompanySuffixes && n == "acme inc" && m == "acme"
    ensures StripFrom(n, sfx, 11) == StripFrom(m, sfx, 12)
  {
    assert sfx[11] == "inc";
    assert n == m + " " + "inc";
    StripFromCut(n, sfx, 11, m);
  }

  lemma StepDots3(sfx: seq<string>, n: string)
    requires sfx == CompanySuffixes && n == "acme"
    ensures StripFrom(n, sfx, 12) == n
  {
    StripFromWithoutSpace(n, sfx, 12);
  }

  lemma ChainDots(sfx: seq<string>, c: string, l: string, p: string, r: string)
    requires sfx == CompanySuffixes && c == "ACME Inc." && l == "acme inc." && p == "acme inc" && r == "acme"
    ensures StripFrom(Prepare(c), sfx, 0) == r
  {
    LowerDots(c, l);
    TrimDots(l, p);
    StepDots1(sfx, p);
    StepDots2(sfx, p, r);
    StepDots3(sfx, r);
  }

  /** A trailing dot is trimmed before the suffixes are tried. */
  lemma NormalizeDots()
    ensures Normalize("ACME Inc.") == "acme"
  {
    ChainDots(CompanySuffixes, "ACME Inc.", "acme inc.", "acme inc", "acme");
  }

  lemma BareSuffixAt(c: string, l: string)
    requires c == "GmbH" && l == "gmbh"
    ensures Normalize(c) == l
  {
    forall i | 0 <= i < |c| ensures ToLower(c)[i] == l[i] {
    }
    assert ToLower(c) == l;
    TrimDotsUnchanged(l);
    NormalizeWithoutSpace(c);
  }

  /** A bare legal form is not a suffix of itself: "GmbH" stays "gmbh". */
  lemma NormalizeBareSuffix()
    ensures Normalize("GmbH") == "gmbh"
  {
    BareSuffixAt("GmbH", "gmbh");
  }

  /** No suffix has an upper-case letter or a dot at either end. */
  lemma SuffixIsPrepared(k: nat)
    requires k < |CompanySuffixes|
    ensures Prepare(CompanySuffixes[k]) == CompanySuffixes[k]
  {
    var s := CompanySuffixes[k];
    forall i | 0 <= i < |s| ensures !IsUpper(s[i]) {
    }
    assert ToLower(s) == s;
    TrimDotsUnchanged(s);
  }

  /** A one-word suffix on its own is kept: nothing precedes it to be cut at. */
  lemma BareSuffixKept(k: nat)
    requires k < |CompanySuffixes| && ' ' !in CompanySuffixes[k]
    ensures Normalize(CompanySuffixes[k]) == CompanySuffixes[k]
  {
    SuffixIsPrepared(k);
    NormalizeWithoutSpace(CompanySuffixes[k]);
  }

  /** The empty name normalises to the empty name. */
  lemma NormalizeEmpty()
    ensures Normalize("") == ""
  {
    NormalizeCutsAtSpace("");
  }

  lemma LowerTrailingSpace(c: string, l: string)
    requires c == "Foo GmbH " && l == "foo gmbh "
    ensures ToLower(c) == l
  {
    forall i | 0 <= i < |c| ensures ToLower(c)[i] == l[i] {
    }
  }

  /** No suffix ends with a space, so a name ending with one is left as it is. */
  lemma StepTrailingSpace(sfx: seq<string>, n: string)
    requires sfx == CompanySuffixes && n == "foo gmbh "
    ensures StripFrom(n, sfx, 0) == n
  {
    forall k | 0 <= k < |sfx| ensures !EndsWith(n, " " + sfx[k]) {
      var t := " " + sfx[k];
      assert t[|t| - 1] == sfx[k][|sfx[k]| - 1] != ' ';
      NotEndsWithAt(n, t, 1);
    }
    StripFromSkip(n, sfx, 0, |sfx|);
  }

  /** Spaces are not trimmed: a trailing space keeps "gmbh" from being cut. */
  lemma NormalizeTrailingSpace()
    ensures Normalize("Foo GmbH ") == "foo gmbh "
  {
    LowerTrailingSpace("Foo GmbH ", "foo gmbh ");
    TrimDotsUnchanged("foo gmbh ");
    StepTrailingSpace(CompanySuffixes, "foo gmbh ");
  }

  /** One pass is not enough to reach a fixed point: normalising again cuts "gmbh". */
  lemma NormalizeNotIdempotent()
    ensures Normalize(Normalize("Foo GmbH KG")) != Normalize("Foo GmbH KG")
  {
    NormalizeGmbhKg();
    NormalizeGmbh();
  }
}
