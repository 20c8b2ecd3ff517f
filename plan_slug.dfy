/**
 * Page slugs of the mass SEO plan: `{city}-{brand?}-{appliance}-{problem}.html`,
 * lower-cased, stripped, with every whitespace run and every hyphen run reduced
 * to a single hyphen.
 */
module PlanSlug {
  import opened Wrappers
  import opened Text

  /** No whitespace character (in Python's sense) anywhere in `s`. */
  predicate NoSpace(s: string) {
    forall i :: 0 <= i < |s| ==> !IsPySpace(s[i])
  }

  /** No two neighbouring hyphens in `s`. */
  predicate NoDoubleHyphen(s: string) {
    forall i :: 0 <= i < |s| - 1 ==> !(s[i] == '-' && s[i + 1] == '-')
  }

  /** A normalised slug: lower-case, without whitespace and without `--`. */
  predicate IsSlugStem(s: string) {
    HasNoUpper(s) && NoSpace(s) && NoDoubleHyphen(s)
  }

  /** A slug component the normalisation leaves alone, as every catalog slug is. */
  predicate CleanPart(s: string) {
    |s| > 0 && s[0] != '-' && s[|s| - 1] != '-' && IsSlugStem(s)
  }

  /** A truthy optional string: present and non-empty. */
  predicate Truthy(s: Option<string>) {
    s.Some? && s.value != ""
  }

  /** `re.sub(r"\s+", "-", s)`: every maximal run of whitespace becomes one hyphen. */
  function SpacesToHyphen(s: string): (r: string)
    ensures NoSpace(r)
    ensures forall c :: c in r ==> c == '-' || c in s
    ensures |s| > 0 ==> |r| > 0 && r[0] == (if IsPySpace(s[0]) then '-' else s[0])
    decreases |s|
  {
    if s == [] then []
    else if IsPySpace(s[0]) && |s| > 1 && IsPySpace(s[1]) then SpacesToHyphen(s[1..])
    else [if IsPySpace(s[0]) then '-' else s[0]] + SpacesToHyphen(s[1..])
  }

  /** `re.sub(r"-+", "-", s)`: every maximal run of hyphens becomes one hyphen. */
  function CollapseHyphens(s: string): (r: string)
    ensures NoDoubleHyphen(r)
    ensures forall c :: c in r ==> c in s
    ensures |s| > 0 ==> |r| > 0 && r[0] == s[0]
    decreases |s|
  {
    if s == [] then []
    else if s[0] == '-' && |s| > 1 && s[1] == '-' then CollapseHyphens(s[1..])
    else [s[0]] + CollapseHyphens(s[1..])
  }

  /** The clean-up `make_slug` applies to the joined parts, in its order: lower, strip, whitespace, hyphens. */
  function Normalize(raw: string): (r: string)
    ensures IsSlugStem(r)
  {
    var lowered := Lower(raw);
    var stripped := PyStrip(lowered);
    var spaced := SpacesToHyphen(stripped);
    var r := CollapseHyphens(spaced);
    NormalizeClean(lowered, stripped, spaced, r);
    r
  }

  lemma {:induction false} NormalizeClean(lowered: string, stripped: string, spaced: string, r: string)
    requires HasNoUpper(lowered) && stripped == PyStrip(lowered)
    requires spaced == SpacesToHyphen(stripped) && r == CollapseHyphens(spaced)
    ensures HasNoUpper(r) && NoSpace(r)
  {
    var i, j := TrimShape(lowered, IsPySpace);
    forall k | 0 <= k < |r| ensures !('A' <= r[k] <= 'Z') && !IsPySpace(r[k]) {
      assert r[k] in spaced;
      if r[k] != '-' {
        assert r[k] in stripped;
        var m :| 0 <= m < |stripped| && stripped[m] == r[k];
        assert lowered[i + m] == r[k];
      }
    }
  }

  /** The parts `make_slug` joins with `-`; the brand slug only when it is truthy. */
  function SlugParts(citySlug: string, applianceSlug: string, problemSlug: string, brandSlug: Option<string>): seq<string> {
    [citySlug] + (if Truthy(brandSlug) then [brandSlug.value] else []) + [applianceSlug, problemSlug]
  }

  /** `make_slug`: the normalised `-`-join of the parts, followed by `.html`. */
  function MakeSlug(citySlug: string, applianceSlug: string, problemSlug: string, brandSlug: Option<string>): (r: string)
    ensures EndsWith(r, ".html") && IsSlugStem(r[..|r| - 5])
  {
    var stem := Normalize(Join(SlugParts(citySlug, applianceSlug, problemSlug, brandSlug), "-"));
    assert (stem + ".html")[..|stem + ".html"| - 5] == stem;
    stem + ".html"
  }

  // ---------------------------------------------------------------------
  // Normalisation leaves normalised text alone
  // ---------------------------------------------------------------------

  lemma {:induction false} LowerOfNoUpper(s: string)
    requires HasNoUpper(s)
    ensures Lower(s) == s
  {
  }

  lemma {:induction false} StripOfNoSpace(s: string)
    requires NoSpace(s)
    ensures PyStrip(s) == s
  {
    var i, j := TrimShape(s, IsPySpace);
  }

  lemma {:induction false} SpacesToHyphenOfNoSpace(s: string)
    requires NoSpace(s)
    ensures SpacesToHyphen(s) == s
    decreases |s|
  {
    if s != [] {
      SpacesToHyphenOfNoSpace(s[1..]);
      assert s == [s[0]] + s[1..];
    }
  }

  lemma {:induction false} CollapseOfNoDouble(s: string)
    requires NoDoubleHyphen(s)
    ensures CollapseHyphens(s) == s
    decreases |s|
  {
    if s != [] {
      CollapseOfNoDouble(s[1..]);
      assert s == [s[0]] + s[1..];
    }
  }

  /** A normalised slug stem is a fixed point of the normalisation. */
  lemma {:induction false} NormalizeFixes(s: string)
    requires IsSlugStem(s)
    ensures Normalize(s) == s
  {
    LowerOfNoUpper(s);
    StripOfNoSpace(s);
    SpacesToHyphenOfNoSpace(s);
    CollapseOfNoDouble(s);
  }

  /** Normalising twice is normalising once. */
  lemma {:induction false} NormalizeIdempotent(s: string)
    ensures Normalize(Normalize(s)) == Normalize(s)
  {
    NormalizeFixes(Normalize(s));
  }

  /** Joining two clean parts with one hyphen gives a clean part. */
  lemma {:induction false} HyphenJoinClean(a: string, b: string)
    requires CleanPart(a) && CleanPart(b)
    ensures CleanPart(a + "-" + b)
  {
    var s := a + "-" + b;
    forall i | 0 <= i < |s| - 1 ensures !(s[i] == '-' && s[i + 1] == '-') {
      if i < |a| - 1 {
        assert s[i] == a[i] && s[i + 1] == a[i + 1];
      } else if i == |a| - 1 {
        assert s[i] == a[|a| - 1];
      } else if i == |a| {
        assert s[i + 1] == b[0];
      } else {
        assert s[i] == b[i - |a| - 1] && s[i + 1] == b[i - |a|];
      }
    }
    forall i | 0 <= i < |s| ensures !IsPySpace(s[i]) && !('A' <= s[i] <= 'Z') {
      if i < |a| { assert s[i] == a[i]; }
      else if i > |a| { assert s[i] == b[i - |a| - 1]; }
    }
    assert s[|s| - 1] == b[|b| - 1];
  }

  /** The `-`-join of clean parts is clean. */
  lemma {:induction false} JoinClean(parts: seq<string>)
    requires |parts| >= 1
    requires forall q :: q in parts ==> CleanPart(q)
    ensures CleanPart(Join(parts, "-"))
    decreases |parts|
  {
    assert parts[0] in parts;
    if |parts| > 1 {
      forall q | q in parts[1..] ensures CleanPart(q) {
        assert q in parts;
      }
      JoinClean(parts[1..]);
      HyphenJoinClean(parts[0], Join(parts[1..], "-"));
    }
  }

  /**
   * Catalog slugs pass through `make_slug` unchanged: when every part is clean the
   * page slug is exactly the parts joined with `-`, plus `.html`.
   */
  lemma {:induction false} MakeSlugOfCleanParts(citySlug: string, applianceSlug: string, problemSlug: string, brandSlug: Option<string>)
    requires CleanPart(citySlug) && CleanPart(applianceSlug) && CleanPart(problemSlug)
    requires Truthy(brandSlug) ==> CleanPart(brandSlug.value)
    ensures MakeSlug(citySlug, applianceSlug, problemSlug, brandSlug)
         == Join(SlugParts(citySlug, applianceSlug, problemSlug, brandSlug), "-") + ".html"
  {
    var parts := SlugParts(citySlug, applianceSlug, problemSlug, brandSlug);
    JoinClean(parts);
    NormalizeFixes(Join(parts, "-"));
  }
}
