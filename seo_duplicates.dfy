/**
 * The duplicate-paragraph check run over the pages generated in one batch:
 * long paragraphs of the body block, with their tags stripped, are compared
 * across pages, and a text already seen in another page is reported.
 */
module SeoDuplicates {
  import opened Wrappers
  import opened Text
  import opened SeoMarkers

  // ---------------------------------------------------------------------
  // The body block: `<!-- SEO_BODY -->(.+?)<!-- /SEO_BODY -->`, dot-all
  // ---------------------------------------------------------------------

  const BodyOpen := Open("SEO_BODY")
  const BodyClose := Close("SEO_BODY")

  /**
   * The text of the first body block: from the first open marker to the nearest
   * close marker that leaves at least one character between them.
   */
  function BodyRegion(s: string): (r: Option<string>)
    ensures r.Some? ==> |r.value| >= 1
  {
    match FindFrom(s, BodyOpen, 0)
    case None => None
    case Some(i) =>
      match FindFrom(s, BodyClose, i + |BodyOpen| + 1)
      case None => None
      case Some(j) => Some(s[i + |BodyOpen|..j])
  }

  /** An open marker at `i` and a close marker at `j` with at least one character between. */
  predicate BodyAt(s: string, i: int, j: int) {
    OccursAt(s, BodyOpen, i) && i + |BodyOpen| < j && OccursAt(s, BodyClose, j)
  }

  /**
   * `b` is the text of the block opened by the first open marker at `i`, up to
   * the first close marker after its first character.
   */
  predicate FirstBodyAt(s: string, i: int, b: string) {
    BodyAt(s, i, i + |BodyOpen| + |b|)
    && s[i + |BodyOpen|..i + |BodyOpen| + |b|] == b
    && (forall k :: 0 <= k < i ==> !OccursAt(s, BodyOpen, k))
    && (forall k :: i + |BodyOpen| < k < i + |BodyOpen| + |b| ==> !OccursAt(s, BodyClose, k))
  }

  /**
   * The region is what the search finds: none when no open marker is followed by
   * a close marker with text between, otherwise the text after the first open
   * marker up to the first close marker past its first character.
   */
  lemma {:induction false} BodyRegionMatch(s: string)
    ensures BodyRegion(s).None? <==> forall i, j :: !BodyAt(s, i, j)
    ensures BodyRegion(s).Some? ==> exists i :: FirstBodyAt(s, i, BodyRegion(s).value)
  {
    match FindFrom(s, BodyOpen, 0)
    case None =>
      forall i, j | BodyAt(s, i, j) ensures false {
      }
    case Some(i0) =>
      match FindFrom(s, BodyClose, i0 + |BodyOpen| + 1)
      case None =>
        forall i, j | BodyAt(s, i, j) ensures false {
        }
      case Some(j0) =>
        assert FirstBodyAt(s, i0, s[i0 + |BodyOpen|..j0]);
  }

  // ---------------------------------------------------------------------
  // Paragraphs: every match of `<p>(.*?)</p>`, dot-all, left to right
  // ---------------------------------------------------------------------

  const ParaOpen := "<p>"
  const ParaClose := "</p>"

  /** The first `<p>…</p>` pair from `pos` on: its contents and the index just past its `</p>`. */
  function NextParagraph(s: string, pos: nat): (r: Option<(string, nat)>)
    ensures r.Some? ==> pos + |ParaOpen| + |r.value.0| + |ParaClose| <= r.value.1 <= |s|
  {
    match FindFrom(s, ParaOpen, pos)
    case None => None
    case Some(a) =>
      match FindFrom(s, ParaClose, a + |ParaOpen|)
      case None => None
      case Some(e) => Some((s[a + |ParaOpen|..e], e + |ParaClose|))
  }

  /** The contents of the `<p>…</p>` pairs of `s` found from `pos` on, each closed by the nearest `</p>`. */
  function Paragraphs(s: string, pos: nat): (r: seq<string>)
    ensures pos <= |s| ==> |r| * (|ParaOpen| + |ParaClose|) <= |s| - pos
    decreases |s| - pos
  {
    match NextParagraph(s, pos)
    case None => []
    case Some((q, n)) => [q] + Paragraphs(s, n)
  }

  /** `q` sits in `s` right after a `<p>` at `a`, closed by the first `</p>` after it. */
  predicate EnclosedAt(s: string, q: string, a: int) {
    OccursAt(s, ParaOpen, a)
    && a + |ParaOpen| + |q| <= |s| && s[a + |ParaOpen|..a + |ParaOpen| + |q|] == q
    && OccursAt(s, ParaClose, a + |ParaOpen| + |q|)
    && forall k :: a + |ParaOpen| <= k < a + |ParaOpen| + |q| ==> !OccursAt(s, ParaClose, k)
  }

  /** `q` is the text of a `<p>` element that starts at or after `pos`, cut at its first `</p>`. */
  ghost predicate EnclosedFrom(s: string, q: string, pos: int) {
    exists a :: pos <= a && EnclosedAt(s, q, a)
  }

  /** Every paragraph found is the text of a `<p>` element at or after `pos`, cut at its first `</p>`. */
  lemma {:induction false} ParagraphsEnclosed(s: string, pos: nat)
    ensures forall i :: 0 <= i < |Paragraphs(s, pos)| ==> EnclosedFrom(s, Paragraphs(s, pos)[i], pos)
    decreases |s| - pos
  {
    match NextParagraph(s, pos)
    case None =>
    case Some((q, n)) =>
      var ps, rest := Paragraphs(s, pos), Paragraphs(s, n);
      ParagraphsEnclosed(s, n);
      var first := FirstParagraph(s, pos, q, n);
      ParagraphsCons(s, pos, q, n);
      assert |ps| == |rest| + 1;
      forall i | 0 <= i < |ps| ensures EnclosedFrom(s, ps[i], pos) {
        if i == 0 {
          assert pos <= first && EnclosedAt(s, ps[0], first);
        } else {
          ParagraphAfterFirst(s, pos, q, n, i);
          assert EnclosedFrom(s, rest[i - 1], n);
          var a' :| n <= a' && EnclosedAt(s, rest[i - 1], a');
          assert pos <= a' && EnclosedAt(s, ps[i], a');
        }
      }
  }

  /** The paragraphs found from `pos`: the first one, then those found after its `</p>`. */
  lemma {:induction false} ParagraphsCons(s: string, pos: nat, q: string, n: nat)
    requires NextParagraph(s, pos) == Some((q, n))
    ensures Paragraphs(s, pos) == [q] + Paragraphs(s, n)
  {
  }

  lemma {:induction false} ParagraphAfterFirst(s: string, pos: nat, q: string, n: nat, i: nat)
    requires NextParagraph(s, pos) == Some((q, n)) && 0 < i <= |Paragraphs(s, n)|
    ensures Paragraphs(s, pos)[i] == Paragraphs(s, n)[i - 1]
  {
    ParagraphsCons(s, pos, q, n);
    ConsIndex(q, Paragraphs(s, n), i);
  }

  lemma {:induction false} ConsIndex<T>(x: T, t: seq<T>, i: nat)
    requires 0 < i <= |t|
    ensures ([x] + t)[i] == t[i - 1]
  {
  }

  /** The first paragraph found from `pos` is enclosed at the first `<p>` from there. */
  lemma {:induction false} FirstParagraph(s: string, pos: nat, q: string, n: nat) returns (a: nat)
    requires NextParagraph(s, pos) == Some((q, n))
    ensures pos <= a && EnclosedAt(s, q, a)
  {
    a := FindFrom(s, ParaOpen, pos).value;
    var e := FindFrom(s, ParaClose, a + |ParaOpen|).value;
    var b := a + |ParaOpen|;
    assert b <= e && e + |ParaClose| <= |s| && q == s[b..e];
    assert |q| == e - b;
    assert s[b..b + |q|] == q;
    assert forall k :: b <= k < b + |q| ==> !OccursAt(s, ParaClose, k);
  }

  // ---------------------------------------------------------------------
  // Tag stripping: `re.sub(r"<[^>]+>", "", p)`
  // ---------------------------------------------------------------------

  /** The first `>` of `s` at or after `from`. */
  function FirstGt(s: string, from: nat): (r: Option<nat>)
    ensures r.Some? ==> from <= r.value < |s| && s[r.value] == '>'
    ensures forall k :: from <= k < |s| && (r.None? || k < r.value) ==> s[k] != '>'
    decreases |s| - from
  {
    if from >= |s| then None
    else if s[from] == '>' then Some(from)
    else FirstGt(s, from + 1)
  }

  /** The index of the `>` closing the tag `s` starts with: `<`, at least one non-`>`, then `>`. */
  function TagEnd(s: string): Option<nat> {
    if |s| >= 2 && s[0] == '<' && s[1] != '>' then FirstGt(s, 2) else None
  }

  /** Each tag, scanning left to right, is removed; every other character is kept. */
  function StripTags(s: string): (r: string)
    ensures |r| <= |s|
    decreases |s|
  {
    if s == [] then []
    else
      match TagEnd(s)
      case Some(m) => StripTags(s[m + 1..])
      case None => [s[0]] + StripTags(s[1..])
  }

  /** A tag starts at `k`: `<`, a character other than `>`, and a `>` somewhere after. */
  predicate TagAt(s: string, k: int) {
    0 <= k && k + 1 < |s| && s[k] == '<' && s[k + 1] != '>'
    && exists m :: k + 1 < m < |s| && s[m] == '>'
  }

  predicate TagFree(s: string) {
    forall k :: 0 <= k < |s| ==> !TagAt(s, k)
  }

  /** A tag is removed at the front exactly when one starts there. */
  lemma {:induction false} TagEndIff(s: string)
    ensures TagEnd(s).Some? <==> TagAt(s, 0)
  {
    if TagAt(s, 0) {
      var m :| 1 < m < |s| && s[m] == '>';
    }
  }

  /** Stripping never introduces a character. */
  lemma {:induction false} StripTagsChars(s: string)
    ensures forall c :: c in StripTags(s) ==> c in s
    decreases |s|
  {
    if s != [] {
      match TagEnd(s)
      case Some(m) =>
        StripTagsChars(s[m + 1..]);
      case None =>
        StripTagsChars(s[1..]);
    }
  }

  /** A tag-free text followed by... a text is tag-free once its first character cannot start a tag. */
  lemma {:induction false} TagFreeCons(c: char, t: string)
    requires TagFree(t)
    requires c == '<' ==> (t != [] && t[0] == '>') || '>' !in t
    ensures TagFree([c] + t)
  {
    var r := [c] + t;
    forall k | 0 <= k < |r| ensures !TagAt(r, k) {
      assert forall m :: 0 < m < |r| ==> r[m] == t[m - 1];
      if k > 0 {
        assert !TagAt(t, k - 1);
      } else if c == '<' && '>' !in t {
        forall m | 1 < m < |r| ensures r[m] != '>' {
          assert t[m - 1] in t;
        }
      }
    }
  }

  /** No tag is left after stripping. */
  lemma {:induction false} StripTagsTagFree(s: string)
    ensures TagFree(StripTags(s))
    decreases |s|
  {
    if s != [] {
      match TagEnd(s)
      case Some(m) =>
        StripTagsTagFree(s[m + 1..]);
      case None =>
        var t := StripTags(s[1..]);
        StripTagsTagFree(s[1..]);
        if s[0] == '<' {
          TagEndIff(s);
          if |s| >= 2 && s[1] == '>' {
            TagEndIff(s[1..]);
            assert t == [s[1]] + StripTags(s[2..]);
          } else {
            StripTagsChars(s[1..]);
          }
        }
        TagFreeCons(s[0], t);
    }
  }

  /** A text with no tag is left as it is. */
  lemma {:induction false} StripTagsOfTagFree(s: string)
    requires TagFree(s)
    ensures StripTags(s) == s
    decreases |s|
  {
    if s != [] {
      TagEndIff(s);
      assert !TagAt(s, 0);
      forall k | 0 <= k < |s| - 1 ensures !TagAt(s[1..], k) {
        assert !TagAt(s, k + 1);
      }
      StripTagsOfTagFree(s[1..]);
      assert s == [s[0]] + s[1..];
    }
  }

  /** Stripping twice is stripping once. */
  lemma {:induction false} StripTagsIdempotent(s: string)
    ensures StripTags(StripTags(s)) == StripTags(s)
  {
    StripTagsTagFree(s);
    StripTagsOfTagFree(StripTags(s));
  }

  /** A text without `<` has no tag and is left as it is. */
  lemma {:induction false} StripTagsNoAngle(s: string)
    requires '<' !in s
    ensures StripTags(s) == s
  {
    assert TagFree(s) by {
      forall k | 0 <= k < |s| ensures !TagAt(s, k) {
        assert s[k] in s;
      }
    }
    StripTagsOfTagFree(s);
  }

  /** A piece of a tag-free text is tag-free. */
  lemma {:induction false} TagFreeSlice(s: string, i: nat, j: nat)
    requires TagFree(s) && i <= j <= |s|
    ensures TagFree(s[i..j])
  {
    var t := s[i..j];
    forall k | 0 <= k < |t| ensures !TagAt(t, k) {
      assert !TagAt(s, i + k);
      assert forall m :: 0 <= m < |t| ==> t[m] == s[i + m];
    }
  }

  // ---------------------------------------------------------------------
  // Fingerprints and the scan over pages
  // ---------------------------------------------------------------------

  /** Paragraphs shorter than this are calls to action and links, and are skipped. */
  const MinLength := 80

  /** The cleaned paragraph: tags removed, then surrounding whitespace. */
  function Clean(p: string): string {
    PyStrip(StripTags(p))
  }

  /** A cleaned paragraph holds no tag and starts and ends with a non-space. */
  lemma {:induction false} CleanShape(p: string)
    ensures TagFree(Clean(p)) && TrimmedBy(Clean(p), IsPySpace)
  {
    var t := StripTags(p);
    StripTagsTagFree(p);
    var i, j := TrimShape(t, IsPySpace);
    TagFreeSlice(t, i, j);
    TrimIsTrimmed(t, IsPySpace);
  }

  /** `clean[:100] + "..."`. */
  function Preview(c: string): (r: string)
    ensures 3 <= |r| <= 103 && |r| - 3 <= |c| && r[|r| - 3..] == "..."
    ensures c[..|r| - 3] == r[..|r| - 3]
  {
    (if |c| < 100 then c else c[..100]) + "..."
  }

  datatype Dup = Dup(file1: string, file2: string, preview: string)

  /** The long paragraphs of one page, cleaned, each with the page's name. */
  function Kept(name: string, ps: seq<string>): (r: seq<(string, string)>)
    ensures forall k :: 0 <= k < |r| ==> r[k].0 == name && |r[k].1| >= MinLength
    decreases |ps|
  {
    if ps == [] then []
    else
      var n := |ps| - 1;
      Kept(name, ps[..n]) + (if |Clean(ps[n])| >= MinLength then [(name, Clean(ps[n]))] else [])
  }

  /** The fingerprinted paragraphs of one page: none when it has no body block. */
  function PageItems(page: (string, string)): (r: seq<(string, string)>)
    ensures forall k :: 0 <= k < |r| ==> r[k].0 == page.0 && |r[k].1| >= MinLength
  {
    match BodyRegion(page.1)
    case None => []
    case Some(b) => Kept(page.0, Paragraphs(b, 0))
  }

  /** The fingerprinted paragraphs of all pages, page by page. */
  function Items(pages: seq<(string, string)>): (r: seq<(string, string)>)
    ensures forall k :: 0 <= k < |r| ==> |r[k].1| >= MinLength
    decreases |pages|
  {
    if pages == [] then [] else Items(pages[..|pages| - 1]) + PageItems(pages[|pages| - 1])
  }

  /** The state of the scan: the page each fingerprint was first seen in, and the reports so far. */
  datatype Scan = Scan(seen: map<string, string>, dups: seq<Dup>)

  /** One paragraph through the scan. */
  function Step(st: Scan, item: (string, string)): Scan {
    var name, text := item.0, item.1;
    if text in st.seen then
      if st.seen[text] != name then Scan(st.seen, st.dups + [Dup(st.seen[text], name, Preview(text))]) else st
    else Scan(st.seen[text := name], st.dups)
  }

  /** The scan over a list of paragraphs, from an empty table. */
  function ScanAll(items: seq<(string, string)>): Scan
    decreases |items|
  {
    if items == [] then Scan(map[], []) else Step(ScanAll(items[..|items| - 1]), items[|items| - 1])
  }

  // ---------------------------------------------------------------------
  // The reference: reports described by first occurrences
  // ---------------------------------------------------------------------

  /** The index of the first paragraph with text `c`, or `|items|` when there is none. */
  function FirstIndex(items: seq<(string, string)>, c: string): (r: nat)
    ensures r <= |items|
    ensures r < |items| ==> items[r].1 == c
    ensures forall k :: 0 <= k < r ==> items[k].1 != c
    decreases |items|
  {
    if items == [] then 0
    else if items[0].1 == c then 0
    else 1 + FirstIndex(items[1..], c)
  }

  /**
   * What paragraph `j` reports: when its text was first seen earlier in another
   * page, that page, this page and the preview; otherwise nothing.
   */
  function ReportAt(items: seq<(string, string)>, j: nat): seq<Dup>
    requires j < |items|
  {
    var k := FirstIndex(items, items[j].1);
    if k < j && items[k].0 != items[j].0 then [Dup(items[k].0, items[j].0, Preview(items[j].1))] else []
  }

  /** The reports of all paragraphs, in order. */
  function Reports(items: seq<(string, string)>): seq<Dup>
    decreases |items|
  {
    if items == [] then [] else Reports(items[..|items| - 1]) + ReportAt(items, |items| - 1)
  }

  /** The first occurrence within a prefix is the first occurrence overall, if it falls in the prefix. */
  lemma {:induction false} FirstIndexPrefix(items: seq<(string, string)>, n: nat, c: string)
    requires n <= |items|
    ensures FirstIndex(items[..n], c) == if FirstIndex(items, c) < n then FirstIndex(items, c) else n
  {
    var a, b := FirstIndex(items[..n], c), FirstIndex(items, c);
    if a < n {
      assert items[a].1 == c;
    }
    if b < n {
      assert items[..n][b].1 == c;
    }
  }

  /** A report depends only on the paragraphs up to its own. */
  lemma {:induction false} ReportAtPrefix(items: seq<(string, string)>, n: nat, j: nat)
    requires j < n <= |items|
    ensures ReportAt(items[..n], j) == ReportAt(items, j)
  {
    FirstIndexPrefix(items, n, items[j].1);
  }

  /** The table maps exactly the texts of `items`, each to the page of its first paragraph. */
  ghost predicate SeenMatches(seen: map<string, string>, items: seq<(string, string)>) {
    (forall c :: c in seen <==> FirstIndex(items, c) < |items|)
    && (forall c :: c in seen ==> seen[c] == items[FirstIndex(items, c)].0)
  }

  /** One step of the scan keeps the table right and adds the report the reference describes. */
  lemma {:induction false} StepMatches(st: Scan, items: seq<(string, string)>, item: (string, string))
    requires SeenMatches(st.seen, items)
    ensures SeenMatches(Step(st, item).seen, items + [item])
    ensures Step(st, item).dups == st.dups + ReportAt(items + [item], |items|)
  {
    StepSeen(st, items, item);
    StepDups(st, items, item);
  }

  lemma {:induction false} StepSeen(st: Scan, items: seq<(string, string)>, item: (string, string))
    requires SeenMatches(st.seen, items)
    ensures SeenMatches(Step(st, item).seen, items + [item])
  {
    var all := items + [item];
    var next := Step(st, item).seen;
    forall c
      ensures c in next <==> FirstIndex(all, c) < |all|
      ensures c in next ==> next[c] == all[FirstIndex(all, c)].0
    {
      StepSeenAt(st, items, item, c);
    }
  }

  /** The table entry of one text after a step. */
  lemma {:induction false} StepSeenAt(st: Scan, items: seq<(string, string)>, item: (string, string), c: string)
    requires SeenMatches(st.seen, items)
    ensures var all, next := items + [item], Step(st, item).seen;
            (c in next <==> FirstIndex(all, c) < |all|) && (c in next ==> next[c] == all[FirstIndex(all, c)].0)
  {
    var all := items + [item];
    var n := |items|;
    var next := Step(st, item).seen;
    assert all[..n] == items && all[n] == item;
    assert next == if item.1 in st.seen then st.seen else st.seen[item.1 := item.0];
    FirstIndexPrefix(all, n, c);
    var f := FirstIndex(all, c);
    if f < n {
      assert all[f] == items[f];
    } else if c == item.1 {
      assert f == n;
    }
  }

  lemma {:induction false} StepDups(st: Scan, items: seq<(string, string)>, item: (string, string))
    requires SeenMatches(st.seen, items)
    ensures Step(st, item).dups == st.dups + ReportAt(items + [item], |items|)
  {
    var all := items + [item];
    var n := |items|;
    assert all[..n] == items && all[n] == item;
    FirstIndexPrefix(all, n, item.1);
    if FirstIndex(all, item.1) < n {
      assert all[FirstIndex(all, item.1)] == items[FirstIndex(all, item.1)];
    }
  }

  /** The scan keeps its table right and reports exactly what the reference describes. */
  lemma {:induction false} ScanMatches(items: seq<(string, string)>)
    ensures SeenMatches(ScanAll(items).seen, items)
    ensures ScanAll(items).dups == Reports(items)
    decreases |items|
  {
    if items != [] {
      var n := |items| - 1;
      var pre := items[..n];
      ScanMatches(pre);
      assert items == pre + [items[n]];
      StepMatches(ScanAll(pre), pre, items[n]);
    }
  }

  /** `d` is the report of paragraph `j`: its text was first seen at an earlier paragraph, whose page `d` names first. */
  ghost predicate ReportOf(items: seq<(string, string)>, j: int, d: Dup) {
    0 <= j < |items|
    && var k := FirstIndex(items, items[j].1);
       k < j && d == Dup(items[k].0, items[j].0, Preview(items[j].1))
  }

  /** Every report names two different pages sharing a text, the first page being where the text was seen first. */
  lemma {:induction false} ReportsNameFirstPage(items: seq<(string, string)>, d: Dup)
    requires d in Reports(items)
    ensures d.file1 != d.file2
    ensures exists j :: ReportOf(items, j, d)
    decreases |items|
  {
    var n := |items| - 1;
    ReportsSnoc(items);
    if d in Reports(items[..n]) {
      ReportsNameFirstPage(items[..n], d);
      var j :| ReportOf(items[..n], j, d);
      ReportOfPrefix(items, n, j, d);
    } else {
      assert d in ReportAt(items, n);
      assert ReportOf(items, n, d);
    }
  }

  lemma {:induction false} ReportsSnoc(items: seq<(string, string)>)
    requires items != []
    ensures Reports(items) == Reports(items[..|items| - 1]) + ReportAt(items, |items| - 1)
  {
  }

  /** A report of a prefix is the report of the same paragraph in the whole list. */
  lemma {:induction false} ReportOfPrefix(items: seq<(string, string)>, n: nat, j: int, d: Dup)
    requires n <= |items| && ReportOf(items[..n], j, d)
    ensures ReportOf(items, j, d)
  {
    assert items[..n][j] == items[j];
    FirstIndexPrefix(items, n, items[j].1);
    var k := FirstIndex(items, items[j].1);
    assert items[..n][k] == items[k];
  }

  /** A text repeated only within one page is never reported. */
  lemma {:induction false} SamePageNeverReported(items: seq<(string, string)>, name: string)
    requires forall k :: 0 <= k < |items| ==> items[k].0 == name
    ensures Reports(items) == []
    decreases |items|
  {
    if items != [] {
      SamePageNeverReported(items[..|items| - 1], name);
    }
  }

  /** Every later paragraph of another page repeating a text is reported, naming the page it was first seen in. */
  lemma {:induction false} RepeatReported(items: seq<(string, string)>, j: nat)
    requires j < |items|
    requires FirstIndex(items, items[j].1) < j && items[FirstIndex(items, items[j].1)].0 != items[j].0
    ensures Dup(items[FirstIndex(items, items[j].1)].0, items[j].0, Preview(items[j].1)) in Reports(items)
  {
    ReportAtInReports(items, j);
  }

  /** The report of any paragraph is among the reports of the whole list. */
  lemma {:induction false} ReportAtInReports(items: seq<(string, string)>, j: nat)
    requires j < |items|
    ensures forall d :: d in ReportAt(items, j) ==> d in Reports(items)
    decreases |items|
  {
    var n := |items| - 1;
    ReportsSnoc(items);
    if j < n {
      ReportAtPrefix(items, n, j);
      ReportAtInReports(items[..n], j);
      WithinLeft(ReportAt(items, j), Reports(items[..n]), ReportAt(items, n));
    } else {
      WithinRight(ReportAt(items, n), Reports(items[..n]), ReportAt(items, n));
    }
  }

  lemma {:induction false} WithinLeft<T>(s: seq<T>, a: seq<T>, b: seq<T>)
    requires forall x :: x in s ==> x in a
    ensures forall x :: x in s ==> x in a + b
  {
  }

  lemma {:induction false} WithinRight<T>(s: seq<T>, a: seq<T>, b: seq<T>)
    requires forall x :: x in s ==> x in b
    ensures forall x :: x in s ==> x in a + b
  {
  }

  // ---------------------------------------------------------------------
  // check_duplicates
  // ---------------------------------------------------------------------

  /** One more paragraph of a page takes the scan one step, when it is long enough. */
  lemma {:induction false} KeptScanStep(before: seq<(string, string)>, name: string, ps: seq<string>, j: nat)
    requires j < |ps|
    ensures ScanAll(before + Kept(name, ps[..j + 1]))
         == if |Clean(ps[j])| >= MinLength then Step(ScanAll(before + Kept(name, ps[..j])), (name, Clean(ps[j])))
            else ScanAll(before + Kept(name, ps[..j]))
  {
    assert ps[..j + 1][..j] == ps[..j];
    var x := before + Kept(name, ps[..j]);
    if |Clean(ps[j])| >= MinLength {
      assert before + Kept(name, ps[..j + 1]) == x + [(name, Clean(ps[j]))];
      assert (x + [(name, Clean(ps[j]))])[..|x|] == x;
    } else {
      assert before + Kept(name, ps[..j + 1]) == x;
    }
  }

  /** One more page adds its fingerprinted paragraphs. */
  lemma {:induction false} PageStep(pages: seq<(string, string)>, i: nat)
    requires i < |pages|
    ensures Items(pages[..i + 1]) == Items(pages[..i]) + PageItems(pages[i])
  {
    assert pages[..i + 1][..i] == pages[..i];
  }

  /**
   * `check_duplicates` over (name, content) pairs: the reports of the reference,
   * each naming two different pages.
   */
  method CheckDuplicates(pages: seq<(string, string)>) returns (dups: seq<Dup>)
    ensures dups == Reports(Items(pages))
    ensures forall d :: d in dups ==> d.file1 != d.file2
  {
    var seen: map<string, string> := map[];
    dups := [];
    var i := 0;
    while i < |pages|
      invariant 0 <= i <= |pages|
      invariant Scan(seen, dups) == ScanAll(Items(pages[..i]))
    {
      var (name, content) := pages[i];
      PageStep(pages, i);
      var body := BodyRegion(content);
      if body.Some? {
        seen, dups := ScanParagraphs(seen, dups, name, Paragraphs(body.value, 0), Items(pages[..i]));
      } else {
        assert Items(pages[..i]) + PageItems(pages[i]) == Items(pages[..i]);
      }
      i := i + 1;
    }
    assert pages[..i] == pages;
    ScanMatches(Items(pages));
    forall d | d in dups ensures d.file1 != d.file2 {
      ReportsNameFirstPage(Items(pages), d);
    }
  }

  /** The inner loop of `check_duplicates`: the paragraphs of one page through the scan. */
  method ScanParagraphs(seen0: map<string, string>, dups0: seq<Dup>, name: string, ps: seq<string>,
                        ghost before: seq<(string, string)>)
    returns (seen: map<string, string>, dups: seq<Dup>)
    requires Scan(seen0, dups0) == ScanAll(before)
    ensures Scan(seen, dups) == ScanAll(before + Kept(name, ps))
  {
    seen, dups := seen0, dups0;
    assert before + Kept(name, ps[..0]) == before;
    var j := 0;
    while j < |ps|
      invariant 0 <= j <= |ps|
      invariant Scan(seen, dups) == ScanAll(before + Kept(name, ps[..j]))
    {
      var clean := Clean(ps[j]);
      KeptScanStep(before, name, ps, j);
      if |clean| >= MinLength {
        if clean in seen {
          if seen[clean] != name {
            dups := dups + [Dup(seen[clean], name, Preview(clean))];
          }
        } else {
          seen := seen[clean := name];
        }
      }
      j := j + 1;
    }
    assert ps[..j] == ps;
  }
}
