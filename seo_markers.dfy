/**
 * The comment markers of the city page template and the block replacement the
 * page generator uses to put generated text between them.
 */
module SeoMarkers {
  import opened Wrappers
  import opened Text

  /** The comment that opens the block `name`: `<!-- NAME -->`. */
  function Open(name: string): string {
    "<!-- " + name + " -->"
  }

  /** The comment that closes the block `name`: `<!-- /NAME -->`. */
  function Close(name: string): string {
    "<!-- /" + name + " -->"
  }

  /** The marker pairs a template must hold, in the order they are checked. */
  const RequiredMarkers: seq<(string, string)> := [
    (Open("SEO_TITLE"), Close("SEO_TITLE")),
    (Open("SEO_META_DESCRIPTION"), Close("SEO_META_DESCRIPTION")),
    (Open("SEO_H1"), Close("SEO_H1")),
    (Open("SEO_INTRO"), Close("SEO_INTRO")),
    (Open("SEO_BODY"), Close("SEO_BODY"))
  ]

  /** The marker strings of a table of pairs: open then close, pair by pair. */
  function MarkerStrings(pairs: seq<(string, string)>): seq<string>
    decreases |pairs|
  {
    if pairs == [] then [] else [pairs[0].0, pairs[0].1] + MarkerStrings(pairs[1..])
  }

  /**
   * The markers missing from `t`, pair by pair: the open marker when it is absent,
   * then the close marker when it is absent.
   */
  function MissingMarkers(t: string, pairs: seq<(string, string)>): (missing: seq<string>)
    ensures forall m :: m in missing <==> m in MarkerStrings(pairs) && !Contains(t, m)
    ensures |missing| <= 2 * |pairs|
    decreases |pairs|
  {
    if pairs == [] then []
    else
      (if !Contains(t, pairs[0].0) then [pairs[0].0] else [])
      + (if !Contains(t, pairs[0].1) then [pairs[0].1] else [])
      + MissingMarkers(t, pairs[1..])
  }

  /** `validate_template`: the list of missing markers, which is empty exactly when all ten are there. */
  function ValidateTemplate(t: string): (missing: seq<string>)
    ensures missing == [] <==> forall m :: m in MarkerStrings(RequiredMarkers) ==> Contains(t, m)
    ensures |missing| <= 10
  {
    var missing := MissingMarkers(t, RequiredMarkers);
    assert missing != [] ==> missing[0] in missing;
    missing
  }

  // ---------------------------------------------------------------------
  // replace_marker_block
  // ---------------------------------------------------------------------

  /** An open marker at `i` followed, at or after its end, by a close marker at `j`. */
  predicate BlockAt(html: string, open: string, close: string, i: int, j: int) {
    OccursAt(html, open, i) && i + |open| <= j && OccursAt(html, close, j)
  }

  /** `p` occurs at `i` and nowhere in `[from, i)`: the search from `from` finds `i`. */
  lemma {:induction false} FindFromIs(s: string, p: string, from: nat, i: nat)
    requires from <= i && OccursAt(s, p, i)
    requires forall k :: from <= k < i ==> !OccursAt(s, p, k)
    ensures FindFrom(s, p, from) == Some(i)
  {
  }

  /**
   * The block the lazy pattern `open.*?close` matches first: the leftmost open
   * marker that a close marker follows, and the nearest such close marker.
   */
  function FindBlock(html: string, open: string, close: string): (r: Option<(nat, nat)>)
    ensures r.Some? ==> BlockAt(html, open, close, r.value.0, r.value.1)
  {
    match FindFrom(html, open, 0)
    case None => None
    case Some(i) =>
      match FindFrom(html, close, i + |open|)
      case None => None
      case Some(j) => Some((i, j))
  }

  /**
   * The block found is the one the lazy pattern matches: no block starts further
   * left, none with the same open marker ends sooner, and none is found only
   * when there is no block at all.
   */
  lemma {:induction false} FindBlockFirst(html: string, open: string, close: string)
    ensures var r := FindBlock(html, open, close);
            r.Some? ==> forall i, j :: BlockAt(html, open, close, i, j) ==>
                          r.value.0 < i || (r.value.0 == i && r.value.1 <= j)
    ensures FindBlock(html, open, close).None? ==> forall i, j :: !BlockAt(html, open, close, i, j)
  {
  }

  /**
   * `replace_marker_block`: the text between the first open marker that a close
   * marker follows and the nearest close marker becomes `content`; both markers stay.
   */
  function ReplaceMarkerBlock(html: string, open: string, close: string, content: string): (r: string)
    ensures FindBlock(html, open, close).None? ==> r == html
    ensures FindBlock(html, open, close).Some? ==>
              var i, j := FindBlock(html, open, close).value.0, FindBlock(html, open, close).value.1;
              r == html[..i] + open + content + close + html[j + |close|..]
  {
    match FindBlock(html, open, close)
    case None => html
    case Some((i, j)) => html[..i] + open + content + close + html[j + |close|..]
  }

  /** The pieces of a written block, read back by position. */
  lemma {:induction false} BlockPieces(pre: string, open: string, x: string, close: string, post: string)
    ensures var r, c := pre + open + x + close + post, |pre| + |open| + |x|;
            c + |close| <= |r| && OccursAt(r, open, |pre|) && OccursAt(r, close, c)
            && r[..|pre|] == pre && r[|pre| + |open|..c + |close|] == x + close && r[c + |close|..] == post
            && r[..|pre| + |open|] == pre + open && r[c..] == close + post
  {
    var r, c := pre + open + x + close + post, |pre| + |open| + |x|;
    assert r == (pre + open) + (x + close) + post;
    assert r == (pre + open + x) + (close + post);
    assert r[|pre|..|pre| + |open|] == open;
    assert r[c..c + |close|] == close;
  }

  /** Replacing a block keeps its markers: a marker that was there is still there. */
  lemma {:induction false} ReplaceKeepsOwnMarkers(html: string, open: string, close: string, content: string)
    ensures Contains(html, open) ==> Contains(ReplaceMarkerBlock(html, open, close, content), open)
    ensures Contains(html, close) ==> Contains(ReplaceMarkerBlock(html, open, close, content), close)
    ensures FindBlock(html, open, close).Some? ==>
              var r := ReplaceMarkerBlock(html, open, close, content);
              Contains(r, open) && Contains(r, close)
  {
    var r := ReplaceMarkerBlock(html, open, close, content);
    if FindBlock(html, open, close).Some? {
      var i, j := FindBlock(html, open, close).value.0, FindBlock(html, open, close).value.1;
      BlockPieces(html[..i], open, content, close, html[j + |close|..]);
      assert OccursAt(r, open, i);
      assert OccursAt(r, close, i + |open| + |content|);
    }
  }

  /**
   * Nothing outside the block changes: an occurrence of any string that ends
   * before the block's text or starts after its close marker survives.
   */
  lemma {:induction false} ReplaceKeepsOutside(html: string, open: string, close: string, content: string, m: string, b: int)
    requires FindBlock(html, open, close).Some?
    requires OccursAt(html, m, b)
    requires b + |m| <= FindBlock(html, open, close).value.0 + |open|
          || FindBlock(html, open, close).value.1 <= b
    ensures Contains(ReplaceMarkerBlock(html, open, close, content), m)
  {
    var i, j := FindBlock(html, open, close).value.0, FindBlock(html, open, close).value.1;
    if b + |m| <= i + |open| {
      KeepsBeforeBlock(html, open, close, content, m, b, i, j);
    } else {
      KeepsAfterBlock(html, open, close, content, m, b, i, j);
    }
  }

  lemma {:induction false} KeepsBeforeBlock(html: string, open: string, close: string, content: string, m: string, b: int, i: nat, j: nat)
    requires FindBlock(html, open, close) == Some((i, j))
    requires OccursAt(html, m, b) && b + |m| <= i + |open|
    ensures Contains(ReplaceMarkerBlock(html, open, close, content), m)
  {
    var r := ReplaceMarkerBlock(html, open, close, content);
    BlockPieces(html[..i], open, content, close, html[j + |close|..]);
    var lo := i + |open|;
    assert html[0..lo] == html[..i] + open by {
      assert html[i..lo] == open;
    }
    assert r[0..lo] == html[..i] + open;
    OccursMoved(html, r, m, b, 0, lo, 0);
  }

  lemma {:induction false} KeepsAfterBlock(html: string, open: string, close: string, content: string, m: string, b: int, i: nat, j: nat)
    requires FindBlock(html, open, close) == Some((i, j))
    requires OccursAt(html, m, b) && j <= b
    ensures Contains(ReplaceMarkerBlock(html, open, close, content), m)
  {
    var r := ReplaceMarkerBlock(html, open, close, content);
    var tail := html[j + |close|..];
    BlockPieces(html[..i], open, content, close, tail);
    var start := i + |open| + |content|;
    assert html[j..|html|] == close + tail by {
      assert html[j..j + |close|] == close;
    }
    assert r[start..|r|] == close + tail;
    OccursMoved(html, r, m, b, j, |html|, start);
  }

  /** An occurrence inside a stretch of `s` is found at the same offset where `t` holds the same stretch. */
  lemma {:induction false} OccursMoved(s: string, t: string, x: string, b: int, lo: nat, hi: nat, lo2: nat)
    requires OccursAt(s, x, b) && lo <= b && b + |x| <= hi <= |s|
    requires lo2 + (hi - lo) <= |t| && s[lo..hi] == t[lo2..lo2 + (hi - lo)]
    ensures OccursAt(t, x, b - lo + lo2)
  {
    OccursInSlice(s, x, b, lo, hi);
    OccursFromSlice(t, x, b - lo, lo2, lo2 + (hi - lo));
  }

  /** After a block is written, the first open marker is where it was. */
  lemma {:induction false} OpenFoundAgain(html: string, open: string, close: string, x: string, i: nat, j: nat)
    requires FindBlock(html, open, close) == Some((i, j))
    ensures FindFrom(ReplaceMarkerBlock(html, open, close, x), open, 0) == Some(i)
  {
    var r1 := ReplaceMarkerBlock(html, open, close, x);
    var lo := i + |open|;
    assert html[i..lo] == open;
    assert html[..lo] == html[..i] + html[i..lo];
    assert r1[..lo] == html[..lo];
    forall k | 0 <= k < i ensures !OccursAt(r1, open, k) {
      if OccursAt(r1, open, k) {
        OccursInSlice(r1, open, k, 0, lo);
        OccursFromSlice(html, open, k, 0, lo);
      }
    }
    assert r1[i..lo] == open;
    FindFromIs(r1, open, 0, i);
  }

  /** The written block, seen from the end of its open marker: the content, then the close marker. */
  lemma {:induction false} WrittenBlock(html: string, open: string, close: string, x: string, i: nat, j: nat)
    requires FindBlock(html, open, close) == Some((i, j))
    ensures var r1 := ReplaceMarkerBlock(html, open, close, x);
            i + |open| + |x| + |close| <= |r1| && r1[i + |open|..i + |open| + |x| + |close|] == x + close
  {
    BlockPieces(html[..i], open, x, close, html[j + |close|..]);
  }

  /** Content followed by the close marker holds that marker at its end and nowhere before. */
  predicate CloseOnlyAtEnd(x: string, close: string) {
    forall k :: 0 <= k < |x| ==> !OccursAt(x + close, close, k)
  }

  /** Where `x` and then the close marker start at `lo`, the search for the close marker from `lo` stops right after `x`. */
  lemma {:induction false} CloseAfterContent(s: string, close: string, x: string, lo: nat)
    requires CloseOnlyAtEnd(x, close)
    requires lo + |x| + |close| <= |s| && s[lo..lo + |x| + |close|] == x + close
    ensures FindFrom(s, close, lo) == Some(lo + |x|)
  {
    var hi := lo + |x| + |close|;
    forall k | lo <= k < lo + |x| ensures !OccursAt(s, close, k) {
      if OccursAt(s, close, k) {
        OccursInSlice(s, close, k, lo, hi);
      }
    }
    assert s[lo + |x|..hi] == (x + close)[|x|..];
    FindFromIs(s, close, lo, lo + |x|);
  }

  /** After a block is written with `x`, the block found again is the one just written. */
  lemma {:induction false} FindBlockAgain(html: string, open: string, close: string, x: string, i: nat, j: nat)
    requires CloseOnlyAtEnd(x, close)
    requires FindBlock(html, open, close) == Some((i, j))
    ensures FindBlock(ReplaceMarkerBlock(html, open, close, x), open, close) == Some((i, i + |open| + |x|))
  {
    var r1 := ReplaceMarkerBlock(html, open, close, x);
    OpenFoundAgain(html, open, close, x, i, j);
    WrittenBlock(html, open, close, x, i, j);
    CloseAfterContent(r1, close, x, i + |open|);
  }

  /**
   * Writing a block twice is writing it once with the second content, as long as
   * the first content does not let the close marker show up early.
   */
  lemma {:induction false} ReplaceOverrides(html: string, open: string, close: string, x: string, y: string)
    requires CloseOnlyAtEnd(x, close)
    ensures ReplaceMarkerBlock(ReplaceMarkerBlock(html, open, close, x), open, close, y)
         == ReplaceMarkerBlock(html, open, close, y)
  {
    if FindBlock(html, open, close).Some? {
      var i, j := FindBlock(html, open, close).value.0, FindBlock(html, open, close).value.1;
      var r1 := ReplaceMarkerBlock(html, open, close, x);
      var c := i + |open| + |x|;
      FindBlockAgain(html, open, close, x, i, j);
      assert r1[c + |close|..] == html[j + |close|..];
      assert r1[..i] == html[..i];
    }
  }

  /** Writing the same content into a block twice is writing it once. */
  lemma {:induction false} ReplaceIdempotent(html: string, open: string, close: string, x: string)
    requires CloseOnlyAtEnd(x, close)
    ensures ReplaceMarkerBlock(ReplaceMarkerBlock(html, open, close, x), open, close, x)
         == ReplaceMarkerBlock(html, open, close, x)
  {
    ReplaceOverrides(html, open, close, x, x);
  }
}
