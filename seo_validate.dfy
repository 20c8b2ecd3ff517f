/**
 * The checks run on an injected page before it is written: a leak of the seed
 * location's name into the main content, merge-conflict markers, and the open
 * markers of the five blocks.
 */
module SeoValidate {
  import opened Wrappers
  import opened Text
  import opened SeoMarkers
  import SeoContent

  /** The end of the page header and the start of its footer. */
  const HeaderEnd := "</header>"
  const FooterStart := "<footer"

  /** The navigation link to the seed location's page, removed before the leak test. */
  const SeedLink := "href=\"/cherry-creek.html\""

  const MergeMessage := "Merge conflict markers detected"

  function LeakMessage(city: string): string {
    "Cherry Creek reference found in " + city + " page content"
  }

  function MissingMessage(m: string): string {
    "Missing marker: " + m
  }

  /**
   * `</header>(.*)<footer` in dot-all mode: the text from the end of the first
   * header close to the last footer start after it, if there is one.
   */
  function MainRegion(html: string): (r: Option<string>)
    ensures r.Some? ==> Contains(html, HeaderEnd + r.value + FooterStart)
  {
    match FindFrom(html, HeaderEnd, 0)
    case None => None
    case Some(i) =>
      match FindLast(html, FooterStart, i + |HeaderEnd|)
      case None => None
      case Some(f) =>
        assert OccursAt(html, HeaderEnd + html[i + |HeaderEnd|..f] + FooterStart, i) by {
          assert html[i..f + |FooterStart|] == html[i..i + |HeaderEnd|] + html[i + |HeaderEnd|..f] + html[f..f + |FooterStart|];
        }
        Some(html[i + |HeaderEnd|..f])
  }

  /** A header close followed, at or after its end, by a footer start. */
  predicate Framed(html: string, i: int, f: int) {
    OccursAt(html, HeaderEnd, i) && i + |HeaderEnd| <= f && OccursAt(html, FooterStart, f)
  }

  /**
   * The region exists exactly when some header close is followed by a footer
   * start, and it then runs from the first header close to the last footer start.
   */
  lemma {:induction false} MainRegionFramed(html: string)
    ensures MainRegion(html).Some? <==> exists i, f :: Framed(html, i, f)
    ensures MainRegion(html).Some? ==>
              exists i, f :: Framed(html, i, f) && MainRegion(html).value == html[i + |HeaderEnd|..f]
                && (forall k :: 0 <= k < i ==> !OccursAt(html, HeaderEnd, k))
                && (forall k :: f < k ==> !OccursAt(html, FooterStart, k))
  {
    match FindFrom(html, HeaderEnd, 0)
    case None =>
      forall i, f | Framed(html, i, f) ensures false {
      }
    case Some(i0) =>
      match FindLast(html, FooterStart, i0 + |HeaderEnd|)
      case None =>
        forall i, f | Framed(html, i, f) ensures false {
        }
      case Some(f0) =>
        assert Framed(html, i0, f0);
  }

  /** The leak test: the seed location's name still in the main region once its page links are removed. */
  predicate Leaks(html: string, city: string) {
    city != SeoContent.Seed
    && MainRegion(html).Some?
    && Contains(ReplaceAll(MainRegion(html).value, SeedLink, ""), SeoContent.Seed)
  }

  /** The merge test as the code groups it: `A or (B and C)`. */
  predicate MergeMarked(html: string) {
    Contains(html, "<<<<<<") || (Contains(html, "=======") && Contains(html, ">>>>>>>"))
  }

  /** One message per open marker of `pairs` absent from the page, in table order. */
  function MarkerErrors(html: string, pairs: seq<(string, string)>): (r: seq<string>)
    ensures |r| <= |pairs|
    decreases |pairs|
  {
    if pairs == [] then []
    else
      var n := |pairs| - 1;
      MarkerErrors(html, pairs[..n]) + (if Contains(html, pairs[n].0) then [] else [MissingMessage(pairs[n].0)])
  }

  /** One more pair of the table adds at most its own message at the end. */
  lemma {:induction false} MarkerErrorsStep(html: string, pairs: seq<(string, string)>, k: nat)
    requires k < |pairs|
    ensures MarkerErrors(html, pairs[..k + 1])
         == MarkerErrors(html, pairs[..k]) + (if Contains(html, pairs[k].0) then [] else [MissingMessage(pairs[k].0)])
  {
    assert pairs[..k + 1][..k] == pairs[..k];
  }

  /** The marker named in a message is recovered from it. */
  lemma {:induction false} MissingMessageInjective(m: string, m': string)
    requires MissingMessage(m) == MissingMessage(m')
    ensures m == m'
  {
    assert m == MissingMessage(m)[16..];
    assert m' == MissingMessage(m')[16..];
  }

  /** Every message reports an open marker of the table that the page lacks. */
  lemma {:induction false} MarkerErrorsSound(html: string, pairs: seq<(string, string)>)
    ensures forall x :: x in MarkerErrors(html, pairs) ==>
              exists k :: 0 <= k < |pairs| && x == MissingMessage(pairs[k].0) && !Contains(html, pairs[k].0)
    decreases |pairs|
  {
    if pairs != [] {
      var n := |pairs| - 1;
      MarkerErrorsSound(html, pairs[..n]);
      forall x | x in MarkerErrors(html, pairs)
        ensures exists k :: 0 <= k < |pairs| && x == MissingMessage(pairs[k].0) && !Contains(html, pairs[k].0)
      {
        if x in MarkerErrors(html, pairs[..n]) {
          var k :| 0 <= k < n && x == MissingMessage(pairs[..n][k].0) && !Contains(html, pairs[..n][k].0);
          assert pairs[..n][k] == pairs[k];
        } else {
          assert x == MissingMessage(pairs[n].0) && !Contains(html, pairs[n].0);
        }
      }
    }
  }

  /** Every open marker of the table that the page lacks is reported. */
  lemma {:induction false} MarkerErrorsComplete(html: string, pairs: seq<(string, string)>, k: int)
    requires 0 <= k < |pairs| && !Contains(html, pairs[k].0)
    ensures MissingMessage(pairs[k].0) in MarkerErrors(html, pairs)
    decreases |pairs|
  {
    var n := |pairs| - 1;
    if k < n {
      assert pairs[..n][k] == pairs[k];
      MarkerErrorsComplete(html, pairs[..n], k);
    }
  }

  /** A missing-marker message appears exactly for the open markers of the table that the page lacks. */
  lemma {:induction false} MarkerErrorsReport(html: string, pairs: seq<(string, string)>, m: string)
    ensures MissingMessage(m) in MarkerErrors(html, pairs) <==>
              exists k :: 0 <= k < |pairs| && pairs[k].0 == m && !Contains(html, m)
  {
    if MissingMessage(m) in MarkerErrors(html, pairs) {
      MarkerErrorsSound(html, pairs);
      var k :| 0 <= k < |pairs| && MissingMessage(m) == MissingMessage(pairs[k].0) && !Contains(html, pairs[k].0);
      MissingMessageInjective(m, pairs[k].0);
    }
    if exists k :: 0 <= k < |pairs| && pairs[k].0 == m && !Contains(html, m) {
      var k :| 0 <= k < |pairs| && pairs[k].0 == m && !Contains(html, m);
      MarkerErrorsComplete(html, pairs, k);
    }
  }

  /** The errors of a page, in the order the checks run: leak, merge, markers. */
  function OutputErrors(html: string, city: string): seq<string> {
    (if Leaks(html, city) then [LeakMessage(city)] else [])
    + (if MergeMarked(html) then [MergeMessage] else [])
    + MarkerErrors(html, RequiredMarkers)
  }

  /** The marker loop of `validate_output`: a message per absent open marker, in table order. */
  method CheckOpenMarkers(html: string, pairs: seq<(string, string)>) returns (errors: seq<string>)
    ensures errors == MarkerErrors(html, pairs)
  {
    errors := [];
    var k := 0;
    while k < |pairs|
      invariant 0 <= k <= |pairs|
      invariant errors == MarkerErrors(html, pairs[..k])
    {
      var open := pairs[k].0;
      MarkerErrorsStep(html, pairs, k);
      if !Contains(html, open) {
        errors := errors + [MissingMessage(open)];
      }
      k := k + 1;
    }
    assert pairs[..k] == pairs;
  }

  /** `validate_output`: the list of problems found in a generated page. */
  method ValidateOutput(html: string, city: string) returns (errors: seq<string>)
    ensures errors == OutputErrors(html, city)
  {
    errors := [];
    if city != SeoContent.Seed {
      var region := MainRegion(html);
      if region.Some? {
        var cleaned := ReplaceAll(region.value, SeedLink, "");
        if Contains(cleaned, SeoContent.Seed) {
          errors := errors + [LeakMessage(city)];
        }
      }
    }
    if Contains(html, "<<<<<<") || (Contains(html, "=======") && Contains(html, ">>>>>>>")) {
      errors := errors + [MergeMessage];
    }
    var missing := CheckOpenMarkers(html, RequiredMarkers);
    errors := errors + missing;
  }

  /** The three kinds of message never coincide. */
  lemma {:induction false} MessagesDiffer(city: string, m: string)
    ensures LeakMessage(city) != MergeMessage && LeakMessage(city) != MissingMessage(m)
    ensures MergeMessage != MissingMessage(m)
  {
    assert LeakMessage(city)[0] == 'C' && MergeMessage[0] == 'M' && MissingMessage(m)[0] == 'M';
    assert MergeMessage[1] == 'e' && MissingMessage(m)[1] == 'i';
  }

  /** A page passes exactly when it does not leak, carries no merge markers and holds every open marker. */
  lemma {:induction false} OutputErrorsEmpty(html: string, city: string)
    ensures OutputErrors(html, city) == [] <==>
              !Leaks(html, city) && !MergeMarked(html)
              && forall k :: 0 <= k < |RequiredMarkers| ==> Contains(html, RequiredMarkers[k].0)
  {
    var ms := MarkerErrors(html, RequiredMarkers);
    if ms != [] {
      assert ms[0] in ms;
      MarkerErrorsSound(html, RequiredMarkers);
    }
    if exists k :: 0 <= k < |RequiredMarkers| && !Contains(html, RequiredMarkers[k].0) {
      var k :| 0 <= k < |RequiredMarkers| && !Contains(html, RequiredMarkers[k].0);
      MarkerErrorsComplete(html, RequiredMarkers, k);
    }
  }

  /** An open marker is reported missing exactly when the page lacks it; close markers are never checked. */
  lemma {:induction false} MissingMarkerReported(html: string, city: string, m: string)
    ensures MissingMessage(m) in OutputErrors(html, city) <==>
              (exists k :: 0 <= k < |RequiredMarkers| && RequiredMarkers[k].0 == m) && !Contains(html, m)
  {
    MessagesDiffer(city, m);
    MarkerErrorsReport(html, RequiredMarkers, m);
  }

  /** The merge message appears exactly when the merge test holds, and then right after any leak message. */
  lemma {:induction false} MergeReported(html: string, city: string)
    ensures MergeMessage in OutputErrors(html, city) <==> MergeMarked(html)
    ensures MergeMarked(html) ==> OutputErrors(html, city)[if Leaks(html, city) then 1 else 0] == MergeMessage
  {
    MessagesDiffer(city, "");
    var ms := MarkerErrors(html, RequiredMarkers);
    if MergeMessage in ms {
      MarkerErrorsSound(html, RequiredMarkers);
      var k :| 0 <= k < |RequiredMarkers| && MergeMessage == MissingMessage(RequiredMarkers[k].0)
                && !Contains(html, RequiredMarkers[k].0);
      MessagesDiffer(city, RequiredMarkers[k].0);
      assert false;
    }
  }

  /** Pages for the seed location itself are never reported as leaking. */
  lemma {:induction false} SeedPageNeverLeaks(html: string)
    ensures !Leaks(html, SeoContent.Seed)
    ensures OutputErrors(html, SeoContent.Seed) == (if MergeMarked(html) then [MergeMessage] else [])
                                                   + MarkerErrors(html, RequiredMarkers)
  {
  }

  /**
   * Without the seed location's link in the main region, a page for another
   * city leaks exactly when the region names the seed location.
   */
  lemma {:induction false} LeakWithoutLinks(html: string, city: string)
    requires city != SeoContent.Seed && MainRegion(html).Some?
    requires !Contains(MainRegion(html).value, SeedLink)
    ensures Leaks(html, city) <==> Contains(MainRegion(html).value, SeoContent.Seed)
  {
    ReplaceAllAbsent(MainRegion(html).value, SeedLink, "");
  }
}
