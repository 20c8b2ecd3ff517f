/**
 * Building the prompt of one page, writing the generated sections into the
 * template's marker blocks and replacing the seed location's phrases that the
 * template carries outside those blocks.
 */
module SeoContent {
  import opened Text
  import opened SeoMarkers
  import opened SeoResponse

  /** The fields of a plan record that prompt building and injection read. */
  datatype Record = Record(city: string, citySlug: string, category: string, problem: string, parentPage: string)

  /**
   * Applies a table of literal replacements in order, each to every occurrence
   * of its pattern: the loop `build_prompt` and `replace_city_references` share.
   */
  method Rewrite(s: string, pairs: seq<(string, string)>) returns (r: string)
    requires Patterns(pairs)
    ensures r == ApplyAll(s, pairs)
  {
    r := s;
    var k := 0;
    while k < |pairs|
      invariant 0 <= k <= |pairs|
      invariant Patterns(pairs[..k])
      invariant r == ApplyAll(s, pairs[..k])
    {
      assert pairs[..k + 1][..k] == pairs[..k];
      r := ReplaceAll(r, pairs[k].0, pairs[k].1);
      k := k + 1;
    }
    assert pairs[..|pairs|] == pairs;
  }

  // ---------------------------------------------------------------------
  // build_prompt
  // ---------------------------------------------------------------------

  /** The placeholders of the prompt template and their values, in the order they are replaced. */
  function PromptPairs(e: Record): seq<(string, string)> {
    [("{city}", e.city),
     ("{category}", e.category),
     ("{problem}", e.problem),
     ("{parent_page}", e.parentPage),
     ("{category_lower}", Lower(e.category)),
     ("{problem_lower}", Lower(e.problem))]
  }

  /** Every placeholder starts with an opening brace. */
  lemma {:induction false} PromptPatterns(e: Record)
    ensures Patterns(PromptPairs(e))
    ensures forall k :: 0 <= k < |PromptPairs(e)| ==> PromptPairs(e)[k].0[0] == '{'
  {
  }

  /** `build_prompt`: the prompt template with each placeholder replaced by the record's value. */
  method BuildPrompt(template: string, e: Record) returns (prompt: string)
    ensures prompt == ApplyAll(template, PromptPairs(e))
  {
    PromptPatterns(e);
    prompt := Rewrite(template, PromptPairs(e));
  }

  /** A template without a brace has no placeholder and comes back unchanged. */
  lemma {:induction false} PromptWithoutBraces(template: string, e: Record)
    requires '{' !in template
    ensures Patterns(PromptPairs(e)) && ApplyAll(template, PromptPairs(e)) == template
  {
    var pairs := PromptPairs(e);
    PromptPatterns(e);
    forall k | 0 <= k < |pairs| ensures !Contains(template, pairs[k].0) {
      ForeignCharNotContained(template, pairs[k].0, 0);
    }
    ApplyAllAbsent(template, pairs);
  }

  /** The city placeholder alone becomes the city, as long as the city holds no brace. */
  lemma {:induction false} PromptCity(e: Record)
    requires '{' !in e.city
    ensures Patterns(PromptPairs(e)) && ApplyAll("{city}", PromptPairs(e)) == e.city
  {
    var pairs := PromptPairs(e);
    PromptPatterns(e);
    ApplyAllCons("{city}", pairs);
    ReplaceWhole("{city}", e.city);
    forall k | 0 <= k < |pairs[1..]| ensures !Contains(e.city, pairs[1..][k].0) {
      ForeignCharNotContained(e.city, pairs[1..][k].0, 0);
    }
    ApplyAllAbsent(e.city, pairs[1..]);
  }

  // ---------------------------------------------------------------------
  // replace_city_references
  // ---------------------------------------------------------------------

  /** The location the template was written for. */
  const Seed := "Cherry Creek"

  /** A string without angle brackets, so no occurrence of it can overlap a comment marker's ends. */
  predicate Plain(s: string) {
    '<' !in s && '>' !in s
  }

  /** Words written one after the other. */
  function Concat(ws: seq<string>): string
    decreases |ws|
  {
    if ws == [] then "" else Concat(ws[..|ws| - 1]) + ws[|ws| - 1]
  }

  /** Words without angle brackets make a phrase without them, which ends as its last word does. */
  lemma {:induction false} ConcatShape(ws: seq<string>)
    requires forall k :: 0 <= k < |ws| ==> Plain(ws[k])
    ensures Plain(Concat(ws))
    ensures |ws| > 0 && |ws[|ws| - 1]| > 0 ==>
              |Concat(ws)| > 0 && Concat(ws)[|Concat(ws)| - 1] == ws[|ws| - 1][|ws[|ws| - 1]| - 1]
    decreases |ws|
  {
    if ws != [] {
      ConcatShape(ws[..|ws| - 1]);
    }
  }

  /**
   * The words of the seed location's phrases that the template carries outside
   * the marker blocks, phrase by phrase in the order they are replaced.
   */
  function SeedWords(k: nat): seq<string>
    requires k < 8
  {
    if k == 0 then ["Appliance ", "Repair ", "Services ", "in ", Seed]
    else if k == 1 then
      ["We ", "cover ", Seed, " North, ", Seed, " South, ", "and ", "all ", "surrounding ",
       "blocks ", "between ", "University ", "Boulevard ", "and ", "Colorado ", "Boulevard."]
    else if k == 2 then ["Same-day ", "appointments ", "available ", "in ", Seed, "."]
    else if k == 3 then ["Schedule ", "Appliance ", "Repair ", "in ", Seed]
    else if k == 4 then ["value=\"", "website-", "cherry-", "creek\""]
    else if k == 5 then ["Appliance ", "Repair ", "Near ", Seed]
    else if k == 6 then ["Appliance ", "Brands ", "We ", "Service ", "in ", Seed]
    else ["Need ", "Appliance ", "Repair ", "in ", Seed, "?"]
  }

  /** A seed phrase: "Appliance Repair Services in Cherry Creek", and so on. */
  function SeedPhrase(k: nat): string
    requires k < 8
  {
    Concat(SeedWords(k))
  }

  /** What each seed phrase becomes for the target city and its slug. */
  function CityPhrase(k: nat, city: string, slug: string): string
    requires k < 8
  {
    if k == 0 then "Appliance Repair Services in " + city
    else if k == 1 then "We provide full appliance repair coverage throughout " + city + " and surrounding neighborhoods."
    else if k == 2 then "Same-day appointments available in " + city + "."
    else if k == 3 then "Schedule Appliance Repair in " + city
    else if k == 4 then "value=\"website-" + slug + "\""
    else if k == 5 then "Appliance Repair Near " + city
    else if k == 6 then "Appliance Brands We Service in " + city
    else "Need Appliance Repair in " + city + "?"
  }

  /** The replacement table: each seed phrase with what it becomes. */
  function CityPairs(city: string, slug: string): (pairs: seq<(string, string)>)
    ensures |pairs| == 8
    ensures forall k :: 0 <= k < 8 ==> pairs[k] == (SeedPhrase(k), CityPhrase(k, city, slug))
  {
    seq(8, k requires 0 <= k < 8 => (SeedPhrase(k), CityPhrase(k, city, slug)))
  }

  /** Each seed phrase is non-empty, has no angle bracket and ends with a character no marker holds. */
  lemma {:induction false} SeedPhraseShape(k: nat)
    requires k < 8
    ensures |SeedPhrase(k)| > 0 && Plain(SeedPhrase(k)) && PhraseEnd(SeedPhrase(k)[|SeedPhrase(k)| - 1])
  {
    var ws := SeedWords(k);
    if k < 2 {
      LeadingWordsPlain(k);
    } else if k < 5 {
      MiddleWordsPlain(k);
    } else {
      TrailingWordsPlain(k);
    }
    ConcatShape(ws);
  }

  /** Words without angle brackets, the last of them non-empty and ending a seed phrase. */
  predicate WordsShape(ws: seq<string>) {
    (forall i :: 0 <= i < |ws| ==> Plain(ws[i]))
    && |ws| > 0 && |ws[|ws| - 1]| > 0 && PhraseEnd(ws[|ws| - 1][|ws[|ws| - 1]| - 1])
  }

  // The words of the seed phrases hold no angle bracket, a few words at a time.

  lemma {:induction false} WordsPlainA()
    ensures Plain("Appliance ") && Plain("Repair ") && Plain("Services ") && Plain("in ")
  {
  }

  lemma {:induction false} WordsPlainB()
    ensures Plain(Seed) && Plain("We ") && Plain("cover ") && Plain(" North, ")
  {
  }

  lemma {:induction false} WordsPlainC()
    ensures Plain(" South, ") && Plain("and ") && Plain("all ") && Plain("surrounding ")
  {
  }

  lemma {:induction false} WordsPlainD()
    ensures Plain("blocks ") && Plain("between ") && Plain("University ") && Plain("Boulevard ")
  {
  }

  lemma {:induction false} WordsPlainE()
    ensures Plain("Colorado ") && Plain("Boulevard.") && Plain("Same-day ") && Plain("appointments ")
  {
  }

  lemma {:induction false} WordsPlainF()
    ensures Plain("available ") && Plain(".") && Plain("Schedule ") && Plain("value=\"")
  {
  }

  lemma {:induction false} WordsPlainG()
    ensures Plain("website-") && Plain("cherry-") && Plain("creek\"") && Plain("Near ")
  {
  }

  lemma {:induction false} WordsPlainH()
    ensures Plain("Brands ") && Plain("Service ") && Plain("Need ") && Plain("?")
  {
  }

  /** The words of the first two seed phrases have that shape. */
  lemma {:induction false} LeadingWordsPlain(k: nat)
    requires k < 2
    ensures WordsShape(SeedWords(k))
  {
    WordsPlainA();
    WordsPlainB();
    WordsPlainC();
    WordsPlainD();
    WordsPlainE();
  }

  /** The same for the third to fifth seed phrases. */
  lemma {:induction false} MiddleWordsPlain(k: nat)
    requires 2 <= k < 5
    ensures WordsShape(SeedWords(k))
  {
    WordsPlainA();
    WordsPlainB();
    WordsPlainE();
    WordsPlainF();
    WordsPlainG();
  }

  /** The same for the last three seed phrases. */
  lemma {:induction false} TrailingWordsPlain(k: nat)
    requires 5 <= k < 8
    ensures WordsShape(SeedWords(k))
  {
    WordsPlainA();
    WordsPlainB();
    WordsPlainG();
    WordsPlainH();
  }

  lemma {:induction false} CityPatterns(city: string, slug: string)
    ensures Patterns(CityPairs(city, slug))
  {
    forall k | 0 <= k < 8 ensures |CityPairs(city, slug)[k].0| > 0 {
      SeedPhraseShape(k);
    }
  }

  /** `replace_city_references`: the eight phrase replacements applied one after the other. */
  method ReplaceCityReferences(html: string, city: string, slug: string) returns (r: string)
    ensures Patterns(CityPairs(city, slug)) && r == ApplyAll(html, CityPairs(city, slug))
  {
    CityPatterns(city, slug);
    r := Rewrite(html, CityPairs(city, slug));
  }

  /** A page holding none of the seed phrases comes back unchanged. */
  lemma {:induction false} CityReferencesAbsent(html: string, city: string, slug: string)
    requires forall k :: 0 <= k < 8 ==> !Contains(html, SeedPhrase(k))
    ensures Patterns(CityPairs(city, slug)) && ApplyAll(html, CityPairs(city, slug)) == html
  {
    CityPatterns(city, slug);
    ApplyAllAbsent(html, CityPairs(city, slug));
  }

  /** A block name: capital letters, digits and underscores. */
  predicate BlockName(name: string) {
    forall i :: 0 <= i < |name| ==> 'A' <= name[i] <= 'Z' || '0' <= name[i] <= '9' || name[i] == '_'
  }

  /** The names of the five template blocks, in the order of the marker table. */
  const BlockNames: seq<string> := ["SEO_TITLE", "SEO_META_DESCRIPTION", "SEO_H1", "SEO_INTRO", "SEO_BODY"]

  /** A marker string of a table is the open or the close marker of one of its pairs. */
  lemma {:induction false} MarkerStringsMember(pairs: seq<(string, string)>, m: string) returns (j: nat)
    requires m in MarkerStrings(pairs)
    ensures j < |pairs| && (m == pairs[j].0 || m == pairs[j].1)
    decreases |pairs|
  {
    if m == pairs[0].0 || m == pairs[0].1 {
      j := 0;
    } else {
      var j' := MarkerStringsMember(pairs[1..], m);
      j := j' + 1;
    }
  }

  /** The template's marker pairs are the open and close markers of the block names. */
  lemma {:induction false} RequiredNamed(j: nat)
    requires j < |RequiredMarkers|
    ensures j < |BlockNames| && RequiredMarkers[j] == (Open(BlockNames[j]), Close(BlockNames[j]))
    ensures BlockName(BlockNames[j])
  {
  }

  /** Every marker string is the open or the close comment of a block name. */
  lemma {:induction false} MarkerNamed(m: string) returns (name: string)
    requires m in MarkerStrings(RequiredMarkers)
    ensures BlockName(name) && (m == Open(name) || m == Close(name))
  {
    var j := MarkerStringsMember(RequiredMarkers, m);
    RequiredNamed(j);
    name := BlockNames[j];
  }

  /** A character that ends a seed phrase: no marker holds one. */
  predicate PhraseEnd(c: char) {
    c == 'k' || c == '.' || c == '"' || c == '?'
  }

  /** A marker starts with `<`, ends with `>` and holds no character that ends a seed phrase. */
  lemma {:induction false} MarkerShape(m: string)
    requires m in MarkerStrings(RequiredMarkers)
    ensures |m| > 0 && m[0] == '<' && m[|m| - 1] == '>'
    ensures forall c :: PhraseEnd(c) ==> c !in m
  {
    var name := MarkerNamed(m);
    forall c | PhraseEnd(c) ensures c !in m {
      assert c !in name;
      assert c !in "<!-- " && c !in "<!-- /" && c !in " -->";
    }
  }

  /** Replacing the seed phrases keeps every marker the page holds. */
  lemma {:induction false} CityReferencesKeepMarkers(html: string, city: string, slug: string, m: string)
    requires m in MarkerStrings(RequiredMarkers) && Contains(html, m)
    ensures Patterns(CityPairs(city, slug)) && Contains(ApplyAll(html, CityPairs(city, slug)), m)
  {
    var pairs := CityPairs(city, slug);
    CityPatterns(city, slug);
    forall k | 0 <= k < |pairs| ensures Unharmed(m, pairs[k].0) {
      SeedPhraseSparesMarker(m, k);
    }
    ApplyAllKeeps(html, pairs, m);
  }

  /** No seed phrase can touch a marker. */
  lemma {:induction false} SeedPhraseSparesMarker(m: string, k: nat)
    requires m in MarkerStrings(RequiredMarkers) && k < 8
    ensures Unharmed(m, SeedPhrase(k))
  {
    MarkerShape(m);
    SeedPhraseShape(k);
    PhraseSparesMarker(m, SeedPhrase(k));
  }

  /** A plain phrase ending in a character the marker lacks cannot touch the marker. */
  lemma {:induction false} PhraseSparesMarker(m: string, p: string)
    requires |m| > 0 && m[0] == '<' && m[|m| - 1] == '>' && forall c :: PhraseEnd(c) ==> c !in m
    requires |p| > 0 && Plain(p) && PhraseEnd(p[|p| - 1])
    ensures Unharmed(m, p)
  {
    ForeignCharNotContained(m, p, |p| - 1);
  }

  // ---------------------------------------------------------------------
  // inject_content
  // ---------------------------------------------------------------------

  /** The text written into each block: title and description as they are, the rest wrapped. */
  function H1Content(sec: Sections): string {
    "<h1>" + sec.h1 + "</h1>"
  }

  function IntroContent(sec: Sections): string {
    "\n            <p class=\"hero-text\">" + sec.intro + "</p>\n            "
  }

  function BodyContent(sec: Sections): string {
    "\n            <div class=\"content-body\">\n" + sec.body + "\n            </div>\n            "
  }

  /** The five block replacements, in the order title, description, h1, intro, body. */
  function WriteBlocks(template: string, sec: Sections): string {
    var h1 := ReplaceMarkerBlock(template, Open("SEO_TITLE"), Close("SEO_TITLE"), sec.title);
    var h2 := ReplaceMarkerBlock(h1, Open("SEO_META_DESCRIPTION"), Close("SEO_META_DESCRIPTION"), sec.description);
    var h3 := ReplaceMarkerBlock(h2, Open("SEO_H1"), Close("SEO_H1"), H1Content(sec));
    var h4 := ReplaceMarkerBlock(h3, Open("SEO_INTRO"), Close("SEO_INTRO"), IntroContent(sec));
    ReplaceMarkerBlock(h4, Open("SEO_BODY"), Close("SEO_BODY"), BodyContent(sec))
  }

  /** `inject_content`: the blocks written, then the seed phrases replaced with the record's city. */
  method InjectContent(template: string, sec: Sections, e: Record) returns (html: string)
    ensures Patterns(CityPairs(e.city, e.citySlug))
    ensures html == ApplyAll(WriteBlocks(template, sec), CityPairs(e.city, e.citySlug))
  {
    html := template;
    html := ReplaceMarkerBlock(html, Open("SEO_TITLE"), Close("SEO_TITLE"), sec.title);
    html := ReplaceMarkerBlock(html, Open("SEO_META_DESCRIPTION"), Close("SEO_META_DESCRIPTION"), sec.description);
    html := ReplaceMarkerBlock(html, Open("SEO_H1"), Close("SEO_H1"), H1Content(sec));
    html := ReplaceMarkerBlock(html, Open("SEO_INTRO"), Close("SEO_INTRO"), IntroContent(sec));
    html := ReplaceMarkerBlock(html, Open("SEO_BODY"), Close("SEO_BODY"), BodyContent(sec));
    html := ReplaceCityReferences(html, e.city, e.citySlug);
  }

  /**
   * When the body block is found at the last step, the injected page holds both
   * body markers: the last block write keeps its own markers and the phrase
   * replacements keep every marker.
   */
  lemma {:induction false} InjectKeepsBodyMarkers(template: string, sec: Sections, e: Record, h4: string)
    requires h4 == ReplaceMarkerBlock(
               ReplaceMarkerBlock(
                 ReplaceMarkerBlock(
                   ReplaceMarkerBlock(template, Open("SEO_TITLE"), Close("SEO_TITLE"), sec.title),
                   Open("SEO_META_DESCRIPTION"), Close("SEO_META_DESCRIPTION"), sec.description),
                 Open("SEO_H1"), Close("SEO_H1"), H1Content(sec)),
               Open("SEO_INTRO"), Close("SEO_INTRO"), IntroContent(sec))
    requires FindBlock(h4, Open("SEO_BODY"), Close("SEO_BODY")).Some?
    ensures Patterns(CityPairs(e.city, e.citySlug))
    ensures var page := ApplyAll(WriteBlocks(template, sec), CityPairs(e.city, e.citySlug));
            Contains(page, Open("SEO_BODY")) && Contains(page, Close("SEO_BODY"))
  {
    var w := WriteBlocks(template, sec);
    ReplaceKeepsOwnMarkers(h4, Open("SEO_BODY"), Close("SEO_BODY"), BodyContent(sec));
    assert Open("SEO_BODY") in MarkerStrings(RequiredMarkers);
    assert Close("SEO_BODY") in MarkerStrings(RequiredMarkers);
    CityReferencesKeepMarkers(w, e.city, e.citySlug, Open("SEO_BODY"));
    CityReferencesKeepMarkers(w, e.city, e.citySlug, Close("SEO_BODY"));
  }
}
