/**
 * The batch renderer for problem pages: required-field validation, the split
 * into pages to generate and pages skipped for lack of a body, the related-links
 * markup, and the twelve placeholder substitutions of the page template.
 */
module ProblemPages {
  import opened Wrappers
  import opened Text

  /** A related link as read from the batch; a missing property is `None`. */
  datatype Link = Link(href: Option<string>, caption: Option<string>)

  /** A page entry as read from the batch; a missing string property is `None`. */
  datatype Page = Page(
    dir: Option<string>, fileName: Option<string>,
    city: Option<string>, cityState: Option<string>,
    appliance: Option<string>, applianceDir: Option<string>, problem: Option<string>,
    title: Option<string>, metaDesc: Option<string>, h1: Option<string>,
    canonical: Option<string>, heroText: Option<string>, bodyHtml: Option<string>,
    relatedLinks: Option<seq<Link>>)

  /** A JavaScript string value that is truthy: present and not empty. */
  predicate Truthy(v: Option<string>) {
    v.Some? && v.value != ""
  }

  /** How a value prints in a template literal or as a replacement: a missing one as `undefined`. */
  function Shown(v: Option<string>): string {
    if v.Some? then v.value else "undefined"
  }

  /** `v || d`. */
  function OrElse(v: Option<string>, d: string): string {
    if Truthy(v) then v.value else d
  }

  const DefaultBase := "https://elevaterepair.com"

  /** `(batch.meta && batch.meta.canonicalBase) || DefaultBase`. */
  function CanonicalBase(configured: Option<string>): string {
    OrElse(configured, DefaultBase)
  }

  // ---------------------------------------------------------------------
  // buildRelatedLinksHtml
  // ---------------------------------------------------------------------

  const Indent := "                "

  function LinkLine(l: Link): string {
    Indent + "<a href=\"" + Shown(l.href) + "\" class=\"city-link\">" + Shown(l.caption) + "</a>"
  }

  function LinkLines(links: seq<Link>): (r: seq<string>)
    ensures |r| == |links| && forall k :: 0 <= k < |links| ==> r[k] == LinkLine(links[k])
  {
    seq(|links|, k requires 0 <= k < |links| => LinkLine(links[k]))
  }

  /** Empty for a missing or empty list; otherwise one line per link, joined by newlines. */
  function RelatedLinksHtml(links: Option<seq<Link>>): (r: string)
    ensures links.Some? && |links.value| == 1 ==> r == LinkLine(links.value[0])
  {
    if links.None? || links.value == [] then "" else Join(LinkLines(links.value), "\n")
  }

  /** A link's line breaks only where its own href or label does. */
  lemma {:induction false} LinkLineOneLine(l: Link)
    requires '\n' !in Shown(l.href) && '\n' !in Shown(l.caption)
    ensures '\n' !in LinkLine(l)
  {
    assert '\n' !in Indent;
    assert '\n' !in "<a href=\"";
    assert '\n' !in "\" class=\"city-link\">";
    assert '\n' !in "</a>";
  }

  /** The markup is empty exactly when there is no link. */
  lemma {:induction false} RelatedLinksEmpty(links: Option<seq<Link>>)
    ensures RelatedLinksHtml(links) == "" <==> links.None? || links.value == []
  {
    if links.Some? && links.value != [] {
      var lines := LinkLines(links.value);
      if |lines| > 1 {
        JoinCons(lines[0], lines[1..], "\n");
        assert lines == [lines[0]] + lines[1..];
      }
      assert |LinkLine(links.value[0])| > 0;
    }
  }

  /**
   * Cut at its newlines, the markup gives back one line per link in input order,
   * with nothing after the last: as long as no href or label holds a newline.
   */
  lemma {:induction false} RelatedLinksLines(links: seq<Link>)
    requires links != []
    requires forall k :: 0 <= k < |links| ==> '\n' !in Shown(links[k].href) && '\n' !in Shown(links[k].caption)
    ensures Split(RelatedLinksHtml(Some(links)), "\n") == LinkLines(links)
  {
    var lines := LinkLines(links);
    forall q | q in lines ensures '\n' !in q {
      var k :| 0 <= k < |lines| && lines[k] == q;
      LinkLineOneLine(links[k]);
    }
    SplitJoinChar(lines, '\n');
  }

  // ---------------------------------------------------------------------
  // renderPage
  // ---------------------------------------------------------------------

  /** The placeholders, in the order they are replaced. */
  const Placeholders: seq<string> := [
    "{{TITLE}}", "{{META_DESC}}", "{{CANONICAL}}", "{{H1}}", "{{HERO_TEXT}}", "{{BODY_HTML}}",
    "{{APPLIANCE}}", "{{APPLIANCE_DIR}}", "{{CITY}}", "{{CITY_STATE}}", "{{PROBLEM}}",
    "{{RELATED_LINKS_HTML}}"
  ]

  /** The page's own canonical URL when it has one, otherwise the base, directory and file name. */
  function Canonical(base: string, p: Page): string {
    OrElse(p.canonical, base + "/" + Shown(p.dir) + "/" + Shown(p.fileName))
  }

  /** The value put in place of each placeholder, in the same order. */
  function Values(base: string, p: Page): seq<string> {
    [Shown(p.title), Shown(p.metaDesc), Canonical(base, p), Shown(p.h1), OrElse(p.heroText, ""),
     Shown(p.bodyHtml), Shown(p.appliance), Shown(p.applianceDir), Shown(p.city), Shown(p.cityState),
     Shown(p.problem), RelatedLinksHtml(p.relatedLinks)]
  }

  function RenderPairs(base: string, p: Page): (pairs: seq<(string, string)>)
    ensures |pairs| == 12 && Patterns(pairs)
    ensures forall k :: 0 <= k < 12 ==> pairs[k] == (Placeholders[k], Values(base, p)[k])
  {
    seq(12, k requires 0 <= k < 12 => (Placeholders[k], Values(base, p)[k]))
  }

  /** `renderPage`: every occurrence of each placeholder replaced in turn by its value. */
  function RenderPage(template: string, base: string, p: Page): string {
    ApplyAll(template, RenderPairs(base, p))
  }

  /** A template without braces is rendered as it is. */
  lemma {:induction false} RenderWithoutBraces(template: string, base: string, p: Page)
    requires '{' !in template
    ensures RenderPage(template, base, p) == template
  {
    var pairs := RenderPairs(base, p);
    forall k | 0 <= k < |pairs| ensures !Contains(template, pairs[k].0) {
      assert Placeholders[k][0] == '{';
      ForeignCharNotContained(template, pairs[k].0, 0);
    }
    ApplyAllAbsent(template, pairs);
  }

  /** None of the placeholders replaced between the title and the city occurs in the city placeholder. */
  lemma {:induction false} CityPlaceholderUntouched(k: int)
    requires 1 <= k < 8
    ensures !Contains("{{CITY}}", Placeholders[k])
  {
    var q := Placeholders[k];
    if k == 2 {
      assert q[3] == 'A';
      ForeignCharNotContained("{{CITY}}", q, 3);
    } else {
      assert q[2] in "MHBA";
      ForeignCharNotContained("{{CITY}}", q, 2);
    }
  }

  /** Text without braces is left alone by the replacements after the city. */
  lemma {:induction false} AfterCityUntouched(base: string, p: Page, c: string)
    requires '{' !in c
    ensures ApplyAll(c, RenderPairs(base, p)[9..]) == c
  {
    var tail := RenderPairs(base, p)[9..];
    forall k | 0 <= k < |tail| ensures !Contains(c, tail[k].0) {
      assert tail[k].0 == Placeholders[k + 9];
      ForeignCharNotContained(c, tail[k].0, 0);
    }
    ApplyAllAbsent(c, tail);
  }

  /** The first eight replacements turn the title placeholder into the city placeholder when that is the title. */
  lemma {:induction false} TitleToCityPlaceholder(base: string, p: Page)
    requires p.title == Some("{{CITY}}")
    ensures ApplyAll("{{TITLE}}", RenderPairs(base, p)[..8]) == "{{CITY}}"
  {
    var head := RenderPairs(base, p)[..8];
    ApplyAllSplit("{{TITLE}}", head, 1);
    assert head[..1] == [("{{TITLE}}", "{{CITY}}")];
    ReplaceWhole("{{TITLE}}", "{{CITY}}");
    forall k | 0 <= k < 7 ensures !Contains("{{CITY}}", head[1..][k].0) {
      CityPlaceholderUntouched(k + 1);
    }
    ApplyAllAbsent("{{CITY}}", head[1..]);
  }

  /** The last four replacements turn the city placeholder into a brace-free city. */
  lemma {:induction false} CityPlaceholderToCity(base: string, p: Page, c: string)
    requires p.city == Some(c) && '{' !in c
    ensures ApplyAll("{{CITY}}", RenderPairs(base, p)[8..]) == c
  {
    var tail := RenderPairs(base, p)[8..];
    ApplyAllSplit("{{CITY}}", tail, 1);
    assert tail[..1] == [("{{CITY}}", c)];
    ReplaceWhole("{{CITY}}", c);
    assert tail[1..] == RenderPairs(base, p)[9..];
    AfterCityUntouched(base, p, c);
  }

  /**
   * Substitution cascades: a title that is itself the city placeholder comes out
   * as the city, because the city is replaced after the title.
   */
  lemma {:induction false} RenderCascade(base: string, p: Page, c: string)
    requires p.title == Some("{{CITY}}") && p.city == Some(c) && '{' !in c
    ensures RenderPage("{{TITLE}}", base, p) == c
  {
    ApplyAllSplit("{{TITLE}}", RenderPairs(base, p), 8);
    TitleToCityPlaceholder(base, p);
    CityPlaceholderToCity(base, p, c);
  }

  // ---------------------------------------------------------------------
  // Validation and the body filter
  // ---------------------------------------------------------------------

  /** The fields every page must have, in the order they are checked. */
  const RequiredFields: seq<string> :=
    ["dir", "fileName", "city", "cityState", "appliance", "applianceDir", "problem", "title", "metaDesc", "h1"]

  /** `p[field]` for the string fields a page is checked for; any other name reads as missing. */
  function Field(p: Page, name: string): Option<string> {
    if name == "dir" then p.dir
    else if name == "fileName" then p.fileName
    else if name == "city" then p.city
    else if name == "cityState" then p.cityState
    else if name == "appliance" then p.appliance
    else if name == "applianceDir" then p.applianceDir
    else if name == "problem" then p.problem
    else if name == "title" then p.title
    else if name == "metaDesc" then p.metaDesc
    else if name == "h1" then p.h1
    else None
  }

  /** `pages[i] (dir/fileName)`, with `?` for a missing part. */
  function Label(i: nat, p: Page): string {
    "pages[" + Decimal(i) + "] (" + OrElse(p.dir, "?") + "/" + OrElse(p.fileName, "?") + ")"
  }

  const MissingInfix := ": missing required field \""

  function MissingField(heading: string, f: string): string {
    heading + MissingInfix + f + "\""
  }

  /** The messages for the fields of `fields` that `p` lacks, in order. */
  function FieldErrors(heading: string, p: Page, fields: seq<string>): (r: seq<string>)
    ensures |r| <= |fields|
    decreases |fields|
  {
    if fields == [] then []
    else
      var n := |fields| - 1;
      FieldErrors(heading, p, fields[..n]) + (if Truthy(Field(p, fields[n])) then [] else [MissingField(heading, fields[n])])
  }

  /** The validation errors of a batch, page by page. */
  function Errors(pages: seq<Page>): seq<string>
    decreases |pages|
  {
    if pages == [] then []
    else
      var n := |pages| - 1;
      Errors(pages[..n]) + FieldErrors(Label(n, pages[n]), pages[n], RequiredFields)
  }

  /** The page has a body: `bodyHtml` is truthy and not blank once trimmed. */
  predicate HasBody(p: Page) {
    Truthy(p.bodyHtml) && JsTrim(p.bodyHtml.value) != ""
  }

  /** The labels of the pages without a body, in order. */
  function Skipped(pages: seq<Page>): seq<string>
    decreases |pages|
  {
    if pages == [] then []
    else
      var n := |pages| - 1;
      Skipped(pages[..n]) + (if HasBody(pages[n]) then [] else [Label(n, pages[n])])
  }

  /** `pages.filter(...)`: the pages with a body, in order. */
  function ToGenerate(pages: seq<Page>): (r: seq<Page>)
    ensures forall q :: q in r ==> HasBody(q)
    decreases |pages|
  {
    if pages == [] then []
    else
      var n := |pages| - 1;
      ToGenerate(pages[..n]) + (if HasBody(pages[n]) then [pages[n]] else [])
  }

  /** The message names its field: with the same heading, equal messages mean the same field. */
  lemma {:induction false} MissingFieldInjective(heading: string, f: string, g: string)
    requires MissingField(heading, f) == MissingField(heading, g)
    ensures f == g
  {
    var m := MissingField(heading, f);
    var lo := |heading| + |MissingInfix|;
    assert m[lo..|m| - 1] == f;
    assert MissingField(heading, g)[lo..|m| - 1] == g;
  }

  /** Each field of the list gives its message once per time it is listed and lacking, and no other message appears. */
  lemma {:induction false} FieldErrorsCount(heading: string, p: Page, fields: seq<string>, f: string)
    ensures multiset(FieldErrors(heading, p, fields))[MissingField(heading, f)]
         == if Truthy(Field(p, f)) then 0 else multiset(fields)[f]
    decreases |fields|
  {
    if fields != [] {
      var n := |fields| - 1;
      FieldErrorsCount(heading, p, fields[..n], f);
      FieldErrorsSnoc(heading, p, fields);
      if MissingField(heading, fields[n]) == MissingField(heading, f) {
        MissingFieldInjective(heading, fields[n], f);
      }
    }
  }

  lemma {:induction false} FieldErrorsSnoc(heading: string, p: Page, fields: seq<string>)
    requires fields != []
    ensures var n := |fields| - 1;
            multiset(fields) == multiset(fields[..n]) + multiset{fields[n]}
    ensures var n := |fields| - 1;
            multiset(FieldErrors(heading, p, fields))
            == multiset(FieldErrors(heading, p, fields[..n]))
               + if Truthy(Field(p, fields[n])) then multiset{} else multiset{MissingField(heading, fields[n])}
  {
    var n := |fields| - 1;
    assert fields == fields[..n] + [fields[n]];
  }

  /** Every message of a page is about a field of the list it lacks. */
  lemma {:induction false} FieldErrorsSound(heading: string, p: Page, fields: seq<string>)
    ensures forall m :: m in FieldErrors(heading, p, fields) ==>
              exists k :: 0 <= k < |fields| && m == MissingField(heading, fields[k]) && !Truthy(Field(p, fields[k]))
    decreases |fields|
  {
    if fields != [] {
      var n := |fields| - 1;
      FieldErrorsSound(heading, p, fields[..n]);
      forall m | m in FieldErrors(heading, p, fields)
        ensures exists k :: 0 <= k < |fields| && m == MissingField(heading, fields[k]) && !Truthy(Field(p, fields[k]))
      {
        if m in FieldErrors(heading, p, fields[..n]) {
          var k :| 0 <= k < n && m == MissingField(heading, fields[..n][k]) && !Truthy(Field(p, fields[..n][k]));
          assert fields[..n][k] == fields[k];
        } else {
          assert m == MissingField(heading, fields[n]);
        }
      }
    }
  }

  /** All ten required fields of a page truthy. */
  predicate PageComplete(p: Page) {
    forall k :: 0 <= k < |RequiredFields| ==> Truthy(Field(p, RequiredFields[k]))
  }

  /** All ten required fields of every page truthy. */
  predicate Complete(pages: seq<Page>) {
    forall i :: 0 <= i < |pages| ==> PageComplete(pages[i])
  }

  /** A page has no message exactly when it has every field of the list. */
  lemma {:induction false} FieldErrorsEmpty(heading: string, p: Page, fields: seq<string>)
    ensures FieldErrors(heading, p, fields) == [] <==> forall k :: 0 <= k < |fields| ==> Truthy(Field(p, fields[k]))
    decreases |fields|
  {
    if fields != [] {
      var n := |fields| - 1;
      FieldErrorsEmpty(heading, p, fields[..n]);
      assert forall k :: 0 <= k < n ==> fields[..n][k] == fields[k];
    }
  }

  /** A batch passes validation exactly when every page has every required field. */
  lemma {:induction false} ErrorsEmpty(pages: seq<Page>)
    ensures Errors(pages) == [] <==> Complete(pages)
    decreases |pages|
  {
    if pages != [] {
      var n := |pages| - 1;
      ErrorsEmpty(pages[..n]);
      LastPageErrors(Label(n, pages[n]), pages[n]);
      CompleteSnoc(pages);
    }
  }

  /** The last page adds no message exactly when it is complete. */
  lemma {:induction false} LastPageErrors(heading: string, p: Page)
    ensures FieldErrors(heading, p, RequiredFields) == [] <==> PageComplete(p)
  {
    FieldErrorsEmpty(heading, p, RequiredFields);
  }

  lemma {:induction false} CompleteSnoc(pages: seq<Page>)
    requires pages != []
    ensures Complete(pages) <==> Complete(pages[..|pages| - 1]) && PageComplete(pages[|pages| - 1])
  {
    var n := |pages| - 1;
    assert forall i :: 0 <= i < n ==> pages[..n][i] == pages[i];
  }

  /** Every page is either generated or skipped. */
  lemma {:induction false} Partition(pages: seq<Page>)
    ensures |ToGenerate(pages)| + |Skipped(pages)| == |pages|
    decreases |pages|
  {
    if pages != [] {
      Partition(pages[..|pages| - 1]);
    }
  }

  /** The filter keeps order: filtering a concatenation is concatenating the filtered parts. */
  lemma {:induction false} ToGenerateAppend(a: seq<Page>, b: seq<Page>)
    ensures ToGenerate(a + b) == ToGenerate(a) + ToGenerate(b)
    decreases |b|
  {
    if b != [] {
      var n := |b| - 1;
      ToGenerateAppend(a, b[..n]);
      assert (a + b)[..|a + b| - 1] == a + b[..n];
    } else {
      assert a + b == a;
    }
  }

  /** A page is generated exactly when it has a body. */
  lemma {:induction false} ToGenerateMembers(pages: seq<Page>, i: nat)
    requires i < |pages|
    ensures HasBody(pages[i]) <==> pages[i] in ToGenerate(pages)
    ensures !HasBody(pages[i]) ==> Label(i, pages[i]) in Skipped(pages)
    decreases |pages|
  {
    var n := |pages| - 1;
    if i < n {
      ToGenerateMembers(pages[..n], i);
      assert pages[..n][i] == pages[i];
    }
  }

  /** The validation loop: errors for missing fields, labels of pages without a body. */
  method ValidatePages(pages: seq<Page>) returns (errors: seq<string>, skipped: seq<string>)
    ensures errors == Errors(pages) && skipped == Skipped(pages)
  {
    errors, skipped := [], [];
    var i := 0;
    while i < |pages|
      invariant 0 <= i <= |pages|
      invariant errors == Errors(pages[..i]) && skipped == Skipped(pages[..i])
    {
      var p := pages[i];
      var heading := Label(i, p);
      assert pages[..i + 1][..i] == pages[..i];
      var missing := CheckFields(heading, p, RequiredFields);
      errors := errors + missing;
      if !(p.bodyHtml.Some? && p.bodyHtml.value != "") || JsTrim(p.bodyHtml.value) == "" {
        skipped := skipped + [heading];
      }
      i := i + 1;
    }
    assert pages[..i] == pages;
  }

  /** The inner loop over the required fields of one page. */
  method CheckFields(heading: string, p: Page, fields: seq<string>) returns (errors: seq<string>)
    ensures errors == FieldErrors(heading, p, fields)
  {
    errors := [];
    var k := 0;
    while k < |fields|
      invariant 0 <= k <= |fields|
      invariant errors == FieldErrors(heading, p, fields[..k])
    {
      assert fields[..k + 1][..k] == fields[..k];
      var v := Field(p, fields[k]);
      if !(v.Some? && v.value != "") {
        errors := errors + [MissingField(heading, fields[k])];
      }
      k := k + 1;
    }
    assert fields[..k] == fields;
  }

  // ---------------------------------------------------------------------
  // The run
  // ---------------------------------------------------------------------

  /** How a batch ends: no pages, invalid, nothing to generate, or the rendered pages with their paths. */
  datatype Outcome =
    | NoPages
    | Invalid(errors: seq<string>)
    | NothingToGenerate(skipped: seq<string>)
    | Generated(rendered: seq<(string, string)>, skipped: seq<string>)

  function RelPath(p: Page): string {
    Shown(p.dir) + "/" + Shown(p.fileName)
  }

  /** The batch as the script runs it, with the template and the configured base given. */
  function Run(template: string, configured: Option<string>, pages: Option<seq<Page>>): Outcome {
    if pages.None? || pages.value == [] then NoPages
    else if Errors(pages.value) != [] then Invalid(Errors(pages.value))
    else
      var gen := ToGenerate(pages.value);
      if gen == [] then NothingToGenerate(Skipped(pages.value))
      else
        var base := CanonicalBase(configured);
        Generated(seq(|gen|, k requires 0 <= k < |gen| => (RelPath(gen[k]), RenderPage(template, base, gen[k]))),
                  Skipped(pages.value))
  }

  /**
   * Nothing is rendered unless every page has every required field; then each
   * page is either rendered, in order, or skipped.
   */
  lemma {:induction false} RunOutcome(template: string, configured: Option<string>, pages: seq<Page>)
    requires pages != []
    ensures Run(template, configured, Some(pages)).Invalid? <==> !Complete(pages)
    ensures Run(template, configured, Some(pages)).Generated? ==>
              var o := Run(template, configured, Some(pages));
              Complete(pages) && |o.rendered| + |o.skipped| == |pages|
              && forall k :: 0 <= k < |o.rendered| ==>
                   o.rendered[k].1 == RenderPage(template, CanonicalBase(configured), ToGenerate(pages)[k])
  {
    ErrorsEmpty(pages);
    Partition(pages);
  }
}
