/**
 * Plan entries: the record the plan holds for one page, the resolution of parent
 * pages against the files present at the site root, and the two entry builders
 * (city x appliance x problem, and Denver brand x problem).
 */
module PlanEntries {
  import opened Wrappers
  import opened Text
  import opened PlanSlug
  import opened PlanCatalog

  datatype PageType = CityProblem | BrandProblem

  datatype Crumb = Crumb(title: string, url: string)

  /** Root-relative URLs of the parent pages; `brandPage` only on brand entries. */
  datatype Parents = Parents(cityPage: Option<string>, appliancePage: Option<string>, brandPage: Option<string>)

  /** One planned page. `brand` and `brandSlug` are absent on city entries. */
  datatype Entry = Entry(
    city: string, citySlug: string, state: string, tier: int, pageType: PageType,
    category: string, applianceSlug: string, problem: string, problemSlug: string,
    brand: Option<string>, brandSlug: Option<string>,
    slug: string, outputFilename: string, parentPage: string,
    parents: Parents, breadcrumbs: seq<Crumb>, internalLinks: seq<string>)

  /** The state every planned page is in. */
  const State: string := "CO"

  /** The booking page every entry links to last. */
  const BookUrl: string := "/book.html"

  /**
   * The hub page of a city among the root files: Denver's is `index.html`, any other
   * city's is `{slug}.html`; nothing when that file is not there.
   */
  function ResolveCityPage(citySlug: string, existing: set<string>): (r: Option<string>)
    ensures r.Some? ==> r.value in existing
    ensures r.Some? <==> (if citySlug == "denver" then "index.html" else citySlug + ".html") in existing
    ensures r.Some? ==> r.value == if citySlug == "denver" then "index.html" else citySlug + ".html"
  {
    if citySlug == "denver" then
      if "index.html" in existing then Some("index.html") else None
    else
      var candidate := citySlug + ".html";
      if candidate in existing then Some(candidate) else None
  }

  /** The service page of an appliance, when it is present among the root files. */
  function ResolveAppliancePage(servicePage: string, existing: set<string>): (r: Option<string>)
    ensures r.Some? <==> servicePage in existing
    ensures r.Some? ==> r.value == servicePage
  {
    if servicePage in existing then Some(servicePage) else None
  }

  /** The root-relative URL of a resolved page; nothing for a missing or empty one. */
  function UrlOf(page: Option<string>): (r: Option<string>)
    ensures r.Some? <==> Truthy(page)
    ensures r.Some? ==> r.value == "/" + page.value
  {
    if Truthy(page) then Some("/" + page.value) else None
  }

  /**
   * A breadcrumb trail: Home, then the city and the appliance crumbs when their
   * pages are known, then the page itself.
   */
  function Trail(cityName: string, cityUrl: Option<string>, applianceLabel: string,
                 applianceUrl: Option<string>, leaf: Crumb): (r: seq<Crumb>)
    ensures 2 <= |r| <= 4 && r[0] == Crumb("Home", "/") && r[|r| - 1] == leaf
    ensures |r| == 2 + (if cityUrl.Some? then 1 else 0) + (if applianceUrl.Some? then 1 else 0)
    ensures cityUrl.Some? ==> r[1] == Crumb(cityName, cityUrl.value)
    ensures applianceUrl.Some? ==> r[|r| - 2] == Crumb(applianceLabel, applianceUrl.value)
  {
    [Crumb("Home", "/")]
    + (if cityUrl.Some? then [Crumb(cityName, cityUrl.value)] else [])
    + (if applianceUrl.Some? then [Crumb(applianceLabel, applianceUrl.value)] else [])
    + [leaf]
  }

  /** Internal links: the known parent pages, then the extra links, then booking. */
  function Links(cityPage: Option<string>, appliancePage: Option<string>, extra: seq<string>): (r: seq<string>)
    ensures |r| >= 1 && r[|r| - 1] == BookUrl
    ensures r[..|r| - 1] == (if Truthy(cityPage) then ["/" + cityPage.value] else [])
                          + (if Truthy(appliancePage) then ["/" + appliancePage.value] else [])
                          + extra
  {
    (if Truthy(cityPage) then ["/" + cityPage.value] else [])
    + (if Truthy(appliancePage) then ["/" + appliancePage.value] else [])
    + extra + [BookUrl]
  }

  /** A city x appliance x problem entry. */
  function BuildCityProblemEntry(city: City, appliance: Appliance, problem: Problem,
                                 cityPage: Option<string>, appliancePage: Option<string>): (e: Entry)
    ensures e.slug == MakeSlug(city.slug, appliance.slug, problem.slug, None) && e.outputFilename == e.slug
    ensures e.pageType == CityProblem && e.brand.None? && e.citySlug == city.slug && e.applianceSlug == appliance.slug
    ensures e.parentPage == if Truthy(cityPage) then cityPage.value else city.slug + ".html"
    ensures e.parents == Parents(UrlOf(cityPage), UrlOf(appliancePage), None)
    ensures e.breadcrumbs == Trail(city.name, UrlOf(cityPage), appliance.name + " Repair", UrlOf(appliancePage),
                                   Crumb(appliance.name + " " + problem.name, "/" + e.slug))
    ensures e.internalLinks == Links(cityPage, appliancePage, [])
  {
    var slug := MakeSlug(city.slug, appliance.slug, problem.slug, None);
    Entry(
      city.name, city.slug, State, city.tier, CityProblem,
      appliance.name, appliance.slug, problem.name, problem.slug,
      None, None,
      slug, slug, if Truthy(cityPage) then cityPage.value else city.slug + ".html",
      Parents(UrlOf(cityPage), UrlOf(appliancePage), None),
      Trail(city.name, UrlOf(cityPage), appliance.name + " Repair", UrlOf(appliancePage),
            Crumb(appliance.name + " " + problem.name, "/" + slug)),
      Links(cityPage, appliancePage, []))
  }

  /** The URL of a brand's Denver page, as the link is written (whether or not the page exists). */
  function BrandPageUrl(brandSlug: string): string {
    "/" + brandSlug + "-appliance-repair-denver.html"
  }

  /** A Denver brand x problem entry. */
  function BuildBrandProblemEntry(b: BrandPage, city: City,
                                  cityPage: Option<string>, appliancePage: Option<string>): (e: Entry)
    ensures e.slug == MakeSlug(city.slug, b.applianceSlug, b.problemSlug, Some(b.brandSlug)) && e.outputFilename == e.slug
    ensures e.pageType == BrandProblem && e.brand == Some(b.brand) && e.citySlug == city.slug
    ensures e.applianceSlug == b.applianceSlug && e.tier == 1
    ensures e.parentPage == if Truthy(cityPage) then cityPage.value else "index.html"
    ensures e.parents == Parents(UrlOf(cityPage), UrlOf(appliancePage), Some(BrandPageUrl(b.brandSlug)))
    ensures e.breadcrumbs == Trail(city.name, UrlOf(cityPage), b.category + " Repair", UrlOf(appliancePage),
                                   Crumb(b.brand + " " + b.category + " " + b.problem, "/" + e.slug))
    ensures e.internalLinks == Links(cityPage, appliancePage, [BrandPageUrl(b.brandSlug)])
  {
    var slug := MakeSlug(city.slug, b.applianceSlug, b.problemSlug, Some(b.brandSlug));
    Entry(
      city.name, city.slug, State, 1, BrandProblem,
      b.category, b.applianceSlug, b.problem, b.problemSlug,
      Some(b.brand), Some(b.brandSlug),
      slug, slug, if Truthy(cityPage) then cityPage.value else "index.html",
      Parents(UrlOf(cityPage), UrlOf(appliancePage), Some(BrandPageUrl(b.brandSlug))),
      Trail(city.name, UrlOf(cityPage), b.category + " Repair", UrlOf(appliancePage),
            Crumb(b.brand + " " + b.category + " " + b.problem, "/" + slug)),
      Links(cityPage, appliancePage, [BrandPageUrl(b.brandSlug)]))
  }

  /** Every URL of an entry's trail and links is root-relative. */
  predicate RootRelative(e: Entry) {
    (forall c :: c in e.breadcrumbs ==> StartsWith(c.url, "/"))
    && (forall l :: l in e.internalLinks ==> StartsWith(l, "/"))
  }

  /**
   * The navigation of an entry hangs together: Home first and the page itself last
   * in the trail, every URL root-relative, booking as the last link, and the city
   * crumb present exactly when the city hub was found, pointing at the parent page.
   */
  predicate WellLinked(e: Entry) {
    |e.breadcrumbs| >= 2 && e.breadcrumbs[0] == Crumb("Home", "/")
    && e.breadcrumbs[|e.breadcrumbs| - 1].url == "/" + e.slug
    && |e.internalLinks| >= 1 && e.internalLinks[|e.internalLinks| - 1] == BookUrl
    && RootRelative(e)
    && (e.parents.cityPage.Some? ==>
          e.breadcrumbs[1].url == "/" + e.parentPage && e.internalLinks[0] == "/" + e.parentPage)
  }

  lemma {:induction false} TrailRootRelative(cityName: string, cityUrl: Option<string>, caption: string,
                          applianceUrl: Option<string>, leaf: Crumb)
    requires cityUrl.Some? ==> StartsWith(cityUrl.value, "/")
    requires applianceUrl.Some? ==> StartsWith(applianceUrl.value, "/")
    requires StartsWith(leaf.url, "/")
    ensures forall c :: c in Trail(cityName, cityUrl, caption, applianceUrl, leaf) ==> StartsWith(c.url, "/")
  {
  }

  lemma {:induction false} SlashStarts(s: string)
    ensures StartsWith("/" + s, "/")
  {
    assert ("/" + s)[..1] == "/";
  }

  lemma {:induction false} LinksRootRelative(cityPage: Option<string>, appliancePage: Option<string>, extra: seq<string>)
    requires forall l :: l in extra ==> StartsWith(l, "/")
    ensures forall l :: l in Links(cityPage, appliancePage, extra) ==> StartsWith(l, "/")
  {
    if Truthy(cityPage) { SlashStarts(cityPage.value); }
    if Truthy(appliancePage) { SlashStarts(appliancePage.value); }
    assert StartsWith(BookUrl, "/");
  }

  lemma {:induction false} UrlRootRelative(page: Option<string>)
    ensures UrlOf(page).Some? ==> StartsWith(UrlOf(page).value, "/")
  {
    if Truthy(page) { SlashStarts(page.value); }
  }

  /** Every city x appliance x problem entry is well linked. */
  lemma {:induction false} CityEntryWellLinked(city: City, appliance: Appliance, problem: Problem,
                            cityPage: Option<string>, appliancePage: Option<string>)
    ensures WellLinked(BuildCityProblemEntry(city, appliance, problem, cityPage, appliancePage))
  {
    var e := BuildCityProblemEntry(city, appliance, problem, cityPage, appliancePage);
    UrlRootRelative(cityPage);
    UrlRootRelative(appliancePage);
    SlashStarts(e.slug);
    TrailRootRelative(city.name, UrlOf(cityPage), appliance.name + " Repair", UrlOf(appliancePage),
                      Crumb(appliance.name + " " + problem.name, "/" + e.slug));
    LinksRootRelative(cityPage, appliancePage, []);
  }

  /** Every Denver brand x problem entry is well linked, and links its brand page just before booking. */
  lemma {:induction false} BrandEntryWellLinked(b: BrandPage, city: City, cityPage: Option<string>, appliancePage: Option<string>)
    ensures WellLinked(BuildBrandProblemEntry(b, city, cityPage, appliancePage))
    ensures var links := BuildBrandProblemEntry(b, city, cityPage, appliancePage).internalLinks;
            |links| >= 2 && links[|links| - 2] == BrandPageUrl(b.brandSlug)
  {
    var e := BuildBrandProblemEntry(b, city, cityPage, appliancePage);
    UrlRootRelative(cityPage);
    UrlRootRelative(appliancePage);
    SlashStarts(e.slug);
    SlashStarts(b.brandSlug + "-appliance-repair-denver.html");
    assert BrandPageUrl(b.brandSlug) == "/" + (b.brandSlug + "-appliance-repair-denver.html");
    TrailRootRelative(city.name, UrlOf(cityPage), b.category + " Repair", UrlOf(appliancePage),
                      Crumb(b.brand + " " + b.category + " " + b.problem, "/" + e.slug));
    LinksRootRelative(cityPage, appliancePage, [BrandPageUrl(b.brandSlug)]);
    var links := e.internalLinks;
    assert links[..|links| - 1][|links| - 2] == BrandPageUrl(b.brandSlug);
  }
}
