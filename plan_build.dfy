/**
 * Plan generation: the three phases (Denver matrix, tier-2 matrix, Denver brand
 * pages), de-duplication by slug against the pages already planned and the pages
 * already in the repository, the optional cap on the plan size, and the filters.
 *
 * The functions below are the specification: `PlanSpec` runs the phases over the
 * candidate lists with the same stop checks the generator makes. `GeneratePlan` is
 * the generator itself, nested loops with early exits over a `PlanBuilder`.
 */
module PlanBuild {
  import opened Wrappers
  import opened Text
  import opened PlanSlug
  import opened PlanCatalog
  import opened PlanEntries

  // ---------------------------------------------------------------------
  // Statistics and the state of `add_entry`
  // ---------------------------------------------------------------------

  /** The counter an admitted entry is counted under. */
  datatype StatKey = DenverCityProblems | Tier2CityProblems | DenverBrandProblems

  datatype Stats = Stats(
    denverCityProblems: nat, tier2CityProblems: nat, denverBrandProblems: nat,
    skippedExisting: nat, skippedDuplicate: nat)

  const NoStats: Stats := Stats(0, 0, 0, 0, 0)

  function Bump(st: Stats, key: StatKey): Stats {
    match key
    case DenverCityProblems => st.(denverCityProblems := st.denverCityProblems + 1)
    case Tier2CityProblems => st.(tier2CityProblems := st.tier2CityProblems + 1)
    case DenverBrandProblems => st.(denverBrandProblems := st.denverBrandProblems + 1)
  }

  /** Entries counted as added. */
  function AddedCount(st: Stats): nat {
    st.denverCityProblems + st.tier2CityProblems + st.denverBrandProblems
  }

  /** Entries offered to `add_entry`, whatever became of them. */
  function OfferedCount(st: Stats): nat {
    AddedCount(st) + st.skippedExisting + st.skippedDuplicate
  }

  /** The plan so far, the slugs seen, the slugs that collided with existing pages, and the counters. */
  datatype Acc = Acc(plan: seq<Entry>, seen: set<string>, conflicts: seq<string>, stats: Stats)

  const Start: Acc := Acc([], {}, [], NoStats)

  /**
   * `add_entry`: a slug already seen is a duplicate; a slug of an existing page is a
   * conflict (and is marked seen); any other entry joins the plan.
   */
  function Admit(a: Acc, e: Entry, key: StatKey, existing: set<string>): (r: Acc)
    ensures r.seen == a.seen + {e.slug}
    ensures OfferedCount(r.stats) == OfferedCount(a.stats) + 1
    ensures r.plan == (if e.slug in a.seen || e.slug in existing then a.plan else a.plan + [e])
    ensures r.conflicts == (if e.slug !in a.seen && e.slug in existing then a.conflicts + [e.slug] else a.conflicts)
  {
    if e.slug in a.seen then
      a.(stats := a.stats.(skippedDuplicate := a.stats.skippedDuplicate + 1))
    else if e.slug in existing then
      Acc(a.plan, a.seen + {e.slug}, a.conflicts + [e.slug],
          a.stats.(skippedExisting := a.stats.skippedExisting + 1))
    else
      Acc(a.plan + [e], a.seen + {e.slug}, a.conflicts, Bump(a.stats, key))
  }

  /** `limit and len(plan) >= limit`: no limit and a zero limit never stop the generator. */
  predicate Capped(limit: Option<int>, n: nat) {
    limit.Some? && limit.value != 0 && n >= limit.value
  }

  // ---------------------------------------------------------------------
  // Candidates
  // ---------------------------------------------------------------------

  /** An entry the generator offers to `add_entry`, with the counter it goes to. */
  datatype Candidate = Candidate(entry: Entry, key: StatKey)

  /** A list filter is in force when it is given and not empty. */
  predicate Active(filter: Option<seq<string>>) {
    filter.Some? && |filter.value| > 0
  }

  /** The filter values, stripped and lower-cased. */
  function NormalizeFilter(values: seq<string>): set<string> {
    set v | v in values :: Lower(PyStrip(v))
  }

  /** A slug passes a filter that is not in force, or that names it. */
  predicate Selected(filter: Option<seq<string>>, slug: string) {
    !Active(filter) || slug in NormalizeFilter(filter.value)
  }

  /** The appliances of a matrix that pass the appliance filter, in table order. */
  function KeepAppliances(apps: seq<Appliance>, filter: Option<seq<string>>): (r: seq<Appliance>)
    ensures forall a :: a in r <==> a in apps && Selected(filter, a.slug)
    ensures |r| <= |apps|
  {
    if apps == [] then []
    else (if Selected(filter, apps[0].slug) then [apps[0]] else []) + KeepAppliances(apps[1..], filter)
  }

  /** The tier-2 cities that pass the city filter, in table order. */
  function KeepCities(cities: seq<City>, filter: Option<seq<string>>): (r: seq<City>)
    ensures forall c :: c in r <==> c in cities && Selected(filter, c.slug)
    ensures |r| <= |cities|
  {
    if cities == [] then []
    else (if Selected(filter, cities[0].slug) then [cities[0]] else []) + KeepCities(cities[1..], filter)
  }

  /** The entries of one city and one appliance, one per problem, in table order. */
  function ProblemCandidates(city: City, appliance: Appliance, cityPage: Option<string>,
                             root: set<string>, key: StatKey): seq<Candidate>
  {
    var appliancePage := ResolveAppliancePage(appliance.servicePage, root);
    seq(|appliance.problems|, j requires 0 <= j < |appliance.problems| =>
      Candidate(BuildCityProblemEntry(city, appliance, appliance.problems[j], cityPage, appliancePage), key))
  }

  /** The entries of one city, grouped by appliance. */
  function ApplianceGroups(city: City, apps: seq<Appliance>, cityPage: Option<string>,
                           root: set<string>, key: StatKey): seq<seq<Candidate>>
  {
    seq(|apps|, i requires 0 <= i < |apps| => ProblemCandidates(city, apps[i], cityPage, root, key))
  }

  /** Phase 1: the Denver entries grouped by appliance. */
  function DenverGroups(cat: Catalog, root: set<string>, applianceFilter: Option<seq<string>>): seq<seq<Candidate>> {
    ApplianceGroups(cat.denver, KeepAppliances(cat.denverAppliances, applianceFilter),
                    ResolveCityPage("denver", root), root, DenverCityProblems)
  }

  /** Phase 2: the tier-2 entries grouped by city, then by appliance. */
  function Tier2Blocks(cat: Catalog, root: set<string>, cityFilter: Option<seq<string>>,
                       applianceFilter: Option<seq<string>>): seq<seq<seq<Candidate>>>
  {
    CityBlocks(KeepCities(cat.tier2Cities, cityFilter), KeepAppliances(cat.tier2Appliances, applianceFilter), root)
  }

  /** The entries of several tier-2 cities, grouped by city, then by appliance. */
  function CityBlocks(cities: seq<City>, apps: seq<Appliance>, root: set<string>): seq<seq<seq<Candidate>>> {
    seq(|cities|, k requires 0 <= k < |cities| =>
      ApplianceGroups(cities[k], apps, ResolveCityPage(cities[k].slug, root), root, Tier2CityProblems))
  }

  /** The entry of one Denver brand page. */
  function BrandCandidate(b: BrandPage, denver: City, root: set<string>): Candidate {
    Candidate(BuildBrandProblemEntry(b, denver, ResolveCityPage("denver", root),
                                     ResolveAppliancePage(BrandServicePage(b.applianceSlug), root)),
              DenverBrandProblems)
  }

  /** Phase 3: the entries of the brand pages whose appliance passes the filter, in table order. */
  function BrandCandidates(bs: seq<BrandPage>, denver: City, root: set<string>,
                           applianceFilter: Option<seq<string>>): seq<Candidate>
  {
    if bs == [] then []
    else (if Selected(applianceFilter, bs[0].applianceSlug) then [BrandCandidate(bs[0], denver, root)] else [])
         + BrandCandidates(bs[1..], denver, root, applianceFilter)
  }

  // ---------------------------------------------------------------------
  // The phases, with the generator's stop checks
  // ---------------------------------------------------------------------

  /** Offers the candidates in order, stopping right after the one that fills the plan. */
  function RunEntries(a: Acc, cs: seq<Candidate>, existing: set<string>, limit: Option<int>): Acc
    decreases |cs|
  {
    if cs == [] then a
    else
      var a' := Admit(a, cs[0].entry, cs[0].key, existing);
      if Capped(limit, |a'.plan|) then a' else RunEntries(a', cs[1..], existing, limit)
  }

  /** Runs group after group, checking the cap again after each group. */
  function RunGroups(a: Acc, gs: seq<seq<Candidate>>, existing: set<string>, limit: Option<int>): Acc
    decreases |gs|
  {
    if gs == [] then a
    else
      var a' := RunEntries(a, gs[0], existing, limit);
      if Capped(limit, |a'.plan|) then a' else RunGroups(a', gs[1..], existing, limit)
  }

  /** Runs city after city, checking the cap again after each city. */
  function RunBlocks(a: Acc, bs: seq<seq<seq<Candidate>>>, existing: set<string>, limit: Option<int>): Acc
    decreases |bs|
  {
    if bs == [] then a
    else
      var a' := RunGroups(a, bs[0], existing, limit);
      if Capped(limit, |a'.plan|) then a' else RunBlocks(a', bs[1..], existing, limit)
  }

  lemma {:induction false} RunEntriesStep(a: Acc, cs: seq<Candidate>, j: int, existing: set<string>, limit: Option<int>)
    requires 0 <= j < |cs|
    ensures var a' := Admit(a, cs[j].entry, cs[j].key, existing);
            RunEntries(a, cs[j..], existing, limit)
            == if Capped(limit, |a'.plan|) then a' else RunEntries(a', cs[j + 1..], existing, limit)
  {
    assert cs[j..][0] == cs[j] && cs[j..][1..] == cs[j + 1..];
  }

  lemma {:induction false} RunGroupsStep(a: Acc, gs: seq<seq<Candidate>>, i: int, existing: set<string>, limit: Option<int>)
    requires 0 <= i < |gs|
    ensures var a' := RunEntries(a, gs[i], existing, limit);
            RunGroups(a, gs[i..], existing, limit)
            == if Capped(limit, |a'.plan|) then a' else RunGroups(a', gs[i + 1..], existing, limit)
  {
    assert gs[i..][0] == gs[i] && gs[i..][1..] == gs[i + 1..];
  }

  lemma {:induction false} RunBlocksStep(a: Acc, bs: seq<seq<seq<Candidate>>>, k: int, existing: set<string>, limit: Option<int>)
    requires 0 <= k < |bs|
    ensures var a' := RunGroups(a, bs[k], existing, limit);
            RunBlocks(a, bs[k..], existing, limit)
            == if Capped(limit, |a'.plan|) then a' else RunBlocks(a', bs[k + 1..], existing, limit)
  {
    assert bs[k..][0] == bs[k] && bs[k..][1..] == bs[k + 1..];
  }

  lemma {:induction false} BrandSkipStep(bs: seq<BrandPage>, n: int, denver: City, root: set<string>,
                      applianceFilter: Option<seq<string>>)
    requires 0 <= n < |bs| && !Selected(applianceFilter, bs[n].applianceSlug)
    ensures BrandCandidates(bs[n..], denver, root, applianceFilter)
         == BrandCandidates(bs[n + 1..], denver, root, applianceFilter)
  {
    assert bs[n..][0] == bs[n] && bs[n..][1..] == bs[n + 1..];
  }

  lemma {:induction false} BrandOfferStep(bs: seq<BrandPage>, n: int, denver: City, root: set<string>,
                       applianceFilter: Option<seq<string>>)
    requires 0 <= n < |bs| && Selected(applianceFilter, bs[n].applianceSlug)
    ensures var cs := BrandCandidates(bs[n..], denver, root, applianceFilter);
            cs != [] && cs[0] == BrandCandidate(bs[n], denver, root)
            && cs[1..] == BrandCandidates(bs[n + 1..], denver, root, applianceFilter)
  {
    assert bs[n..][0] == bs[n] && bs[n..][1..] == bs[n + 1..];
  }

  /** The file name after the last `/` of a repository path. */
  function LastSegment(path: string): string {
    var pieces := Split(path, "/");
    pieces[|pieces| - 1]
  }

  /** The root page names together with the file names of the sub-pages. */
  function AllExisting(root: set<string>, subpages: set<string>): set<string> {
    root + set p | p in subpages :: LastSegment(p)
  }

  /** Denver takes part when no city filter is in force or the filter names `denver`. */
  predicate IncludeDenver(cityFilter: Option<seq<string>>) {
    Selected(cityFilter, "denver")
  }

  /**
   * The three phases from an empty plan: the Denver groups when Denver takes part,
   * the tier-2 blocks unless the plan is already full, then the brand entries unless
   * the plan is full or Denver does not take part.
   */
  function RunPhases(denverGroups: seq<seq<Candidate>>, blocks: seq<seq<seq<Candidate>>>, brands: seq<Candidate>,
                     withDenver: bool, existing: set<string>, limit: Option<int>): Acc
  {
    var a1 := if withDenver then RunGroups(Start, denverGroups, existing, limit) else Start;
    var a2 := if !Capped(limit, |a1.plan|) then RunBlocks(a1, blocks, existing, limit) else a1;
    if !Capped(limit, |a2.plan|) && withDenver then RunEntries(a2, brands, existing, limit) else a2
  }

  /** The state after the three phases over the catalog. */
  function PlanSpec(cat: Catalog, root: set<string>, subpages: set<string>, limit: Option<int>,
                    cityFilter: Option<seq<string>>, applianceFilter: Option<seq<string>>): Acc
  {
    RunPhases(DenverGroups(cat, root, applianceFilter), Tier2Blocks(cat, root, cityFilter, applianceFilter),
              BrandCandidates(cat.brandPages, cat.denver, root, applianceFilter),
              IncludeDenver(cityFilter), AllExisting(root, subpages), limit)
  }

  // ---------------------------------------------------------------------
  // The generator
  // ---------------------------------------------------------------------

  /** The plan under construction, the slugs seen, the conflicts and the counters. */
  class PlanBuilder {
    const allExisting: set<string>
    var plan: seq<Entry>
    var seenSlugs: set<string>
    var conflicts: seq<string>
    var stats: Stats

    function State(): Acc
      reads this
    {
      Acc(plan, seenSlugs, conflicts, stats)
    }

    constructor(allExisting: set<string>)
      ensures this.allExisting == allExisting && State() == Start
    {
      this.allExisting := allExisting;
      plan := [];
      seenSlugs := {};
      conflicts := [];
      stats := NoStats;
    }

    /** Adds the entry unless its slug was seen or names an existing page; true when added. */
    method AddEntry(entry: Entry, key: StatKey) returns (added: bool)
      modifies this
      ensures State() == Admit(old(State()), entry, key, allExisting)
      ensures added <==> plan == old(plan) + [entry]
    {
      var slug := entry.slug;
      if slug in seenSlugs {
        stats := stats.(skippedDuplicate := stats.skippedDuplicate + 1);
        return false;
      }
      if slug in allExisting {
        stats := stats.(skippedExisting := stats.skippedExisting + 1);
        conflicts := conflicts + [slug];
        seenSlugs := seenSlugs + {slug};
        return false;
      }
      seenSlugs := seenSlugs + {slug};
      plan := plan + [entry];
      stats := Bump(stats, key);
      return true;
    }
  }

  /** The problem loop of one city and one appliance; stops as soon as the plan is full. */
  method OfferProblems(b: PlanBuilder, city: City, appliance: Appliance, cityPage: Option<string>,
                       root: set<string>, key: StatKey, limit: Option<int>)
    modifies b
    ensures b.State() == RunEntries(old(b.State()), ProblemCandidates(city, appliance, cityPage, root, key),
                                    b.allExisting, limit)
  {
    var appliancePage := ResolveAppliancePage(appliance.servicePage, root);
    ghost var g := ProblemCandidates(city, appliance, cityPage, root, key);
    var j := 0;
    while j < |appliance.problems|
      invariant 0 <= j <= |appliance.problems|
      invariant RunEntries(old(b.State()), g, b.allExisting, limit) == RunEntries(b.State(), g[j..], b.allExisting, limit)
    {
      var entry := BuildCityProblemEntry(city, appliance, appliance.problems[j], cityPage, appliancePage);
      assert g[j] == Candidate(entry, key);
      RunEntriesStep(b.State(), g, j, b.allExisting, limit);
      var _ := b.AddEntry(entry, key);
      if Capped(limit, |b.plan|) {
        break;
      }
      j := j + 1;
    }
  }

  /** The appliance loop of one city; checks the cap again after each appliance. */
  method OfferAppliances(b: PlanBuilder, city: City, apps: seq<Appliance>, cityPage: Option<string>,
                         root: set<string>, key: StatKey, limit: Option<int>)
    modifies b
    ensures b.State() == RunGroups(old(b.State()), ApplianceGroups(city, apps, cityPage, root, key),
                                   b.allExisting, limit)
  {
    ghost var groups := ApplianceGroups(city, apps, cityPage, root, key);
    var i := 0;
    while i < |apps|
      invariant 0 <= i <= |apps|
      invariant RunGroups(old(b.State()), groups, b.allExisting, limit) == RunGroups(b.State(), groups[i..], b.allExisting, limit)
    {
      RunGroupsStep(b.State(), groups, i, b.allExisting, limit);
      OfferProblems(b, city, apps[i], cityPage, root, key, limit);
      if Capped(limit, |b.plan|) {
        break;
      }
      i := i + 1;
    }
  }

  /** The city loop of phase 2; checks the cap again after each city. */
  method OfferCities(b: PlanBuilder, cities: seq<City>, apps: seq<Appliance>, root: set<string>, limit: Option<int>)
    modifies b
    ensures b.State() == RunBlocks(old(b.State()), CityBlocks(cities, apps, root), b.allExisting, limit)
  {
    ghost var blocks := CityBlocks(cities, apps, root);
    var k := 0;
    while k < |cities|
      invariant 0 <= k <= |cities|
      invariant RunBlocks(old(b.State()), blocks, b.allExisting, limit) == RunBlocks(b.State(), blocks[k..], b.allExisting, limit)
    {
      RunBlocksStep(b.State(), blocks, k, b.allExisting, limit);
      OfferAppliances(b, cities[k], apps, ResolveCityPage(cities[k].slug, root), root, Tier2CityProblems, limit);
      if Capped(limit, |b.plan|) {
        break;
      }
      k := k + 1;
    }
  }

  /**
   * One pass of the brand loop: a brand the filter leaves out is passed over;
   * otherwise its entry is offered, and `full` tells whether the plan reached the limit.
   */
  method OfferBrandAt(b: PlanBuilder, brands: seq<BrandPage>, n: int, denver: City, root: set<string>,
                      applianceFilter: Option<seq<string>>, limit: Option<int>) returns (full: bool)
    requires 0 <= n < |brands|
    modifies b
    ensures RunEntries(old(b.State()), BrandCandidates(brands[n..], denver, root, applianceFilter), b.allExisting, limit)
         == if full then b.State()
            else RunEntries(b.State(), BrandCandidates(brands[n + 1..], denver, root, applianceFilter), b.allExisting, limit)
  {
    if !Selected(applianceFilter, brands[n].applianceSlug) {
      BrandSkipStep(brands, n, denver, root, applianceFilter);
      return false;
    }
    var candidate := BrandCandidate(brands[n], denver, root);
    BrandOfferStep(brands, n, denver, root, applianceFilter);
    var _ := b.AddEntry(candidate.entry, candidate.key);
    full := Capped(limit, |b.plan|);
  }

  /** The brand loop of phase 3, stopping as soon as the plan is full. */
  method OfferBrands(b: PlanBuilder, brands: seq<BrandPage>, denver: City, root: set<string>,
                     applianceFilter: Option<seq<string>>, limit: Option<int>)
    modifies b
    ensures b.State() == RunEntries(old(b.State()), BrandCandidates(brands, denver, root, applianceFilter),
                                    b.allExisting, limit)
  {
    var n := 0;
    assert brands[n..] == brands;
    while n < |brands|
      invariant 0 <= n <= |brands|
      invariant RunEntries(old(b.State()), BrandCandidates(brands, denver, root, applianceFilter), b.allExisting, limit)
             == RunEntries(b.State(), BrandCandidates(brands[n..], denver, root, applianceFilter), b.allExisting, limit)
    {
      var full := OfferBrandAt(b, brands, n, denver, root, applianceFilter, limit);
      if full {
        break;
      }
      n := n + 1;
    }
  }

  /**
   * `generate_plan`: the Denver matrix, then the tier-2 matrix, then the Denver brand
   * pages, each stopping as soon as the plan reaches the limit.
   */
  method GeneratePlan(cat: Catalog, root: set<string>, subpages: set<string>, limit: Option<int>,
                      cityFilter: Option<seq<string>>, applianceFilter: Option<seq<string>>)
    returns (plan: seq<Entry>, stats: Stats, conflicts: seq<string>)
    ensures var spec := PlanSpec(cat, root, subpages, limit, cityFilter, applianceFilter);
            plan == spec.plan && stats == spec.stats && conflicts == spec.conflicts
  {
    var b := new PlanBuilder(AllExisting(root, subpages));
    var includeDenver := IncludeDenver(cityFilter);
    if includeDenver {
      OfferAppliances(b, cat.denver, KeepAppliances(cat.denverAppliances, applianceFilter),
                      ResolveCityPage("denver", root), root, DenverCityProblems, limit);
    }
    if !Capped(limit, |b.plan|) {
      OfferCities(b, KeepCities(cat.tier2Cities, cityFilter), KeepAppliances(cat.tier2Appliances, applianceFilter),
                  root, limit);
    }
    if !Capped(limit, |b.plan|) && includeDenver {
      OfferBrands(b, cat.brandPages, cat.denver, root, applianceFilter, limit);
    }
    plan, stats, conflicts := b.plan, b.stats, b.conflicts;
  }
}
