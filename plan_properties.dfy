/**
 * What the plan generator promises: the plan never repeats a slug and never
 * plans a page that already exists, every offered entry is accounted for, the
 * limit caps the plan at a prefix of the unlimited plan, the plan keeps the
 * catalog order, and the filters are respected.
 */
module PlanProperties {
  import opened Wrappers
  import opened Text
  import opened PlanSlug
  import opened PlanCatalog
  import opened PlanEntries
  import opened PlanBuild

  // ---------------------------------------------------------------------
  // The phases as one run over one candidate list
  // ---------------------------------------------------------------------

  function Flatten<T>(groups: seq<seq<T>>): seq<T>
    decreases |groups|
  {
    if groups == [] then [] else groups[0] + Flatten(groups[1..])
  }

  function FlattenBlocks<T>(blocks: seq<seq<seq<T>>>): seq<T>
    decreases |blocks|
  {
    if blocks == [] then [] else Flatten(blocks[0]) + FlattenBlocks(blocks[1..])
  }

  /** The phases' candidates in the order they are offered. */
  function PhaseCandidates(denverGroups: seq<seq<Candidate>>, blocks: seq<seq<seq<Candidate>>>,
                           brands: seq<Candidate>, withDenver: bool): seq<Candidate>
  {
    (if withDenver then Flatten(denverGroups) else []) + FlattenBlocks(blocks) + (if withDenver then brands else [])
  }

  /** Every entry the generator would offer with no limit, in the order it offers them. */
  function Candidates(cat: Catalog, root: set<string>, cityFilter: Option<seq<string>>,
                      applianceFilter: Option<seq<string>>): seq<Candidate>
  {
    PhaseCandidates(DenverGroups(cat, root, applianceFilter), Tier2Blocks(cat, root, cityFilter, applianceFilter),
                    BrandCandidates(cat.brandPages, cat.denver, root, applianceFilter), IncludeDenver(cityFilter))
  }

  function Entries(cs: seq<Candidate>): seq<Entry> {
    seq(|cs|, i requires 0 <= i < |cs| => cs[i].entry)
  }

  /** Running two lists one after the other, from a state that is not full. */
  lemma {:induction false} RunAppend(a: Acc, xs: seq<Candidate>, ys: seq<Candidate>,
                                     existing: set<string>, limit: Option<int>)
    requires !Capped(limit, |a.plan|)
    ensures RunEntries(a, xs + ys, existing, limit)
         == var a' := RunEntries(a, xs, existing, limit);
            if Capped(limit, |a'.plan|) then a' else RunEntries(a', ys, existing, limit)
    decreases |xs|
  {
    if xs == [] {
      assert xs + ys == ys;
    } else {
      var a1 := Admit(a, xs[0].entry, xs[0].key, existing);
      assert (xs + ys)[0] == xs[0] && (xs + ys)[1..] == xs[1..] + ys;
      if !Capped(limit, |a1.plan|) {
        RunAppend(a1, xs[1..], ys, existing, limit);
      }
    }
  }

  /** The check after each group changes nothing when the run starts below the cap. */
  lemma {:induction false} RunGroupsFlat(a: Acc, gs: seq<seq<Candidate>>, existing: set<string>, limit: Option<int>)
    requires !Capped(limit, |a.plan|)
    ensures RunGroups(a, gs, existing, limit) == RunEntries(a, Flatten(gs), existing, limit)
    decreases |gs|
  {
    if gs != [] {
      RunAppend(a, gs[0], Flatten(gs[1..]), existing, limit);
      var a' := RunEntries(a, gs[0], existing, limit);
      if !Capped(limit, |a'.plan|) {
        RunGroupsFlat(a', gs[1..], existing, limit);
      }
    }
  }

  lemma {:induction false} RunBlocksFlat(a: Acc, bs: seq<seq<seq<Candidate>>>, existing: set<string>, limit: Option<int>)
    requires !Capped(limit, |a.plan|)
    ensures RunBlocks(a, bs, existing, limit) == RunEntries(a, FlattenBlocks(bs), existing, limit)
    decreases |bs|
  {
    if bs != [] {
      RunGroupsFlat(a, bs[0], existing, limit);
      RunAppend(a, Flatten(bs[0]), FlattenBlocks(bs[1..]), existing, limit);
      var a' := RunGroups(a, bs[0], existing, limit);
      if !Capped(limit, |a'.plan|) {
        RunBlocksFlat(a', bs[1..], existing, limit);
      }
    }
  }

  lemma {:induction false} PhasesAreRun(dg: seq<seq<Candidate>>, blocks: seq<seq<seq<Candidate>>>, brands: seq<Candidate>,
                     withDenver: bool, existing: set<string>, limit: Option<int>)
    requires !Capped(limit, 0)
    ensures RunPhases(dg, blocks, brands, withDenver, existing, limit)
         == RunEntries(Start, PhaseCandidates(dg, blocks, brands, withDenver), existing, limit)
  {
    var d := if withDenver then Flatten(dg) else [];
    var t := FlattenBlocks(blocks);
    var br := if withDenver then brands else [];
    assert PhaseCandidates(dg, blocks, brands, withDenver) == d + (t + br);
    if withDenver {
      RunGroupsFlat(Start, dg, existing, limit);
    }
    var a1 := RunEntries(Start, d, existing, limit);
    RunAppend(Start, d, t + br, existing, limit);
    if !Capped(limit, |a1.plan|) {
      RunBlocksFlat(a1, blocks, existing, limit);
      RunAppend(a1, t, br, existing, limit);
    }
  }

  /**
   * With no limit, a zero limit or a positive one, the three phases are one run over
   * the candidate list: the checks between appliances, cities and phases only repeat
   * the check made after each entry.
   */
  lemma {:induction false} PlanIsRun(cat: Catalog, root: set<string>, subpages: set<string>, limit: Option<int>,
                  cityFilter: Option<seq<string>>, applianceFilter: Option<seq<string>>)
    requires !Capped(limit, 0)
    ensures PlanSpec(cat, root, subpages, limit, cityFilter, applianceFilter)
         == RunEntries(Start, Candidates(cat, root, cityFilter, applianceFilter), AllExisting(root, subpages), limit)
  {
    PhasesAreRun(DenverGroups(cat, root, applianceFilter), Tier2Blocks(cat, root, cityFilter, applianceFilter),
                 BrandCandidates(cat.brandPages, cat.denver, root, applianceFilter), IncludeDenver(cityFilter),
                 AllExisting(root, subpages), limit);
  }

  // ---------------------------------------------------------------------
  // The invariant of `add_entry`
  // ---------------------------------------------------------------------

  predicate DistinctSlugs(plan: seq<Entry>) {
    forall i, j :: 0 <= i < j < |plan| ==> plan[i].slug != plan[j].slug
  }

  predicate Distinct(xs: seq<string>) {
    forall i, j :: 0 <= i < j < |xs| ==> xs[i] != xs[j]
  }

  function PlanSlugs(plan: seq<Entry>): set<string> {
    set e | e in plan :: e.slug
  }

  /**
   * No slug twice in the plan, none of an existing page; each conflict is an existing
   * page, recorded once; the slugs seen are exactly the planned and the conflicting
   * ones; and the counters match the plan and the conflicts.
   */
  predicate Inv(a: Acc, existing: set<string>) {
    DistinctSlugs(a.plan) && Distinct(a.conflicts)
    && (forall e :: e in a.plan ==> e.slug !in existing)
    && (forall c :: c in a.conflicts ==> c in existing)
    && a.seen == PlanSlugs(a.plan) + (set c | c in a.conflicts)
    && a.stats.skippedExisting == |a.conflicts| && AddedCount(a.stats) == |a.plan|
  }

  lemma {:induction false} AdmitKeepsInv(a: Acc, e: Entry, key: StatKey, existing: set<string>)
    requires Inv(a, existing)
    ensures Inv(Admit(a, e, key, existing), existing)
  {
    if e.slug !in a.seen {
      if e.slug in existing {
        ConflictKeepsInv(a, e, key, existing);
      } else {
        FreshKeepsInv(a, e, key, existing);
      }
    }
  }

  /** A new slug of an existing page is recorded as a conflict without breaking the invariant. */
  lemma {:induction false} ConflictKeepsInv(a: Acc, e: Entry, key: StatKey, existing: set<string>)
    requires Inv(a, existing) && e.slug !in a.seen && e.slug in existing
    ensures Inv(Admit(a, e, key, existing), existing)
  {
    var r := Admit(a, e, key, existing);
    assert forall c :: c in a.conflicts ==> c != e.slug;
    assert (set c | c in r.conflicts) == (set c | c in a.conflicts) + {e.slug};
  }

  /** A slug neither seen nor existing joins the plan without breaking the invariant. */
  lemma {:induction false} FreshKeepsInv(a: Acc, e: Entry, key: StatKey, existing: set<string>)
    requires Inv(a, existing) && e.slug !in a.seen && e.slug !in existing
    ensures Inv(Admit(a, e, key, existing), existing)
  {
    var r := Admit(a, e, key, existing);
    assert e.slug !in PlanSlugs(a.plan);
    assert PlanSlugs(r.plan) == PlanSlugs(a.plan) + {e.slug};
    forall i | 0 <= i < |a.plan| ensures a.plan[i].slug != e.slug {
      assert a.plan[i] in a.plan;
    }
  }

  lemma {:induction false} RunEntriesKeepsInv(a: Acc, cs: seq<Candidate>, existing: set<string>, limit: Option<int>)
    requires Inv(a, existing)
    ensures Inv(RunEntries(a, cs, existing, limit), existing)
    decreases |cs|
  {
    if cs != [] {
      AdmitKeepsInv(a, cs[0].entry, cs[0].key, existing);
      RunEntriesKeepsInv(Admit(a, cs[0].entry, cs[0].key, existing), cs[1..], existing, limit);
    }
  }

  lemma {:induction false} RunGroupsKeepsInv(a: Acc, gs: seq<seq<Candidate>>, existing: set<string>, limit: Option<int>)
    requires Inv(a, existing)
    ensures Inv(RunGroups(a, gs, existing, limit), existing)
    decreases |gs|
  {
    if gs != [] {
      RunEntriesKeepsInv(a, gs[0], existing, limit);
      RunGroupsKeepsInv(RunEntries(a, gs[0], existing, limit), gs[1..], existing, limit);
    }
  }

  lemma {:induction false} RunBlocksKeepsInv(a: Acc, bs: seq<seq<seq<Candidate>>>, existing: set<string>, limit: Option<int>)
    requires Inv(a, existing)
    ensures Inv(RunBlocks(a, bs, existing, limit), existing)
    decreases |bs|
  {
    if bs != [] {
      RunGroupsKeepsInv(a, bs[0], existing, limit);
      RunBlocksKeepsInv(RunGroups(a, bs[0], existing, limit), bs[1..], existing, limit);
    }
  }

  lemma {:induction false} StartInv(existing: set<string>)
    ensures Inv(Start, existing)
  {
    assert PlanSlugs([]) == {};
    assert (set c: string | c in [] :: c) == {};
  }

  lemma {:induction false} PhasesKeepInv(dg: seq<seq<Candidate>>, blocks: seq<seq<seq<Candidate>>>, brands: seq<Candidate>,
                      withDenver: bool, existing: set<string>, limit: Option<int>)
    ensures Inv(RunPhases(dg, blocks, brands, withDenver, existing, limit), existing)
  {
    StartInv(existing);
    var a1 := if withDenver then RunGroups(Start, dg, existing, limit) else Start;
    if withDenver {
      RunGroupsKeepsInv(Start, dg, existing, limit);
    }
    var a2 := if !Capped(limit, |a1.plan|) then RunBlocks(a1, blocks, existing, limit) else a1;
    if !Capped(limit, |a1.plan|) {
      RunBlocksKeepsInv(a1, blocks, existing, limit);
    }
    if !Capped(limit, |a2.plan|) && withDenver {
      RunEntriesKeepsInv(a2, brands, existing, limit);
    }
  }

  /** Whatever the limit and the filters, the plan satisfies the invariant of `add_entry`. */
  lemma {:induction false} PlanKeepsInv(cat: Catalog, root: set<string>, subpages: set<string>, limit: Option<int>,
                     cityFilter: Option<seq<string>>, applianceFilter: Option<seq<string>>)
    ensures Inv(PlanSpec(cat, root, subpages, limit, cityFilter, applianceFilter), AllExisting(root, subpages))
  {
    PhasesKeepInv(DenverGroups(cat, root, applianceFilter), Tier2Blocks(cat, root, cityFilter, applianceFilter),
                  BrandCandidates(cat.brandPages, cat.denver, root, applianceFilter), IncludeDenver(cityFilter),
                  AllExisting(root, subpages), limit);
  }

  // ---------------------------------------------------------------------
  // Order: the plan is a subsequence of the candidates
  // ---------------------------------------------------------------------

  /** `xs` is `ys` with some elements left out, the rest in the same order. */
  predicate IsSubseq<T(==)>(xs: seq<T>, ys: seq<T>)
    decreases |ys|
  {
    xs == [] || (ys != [] && ((xs[0] == ys[0] && IsSubseq(xs[1..], ys[1..])) || IsSubseq(xs, ys[1..])))
  }

  lemma {:induction false} SubseqSkip<T>(xs: seq<T>, y: T, ys: seq<T>)
    requires IsSubseq(xs, ys)
    ensures IsSubseq(xs, [y] + ys)
  {
    assert ([y] + ys)[1..] == ys;
  }

  lemma {:induction false} SubseqTake<T>(x: T, xs: seq<T>, ys: seq<T>)
    requires IsSubseq(xs, ys)
    ensures IsSubseq([x] + xs, [x] + ys)
  {
    assert ([x] + ys)[1..] == ys && ([x] + xs)[1..] == xs;
  }

  lemma {:induction false} SubseqPrepend<T>(xs: seq<T>, zs: seq<T>, ys: seq<T>)
    requires IsSubseq(xs, ys)
    ensures IsSubseq(xs, zs + ys)
    decreases |zs|
  {
    if zs != [] {
      SubseqPrepend(xs, zs[1..], ys);
      SubseqSkip(xs, zs[0], zs[1..] + ys);
      assert [zs[0]] + (zs[1..] + ys) == zs + ys;
    } else {
      assert zs + ys == ys;
    }
  }

  lemma {:induction false} SubseqAppend<T>(x1: seq<T>, y1: seq<T>, x2: seq<T>, y2: seq<T>)
    requires IsSubseq(x1, y1) && IsSubseq(x2, y2)
    ensures IsSubseq(x1 + x2, y1 + y2)
    decreases |y1|
  {
    if x1 == [] {
      assert x1 + x2 == x2;
      SubseqPrepend(x2, y1, y2);
    } else {
      assert y1 != [];
      assert y1 + y2 == [y1[0]] + (y1[1..] + y2);
      if x1[0] == y1[0] && IsSubseq(x1[1..], y1[1..]) {
        SubseqAppend(x1[1..], y1[1..], x2, y2);
        assert x1 + x2 == [x1[0]] + (x1[1..] + x2);
        SubseqTake(x1[0], x1[1..] + x2, y1[1..] + y2);
      } else {
        SubseqAppend(x1, y1[1..], x2, y2);
        SubseqSkip(x1 + x2, y1[0], y1[1..] + y2);
      }
    }
  }

  lemma {:induction false} SubseqMember<T>(xs: seq<T>, ys: seq<T>, x: T)
    requires IsSubseq(xs, ys) && x in xs
    ensures x in ys
    decreases |ys|
  {
    assert ys != [];
    if xs[0] == ys[0] && IsSubseq(xs[1..], ys[1..]) {
      if x != xs[0] {
        assert x in xs[1..];
        SubseqMember(xs[1..], ys[1..], x);
      }
    } else {
      SubseqMember(xs, ys[1..], x);
    }
  }

  lemma {:induction false} EntriesAppend(xs: seq<Candidate>, ys: seq<Candidate>)
    ensures Entries(xs + ys) == Entries(xs) + Entries(ys)
  {
  }

  lemma {:induction false} EntriesCons(cs: seq<Candidate>)
    requires cs != []
    ensures Entries(cs) == [cs[0].entry] + Entries(cs[1..])
  {
  }

  lemma {:induction false} FlattenCons<T>(gs: seq<seq<T>>)
    requires gs != []
    ensures Flatten(gs) == gs[0] + Flatten(gs[1..])
  {
  }

  /** The first candidate's step: its entry is kept or skipped, and the rest follows. */
  lemma {:induction false} AdmitThenSubseq(a: Acc, cs: seq<Candidate>, existing: set<string>, q1: seq<Entry>) returns (q: seq<Entry>)
    requires cs != [] && IsSubseq(q1, Entries(cs[1..]))
    ensures Admit(a, cs[0].entry, cs[0].key, existing).plan + q1 == a.plan + q
    ensures IsSubseq(q, Entries(cs))
  {
    var e0 := cs[0].entry;
    EntriesCons(cs);
    if e0.slug in a.seen || e0.slug in existing {
      q := q1;
      SubseqSkip(q1, e0, Entries(cs[1..]));
    } else {
      q := [e0] + q1;
      SubseqTake(e0, q1, Entries(cs[1..]));
    }
  }

  lemma {:induction false} AppendAssoc<T>(x: seq<T>, y: seq<T>, z: seq<T>)
    ensures x + (y + z) == (x + y) + z
  {
  }

  lemma {:induction false} GroupsPlanStep(a: Acc, gs: seq<seq<Candidate>>, existing: set<string>, limit: Option<int>,
                       q0: seq<Entry>, q1: seq<Entry>)
    requires gs != []
    requires RunEntries(a, gs[0], existing, limit).plan == a.plan + q0
    requires var a' := RunEntries(a, gs[0], existing, limit);
             if Capped(limit, |a'.plan|) then q1 == [] else RunGroups(a', gs[1..], existing, limit).plan == a'.plan + q1
    ensures RunGroups(a, gs, existing, limit).plan == a.plan + (q0 + q1)
  {
    var a' := RunEntries(a, gs[0], existing, limit);
    if Capped(limit, |a'.plan|) {
      assert RunGroups(a, gs, existing, limit).plan == a'.plan;
    } else {
      assert RunGroups(a, gs, existing, limit).plan == RunGroups(a', gs[1..], existing, limit).plan;
    }
    AppendAssoc(a.plan, q0, q1);
  }

  lemma {:induction false} BlocksPlanStep(a: Acc, bs: seq<seq<seq<Candidate>>>, existing: set<string>, limit: Option<int>,
                       q0: seq<Entry>, q1: seq<Entry>)
    requires bs != []
    requires RunGroups(a, bs[0], existing, limit).plan == a.plan + q0
    requires var a' := RunGroups(a, bs[0], existing, limit);
             if Capped(limit, |a'.plan|) then q1 == [] else RunBlocks(a', bs[1..], existing, limit).plan == a'.plan + q1
    ensures RunBlocks(a, bs, existing, limit).plan == a.plan + (q0 + q1)
  {
    var a' := RunGroups(a, bs[0], existing, limit);
    if Capped(limit, |a'.plan|) {
      assert RunBlocks(a, bs, existing, limit).plan == a'.plan;
    } else {
      assert RunBlocks(a, bs, existing, limit).plan == RunBlocks(a', bs[1..], existing, limit).plan;
    }
    AppendAssoc(a.plan, q0, q1);
  }

  lemma {:induction false} GroupsCombine(gs: seq<seq<Candidate>>, q0: seq<Entry>, q1: seq<Entry>)
    requires gs != [] && IsSubseq(q0, Entries(gs[0])) && IsSubseq(q1, Entries(Flatten(gs[1..])))
    ensures IsSubseq(q0 + q1, Entries(Flatten(gs)))
  {
    FlattenCons(gs);
    EntriesAppend(gs[0], Flatten(gs[1..]));
    SubseqAppend(q0, Entries(gs[0]), q1, Entries(Flatten(gs[1..])));
  }

  lemma {:induction false} BlocksCombine(bs: seq<seq<seq<Candidate>>>, q0: seq<Entry>, q1: seq<Entry>)
    requires bs != [] && IsSubseq(q0, Entries(Flatten(bs[0]))) && IsSubseq(q1, Entries(FlattenBlocks(bs[1..])))
    ensures IsSubseq(q0 + q1, Entries(FlattenBlocks(bs)))
  {
    assert FlattenBlocks(bs) == Flatten(bs[0]) + FlattenBlocks(bs[1..]);
    EntriesAppend(Flatten(bs[0]), FlattenBlocks(bs[1..]));
    SubseqAppend(q0, Entries(Flatten(bs[0])), q1, Entries(FlattenBlocks(bs[1..])));
  }

  /** Each phase only appends to the plan, and what it appends keeps the order of its candidates. */
  lemma {:induction false} RunEntriesSubseq(a: Acc, cs: seq<Candidate>, existing: set<string>, limit: Option<int>)
    returns (q: seq<Entry>)
    ensures RunEntries(a, cs, existing, limit).plan == a.plan + q
    ensures IsSubseq(q, Entries(cs))
    decreases |cs|
  {
    if cs == [] {
      q := [];
    } else {
      var a1 := Admit(a, cs[0].entry, cs[0].key, existing);
      var q1: seq<Entry> := [];
      if !Capped(limit, |a1.plan|) {
        q1 := RunEntriesSubseq(a1, cs[1..], existing, limit);
      } else {
        assert a1.plan + q1 == a1.plan;
      }
      assert RunEntries(a, cs, existing, limit).plan == a1.plan + q1;
      q := AdmitThenSubseq(a, cs, existing, q1);
    }
  }

  lemma {:induction false} RunGroupsSubseq(a: Acc, gs: seq<seq<Candidate>>, existing: set<string>, limit: Option<int>)
    returns (q: seq<Entry>)
    ensures RunGroups(a, gs, existing, limit).plan == a.plan + q
    ensures IsSubseq(q, Entries(Flatten(gs)))
    decreases |gs|
  {
    if gs == [] {
      q := [];
    } else {
      var q0 := RunEntriesSubseq(a, gs[0], existing, limit);
      var a' := RunEntries(a, gs[0], existing, limit);
      var q1: seq<Entry> := [];
      if !Capped(limit, |a'.plan|) {
        q1 := RunGroupsSubseq(a', gs[1..], existing, limit);
      }
      GroupsPlanStep(a, gs, existing, limit, q0, q1);
      q := q0 + q1;
      GroupsCombine(gs, q0, q1);
    }
  }

  lemma {:induction false} RunBlocksSubseq(a: Acc, bs: seq<seq<seq<Candidate>>>, existing: set<string>, limit: Option<int>)
    returns (q: seq<Entry>)
    ensures RunBlocks(a, bs, existing, limit).plan == a.plan + q
    ensures IsSubseq(q, Entries(FlattenBlocks(bs)))
    decreases |bs|
  {
    if bs == [] {
      q := [];
    } else {
      var q0 := RunGroupsSubseq(a, bs[0], existing, limit);
      var a' := RunGroups(a, bs[0], existing, limit);
      var q1: seq<Entry> := [];
      if !Capped(limit, |a'.plan|) {
        q1 := RunBlocksSubseq(a', bs[1..], existing, limit);
      }
      BlocksPlanStep(a, bs, existing, limit, q0, q1);
      q := q0 + q1;
      BlocksCombine(bs, q0, q1);
    }
  }

  lemma {:induction false} PhasesSubseq(dg: seq<seq<Candidate>>, blocks: seq<seq<seq<Candidate>>>, brands: seq<Candidate>,
                     withDenver: bool, existing: set<string>, limit: Option<int>)
    ensures IsSubseq(RunPhases(dg, blocks, brands, withDenver, existing, limit).plan,
                     Entries(PhaseCandidates(dg, blocks, brands, withDenver)))
  {
    var d := if withDenver then Flatten(dg) else [];
    var br := if withDenver then brands else [];
    var q1: seq<Entry> := [];
    if withDenver {
      q1 := RunGroupsSubseq(Start, dg, existing, limit);
    }
    var a1 := if withDenver then RunGroups(Start, dg, existing, limit) else Start;
    assert a1.plan == q1;
    var q2: seq<Entry> := [];
    if !Capped(limit, |a1.plan|) {
      q2 := RunBlocksSubseq(a1, blocks, existing, limit);
    }
    var a2 := if !Capped(limit, |a1.plan|) then RunBlocks(a1, blocks, existing, limit) else a1;
    var q3: seq<Entry> := [];
    if !Capped(limit, |a2.plan|) && withDenver {
      q3 := RunEntriesSubseq(a2, brands, existing, limit);
    }
    assert RunPhases(dg, blocks, brands, withDenver, existing, limit).plan == q1 + q2 + q3;
    EntriesAppend(d, FlattenBlocks(blocks));
    EntriesAppend(d + FlattenBlocks(blocks), br);
    SubseqAppend(q1, Entries(d), q2, Entries(FlattenBlocks(blocks)));
    SubseqAppend(q1 + q2, Entries(d) + Entries(FlattenBlocks(blocks)), q3, Entries(br));
  }

  /** Whatever the limit, the plan lists candidates in the order the generator offers them. */
  lemma {:induction false} PlanSubseq(cat: Catalog, root: set<string>, subpages: set<string>, limit: Option<int>,
                   cityFilter: Option<seq<string>>, applianceFilter: Option<seq<string>>)
    ensures IsSubseq(PlanSpec(cat, root, subpages, limit, cityFilter, applianceFilter).plan,
                     Entries(Candidates(cat, root, cityFilter, applianceFilter)))
  {
    PhasesSubseq(DenverGroups(cat, root, applianceFilter), Tier2Blocks(cat, root, cityFilter, applianceFilter),
                 BrandCandidates(cat.brandPages, cat.denver, root, applianceFilter), IncludeDenver(cityFilter),
                 AllExisting(root, subpages), limit);
  }

  // ---------------------------------------------------------------------
  // The limit
  // ---------------------------------------------------------------------

  /** The first `n` elements, or all of them when there are fewer. */
  function Prefix<T>(xs: seq<T>, n: nat): seq<T> {
    if |xs| <= n then xs else xs[..n]
  }

  lemma {:induction false} RunEntriesCap(a: Acc, cs: seq<Candidate>, existing: set<string>, n: int)
    requires 0 < n && |a.plan| < n
    ensures |RunEntries(a, cs, existing, Some(n)).plan| <= n
    decreases |cs|
  {
    if cs != [] {
      var a1 := Admit(a, cs[0].entry, cs[0].key, existing);
      if !Capped(Some(n), |a1.plan|) {
        RunEntriesCap(a1, cs[1..], existing, n);
      }
    }
  }

  lemma {:induction false} RunGroupsCap(a: Acc, gs: seq<seq<Candidate>>, existing: set<string>, n: int)
    requires 0 < n && |a.plan| < n
    ensures |RunGroups(a, gs, existing, Some(n)).plan| <= n
    decreases |gs|
  {
    if gs != [] {
      RunEntriesCap(a, gs[0], existing, n);
      var a' := RunEntries(a, gs[0], existing, Some(n));
      if !Capped(Some(n), |a'.plan|) {
        RunGroupsCap(a', gs[1..], existing, n);
      }
    }
  }

  lemma {:induction false} RunBlocksCap(a: Acc, bs: seq<seq<seq<Candidate>>>, existing: set<string>, n: int)
    requires 0 < n && |a.plan| < n
    ensures |RunBlocks(a, bs, existing, Some(n)).plan| <= n
    decreases |bs|
  {
    if bs != [] {
      RunGroupsCap(a, bs[0], existing, n);
      var a' := RunGroups(a, bs[0], existing, Some(n));
      if !Capped(Some(n), |a'.plan|) {
        RunBlocksCap(a', bs[1..], existing, n);
      }
    }
  }

  /** A positive limit bounds the plan. */
  lemma {:induction false} PlanCap(cat: Catalog, root: set<string>, subpages: set<string>, n: int,
                cityFilter: Option<seq<string>>, applianceFilter: Option<seq<string>>)
    requires n > 0
    ensures |PlanSpec(cat, root, subpages, Some(n), cityFilter, applianceFilter).plan| <= n
  {
    var existing := AllExisting(root, subpages);
    var dg := DenverGroups(cat, root, applianceFilter);
    var blocks := Tier2Blocks(cat, root, cityFilter, applianceFilter);
    var brands := BrandCandidates(cat.brandPages, cat.denver, root, applianceFilter);
    var withDenver := IncludeDenver(cityFilter);
    var limit := Some(n);
    var a1 := if withDenver then RunGroups(Start, dg, existing, limit) else Start;
    if withDenver {
      RunGroupsCap(Start, dg, existing, n);
    }
    var a2 := if !Capped(limit, |a1.plan|) then RunBlocks(a1, blocks, existing, limit) else a1;
    if !Capped(limit, |a1.plan|) {
      RunBlocksCap(a1, blocks, existing, n);
    }
    if !Capped(limit, |a2.plan|) && withDenver {
      RunEntriesCap(a2, brands, existing, n);
    }
    assert PlanSpec(cat, root, subpages, limit, cityFilter, applianceFilter)
        == RunPhases(dg, blocks, brands, withDenver, existing, limit);
  }

  lemma {:induction false} RunPrefix(a: Acc, cs: seq<Candidate>, existing: set<string>, n: int)
    requires 0 < n && |a.plan| < n
    ensures RunEntries(a, cs, existing, Some(n)).plan == Prefix(RunEntries(a, cs, existing, None).plan, n)
    decreases |cs|
  {
    if cs != [] {
      var a1 := Admit(a, cs[0].entry, cs[0].key, existing);
      assert RunEntries(a, cs, existing, None) == RunEntries(a1, cs[1..], existing, None);
      if Capped(Some(n), |a1.plan|) {
        var q := RunEntriesSubseq(a1, cs[1..], existing, None);
        assert |a1.plan| == n;
        assert (a1.plan + q)[..n] == a1.plan;
      } else {
        RunPrefix(a1, cs[1..], existing, n);
      }
    }
  }

  /** A positive limit `n` keeps exactly the first `n` entries of the plan made without a limit. */
  lemma {:induction false} PlanPrefix(cat: Catalog, root: set<string>, subpages: set<string>, n: int,
                   cityFilter: Option<seq<string>>, applianceFilter: Option<seq<string>>)
    requires n > 0
    ensures PlanSpec(cat, root, subpages, Some(n), cityFilter, applianceFilter).plan
         == Prefix(PlanSpec(cat, root, subpages, None, cityFilter, applianceFilter).plan, n)
  {
    PlanIsRun(cat, root, subpages, Some(n), cityFilter, applianceFilter);
    PlanIsRun(cat, root, subpages, None, cityFilter, applianceFilter);
    RunPrefix(Start, Candidates(cat, root, cityFilter, applianceFilter), AllExisting(root, subpages), n);
  }

  lemma {:induction false} RunZeroLimit(a: Acc, cs: seq<Candidate>, existing: set<string>)
    ensures RunEntries(a, cs, existing, Some(0)) == RunEntries(a, cs, existing, None)
    decreases |cs|
  {
    if cs != [] {
      RunZeroLimit(Admit(a, cs[0].entry, cs[0].key, existing), cs[1..], existing);
    }
  }

  /** A zero limit is no limit at all. */
  lemma {:induction false} PlanZeroLimit(cat: Catalog, root: set<string>, subpages: set<string>,
                      cityFilter: Option<seq<string>>, applianceFilter: Option<seq<string>>)
    ensures PlanSpec(cat, root, subpages, Some(0), cityFilter, applianceFilter)
         == PlanSpec(cat, root, subpages, None, cityFilter, applianceFilter)
  {
    PlanIsRun(cat, root, subpages, Some(0), cityFilter, applianceFilter);
    PlanIsRun(cat, root, subpages, None, cityFilter, applianceFilter);
    RunZeroLimit(Start, Candidates(cat, root, cityFilter, applianceFilter), AllExisting(root, subpages));
  }

  /**
   * A negative limit is truthy and already reached by the empty plan, so the first
   * offered entry is the only one: the plan holds at most one entry.
   */
  lemma {:induction false} PlanNegativeLimit(cat: Catalog, root: set<string>, subpages: set<string>, n: int,
                          cityFilter: Option<seq<string>>, applianceFilter: Option<seq<string>>)
    requires n < 0
    ensures |PlanSpec(cat, root, subpages, Some(n), cityFilter, applianceFilter).plan| <= 1
  {
    var existing := AllExisting(root, subpages);
    var dg := DenverGroups(cat, root, applianceFilter);
    var limit := Some(n);
    if IncludeDenver(cityFilter) && dg != [] {
      var a' := RunEntries(Start, dg[0], existing, limit);
      assert |a'.plan| <= 1;
      assert RunGroups(Start, dg, existing, limit) == a';
    }
  }

  // ---------------------------------------------------------------------
  // Filters
  // ---------------------------------------------------------------------

  lemma {:induction false} FlattenMember<T>(gs: seq<seq<T>>, x: T) returns (i: nat)
    requires x in Flatten(gs)
    ensures i < |gs| && x in gs[i]
    decreases |gs|
  {
    if x in gs[0] {
      i := 0;
    } else {
      var i' := FlattenMember(gs[1..], x);
      i := i' + 1;
    }
  }

  lemma {:induction false} FlattenBlocksMember<T>(bs: seq<seq<seq<T>>>, x: T) returns (k: nat, i: nat)
    requires x in FlattenBlocks(bs)
    ensures k < |bs| && i < |bs[k]| && x in bs[k][i]
    decreases |bs|
  {
    if x in Flatten(bs[0]) {
      k := 0;
      i := FlattenMember(bs[0], x);
    } else {
      var k';
      k', i := FlattenBlocksMember(bs[1..], x);
      k := k' + 1;
    }
  }

  /** The images, under `f`, of the elements of `s` that `keep` accepts, in order. */
  function FilterMap<T, U>(s: seq<T>, keep: T -> bool, f: T -> U): seq<U> {
    if s == [] then [] else (if keep(s[0]) then [f(s[0])] else []) + FilterMap(s[1..], keep, f)
  }

  /** The `i`-th element of a filtered image is the image of an accepted element. */
  lemma {:induction false} FilterMapAt<T, U>(s: seq<T>, keep: T -> bool, f: T -> U, i: nat) returns (n: nat)
    requires i < |FilterMap(s, keep, f)|
    ensures n < |s| && keep(s[n]) && FilterMap(s, keep, f)[i] == f(s[n])
    decreases |s|
  {
    var h := if keep(s[0]) then [f(s[0])] else [];
    assert FilterMap(s, keep, f) == h + FilterMap(s[1..], keep, f);
    if i < |h| {
      n := 0;
    } else {
      var n' := FilterMapAt(s[1..], keep, f, i - |h|);
      n := n' + 1;
      assert s[1..][n'] == s[n];
    }
  }

  /** Phase 3 keeps the brand pages the appliance filter accepts and builds each one's entry. */
  lemma {:induction false} BrandCandidatesFilterMap(bs: seq<BrandPage>, denver: City, root: set<string>,
                                                    applianceFilter: Option<seq<string>>)
    ensures BrandCandidates(bs, denver, root, applianceFilter)
         == FilterMap(bs, (b: BrandPage) => Selected(applianceFilter, b.applianceSlug), (b: BrandPage) => BrandCandidate(b, denver, root))
    decreases |bs|
  {
    if bs != [] {
      BrandCandidatesFilterMap(bs[1..], denver, root, applianceFilter);
    }
  }

  lemma {:induction false} BrandCandidateFacts(b: BrandPage, denver: City, root: set<string>)
    ensures var e := BrandCandidate(b, denver, root).entry;
            e.applianceSlug == b.applianceSlug && e.citySlug == denver.slug
  {
  }

  /** The appliance slugs the catalog knows. */
  function CatalogApplianceSlugs(cat: Catalog): set<string> {
    (set a | a in cat.denverAppliances + cat.tier2Appliances :: a.slug)
    + (set b | b in cat.brandPages :: b.applianceSlug)
  }

  /** The city slugs the catalog knows. */
  function CatalogCitySlugs(cat: Catalog): set<string> {
    {cat.denver.slug} + set c | c in cat.tier2Cities :: c.slug
  }

  /** An entry passes both filters. */
  predicate Respects(e: Entry, cityFilter: Option<seq<string>>, applianceFilter: Option<seq<string>>) {
    Selected(applianceFilter, e.applianceSlug) && Selected(cityFilter, e.citySlug)
  }

  lemma {:induction false} CityCandidateFacts(city: City, apps: seq<Appliance>, cityPage: Option<string>, root: set<string>,
                           key: StatKey, c: Candidate)
    requires c in Flatten(ApplianceGroups(city, apps, cityPage, root, key))
    ensures c.entry.citySlug == city.slug && exists a :: a in apps && c.entry.applianceSlug == a.slug
  {
    var groups := ApplianceGroups(city, apps, cityPage, root, key);
    var i := FlattenMember(groups, c);
    var g := ProblemCandidates(city, apps[i], cityPage, root, key);
    assert groups[i] == g;
    ProblemCandidateFacts(city, apps[i], cityPage, root, key, c);
    assert apps[i] in apps;
  }

  lemma {:induction false} ProblemCandidateFacts(city: City, appliance: Appliance, cityPage: Option<string>, root: set<string>,
                              key: StatKey, c: Candidate)
    requires c in ProblemCandidates(city, appliance, cityPage, root, key)
    ensures c.entry.citySlug == city.slug && c.entry.applianceSlug == appliance.slug
  {
    var g := ProblemCandidates(city, appliance, cityPage, root, key);
    var j :| 0 <= j < |g| && g[j] == c;
  }

  /**
   * Every candidate is of a catalog appliance and a catalog city that pass the
   * filters (Denver's hub slug being `denver`, as the generator takes for granted).
   */
  lemma {:induction false} CandidatesRespect(cat: Catalog, root: set<string>, cityFilter: Option<seq<string>>,
                          applianceFilter: Option<seq<string>>, c: Candidate)
    requires c in Candidates(cat, root, cityFilter, applianceFilter)
    ensures c.entry.applianceSlug in CatalogApplianceSlugs(cat) && c.entry.citySlug in CatalogCitySlugs(cat)
    ensures Selected(applianceFilter, c.entry.applianceSlug)
    ensures cat.denver.slug == "denver" ==> Selected(cityFilter, c.entry.citySlug)
  {
    var withDenver := IncludeDenver(cityFilter);
    var denverApps := KeepAppliances(cat.denverAppliances, applianceFilter);
    var cities := KeepCities(cat.tier2Cities, cityFilter);
    var apps := KeepAppliances(cat.tier2Appliances, applianceFilter);
    if withDenver && c in Flatten(DenverGroups(cat, root, applianceFilter)) {
      CityCandidateFacts(cat.denver, denverApps, ResolveCityPage("denver", root), root, DenverCityProblems, c);
      var a :| a in denverApps && c.entry.applianceSlug == a.slug;
      assert a in cat.denverAppliances + cat.tier2Appliances;
    } else if c in FlattenBlocks(Tier2Blocks(cat, root, cityFilter, applianceFilter)) {
      var blocks := CityBlocks(cities, apps, root);
      var k, i := FlattenBlocksMember(blocks, c);
      assert c in Flatten(blocks[k]) by {
        assert blocks[k][i] in blocks[k];
        FlattenHas(blocks[k], i, c);
      }
      CityCandidateFacts(cities[k], apps, ResolveCityPage(cities[k].slug, root), root, Tier2CityProblems, c);
      var a :| a in apps && c.entry.applianceSlug == a.slug;
      assert a in cat.denverAppliances + cat.tier2Appliances;
      assert cities[k] in cities;
    } else {
      assert withDenver && c in BrandCandidates(cat.brandPages, cat.denver, root, applianceFilter);
      var cs := BrandCandidates(cat.brandPages, cat.denver, root, applianceFilter);
      var i :| 0 <= i < |cs| && cs[i] == c;
      BrandCandidatesFilterMap(cat.brandPages, cat.denver, root, applianceFilter);
      var n := FilterMapAt(cat.brandPages, (b: BrandPage) => Selected(applianceFilter, b.applianceSlug),
                           (b: BrandPage) => BrandCandidate(b, cat.denver, root), i);
      BrandCandidateFacts(cat.brandPages[n], cat.denver, root);
      assert cat.brandPages[n] in cat.brandPages;
    }
  }

  lemma {:induction false} FlattenHas<T>(gs: seq<seq<T>>, i: nat, x: T)
    requires i < |gs| && x in gs[i]
    ensures x in Flatten(gs)
    decreases |gs|
  {
    if i > 0 {
      FlattenHas(gs[1..], i - 1, x);
    }
  }

  lemma {:induction false} EntryOfCandidate(cs: seq<Candidate>, e: Entry) returns (c: Candidate)
    requires e in Entries(cs)
    ensures c in cs && c.entry == e
  {
    var i :| 0 <= i < |cs| && Entries(cs)[i] == e;
    c := cs[i];
  }

  /** Whatever the limit, every planned page is of an appliance and a city the filters let through. */
  lemma {:induction false} PlanRespectsFilters(cat: Catalog, root: set<string>, subpages: set<string>, limit: Option<int>,
                            cityFilter: Option<seq<string>>, applianceFilter: Option<seq<string>>, e: Entry)
    requires cat.denver.slug == "denver"
    requires e in PlanSpec(cat, root, subpages, limit, cityFilter, applianceFilter).plan
    ensures Respects(e, cityFilter, applianceFilter)
  {
    PlanSubseq(cat, root, subpages, limit, cityFilter, applianceFilter);
    SubseqMember(PlanSpec(cat, root, subpages, limit, cityFilter, applianceFilter).plan,
                 Entries(Candidates(cat, root, cityFilter, applianceFilter)), e);
    var c := EntryOfCandidate(Candidates(cat, root, cityFilter, applianceFilter), e);
    CandidatesRespect(cat, root, cityFilter, applianceFilter, c);
  }

  /** An appliance filter that names no appliance of the catalog gives an empty plan. */
  lemma {:induction false} UnknownApplianceFilter(cat: Catalog, root: set<string>, subpages: set<string>, limit: Option<int>,
                               cityFilter: Option<seq<string>>, applianceFilter: Option<seq<string>>)
    requires Active(applianceFilter)
    requires forall s :: s in CatalogApplianceSlugs(cat) ==> s !in NormalizeFilter(applianceFilter.value)
    ensures PlanSpec(cat, root, subpages, limit, cityFilter, applianceFilter).plan == []
  {
    var plan := PlanSpec(cat, root, subpages, limit, cityFilter, applianceFilter).plan;
    if plan != [] {
      PlanSubseq(cat, root, subpages, limit, cityFilter, applianceFilter);
      SubseqMember(plan, Entries(Candidates(cat, root, cityFilter, applianceFilter)), plan[0]);
      var c := EntryOfCandidate(Candidates(cat, root, cityFilter, applianceFilter), plan[0]);
      CandidatesRespect(cat, root, cityFilter, applianceFilter, c);
    }
  }

  /** A city filter that names neither `denver` nor a tier-2 city gives an empty plan. */
  lemma {:induction false} UnknownCityFilter(cat: Catalog, root: set<string>, subpages: set<string>, limit: Option<int>,
                          cityFilter: Option<seq<string>>, applianceFilter: Option<seq<string>>)
    requires cat.denver.slug == "denver" && Active(cityFilter)
    requires forall s :: s in CatalogCitySlugs(cat) ==> s !in NormalizeFilter(cityFilter.value)
    ensures PlanSpec(cat, root, subpages, limit, cityFilter, applianceFilter).plan == []
  {
    var plan := PlanSpec(cat, root, subpages, limit, cityFilter, applianceFilter).plan;
    if plan != [] {
      PlanSubseq(cat, root, subpages, limit, cityFilter, applianceFilter);
      SubseqMember(plan, Entries(Candidates(cat, root, cityFilter, applianceFilter)), plan[0]);
      var c := EntryOfCandidate(Candidates(cat, root, cityFilter, applianceFilter), plan[0]);
      CandidatesRespect(cat, root, cityFilter, applianceFilter, c);
    }
  }

  // ---------------------------------------------------------------------
  // Accounting without a limit
  // ---------------------------------------------------------------------

  function CandidateSlugs(cs: seq<Candidate>): set<string> {
    set c | c in cs :: c.entry.slug
  }

  lemma {:induction false} RunUnlimited(a: Acc, cs: seq<Candidate>, existing: set<string>)
    ensures RunEntries(a, cs, existing, None).seen == a.seen + CandidateSlugs(cs)
    ensures OfferedCount(RunEntries(a, cs, existing, None).stats) == OfferedCount(a.stats) + |cs|
    decreases |cs|
  {
    if cs != [] {
      var a1 := Admit(a, cs[0].entry, cs[0].key, existing);
      RunUnlimitedStep(a, cs, existing);
      RunUnlimited(a1, cs[1..], existing);
      CandidateSlugsCons(cs);
    }
  }

  /** Without a limit the run never stops early: it admits the first candidate and goes on. */
  lemma {:induction false} RunUnlimitedStep(a: Acc, cs: seq<Candidate>, existing: set<string>)
    requires cs != []
    ensures RunEntries(a, cs, existing, None)
         == RunEntries(Admit(a, cs[0].entry, cs[0].key, existing), cs[1..], existing, None)
  {
  }

  lemma {:induction false} CandidateSlugsCons(cs: seq<Candidate>)
    requires cs != []
    ensures CandidateSlugs(cs) == {cs[0].entry.slug} + CandidateSlugs(cs[1..])
  {
    assert cs == [cs[0]] + cs[1..];
  }

  /** A seen slug under the invariant is planned when it names no existing page, and a conflict when it does. */
  lemma {:induction false} SeenAccounted(r: Acc, existing: set<string>, slug: string)
    requires Inv(r, existing) && slug in r.seen
    ensures slug !in existing ==> slug in PlanSlugs(r.plan)
    ensures slug in existing ==> slug in r.conflicts
  {
  }

  lemma {:induction false} StartRunInv(cs: seq<Candidate>, existing: set<string>)
    ensures Inv(RunEntries(Start, cs, existing, None), existing)
  {
    StartInv(existing);
    RunEntriesKeepsInv(Start, cs, existing, None);
  }

  lemma {:induction false} StartRunSeen(cs: seq<Candidate>, existing: set<string>, c: Candidate)
    requires c in cs
    ensures c.entry.slug in RunEntries(Start, cs, existing, None).seen
    ensures OfferedCount(RunEntries(Start, cs, existing, None).stats) == |cs|
  {
    RunUnlimited(Start, cs, existing);
    var r := RunEntries(Start, cs, existing, None);
    assert c.entry.slug in CandidateSlugs(cs);
    assert c.entry.slug in r.seen;
    assert OfferedCount(r.stats) == OfferedCount(NoStats) + |cs|;
  }

  /** From the start with no limit, every candidate is planned or is a conflict, and all are counted. */
  lemma {:induction false} RunAccounts(cs: seq<Candidate>, existing: set<string>, c: Candidate)
    requires c in cs
    ensures var r := RunEntries(Start, cs, existing, None);
            (c.entry.slug !in existing ==> c.entry.slug in PlanSlugs(r.plan))
            && (c.entry.slug in existing ==> c.entry.slug in r.conflicts)
            && OfferedCount(r.stats) == |cs|
  {
    StartRunInv(cs, existing);
    StartRunSeen(cs, existing, c);
    SeenAccounted(RunEntries(Start, cs, existing, None), existing, c.entry.slug);
  }

  /**
   * With no limit every candidate is accounted for: its slug is planned when it names
   * no existing page and is a conflict when it does, and the counters add up to the
   * number of candidates.
   */
  lemma {:induction false} PlanAccountsForAll(cat: Catalog, root: set<string>, subpages: set<string>,
                           cityFilter: Option<seq<string>>, applianceFilter: Option<seq<string>>, c: Candidate)
    requires c in Candidates(cat, root, cityFilter, applianceFilter)
    ensures var spec := PlanSpec(cat, root, subpages, None, cityFilter, applianceFilter);
            (c.entry.slug !in AllExisting(root, subpages) ==> c.entry.slug in PlanSlugs(spec.plan))
            && (c.entry.slug in AllExisting(root, subpages) ==> c.entry.slug in spec.conflicts)
            && OfferedCount(spec.stats) == |Candidates(cat, root, cityFilter, applianceFilter)|
  {
    PlanIsRun(cat, root, subpages, None, cityFilter, applianceFilter);
    RunAccounts(Candidates(cat, root, cityFilter, applianceFilter), AllExisting(root, subpages), c);
  }

  /** Number of candidates counted under `key`. */
  function KeyCount(cs: seq<Candidate>, key: StatKey): nat {
    if cs == [] then 0 else (if cs[0].key == key then 1 else 0) + KeyCount(cs[1..], key)
  }

  /** No two candidates share a slug. */
  predicate DistinctCandidateSlugs(cs: seq<Candidate>) {
    forall i, j :: 0 <= i < j < |cs| ==> cs[i].entry.slug != cs[j].entry.slug
  }

  /** A slug neither seen nor existing joins the plan under its own counter. */
  lemma {:induction false} AdmitFresh(a: Acc, e: Entry, key: StatKey, existing: set<string>) returns (a1: Acc)
    requires e.slug !in a.seen && e.slug !in existing
    ensures a1 == Admit(a, e, key, existing)
    ensures a1.plan == a.plan + [e] && a1.seen == a.seen + {e.slug} && a1.conflicts == a.conflicts
    ensures a1.stats == Bump(a.stats, key)
  {
    a1 := Admit(a, e, key, existing);
  }

  /** `Bump` adds one to the counter of its key and to no other. */
  lemma {:induction false} BumpCounts(st: Stats, key: StatKey)
    ensures Bump(st, key) == Stats(st.denverCityProblems + (if key == DenverCityProblems then 1 else 0),
                                   st.tier2CityProblems + (if key == Tier2CityProblems then 1 else 0),
                                   st.denverBrandProblems + (if key == DenverBrandProblems then 1 else 0),
                                   st.skippedExisting, st.skippedDuplicate)
  {
  }

  /** Once the first of several distinct, fresh candidates is seen, the others are still distinct and fresh. */
  lemma {:induction false} RestFresh(seen: set<string>, cs: seq<Candidate>, existing: set<string>)
    requires cs != [] && DistinctCandidateSlugs(cs)
    requires forall c :: c in cs ==> c.entry.slug !in seen && c.entry.slug !in existing
    ensures DistinctCandidateSlugs(cs[1..])
    ensures forall c :: c in cs[1..] ==> c.entry.slug !in seen + {cs[0].entry.slug} && c.entry.slug !in existing
  {
    forall c | c in cs[1..] ensures c.entry.slug !in seen + {cs[0].entry.slug} && c.entry.slug !in existing {
      var j :| 0 <= j < |cs[1..]| && cs[1..][j] == c;
      assert cs[j + 1] == c;
    }
  }

  /**
   * Candidates with pairwise different slugs, none seen before and none of an existing
   * page, all join the plan, each under its own counter.
   */
  lemma {:induction false} RunAllAdmitted(a: Acc, cs: seq<Candidate>, existing: set<string>)
    requires DistinctCandidateSlugs(cs)
    requires forall c :: c in cs ==> c.entry.slug !in a.seen && c.entry.slug !in existing
    ensures var r := RunEntries(a, cs, existing, None);
            r.plan == a.plan + Entries(cs) && r.conflicts == a.conflicts
            && r.stats == Stats(a.stats.denverCityProblems + KeyCount(cs, DenverCityProblems),
                                a.stats.tier2CityProblems + KeyCount(cs, Tier2CityProblems),
                                a.stats.denverBrandProblems + KeyCount(cs, DenverBrandProblems),
                                a.stats.skippedExisting, a.stats.skippedDuplicate)
    decreases |cs|
  {
    if cs != [] {
      assert cs[0] in cs;
      var a1 := AdmitFresh(a, cs[0].entry, cs[0].key, existing);
      RestFresh(a.seen, cs, existing);
      var r := RunEntries(a, cs, existing, None);
      assert r == RunEntries(a1, cs[1..], existing, None);
      RunAllAdmitted(a1, cs[1..], existing);
      EntriesCons(cs);
      AppendAssoc(a.plan, [cs[0].entry], Entries(cs[1..]));
      BumpCounts(a.stats, cs[0].key);
    }
  }

  // ---------------------------------------------------------------------
  // The shipped catalog: 40 + 100 + 10 candidates
  // ---------------------------------------------------------------------

  lemma {:induction false} KeyCountAppend(xs: seq<Candidate>, ys: seq<Candidate>, key: StatKey)
    ensures KeyCount(xs + ys, key) == KeyCount(xs, key) + KeyCount(ys, key)
  {
    if xs != [] {
      assert (xs + ys)[1..] == xs[1..] + ys;
      KeyCountAppend(xs[1..], ys, key);
    } else {
      assert xs + ys == ys;
    }
  }

  lemma {:induction false} KeyCountUniform(cs: seq<Candidate>, key: StatKey, k: StatKey)
    requires forall c :: c in cs ==> c.key == key
    ensures KeyCount(cs, k) == if k == key then |cs| else 0
    decreases |cs|
  {
    if cs != [] {
      assert cs[0] in cs;
      KeyCountUniform(cs[1..], key, k);
    }
  }

  lemma {:induction false} GroupsCount(city: City, apps: seq<Appliance>, cityPage: Option<string>,
                                       root: set<string>, key: StatKey, k: StatKey)
    ensures |Flatten(ApplianceGroups(city, apps, cityPage, root, key))| == ProblemCount(apps)
    ensures KeyCount(Flatten(ApplianceGroups(city, apps, cityPage, root, key)), k)
         == if k == key then ProblemCount(apps) else 0
    decreases |apps|
  {
    if apps != [] {
      var gs := ApplianceGroups(city, apps, cityPage, root, key);
      GroupsCons(city, apps, cityPage, root, key);
      GroupsCount(city, apps[1..], cityPage, root, key, k);
      ProblemKeys(city, apps[0], cityPage, root, key);
      KeyCountUniform(gs[0], key, k);
      KeyCountAppend(gs[0], Flatten(gs[1..]), k);
    }
  }

  lemma {:induction false} GroupsCons(city: City, apps: seq<Appliance>, cityPage: Option<string>,
                                      root: set<string>, key: StatKey)
    requires apps != []
    ensures var gs := ApplianceGroups(city, apps, cityPage, root, key);
            gs[1..] == ApplianceGroups(city, apps[1..], cityPage, root, key)
            && gs[0] == ProblemCandidates(city, apps[0], cityPage, root, key)
            && Flatten(gs) == gs[0] + Flatten(gs[1..])
            && ProblemCount(apps) == |apps[0].problems| + ProblemCount(apps[1..])
  {
    var gs := ApplianceGroups(city, apps, cityPage, root, key);
    assert gs[1..] == ApplianceGroups(city, apps[1..], cityPage, root, key);
    FlattenCons(gs);
  }

  /** One appliance gives one candidate per problem, all under the same counter. */
  lemma {:induction false} ProblemKeys(city: City, appliance: Appliance, cityPage: Option<string>,
                                       root: set<string>, key: StatKey)
    ensures var cs := ProblemCandidates(city, appliance, cityPage, root, key);
            |cs| == |appliance.problems| && forall c :: c in cs ==> c.key == key
  {
  }

  lemma {:induction false} MulStep(m: nat, n: nat)
    ensures (m + 1) * n == n + m * n
  {
  }

  lemma {:induction false} CityBlocksCons(cities: seq<City>, apps: seq<Appliance>, root: set<string>)
    requires cities != []
    ensures var bs := CityBlocks(cities, apps, root);
            bs[1..] == CityBlocks(cities[1..], apps, root)
            && bs[0] == ApplianceGroups(cities[0], apps, ResolveCityPage(cities[0].slug, root), root, Tier2CityProblems)
            && FlattenBlocks(bs) == Flatten(bs[0]) + FlattenBlocks(bs[1..])
  {
    var bs := CityBlocks(cities, apps, root);
    assert bs[1..] == CityBlocks(cities[1..], apps, root);
  }

  lemma {:induction false} BlocksLength(cities: seq<City>, apps: seq<Appliance>, root: set<string>)
    ensures |FlattenBlocks(CityBlocks(cities, apps, root))| == |cities| * ProblemCount(apps)
    decreases |cities|
  {
    if cities != [] {
      var bs := CityBlocks(cities, apps, root);
      var n := ProblemCount(apps);
      CityBlocksCons(cities, apps, root);
      BlocksLength(cities[1..], apps, root);
      GroupsCount(cities[0], apps, ResolveCityPage(cities[0].slug, root), root, Tier2CityProblems, Tier2CityProblems);
      MulStep(|cities[1..]|, n);
    }
  }

  lemma {:induction false} BlocksKeyCount(cities: seq<City>, apps: seq<Appliance>, root: set<string>, k: StatKey)
    ensures var cs := FlattenBlocks(CityBlocks(cities, apps, root));
            KeyCount(cs, k) == if k == Tier2CityProblems then |cs| else 0
    decreases |cities|
  {
    if cities != [] {
      var bs := CityBlocks(cities, apps, root);
      var head := Flatten(bs[0]);
      var tail := FlattenBlocks(bs[1..]);
      CityBlocksCons(cities, apps, root);
      BlocksKeyCount(cities[1..], apps, root, k);
      GroupsCount(cities[0], apps, ResolveCityPage(cities[0].slug, root), root, Tier2CityProblems, k);
      KeyCountAppend(head, tail, k);
    }
  }

  lemma {:induction false} BrandCount(bs: seq<BrandPage>, denver: City, root: set<string>, k: StatKey)
    ensures |BrandCandidates(bs, denver, root, None)| == |bs|
    ensures KeyCount(BrandCandidates(bs, denver, root, None), k) == if k == DenverBrandProblems then |bs| else 0
    decreases |bs|
  {
    if bs != [] {
      BrandCount(bs[1..], denver, root, k);
      KeyCountAppend([BrandCandidate(bs[0], denver, root)], BrandCandidates(bs[1..], denver, root, None), k);
    }
  }

  lemma {:induction false} KeepAllAppliances(apps: seq<Appliance>)
    ensures KeepAppliances(apps, None) == apps
    decreases |apps|
  {
    if apps != [] {
      KeepAllAppliances(apps[1..]);
      assert apps == [apps[0]] + apps[1..];
    }
  }

  lemma {:induction false} KeepAllCities(cities: seq<City>)
    ensures KeepCities(cities, None) == cities
    decreases |cities|
  {
    if cities != [] {
      KeepAllCities(cities[1..]);
      assert cities == [cities[0]] + cities[1..];
    }
  }

  /**
   * With no filters the generator offers every problem of every Denver appliance, every
   * problem of every tier-2 appliance in every tier-2 city, and every brand page.
   */
  lemma {:induction false} UnfilteredCandidates(cat: Catalog, root: set<string>, k: StatKey)
    ensures var d := ProblemCount(cat.denverAppliances);
            var t := |cat.tier2Cities| * ProblemCount(cat.tier2Appliances);
            var b := |cat.brandPages|;
            |Candidates(cat, root, None, None)| == d + t + b
            && KeyCount(Candidates(cat, root, None, None), k)
               == match k
                  case DenverCityProblems => d
                  case Tier2CityProblems => t
                  case DenverBrandProblems => b
  {
    KeepAllAppliances(cat.denverAppliances);
    KeepAllAppliances(cat.tier2Appliances);
    KeepAllCities(cat.tier2Cities);
    var d := Flatten(DenverGroups(cat, root, None));
    var t := FlattenBlocks(Tier2Blocks(cat, root, None, None));
    var b := BrandCandidates(cat.brandPages, cat.denver, root, None);
    assert Candidates(cat, root, None, None) == d + t + b;
    GroupsCount(cat.denver, cat.denverAppliances, ResolveCityPage("denver", root), root, DenverCityProblems, k);
    BlocksLength(cat.tier2Cities, cat.tier2Appliances, root);
    BlocksKeyCount(cat.tier2Cities, cat.tier2Appliances, root, k);
    BrandCount(cat.brandPages, cat.denver, root, k);
    KeyCountAppend(d, t, k);
    KeyCountAppend(d + t, b, k);
  }

  /** The shipped tables: 5 Denver appliances with 8 problems each, 5 tier-2 cities, 4 x 5 tier-2 problems, 10 brand pages. */
  lemma {:induction false} ShippedSizes()
    ensures ProblemCount(Shipped.denverAppliances) == 40
    ensures |Shipped.tier2Cities| == 5 && ProblemCount(Shipped.tier2Appliances) == 20
    ensures |Shipped.brandPages| == 10
  {
    var ds := DenverAppliances;
    assert ProblemCount(ds[4..]) == 8;
    assert ProblemCount(ds[3..]) == 16;
    assert ProblemCount(ds[2..]) == 24;
    assert ProblemCount(ds[1..]) == 32;
    var ts := Tier2Appliances;
    assert ProblemCount(ts[3..]) == 5;
    assert ProblemCount(ts[2..]) == 10;
    assert ProblemCount(ts[1..]) == 15;
  }

  /**
   * With no filters the shipped catalog offers 150 entries: 40 for Denver, 100 for the
   * tier-2 cities and 10 for the brand pages.
   */
  lemma {:induction false} ShippedCandidates(root: set<string>, k: StatKey)
    ensures |Candidates(Shipped, root, None, None)| == 150
    ensures KeyCount(Candidates(Shipped, root, None, None), k)
         == match k
            case DenverCityProblems => 40
            case Tier2CityProblems => 100
            case DenverBrandProblems => 10
  {
    ShippedSizes();
    UnfilteredCandidates(Shipped, root, k);
  }

  lemma {:induction false} StartAllAdmitted(cs: seq<Candidate>, existing: set<string>)
    requires DistinctCandidateSlugs(cs)
    requires forall c :: c in cs ==> c.entry.slug !in existing
    ensures var r := RunEntries(Start, cs, existing, None);
            r.plan == Entries(cs) && r.conflicts == []
            && r.stats == Stats(KeyCount(cs, DenverCityProblems), KeyCount(cs, Tier2CityProblems),
                                KeyCount(cs, DenverBrandProblems), 0, 0)
  {
    RunAllAdmitted(Start, cs, existing);
  }

  /**
   * With no limit, when the candidates' slugs are pairwise different and none names an
   * existing page, the plan is every candidate in order, with nothing skipped.
   */
  lemma {:induction false} FullPlan(cat: Catalog, root: set<string>, subpages: set<string>,
                 cityFilter: Option<seq<string>>, applianceFilter: Option<seq<string>>)
    requires DistinctCandidateSlugs(Candidates(cat, root, cityFilter, applianceFilter))
    requires forall c :: c in Candidates(cat, root, cityFilter, applianceFilter) ==> c.entry.slug !in AllExisting(root, subpages)
    ensures var cs := Candidates(cat, root, cityFilter, applianceFilter);
            var spec := PlanSpec(cat, root, subpages, None, cityFilter, applianceFilter);
            spec.plan == Entries(cs) && spec.conflicts == []
            && spec.stats == Stats(KeyCount(cs, DenverCityProblems), KeyCount(cs, Tier2CityProblems),
                                   KeyCount(cs, DenverBrandProblems), 0, 0)
  {
    PlanIsRun(cat, root, subpages, None, cityFilter, applianceFilter);
    StartAllAdmitted(Candidates(cat, root, cityFilter, applianceFilter), AllExisting(root, subpages));
  }

  /**
   * With no filters and no limit, when the 150 shipped slugs are pairwise different and
   * none names an existing page, the plan is every candidate in order and the counters
   * read 40, 100 and 10 with nothing skipped.
   */
  lemma {:induction false} ShippedFullPlan(root: set<string>, subpages: set<string>)
    requires DistinctCandidateSlugs(Candidates(Shipped, root, None, None))
    requires forall c :: c in Candidates(Shipped, root, None, None) ==> c.entry.slug !in AllExisting(root, subpages)
    ensures var spec := PlanSpec(Shipped, root, subpages, None, None, None);
            |spec.plan| == 150 && spec.conflicts == [] && spec.stats == Stats(40, 100, 10, 0, 0)
  {
    FullPlan(Shipped, root, subpages, None, None);
    ShippedCandidates(root, DenverCityProblems);
    ShippedCandidates(root, Tier2CityProblems);
    ShippedCandidates(root, DenverBrandProblems);
  }
}
