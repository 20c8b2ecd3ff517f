/**
 * The five labelled sections of a generated response (`TITLE:`, `DESCRIPTION:`,
 * `H1:`, `INTRO:`, `BODY:`), read with the line-anchored patterns of the page
 * generator, and the check that none came back empty.
 */
module SeoResponse {
  import opened Wrappers
  import opened Text

  /** The parsed sections; a section whose pattern found nothing is `""`. */
  datatype Sections = Sections(title: string, description: string, h1: string, intro: string, body: string)

  /** What follows `\s*(` in a pattern: a lazy group up to a lookahead, or a greedy group to the end. */
  datatype Tail = Until(stop: string) | ToEnd

  /** `^` in multi-line mode: the start of the text, or just after a newline. */
  predicate LineStart(s: string, p: int) {
    p == 0 || (0 < p <= |s| && s[p - 1] == '\n')
  }

  /** A place where a pattern can start: a line start followed by the label. */
  predicate LabelAt(s: string, tag: string, p: int) {
    LineStart(s, p) && OccursAt(s, tag, p)
  }

  /** The length of the run of whitespace that starts at `a` (what greedy `\s*` takes first). */
  function SpaceRun(s: string, a: nat): (w: nat)
    requires a <= |s|
    ensures a + w <= |s|
    ensures forall k :: a <= k < a + w ==> IsPySpace(s[k])
    ensures a + w < |s| ==> !IsPySpace(s[a + w])
    decreases |s| - a
  {
    if a < |s| && IsPySpace(s[a]) then 1 + SpaceRun(s, a + 1) else 0
  }

  /**
   * `(.+?)(?=stop)` with the group starting at `q`, giving back one whitespace
   * character at a time down to `a` when no match is found: the first start that
   * has `stop` at least one character later wins, with the nearest such `stop`.
   */
  function LazyGroup(s: string, stop: string, a: nat, q: nat): (r: Option<string>)
    requires a <= q <= |s|
    decreases q - a
  {
    match FindFrom(s, stop, q + 1)
    case Some(e) => Some(s[q..e])
    case None => if q == a then None else LazyGroup(s, stop, a, q - 1)
  }

  /** `(.+)` in dot-all mode: the rest of the text from the latest start that leaves it non-empty. */
  function GreedyGroup(s: string, a: nat, w: nat): Option<string>
    requires a + w <= |s|
  {
    if a + w < |s| then Some(s[a + w..])
    else if w > 0 then Some(s[|s| - 1..])
    else None
  }

  /**
   * The group matched right after the label, read from the text `t` that follows
   * it: `\s*` takes the leading whitespace, then the group as `tail` says. Both
   * group forms only look forward, so the text before the label plays no part.
   */
  function Group(t: string, tail: Tail): Option<string> {
    var w := SpaceRun(t, 0);
    match tail
    case Until(stop) => LazyGroup(t, stop, 0, w)
    case ToEnd => GreedyGroup(t, 0, w)
  }

  /** The group the pattern matches when it starts at `p`. */
  function MatchAt(s: string, tag: string, tail: Tail, p: nat): Option<string>
    requires p + |tag| <= |s|
  {
    Group(s[p + |tag|..], tail)
  }

  /** `re.search` from `p`: the group of the first place at or after `p` where the pattern matches. */
  function Search(s: string, tag: string, tail: Tail, p: nat): (r: Option<string>)
    ensures r.Some? ==> Contains(s, tag)
    ensures (forall k | p <= k <= |s| :: !LabelAt(s, tag, k)) ==> r.None?
    decreases |s| + 1 - p
  {
    if p > |s| then None
    else if LabelAt(s, tag, p) && MatchAt(s, tag, tail, p).Some? then MatchAt(s, tag, tail, p)
    else Search(s, tag, tail, p + 1)
  }

  /** One section: the stripped group, or `""` when the pattern does not match. */
  function Section(s: string, tag: string, tail: Tail): (r: string)
    ensures !Contains(s, tag) ==> r == ""
  {
    match Search(s, tag, tail, 0)
    case None => ""
    case Some(g) => PyStrip(g)
  }

  /** `parse_openai_response`: all five sections, each stripped. */
  function ParseResponse(s: string): (r: Sections)
    ensures forall v :: v in [r.title, r.description, r.h1, r.intro, r.body] ==> TrimmedBy(v, IsPySpace)
  {
    var r := Sections(Section(s, "TITLE:", Until("\nDESCRIPTION:")),
                      Section(s, "DESCRIPTION:", Until("\nH1:")),
                      Section(s, "H1:", Until("\nINTRO:")),
                      Section(s, "INTRO:", Until("\nBODY:")),
                      Section(s, "BODY:", ToEnd));
    SectionTrimmed(s, "TITLE:", Until("\nDESCRIPTION:"));
    SectionTrimmed(s, "DESCRIPTION:", Until("\nH1:"));
    SectionTrimmed(s, "H1:", Until("\nINTRO:"));
    SectionTrimmed(s, "INTRO:", Until("\nBODY:"));
    SectionTrimmed(s, "BODY:", ToEnd);
    r
  }

  lemma {:induction false} SectionTrimmed(s: string, tag: string, tail: Tail)
    ensures TrimmedBy(Section(s, tag, tail), IsPySpace)
  {
    match Search(s, tag, tail, 0)
    case None =>
    case Some(g) => TrimIsTrimmed(g, IsPySpace);
  }

  /** The keys `main` checks, in its order. */
  const SectionKeys: seq<string> := ["title", "description", "h1", "intro", "body"]

  /** `sections.get(k)`, `""` standing for a key that is not one of the five. */
  function SectionValue(sec: Sections, k: string): string {
    if k == "title" then sec.title
    else if k == "description" then sec.description
    else if k == "h1" then sec.h1
    else if k == "intro" then sec.intro
    else if k == "body" then sec.body
    else ""
  }

  /** The keys of `ks` whose section is empty, in order. */
  function MissingOf(sec: Sections, ks: seq<string>): seq<string>
    decreases |ks|
  {
    if ks == [] then [] else (if SectionValue(sec, ks[0]) == "" then [ks[0]] else []) + MissingOf(sec, ks[1..])
  }

  /** The sections `main` reports as missing. */
  function MissingSections(sec: Sections): seq<string> {
    MissingOf(sec, SectionKeys)
  }

  /** A key is reported exactly when it is checked and its section is empty. */
  lemma {:induction false} MissingOfMembers(sec: Sections, ks: seq<string>, k: string)
    ensures k in MissingOf(sec, ks) <==> k in ks && SectionValue(sec, k) == ""
    decreases |ks|
  {
    if ks != [] {
      MissingOfMembers(sec, ks[1..], k);
      assert ks == [ks[0]] + ks[1..];
    }
  }

  /** Nothing is reported exactly when every checked section is non-empty. */
  lemma {:induction false} MissingOfEmpty(sec: Sections, ks: seq<string>)
    ensures MissingOf(sec, ks) == [] <==> forall i :: 0 <= i < |ks| ==> SectionValue(sec, ks[i]) != ""
    decreases |ks|
  {
    if ks != [] {
      MissingOfEmpty(sec, ks[1..]);
      forall i | 0 < i < |ks| ensures ks[i] == ks[1..][i - 1] {
      }
    }
  }

  /** The five keys read the five sections. */
  lemma {:induction false} SectionKeyValues(sec: Sections)
    ensures SectionValue(sec, SectionKeys[0]) == sec.title && SectionValue(sec, SectionKeys[1]) == sec.description
    ensures SectionValue(sec, SectionKeys[2]) == sec.h1 && SectionValue(sec, SectionKeys[3]) == sec.intro
    ensures SectionValue(sec, SectionKeys[4]) == sec.body && |SectionKeys| == 5
  {
    assert "title"[0] != "intro"[0];
  }

  /**
   * `main` reports a key exactly when its section came back empty, and reports
   * nothing exactly when all five are non-empty.
   */
  lemma {:induction false} MissingSectionsSpec(sec: Sections, k: string)
    ensures k in MissingSections(sec) <==> k in SectionKeys && SectionValue(sec, k) == ""
    ensures MissingSections(sec) == []
            <==> sec.title != "" && sec.description != "" && sec.h1 != "" && sec.intro != "" && sec.body != ""
  {
    MissingOfMembers(sec, SectionKeys, k);
    MissingOfEmpty(sec, SectionKeys);
    SectionKeyValues(sec);
  }

  // ---------------------------------------------------------------------
  // The section found is a piece of the response
  // ---------------------------------------------------------------------

  lemma {:induction false} LazyGroupLabel(s: string, stop: string, a: nat, q: nat)
    requires a <= q <= |s|
    ensures LazyGroup(s, stop, a, q).Some? ==> Contains(s, LazyGroup(s, stop, a, q).value)
    decreases q - a
  {
    match FindFrom(s, stop, q + 1)
    case Some(e) =>
      assert s[q..e] == s[q..q + |s[q..e]|];
      assert OccursAt(s, s[q..e], q);
    case None =>
      if q > a {
        LazyGroupLabel(s, stop, a, q - 1);
      }
  }

  lemma {:induction false} GroupFound(t: string, tail: Tail)
    ensures Group(t, tail).Some? ==> Contains(t, Group(t, tail).value)
  {
    var w := SpaceRun(t, 0);
    match tail
    case Until(stop) => LazyGroupLabel(t, stop, 0, w);
    case ToEnd =>
      if Group(t, tail).Some? {
        var g := Group(t, tail).value;
        assert t[|t| - |g|..] == g;
        assert OccursAt(t, g, |t| - |g|);
      }
  }

  lemma {:induction false} SearchFound(s: string, tag: string, tail: Tail, p: nat)
    ensures Search(s, tag, tail, p).Some? ==> Contains(s, tag) && Contains(s, Search(s, tag, tail, p).value)
    decreases |s| + 1 - p
  {
    if p <= |s| {
      if LabelAt(s, tag, p) && MatchAt(s, tag, tail, p).Some? {
        var a := p + |tag|;
        var g := MatchAt(s, tag, tail, p).value;
        GroupFound(s[a..], tail);
        var b :| 0 <= b <= |s[a..]| && OccursAt(s[a..], g, b);
        assert s[a..] == s[a..|s|];
        OccursFromSlice(s, g, b, a, |s|);
      } else {
        SearchFound(s, tag, tail, p + 1);
      }
    }
  }

  /** A section is a piece of the response, and is empty when its label is nowhere in it. */
  lemma {:induction false} SectionIsPiece(s: string, tag: string, tail: Tail)
    ensures Contains(s, Section(s, tag, tail))
    ensures !Contains(s, tag) ==> Section(s, tag, tail) == ""
  {
    SearchFound(s, tag, tail, 0);
    match Search(s, tag, tail, 0)
    case None =>
      assert OccursAt(s, "", 0);
    case Some(g) =>
      var b :| 0 <= b <= |s| && OccursAt(s, g, b);
      var i, j := TrimShape(g, IsPySpace);
      assert g[i..i + |g[i..j]|] == g[i..j];
      OccursWithin(s, g, b, g[i..j], i);
  }

  /** A piece of a piece of `s` is a piece of `s`. */
  lemma {:induction false} OccursWithin(s: string, g: string, b: int, x: string, i: int)
    requires OccursAt(s, g, b) && OccursAt(g, x, i)
    ensures OccursAt(s, x, b + i)
  {
    assert s[b..b + |g|] == g;
    OccursFromSlice(s, x, i, b, b + |g|);
  }

  // ---------------------------------------------------------------------
  // Moving the search past a prefix
  // ---------------------------------------------------------------------

  lemma {:induction false} MatchAtShift(pre: string, r: string, tag: string, tail: Tail, p: nat)
    requires p + |tag| <= |r|
    ensures MatchAt(pre + r, tag, tail, |pre| + p) == MatchAt(r, tag, tail, p)
  {
    assert (pre + r)[|pre| + p + |tag|..] == r[p + |tag|..];
  }

  /** Past a prefix that ends a line, the places where the pattern can start are those of the rest. */
  lemma {:induction false} LabelAtShift(pre: string, r: string, tag: string, p: nat)
    requires |pre| > 0 && pre[|pre| - 1] == '\n' && p <= |r|
    ensures LabelAt(pre + r, tag, |pre| + p) <==> LabelAt(r, tag, p)
  {
    var s := pre + r;
    if p > 0 {
      assert s[|pre| + p - 1] == r[p - 1];
    }
    if p + |tag| <= |r| {
      assert s[|pre| + p..|pre| + p + |tag|] == r[p..p + |tag|];
    }
  }

  /** Past a prefix that ends a line, the search goes on as in the rest of the text alone. */
  lemma {:induction false} SearchShift(pre: string, r: string, tag: string, tail: Tail, p: nat)
    requires |pre| > 0 && pre[|pre| - 1] == '\n'
    ensures Search(pre + r, tag, tail, |pre| + p) == Search(r, tag, tail, p)
    decreases |r| + 1 - p
  {
    var s := pre + r;
    if p <= |r| {
      LabelAtShift(pre, r, tag, p);
      if LabelAt(r, tag, p) && MatchAt(r, tag, tail, p).Some? {
        MatchAtShift(pre, r, tag, tail, p);
        assert Search(s, tag, tail, |pre| + p) == MatchAt(r, tag, tail, p);
      } else {
        if LabelAt(r, tag, p) {
          MatchAtShift(pre, r, tag, tail, p);
        }
        SearchShift(pre, r, tag, tail, p + 1);
        assert Search(s, tag, tail, |pre| + p) == Search(s, tag, tail, |pre| + p + 1);
      }
    }
  }

  /** The search skips positions where its pattern cannot start. */
  lemma {:induction false} SearchSkip(s: string, tag: string, tail: Tail, p: nat, n: nat)
    requires p <= n <= |s| + 1
    requires forall k :: p <= k < n ==> !LabelAt(s, tag, k)
    ensures Search(s, tag, tail, p) == Search(s, tag, tail, n)
    decreases n - p
  {
    if p < n {
      SearchSkip(s, tag, tail, p + 1, n);
    }
  }

  // ---------------------------------------------------------------------
  // A well-formed response reads back as what was written
  // ---------------------------------------------------------------------

  /** The text of one labelled line: the label, one space, the value. */
  function Line(tag: string, v: string): string {
    tag + " " + v
  }

  /** A response in the layout the prompt asks for: five labelled lines, the body last. */
  function FormatResponse(sec: Sections): string {
    Line("TITLE:", sec.title) + "\n"
    + (Line("DESCRIPTION:", sec.description) + "\n"
       + (Line("H1:", sec.h1) + "\n"
          + (Line("INTRO:", sec.intro) + "\n" + Line("BODY:", sec.body))))
  }

  /** A value `FormatResponse` can carry: non-empty, stripped and, except the body, on one line. */
  predicate Carried(v: string, oneLine: bool) {
    v != "" && TrimmedBy(v, IsPySpace) && (oneLine ==> '\n' !in v)
  }

  lemma {:induction false} StripTrimmed(v: string)
    requires TrimmedBy(v, IsPySpace)
    ensures PyStrip(v) == v
  {
    var i, j := TrimShape(v, IsPySpace);
    if v != [] {
      assert i == 0 && j == |v|;
    }
  }

  lemma {:induction false} FindFromIsHere(s: string, p: string, from: nat, i: nat)
    requires from <= i && OccursAt(s, p, i)
    requires forall k :: from <= k < i ==> !OccursAt(s, p, k)
    ensures FindFrom(s, p, from) == Some(i)
  {
  }

  /** A labelled line at the head of the text: the lazy pattern reads its value back. */
  lemma {:induction false} LazyLineFirst(s: string, tag: string, v: string, stop: string, rest: string)
    requires |tag| > 0 && Carried(v, true) && |stop| > 0 && stop[0] == '\n'
    requires s == Line(tag, v) + stop + rest
    ensures Search(s, tag, Until(stop), 0) == Some(v)
  {
    var t := s[|tag|..];
    assert t == " " + v + stop + rest;
    assert t[0] == ' ' && t[1] == v[0];
    assert SpaceRun(t, 1) == 0;
    assert SpaceRun(t, 0) == 1;
    var e := 1 + |v|;
    assert t[e..e + |stop|] == stop;
    forall k | 2 <= k < e ensures !OccursAt(t, stop, k) {
      assert t[k] == v[k - 1];
    }
    FindFromIsHere(t, stop, 2, e);
    assert t[1..e] == v;
    assert s[..|tag|] == tag;
    assert LabelAt(s, tag, 0);
  }

  /** A body line at the head of the text: the greedy pattern reads its value back. */
  lemma {:induction false} GreedyLineFirst(v: string)
    requires Carried(v, false)
    ensures Search(Line("BODY:", v), "BODY:", ToEnd, 0) == Some(v)
  {
    var s := Line("BODY:", v);
    var t := s[5..];
    assert t == " " + v;
    assert t[0] == ' ' && t[1] == v[0];
    assert SpaceRun(t, 1) == 0;
    assert SpaceRun(t, 0) == 1;
    assert t[1..] == v;
    assert s[..5] == "BODY:";
    assert LabelAt(s, "BODY:", 0);
  }

  /** A line that starts with another letter than the label holds no place where the pattern starts. */
  lemma {:induction false} SkipLine(line: string, tag: string, rest: string)
    requires |line| > 0 && |tag| > 0 && line[0] != tag[0] && '\n' !in line
    ensures var s := line + "\n" + rest;
            forall k :: 0 <= k < |line| + 1 ==> !LabelAt(s, tag, k)
  {
    var s := line + "\n" + rest;
    forall k | 0 <= k < |line| + 1 ensures !LabelAt(s, tag, k) {
      if k == 0 {
        assert s[0] == line[0];
      } else {
        assert s[k - 1] == line[k - 1];
      }
    }
  }

  /** Past a leading line that cannot match, the search continues in the rest of the text. */
  lemma {:induction false} SearchPastLine(line: string, tag: string, tail: Tail, rest: string)
    requires |line| > 0 && |tag| > 0 && line[0] != tag[0] && '\n' !in line
    ensures Search(line + "\n" + rest, tag, tail, 0) == Search(rest, tag, tail, 0)
  {
    var pre := line + "\n";
    SkipLine(line, tag, rest);
    SearchSkip(pre + rest, tag, tail, 0, |pre|);
    SearchShift(pre, rest, tag, tail, 0);
  }

  lemma {:induction false} LineFacts(tag: string, v: string)
    requires |tag| > 0 && Carried(v, true) && '\n' !in tag
    ensures |Line(tag, v)| > 0 && Line(tag, v)[0] == tag[0] && '\n' !in Line(tag, v)
  {
  }

  /** Each lookahead of the parser is a newline followed by the next label. */
  lemma {:induction false} StopsAreNextLabels()
    ensures "\nDESCRIPTION:" == "\n" + "DESCRIPTION:" && "\nH1:" == "\n" + "H1:"
    ensures "\nINTRO:" == "\n" + "INTRO:" && "\nBODY:" == "\n" + "BODY:"
  {
  }

  /** The layout split after a labelled line: that line, the stop that ends it, and what follows. */
  lemma {:induction false} LineThenNext(tag: string, v: string, next: string, stop: string, w: string, more: string)
    requires stop == "\n" + next
    ensures Line(tag, v) + "\n" + (Line(next, w) + "\n" + more)
         == Line(tag, v) + stop + (" " + w + "\n" + more)
  {
  }

  lemma {:induction false} LineThenLast(tag: string, v: string, next: string, stop: string, w: string)
    requires stop == "\n" + next
    ensures Line(tag, v) + "\n" + Line(next, w) == Line(tag, v) + stop + (" " + w)
  {
  }

  /** The title reads back. */
  lemma {:induction false} TitleBack(sec: Sections)
    requires Carried(sec.title, true)
    ensures Section(FormatResponse(sec), "TITLE:", Until("\nDESCRIPTION:")) == sec.title
  {
    var r3 := Line("H1:", sec.h1) + "\n" + (Line("INTRO:", sec.intro) + "\n" + Line("BODY:", sec.body));
    StopsAreNextLabels();
    LineThenNext("TITLE:", sec.title, "DESCRIPTION:", "\nDESCRIPTION:", sec.description, r3);
    LazyLineFirst(FormatResponse(sec), "TITLE:", sec.title, "\nDESCRIPTION:", " " + sec.description + "\n" + r3);
    StripTrimmed(sec.title);
  }

  /** The description reads back. */
  lemma {:induction false} DescriptionBack(sec: Sections)
    requires Carried(sec.title, true) && Carried(sec.description, true)
    ensures Section(FormatResponse(sec), "DESCRIPTION:", Until("\nH1:")) == sec.description
  {
    var tail := Until("\nH1:");
    var r4 := Line("INTRO:", sec.intro) + "\n" + Line("BODY:", sec.body);
    var r3 := Line("H1:", sec.h1) + "\n" + r4;
    var r2 := Line("DESCRIPTION:", sec.description) + "\n" + r3;
    LineFacts("TITLE:", sec.title);
    SearchPastLine(Line("TITLE:", sec.title), "DESCRIPTION:", tail, r2);
    StopsAreNextLabels();
    LineThenNext("DESCRIPTION:", sec.description, "H1:", "\nH1:", sec.h1, r4);
    LazyLineFirst(r2, "DESCRIPTION:", sec.description, "\nH1:", " " + sec.h1 + "\n" + r4);
    StripTrimmed(sec.description);
  }

  /** The heading reads back. */
  lemma {:induction false} H1Back(sec: Sections)
    requires Carried(sec.title, true) && Carried(sec.description, true) && Carried(sec.h1, true)
    ensures Section(FormatResponse(sec), "H1:", Until("\nINTRO:")) == sec.h1
  {
    var tail := Until("\nINTRO:");
    var r5 := Line("BODY:", sec.body);
    var r4 := Line("INTRO:", sec.intro) + "\n" + r5;
    var r3 := Line("H1:", sec.h1) + "\n" + r4;
    var r2 := Line("DESCRIPTION:", sec.description) + "\n" + r3;
    LineFacts("TITLE:", sec.title);
    LineFacts("DESCRIPTION:", sec.description);
    SearchPastLine(Line("TITLE:", sec.title), "H1:", tail, r2);
    SearchPastLine(Line("DESCRIPTION:", sec.description), "H1:", tail, r3);
    StopsAreNextLabels();
    LineThenNext("H1:", sec.h1, "INTRO:", "\nINTRO:", sec.intro, r5);
    LazyLineFirst(r3, "H1:", sec.h1, "\nINTRO:", " " + sec.intro + "\n" + r5);
    StripTrimmed(sec.h1);
  }

  /** The introduction reads back. */
  lemma {:induction false} IntroBack(sec: Sections)
    requires Carried(sec.title, true) && Carried(sec.description, true)
    requires Carried(sec.h1, true) && Carried(sec.intro, true)
    ensures Section(FormatResponse(sec), "INTRO:", Until("\nBODY:")) == sec.intro
  {
    var tail := Until("\nBODY:");
    var r4 := Line("INTRO:", sec.intro) + "\n" + Line("BODY:", sec.body);
    var r3 := Line("H1:", sec.h1) + "\n" + r4;
    var r2 := Line("DESCRIPTION:", sec.description) + "\n" + r3;
    LineFacts("TITLE:", sec.title);
    LineFacts("DESCRIPTION:", sec.description);
    LineFacts("H1:", sec.h1);
    SearchPastLine(Line("TITLE:", sec.title), "INTRO:", tail, r2);
    SearchPastLine(Line("DESCRIPTION:", sec.description), "INTRO:", tail, r3);
    SearchPastLine(Line("H1:", sec.h1), "INTRO:", tail, r4);
    StopsAreNextLabels();
    LineThenLast("INTRO:", sec.intro, "BODY:", "\nBODY:", sec.body);
    LazyLineFirst(r4, "INTRO:", sec.intro, "\nBODY:", " " + sec.body);
    StripTrimmed(sec.intro);
  }

  /** The body reads back. */
  lemma {:induction false} BodyBack(sec: Sections)
    requires Carried(sec.title, true) && Carried(sec.description, true)
    requires Carried(sec.h1, true) && Carried(sec.intro, true) && Carried(sec.body, false)
    ensures Section(FormatResponse(sec), "BODY:", ToEnd) == sec.body
  {
    var r5 := Line("BODY:", sec.body);
    var r4 := Line("INTRO:", sec.intro) + "\n" + r5;
    var r3 := Line("H1:", sec.h1) + "\n" + r4;
    var r2 := Line("DESCRIPTION:", sec.description) + "\n" + r3;
    LineFacts("TITLE:", sec.title);
    LineFacts("DESCRIPTION:", sec.description);
    LineFacts("H1:", sec.h1);
    LineFacts("INTRO:", sec.intro);
    SearchPastLine(Line("TITLE:", sec.title), "BODY:", ToEnd, r2);
    SearchPastLine(Line("DESCRIPTION:", sec.description), "BODY:", ToEnd, r3);
    SearchPastLine(Line("H1:", sec.h1), "BODY:", ToEnd, r4);
    SearchPastLine(Line("INTRO:", sec.intro), "BODY:", ToEnd, r5);
    GreedyLineFirst(sec.body);
    StripTrimmed(sec.body);
  }

  /**
   * Round trip: a response written in the requested layout, with non-empty,
   * stripped values and single-line sections before the body, parses back to the
   * values that were written, so nothing is reported missing.
   */
  lemma {:induction false} ParseFormat(sec: Sections)
    requires Carried(sec.title, true) && Carried(sec.description, true)
    requires Carried(sec.h1, true) && Carried(sec.intro, true) && Carried(sec.body, false)
    ensures ParseResponse(FormatResponse(sec)) == sec
    ensures MissingSections(ParseResponse(FormatResponse(sec))) == []
  {
    MissingSectionsSpec(ParseResponse(FormatResponse(sec)), "title");
    TitleBack(sec);
    DescriptionBack(sec);
    H1Back(sec);
    IntroBack(sec);
    BodyBack(sec);
  }
}
