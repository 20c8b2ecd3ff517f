# Elevate Repair page pipeline, modelled in Dafny

This project models the three tools that turn Elevate Repair's page catalog into
local landing pages:

- `tools/generate_mass_seo_plan.py`. It builds the page plan: Denver's
  appliance × problem matrix, then the tier-2 cities' matrix, then the Denver
  brand pages. Each entry gets a slug, a breadcrumb trail and internal links. A
  slug that was already seen or that names an existing page is skipped and
  counted. City and appliance filters and a limit can cut the plan short.
- `tools/generate_seo_pages.py`. It turns one plan entry into a page. It
  validates the template's marker comments, builds the prompt, and parses the
  five labelled sections of the generated text. It writes the sections between
  the marker comments and retargets the seed location's boilerplate phrases.
  It then validates the finished page. After a batch it reports paragraphs
  repeated across pages.
- `tools/generate-problem-pages.mjs`. It validates a batch of problem pages and
  skips the ones without a body. It renders the rest by replacing the template's
  `{{…}}` placeholders.

Modules:

| module | file | what it holds |
|---|---|---|
| `Wrappers` | `wrappers.dfy` | `Option` |
| `Text` | `text.dfy` | the string built-ins the scripts use: strip and trim, lower-casing, `find`/`rfind`, `replace` (with `Split`/`Join` as its partner), a table of replacements applied in turn |
| `PlanSlug` | `plan_slug.dfy` | `make_slug` and its normalisation |
| `PlanCatalog` | `plan_catalog.dfy` | the shipped tables (Denver, tier-2 cities and appliances, brand pages) |
| `PlanEntries` | `plan_entries.dfy` | page resolution and the two entry builders |
| `PlanBuild` | `plan_build.dfy` | `add_entry` as a function on the accumulated state, the three phases as functions, and `generate_plan` as a class with its loops |
| `PlanProperties` | `plan_properties.dfy` | what the plan satisfies: invariant, order, cap, prefix, filters, completeness, counts |
| `SeoMarkers` | `seo_markers.dfy` | marker table, template validation, marker-block replacement |
| `SeoContent` | `seo_content.dfy` | prompt building, city-reference replacement, content injection |
| `SeoResponse` | `seo_response.dfy` | the five section patterns, their round trip, the missing-section report |
| `SeoValidate` | `seo_validate.dfy` | `validate_output` |
| `SeoDuplicates` | `seo_duplicates.dfy` | `check_duplicates` and the reference it is proved against |
| `ProblemPages` | `problem_pages.dfy` | validation, filtering, related links and rendering of problem pages |

Loops in the source become methods with loop invariants. Each method is proved
equal to a specification function, and the properties are proved as lemmas
about that function. The plan generator mutates its plan, seen-slug set,
conflict list and counters in place. It is modelled as the class
`PlanBuild.PlanBuilder`, whose `AddEntry` method updates those fields, with
the loops `OfferProblems`, `OfferAppliances`, `OfferCities` and `OfferBrands`.
In the other two tools the loops, and the step-by-step rewriting of the page in
`inject_content`, are the methods `SeoContent.Rewrite`,
`SeoContent.InjectContent`, `SeoValidate.CheckOpenMarkers`,
`SeoValidate.ValidateOutput`, `SeoDuplicates.ScanParagraphs`,
`SeoDuplicates.CheckDuplicates`, `ProblemPages.ValidatePages` and
`ProblemPages.CheckFields`. Their other operations build values without
mutation and are modelled as functions. A function that only computes, such
as `PlanBuild.PlanSpec`, `ProblemPages.RenderPage`, `ProblemPages.Run`,
`SeoValidate.Leaks` or `SeoValidate.OutputErrors`, is listed under the lemmas
that state its properties (`PlanProperties.PlanIsRun`,
`ProblemPages.RenderPairs`, `ProblemPages.RunOutcome`,
`SeoValidate.LeakWithoutLinks`, `SeoValidate.OutputErrorsEmpty` and the rows
beside them).

Some behaviours of the scripts differ from what their names, comments or a
first reading suggest; the model follows the code:

- The brand entry's appliance crumb is labelled `{category} Repair`, without the
  brand (`tools/generate_mass_seo_plan.py:312`).
- `validate_output` checks only the five OPEN markers
  (`tools/generate_seo_pages.py:245-247`), not all ten delimiters. See
  `SeoValidate.MissingMarkerReported`.
- The merge test groups as `A or (B and C)`: `<<<<<<` alone, or both `=======`
  and `>>>>>>>` (`tools/generate_seo_pages.py:241`).
- A city entry's `parent_page` falls back to `{slug}.html` when the city hub is
  missing (`tools/generate_mass_seo_plan.py:283`). Its crumb and first link are
  then left out.

## Model

| member | source | states |
|---|---|---|
| PlanSlug.SpacesToHyphen | tools/generate_mass_seo_plan.py:237 | every whitespace run becomes a hyphen: the result has no whitespace and only characters of the input or `-` |
| PlanSlug.CollapseHyphens | tools/generate_mass_seo_plan.py:238 | every hyphen run becomes one hyphen: no `--` is left, and no character is introduced |
| PlanSlug.Normalize | tools/generate_mass_seo_plan.py:236-238 | lowering, stripping, whitespace and hyphen collapsing give a normalised stem: no upper case, no whitespace, no `--` |
| PlanSlug.MakeSlug | tools/generate_mass_seo_plan.py:229-239 | a slug is a normalised stem followed by `.html` |
| PlanSlug.NormalizeFixes | tools/generate_mass_seo_plan.py:236-238 | a normalised stem is a fixed point of the normalisation |
| PlanSlug.NormalizeIdempotent | tools/generate_mass_seo_plan.py:236-238 | normalising twice is normalising once |
| PlanSlug.JoinClean | tools/generate_mass_seo_plan.py:231-235 | the `-`-join of clean parts is clean |
| PlanSlug.MakeSlugOfCleanParts | tools/generate_mass_seo_plan.py:229-239 | catalog slugs pass through unchanged: the slug is exactly city, brand when truthy, appliance and problem joined with `-`, plus `.html` |
| PlanEntries.ResolveCityPage | tools/generate_mass_seo_plan.py:212-217 | Denver's hub is `index.html`, any other city's `{slug}.html`; found exactly when that file exists |
| PlanEntries.ResolveAppliancePage | tools/generate_mass_seo_plan.py:220-222 | the service page is found exactly when it exists |
| PlanEntries.UrlOf | tools/generate_mass_seo_plan.py:250-251 | a URL exists exactly for a truthy page, and is `/` plus the page |
| PlanEntries.Trail | tools/generate_mass_seo_plan.py:253-262 | Home first, the leaf last, the city crumb exactly when the city URL is known, the appliance crumb exactly when its URL is known |
| PlanEntries.Links | tools/generate_mass_seo_plan.py:264-268 | the known parent pages, then the extra links, then `/book.html` last |
| PlanEntries.BuildCityProblemEntry | tools/generate_mass_seo_plan.py:246-290 | the entry's slug and file name are `make_slug` of city, appliance and problem; it is a city entry without a brand; its parent page is the city hub, or `{city slug}.html` when the hub is missing; its trail is Home, the city and appliance crumbs whose URLs are known, then `{appliance} {problem}`; its links are the known hub and service page, then booking |
| PlanEntries.BuildBrandProblemEntry | tools/generate_mass_seo_plan.py:293-357 | the entry's slug carries the brand; it is a tier-1 brand entry of its appliance; its parent page is the city hub, or `index.html` when the hub is missing; its trail is Home, the known city crumb, the known `{category} Repair` crumb, then `{brand} {category} {problem}`; its links are the known hub and service page, the brand page, then booking |
| PlanEntries.CityEntryWellLinked | tools/generate_mass_seo_plan.py:253-268 | every city entry's trail and links hang together: Home first, itself last, all root-relative, booking last, city crumb and first link pointing at the parent page when the hub was found |
| PlanEntries.BrandEntryWellLinked | tools/generate_mass_seo_plan.py:305-325 | the same for brand entries, with the brand page linked just before booking |
| PlanCatalog.BrandServicePage | tools/generate_mass_seo_plan.py:472-478 | a service page is known exactly for `refrigerator` and `dryer` |
| PlanBuild.Admit | tools/generate_mass_seo_plan.py:383-397 | the slug is always marked seen and the counters' total grows by one; the entry joins the plan exactly when its slug is neither seen nor existing; a conflict is recorded exactly when it is new and existing |
| PlanBuild.KeepAppliances | tools/generate_mass_seo_plan.py:404-409 | an appliance is kept exactly when it is in the table and passes the stripped, lower-cased filter |
| PlanBuild.KeepCities | tools/generate_mass_seo_plan.py:434-436 | a tier-2 city is kept exactly when it is in the table and passes the filter |
| PlanBuild.PlanBuilder.constructor | tools/generate_mass_seo_plan.py:372-381 | an empty plan, no slugs seen, no conflicts, all counters zero |
| PlanBuild.PlanBuilder.AddEntry | tools/generate_mass_seo_plan.py:383-397 | the new state is `Admit` of the old one; the result is true exactly when the entry was appended |
| PlanBuild.OfferProblems | tools/generate_mass_seo_plan.py:419-426 | the problem loop ends in the state of the reference run, stopping right after the entry that fills the plan |
| PlanBuild.OfferAppliances | tools/generate_mass_seo_plan.py:417-428 | the appliance loop ends in the state of the reference run by groups |
| PlanBuild.OfferCities | tools/generate_mass_seo_plan.py:446-462 | the tier-2 city loop ends in the state of the reference run by blocks |
| PlanBuild.OfferBrandAt | tools/generate_mass_seo_plan.py:469-483 | one brand: skipped when filtered out, otherwise offered; the remaining run continues from the new state unless the plan is full |
| PlanBuild.OfferBrands | tools/generate_mass_seo_plan.py:467-483 | the brand loop ends in the state of the reference run over the brand candidates |
| PlanBuild.GeneratePlan | tools/generate_mass_seo_plan.py:363-485 | plan, counters and conflicts are those of the three-phase reference `PlanSpec` |
| PlanProperties.AdmitKeepsInv | tools/generate_mass_seo_plan.py:383-397 | `add_entry` keeps the invariant: distinct slugs, none existing, each conflict existing and recorded once, seen = planned ∪ conflicting, counters matching |
| PlanProperties.PlanKeepsInv | tools/generate_mass_seo_plan.py:363-485 | every generated plan satisfies that invariant |
| PlanProperties.PlanIsRun | tools/generate_mass_seo_plan.py:400-483 | the three phases with their early exits are one run over all candidates in phase order |
| PlanProperties.PlanSubseq | tools/generate_mass_seo_plan.py:400-483 | the plan is a subsequence of the candidate entries: nothing invented, order kept |
| PlanProperties.PlanCap | tools/generate_mass_seo_plan.py:425-428 | a positive limit bounds the plan's length |
| PlanProperties.PlanPrefix | tools/generate_mass_seo_plan.py:425-428 | a positive limit `n` gives exactly the first `n` entries of the unlimited plan |
| PlanProperties.PlanZeroLimit | tools/generate_mass_seo_plan.py:425 | a zero limit is falsy and means no limit |
| PlanProperties.PlanNegativeLimit | tools/generate_mass_seo_plan.py:425 | a negative limit is truthy and already reached, so the plan has at most one entry |
| PlanProperties.CandidatesRespect | tools/generate_mass_seo_plan.py:404-471 | every candidate is of a catalog city and appliance and passes the appliance filter, and the city filter when the catalog's Denver has the slug `denver` |
| PlanProperties.PlanRespectsFilters | tools/generate_mass_seo_plan.py:404-471 | when the catalog's Denver has the slug `denver`, every planned entry passes both filters |
| PlanProperties.UnknownApplianceFilter | tools/generate_mass_seo_plan.py:404-409 | an appliance filter naming no catalog appliance gives an empty plan |
| PlanProperties.UnknownCityFilter | tools/generate_mass_seo_plan.py:411-414 | a city filter naming neither `denver` nor a tier-2 city gives an empty plan |
| PlanProperties.RunUnlimited | tools/generate_mass_seo_plan.py:383-397 | without a limit every candidate's slug is seen and every candidate is counted once |
| PlanProperties.PlanAccountsForAll | tools/generate_mass_seo_plan.py:372-485 | without a limit each candidate is planned or recorded as a conflict, and the counters add up to the number of candidates |
| PlanProperties.BrandCandidatesFilterMap | tools/generate_mass_seo_plan.py:468-480 | phase 3 offers exactly the brand pages passing the filter, in table order |
| PlanProperties.RunAllAdmitted | tools/generate_mass_seo_plan.py:383-397 | distinct fresh slugs all join the plan in order, each under its counter |
| PlanProperties.UnfilteredCandidates | tools/generate_mass_seo_plan.py:400-483 | without filters there are Denver problems + tier-2 cities × tier-2 problems + brand pages candidates, counted per phase |
| PlanProperties.ShippedCandidates | tools/generate_mass_seo_plan.py:41-190 | the shipped catalog gives 150 candidates: 40 Denver, 100 tier-2, 10 brand |
| PlanProperties.FullPlan | tools/generate_mass_seo_plan.py:363-485 | distinct slugs, none existing, no filter and no limit: the plan is every candidate, no conflict, counters per phase |
| PlanProperties.ShippedFullPlan | tools/generate_mass_seo_plan.py:363-485 | under those premises the shipped catalog plans 150 pages, counted 40/100/10 |
| SeoMarkers.MissingMarkers | tools/generate_seo_pages.py:36-41 | a marker is listed exactly when it is in the table and absent from the template |
| SeoMarkers.ValidateTemplate | tools/generate_seo_pages.py:34-47 | nothing is missing exactly when all ten markers are present |
| SeoMarkers.FindBlock | tools/generate_seo_pages.py:153 | a found block is an open marker followed by the nearest close marker |
| SeoMarkers.ReplaceMarkerBlock | tools/generate_seo_pages.py:151-155 | without a block the page is unchanged; otherwise the text before the first block's open marker and after its close marker is kept, and the new content sits between the two markers |
| SeoMarkers.FindBlockFirst | tools/generate_seo_pages.py:153-155 | the block found is the leftmost and shortest, and none is found only when there is none |
| SeoMarkers.ReplaceKeepsOwnMarkers | tools/generate_seo_pages.py:151-155 | both markers survive the replacement |
| SeoMarkers.ReplaceKeepsOutside | tools/generate_seo_pages.py:151-155 | text ending before the block's content survives |
| SeoMarkers.FindBlockAgain | tools/generate_seo_pages.py:151-155 | after writing content without the close marker, the block is found again around exactly that content |
| SeoMarkers.ReplaceOverrides | tools/generate_seo_pages.py:151-155 | writing a block twice is writing the second content once |
| SeoMarkers.ReplaceIdempotent | tools/generate_seo_pages.py:151-155 | writing the same content twice is writing it once |
| SeoContent.Rewrite | tools/generate_seo_pages.py:82-84 | the replacement loop applies the table in order |
| SeoContent.BuildPrompt | tools/generate_seo_pages.py:72-85 | the prompt is the template with the six placeholders replaced in order |
| SeoContent.PromptWithoutBraces | tools/generate_seo_pages.py:72-85 | a template without braces is the prompt |
| SeoContent.PromptCity | tools/generate_seo_pages.py:75 | `{city}` alone becomes the city when the city holds no brace |
| SeoContent.CityPairs | tools/generate_seo_pages.py:166-184 | eight pairs, each a seed-location phrase and its retargeted text |
| SeoContent.ReplaceCityReferences | tools/generate_seo_pages.py:158-189 | the page with each of the eight phrases replaced in turn |
| SeoContent.CityReferencesAbsent | tools/generate_seo_pages.py:186-187 | a page without the seed phrases is unchanged |
| SeoContent.CityReferencesKeepMarkers | tools/generate_seo_pages.py:186-187 | every marker present before the city replacement is present after it |
| SeoContent.InjectContent | tools/generate_seo_pages.py:192-221 | the page is the five block writes in order, then the city replacement |
| SeoContent.InjectKeepsBodyMarkers | tools/generate_seo_pages.py:213-219 | when the body block is found, the injected page holds both body markers |
| SeoResponse.ParseResponse | tools/generate_seo_pages.py:128-148 | every section comes back stripped |
| SeoResponse.Search | tools/generate_seo_pages.py:141 | a match is found only when the label is in the response, and never when no line from the start position begins with the label |
| SeoResponse.Section | tools/generate_seo_pages.py:141-145 | a section whose label is absent from the response is `""` |
| SeoResponse.SectionIsPiece | tools/generate_seo_pages.py:141-146 | a section is a piece of the response, and empty when its label is absent |
| SeoResponse.SearchSkip | tools/generate_seo_pages.py:142 | the search passes over positions where the pattern cannot start |
| SeoResponse.SearchShift | tools/generate_seo_pages.py:142 | past a prefix ending a line, the search goes on as in the rest |
| SeoResponse.TitleBack | tools/generate_seo_pages.py:134 | a title line reads back |
| SeoResponse.DescriptionBack | tools/generate_seo_pages.py:135 | a description line reads back |
| SeoResponse.H1Back | tools/generate_seo_pages.py:136 | a heading line reads back |
| SeoResponse.IntroBack | tools/generate_seo_pages.py:137 | an intro line reads back |
| SeoResponse.BodyBack | tools/generate_seo_pages.py:138 | the body reads back |
| SeoResponse.ParseFormat | tools/generate_seo_pages.py:128-148 | a response in the requested layout, with non-empty stripped values, parses back to those values and nothing is reported missing |
| SeoResponse.MissingOfMembers | tools/generate_seo_pages.py:415 | a key is reported exactly when it is checked and its section is empty |
| SeoResponse.MissingOfEmpty | tools/generate_seo_pages.py:415-416 | nothing is reported exactly when every checked section is non-empty |
| SeoResponse.MissingSectionsSpec | tools/generate_seo_pages.py:415-419 | a key is reported exactly when it is one of the five and its section is empty; nothing is reported exactly when all five are non-empty |
| SeoValidate.MainRegion | tools/generate_seo_pages.py:232-234 | a region found sits in the page between a header close and a footer start |
| SeoValidate.MainRegionFramed | tools/generate_seo_pages.py:232-234 | the main region exists exactly when a header close is followed by a footer start, and spans from the first such close to the last such start |
| SeoValidate.MarkerErrorsSound | tools/generate_seo_pages.py:245-247 | every marker message names an open marker the page lacks |
| SeoValidate.MarkerErrorsComplete | tools/generate_seo_pages.py:245-247 | every open marker the page lacks is reported |
| SeoValidate.MarkerErrorsReport | tools/generate_seo_pages.py:245-247 | a marker message appears exactly for the open markers the page lacks |
| SeoValidate.CheckOpenMarkers | tools/generate_seo_pages.py:245-247 | the marker loop produces the reference messages in table order |
| SeoValidate.ValidateOutput | tools/generate_seo_pages.py:224-249 | the errors are leak, merge, then marker messages, as the reference lists them |
| SeoValidate.OutputErrorsEmpty | tools/generate_seo_pages.py:224-249 | a page passes exactly when it does not leak, has no merge markers and holds every open marker |
| SeoValidate.MissingMarkerReported | tools/generate_seo_pages.py:245-247 | an open marker is reported exactly when absent; close markers are never checked |
| SeoValidate.MergeReported | tools/generate_seo_pages.py:241-242 | the merge message appears exactly when `A or (B and C)` holds, right after any leak message |
| SeoValidate.SeedPageNeverLeaks | tools/generate_seo_pages.py:229 | a page for the seed location is never reported as leaking |
| SeoValidate.LeakWithoutLinks | tools/generate_seo_pages.py:232-238 | with no seed link in the main region, another city's page leaks exactly when the region names the seed location |
| SeoDuplicates.BodyRegion | tools/generate_seo_pages.py:262-264 | a body region found holds at least one character, as `(.+?)` requires |
| SeoDuplicates.Paragraphs | tools/generate_seo_pages.py:266 | each paragraph found uses up at least its `<p>` and `</p>`, so a text of `n` characters yields at most `n / 7` |
| SeoDuplicates.StripTags | tools/generate_seo_pages.py:269 | removing tags never lengthens the text |
| SeoDuplicates.BodyRegionMatch | tools/generate_seo_pages.py:262-264 | no region exactly when no open marker is followed by a close marker with text between; otherwise the text of the first such block |
| SeoDuplicates.ParagraphsEnclosed | tools/generate_seo_pages.py:266 | every paragraph found is the text of a `<p>` element, cut at its first `</p>` |
| SeoDuplicates.StripTagsTagFree | tools/generate_seo_pages.py:269 | no tag is left after stripping |
| SeoDuplicates.StripTagsOfTagFree | tools/generate_seo_pages.py:269 | a text without tags is unchanged |
| SeoDuplicates.StripTagsIdempotent | tools/generate_seo_pages.py:269 | stripping twice is stripping once |
| SeoDuplicates.CleanShape | tools/generate_seo_pages.py:269 | a cleaned paragraph has no tag and no surrounding whitespace |
| SeoDuplicates.Preview | tools/generate_seo_pages.py:281 | the first at most 100 characters of the text, then `...` |
| SeoDuplicates.ScanMatches | tools/generate_seo_pages.py:268-285 | the scan's table maps each text to the page of its first paragraph, and its reports are the reference reports |
| SeoDuplicates.ReportsNameFirstPage | tools/generate_seo_pages.py:275-283 | every report names two different pages, the first being where the text was first seen |
| SeoDuplicates.SamePageNeverReported | tools/generate_seo_pages.py:277 | a text repeated only within one page is never reported |
| SeoDuplicates.RepeatReported | tools/generate_seo_pages.py:275-283 | every later paragraph of another page repeating a text is reported against the page it was first seen in |
| SeoDuplicates.CheckDuplicates | tools/generate_seo_pages.py:252-286 | the reports are the reference reports of the long paragraphs of all pages, each naming two different pages |
| SeoDuplicates.ScanParagraphs | tools/generate_seo_pages.py:268-285 | the paragraph loop takes the scan through the page's long paragraphs |
| ProblemPages.LinkLines | tools/generate-problem-pages.mjs:110 | one line per link, in order |
| ProblemPages.RelatedLinksHtml | tools/generate-problem-pages.mjs:107-112 | a single link gives its line alone, with no separator |
| ProblemPages.RelatedLinksEmpty | tools/generate-problem-pages.mjs:108 | the markup is empty exactly when there is no link |
| ProblemPages.RelatedLinksLines | tools/generate-problem-pages.mjs:107-112 | cut at newlines, the markup gives one line per link in order |
| ProblemPages.RenderPairs | tools/generate-problem-pages.mjs:116-131 | twelve placeholders in replacement order, each with its value |
| ProblemPages.RenderWithoutBraces | tools/generate-problem-pages.mjs:115-134 | a template without braces renders unchanged |
| ProblemPages.RenderCascade | tools/generate-problem-pages.mjs:120-128 | a title that is the city placeholder comes out as the city, since the city is replaced later |
| ProblemPages.FieldErrorsCount | tools/generate-problem-pages.mjs:72-76 | each field's message appears once per listing of a lacking field, and no other message appears |
| ProblemPages.FieldErrorsSound | tools/generate-problem-pages.mjs:72-76 | every message is about a listed field the page lacks |
| ProblemPages.FieldErrorsEmpty | tools/generate-problem-pages.mjs:72-76 | a page has no message exactly when it has every listed field |
| ProblemPages.ErrorsEmpty | tools/generate-problem-pages.mjs:68-86 | a batch validates exactly when every page has every required field |
| ProblemPages.Partition | tools/generate-problem-pages.mjs:78-80 | every page is generated or skipped |
| ProblemPages.ToGenerateMembers | tools/generate-problem-pages.mjs:97 | a page is generated exactly when it has a non-blank body; otherwise its label is among the skipped |
| ProblemPages.ValidatePages | tools/generate-problem-pages.mjs:68-81 | the validation loop gives the reference errors and skipped labels |
| ProblemPages.CheckFields | tools/generate-problem-pages.mjs:72-76 | the field loop gives the reference messages |
| ProblemPages.RunOutcome | tools/generate-problem-pages.mjs:55-155 | nothing is rendered unless every page is complete; then each page is rendered in order or skipped |
| Text.TrimShape | tools/generate_seo_pages.py:144 | stripping keeps a contiguous middle part, removing only whitespace on both sides |
| Text.TrimIsTrimmed | tools/generate-problem-pages.mjs:78 | a trimmed text starts and ends with a non-space |
| Text.FindFrom | tools/generate_seo_pages.py:153 | the first occurrence at or after a position, and none before it |
| Text.FindLast | tools/generate_seo_pages.py:232 | the last occurrence at or after a position, and none after it |
| Text.SplitJoin | tools/generate_mass_seo_plan.py:370 | gluing the pieces of a split back together gives the string |
| Text.ReplaceAllIsJoin | tools/generate_seo_pages.py:187 | replacing every occurrence is splitting at it and joining with the new text |
| Text.ReplaceAllKeeps | tools/generate_seo_pages.py:187 | an occurrence that no match can overlap survives the replacement |
| Text.ApplyAllKeeps | tools/generate_seo_pages.py:186-187 | a string no pattern can harm survives a whole table of replacements |
| Text.ApplyAllAbsent | tools/generate_seo_pages.py:186-187 | text holding none of the patterns is unchanged |
| Text.SplitJoinChar | tools/generate-problem-pages.mjs:109-111 | splitting a join on one character that no part holds gives the parts back |

## Left out

- Directory scans (`detect_existing_html_files`, `detect_existing_subpage_files`) are parameters: the root page names and the sub-page paths are given as sets.
- The text-generation call, its authentication, timeout and the sleep between calls are left out; the response text is a parameter of the parser.
- Command-line parsing, console output, dry-run modes, plan and prompt loading (`load_plan`, `load_prompt_template`), JSON reading and writing, and all file reads and writes are left out; files are (name, content) pairs.
- `update_sitemap` and the sitemap update of the problem-page script are left out.
- SeoDuplicates.CheckDuplicates: paragraphs are keyed by their cleaned text, not by its MD5 digest. Equal texts have equal digests, so this matches the source unless two different texts collide.
- SeoMarkers.ReplaceMarkerBlock: `re.sub` would read backslashes in the new content as escapes; the model inserts the content literally.
- ProblemPages.RenderPage: JavaScript `$` patterns in replacement strings are not interpreted; values are inserted literally.
- ProblemPages.RenderPage: page properties are either missing or strings; other JSON values, and a non-array `pages` other than a missing one, are not modelled.
- Text.Lower: lower-cases ASCII letters only; Python's full Unicode `str.lower()` is not modelled.
- PlanProperties.ShippedFullPlan: takes the distinctness of the 150 catalog slugs as a premise rather than proving it from the tables.
- SeoContent.InjectKeepsBodyMarkers: marker preservation is proved only for the body block, written last, because it does not hold for all ten markers in general. A template whose title block encloses `<!-- SEO_H1 -->` loses that marker when the title is written. In a template with the title block before the description block, a generated title containing `<!-- SEO_META_DESCRIPTION -->` makes the description write start inside the title block, deleting `<!-- /SEO_TITLE -->`. For the four earlier blocks only `ReplaceKeepsOwnMarkers` and `ReplaceKeepsOutside` are proved, one write at a time.
- SeoResponse.ParseResponse: each pattern's group is modelled on the text after its label (the group only looks forward), and `SectionValue` reads `""` for a key that is not one of the five.
