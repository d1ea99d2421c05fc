# Risk Collective Hub: the record logic, in Dafny

Risk Collective Hub is a web front end for recording and reporting risk
assessments of products (called services in the database). Each product
belongs to a division and a team. The hosted database holds four tables:
`services`, `divisions`, `teams` and `risk_assessments`. The pages fetch
them as flat lists and then join, filter, count and display them.

This project models the logic behind the pages, with the fetched lists as
inputs:

- the row decoders of the fetch hooks;
- the product-details resolvers with their sentinel names ("Unknown
  Product", "Unknown Division", "Unknown Team", "Unknown Service",
  "Not assigned", "N/A", "Unknown");
- the search and filter predicates of the assessment page and the
  assessment table;
- the dashboard counts;
- the grouping behind the three charts;
- the CISO report's metrics;
- the default assessments every new product receives;
- the products dialog, the new-assessment submit handler and the
  revenue-impact checkboxes;
- the risk-level badge.

Modules:

- Shared:
  - `JsValues`: SQL `NULL` versus JavaScript `undefined`/`null`, and
    `||` truthiness.
  - `JsStrings`: `toLowerCase`, `toUpperCase`, `includes`, `trim`, and
    `Number.prototype.toString` for naturals.
  - `JsArrays`: `find`, `filter`, `reduce` sums, a key-ordered `sort`,
    first-seen de-duplication, and `Set` size.
  - `Schema`: the database rows.
  - `Records`: the camelCase records.
- One module per source file after those. The three charts share
  `ChartCounts`, which is the `reduce` into a dictionary followed by
  `Object.entries`.

State that the source changes in place becomes a class:

- the CISO report's `metrics` (`CisoReporting.CisoReport`);
- the products page's dialog, form and sent requests
  (`ServicesManagement.ProductsPage`);
- the submit handler's form and effects (`AssessmentSubmit.Submitter`);
- the revenue-impact form values (`RevenueImpact.RevenueImpactForm`).

The dictionary `reduce` of the charts is the loop of
`ChartCounts.Tally`. Everything else is functions and lemmas.

Behaviours of the code that the model keeps as written:

- `CISOReporting.tsx`, `ServicesManagement.tsx` and
  `RiskAssessmentForm.tsx` import `useProducts` from
  `src/hooks/useServices.ts`, but that file exports only `useServices`.
  The model takes `useProducts` to be that query, so the CISO report's
  products are decoded `Service` records.
- The CISO report keeps `null` remediation hours, which then count as 0.
  It drops `undefined` ones.
- The assessment table shows "N/A" for a division id that is the empty
  string, even when a division has that id. The other resolvers look such
  an id up (`AssessmentTable.DivisionNameAgrees` requires a non-empty id
  for this reason).
- In react-hook-form, `form.reset(values)` also replaces the form's
  default values, and `form.reset()` restores the defaults. So after
  `handleEdit` a successful save resets the products form to the edited
  product's values. The products page models this with `formDefaults`.
- The new-assessment insert sends no `division_id`.
- The assessment table's only caller, `src/pages/Index.tsx`, hands it records
  with thirteen keys built from the fetched rows, one of which (`impact`)
  names no column and is always `undefined`. The table's search runs over
  those values, not over the hook's richer records.

## Model

| member | source | states |
|---|---|---|
| ServiceDetails.FindService | src/hooks/useServiceDetails.ts:62 | `find` by id: `None` exactly when no row has the id, otherwise the first row that has it; a `null`/`undefined` key matches nothing |
| ServiceDetails.FindDivision | src/hooks/useServiceDetails.ts:68 | `find` by id over divisions: `None` iff no division has the key, else the first match |
| ServiceDetails.FindTeam | src/hooks/useServiceDetails.ts:69 | `find` by id over teams: `None` iff no team has the key, else the first match |
| ServiceDetails.DivisionNameOr | src/hooks/useServiceDetails.ts:79 | `find(...)?.name \|\| fallback`: the fallback when no division matches or the first match's name is "", otherwise that name |
| ServiceDetails.TeamNameOr | src/hooks/useServiceDetails.ts:80 | the same join for teams |
| ServiceDetails.GetProductDetails | src/hooks/useServiceDetails.ts:61-82 | an unknown product id gives exactly (Unknown Product, Unknown Division, Unknown Team); a known one gives the first matching row's name and its division and team resolved with their own fallbacks |
| ServiceDetails.DivisionAndTeamIndependent | src/hooks/useServiceDetails.ts:68-81 | a valid named division with a dangling team gives the real division name and "Unknown Team" |
| ServiceDetails.UnsetDanglingAndUnnamedAlike | src/hooks/useServiceDetails.ts:68-79 | an unset division id, a dangling one and a division named "" all give "Unknown Division" |
| ServiceDetails.FindProductByName | src/hooks/useServiceDetails.ts:85-106 | `None` iff no lower-cased name equals the lower-cased query; otherwise the first such product, with its id, division and team ids, timestamps and creator copied, description defaulted to "" and names resolved with fallbacks |
| ServiceDetails.FindProductByNameIgnoresCase | src/hooks/useServiceDetails.ts:86 | re-casing the query finds the same record |
| ServicesHook.DecodeService | src/hooks/useServices.ts:23-31 | id, name and creator copied; description, division and team become `undefined` when NULL or "" and are copied otherwise; the timestamp depends only on `created_at` |
| ServicesHook.DecodeServices | src/hooks/useServices.ts:23 | the decoder keeps length and order |
| ServicesHook.EncodeDecodeService | src/hooks/useServices.ts:23-31 | a row whose optional columns are NULL or non-empty is recovered from its decoding |
| ServicesHook.EmptyIsNull | src/hooks/useServices.ts:27 | an empty division id decodes exactly like a NULL one |
| RiskAssessmentsHook.DecodeAssessment | src/hooks/useRiskAssessments.ts:25-49 | ids and nullable columns copied, NULL kept as `null`; `piDataAtRisk` defaults to "no" and `mitigativeControlsImplemented` to "" when empty or NULL |
| RiskAssessmentsHook.DecodeAssessments | src/hooks/useRiskAssessments.ts:25-26 | decoding keeps length and order, and each record's id is the row id |
| RiskAssessmentsHook.FetchAssessments | src/hooks/useRiskAssessments.ts:11-49 | without a (non-empty) user id the result is empty; otherwise every fetched row decoded in order |
| RiskAssessmentsHook.DecodedIsDecoded | src/hooks/useRiskAssessments.ts:25-49 | a decoded record never has an `undefined` field and never an empty PI flag |
| RiskAssessmentsHook.DecodeEncode | src/hooks/useRiskAssessments.ts:25-49 | every record in the decoder's image is decoded back from its encoding: no field is lost |
| RiskAssessmentsHook.EncodeDecode | src/hooks/useRiskAssessments.ts:25-49 | apart from the two defaulted columns, re-encoding a decoded row gives the row back |
| RiskAssessmentsPage.FilterAssessments | src/pages/RiskAssessments.tsx:59-72 | an order-preserving subsequence; everything kept qualifies (its product exists, the search matches, both selects match); every qualifying assessment is kept with all its copies |
| RiskAssessmentsPage.KeepIffQualifies | src/pages/RiskAssessments.tsx:59-72 | the filter's test holds iff the assessment's first matching product passes search, division and team conditions together |
| RiskAssessmentsPage.UnresolvableDropped | src/pages/RiskAssessments.tsx:60-61 | an assessment whose product id matches no product is never kept |
| RiskAssessmentsPage.SearchOnly | src/pages/RiskAssessments.tsx:63-71 | with both selects at "all", kept iff the product name, category or description contains the term ignoring case |
| RiskAssessmentsPage.EmptyTermKeepsResolvable | src/pages/RiskAssessments.tsx:63-71 | the empty term with both selects at "all" keeps exactly the assessments whose product exists |
| RiskAssessmentsPage.SelectsRestrict | src/pages/RiskAssessments.tsx:68-71 | a chosen division or team keeps only assessments whose product has that `division_id` / `team_id` |
| RiskAssessmentsPage.SearchIgnoresCase | src/pages/RiskAssessments.tsx:64-66 | the result is unchanged under any re-casing of the term |
| RiskAssessmentsPage.CardHeader | src/pages/RiskAssessments.tsx:117-128 | each lookup that misses shows its own sentinel (Unknown Service / Division / Team); a hit shows the name unless it is "" |
| RiskAssessmentsPage.CardHeaderAgreesWithProductDetails | src/pages/RiskAssessments.tsx:117-128 | for a product with a non-empty name the card shows the same three names as the product-details resolver |
| Overview.ComputeHeadline | src/pages/Overview.tsx:37-45 | total = number of assessments; critical + high <= total; distinct services <= total and 0 iff no assessments; divisions at risk <= number of products |
| Overview.HeadlineCounts | src/pages/Overview.tsx:38-45 | the level counts are the numbers of assessments at "critical" and "high", the product count the number of distinct product references, the division count the number of distinct divisions of products with an assessment |
| Overview.DivisionsWithRisksMeans | src/pages/Overview.tsx:41-45 | a division id (NULL included) is counted iff some product with that id has an assessment |
| Overview.DivisionsAtMostServices | src/pages/Overview.tsx:40-45 | with unique product ids there are never more divisions at risk than products at risk |
| Overview.AtRiskDivisionHasRef | src/pages/Overview.tsx:41-45 | every division at risk is the division of some product an assessment refers to |
| AssessmentTable.GetDivisionName | src/components/RiskAssessmentTable.tsx:41-45 | "N/A" for a missing or empty id, "Unknown" when no division has it, otherwise the first match's name |
| AssessmentTable.DivisionNameAgrees | src/components/RiskAssessmentTable.tsx:41-45 | for a found, named division with a non-empty id it agrees with the other resolvers |
| AssessmentTable.ListAssessment | src/pages/Index.tsx:39-53 | the record the table is given: `impact` always `undefined`, the product id NULL as `null`, the timestamp parsed |
| AssessmentTable.ListAssessments | src/pages/Index.tsx:39 | the mapping keeps length and order |
| AssessmentTable.ListAgreesWithHook | src/pages/Index.tsx:39-53 | its twelve other keys hold what the assessment hook decodes from the same row |
| AssessmentTable.Values | src/components/RiskAssessmentTable.tsx:48 | the 13 values of a listed record, each position stated, in the order the index page writes the keys |
| AssessmentTable.Render | src/components/RiskAssessmentTable.tsx:49 | `value?.toString()`: nothing for `null`/`undefined`, the text itself, the decimal digits of a number, "true"/"false" for a flag |
| AssessmentTable.SearchAssessments | src/components/RiskAssessmentTable.tsx:47-51 | an order-preserving subsequence keeping exactly (with all copies) the records with some non-null field containing the term ignoring case |
| AssessmentTable.EmptyTermKeepsAll | src/components/RiskAssessmentTable.tsx:47-51 | the empty term keeps every record (each has a non-null id) |
| AssessmentTable.CriticalFindsCritical | src/components/RiskAssessmentTable.tsx:49 | a term that is "critical" in any casing, "CRITICAL" say, keeps every record whose level is "critical" |
| AssessmentTable.SearchIgnoresCase | src/components/RiskAssessmentTable.tsx:49 | the result is unchanged under re-casing of the term |
| AssessmentTable.NullAndUndefinedAlike | src/components/RiskAssessmentTable.tsx:49 | no `null` or `undefined` value ever matches, whatever the term; a record with a `null` product id matches exactly as with an `undefined` one |
| ChartCounts.Tally | src/components/charts/RiskCategoryDistribution.tsx:10-13 | the `reduce` loop: keys in insertion (first-seen) order, exactly the occurring values, each counted by its number of occurrences |
| ChartCounts.EntryOrder | src/components/charts/RiskCategoryDistribution.tsx:15 | `Object.entries` order: a permutation of the keys, equal to insertion order when no key is an array index |
| ChartCounts.Entries | src/components/charts/RiskCategoryDistribution.tsx:10-18 | the reduce followed by `Object.entries` computes `Distribution` |
| ChartCounts.DistributionKeys | src/components/charts/RiskCategoryDistribution.tsx:10-18 | a key has an entry iff it occurs among the values |
| ChartCounts.DistributionCounts | src/components/charts/RiskCategoryDistribution.tsx:11 | each entry's count is the key's number of occurrences, at least 1 |
| ChartCounts.DistributionDistinctKeys | src/components/charts/RiskCategoryDistribution.tsx:10-15 | no key appears twice |
| ChartCounts.TotalCount | src/components/charts/RiskCategoryDistribution.tsx:10-13 | the counts sum to the number of values |
| ChartCounts.FirstSeenOrder | src/components/charts/RiskCategoryDistribution.tsx:15 | without array-index keys the entries follow first occurrence |
| ChartCounts.CountsAreGroupSizes | src/components/charts/RiskCategoryDistribution.tsx:11 | occurrences of a key among the mapped values = number of records with that key |
| RiskLevelChart.LevelDistribution | src/components/charts/RiskLevelDistribution.tsx:17-25 | the component's reduce and labelling compute `LevelSlices` |
| RiskLevelChart.SlicesTotal | src/components/charts/RiskLevelDistribution.tsx:17-20 | slice values sum to the number of assessments |
| RiskLevelChart.SliceOfLevel | src/components/charts/RiskLevelDistribution.tsx:17-25 | every slice is an occurring level, capitalised, with value = its number of assessments >= 1 |
| RiskLevelChart.OneSlicePerLevel | src/components/charts/RiskLevelDistribution.tsx:17-25 | every occurring level has a slice, and no level has two |
| RiskLevelChart.SlicesInFirstSeenOrder | src/components/charts/RiskLevelDistribution.tsx:22-23 | without array-index levels, slices follow first occurrence |
| RiskLevelChart.Colour | src/components/charts/RiskLevelDistribution.tsx:9-14 | a colour exactly for the four levels |
| RiskLevelChart.FillOfLevel | src/components/charts/RiskLevelDistribution.tsx:42 | lower-casing a slice name recovers the level, so each of the four levels gets its colour |
| RiskCategoryChart.RiskCategoryDistribution | src/components/charts/RiskCategoryDistribution.tsx:10-18 | the component computes `CategoryBars` |
| RiskCategoryChart.BarsTotal | src/components/charts/RiskCategoryDistribution.tsx:10-13 | counts sum to the number of assessments |
| RiskCategoryChart.BarCounts | src/components/charts/RiskCategoryDistribution.tsx:11 | each bar's count is the number of assessments with that category, at least 1 |
| RiskCategoryChart.BarsPerCategory | src/components/charts/RiskCategoryDistribution.tsx:10-18 | a category has a bar iff it occurs, and no category has two |
| RiskCategoryChart.BarsInFirstSeenOrder | src/components/charts/RiskCategoryDistribution.tsx:15 | without numeric keys, bars follow first occurrence |
| DataClassificationChart.DataClassificationDistribution | src/components/charts/DataClassificationDistribution.tsx:10-18 | the component computes `ClassificationBars` |
| DataClassificationChart.BarsTotal | src/components/charts/DataClassificationDistribution.tsx:10-13 | counts sum to the number of assessments |
| DataClassificationChart.BarCounts | src/components/charts/DataClassificationDistribution.tsx:11 | each bar's count is the number of assessments with that classification, at least 1 |
| DataClassificationChart.BarsPerClassification | src/components/charts/DataClassificationDistribution.tsx:10-18 | a classification has a bar iff it occurs, and none has two |
| DataClassificationChart.BarsInFirstSeenOrder | src/components/charts/DataClassificationDistribution.tsx:15 | without numeric keys, bars follow first occurrence |
| RiskLevelBadge.ColourClass | src/components/RiskLevelBadge.tsx:10-15 | a colour class exactly for low, medium, high and critical |
| RiskLevelBadge.ColoursDistinct | src/components/RiskLevelBadge.tsx:10-15 | the four classes are pairwise distinct |
| RiskLevelBadge.Label | src/components/RiskLevelBadge.tsx:19 | same length, first character upper-cased, the rest unchanged, equal to the level up to case |
| RiskLevelBadge.LabelRoundTrip | src/components/RiskLevelBadge.tsx:19 | lower-casing the label gives back each of the four levels |
| CisoReporting.RelevantIff | src/components/risk/CISOReporting.tsx:60-68 | an assessment is relevant iff it refers to a listed product that resolves to division "B2B" and team "Zeus" |
| CisoReporting.ScopedIff | src/components/risk/CISOReporting.tsx:60-63 | a product is in scope iff it is listed and resolves to B2B / Zeus |
| CisoReporting.RefersIff | src/components/risk/CISOReporting.tsx:65-68 | `includes` on the id list: kept iff some scoped product has the assessment's product id |
| CisoReporting.LacksControlsIff | src/components/risk/CISOReporting.tsx:98-100 | missing controls iff the mitigation is absent or white space only |
| CisoReporting.Count | src/components/risk/CISOReporting.tsx:75-100 | each `filter(...).length` count lies between 0 and the number of relevant assessments |
| CisoReporting.RemediationTimesKept | src/components/risk/CISOReporting.tsx:103-106 | the times are, in assessment order, the hours of exactly the assessments whose hours are not `undefined`, a `null` read as 0 |
| CisoReporting.RemediationTimesConcat | src/components/risk/CISOReporting.tsx:103-105 | the times of a concatenation are the times of its parts, one after the other |
| CisoReporting.NullHoursCountAsZero | src/components/risk/CISOReporting.tsx:104-106 | in any list, an assessment with `null` hours gives the same times as one with 0 hours, and one with `undefined` hours the same times as removing it |
| CisoReporting.Median | src/components/risk/CISOReporting.tsx:108-114 | 0 for no times, otherwise a value between two of the times |
| CisoReporting.MedianOfSorted | src/components/risk/CISOReporting.tsx:106-114 | over the ascending sort (a permutation of the times): the middle element for odd length, the mean of the two middle ones for even |
| CisoReporting.MedianBounds | src/components/risk/CISOReporting.tsx:108-114 | bounds on the times bound the median |
| CisoReporting.MedianOfThree | src/components/risk/CISOReporting.tsx:110-113 | three sorted times have the middle one as median |
| CisoReporting.MedianOfFour | src/components/risk/CISOReporting.tsx:110-112 | four sorted times have the mean of the middle two as median |
| CisoReporting.PiPoints | src/components/risk/CISOReporting.tsx:119-127 | 0 unless PI data is at risk, then between 5 and 100 |
| CisoReporting.PiRiskScoreBounds | src/components/risk/CISOReporting.tsx:118-128 | the score is between 0 and 100 times the number of assessments |
| CisoReporting.PiRiskScoreAdditive | src/components/risk/CISOReporting.tsx:118-128 | the score of a concatenation is the sum of the scores |
| CisoReporting.LastAssessmentDate | src/components/risk/CISOReporting.tsx:90-92 | the latest creation time (one of them, and no earlier than any), or now for none |
| CisoReporting.DaysSinceLastAssessment | src/components/risk/CISOReporting.tsx:93-95 | the floor of the elapsed days since the latest creation, non-negative when no creation time is in the future |
| CisoReporting.ComputeMetrics | src/components/risk/CISOReporting.tsx:57-145 | no metrics iff there are no assessments, no products or nothing relevant; otherwise every count bounded by the relevant assessments, the PI score by 100 per assessment and the two estimates fixed |
| CisoReporting.CisoReport.constructor | src/components/risk/CISOReporting.tsx:33-44 | starts with the sample metrics |
| CisoReporting.CisoReport.Refresh | src/components/risk/CISOReporting.tsx:57-145 | the metrics become the computed ones when there are any, and are kept otherwise |
| CisoReporting.SampleValuesKept | src/components/risk/CISOReporting.tsx:57-145 | when no assessment is relevant nothing is computed, so the sample metrics stay |
| CisoReporting.TotalOfBuiltInLosses | src/components/risk/CISOReporting.tsx:47-55 | the built-in loss list totals 1,550,000 |
| ServicesManagement.CreateDefaultRiskAssessments | src/pages/ServicesManagement.tsx:239-246 | 14 records in template order, each its template plus service id, division id and creator, with no other column set |
| ServicesManagement.InstantiateRoundTrip | src/pages/ServicesManagement.tsx:241-246 | one insert object keeps the whole template and adds only the three ownership columns |
| ServicesManagement.TemplateOfRoundTrip | src/pages/ServicesManagement.tsx:241-246 | conversely an object of that shape is the instance of the template it carries |
| ServicesManagement.TemplatesShape | src/pages/ServicesManagement.tsx:29-198 | every template has likelihood 1, revenue impact "unclear", a level among medium/high/critical and a standard category |
| ServicesManagement.CategorySplit | src/pages/ServicesManagement.tsx:29-198 | six "Error", six "Failure" and two "Malicious" templates |
| ServicesManagement.DefaultsAreNotCustom | src/pages/ServicesManagement.tsx:29-198 | no default assessment counts as a custom risk in the CISO report |
| ServicesManagement.ProductTableRow | src/pages/ServicesManagement.tsx:439-447 | a missing or dangling division or team shows "Not assigned", as does a name ""; otherwise the first match's name |
| ServicesManagement.UnassignedDivision | src/pages/ServicesManagement.tsx:440-446 | a product without a division shows "Not assigned" whatever the divisions are |
| ServicesManagement.ProductsPage.EditAndResubmit | src/pages/ServicesManagement.tsx:263-330 | editing a product and saving its loaded values unchanged sends one update of that product with its own fields, then a refetch, and leaves the form at its values |
| ServicesManagement.ProductsPage.constructor | src/pages/ServicesManagement.tsx:202-237 | closed dialog, nothing edited, empty form, no requests |
| ServicesManagement.ProductsPage.HandleEdit | src/pages/ServicesManagement.tsx:321-330 | the product becomes the edited one, the form holds its values (also as defaults), the dialog opens, nothing is sent |
| ServicesManagement.ProductsPage.HandleDialogClose | src/pages/ServicesManagement.tsx:357-368 | closing discards the edit and empties the form; opening changes nothing else; nothing is sent |
| ServicesManagement.ProductsPage.OnSubmit | src/pages/ServicesManagement.tsx:259-319 | editing sends one update; creating without a user sends nothing; creating sends the insert and, only once it succeeds, the 14 defaults for the new id; a full success resets the form, closes the dialog, forgets the edit and refetches; a failure changes no state; a product is only ever edited while the dialog is open, and every default batch comes right after its product's insert, with that insert's creator and division |
| ServicesManagement.ProductsPage.HandleDelete | src/pages/ServicesManagement.tsx:332-355 | sends the delete, refetches only on success, and leaves the dialog and form alone |
| AssessmentSubmit.DataToSubmit | src/hooks/useRiskAssessmentSubmit.ts:26-29 | the owner is the user's e-mail when non-empty, otherwise the form's owner; nothing else changes |
| AssessmentSubmit.InsertPayload | src/hooks/useRiskAssessmentSubmit.ts:34-56 | the creator is the user id, the mitigation is the form value or "" when empty or absent, no division is sent |
| AssessmentSubmit.PayloadRoundTrip | src/hooks/useRiskAssessmentSubmit.ts:34-56 | reading the payload back gives the submitted values, up to the defaulted mitigation |
| AssessmentSubmit.PayloadKeepsMitigation | src/hooks/useRiskAssessmentSubmit.ts:42 | with a set mitigation, the payload gives back the submitted values exactly |
| AssessmentSubmit.OwnerIsEmail | src/hooks/useRiskAssessmentSubmit.ts:28-55 | the stored owner is the user's e-mail and the creator the user's id |
| AssessmentSubmit.Submitter.HandleSubmit | src/hooks/useRiskAssessmentSubmit.ts:15-78 | without a user nothing is inserted, submitted or reset; otherwise one insert, and only when it succeeds `onSubmit` with the submitted data and then the form reset; each `onSubmit` comes right after the insert of its own data and before a reset |
| RevenueImpact.AfterGlobalChange | src/components/forms/RevenueImpactSection.tsx:51-56 | the flag becomes exactly "checked is true"; only unchecking clears the hours; every other field, the local ones included, is unchanged |
| RevenueImpact.AfterLocalChange | src/components/forms/RevenueImpactSection.tsx:75-80 | the same for the local box, leaving the global fields unchanged |
| RevenueImpact.ClicksKeepNoStaleHours | src/components/forms/RevenueImpactSection.tsx:51-80 | checking and unchecking keep hours only for boxes that are set |
| RevenueImpact.IndeterminateKeepsHiddenHours | src/components/forms/RevenueImpactSection.tsx:52-61 | "indeterminate" clears the flag but, being truthy, keeps hours that are then hidden |
| RevenueImpact.ToggleVisibility | src/components/forms/RevenueImpactSection.tsx:29-85 | unchecking hides the hours input and clears it; checking shows it whenever the options are shown |
| RevenueImpact.HandlersCommute | src/components/forms/RevenueImpactSection.tsx:51-80 | the two boxes are independent: their handlers commute |
| RevenueImpact.ChangeIdempotent | src/components/forms/RevenueImpactSection.tsx:51-80 | reporting the same state twice changes nothing the second time |
| RevenueImpact.RevenueImpactForm.OnGlobalCheckedChange | src/components/forms/RevenueImpactSection.tsx:51-56 | the two `setValue` steps produce `AfterGlobalChange` of the old values |
| RevenueImpact.RevenueImpactForm.OnLocalCheckedChange | src/components/forms/RevenueImpactSection.tsx:75-80 | the two `setValue` steps produce `AfterLocalChange` of the old values |
| RevenueImpact.RevenueImpactForm.SetRevenueImpact | src/components/forms/RevenueImpactSection.tsx:29-43 | only the revenue impact changes, and the options show iff it is "yes" |

## Left out

- Database calls, the query and mutation wrappers, toasts and console output are not modelled. Fetched lists are parameters, and each request's success or failure is an input flag.
- `new Date(...)` parsing and `Date.now()` are parameters: `parseDate`, `dateText` and `now`, all in milliseconds.
- The table renders a date with `Date.prototype.toString`; the model leaves this to the `dateText` parameter.
- `Intl.NumberFormat` euro formatting is a foreign library call and is not modelled.
- AssessmentTable.SearchAssessments: the records the index page appends optimistically after a form submit (with a random id and the current time) are not modelled; the search is stated for fetched records.
- Number fields hold what the user types: `<Input type="number">` hands react-hook-form a string, so likelihood and the hours fields are text once edited. `AssessmentSubmit.InsertPayload` and the `RevenueImpact` members treat them as integers.
- Numbers are integers. Hours, counts and likelihood are whole in practice; only the median is a `real`.
- Case mapping covers ASCII letters only. JavaScript's full Unicode case mapping is not modelled.
- `trim` removes the common ASCII white space and the no-break space, not every Unicode space.
- Dictionary keys that collide with `Object.prototype` members (such as "constructor" or "__proto__") would misbehave in the source's plain-object `reduce`. The model does not reproduce that.
- `getProductRiskAssessments` is a plain fetch and is not modelled.
- The shared `['services']` query cache is not modelled. `useServices` and `useProductDetails` use the same key with different result shapes; the model gives each its own list.
- React rendering, routing, authentication, chart drawing and the other pages are not modelled. Nor is form validation: `handleSubmit` calls `onSubmit` only when the required name is set.
- CisoReporting.Count: states the bounds of each count, not the count itself, which is the length of the filter it computes.
- CisoReporting.Median: states bounds; the middle-element definition is stated separately by `MedianOfSorted`.
