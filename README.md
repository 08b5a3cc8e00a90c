# A verified model of the inference pricing catalogue

The inference catalogue compares the prices of hosted language models. It
holds a list of models, each with prices per million input and output tokens,
a category and a vendor. It loads that list either from a structured file or
from an upstream provider's listing, shows it in a table that can be filtered
and sorted, and estimates the cost of a sample prompt. Offline scripts
generate, validate and export the catalogue files.

This project models the deterministic core of that system in Dafny and proves
the properties its code promises. Each module follows one source file:

- `Formatters` (`src/components/pricing/formatters.ts`): the heuristic token
  estimate and its `[TOKEN_MULTIPLIER:N]` tag, the costs per leg and in
  total, and which display `formatPrice` chooses.
- `Upstream`, `Versions`, `LatestVersions`, `OpenRouter` and `DataService`
  (`src/lib/dataService.ts`):
  - `Upstream` holds the per-record helpers: the vendor guess from an id, the
    classifiers for category and capability tier, and pricing and parameter
    extraction through alias chains;
  - `Versions` holds the base-name, preview and version-number rules;
  - `LatestVersions` keeps the latest members of each model family;
  - `OpenRouter` interns the raw records into a catalogue;
  - `DataService` recognises the shape of a payload and passes an
    already-structured catalogue through.
- `Helpers` and `Sorting` (`src/components/pricing/helpers.ts`): the lookups,
  the filter and the column sort. `Array.prototype.sort` is a stable
  insertion sort on an array.
- `DataLoader` (`src/lib/dataLoader.ts`): linking the parsed catalogue in
  place, with classes for the linked objects.
- `ModelChecks`, `DataValidator` and `GenerateModels`
  (`src/lib/dataValidator.ts`, `scripts/generate-models.js`): the per-model
  validators and the merge loop over the vendor files.
- `PricingValidator` (`scripts/pricing-validator.js`): the threshold and
  vendor-range checks. Their findings go into lists that a class owns.
- `ExportUtils` (`src/lib/exportUtils.ts`): the export records and the CSV
  text.
- `ExportJson` (`scripts/export-to-json.ts` and `.js`): the export field
  mapping, the required-field check, the abort rule, grouping by vendor and
  the file-name slug.
- `SampleText` (`src/lib/sampleText.ts`): conversation assembly and the two
  default texts.
- Shared modules:
  - `Types` holds the catalogue records;
  - `Json` holds JavaScript values with their truthiness, property reads and
    `||` chains;
  - `Text` holds the string operations;
  - `Seqs` holds filtering, grouping and subsequences;
  - `Wrappers` holds `Option` and `Result`, whose error is a JavaScript
    error kind.

Prices and costs are exact reals. `parseFloat`, `parseInt` and the `Date`
conversions are supplied as functions of a `Parsers` value, and any of them
may report `NaN` or an invalid date.

## Model

| member | source | states |
|---|---|---|
| Formatters.ParseTagIsRegexMatch | src/components/pricing/formatters.ts:68-76 | the tag is found exactly when `^\[TOKEN_MULTIPLIER:(\d+)\]` matches at index 0; the multiplier is the value of the matched digits and the clean text is everything after the match |
| Formatters.ParseTag | src/components/pricing/formatters.ts:68-76 | a tag found leaves a strictly shorter clean text, which is a suffix of the input |
| Formatters.TagMatchIsLeadingDigits | src/components/pricing/formatters.ts:68 | the regular expression can match only with the full run of digits after the head, and a `]` must follow it |
| Formatters.ParseTagRoundTrip | src/components/pricing/formatters.ts:68-76 | reading back a tag written in front of a text gives the multiplier and that text |
| Formatters.NoTagWithoutBracket | src/components/pricing/formatters.ts:68 | a text that does not start with `[` has no tag, wherever a tag might occur later |
| Formatters.Token | src/components/pricing/formatters.ts:84 | the leading run is a prefix, holds no whitespace and ends at whitespace or at the end |
| Formatters.SkipSpaces | src/components/pricing/formatters.ts:84 | the rest after a whitespace run is a suffix that starts with a non-space and is shorter when the text starts with whitespace |
| Formatters.SplitOnSpaces | src/components/pricing/formatters.ts:84 | `split(/\s+/)` yields at least one piece and no piece holds whitespace |
| Formatters.WordCountIsWordStarts | src/components/pricing/formatters.ts:84 | splitting on whitespace and dropping empty pieces counts exactly the word starts of the text |
| Formatters.CountsArePositions | src/components/pricing/formatters.ts:84-86 | the word, special-character and digit counts are the sizes of the position sets the three regular expressions match |
| Formatters.CeilDiv | src/components/pricing/formatters.ts:93 | `Math.ceil(a / b)` is the least natural whose product with b reaches a |
| Formatters.Formula | src/components/pricing/formatters.ts:90-96 | the least count that is at least 1.3·words + 0.5·specials + 0.3·digits and at least a quarter of the length |
| Formatters.BaseEstimate | src/components/pricing/formatters.ts:84-96 | the count of a clean text covers both heuristics, with the length counted in UTF-16 code units |
| Formatters.EstimateTokenCount | src/components/pricing/formatters.ts:64-97 | the empty text counts 0; an untagged text counts at least a quarter of its length in UTF-16 code units, which is at least its number of characters |
| Formatters.EstimateWithoutTag | src/components/pricing/formatters.ts:84-96 | without a tag the count is max(ceil(1.3·words + 0.5·specials + 0.3·digits), ceil(length/4)), words being maximal non-whitespace runs and the length counted in UTF-16 code units |
| Formatters.EstimateWithTag | src/components/pricing/formatters.ts:68-76 | a tagged text counts N times the estimate of the text behind the tag, an empty one included |
| Formatters.MultiplierLaw | src/components/pricing/formatters.ts:96 | when the text behind the tag has no tag of its own, the count is N times its count |
| Formatters.EditorPrefixLaw | src/components/pricing/TextInputArea.tsx:171-176 | what the conversation editor sends counts min(multiplier, 1000) times the plain text |
| Formatters.SimpleMessageEstimate | src/components/pricing/__tests__/formatters.test.js:21-26 | "This is a simple message." counts 7, strictly between 4 and 10 |
| Formatters.SimpleMessageCounts | src/components/pricing/__tests__/formatters.test.js:21-26 | that sentence has five words, one special character and no digits |
| Formatters.SpecialSentenceEstimate | src/components/pricing/__tests__/formatters.test.js:28-32 | the sentence with punctuation and digits counts at least 20, above 15 |
| Formatters.EmojiEstimate | src/components/pricing/formatters.ts:93 | eight emoji with no space count 4 tokens: each is two UTF-16 code units, so the length heuristic wins |
| Text.Utf16Length | src/components/pricing/formatters.ts:93 | the `.length` of a string lies between its number of characters and twice that |
| Text.Utf16LengthAtLeast | src/components/pricing/formatters.ts:93 | a string without astral-plane characters has one code unit per character, and one with such a character has more |
| Text.Utf16LengthAstral | src/components/pricing/formatters.ts:93 | a string of astral-plane characters only has two code units per character |
| Formatters.CostAtScales | src/components/pricing/formatters.ts:105 | N times the tokens cost N times as much |
| Formatters.CostMeaning | src/components/pricing/formatters.ts:100-115 | on both legs the cost times 1,000,000 is the price times the estimate; a non-negative price gives a non-negative cost, and empty text costs 0 |
| Formatters.EmptyTextCostsNothing | src/components/pricing/__tests__/formatters.test.js:79-81 | empty text costs 0 at any price, on both legs |
| Formatters.CostScalesWithMultiplier | src/components/pricing/__tests__/formatters.test.js:70-77 | a tagged text costs N times the cost of the text behind the tag |
| Formatters.ScaledCost | src/components/pricing/formatters.ts:100-106 | a text estimated at N times another's tokens costs N times as much |
| Formatters.CalculateTotalCost | src/components/pricing/formatters.ts:118-133 | each leg is its own cost; the total is defined exactly when both prices are, and is then their sum |
| Formatters.FormatPrice | src/components/pricing/formatters.ts:21-49 | 'N/A' exactly for undefined, the error branch exactly for 0 < p < 0.001, the check branch exactly for p > 500, and every other branch shows the price unscaled |
| Formatters.GeminiPriceUnscaled | src/components/pricing/__tests__/formatters.test.js:186-195 | 37.5 is shown as 37.5 per million, never divided by 1000 |
| Upstream.FirstScalar | src/lib/dataService.ts:351 | the first truthy scalar of an alias chain, preceded only by falsy ones; none exactly when every alias is falsy |
| Upstream.FirstText | src/lib/dataService.ts:291-293 | the first truthy string of an alias chain, preceded only by falsy ones; none exactly when every alias is falsy |
| Upstream.Trunc | src/lib/dataService.ts:353 | truncation toward zero: the integer within one below a non-negative number and within one above a negative one |
| Upstream.SeparatorIn | src/lib/dataService.ts:261-266 | the first separator by priority that occurs in the id, and none exactly when no separator occurs |
| Upstream.FindWord | src/lib/dataService.ts:274 | the first vendor keyword contained in the text, preceded only by keywords it lacks; none exactly when it contains none |
| Upstream.Capitalize | src/lib/dataService.ts:282 | the first character is upper-cased and the rest is kept as it is; the empty string stays empty |
| Upstream.VendorInfoOf | src/lib/dataService.ts:281-284 | the vendor key is always the lower case of the vendor name |
| Upstream.ExtractVendorInfo | src/lib/dataService.ts:256-285 | the separator loop with its early break gives the same vendor as the declarative definition |
| Upstream.EmptyIdIsUnknown | src/lib/dataService.ts:259 | a missing or empty id gives vendor Unknown, whatever the model name |
| Upstream.SeparatorDecides | src/lib/dataService.ts:262-266 | the first separator by priority that occurs splits the id at its first occurrence, and that prefix is the vendor |
| Upstream.KeywordsOnlyWithoutSeparator | src/lib/dataService.ts:270-278 | only an id without any separator falls back to the keyword search in the lower-cased name, else Unknown |
| Upstream.MetaLlamaKey | src/lib/dataService.ts:262-264 | an id starting with meta-llama/ gets vendor key meta-llama: the slash separator wins over the dash |
| Upstream.AnyOccurs | src/lib/dataService.ts:322 | true exactly when some pattern occurs in the text |
| Upstream.FirstClass | src/lib/dataService.ts:321-325 | the index of the first classification with a matching keyword, preceded only by non-matching ones; -1 exactly when none matches |
| Upstream.CategoryIn | src/lib/dataService.ts:321-327 | General exactly when no classification matches; otherwise the name of the first matching one |
| Upstream.ClassifyModel | src/lib/dataService.ts:290-328 | the category of the lower-cased name, description and id joined by spaces |
| Upstream.FirstMatchingClass | src/lib/dataService.ts:321-327 | the loop that returns at the first matching classification computes the declarative category |
| Upstream.CodeBeforeVision | src/lib/dataService.ts:297-305 | a text with both a code and a vision keyword is classified Code Generation: table order decides |
| Upstream.FrontierFirst | src/lib/dataService.ts:381-384 | the tier is Frontier exactly when a frontier pattern, at least 70 billion parameters or a context of at least 1000000 is present |
| Upstream.ClassifyCapabilityTier | src/lib/dataService.ts:380-412 | one of the six tiers; Frontier exactly when the frontier signal holds, in particular from 70B parameters |
| Upstream.TierPriority | src/lib/dataService.ts:387-401 | below the frontier: Experimental exactly on an experimental keyword, then Specialized, then Production on production keywords or mid sizes |
| Upstream.TierFallback | src/lib/dataService.ts:404-412 | with no signal at all the tier is Standard for contexts 16000-31999, Lightweight for any other positive size, and Standard otherwise, so the Production fallback is unreachable |
| Upstream.ParsePrice | src/lib/dataService.ts:432-436 | a missing or empty value gives 0; a value that parses gives the parsed price times 1,000,000; a value that does not parse gives 0 |
| Upstream.ExtractPricing | src/lib/dataService.ts:418-447 | no pricing object gives undefined; otherwise id and modelId are index + 1 and the fine-tuning and training prices are always present |
| Upstream.InputPriceAliases | src/lib/dataService.ts:441 | the input price is the per-million value of the first truthy of prompt, input and inputText, and 0 when none is |
| Upstream.PerTokenPricesScaled | src/lib/dataService.ts:432-442 | per-token prices 0.0000008 and 0.000015 become 0.8 and 15 per million tokens |
| Upstream.ParametersOf | src/lib/dataService.ts:454-461 | a parameter count, when present, is never 0 |
| Upstream.PositiveIntOf | src/lib/dataService.ts:464-478 | an integer, when present, is never 0 and is the parse of the first truthy alias |
| Upstream.ReleaseDay | src/lib/dataService.ts:481-490 | only a RangeError can be thrown, and with neither created nor releaseDate there is no release date |
| Upstream.ExtractModelParams | src/lib/dataService.ts:452-515 | throws exactly when the release date throws; otherwise the open-source and hidden flags are the or of their aliases and the tier is the capability tier |
| Upstream.ParametersNull | src/lib/dataService.ts:454-461 | parametersB is null exactly when no alias is truthy or the chosen one parses to NaN or 0 |
| Upstream.InvalidCreatedThrows | src/lib/dataService.ts:482-484 | a non-zero numeric created that is not a valid date throws RangeError, even when releaseDate is valid |
| Versions.CutTail | src/lib/dataService.ts:587-590 | removing an end-anchored pattern: the result is a prefix, no earlier position matches, and it cuts at the leftmost match whenever any position matches |
| Versions.ExtractBaseModelName | src/lib/dataService.ts:582-592 | the base name is no longer than the display name, lower case, and without white space at either end |
| Versions.BaseNameIgnoresCase | src/lib/dataService.ts:582-592 | the letter case of the display name does not change its base name |
| Versions.DigitRun | src/lib/dataService.ts:622 | the longest prefix made of digits: all digits and followed by a non-digit or the end |
| Versions.FirstDigit | src/lib/dataService.ts:622 | the index of the first digit, with no digit before it; -1 when there is none |
| Versions.ExtractVersionNumber | src/lib/dataService.ts:621-624 | null exactly when the name holds no digit; otherwise a non-negative number |
| Versions.LeadingDecimal | src/lib/dataService.ts:623 | parseFloat of the matched digits is never negative |
| Versions.CompareVersions | src/lib/dataService.ts:605-616 | the comparator's sign is -1, 0 or 1 |
| Versions.HigherVersionFirst | src/lib/dataService.ts:610-612 | when both names hold a version, the first sorts after the second exactly when the second's version is higher |
| Versions.UnversionedReverseAlphabetical | src/lib/dataService.ts:614-615 | when either name has no version, the first sorts after the second exactly when it is alphabetically smaller |
| Versions.VersionValue | src/lib/dataService.ts:621-624 | the first digit run of a name, with the digits after one dot, is its version: a prefix without digits is skipped |
| Versions.FamilyCompare | src/lib/dataService.ts:550-565 | the family sort puts a preview before a non-preview, and the reverse comparison is 1 |
| Versions.SameFamilyAcrossVersions | src/lib/dataService.ts:582-592 | two names that differ only in a trailing dotted version after a space have the same base name |
| Versions.VersionCut | src/lib/dataService.ts:587 | the trailing-version pattern cuts a lower-cased stem plus space plus dotted number back to the stem without its trailing spaces |
| Versions.PreviewWordMarks | src/lib/dataService.ts:597-600 | a preview word standing on its own at the end of the display name marks the model as a preview |
| Versions.PreviewIgnoresCase | src/lib/dataService.ts:597-600 | the preview test does not depend on the letter case of either name |
| Versions.LatestIsNotPreview | src/lib/dataService.ts:599 | a preview word inside a longer word does not count: Latest is not a preview name although it contains test |
| LatestVersions.FirstOfEach | src/lib/dataService.ts:568-572 | at most two picks: one preview and one stable model |
| LatestVersions.FamilyPicks | src/lib/dataService.ts:548-573 | a family contributes at most two models |
| LatestVersions.FilterToLatestVersions | src/lib/dataService.ts:521-577 | the two grouping passes and per-family sort and pick compute the declarative latest-versions list |
| LatestVersions.PickNested | src/lib/dataService.ts:522-574 | grouping by vendor in first-seen order, then by base name, then picking from each family, gives the nested declarative picks |
| LatestVersions.PickGroups | src/lib/dataService.ts:537-573 | one grouping pass and a pick per group in first-seen order gives the declarative group picks |
| LatestVersions.SortAndPick | src/lib/dataService.ts:550-572 | sorting a family and taking the first preview and first stable model, the stable one only when it differs, gives the family's picks |
| LatestVersions.FirstOfEachShape | src/lib/dataService.ts:568-572 | the picks come from the list; the first is a preview exactly when the list has one, the last is stable exactly when it has one, and there are as many picks as kinds present |
| LatestVersions.FirstOfEachFirst | src/lib/dataService.ts:568-569 | in a sorted list each pick is not after any other element of its kind |
| LatestVersions.GroupPicksMember | src/lib/dataService.ts:525-545 | whatever the grouped picks keep is an element of the input |
| LatestVersions.GroupPicksRestrict | src/lib/dataService.ts:525-530 | restricted to one key, the grouped picks are the picks of that key's group alone |
| LatestVersions.NestedRestrict | src/lib/dataService.ts:535-573 | restricted to one vendor and base name, the nested picks are the picks of that family alone |
| LatestVersions.NestedMember | src/lib/dataService.ts:535-573 | a kept element is in the input and among the picks of its own vendor and base-name family |
| LatestVersions.SortedMembers | src/lib/dataService.ts:550 | the sorted family holds exactly the family's models |
| LatestVersions.FamilyPicksShape | src/lib/dataService.ts:567-572 | a family yields its first preview exactly when it has a preview, then its first stable model exactly when it has one |
| LatestVersions.LatestPerFamily | src/lib/dataService.ts:521-577 | restricted to one vendor and base name, the result is exactly that family's picks: no family is dropped or mixed with another |
| LatestVersions.LatestMembers | src/lib/dataService.ts:521-577 | every kept model is an input model and one of its own family's picks |
| LatestVersions.CompareSelf | src/lib/dataService.ts:550-565 | a model compares equal to itself under the family comparator |
| LatestVersions.PicksComeFirst | src/lib/dataService.ts:550-569 | under a consistent comparator each pick compares at or before every family member of its kind |
| LatestVersions.DatedConsistent | src/lib/dataService.ts:555-561 | when every model of a family has a parseable release date the comparator is consistent: previews first, then newest first |
| LatestVersions.NewestKept | src/lib/dataService.ts:559-572 | with all release dates known the kept preview is the newest preview and the kept stable model the newest stable one |
| OpenRouter.TransformOpenRouterData | src/lib/dataService.ts:629-736 | the models are the latest versions of the loop's models, the vendors and categories are the loop's Maps in insertion order with back-lists drawn from the returned models; every model links to its entries and is hosted by an allowed vendor |
| OpenRouter.ProcessRecords | src/lib/dataService.ts:654-713 | the forEach over the allowed records computes the declarative fold over them |
| OpenRouter.ProcessRecord | src/lib/dataService.ts:655-712 | one turn interns the vendor and the category and pushes the model built, or nothing when building throws |
| OpenRouter.AddVendor | src/lib/dataService.ts:660-668 | interns a vendor key: an existing key is kept, a new one gets id size plus one |
| OpenRouter.AddCategory | src/lib/dataService.ts:671-682 | classifies and interns a category key: an existing key is kept, a new one gets id size plus one |
| OpenRouter.PushModel | src/lib/dataService.ts:688-712 | appends the model built from the record, or nothing when extracting its parameters throws |
| OpenRouter.FillVendorLists | src/lib/dataService.ts:723-725 | each vendor's list is exactly the filtered models carrying its id, in order |
| OpenRouter.FillCategoryLists | src/lib/dataService.ts:727-729 | each category's list is exactly the filtered models carrying its id, in order |
| OpenRouter.InternVendor | src/lib/dataService.ts:660-668 | after interning the key is present, earlier entries stay at their positions, and the category Map and models are untouched |
| OpenRouter.InternCategory | src/lib/dataService.ts:675-682 | after interning the key is present, earlier entries stay at their positions, and the vendor Map and models are untouched |
| OpenRouter.Normalised | src/lib/dataService.ts:649-713 | the two Maps stay aligned: one entry per key |
| OpenRouter.ProcessKeys | src/lib/dataService.ts:660-682 | the Map keys are the records' vendor and category keys in first-seen order, each once |
| OpenRouter.ProcessVendor | src/lib/dataService.ts:660-667 | vendor k was created from the first record with its key, with id k + 1 |
| OpenRouter.ProcessCategory | src/lib/dataService.ts:675-681 | category k was created from the first record with its key, with id k + 1 |
| OpenRouter.ProcessBuilt | src/lib/dataService.ts:684-708 | the models the loop pushes are those each record builds with the final Map entries of its keys |
| OpenRouter.ProcessModelAt | src/lib/dataService.ts:694-708 | each model of the loop is the one its record's position builds |
| OpenRouter.ProcessYieldsAt | src/lib/dataService.ts:694-712 | record i yields the model with id i + 1 exactly when it builds one |
| OpenRouter.ProcessLinks | src/lib/dataService.ts:698-704 | every model's vendor and category ids name Map entries, and its vendor and category are those entries |
| OpenRouter.ProcessHost | src/lib/dataService.ts:701 | every model is hosted by the vendor name of its own record |
| OpenRouter.ProcessIdsIncrease | src/lib/dataService.ts:695 | the loop's models have strictly increasing ids |
| OpenRouter.BuiltModel | src/lib/dataService.ts:688-706 | a record builds a model exactly when its dates do not throw; the model carries id index + 1, its entries, its host, names and extracted parameters |
| OpenRouter.BuildModel | src/lib/dataService.ts:688-706 | a model is built exactly when extracting its parameters does not throw; it gets id index + 1 and exactly the given vendor and category as ids and links |
| OpenRouter.RecordsCovered | src/lib/dataService.ts:684-685 | every record's vendor and category keys have Map entries, so both lookups succeed |
| OpenRouter.ModelIdsIncrease | src/lib/dataService.ts:695 | model ids increase along the list |
| OpenRouter.RecordYieldsModel | src/lib/dataService.ts:709-712 | record i yields model i + 1 exactly when its dates do not throw: a throwing record is skipped and the loop goes on |
| OpenRouter.AllowedOnly | src/lib/dataService.ts:644-647 | the filter keeps exactly the allowed records, in order |
| OpenRouter.AllowedName | src/lib/dataService.ts:644-657 | a record that passed the filter is interned under an allowed vendor name |
| OpenRouter.AllowedVendorsOnly | src/lib/dataService.ts:635-647 | over allowed records every vendor's name and every model's host is one of the five allowed vendors up to case |
| OpenRouter.RecordsLinked | src/lib/dataService.ts:684-706 | the loop's models are linked to its vendor and category tables |
| OpenRouter.LatestLinked | src/lib/dataService.ts:716 | keeping only the latest versions keeps the links and keeps only input models |
| OpenRouter.BackListMembers | src/lib/dataService.ts:723-729 | a vendor or category lists a model exactly when the catalogue holds it under that entry's id |
| DataService.LinkModel | src/lib/dataService.ts:197-198 | only the two links change; a link is present exactly when some entry has the model's id, and it is the first such entry |
| DataService.HandleStructuredData | src/lib/dataService.ts:186-246 | the returned models are the linked visible models, the categories the active ones, the vendors all of them, with back-lists of visible models |
| DataService.LinkRelationships | src/lib/dataService.ts:195-202 | the loop attaching each model's links computes the declarative linking of every model |
| DataService.HandledModels | src/lib/dataService.ts:195-212 | a model is returned exactly when the response holds it and it is not hidden; it comes back linked and in order |
| DataService.HandledCategories | src/lib/dataService.ts:215-225 | a category is returned exactly when the response holds it, its id is not 6 and its name is not inactive or hidden in any case; order is kept |
| DataService.ActiveCategoryIgnoresCase | src/lib/dataService.ts:218-220 | whether a category is kept depends on its name only through the lower case |
| DataService.OtherSpellingsDropped | src/lib/dataService.ts:218-220 | "Inactive" and "HIDDEN" are dropped as well as the lower-case names |
| DataService.HandledBackLists | src/lib/dataService.ts:228-244 | each returned category and every vendor lists exactly the visible models carrying its id, so a hidden model is in no list |
| DataService.LinkOutlivesFilter | src/lib/dataService.ts:195-225 | a visible model linked to a category the filter drops is returned still pointing at that dropped category |
| DataService.FirstArray | src/lib/dataService.ts:169-173 | the first candidate that is an array, with none before it; none exactly when no candidate is an array |
| DataService.FirstArrayAt | src/lib/dataService.ts:169-172 | the first array is the one at the first position that holds an array |
| DataService.RouteOf | src/lib/dataService.ts:144-176 | a bare array is transformed as records; a non-object is rejected; the structured path is taken exactly when all three arrays are present; otherwise the models array or the first alternative array is transformed |
| DataService.SilvDataMapping | src/lib/dataService.ts:138-181 | each route gives its result: transformed records, handled structured data, a format error for an unrecognised shape, and a type error for a non-object |
| Types.FindCategory | src/lib/dataService.ts:197 | `find` by id: the first category with the id, and none exactly when no category has it |
| Types.FindVendor | src/lib/dataService.ts:198 | `find` by id: the first vendor with the id, and none exactly when no vendor has it |
| Text.LocaleCompare | src/components/pricing/helpers.ts:89-90 | a three-way comparison: 0 exactly on equal strings, -1 exactly when the first is smaller, 1 exactly when it is larger |
| Text.LessTrichotomy | src/components/pricing/helpers.ts:89-90 | any two strings are equal or ordered one way, never both ways |
| Text.LessTransitive | src/components/pricing/helpers.ts:89-90 | the string order is transitive, so the name sort's comparator is consistent |
| Helpers.GetCategoryName | src/components/pricing/helpers.ts:4-10 | the name of the first category with the id, 'Unknown' when there is none |
| Helpers.GetVendorName | src/components/pricing/helpers.ts:13-19 | the name of the first vendor with the id, 'Unknown' when there is none |
| Helpers.GetVendorPricingUrl | src/components/pricing/helpers.ts:22-28 | the pricing URL of the first vendor with the id, '#' when there is none |
| Helpers.FilterModels | src/components/pricing/helpers.ts:31-47 | an order-preserving subsequence holding exactly the models that match both selections; an empty selection matches everything and a model with no category or vendor fails a non-empty one |
| Helpers.FilterModelsNothingSelected | src/components/pricing/helpers.ts:38-43 | with both selections empty the filter is the identity |
| Helpers.FilterModelsIdempotent | src/components/pricing/helpers.ts:36-46 | filtering twice with the same selections equals filtering once |
| Helpers.FilterModelsComposes | src/components/pricing/helpers.ts:36-46 | filtering by categories and then by vendors equals filtering by both at once |
| Helpers.SortModels | src/components/pricing/helpers.ts:50-102 | the copy sorted in place equals the reference sort of the input under the key's comparator, and is a permutation of the input |
| Helpers.NumericComparison | src/components/pricing/helpers.ts:62-79 | for a numeric key the comparator puts a after b exactly when a's value is larger ('asc') or smaller (any other direction); a missing price counts as Number.MAX_VALUE, a missing parametersB or contextWindow as 0 |
| Helpers.TextComparison | src/components/pricing/helpers.ts:68-73 | for the name keys the comparator is the string comparison of the two names, reversed unless 'asc', a missing vendor or category giving '' |
| Helpers.NumericComparatorConsistent | src/components/pricing/helpers.ts:91-97 | the numeric comparator orders all models consistently, though it never returns 0 |
| Helpers.TextComparatorConsistent | src/components/pricing/helpers.ts:87-90 | the string comparator orders all models consistently |
| Helpers.SortedByNumber | src/components/pricing/helpers.ts:62-79 | sorting by a numeric key gives non-decreasing values for 'asc' and non-increasing ones otherwise |
| Helpers.SortedStrictlyByNumber | src/components/pricing/__tests__/helpers.test.js:110-127 | with pairwise distinct values the order is strictly increasing for 'asc' and strictly decreasing otherwise |
| Helpers.UnpricedLast | src/components/pricing/helpers.ts:62-67 | sorting ascending by a price puts every unpriced model after every priced one |
| Helpers.SortedByText | src/components/pricing/helpers.ts:68-73 | sorting by a name key orders the names by string comparison, ascending or reversed |
| Helpers.UnknownKeyKeepsOrder | src/components/pricing/helpers.ts:80-98 | a key that names neither a column nor a record property (such as 'samplePrice', or an inherited one such as 'toString') never makes the comparator positive, so the modelled sort keeps the input order |
| Helpers.FieldValue | src/components/pricing/helpers.ts:80-84 | an inherited name reads the inherited value, `__proto__` an object, and a name that is neither a record property nor inherited reads ''; an object value comes only from the three nested records |
| Helpers.PrototypeKeyBefore | src/components/pricing/helpers.ts:91-97 | under an inherited key the two values are equal non-strings, so neither is greater and the comparator returns -1 |
| Helpers.CompareModels | src/components/pricing/helpers.ts:86-98 | the comparator returns -1, 0 or 1, and 0 only for two equal strings |
| Helpers.ToNumber | src/components/pricing/helpers.ts:94-96 | a number is itself; a string reads as `Number` reads its trimmed text, white space alone being 0 |
| Sorting.SortInPlace | src/components/pricing/helpers.ts:57-99 | the array sorted in place equals the reference insertion sort of its old contents |
| Sorting.InsertNext | src/components/pricing/helpers.ts:57-99 | one insertion step moves an element into the sorted prefix and leaves the rest of the array alone |
| Sorting.SortSeqPermutes | src/components/pricing/helpers.ts:55-57 | sorting returns a permutation of its input |
| Sorting.SortSeqSorts | src/components/pricing/helpers.ts:57-99 | under a comparator consistent on the input, every element is not after any later one |
| DataLoader.ModelNode.constructor | src/lib/dataLoader.ts:20 | a fresh model object holds its record and no links |
| DataLoader.CategoryNode.constructor | src/lib/dataLoader.ts:25 | a fresh category object holds its record and an empty back-list |
| DataLoader.VendorNode.constructor | src/lib/dataLoader.ts:30 | a fresh vendor object holds its record and an empty back-list |
| DataLoader.FindCategoryNode | src/lib/dataLoader.ts:34 | `find` returns the first category object with the id, and null exactly when none has it |
| DataLoader.FindVendorNode | src/lib/dataLoader.ts:35 | `find` returns the first vendor object with the id, and null exactly when none has it |
| DataLoader.LinkRelationships | src/lib/dataLoader.ts:32-46 | after the three loops every model points at the first category and vendor with its ids, and every category and vendor lists exactly the models with its id, in input order |
| DataLoader.AttachRecords | src/lib/dataLoader.ts:33-36 | every model's category and vendor are the first entries with a matching id, or null |
| DataLoader.FillCategoryLists | src/lib/dataLoader.ts:38-40 | every category's list is the models with that categoryId, in input order |
| DataLoader.FillVendorLists | src/lib/dataLoader.ts:42-44 | every vendor's list is the models with that vendorId, in input order |
| DataLoader.CategoryMembers | src/lib/dataLoader.ts:39 | a model is in a category's list exactly when it carries the category's id, and the list keeps the input order |
| DataLoader.VendorMembers | src/lib/dataLoader.ts:43 | a model is in a vendor's list exactly when it carries the vendor's id, and the list keeps the input order |
| DataLoader.LinksAgree | src/lib/dataLoader.ts:33-40 | a model linked to a category is in that category's list |
| DataLoader.CategoryLookupAgrees | src/lib/dataLoader.ts:34 | looking up the category object agrees with looking up the plain record |
| DataLoader.VendorLookupAgrees | src/lib/dataLoader.ts:35 | looking up the vendor object agrees with looking up the plain record |
| DataLoader.LinkedModel | src/lib/dataLoader.ts:46 | the returned model is the input record with the linked category and vendor records and nothing else changed |
| ModelChecks.MissingFieldErrors | src/lib/dataValidator.ts:30-38 | one error per listed field the model leaves undefined, and no other, labelled with the model's id or 'unknown' |
| ModelChecks.MissingPricingFieldErrors | src/lib/dataValidator.ts:51-57 | one error per required pricing field the pricing object leaves undefined, and no other |
| ModelChecks.MismatchErrors | src/lib/dataValidator.ts:60-64 | no error exactly when pricing.modelId is strictly equal to the model's id, otherwise exactly one |
| ModelChecks.TypeSignErrors | scripts/generate-models.js:86-97 | an undefined price gets nothing, a non-number (null included) the non-numeric error, a negative number the negative error, any other number nothing |
| ModelChecks.CheckRequiredFields | scripts/generate-models.js:42-50 | the loop over the required fields pushes exactly the missing-field errors |
| ModelChecks.CheckPricingFields | scripts/generate-models.js:63-69 | the loop over the required pricing fields pushes exactly their missing-field errors |
| ModelChecks.RequiredPricingFieldsDistinct | scripts/generate-models.js:61 | the four required pricing fields are distinct |
| ModelChecks.JsonFiles | scripts/generate-models.js:127-128 | the listed files ending in '.json', and only those, in listing order |
| ModelChecks.Iterate | scripts/generate-models.js:142-146 | a file that cannot be read or parsed raises its error; an array yields its elements; another object raises a TypeError; a string yields its characters |
| ModelChecks.CrossErrors | scripts/generate-models.js:156-186 | a duplicate error exactly for a model id already seen, a pricing duplicate exactly for a priced model with a seen pricing id, and a reference error exactly for an unknown category or vendor id |
| ModelChecks.Recorded | scripts/generate-models.js:153-189 | a model looked at is appended, its own and its cross errors are appended, and its ids are remembered |
| ModelChecks.Step | scripts/generate-models.js:147-150 | a model the loop skips leaves the state as it was |
| ModelChecks.MergeAndValidate | scripts/generate-models.js:133-203 | the result is the sorted outcome of the file loop; over files whose models validate without throwing, it holds exactly the kept models of every file in file order, sorted by `a.id - b.id`, and its errors report every repeated model or pricing id and every unknown reference; when no id reads as NaN the models ascend by id |
| ModelChecks.ProcessItems | scripts/generate-models.js:146-190 | the inner loop over one file reaches the state of the reference definition, the first exception ending the file |
| ModelChecks.RecordModel | scripts/generate-models.js:154-189 | the body after validation reaches the state of the reference step |
| ModelChecks.WriteModelsJson | scripts/generate-models.js:222-247 | success exactly when the merge produced no validation error; then the models are written, otherwise nothing is and the errors are returned |
| ModelChecks.ValidateModelsOnly | scripts/generate-models.js:206-219 | valid exactly when there is no validation error, with the errors passed through |
| ModelChecks.KeepsEveryModel | scripts/generate-models.js:146-190 | without an exception every model looked at is kept, valid or not, in file order; with the skip, exactly the hidden ones are left out |
| ModelChecks.OnlyGrows | scripts/generate-models.js:146-190 | the loop only adds errors and remembered ids |
| ModelChecks.FilesOnlyGrow | scripts/generate-models.js:139-194 | the loop over files only adds errors, model ids and pricing ids |
| ModelChecks.KeepsEveryModelAcrossFiles | scripts/generate-models.js:139-194 | over files whose models validate without throwing, the loop appends the kept models of each file in turn |
| ModelChecks.UnreadableFileReported | scripts/generate-models.js:141-146 | a file that cannot be read as a list adds one file error and changes nothing else (the catch at lines 191-193) |
| ModelChecks.RepeatedIdReported | scripts/generate-models.js:156-172 | within one file, a kept model whose primitive model id, or pricing id, equals that of an earlier kept model gets the matching duplicate error |
| ModelChecks.SeenIdReported | scripts/generate-models.js:156-172 | within one file, a kept model whose primitive model id, or pricing id, is already remembered gets the matching duplicate error |
| ModelChecks.Remembered | scripts/generate-models.js:160-172 | once a file is done, the model id and (when it has pricing) the pricing id of each kept model are remembered |
| ModelChecks.RepeatAcrossFilesReported | scripts/generate-models.js:139-194 | across all files, a kept model whose primitive model id, or pricing id, equals that of an earlier kept model, in the same or an earlier file, gets the matching duplicate error |
| ModelChecks.SeenAcrossFiles | scripts/generate-models.js:139-194 | across all files, a kept model whose primitive id was remembered before the loop gets a duplicate error |
| ModelChecks.RaisedAcrossFiles | scripts/generate-models.js:139-194 | across all files, an error that a kept model raises whatever came before it is in the final list |
| ModelChecks.ProblemsReported | scripts/generate-models.js:139-194 | over files whose models validate without throwing, the final errors report every repeated id across files and every unknown category or vendor of a kept model |
| ModelChecks.MergeMeaning | scripts/generate-models.js:133-203 | the sorted result of the loop keeps every promise of the merge: kept models, reported problems and ascending ids |
| ModelChecks.DanglingReferenceReported | scripts/generate-models.js:174-186 | a model whose category id is in no loaded category gets a reference error, and likewise for its vendor id |
| ModelChecks.SortedById | scripts/generate-models.js:196-197 | when no id reads as NaN under `Number(...)`, the sorted list holds the same models and ascends by id |
| ModelChecks.IdDifference | scripts/generate-models.js:197 | the sign of `a.id - b.id` after both ids go through `Number(...)`: negative or positive exactly by the order of the two numbers, and 0 when either is NaN |
| ModelChecks.StringIdsSorted | scripts/generate-models.js:197 | the ids "2" and "1" are coerced to numbers, so those two models come out as "1", "2" |
| JsNumbers.SubSign | scripts/generate-models.js:197 | the sign of a difference is the order of the two numbers, and a NaN operand gives 0 |
| JsNumbers.BelowTransitive | scripts/generate-models.js:197 | the order of non-NaN numbers, negated, is transitive |
| JsNumbers.StringToNumber | scripts/generate-models.js:197 | white space alone reads as 0 |
| JsNumbers.ValueToNumber | scripts/generate-models.js:197 | a number is itself, and an object or a missing value is NaN |
| JsNumbers.NatRoundTrip | scripts/generate-models.js:197 | a rendered natural number reads back as itself |
| JsNumbers.NegativeRoundTrip | scripts/generate-models.js:197 | a minus sign in front reads back as the negation |
| JsNumbers.TrimDoesNotMatter | scripts/generate-models.js:197 | white space around a literal does not change its value |
| DataValidator.SomeNameMatches | src/lib/dataValidator.ts:96-101 | `some` over the exceptional names is true exactly when one occurs in the system name or in a truthy display name, and throws a TypeError when the system name has no `includes` |
| DataValidator.IsExceptional | src/lib/dataValidator.ts:96-101 | with a string system name, a model is exceptional exactly when some listed name occurs in its system name or in its truthy name; a system name without `includes` throws a type error |
| DataValidator.RangeErrors | src/lib/dataValidator.ts:106-133 | 'low' exactly for 0 < v < 0.001, 'high' exactly for inputText above 200 or outputText above 500, and the Google message exactly for host 'google' with inputText 37.5 |
| DataValidator.PriceFieldErrors | src/lib/dataValidator.ts:74-135 | a non-number or negative value gets only its type or sign error; a valid one gets no range error when the name is exceptional, the range errors otherwise, and the exception test's throw when it throws |
| DataValidator.PriceValueErrors | src/lib/dataValidator.ts:67-136 | the price loop produces only type, sign and range errors |
| DataValidator.ModelErrors | src/lib/dataValidator.ts:15-142 | a null model throws; a model without pricing is checked without throwing; the missing-field errors always come first |
| DataValidator.ValidateModel | src/lib/dataValidator.ts:15-142 | the pushing loops produce exactly the validation of the reference definition |
| DataValidator.CheckPriceValues | src/lib/dataValidator.ts:67-136 | the price loop, ended by the first exception, produces the reference result |
| DataValidator.CheckPriceField | src/lib/dataValidator.ts:74-135 | one pass of the price loop produces the reference result for its field |
| DataValidator.ThrownPersists | src/lib/dataValidator.ts:67-136 | once a pass throws, the loop over every longer list throws the same error |
| DataValidator.MergeConfig | src/lib/dataValidator.ts:184-230 | this merge validates every model, hidden ones included, with this file's validator and the loaded lists |
| DataValidator.MergeAndValidateData | src/lib/dataValidator.ts:178-241 | the merge of this validator: the sorted outcome of the file loop, with every promise of the merge (kept models, reported problems, ascending ids when no id is NaN) |
| DataValidator.EveryModelKept | src/lib/dataValidator.ts:184-230 | this validator skips nothing, so the kept models are every model of every file |
| DataValidator.RequiredModelFieldsDistinct | src/lib/dataValidator.ts:19-28 | the eight required fields are distinct |
| DataValidator.MissingFieldsReported | src/lib/dataValidator.ts:30-38 | there is a missing-field error for a field exactly when it is one of the eight and undefined, once each |
| DataValidator.NoPricingOnlyMissingPricing | src/lib/dataValidator.ts:41-44 | without pricing the errors are the missing fields and the missing-pricing error, with no pricing-field error |
| DataValidator.MismatchReported | src/lib/dataValidator.ts:60-64 | the mismatch error is reported exactly when pricing.modelId is not strictly equal to the model's id |
| DataValidator.ExceptionKeepsTypeChecks | src/lib/dataValidator.ts:96-104 | an exceptional name skips the range and Google checks of every field but keeps the type and sign checks |
| DataValidator.ExceptionBySubstring | src/lib/dataValidator.ts:97-101 | a system name that merely contains an exceptional name ("gpt-4.5-preview") counts as exceptional |
| DataValidator.GoogleInputVerified | src/lib/dataValidator.ts:124-133 | a Google model with input price exactly 37.5 gets the single verification message for that field |
| DataValidator.MissingSystemNameThrows | src/lib/dataValidator.ts:99 | a priced model whose system name is undefined throws a TypeError in the exception test |
| GenerateModels.PriceTypeErrors | scripts/generate-models.js:79-98 | a type or sign error exactly for each defined price field that is not a non-negative number, null counting as non-numeric, and no range checks |
| GenerateModels.ModelErrors | scripts/generate-models.js:28-102 | validation throws exactly for a null model, and the missing-field errors come first |
| GenerateModels.ValidateModel | scripts/generate-models.js:28-102 | the pushing loops produce exactly the validation of the reference definition |
| GenerateModels.CheckPriceTypes | scripts/generate-models.js:79-98 | the price loop pushes exactly the type and sign errors |
| GenerateModels.MergeConfig | scripts/generate-models.js:146-190 | this merge skips hidden models before validating them, with this script's validator and the loaded lists |
| GenerateModels.MergeAndValidateData | scripts/generate-models.js:133-203 | the merge of the script: the sorted outcome of the file loop, with every promise of the merge (kept models, reported problems, ascending ids when no id is NaN), hidden models being the ones not kept |
| GenerateModels.HiddenFlagNotRequired | scripts/generate-models.js:32-40 | isHidden is not among the seven required fields: its absence is never reported |
| GenerateModels.HiddenSkipped | scripts/generate-models.js:148-150 | a hidden model is passed over: no error, no id remembered, not in the output |
| GenerateModels.KeepsVisibleModels | scripts/generate-models.js:146-190 | a file without null entries keeps exactly its visible models, in order |
| GenerateModels.NullEntryEndsFile | scripts/generate-models.js:146-193 | a null entry throws when its isHidden is read: one error for the file, and the models after it are not looked at |
| PricingValidator.Pattern | scripts/pricing-validator.js:18-40 | every vendor's ranges are proper: the minimum lies below the maximum on both legs |
| PricingValidator.LowerVendorName | scripts/pricing-validator.js:83 | the lower-cased vendor name, or '' when the model has no vendor name |
| PricingValidator.FindVendorKey | scripts/pricing-validator.js:84-87 | no key exactly when none of google, anthropic, openai occurs in the lower-cased vendor name or host; otherwise the first one in that order that does |
| PricingValidator.PriceWarnings | scripts/pricing-validator.js:135-140 | one warning for a missing or null price, none otherwise |
| PricingValidator.PriceIssues | scripts/pricing-validator.js:134-165 | no issue for a missing price or an excepted name; otherwise 'low' exactly for 0 < v < 0.001 and 'high' exactly above 200 for inputText and 500 for any other field, at most one of the two |
| PricingValidator.RangeIssue | scripts/pricing-validator.js:177-193 | one issue exactly when the price is truthy and outside [min, max] |
| PricingValidator.GoogleIssue | scripts/pricing-validator.js:199-209 | one issue exactly when the price lies strictly between the two bounds |
| PricingValidator.VendorIssues | scripts/pricing-validator.js:167-211 | nothing for an excepted name; otherwise the two range checks, then for Google the checks of (10, 50) on input and (100, 200) on output, at most four issues |
| PricingValidator.ModelIssues | scripts/pricing-validator.js:75-104 | a model without pricing or with an exceptional name has no issue, and no model has more than six |
| PricingValidator.ModelWarnings | scripts/pricing-validator.js:75-104 | no warning exactly when pricing and both prices are present; a model without pricing has one warning; never more than two |
| PricingValidator.Findings.constructor | scripts/pricing-validator.js:71-72 | both lists start empty |
| PricingValidator.Findings.ValidatePrice | scripts/pricing-validator.js:134-165 | appends exactly the field's issues and warnings to the caller's lists |
| PricingValidator.Findings.VendorSpecificValidation | scripts/pricing-validator.js:167-211 | appends exactly the vendor issues and leaves the warnings alone |
| PricingValidator.Findings.CheckModel | scripts/pricing-validator.js:75-104 | one model's callback appends exactly that model's issues and warnings |
| PricingValidator.Findings.CheckModels | scripts/pricing-validator.js:75-104 | the `forEach` appends every model's findings, model by model |
| PricingValidator.NoPricingWarnsOnce | scripts/pricing-validator.js:76-81 | a model without pricing gets exactly one warning and no issue |
| PricingValidator.MissingPricesWarn | scripts/pricing-validator.js:135-140 | a priced model gets one warning per missing price and no other |
| PricingValidator.MissingPricesNoIssue | scripts/pricing-validator.js:135-140 | with both prices missing no threshold and no vendor range fires |
| PricingValidator.ExceptionSilencesIssues | scripts/pricing-validator.js:143-145 | an excepted model gets no issue from either validator |
| PricingValidator.ExceptionIsExactName | scripts/pricing-validator.js:43-46 | the exception list is matched exactly: "o1-pro-2025" is still checked and flagged |
| PricingValidator.NoKeyInCustomHost | scripts/pricing-validator.js:84-87 | a model with no vendor name and host 'custom' has no vendor key |
| PricingValidator.ZeroPricesNotFlagged | scripts/pricing-validator.js:148-193 | prices of 0 are flagged neither by the thresholds nor by the vendor ranges |
| PricingValidator.GoogleInputFlaggedTwice | scripts/pricing-validator.js:18-27 | a Google input price of 37.5 is outside Google's range and inside the confusion window: two issues |
| PricingValidator.GoogleKeyFirst | scripts/pricing-validator.js:84-87 | a host naming Google picks the google key whatever the vendor name says |
| PricingValidator.NoKeyGenericOnly | scripts/pricing-validator.js:96-103 | without a vendor key only the generic checks run |
| ExportUtils.ExportRecord | src/lib/exportUtils.ts:23-40 | one model's row: the names of the first category and vendor with a matching id, else ''; a missing price, window or limit becomes 0, a missing precision '' and a missing flag false |
| ExportUtils.PrepareExportData | src/lib/exportUtils.ts:18-42 | one row per model, in the models' order |
| ExportUtils.ExportNamesAgreeWithTable | src/lib/exportUtils.ts:24-34 | the exported names agree with the table's lookups when the entry exists; a missing one exports '' where the table shows 'Unknown' |
| ExportUtils.Cell | src/lib/exportUtils.ts:50-54 | a string value is wrapped in double quotes exactly when it contains a comma; other values are written as they are |
| ExportUtils.ExportCsv | src/lib/exportUtils.ts:44-57 | no CSV at all for no rows; otherwise the header of the field names, a newline and the rows joined by newlines |
| ExportUtils.CsvLineCount | src/lib/exportUtils.ts:48-57 | with newline-free values the CSV holds exactly n newlines, so 1 + n lines, and does not end with a newline |
| ExportUtils.HeaderFreeOfNewline | src/lib/exportUtils.ts:48 | the header line holds no newline |
| ExportUtils.RowFreeOfNewline | src/lib/exportUtils.ts:49-54 | a row of newline-free values holds no newline |
| ExportUtils.InnerQuoteNotDoubled | src/lib/exportUtils.ts:51-53 | an inner double quote is not doubled, against section 2, rule 7 of RFC 4180 |
| ExportUtils.NewlineNotQuoted | src/lib/exportUtils.ts:51-53 | a value holding a newline but no comma is not quoted, against section 2, rule 6 of RFC 4180 |
| ExportJson.DatePart | scripts/export-to-json.ts:128 | a falsy date exports as undefined; a date's ISO text is cut before its first 'T' |
| ExportJson.FormatPricing | scripts/export-to-json.ts:131-139 | no pricing row exports no pricing; otherwise the four required columns are copied and the optional ones come out only when truthy |
| ExportJson.FormatModel | scripts/export-to-json.ts:116-140 | the seven copied columns are kept as they are, both flags are true or false, and pricing is present exactly when the row has one |
| ExportJson.OptionalFieldsDropFalsy | scripts/export-to-json.ts:124-127 | a falsy optional column (0, '', false, null) exports as undefined, any other as it is |
| ExportJson.FlagsAreBooleans | scripts/export-to-json.ts:129-130 | for boolean or empty columns both flags are booleans, true exactly when the column holds true |
| ExportJson.FormatModels | scripts/export-to-json.ts:116 | one exported record per row, in order |
| ExportJson.MissingAmong | scripts/export-to-json.ts:64-68 | the listed fields that are undefined in the record, and no others |
| ExportJson.ValidateModelExport | scripts/export-to-json.ts:60-76 | the loop returns the undefined required fields in list order, then 'isHidden' once more when the row defines it and the record lacks it |
| ExportJson.IsHiddenReportedTwice | scripts/export-to-json.ts:71-73 | a record lacking only isHidden, from a row that has it, is reported as missing 'isHidden' twice |
| ExportJson.MissingAfterFormat | scripts/export-to-json.ts:116-140 | after the mapping 'isHidden' is never missing, and a field is missing exactly when its database column is undefined |
| ExportJson.ValidationErrorsEmpty | scripts/export-to-json.ts:145-156 | there are no validation errors exactly when no row misses a field |
| ExportJson.CollectValidationErrors | scripts/export-to-json.ts:145-156 | the checking loop collects one error, with its missing fields, per row that misses a field |
| ExportJson.VendorWithId | scripts/export-to-json.ts:182 | `find` returns a vendor with the id, or nothing when no vendor has it |
| ExportJson.VendorFileOfKey | scripts/export-to-json.ts:181-190 | every vendor id whose vendor is known gets the file named by that vendor's slug, holding that id's group |
| ExportJson.VendorFilesKnown | scripts/export-to-json.ts:181-184 | every file belongs to a vendor id whose vendor is known; groups of unknown vendors are skipped |
| ExportJson.RecordInVendorFile | scripts/export-to-json.ts:171-190 | an exported record with a known vendor is in its vendor's file, which holds exactly the records with that vendor id, in order |
| ExportJson.KeepSlugChars | scripts/export-to-json.ts:185 | removing everything outside [a-z0-9-] leaves only those characters and changes nothing already made of them |
| ExportJson.Slug | scripts/export-to-json.ts:185 | a slug holds only the characters a-z, 0-9 and '-' |
| ExportJson.SlugIdempotent | scripts/export-to-json.ts:185 | a slug is its own slug |
| ExportJson.SlugOfTwoWords | scripts/export-to-json.ts:185 | two slug-safe words separated by a space give the words joined by '-', as "together ai" gives "together-ai" |
| ExportJson.SlugIgnoresCase | scripts/export-to-json.ts:185 | a name and its lower-case form have the same slug, so "Together AI" gives "together-ai" |
| ExportJson.ExportModels | scripts/export-to-json.ts:116-190 | the export aborts with the validation errors exactly when some row misses a field, and otherwise writes the mapped records grouped by vendor id in first-seen order |
| ExportJson.AbortsIffColumnMissing | scripts/export-to-json.ts:145-168 | the export aborts exactly when some row lacks one of the seven columns the mapping copies |
| ExportJson.ExportVisibleModels | scripts/export-to-json.js:90-185 | the script's pipeline runs on the rows whose isHidden is false: it aborts exactly when one of them misses a field, and otherwise exports them all with isHidden false |
| SampleText.Prefixed | src/lib/sampleText.ts:35 | `map(msg => prefix + msg)` keeps the length and prefixes every message |
| SampleText.ConversationParts | src/lib/sampleText.ts:42-47 | after n user turns the conversation holds n + min(n, number of responses) parts, so extra responses are never included |
| SampleText.GetFullConversation | src/lib/sampleText.ts:39-50 | the loop's parts, joined with a blank line, are the reference conversation of all user messages |
| SampleText.PartsInterleave | src/lib/sampleText.ts:42-47 | user message i comes at position i + min(i, number of responses), prefixed "User: ", and response i, when there is one, follows it prefixed "Assistant: " |
| SampleText.PartsPrefix | src/lib/sampleText.ts:42-47 | the parts of fewer turns are a prefix of the parts of more turns |
| SampleText.NoResponsesGivesUserLines | src/lib/sampleText.ts:42-47 | without responses the conversation is just the prefixed user messages |
| SampleText.FullConversationShape | src/lib/sampleText.ts:35-49 | the built-in conversation has ten parts; the second is DEFAULT_OUTPUT_TEXT and every even one is the matching line of DEFAULT_SAMPLE_TEXT |

## Left out

- Fetching from data.silv.app, and the fallback that depends on the environment (`src/lib/dataService.ts:67-132`), are network I/O and configuration. The mapping starts from the payload already parsed.
- Prisma queries, file reads and writes, directory listings, console output and the Blob and anchor downloads are I/O. Their data are inputs and outputs here. A failing file write in `writeModelsJson` is not modelled.
- The database scripts and seeds are thin wrappers over the ORM and are not part of this model: `add-vendor-models`, `check-db`, `simple-model-gen`, `pricing-tracker`, `backup-pricing`, `populate-db`, `hide-models`, `update-open-source`, `add-o1-pro`, `update-categories`, `import-from-json`, `test-prisma-connection`, `validate-json-files` and `prisma/seed*`.
- The browser automation scripts and the React components are user interface. This covers the selection cap, card navigation and multiplier clamping inside the components. Only the multiplier tag that `TextInputArea.tsx` writes is modelled.
- `toFixed` and the other floating-point formatting and rounding are not modelled. Prices are exact reals, so a product such as 0.000015 × 1000000 is exactly 15, and `formatPrice` is modelled as the choice among its four displays.
- `parseFloat`, `parseInt`, `new Date(...)` and `toISOString` are supplied as the functions of a `Parsers` value, not reproduced character by character. For a number, `parseFloat` is the identity and `parseInt` truncates.
- `localeCompare` is the code-point order of strings rather than locale collation.
- `toLowerCase` and `toUpperCase` map ASCII letters only.
- Regular expressions are written as explicit predicates on strings.
- `Array.prototype.sort` is a stable insertion sort. Sortedness is claimed only where the comparator is proved consistent: the numeric and text columns of the table, and a model family whose release dates all parse. A family with missing dates mixes date and version comparisons, and its order is not claimed.
- Error and warning messages are structured values, not formatted strings. The rethrown message of the outer `catch` in `silvDataMapping` is not modelled: the error keeps the kind of its cause.
- Objects shared by reference are values in the upstream and structured paths. The back-lists live beside the records in `Catalogue`. A model's embedded `category` and `vendor` do not see the lists assigned later. `DataLoader` does keep its objects as classes.
- An upstream record that is `null` or not an object is not modelled. Wrong-typed fields of a record read as absent. The `extractVendorInfo` call in the allow-list filter, which sits outside any `try`, is therefore total here.
- The `try`/`catch` blocks of `handleStructuredData` catch nothing in this model: on values, none of the guarded statements can throw.
- Formatters.EstimateTokenCount: the word, special and digit heuristic is an exact ceiling of 1.3·words + 0.5·specials + 0.3·digits. The source computes it in doubles, and where the exact value is an integer the double can lie just above it, so the source's count can be one higher. For example 9 words and 1 digit give 12 here and 13 in the source.
- JsNumbers: finite numbers are exact reals. Rounding to the nearest double and overflow to `Infinity` are not modelled.
- MergeAndValidateData: one error per repeated id is stated as membership of that error in the list, not as a count of errors. The kept models and the reported problems are stated for files whose models validate without throwing. A throw in the middle of a file ends that file with one error, and what it keeps is stated per file only.
- Helpers.UnknownKeyKeepsOrder: under an inherited key such as `toString` the comparator returns -1 for every pair. That the order is kept holds for the modelled insertion sort, which moves an element only on a positive result; the engine's own algorithm may order such a list otherwise.
- Some tests describe behaviour the code lacks, and they are not modelled: a five-argument `samplePrice` sort (`src/components/pricing/__tests__/helpers.test.js:129-177`), text of the mobile view, a self-moderated exclusion filter, and a context-window filter.
