# Beauty AI: a Dafny model of the scan pipeline and its display helpers

The Beauty AI app works like this:

1. The user photographs a cosmetic product.
2. A Convex backend sends the photo to a vision model and post-processes the model's JSON reply.
3. The backend looks up a price and stores the photo and a product record.
4. The React Native client shows the record: an ingredient list with icons, a safety badge, and skin and hair compatibility cards.

This project models the logic of that pipeline in Dafny and proves properties of the model. None of it touches the network, the database or the UI. Every call into such code is a parameter.

**AI reply post-processing** (`AiLogic`, convex/ai_logic.ts):
- flattening an array `content` into one string;
- the text guard;
- the first-`{`-to-last-`}` span that goes to `JSON.parse`;
- the schema gate;
- normalising `skinCompatibility` over the five keys dry, oily, combination, normal and sensitive.

The main result is an invariant. After normalisation, every one of the five keys holds `{status, score}`:
- the status is one of good, neutral or bad;
- the score is an integer in 0..100;
- the status agrees with the score band (at least 70 is good, below 40 is bad).

Normalising a second time changes nothing.

**Products** (`Products`, convex/products.ts):
- `saveProduct`, including its field defaults;
- `searchProducts`: trim and lower-case the query, require at least 2 characters, filter by substring, sort with a stable three-level comparator, take the first 20;
- `getById`: the on-read legacy migration. Its loop is one method, `BuildMigratedCompatibility`, which the batch migration also calls.

**Batch migration** (`Migrations`, convex/migrations.ts). A class `ProductTable` holds the table as a sequence of documents. Its `Patch` method and its migration loop update the documents in place. The returned count is proved to equal the number of documents changed, and a second run is proved to be a no-op.

**Analysis action** (`Analysis`, convex/analysis.ts):
- the guard chain on the AI result;
- the price fallback;
- the `atob` byte-copy loop over an `array`;
- the call to `saveProduct`, admitted or rejected the way its argument validator would;
- the result returned to the client.

**Enumerations** (`SkinTypes`, `HairTypes`, `UserProfile`; types/):
- each union type becomes a datatype with its id, label, description and icon tables;
- the validators are proved to accept exactly the listed ids;
- each option builder is proved to offer every valid id once, in list order;
- `getClimateDescription` is a method that builds the phrase push by push.

**Product screen helpers** (`ProductResult`, app/product-result.tsx):
- the decode of the stored analysis and of stored compatibility values;
- `getIconColor`;
- the ordered keyword classifier `getIngredientIcon`, where the first group to fire wins;
- `getCompatibilityStyle`;
- the category gates and defaults of the compatibility card and of the expanded block.

**Scan history** (`ScanHistory`, app/scan-history.tsx): the relative-day buckets of `formatDate`.

Where the backend's documented behaviour and its code differ, the model follows the code:
- Only five skin keys are normalised (convex/ai_logic.ts:131), not all nine skin types, and no hair compatibility.
- There is no hazard-level sanitising, no category detection and no cache lookup before saving.
- The schema gate tests `analysis` for truthiness, not only for presence.

The files:
- `wrappers.dfy`: `Option` and `Result`.
- `js_values.dfy`: the `Json` value with JavaScript truthiness, property reads and writes, `join` and `split`.
- `type_options.dfy`: the picker entry record.
- `ai_logic.dfy`, `products.dfy`, `migrations.dfy`, `analysis.dfy`: the backend.
- `skin_type.dfy`, `hair_type.dfy`, `user_profile.dfy`: the enumerations.
- `product_result.dfy`, `scan_history.dfy`: the client helpers.

## Model

| member | source | states |
|---|---|---|
| JsValues.SetProp | convex/ai_logic.ts:157-174 | `item.k = x` on an object or array sets `k`, keeps every other property and the elements, and keeps it an object |
| AiLogic.Pieces | convex/ai_logic.ts:86-93 | mapping the parts and dropping falsy pieces leaves at most as many pieces, all truthy; which pieces survive, and in what order, is in `PiecesAppend` and `PiecesSingle` |
| AiLogic.PiecesAppend | convex/ai_logic.ts:86-93 | the pieces of a concatenation are the pieces of each half, in order, so dropping falsy pieces works part by part |
| AiLogic.PiecesSingle | convex/ai_logic.ts:86-93 | one part contributes its piece exactly when that piece is truthy, else nothing |
| AiLogic.FlattenContent | convex/ai_logic.ts:81-95 | definition: an array `content` becomes the newline-joined text of its pieces, other content is kept; properties in `FlattenSplits`, `EmptyFlattenRejected` |
| AiLogic.PieceTexts | convex/ai_logic.ts:93-94 | `join` turns each piece into its text: a string stays itself, any other value is converted |
| AiLogic.RecognizedText | convex/ai_logic.ts:97-102 | only a non-empty string passes the guard, and it passes unchanged |
| AiLogic.FirstIndexOf | convex/ai_logic.ts:107 | the index found holds the character and none comes before it; none found means the character does not occur |
| AiLogic.LastIndexOf | convex/ai_logic.ts:107 | the index found holds the character and none comes after it; none found means the character does not occur |
| AiLogic.JsonSpan | convex/ai_logic.ts:104-108 | definition of the brace span; properties in `JsonSpanIsOuterBraces`, `JsonSpanIdempotent` |
| AiLogic.SchemaOk | convex/ai_logic.ts:117-128 | definition of the schema gate; properties in `SchemaOkIsObject`, `RecognizeErrors` |
| AiLogic.Recognize | convex/ai_logic.ts:78-128 | definition: content, text guard, span, parse and gate; properties in `RecognizeErrors`, `IdentifySuccess` |
| AiLogic.NormalizeItem | convex/ai_logic.ts:156-174 | definition of the new-format branch; properties in `NormalizeItemOk`, `ScoreRule`, `NormalizeItemIdempotent` |
| AiLogic.NormalizeEntry | convex/ai_logic.ts:142-176 | definition of the per-key step; properties in `NormalizeEntryOk`, `LegacyEntry`, `NormalizeEntryIdempotent` |
| AiLogic.NormalizeParsed | convex/ai_logic.ts:130-179 | definition of the whole normalisation; properties in `NormalizeParsedInvariant`, `FalsyCompatDefaults`, `NormalizeParsedIdempotent` |
| AiLogic.Identify | convex/ai_logic.ts:16-185 | definition of the handler's result; properties in `RecognizeErrors`, `IdentifySuccess` |
| AiLogic.SchemaOkIsObject | convex/ai_logic.ts:117-128 | a value passing the schema gate is a non-null object, so the normaliser may write to it |
| AiLogic.NormalizeSkinCompatibility | convex/ai_logic.ts:130-177 | the two `for` loops over the five keys compute `NormalizeParsed`; a truthy primitive `skinCompatibility` makes the write throw (`None`) |
| AiLogic.IdentifyProduct | convex/ai_logic.ts:16-185 | the handler returns `Identify`: the missing-key, HTTP, recognition, parse, schema and request errors, or the normalised payload |
| AiLogic.BandIsStatus | convex/ai_logic.ts:167-174 | every score band is one of good, bad, neutral |
| AiLogic.ItemOk | convex/ai_logic.ts:167-174 | `{Band(s), s}` for a score in 0..100 is a normalised item |
| AiLogic.NormalizeItemOk | convex/ai_logic.ts:156-174 | the new-format branch yields a normalised item; its score is the rounded and clamped number, or the default for the validated status; every other property is kept |
| AiLogic.NormalizeEntryOk | convex/ai_logic.ts:142-176 | whatever a key holds (object, array, legacy string, anything else, nothing), the loop leaves a normalised item |
| AiLogic.NormalizedCompatProp | convex/ai_logic.ts:142-176 | after the loop the five keys hold their normalised entries and every other key is untouched |
| AiLogic.NormalizeParsedInvariant | convex/ai_logic.ts:130-179 | on success all five keys satisfy the invariant and every other field of the payload is unchanged; failure happens exactly for a truthy primitive `skinCompatibility` |
| AiLogic.FalsyCompatDefaults | convex/ai_logic.ts:134-139 | a falsy `skinCompatibility` becomes exactly `{neutral, 50}` for the five keys and nothing else |
| AiLogic.LegacyEntry | convex/ai_logic.ts:143-154 | legacy strings good/bad/neutral become scores 75/25/50; any other string, null or missing value becomes `{neutral, 50}` |
| AiLogic.ScoreRule | convex/ai_logic.ts:161-166 | a numeric score is rounded and clamped to 0..100; a non-numeric one gets the default of the already validated status |
| AiLogic.ClampExamples | convex/ai_logic.ts:165 | 150 becomes 100, -30 becomes 0, 84.5 rounds to 85 |
| AiLogic.ScoreWinsExample | convex/ai_logic.ts:167-174 | `{bad, 85}` becomes `{good, 85}`: the score overrides the status |
| AiLogic.NormalizeItemIdempotent | convex/ai_logic.ts:156-174 | a normalised item is a fixed point of the new-format branch |
| AiLogic.NormalizeEntryIdempotent | convex/ai_logic.ts:142-176 | normalising an entry twice is normalising it once |
| AiLogic.NormalizeParsedIdempotent | convex/ai_logic.ts:130-179 | normalising an already normalised payload is a no-op |
| AiLogic.JsonSpanIsOuterBraces | convex/ai_logic.ts:107-108 | the parsed text runs from the first `{` to the last `}` when the first comes before the last, else it is the whole text |
| AiLogic.JsonSpanIdempotent | convex/ai_logic.ts:107-108 | taking the span of a span changes nothing |
| AiLogic.PieceRule | convex/ai_logic.ts:87-92 | a string part is kept, else a truthy `.text`, else a truthy `.content`, else a falsy piece that is dropped |
| AiLogic.PiecesOfStrings | convex/ai_logic.ts:86-93 | non-empty string parts come through unchanged and in order |
| AiLogic.FlattenSplits | convex/ai_logic.ts:85-95 | the pieces are newline-joined: splitting the flattened text on newlines gives back the piece texts |
| AiLogic.EmptyFlattenRejected | convex/ai_logic.ts:85-102 | an array with no truthy piece flattens to "" and is rejected by the text guard |
| AiLogic.RecognizeErrors | convex/ai_logic.ts:97-128 | no usable text gives the recognition error, a parse failure gives the corrupt-data error, and the call succeeds exactly when the parsed value passes the schema gate |
| AiLogic.IdentifySuccess | convex/ai_logic.ts:117-185 | a reply passing the gate is returned normalised with brand and confidence intact, or turns into the request error when `skinCompatibility` is a truthy primitive |
| Products.SaveProduct | convex/products.ts:36-47 | the record stores the serialised analysis, brand, name, price and storage id, rating 0 and empty description; `pros`/`cons` default to `[]`; a falsy compatibility is stored as absent; a null or missing analysis throws |
| Products.TrimStart | convex/products.ts:66 | the result is a suffix of the input that does not start with whitespace, and every character removed is whitespace |
| Products.TrimEnd | convex/products.ts:66 | the result is a prefix of the input that does not end with whitespace, and every character removed is whitespace |
| Products.Filter | convex/products.ts:74-78 | every kept product matches on lower-cased name or brand and comes from the input, and every matching product is kept as often as it occurs |
| Products.SearchQuery | convex/products.ts:66 | definition of the trimmed, lower-cased query; properties in `TrimStart`, `TrimEnd`, `ShortQueryFindsNothing` |
| Products.Matches | convex/products.ts:74-78 | definition of the substring filter; properties in `Filter`, `SearchSound` |
| Products.Compare | convex/products.ts:81-92 | definition of the comparator; properties in `LeqTotal`, `LeqTrans`, `SearchRanking` |
| Products.Sort | convex/products.ts:81-93 | definition of the stable sort; properties in `SortSorted` |
| Products.SearchProducts | convex/products.ts:63-97 | definition of the query; properties in `ShortQueryFindsNothing`, `SearchSound`, `SearchComplete`, `SearchRanking` |
| Products.HasStringValue | convex/products.ts:110-112 | definition of the "some value is a string" test; properties in `MigratedCompatShape`, `MigrateProductProperties` |
| Products.LegacyEntry | convex/products.ts:118-131 | definition of the per-key migration; properties in `LegacyEntryRule` |
| Products.MigrateProduct | convex/products.ts:107-142 | definition of the on-read migration; properties in `MigrateProductProperties` |
| Products.BuildMigratedCompatibility | convex/products.ts:115-132 | the loop over the five keys builds `MigratedCompat` of the stored value |
| Products.GetById | convex/products.ts:101-142 | a missing document gives null; a found one is returned migrated |
| Products.LeqTotal | convex/products.ts:81-92 | the comparator orders every pair one way or the other, and swapping the arguments turns a non-negative result into a non-positive one |
| Products.LeqTrans | convex/products.ts:81-92 | the comparator's order is transitive |
| Products.InsertPermutes | convex/products.ts:81-93 | one insertion step of the sort adds exactly the inserted product |
| Products.InsertSorted | convex/products.ts:81-93 | inserting into a sorted list keeps it sorted |
| Products.SortSorted | convex/products.ts:81-93 | the sort is a permutation of its input and sorted by the comparator |
| Products.ShortQueryFindsNothing | convex/products.ts:66-67 | a trimmed, lower-cased query shorter than 2 characters (including empty) returns `[]` |
| Products.RankedMatches | convex/products.ts:71-93 | the sorted matches are as many as the matches, all match, and all come from the table |
| Products.SearchSound | convex/products.ts:63-97 | at most 20 results, a prefix of the sorted matches, each matching the query and drawn from the table |
| Products.SearchComplete | convex/products.ts:96 | with at most 20 matches every matching stored product is returned, as often as it is stored; with 20 or more exactly 20 are |
| Products.SearchRanking | convex/products.ts:81-92 | name-prefix matches come first, then brand-prefix matches among equals, then name collation order |
| Products.MigratedCompatShape | convex/products.ts:115-132 | the migrated map has exactly the five keys, each the per-key mapping of the old value, and holds no string |
| Products.LegacyEntryRule | convex/products.ts:118-131 | a string becomes `{s, 75/25/50}` without validating it, an object is kept, anything else becomes `{neutral, 50}` |
| Products.MigrateProductProperties | convex/products.ts:107-142 | only `skinTypeCompatibility` can change; it changes exactly when it holds a string; afterwards none is left, so migrating is idempotent |
| Migrations.MigrateAll | convex/migrations.ts:10-42 | the table after the pass: each document migrated in place, order and length kept |
| Migrations.CountNeeding | convex/migrations.ts:11-18 | the number of documents needing migration is at most the table size |
| Migrations.ProductTable.constructor | convex/migrations.ts:7 | the table holds the collected documents |
| Migrations.ProductTable.Patch | convex/migrations.ts:37-39 | the document with the id gets the new compatibility; every other document and field is unchanged |
| Migrations.ProductTable.MigrateSkinCompatibility | convex/migrations.ts:4-45 | afterwards the table is every old document migrated, and `migrated` is the number that needed it |
| Migrations.CountIsChanged | convex/migrations.ts:8-41 | the returned count equals the number of documents the pass changed |
| Migrations.SecondRunIsNoOp | convex/migrations.ts:18-39 | after a pass no document needs migration, so a second pass reports 0 and changes nothing |
| Migrations.MigrationOnlyTouchesSkinField | convex/migrations.ts:37-39 | only `skinTypeCompatibility` changes, and documents without a string value stay as they were |
| Analysis.BinaryBytes | convex/analysis.ts:80-84 | one byte per character, each the character's code modulo 256 |
| Analysis.CopyBytes | convex/analysis.ts:80-84 | the loop fills a fresh array of the string's length with those bytes |
| Analysis.SaveArgsFor | convex/analysis.ts:89-100 | the call is admitted exactly when brand, name and price are strings and any compatibility passes the five-key validator; an admitted call passes brand, name, price, storage id, analysis and compatibility through unchanged |
| Analysis.AnalyzeProduct | convex/analysis.ts:31-109 | the action's effects are `Analyze`: error result, thrown call, or stored bytes plus inserted record plus success result |
| Analysis.Guard | convex/analysis.ts:38-54 | definition of the guard chain; properties in `GuardRule`, `ConfidenceThreshold` |
| Analysis.SearchPrice | convex/analysis.ts:59-76 | definition of the price fallback; properties in `PriceRule` |
| Analysis.ToByte | convex/analysis.ts:83 | definition of the `Uint8Array` store; properties in `ToByteLatin1`, `BytesAreLatin1` |
| Analysis.Analyze | convex/analysis.ts:31-109 | definition of the action's effects; properties in `FailureHasNoEffects`, `SuccessMatchesRecord`, `IdentifyErrorsReachUser` |
| Analysis.GuardRule | convex/analysis.ts:38-54 | the action proceeds exactly when the result is truthy, has no truthy error, and has a numeric confidence of at least 0.7; the AI's own error is passed on |
| Analysis.ConfidenceThreshold | convex/analysis.ts:52-54 | confidence 0.7 and above passes; below gives the "could not clearly recognise" error |
| Analysis.IdentifyErrorsReachUser | convex/analysis.ts:38-44 | an `{error}` from recognition is returned as is, with nothing stored or inserted |
| Analysis.FailureHasNoEffects | convex/analysis.ts:38-100 | an error result happens exactly when a guard fails, and then nothing is stored or inserted; a record is inserted exactly when the call succeeds |
| Analysis.SuccessMatchesRecord | convex/analysis.ts:89-108 | the returned id, brand, name, price and analysis are those passed to `saveProduct`, and the stored blob holds the decoded bytes |
| Analysis.PriceRule | convex/analysis.ts:59-76 | a throw or a null body keeps "Уточняется"; otherwise a falsy `answer` gives "Не найдено" and a truthy one is the price; the price is always truthy |
| Analysis.ToByteLatin1 | convex/analysis.ts:83 | a character below 256 is stored as its own code |
| Analysis.BytesAreLatin1 | convex/analysis.ts:80-84 | for `atob` output, every byte equals the character code at its position |
| Analysis.DefaultCompatAccepted | convex/products.ts:12-33 | the all-neutral compatibility passes `saveProduct`'s validator |
| Analysis.NormalizedCompatAccepted | convex/products.ts:12-33 | a normalised compatibility passes the validator exactly when it has only the five keys and each item only status and score |
| SkinTypes.IdRoundTrip | types/skinType.ts:6-16 | each skin type's id parses back to it, and a parsed string is that id, so ids are distinct |
| SkinTypes.SkinTypesListed | types/skinType.ts:6-16 | `SKIN_TYPES` lists every skin type exactly once |
| SkinTypes.ValidIffParses | types/skinType.ts:109-111 | `isValidSkinType` is true exactly for a non-null id of a skin type |
| SkinTypes.IsValidSkinType | types/skinType.ts:109-111 | definition of the validator; properties in `ValidIffParses`, `GetSkinTypeOptions` |
| SkinTypes.GetSkinTypeOptions | types/skinType.ts:97-104 | nine options in list order with id, short label, icon and description; every id passes the validator, every valid id is offered, and no id repeats |
| SkinTypes.BackendKeysAreSkinTypes | convex/ai_logic.ts:131-132 | the five backend keys are the first five skin types and the backend's statuses are the client's |
| SkinTypes.NormalizedItemIsSkinCompatibilityItem | types/skinType.ts:71-80 | a normalised item has one of the three statuses and a score in 0..100 |
| HairTypes.IdRoundTrip | types/hairType.ts:6 | each hair type's id parses back to it, and a parsed string is that id |
| HairTypes.HairTypesListed | types/hairType.ts:6 | `HAIR_TYPES` lists every hair type exactly once |
| HairTypes.ValidIffParses | types/hairType.ts:95-97 | `isValidHairType` is true exactly for a non-null id of a hair type |
| HairTypes.IsValidHairType | types/hairType.ts:95-97 | definition of the validator; properties in `ValidIffParses`, `GetHairTypeOptions` |
| HairTypes.GetHairTypeOptions | types/hairType.ts:83-90 | eight options in list order with id, short label, icon and description; every id is valid, every valid id is offered, no id repeats |
| HairTypes.SharedIds | types/hairType.ts:6-57 | exactly "oily", "dry" and "normal" are both hair and skin ids, and the hair statuses equal the skin statuses |
| UserProfile.AgeIdRoundTrip | types/userProfile.ts:7 | each age range's id parses back to it, and a parsed string is that id |
| UserProfile.AgesListed | types/userProfile.ts:7 | `AGE_RANGES` lists every age range exactly once |
| UserProfile.AgeValidIffParses | types/userProfile.ts:50-52 | `isValidAgeRange` is true exactly for a non-null id of an age range |
| UserProfile.IsValidAgeRange | types/userProfile.ts:50-52 | definition of the validator; properties in `AgeValidIffParses`, `GetAgeRangeOptions` |
| UserProfile.GetAgeRangeOptions | types/userProfile.ts:41-48 | one option per age range in list order with its label, icon and description; ids are exactly the valid ones, each once |
| UserProfile.LifestyleIdRoundTrip | types/userProfile.ts:55 | each lifestyle's id parses back to it, and a parsed string is that id |
| UserProfile.LifestylesListed | types/userProfile.ts:55 | `LIFESTYLES` lists every lifestyle exactly once |
| UserProfile.LifestyleValidIffParses | types/userProfile.ts:98-100 | `isValidLifestyle` is true exactly for a non-null id of a lifestyle |
| UserProfile.IsValidLifestyle | types/userProfile.ts:98-100 | definition of the validator; properties in `LifestyleValidIffParses`, `GetLifestyleOptions` |
| UserProfile.GetLifestyleOptions | types/userProfile.ts:89-96 | one option per lifestyle in list order with its label, icon and description; ids are exactly the valid ones, each once |
| UserProfile.LocationIdRoundTrip | types/userProfile.ts:103-113 | each location's id parses back to it, and a parsed string is that id |
| UserProfile.LocationsListed | types/userProfile.ts:103-113 | `LOCATIONS` lists every location exactly once |
| UserProfile.LocationValidIffParses | types/userProfile.ts:235-237 | `isValidLocation` is true exactly for a non-null id of a location |
| UserProfile.IsValidLocation | types/userProfile.ts:235-237 | definition of the validator; properties in `LocationValidIffParses`, `GetLocationOptions` |
| UserProfile.LocationClimate | types/userProfile.ts:160-215 | definition of the climate table; properties in `DescribeExamples` |
| UserProfile.GetLocationOptions | types/userProfile.ts:225-233 | one option per location in list order with label, icon, description and its climate; ids are exactly the valid ones, each once |
| UserProfile.GetClimateDescription | types/userProfile.ts:240-261 | the pushes build the fragments of the location's climate, joined by ", ", or the moderate phrase when there are none |
| UserProfile.Fragments | types/userProfile.ts:244-258 | definition of the pushed fragments; properties in `FragmentsRule`, `FragmentsHaveNoComma` |
| UserProfile.Describe | types/userProfile.ts:260 | definition of the joined phrase; properties in `DescribeSplits`, `DescribeNonEmpty`, `DescribeExamples` |
| UserProfile.FragmentsRule | types/userProfile.ts:244-258 | each fragment appears exactly when its level calls for it, at most three; none exactly for medium humidity, non-high pollution and medium UV |
| UserProfile.DescribeSplits | types/userProfile.ts:260 | splitting the phrase at commas gives back the fragments in order (humidity, pollution, UV) |
| UserProfile.FragmentsHaveNoComma | types/userProfile.ts:244-258 | no fragment contains a comma |
| UserProfile.JoinWithSpace | types/userProfile.ts:260 | joining with ", " is joining with "," after prefixing all but the first part with a space |
| UserProfile.DescribeNonEmpty | types/userProfile.ts:260 | the phrase is never empty, and it is the moderate phrase exactly when there are no fragments |
| UserProfile.DescribeExamples | types/userProfile.ts:160-215 | Moscow gives the pollution fragment, Kazan the moderate phrase, Sochi high humidity then high UV, Saint Petersburg high humidity then low UV, Novosibirsk low humidity |
| ProductResult.ArrayOr | app/product-result.tsx:82-85 | an array is kept and anything else becomes `[]` |
| ProductResult.HazardsOr | app/product-result.tsx:85 | a truthy value is kept and a falsy or missing one becomes "low", so the result is always truthy |
| ProductResult.DecodeAnalysis | app/product-result.tsx:75-90 | a failed parse or a non-object leaves the default analysis; otherwise array lists are kept and non-arrays become exactly `[]`, and a truthy `hazards` is passed unchecked while a falsy one becomes exactly "low" |
| ProductResult.EncodeAnalysis | app/product-result.tsx:76 | the analysis object has exactly the four fields of the record it encodes |
| ProductResult.DecodeEncode | app/product-result.tsx:75-90 | when parsing undoes serialising, decoding an encoded analysis gives it back exactly when its lists are arrays and its `hazards` is truthy |
| ProductResult.SavedAnalysisDecodes | app/product-result.tsx:75-90 | a product saved by `saveProduct` decodes to the AI's analysis with non-array lists emptied and a falsy `hazards` set to "low" |
| ProductResult.HazardIcon | app/product-result.tsx:419-425 | "low" shows the checkmark shield, "medium" the shield, and every other value the warning |
| ProductResult.UnreadableAnalysisLooksSafe | app/product-result.tsx:75-90 | an analysis the parser cannot read shows the low-risk badge |
| ProductResult.DecodeCompatibility | app/product-result.tsx:92-111 | a truthy string is parsed and a parse failure leaves nothing; any other stored value is used as is |
| ProductResult.GetIconColor | app/product-result.tsx:115-127 | green, yellow and red map to three distinct colours and every other status to grey |
| ProductResult.AnyContainsIff | app/product-result.tsx:134-197 | an `\|\|` chain of `includes` tests holds exactly when some keyword occurs |
| ProductResult.KeywordGroup | app/product-result.tsx:129-197 | the chosen group fires and no group tested before it does; with no group chosen, none fires |
| ProductResult.GetIngredientIcon | app/product-result.tsx:129-209 | definition of the icon choice; properties in `FirstHitWins`, `NoHitFollowsStatus`, `WaterIcon`, `VitaminBeatsOil` |
| ProductResult.StatusIcon | app/product-result.tsx:199-208 | green, yellow and red give checkmark-circle, warning and alert-circle; anything else gives ellipse |
| ProductResult.FirstHitWins | app/product-result.tsx:129-209 | the first group that fires decides the icon, whatever fires later and whatever the status |
| ProductResult.NoHitFollowsStatus | app/product-result.tsx:199-208 | with no keyword hit the icon follows the status alone |
| ProductResult.WaterIcon | app/product-result.tsx:134-162 | the water icon appears exactly when the moisturising or the oil group is the first to fire |
| ProductResult.HyaluronicAcidIsWater | app/product-result.tsx:134-146 | "hyaluronic acid" fires the acid group too, but maps to the moisturising group and so to water |
| ProductResult.VitaminBeatsOil | app/product-result.tsx:134-162 | a name with both "vitamin" and "oil" and no moisturising keyword shows the leaf |
| ProductResult.GetCompatibilityStyle | app/product-result.tsx:211-235 | a bad status or a score below 40 is "Не рекомендуется" regardless of the other; otherwise a good status or a score of at least 70 is "Отлично подходит"; all else is "Нейтрально" |
| ProductResult.ScoreAndStatusPrecedence | app/product-result.tsx:212-226 | `{good, 30}` and `{bad, 95}` are not recommended, and `{neutral, 85}` is excellent |
| ProductResult.ScoreOr | app/product-result.tsx:484 | a numeric score is kept, anything else reads as the default |
| ProductResult.CompatibilityCard | app/product-result.tsx:478-508 | the card shows only for a truthy type, a truthy compatibility, an open category gate and an object entry; the status defaults to neutral, the score to 50 |
| ProductResult.BlockStyle | app/product-result.tsx:307-312 | the expanded block's label and colour come from the status alone: good, bad, or neutral for everything else |
| ProductResult.CompatibilityBlock | app/product-result.tsx:294-320 | the expanded row shows for any truthy entry, object or not, with the score defaulting to 0 |
| ProductResult.SkinCard | app/product-result.tsx:478-508 | definition of the skin card; properties in `CompatibilityCard`, `CategoryGates`, `SavedProductCards` |
| ProductResult.HairCard | app/product-result.tsx:510-540 | definition of the hair card; properties in `CompatibilityCard`, `CategoryGates`, `SavedProductCards` |
| ProductResult.SkinBlock | app/product-result.tsx:294-320 | definition of the skin block, which has no category gate; properties in `CompatibilityBlock`, `NormalizedEntryAgrees` |
| ProductResult.HairBlock | app/product-result.tsx:346-372 | definition of the hair block; properties in `CompatibilityBlock`, `CategoryGates`, `SavedProductCards` |
| ProductResult.CategoryGates | app/product-result.tsx:479 | both cards show exactly for mixed or absent categories; a skin product never shows hair and vice versa; "unknown" shows neither; the hair block's gate implies the hair card's |
| ProductResult.SavedProductCards | app/product-result.tsx:346-352 | a saved product has no category, so it passes both card gates, and it never shows a hair card or hair block because no hair compatibility is stored |
| ProductResult.ScoreDefaultsDiffer | app/product-result.tsx:483-484 | an entry without status and score reads neutral in both places, but 50 on the card and 0 in the block |
| ProductResult.NormalizedEntryAgrees | app/product-result.tsx:300-316 | on a backend-normalised entry the card and the block show the same label and score |
| ProductResult.UnnormalizedEntryDisagrees | app/product-result.tsx:307-316 | `{good, 30}` reads "Не рекомендуется" on the card and "Отлично подходит" in the block |
| ScanHistory.DiffDays | app/scan-history.tsx:28-32 | the day count is the floor of the elapsed milliseconds over 86 400 000, negative in the future |
| ScanHistory.NatToString | app/scan-history.tsx:39 | decimal digits with no leading zero |
| ScanHistory.IntToString | app/scan-history.tsx:39 | definition of a number in a template literal; properties in `IntToStringRoundTrip` |
| ScanHistory.NatToStringRoundTrip | app/scan-history.tsx:39 | the digits read back as the number |
| ScanHistory.IntToStringRoundTrip | app/scan-history.tsx:39 | the interpolated day count, minus sign included, reads back as the number |
| ScanHistory.FormatDate | app/scan-history.tsx:28-47 | definition of the label; properties in `FormatDateBuckets`, `FutureScanReadsMinusOne` |
| ScanHistory.FormatDateBuckets | app/scan-history.tsx:28-47 | the last 24 hours give "Сегодня", the 24 before give "Вчера", two to six days give "n дн. назад", future timestamps a negative count, a week or more the locale date |
| ScanHistory.FutureScanReadsMinusOne | app/scan-history.tsx:32-39 | a timestamp one millisecond in the future reads "-1 дн. назад" |

## Left out

External code and data:
- **Network and storage.** The HTTP calls to the vision model and the price search, the storage upload and the database itself are not modelled. Their outcomes are inputs: `ServiceReply`, `PriceReply`, `storageId`, `newId`, the document sequence, and `getById`'s `Option<Product>`.
- **Library functions.** `JSON.parse`, `JSON.stringify`, `toLowerCase`, `localeCompare`, `atob`, `toLocaleDateString` and the current time are abstract parameters. They are not implemented.
- **Locale collation.** `localeCompare` is a real-valued collation key. Ties between different names therefore collate as equal.
- **The prompt.** Building the prompt text (convex/ai_logic.ts:37-68) and the API-key environment lookup are left out. Only the key's presence enters the model.
- **findByName.** `findByName` (convex/products.ts:52-60) is a single index query with no logic of its own, so it is not modelled.

Semantics the model simplifies:
- **Property order.** Objects are maps, so the order of properties and of `Object.values` is not modelled. The order of the table's documents is.
- **Strings.** Strings are sequences of Dafny characters, not UTF-16 code units. Case mapping is the `lower` parameter.
- **NaN and Infinity.** A parsed JSON number cannot be NaN, so the `isNaN` test (convex/ai_logic.ts:162) is not modelled. A literal too large for a double, which `JSON.parse` reads as Infinity, is kept as its exact real value. That value agrees with Infinity after clamping to 0..100 and after a comparison with 0.7.
- **Number formatting.** How the client prints a number is not modelled.
- **Convex validators.** Argument validators are modelled as rejecting extra keys. A compatibility item with fields besides `status` and `score`, or a map with keys besides the five, makes the `saveProduct` call throw.

The UI:
- **Rendering.** React rendering, hooks, navigation and the `isExpanded` state are left out. So are the ingredient lists, the counts by status (app/product-result.tsx:441-470), the ingredient detail sheet (app/product-result.tsx:600-800) and the other screens.
- **Locale date.** The locale date string of `formatDate` (app/scan-history.tsx:41-45), with its year-dependent options, is the `localeDate` parameter.

Contracts stated weaker than the source:
- Products.SaveProduct: does not model the schema's check that `pros` and `cons` are arrays of strings (convex/schema.ts). A record the database would reject is modelled as inserted.
- ProductResult.GetIngredientIcon: takes the ingredient's name and description as strings. A missing name or description, which would make `toLowerCase` throw, is not modelled.
