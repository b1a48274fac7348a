# ARCAD assistant core in Dafny

This project models the deterministic core of the ARCAD AI assistant, a VS Code chat extension. The core has five parts:

- **Question handling.** `QuestionProcessor` normalizes a question and sorts it into a category: language, a named product, technical, integration or general. It detects product, listing and comparison questions and finds the catalog products a question mentions.
- **Rendering.** The same class renders the Markdown answers: one product's detail block, a two-product comparison, and the catalog listing grouped by category.
- **Catalog.** `products.ts` holds the table of eleven products and the name-to-URL map reduced from it.
- **Caches.** `Memoizer` and `AsyncMemoizer` are keyed time-to-live caches. `URLContentCache` keeps fetched page contents for five minutes.
- **Errors.** `error-handling.ts` defines `ArcadError` and its three subclasses. It turns any thrown value into one of six sentences for the user.

Modules and files:

| file | module | what it holds |
|---|---|---|
| `wrappers.dfy` | `Wrappers` | `Option`, for `undefined`, `null` and optional fields |
| `text.dfy` | `Text` | string helpers: ASCII lowercase, the JavaScript `\s` set, filtering, trimming, substrings, `Concat` of appended pieces, decimals |
| `products.dfy` | `Products` | the catalog, `Lookup` (indexing `ARCAD_PRODUCTS`), the URL map fold |
| `question_processor.dfy` | `QuestionProcessor` | the language map, the term tables, `normalizeText`, `categorizeQuestion`, the detectors, `findMentionedProducts` |
| `product_responses.dfy` | `ProductResponses` | the three renderers |
| `memoizer.dfy` | `Memoizer` | the `Memoizer` and `AsyncMemoizer` classes |
| `url_content_cache.dfy` | `UrlContentCache` | the `URLContentCache` class |
| `error_handling.dfy` | `ErrorHandling` | the error datatype, `fromError`, the subclass constructors, `getUserFriendlyErrorMessage` |

How each part is modelled:

- **Renderers.** Each renderer builds its answer by repeated `+=`. The model keeps that form: each renderer is a method with the source's loops. Its result is proved equal to `Concat` of a *piece list*, a specification function listing what each `+=` appends. The layout facts are then lemmas about the piece list: which line opens and which closes the answer, when a section is present, and in what order lines come.
- **Caches.** Each cache is a class with a `map` field. The clock `Date.now()` becomes a `now` parameter. The function returned by `memoize(fn)` is modelled by a single call, `Call(fn, key, now)`. Each method is proved against a function on the map (`Memoize`, `Pruned`, `Fetch`), and the cache behaviour is stated as lemmas about those functions.

Where the code behaves differently from what its names and comments suggest, the model follows the code:

- `categorizeQuestion` matches against the lowercased question, not the normalized one. So "ARCAD Skipper" is not recognised as ARCAD-Skipper there, although `findMentionedProducts` finds it (`CategorizerMissesSpacedName`, `SearchFindsSpacedName`).
- `findMentionedProducts` returns names in catalog order, not the order the question mentions them.
- The language category carries the matching table key, typos included (`'frace'`), not the language's display name.
- The French key in the language table is the mis-decoded spelling `fran√ßais` as it stands in the file. A question written with `français` therefore does not match it.

## Model

| member | source | states |
|---|---|---|
| `QuestionProcessor.NormalizeText` | src/services/QuestionProcessor.ts:28-33 | the result has no upper-case letter, no `. , ! ?`, no hyphen and no whitespace, and is no longer than the input |
| `QuestionProcessor.NormalizeIdempotent` | src/services/QuestionProcessor.ts:28-33 | normalizing twice is normalizing once |
| `QuestionProcessor.NormalizeAppend` | src/services/QuestionProcessor.ts:28-33 | normalization distributes over concatenation, because every step works character by character and the final trim has nothing left to remove |
| `QuestionProcessor.NormalizeSeparator` | src/services/QuestionProcessor.ts:31 | a hyphen or whitespace character alone normalizes to the empty string |
| `QuestionProcessor.NormalizeSwapSeparator` | src/services/QuestionProcessor.ts:31 | exchanging one separator for another (space for hyphen, tab for space) never changes the normal form |
| `QuestionProcessor.StrippedIsTrimmed` | src/services/QuestionProcessor.ts:29-32 | the final `trim()` is a no-op: after the two `replace` calls no whitespace is left |
| `QuestionProcessor.FindFirst` | src/services/QuestionProcessor.ts:40-41 | `find` over the keys yields nothing exactly when no key occurs, and otherwise the first key in table order that occurs |
| `QuestionProcessor.SomeIncluded` | src/services/QuestionProcessor.ts:53 | `some(term => includes(term))` holds exactly when some term occurs in the text |
| `QuestionProcessor.CategorizeQuestion` | src/services/QuestionProcessor.ts:36-62 | first match wins over the lowercased question: language iff a language key occurs (then the first such key); product iff no language key but a product key occurs (then the first such key); technical, integration and general each iff every earlier test failed and its own holds |
| `QuestionProcessor.EmptyQuestionIsGeneral` | src/services/QuestionProcessor.ts:36-62 | the empty question falls through to `general`, since no table holds an empty key |
| `QuestionProcessor.TablesHaveNoEmptyKey` | src/config/constants.ts:33-41 | no language key, product name, technical term or integration term is empty |
| `QuestionProcessor.MisspellingIsReportedAsKey` | src/services/QuestionProcessor.ts:11 | the typo key `frace` is reported as the language itself |
| `QuestionProcessor.TableOrderBeatsQuestionOrder` | src/services/QuestionProcessor.ts:40-44 | in "english or french" the table's first key wins, `french`, although `english` comes first in the question |
| `QuestionProcessor.LanguageKeys` | src/services/QuestionProcessor.ts:8-21 | the twelve keys of the language table in declaration order: `french`, the mis-decoded French key and `frace` first, `france`, `english` and `neng` last; none is empty |
| `QuestionProcessor.Squeezed` | src/services/QuestionProcessor.ts:66 | one entry per term, in order, each the term with its whitespace removed and so free of whitespace |
| `QuestionProcessor.MatchesTerm` | src/services/QuestionProcessor.ts:64-77 | no term matches nothing; a term made only of whitespace squeezes to the empty string and matches every question |
| `QuestionProcessor.SqueezedIncluded` | src/services/QuestionProcessor.ts:66 | testing the space-stripped terms means that some term, with its whitespace removed, occurs in the text |
| `QuestionProcessor.IsProductQuery` | src/services/QuestionProcessor.ts:64-67 | true exactly when some product-query term, stripped of whitespace, occurs in the normalized question |
| `QuestionProcessor.IsProductListingQuery` | src/services/QuestionProcessor.ts:69-72 | the same test over the listing terms |
| `QuestionProcessor.IsProductComparisonQuery` | src/services/QuestionProcessor.ts:74-77 | the same test over the comparison terms |
| `QuestionProcessor.ListingImpliesProductQuery` | src/config/constants.ts:43-57 | every listing question is also a product question: each listing term squeezes to a word followed by `products`, which contains `product` |
| `QuestionProcessor.ListTermContainsProduct` | src/config/constants.ts:52-57 | each listing term, with its space removed, contains `product` |
| `QuestionProcessor.DetectorsIgnoreNormalization` | src/services/QuestionProcessor.ts:64-85 | the three detectors and the product search give the same answer on a question and on its normal form |
| `QuestionProcessor.MentionedKeys` | src/services/QuestionProcessor.ts:81-84 | the `filter` keeps exactly the keys whose normal form occurs in the text, in table order |
| `QuestionProcessor.FindMentionedProducts` | src/services/QuestionProcessor.ts:79-85 | a catalog name is returned iff its normal form occurs in the normalized question; the names keep catalog order |
| `QuestionProcessor.FoundWhenNormalFormOccurs` | src/services/QuestionProcessor.ts:79-85 | a catalog name whose normal form occurs in the normalized question is among the results |
| `QuestionProcessor.SkipperSpellingsNormalizeAlike` | src/services/QuestionProcessor.ts:28-33 | "ARCAD Skipper" and "ARCAD-Skipper" have the same normal form |
| `QuestionProcessor.SkipperNotInSpacedLowercase` | src/services/QuestionProcessor.ts:36-51 | lowercasing alone does not make "ARCAD Skipper" contain "arcad-skipper" |
| `QuestionProcessor.FoundUnderSameNormalForm` | src/services/QuestionProcessor.ts:79-85 | a question spelled differently from a catalog name but with the same normal form mentions that product |
| `QuestionProcessor.CategorizerMissesSpacedName` | src/services/QuestionProcessor.ts:36-51 | "ARCAD Skipper" is not categorized as a question about ARCAD-Skipper |
| `QuestionProcessor.SearchFindsSpacedName` | src/services/QuestionProcessor.ts:79-85 | the product search finds ARCAD-Skipper in "ARCAD Skipper" |
| `QuestionProcessor.TransformerNormalFormIsPrefix` | src/services/QuestionProcessor.ts:82-83 | the normal form of ARCAD-Transformer starts the normal form of ARCAD Transformer DB |
| `QuestionProcessor.TransformerDbAlsoFindsTransformer` | src/services/QuestionProcessor.ts:79-85 | asking about ARCAD Transformer DB also reports ARCAD-Transformer |
| `Products.Names` | src/data/products.ts:3 | `Object.keys`: one name per entry, in table order |
| `Products.Lookup` | src/data/products.ts:3 | indexing the table yields nothing iff the name is not a key, and otherwise an info stored under that name |
| `Products.LookupPrefix` | src/data/products.ts:3 | an entry under another name does not affect a lookup |
| `Products.LookupLast` | src/data/products.ts:3 | with distinct names, the last entry's name looks up that entry |
| `Products.LookupOwnEntry` | src/data/products.ts:3-137 | with distinct names, every entry's name looks up that entry's info |
| `Products.ProductMap` | src/data/products.ts:140-143 | the reduced map's keys are exactly the catalog's names |
| `Products.ProductMapKeys` | src/data/products.ts:140-143 | the reduced object's key order holds every catalog name and nothing else, each once |
| `Products.ProductMapHoldsUrls` | src/data/products.ts:140-143 | with distinct names, the map sends each name to that product's URL |
| `Products.ProductMapKeysInCatalogOrder` | src/data/products.ts:140-143 | the reduce inserts keys in catalog order, each once |
| `Products.CatalogNamesDistinct` | src/data/products.ts:3-138 | the eleven product names are distinct |
| `Products.CatalogNamesNonEmpty` | src/data/products.ts:3-138 | no product name is empty |
| `Products.SomeCatalogNames` | src/data/products.ts:4-126 | ARCAD-Skipper, ARCAD-Transformer and ARCAD Transformer DB are catalog names |
| `Products.CatalogAndMapAgree` | src/data/products.ts:3-143 | eleven products; the map has exactly their names as keys, in catalog order, each mapped to its URL |
| `Products.OptionalFieldsOfCatalog` | src/data/products.ts:3-138 | only ARCAD-Skipper and ARCAD-Observer carry related products and technical details; Observer lists ARCAD-Deliver, which is not in the catalog |
| `Products.CatalogCategories` | src/data/products.ts:3-138 | the category of each of the eleven entries, by position |
| `ProductResponses.AppendBullets` | src/services/QuestionProcessor.ts:96-98 | the `forEach` appends one `- item` line per item, in order |
| `ProductResponses.AppendSection` | src/services/QuestionProcessor.ts:95-99 | a bold title, the bullet loop and a blank line |
| `ProductResponses.GenerateProductResponse` | src/services/QuestionProcessor.ts:87-128 | `''` when the name is not in the catalog; otherwise exactly the detail block's pieces |
| `ProductResponses.DetailBlock` | src/services/QuestionProcessor.ts:91-127 | the appends of a known product produce exactly the piece list |
| `ProductResponses.AppendTechnicalDetails` | src/services/QuestionProcessor.ts:101-116 | the platforms and integrations sections, each appended only when its field is present |
| `ProductResponses.AppendRelated` | src/services/QuestionProcessor.ts:118-124 | the related-products section, appended only when the list is present and non-empty |
| `ProductResponses.ResponsePieces` | src/services/QuestionProcessor.ts:91-127 | the detail block's appends: at least six pieces beyond one per key feature, opening with the bold name and closing with the link line |
| `ProductResponses.ResponseText` | src/services/QuestionProcessor.ts:91-126 | the detail block's text is the name, description and category lines, the feature section, the optional sections and the link line, in that order |
| `ProductResponses.ResponseFraming` | src/services/QuestionProcessor.ts:91-127 | the block is non-empty, opens with the bold name and ends with the link line |
| `ProductResponses.FeatureBulletAt` | src/services/QuestionProcessor.ts:95-98 | feature `j` is piece `4 + j` |
| `ProductResponses.FeaturesListed` | src/services/QuestionProcessor.ts:96-98 | every key feature appears as a bullet of the response |
| `ProductResponses.FeaturesOrdered` | src/services/QuestionProcessor.ts:96-98 | of two key features, the earlier one's bullet comes first |
| `ProductResponses.TitlesAreNotPlain` | src/services/QuestionProcessor.ts:95-119 | the section titles are bold lines, which no name, description, category or link line is |
| `ProductResponses.HeadIsPlain` | src/services/QuestionProcessor.ts:91-126 | the name, description, category and link lines are not titles |
| `ProductResponses.TitleInSection` | src/services/QuestionProcessor.ts:95-99 | the only title in a bullet section is its own |
| `ProductResponses.SectionsPresentIff` | src/services/QuestionProcessor.ts:101-124 | the platforms title appears iff `technicalDetails.platforms` is present; integrations likewise; the related title iff `relatedProducts` is present and non-empty |
| `ProductResponses.PresentSectionIsShown` | src/services/QuestionProcessor.ts:101-124 | a title in the piece list occurs in the text |
| `ProductResponses.GenerateProductComparison` | src/services/QuestionProcessor.ts:130-161 | `''` when either name is missing; otherwise exactly the comparison's pieces |
| `ProductResponses.ComparisonBlock` | src/services/QuestionProcessor.ts:135-158 | the appends produce exactly the comparison's piece list |
| `ProductResponses.ComparisonPieces` | src/services/QuestionProcessor.ts:135-158 | the comparison's appends: `14 + n1 + n2` pieces, opening with the "Let me compare" line and closing with the second product's link |
| `ProductResponses.ComparisonHeadText` | src/services/QuestionProcessor.ts:135-146 | the text of the intro, categories, purposes and first feature heading |
| `ProductResponses.ComparisonText` | src/services/QuestionProcessor.ts:135-158 | the comparison's text: head, first features, second heading, second features, blank line, links |
| `ProductResponses.ComparisonLayout` | src/services/QuestionProcessor.ts:135-158 | the position of every line: `14 + n1 + n2` pieces, the fixed ones at fixed indices, feature `j` of each product after its heading |
| `ProductResponses.ComparisonFraming` | src/services/QuestionProcessor.ts:135-160 | opens with the "Let me compare" line and ends with the second product's link |
| `ProductResponses.ComparisonLinesInOrder` | src/services/QuestionProcessor.ts:137-158 | in each pair of lines (category, purpose, link), the first product's comes before the second's |
| `ProductResponses.ComparisonFeaturesInOrder` | src/services/QuestionProcessor.ts:146-153 | the first product's features come before the second product's heading, and the second product's features after it |
| `ProductResponses.GroupByCategory` | src/services/QuestionProcessor.ts:164-171 | the loop's map has a key for exactly the categories that occur, in first-seen order, and each holds that category's entries in catalog order |
| `ProductResponses.AddToGroup` | src/services/QuestionProcessor.ts:166-171 | a new category gets an array and a place at the end of the key order; the entry is pushed onto its category's array |
| `ProductResponses.GroupingStep` | src/services/QuestionProcessor.ts:166-171 | one callback keeps the key order first-seen and each array equal to its category's entries so far |
| `ProductResponses.CategoryOrderStep` | src/services/QuestionProcessor.ts:167-169 | an entry adds its category to the key order only if it is not there yet |
| `ProductResponses.InCategoryStep` | src/services/QuestionProcessor.ts:170 | an entry is pushed onto its own category's array and no other |
| `ProductResponses.InCategorySnoc` | src/services/QuestionProcessor.ts:170 | the same, stated on a sequence extended by one entry |
| `ProductResponses.CategoryOrder` | src/services/QuestionProcessor.ts:166-169 | the grouping map's key order lists each category once |
| `ProductResponses.InCategory` | src/services/QuestionProcessor.ts:166-171 | a category's array holds only catalog entries of that category |
| `ProductResponses.CategoryOrderMembership` | src/services/QuestionProcessor.ts:166-169 | a category is a key iff some entry has it |
| `ProductResponses.CategoryOrderFirstSeen` | src/services/QuestionProcessor.ts:166-169 | keys are in order of first occurrence: for any later key's entry, an entry of every earlier key comes before it |
| `ProductResponses.FirstSeenOldCategory` | src/services/QuestionProcessor.ts:166-170 | an entry of a category already in the map keeps every earlier-listed category seen before it |
| `ProductResponses.FirstSeenNewCategory` | src/services/QuestionProcessor.ts:166-169 | an entry that opens a new category comes after an entry of every category listed before it |
| `ProductResponses.UnlistedCategoryIsEmpty` | src/services/QuestionProcessor.ts:166-171 | a category with no entry has no entries |
| `ProductResponses.NewCategoryGroup` | src/services/QuestionProcessor.ts:167-170 | an entry of a category not seen before opens a group holding just that entry |
| `ProductResponses.GroupedSnoc` | src/services/QuestionProcessor.ts:166-171 | one more entry adds itself once to the grouped entries of the listed categories |
| `ProductResponses.GroupedIsPermutation` | src/services/QuestionProcessor.ts:164-182 | the groups, taken in key order, hold every entry exactly as often as the catalog does |
| `ProductResponses.ProductItems` | src/services/QuestionProcessor.ts:179 | one `**name**: description` item per product, in order |
| `ProductResponses.FooterText` | src/services/QuestionProcessor.ts:184-188 | the five footer lines, appended one after the other |
| `ProductResponses.BlocksStep` | src/services/QuestionProcessor.ts:176-182 | each category's block is appended after the blocks before it |
| `ProductResponses.AppendCategoryBlock` | src/services/QuestionProcessor.ts:177-181 | the bold category heading, one line per product and a blank line |
| `ProductResponses.AppendBlocks` | src/services/QuestionProcessor.ts:176-182 | `productsByCategory.forEach` appends one block per key, in key order |
| `ProductResponses.ListByCategory` | src/services/QuestionProcessor.ts:163-191 | the listing over a catalog is exactly its piece list: count line, overview line, blocks, footer |
| `ProductResponses.GenerateProductListByCategory` | src/services/QuestionProcessor.ts:163-191 | the listing over `ARCAD_PRODUCTS` |
| `ProductResponses.ListingPieces` | src/services/QuestionProcessor.ts:163-191 | the listing's appends: the count line, the overview line, the blocks and the five footer lines last |
| `ProductResponses.ListingFraming` | src/services/QuestionProcessor.ts:173-190 | opens with the count line and ends with the comparison example |
| `ProductResponses.InOwnCategory` | src/services/QuestionProcessor.ts:170 | every entry is in its own category's array |
| `ProductResponses.BlockInBlocks` | src/services/QuestionProcessor.ts:176-182 | every listed category's block is in the listing |
| `ProductResponses.ProductLineInBlock` | src/services/QuestionProcessor.ts:178-180 | every product of a block gets its line |
| `ProductResponses.EveryProductListed` | src/services/QuestionProcessor.ts:163-191 | every catalog entry's line is in the listing text |
| `ProductResponses.BlockLines` | src/services/QuestionProcessor.ts:177-181 | a block holds only its heading, its products' lines and a blank line |
| `ProductResponses.BlocksHoldOnlyCatalogLines` | src/services/QuestionProcessor.ts:176-182 | the blocks hold nothing but blank lines, headings of listed categories and lines of catalog entries |
| `ProductResponses.BulletPiecesAppend` | src/services/QuestionProcessor.ts:176-182 | the bullet lines of two piece lists put together are those of the first, then those of the second |
| `ProductResponses.AllBulletPieces` | src/services/QuestionProcessor.ts:178-180 | a list of bullet lines keeps them all |
| `ProductResponses.ProductLines` | src/services/QuestionProcessor.ts:179 | one bullet line per product, in order |
| `ProductResponses.BlockBulletsAreProductLines` | src/services/QuestionProcessor.ts:177-181 | the bullet lines of a category block are its products' lines, in order |
| `ProductResponses.BlockBulletsFollowGroups` | src/services/QuestionProcessor.ts:176-182 | the bullet lines of the blocks are the lines of the grouped entries, group after group |
| `ProductResponses.ProductLinesPermutation` | src/services/QuestionProcessor.ts:178-180 | entries that are a permutation of each other give lines that are a permutation of each other |
| `ProductResponses.ListingShowsEachProductOnce` | src/services/QuestionProcessor.ts:164-182 | the listing's bullet lines are the grouped entries' lines, and they are a permutation of the catalog's lines: each product is listed exactly once |
| `ProductResponses.CatalogListingHeader` | src/services/QuestionProcessor.ts:173 | over the real catalog the count line says 11 |
| `ProductResponses.ElevenInDecimal` | src/services/QuestionProcessor.ts:173 | the template literal renders eleven as `11` |
| `ProductResponses.CatalogCategoryOrder` | src/services/QuestionProcessor.ts:164-171 | the listing shows Modernization, DevOps, Testing, Integration, Security, in that order |
| `ProductResponses.FirstSeenOrder` | src/services/QuestionProcessor.ts:166-169 | the first-seen order of eleven entries with the catalog's categories |
| `ProductResponses.FirstSeenOrderFirstThree` | src/services/QuestionProcessor.ts:166-169 | the first three entries open Modernization, DevOps and Testing, in that order |
| `ProductResponses.FirstSeenOrderToSix` | src/services/QuestionProcessor.ts:166-169 | the next three entries add no category |
| `ProductResponses.FirstSeenOrderToNine` | src/services/QuestionProcessor.ts:166-169 | the seventh entry opens Integration; the eighth and ninth add nothing |
| `ProductResponses.FirstSeenOrderToEleven` | src/services/QuestionProcessor.ts:166-169 | the tenth adds nothing and the eleventh opens Security |
| `Memoizer.Memoize` | src/utils/Memoizer.ts:15-28 | `fn` runs iff there is no entry younger than the duration; afterwards the key's entry holds the returned value, the key set gains only the key, and every other entry is unchanged |
| `Memoizer.Pruned` | src/utils/Memoizer.ts:34-41 | keeps exactly the entries aged at most the duration, each unchanged |
| `Memoizer.Memoizer.Call` | src/utils/Memoizer.ts:15-28 | a call returns and stores exactly what `Memoize` describes on the old cache |
| `Memoizer.Memoizer.Clear` | src/utils/Memoizer.ts:30-32 | the cache is empty |
| `Memoizer.Memoizer.Prune` | src/utils/Memoizer.ts:34-41 | the cache becomes `Pruned` of the old cache |
| `Memoizer.Memoizer.constructor` | src/utils/Memoizer.ts:10-13 | an empty cache with the given duration, five minutes by default |
| `Memoizer.AsyncMemoizer.Call` | src/utils/Memoizer.ts:58-71 | the same as `Memoizer.Call`, storing the promise `fn` returns |
| `Memoizer.AsyncMemoizer.Clear` | src/utils/Memoizer.ts:73-75 | the cache is empty |
| `Memoizer.AsyncMemoizer.Prune` | src/utils/Memoizer.ts:77-84 | the cache becomes `Pruned` of the old cache |
| `Memoizer.AsyncMemoizer.constructor` | src/utils/Memoizer.ts:53-56 | an empty cache with the given duration, five minutes by default |
| `Memoizer.PruneLoop` | src/utils/Memoizer.ts:35-40 | the `for ... of` loop deleting expired entries ends with exactly the unexpired ones |
| `Memoizer.HitKeepsCache` | src/utils/Memoizer.ts:17-21 | on a fresh entry the stored value is returned, `fn` does not run and the cache is unchanged |
| `Memoizer.MissStoresResult` | src/utils/Memoizer.ts:24-26 | on a miss or stale entry, `fn(key)` is returned and stored with timestamp `now` |
| `Memoizer.SecondCallHits` | src/utils/Memoizer.ts:15-28 | with a positive duration, a second call at the same time hits and returns the same value |
| `Memoizer.PruneIdempotent` | src/utils/Memoizer.ts:34-41 | pruning twice at the same time is pruning once |
| `Memoizer.BoundaryEntry` | src/utils/Memoizer.ts:20-41 | an entry aged exactly the duration is a miss for `memoize` but survives `prune` |
| `Memoizer.PruneInvisibleToCalls` | src/utils/Memoizer.ts:20-41 | pruning first never changes a call's value or whether `fn` runs |
| `Memoizer.ClearedMisses` | src/utils/Memoizer.ts:30-32 | after `clear` every call runs `fn` |
| `UrlContentCache.Fetch` | src/utils/URLContentCache.ts:31-42 | content iff the URL has an entry aged at most 300000 ms, and then the stored content with the cache unchanged; otherwise `null` with the URL's entry deleted and nothing else changed |
| `UrlContentCache.Pruned` | src/utils/URLContentCache.ts:48-55 | keeps exactly the entries aged at most 300000 ms, each unchanged |
| `UrlContentCache.UrlContentCache.constructor` | src/utils/URLContentCache.ts:12-14 | an empty cache |
| `UrlContentCache.UrlContentCache.Set` | src/utils/URLContentCache.ts:23-29 | the entry under the URL is replaced by the content, stamped `now`, recording its URL |
| `UrlContentCache.UrlContentCache.Get` | src/utils/URLContentCache.ts:31-42 | returns and leaves exactly what `Fetch` describes on the old cache |
| `UrlContentCache.UrlContentCache.Clear` | src/utils/URLContentCache.ts:44-46 | the cache is empty |
| `UrlContentCache.UrlContentCache.Prune` | src/utils/URLContentCache.ts:48-55 | the loop leaves exactly `Pruned` of the old cache |
| `UrlContentCache.GetAfterSet` | src/utils/URLContentCache.ts:23-42 | reading a URL right after storing it returns the stored content |
| `UrlContentCache.SetTouchesOnlyItsUrl` | src/utils/URLContentCache.ts:24-28 | storing changes only that URL's entry, and the entry's `url` is the key |
| `UrlContentCache.PruneInvisibleToGet` | src/utils/URLContentCache.ts:35-55 | reading after a prune at the same time returns what reading without it would |
| `UrlContentCache.PrunedIsStable` | src/utils/URLContentCache.ts:48-55 | after a prune, neither another prune nor a read at the same time deletes anything |
| `UrlContentCache.ClearedReadsNull` | src/utils/URLContentCache.ts:44-46 | after `clear` every URL reads as `null` |
| `ErrorHandling.NewArcadError` | src/utils/error-handling.ts:3-11 | kind and name `ArcadError`, with the given message, code and cause |
| `ErrorHandling.NewNetworkError` | src/utils/error-handling.ts:26-31 | the code is the axios error's code, absent without one |
| `ErrorHandling.NewConfigurationError` | src/utils/error-handling.ts:33-38 | the code is always `CONFIG_ERROR` |
| `ErrorHandling.NewAIModelError` | src/utils/error-handling.ts:40-45 | the code is the one given |
| `ErrorHandling.FromError` | src/utils/error-handling.ts:13-23 | an `ArcadError` of any subclass is returned unchanged; another `Error` is wrapped as a base `ArcadError` with its message, no code, and itself as `originalError`; any other value gives `An unknown error occurred`, with no code and no cause |
| `ErrorHandling.FromErrorIdempotent` | src/utils/error-handling.ts:13-23 | normalizing an already normalized error changes nothing |
| `ErrorHandling.Classify` | src/utils/error-handling.ts:50-70 | the result is one of the six sentences |
| `ErrorHandling.UserFriendlyMessage` | src/utils/error-handling.ts:47-71 | total, and the result is always one of the six sentences |
| `ErrorHandling.FriendlyMessagesDistinct` | src/utils/error-handling.ts:52-70 | the six sentences are pairwise distinct; their lengths are 158, 87, 100, 96, 88 and 80 |
| `ErrorHandling.ClassifyCases` | src/utils/error-handling.ts:50-70 | each sentence iff its case: timeout iff network with `ECONNABORTED`, connection iff any other network error, settings iff configuration, busy iff AI model with `429`, high demand iff AI model with `503`, generic otherwise |
| `ErrorHandling.ConfigurationErrorsAskForSettings` | src/utils/error-handling.ts:33-59 | every configuration error gets the settings sentence |
| `ErrorHandling.NetworkErrorMessages` | src/utils/error-handling.ts:26-55 | a network error gets the timeout sentence iff its axios error had code `ECONNABORTED`, and the connection sentence otherwise |
| `ErrorHandling.OutsideTheHierarchyIsUnexpected` | src/utils/error-handling.ts:18-70 | plain errors and non-errors always get the generic sentence |
| `ErrorHandling.OtherModelCodesAreUnexpected` | src/utils/error-handling.ts:61-70 | an AI-model error with any code but `429` or `503` gets the generic sentence |

## Left out

- **Lowercasing.** `toLowerCase` is modelled for ASCII `A`–`Z` only. JavaScript lowercases all of Unicode; the tables and product names are ASCII apart from the French key.
- QuestionProcessor.NormalizeText: its length bound holds only for ASCII lowering. JavaScript can lengthen a string when lowercasing: `"İ".toLowerCase()` is two code units.
- QuestionProcessor.NormalizeAppend: holds only for ASCII lowering. JavaScript's final-sigma rule makes lowercasing depend on context: `"ΑΣ" + "Α"` lowercases to `"ασα"`, but the two parts lowercased apart give `"ας" + "α"`.
- **Clock.** `Date.now()` is a parameter `now`, in whole milliseconds. JavaScript numbers are floating point; durations and ages are modelled as unbounded integers.
- Memoizer.Memoizer.Call and Memoizer.AsyncMemoizer.Call: these model one call of the closure `memoize` returns, not the closure object itself. `fn` is a pure Dafny function. Its side effects and exceptions are not modelled. If `fn` throws, the source stores nothing, and the model has no such path.
- **Promises.** `AsyncMemoizer` stores the promise as an opaque value. Promise settlement is not modelled, and neither is the sharing of one pending promise by concurrent callers.
- **Iteration order.** The loops in `prune` visit keys in any order. JavaScript visits them in insertion order, but the result does not depend on it.
- **`getInstance`.** The `URLContentCache` singleton is left out. It is process-global state; the model creates a cache with the constructor.
- ErrorHandling.ArcadError: `originalError` is modelled as an `Error` outside the hierarchy, such as an `AxiosError`. A hierarchy error passed as the cause is not representable. `name` is kept; stack traces are not.
- ProductResponses.GenerateProductResponse and ProductResponses.GenerateProductComparison: a product name that is an inherited `Object.prototype` property (`constructor`, `toString`, `__proto__`, `hasOwnProperty` and the like) is modelled as absent. In the source, `ARCAD_PRODUCTS[name]` then finds a truthy inherited value, passes the `!productInfo` guard and throws a `TypeError` at `productInfo.keyFeatures.forEach`. The model returns `''` instead.
- **Key order as a sequence.** The JavaScript `Map` in the listing is modelled as a key sequence beside a Dafny `map`.
- **`ProductInfo.name`.** The field that `{...info, name}` adds is modelled by the `Entry` that pairs each name with its info.
- **Unused fields.** `QuestionProcessor`'s `productsByCategory` and `memoizer` fields are never read, so they are not modelled.
- **Other code.** Fetching, the Gemini connector, retries and backoff, the chat view, the orchestrator and the webview script are not part of this model. They are I/O and UI around the core.
- **Second language map.** The language table in `src/config/language-map.ts` duplicates the one inside `QuestionProcessor.ts`, which is the one `categorizeQuestion` uses. Only that one is modelled.
