# Presa Migrate — a verified model of the migration engine

Presa Migrate copies a PrestaShop catalogue into WooCommerce, one batch of
product ids at a time. Beneath its WordPress, WooCommerce, HTTP and mysqli
calls sits a deterministic, sequential data-shaping engine. This project
models that engine in Dafny and proves what its code promises. The engine has
four parts:

- **the PrestaShop webservice client** (`Presa_Prestashop_Client`): URL
  building, error classification, list-page parsing and the fallback chain
  of `get_product`;
- **the direct database reader** (`Presa_Prestashop_Db`): settings
  defaults, the memoised shop id, list paging, the product array, the
  combinations and the category;
- **the mapper** (`Presa_Mapper`): multilingual field normalisation,
  category, attribute and brand resolution with their caches, and the
  creation or update of simple and variable products and their variations;
- **the batch runner** (`Presa_Migrate_Runner`): normalisation of the
  fetched product, the duplicate lookup, image upload and the per-id outcome
  of `run_batch`.

PHP values are the datatype `Php.Val`. It has Null, Bool, Int, Num (an exact
`real`), Str and Arr. An Arr is an ordered list of key/value entries, as PHP
arrays are. The foreign collaborators are modelled as follows:

- **Webservice.** An oracle from request descriptors (`Http.Url`: address
  plus ordered query parameters) to responses. Each method that sends
  requests also returns the list of URLs it sent.
- **Database.** A `PrestaTables.Server`: the row sequences of each table,
  the set of present tables and columns, and an optional connection error.
  Each query is a filter or sort over those rows (module `Sql`).
- **WordPress functions** (sanitize_title, wp_strip_all_tags, esc_url_raw,
  md5). Uninterpreted, deterministic arrows in `Http.Wp`.
- **Media.** `wp_remote_head` and `media_handle_sideload` are oracles in
  `Http.Media`.
- **Store.** WordPress and WooCommerce persistence is the class
  `WcStore.Store`. It holds sequences of terms, attribute definitions and
  products, plus term and object maps. What it refuses to save is given as
  sets.

The database reader, the mapper, the store and the runner are classes whose
methods update their fields: `shop_id_resolved`, `category_cache`,
`brand_taxonomy_cache`, `brand_image_cache`, and the store's contents. Each
method is proved equal to a specification function of the old state, and the
promised properties are proved about those functions as lemmas. Loops in
the source are `while` loops with invariants, for example:

- the combination passes of `get_combinations`;
- the attribute grouping;
- the variation loop with its counters;
- the page scans and `likely_offsets`;
- `run_batch`'s loop.

## Model

| member | source | states |
|---|---|---|
| FieldNormalizer.GetFirstLang | presa-migrate/includes/class-presa-mapper.php:61-102 | total; a scalar field yields its string form; a value that is neither array nor scalar yields ""; the empty array yields "" |
| FieldNormalizer.LanguageWrapperTransparent | presa-migrate/includes/class-presa-mapper.php:69-71 | an array under a `language` key is unwrapped first: the result is that of the inner value |
| FieldNormalizer.ContentHit | presa-migrate/includes/class-presa-mapper.php:73-77 | finds the first content key, in priority order, that holds a scalar; None exactly when no content key holds one |
| FieldNormalizer.FirstLangContentPriority | presa-migrate/includes/class-presa-mapper.php:73-77 | when content key i holds a scalar and no earlier key (value, #, __value, content, $) does, the result is that scalar |
| FieldNormalizer.NoContentKey | presa-migrate/includes/class-presa-mapper.php:73-77 | a plain list has no content key, so the first-element rule decides |
| FieldNormalizer.FirstLangListFirstElement | presa-migrate/includes/class-presa-mapper.php:82-91 | for a list whose first element has a content key holding a scalar, the result is that scalar |
| FieldNormalizer.FirstPlainScalar | presa-migrate/includes/class-presa-mapper.php:92-99 | the first scalar entry whose key is neither `@attributes` nor `@`; None exactly when there is none |
| FieldNormalizer.FirstLangDrawnFromField | presa-migrate/includes/class-presa-mapper.php:61-102 | a non-empty result is a scalar found at most three levels inside the field: nothing is invented |
| FieldNormalizer.ExtractFirstLangValue | presa-migrate/includes/class-presa-prestashop-client.php:310-340 | the result is always trimmed; a scalar yields its trimmed string form; a value that is neither array nor scalar yields "" |
| FieldNormalizer.ExtractIsTrimmedFirstLang | presa-migrate/includes/class-presa-prestashop-client.php:310-340 | the client's normaliser equals the mapper's, trimmed, except for the one shape where the client gives up: no content key at the top and a first element without one |
| FieldNormalizer.GetProductIdScalar | presa-migrate/includes/class-presa-prestashop-client.php:394-414 | no `id` yields ""; a scalar id yields its string form; a non-empty result is a scalar found inside the id |
| PrestaClient.NewClient | presa-migrate/includes/class-presa-prestashop-client.php:45-49 | dispatcher mode exactly when api_mode is "dispatcher", api otherwise; the base URL is the given one with only trailing '/' removed |
| PrestaClient.BuildUrlSpec | presa-migrate/includes/class-presa-prestashop-client.php:58-67 | ws_key and output_format=JSON are always set; in dispatcher mode the address is dispatcher.php and the path, with leading '/' stripped, goes in `url`; in api mode the address is /api/ plus the path; every other parameter is kept |
| PrestaClient.Get | presa-migrate/includes/class-presa-prestashop-client.php:75-99 | Ok exactly for a reply with code < 400 and decodable JSON, carrying the decoded data; a transport error passes through; code ≥ 400 yields presa_api_error whose message contains the code; an undecodable body yields presa_json_error |
| PrestaClient.Snippet | presa-migrate/includes/class-presa-prestashop-client.php:88-92 | the body excerpt in an API error is the first 200 characters of the body, or the whole body when it is shorter |
| PrestaClient.TestConnection | presa-migrate/includes/class-presa-prestashop-client.php:106-113 | exactly one request; no error exactly when it succeeded, otherwise its error |
| PrestaClient.ParseProductsToList | presa-migrate/includes/class-presa-prestashop-client.php:360-379 | a non-array answer yields no products |
| PrestaClient.ParseList | presa-migrate/includes/class-presa-prestashop-client.php:361-378 | a non-empty `products` list yields its items in order |
| PrestaClient.ParseProductKeyList | presa-migrate/includes/class-presa-prestashop-client.php:369-378 | a list under `products.product` is unwrapped and yields its items in order |
| PrestaClient.ParseSingleObject | presa-migrate/includes/class-presa-prestashop-client.php:373-376 | an object with `id` and no key 0 becomes a one-element list |
| PrestaClient.ParsePrestashopWrapper | presa-migrate/includes/class-presa-prestashop-client.php:362-364 | `prestashop.products` is read exactly as `products` would be |
| PrestaClient.FindProductByIdInList | presa-migrate/includes/class-presa-prestashop-client.php:423-434 | returns the first array item whose scalar id equals the target, and never matches ""; None exactly when no item matches |
| PrestaClient.ClampListLimit | presa-migrate/includes/class-presa-prestashop-client.php:123 | the limit is clamped to [1, 250]: values inside are kept, values below give 1, values above give 250 |
| PrestaClient.ClampOffset | presa-migrate/includes/class-presa-prestashop-client.php:124 | a negative offset becomes 0; others are kept |
| PrestaClient.ListItemsAllArrays | presa-migrate/includes/class-presa-prestashop-client.php:157-178 | when every product is an array, each yields exactly one list item, in order |
| PrestaClient.CollectListItems | presa-migrate/includes/class-presa-prestashop-client.php:157-178 | the accumulating loop builds exactly the list items of the products |
| PrestaClient.GetProductsListPage | presa-migrate/includes/class-presa-prestashop-client.php:122-183 | first sends the sorted page request with "offset,limit" after clamping; sends a second, unsorted request exactly when the sorted answer is empty; an error of the last request passes through; otherwise the page holds that answer's items, and has_more holds exactly when the raw count equals the limit |
| PrestaClient.FallbackUrls | presa-migrate/includes/class-presa-prestashop-client.php:209-248 | four fallbacks in dispatcher mode, three in api mode, and the unsorted first page is the last |
| PrestaClient.TryInOrder | presa-migrate/includes/class-presa-prestashop-client.php:209-248 | sends a prefix of the fallbacks in order; stops at the first usable answer; every earlier answer was unusable; the result is the last answer |
| PrestaClient.GetProductRaw | presa-migrate/includes/class-presa-prestashop-client.php:192-249 | the direct request comes first; it is returned alone exactly when it succeeded or failed with anything other than a presa_api_error mentioning 404; otherwise the fallbacks follow in order, stopping at the first usable answer |
| PrestaClient.DirectNotFoundFallsBack | presa-migrate/includes/class-presa-prestashop-client.php:199-205 | a direct 404 always leads to the first fallback request |
| PrestaClient.FetchProductsPage | presa-migrate/includes/class-presa-prestashop-client.php:444-466 | one page request, repeated unsorted exactly when the sorted answer is empty; the result is the last answer |
| PrestaClient.GetCategory | presa-migrate/includes/class-presa-prestashop-client.php:657-666 | one request for categories/<id> with display=full; an error passes through; otherwise yields the `category` entry, or an empty array when there is none |
| PrestaClient.GetProductImageUrl | presa-migrate/includes/class-presa-prestashop-client.php:674-683 | the URL of images/products/<product>/<image>: in dispatcher mode the path is in `url` and ws_key is the key as it is; in api mode the path follows /api/ and ws_key is the rawurlencoded key |
| ProductLookup.ClassifyPageSound | presa-migrate/includes/class-presa-prestashop-client.php:539-569 | a page counts as a hit only for a product with the requested id and a non-empty name or a price that is set and not "" |
| ProductLookup.Pages | presa-migrate/includes/class-presa-prestashop-client.php:550-606 | the page oracle of the scans only reports acceptable hits, and sends one or two requests per page |
| ProductLookup.SortedOffsets | presa-migrate/includes/class-presa-prestashop-client.php:550-552 | exactly the 40 offsets 0, 250, …, 9750 |
| ProductLookup.ScanSound | presa-migrate/includes/class-presa-prestashop-client.php:550-606 | whatever a scan finds has the requested id and carries data |
| ProductLookup.ScanBound | presa-migrate/includes/class-presa-prestashop-client.php:550-606 | a scan sends at least one request when it has an offset, and at most two per offset |
| ProductLookup.ScanGoesOn | presa-migrate/includes/class-presa-prestashop-client.php:556-604 | a full page without a hit moves on to the next offset, and so does an unusable page in the unsorted scan; the sorted scan stops on an error, an empty page or a short page |
| ProductLookup.ScanPages | presa-migrate/includes/class-presa-prestashop-client.php:550-606 | the scan loop finds and sends exactly what the scan definition does |
| ProductLookup.LikelyOffsets | presa-migrate/includes/class-presa-prestashop-client.php:578-588 | the loop builds exactly UnsortedOffsets(id): floor((id-1)/250)*250 comes first when id > 0; no offset repeats; all 40 page offsets are present; nothing else is; 41 offsets when the likely one lies beyond the 40 pages, otherwise 40 |
| ProductLookup.UnsortedOffsetsShape | presa-migrate/includes/class-presa-prestashop-client.php:578-588 | the offsets of the unsorted scan: the likely page first when id > 0, no repeats, every page offset 0 … 9750, nothing else, 41 or 40 of them |
| ProductLookup.AddPagesKeeps | presa-migrate/includes/class-presa-prestashop-client.php:583-588 | appending the remaining page offsets, each only when new, ends with all 40 page offsets, no repeats and nothing else |
| ProductLookup.AddPageKeeps | presa-migrate/includes/class-presa-prestashop-client.php:584-587 | appending one page offset when it is new keeps the shape one page further |
| ProductLookup.UnsortedOffsetsLength | presa-migrate/includes/class-presa-prestashop-client.php:578-588 | at most 41 offsets |
| ProductLookup.Scans | presa-migrate/includes/class-presa-prestashop-client.php:550-606 | the sorted scan's hit; else the unsorted scan's hit; else empty; the result is empty or acceptable, within 2·40 + 2·41 requests |
| ProductLookup.ScansOrder | presa-migrate/includes/class-presa-prestashop-client.php:550-606 | a sorted hit ends the lookup after the sorted scan's requests; otherwise the unsorted scan runs after it and its hit, or nothing, is the answer |
| ProductLookup.OffsetLookup | presa-migrate/includes/class-presa-prestashop-client.php:502-529 | one request (sort by id, limit "id-1,1"); the product is kept only when its scalar id is the requested one, otherwise empty |
| ProductLookup.ScanLookup | presa-migrate/includes/class-presa-prestashop-client.php:550-606 | the two scan loops find and send exactly what Scans does: the result is empty or an acceptable product, within 2·40 + 2·41 requests |
| ProductLookup.ListAnswer | presa-migrate/includes/class-presa-prestashop-client.php:498-606 | the first page's entry with the id and no request; else (id > 0) the offset request's product when it has a name; else the scans after the offset request; whatever is found carries the requested id; within the request bound |
| ProductLookup.ListLookup | presa-migrate/includes/class-presa-prestashop-client.php:498-606 | the `products` branch finds and sends exactly what ListAnswer does |
| ProductLookup.Answer | presa-migrate/includes/class-presa-prestashop-client.php:493-606 | a non-empty array at prestashop.product, else one at product, with no request; else the `products` branch's answer; else an empty array |
| ProductLookup.FindInAnswer | presa-migrate/includes/class-presa-prestashop-client.php:493-606 | the wrapper lookup finds and sends exactly what Answer does |
| ProductLookup.FinishProduct | presa-migrate/includes/class-presa-prestashop-client.php:611-629 | the final product is an empty array (not found) or has data and a scalar string id |
| ProductLookup.GetProduct | presa-migrate/includes/class-presa-prestashop-client.php:475-653 | the raw fetch's requests come first; its error passes through unchanged; otherwise the answer is FinishProduct of Answer over the unwrapped answer, and the requests are the raw fetch's then Answer's: an empty array or a product with a name or price and a scalar id, within the request bound |
| PrestaDb.ArgOrOption | presa-migrate/includes/class-presa-prestashop-db.php:87-99 | a non-empty argument wins; otherwise the option; otherwise the default |
| PrestaDb.ResolveBaseUrl | presa-migrate/includes/class-presa-prestashop-db.php:100 | the base URL never ends in '/'; a given one is that URL with trailing '/' removed |
| PrestaDb.ResolvePort | presa-migrate/includes/class-presa-prestashop-db.php:103-106 | the port is positive; a positive argument is kept; otherwise the option or 3306 |
| PrestaDb.ResolveSettings | presa-migrate/includes/class-presa-prestashop-db.php:87-107 | the constructor's settings combine the defaults above |
| PrestaDb.LangId | presa-migrate/includes/class-presa-prestashop-db.php:165-171 | the configured language id when it is ≥ 1, else 2 |
| PrestaDb.ShopIdResolution | presa-migrate/includes/class-presa-prestashop-db.php:195-216 | a configured numeric shop_id wins; otherwise no shop exactly when there is no connection, no shop table or no active shop |
| PrestaTables.FirstActiveShopLeast | presa-migrate/includes/class-presa-prestashop-db.php:203-213 | the chosen shop is active and has the lowest id among the active shops; None exactly when there is none |
| PrestaDb.ShopIdMemo | presa-migrate/includes/class-presa-prestashop-db.php:196-198 | resolving again from a memoised value gives that value |
| PrestaDb.Db.GetShopId | presa-migrate/includes/class-presa-prestashop-db.php:195-216 | returns the shop id the state determines and memoises it in shop_id_resolved; the resolution is unchanged |
| PrestaDb.ShopFilterSql | presa-migrate/includes/class-presa-prestashop-db.php:225-235 | the filter is "" exactly when there is no shop; otherwise " AND alias.id_shop = <id>" |
| PrestaDb.FilterShop | presa-migrate/includes/class-presa-prestashop-db.php:225-235 | no filter when the table lacks id_shop; otherwise the resolved shop |
| PrestaDb.Db.GetShopFilter | presa-migrate/includes/class-presa-prestashop-db.php:225-235 | returns the filter for the resolved shop; the memo only moves to the resolved value |
| PrestaDb.ClampLimit | presa-migrate/includes/class-presa-prestashop-db.php:253-254 | the limit is clamped to [1, 500] and kept when inside |
| PrestaDb.ListSpecPromise | presa-migrate/includes/class-presa-prestashop-db.php:244-285 | at most limit products, in ascending id order; has_more exactly when more rows exist after the window |
| PrestaDb.PageOfWindow | presa-migrate/includes/class-presa-prestashop-db.php:259-280 | fetching limit + 1 rows and keeping limit gives has_more exactly when more than offset + limit rows exist |
| DbShape.ListPageOf | presa-migrate/includes/class-presa-prestashop-db.php:265-280 | at most limit items, each the row's list item; has_more exactly when more than limit rows came back |
| DbShape.ShapeListRows | presa-migrate/includes/class-presa-prestashop-db.php:265-280 | the row loop builds exactly that page |
| PrestaDb.Db.GetProductsList | presa-migrate/includes/class-presa-prestashop-db.php:244-285 | returns the list page of the resolved shop; the memo only moves to the resolved value |
| DbShape.ImageUrl | presa-migrate/includes/class-presa-prestashop-db.php:293-302 | "" when the id is ≤ 0 or the base URL is empty; otherwise a URL under base + "/img/p/" |
| DbShape.DigitPathShape | presa-migrate/includes/class-presa-prestashop-db.php:297-300 | the digit path interleaves the id's digits with '/' |
| PrestaTables.LangFallbackLeast | presa-migrate/includes/class-presa-prestashop-db.php:355-370 | the fallback language row is the product's row with the lowest id_lang |
| DbShape.LangColumns | presa-migrate/includes/class-presa-prestashop-db.php:355-370 | name, description and short description come from the configured language when its name is not blank, otherwise all three from the fallback row |
| DbShape.CategoryList | presa-migrate/includes/class-presa-prestashop-db.php:391-406 | the category_product ids in row order, followed by id_category_default only when it is > 0 and not already present |
| DbShape.CollectCategories | presa-migrate/includes/class-presa-prestashop-db.php:391-406 | the row loop builds exactly that list |
| DbShape.ImageUrlsComplete | presa-migrate/includes/class-presa-prestashop-db.php:409-423 | with a base URL and positive ids, there is one image URL per image row, in order |
| DbShape.CollectImages | presa-migrate/includes/class-presa-prestashop-db.php:409-423 | the image loop collects the ids in row order and the non-empty URLs |
| PrestaTables.ImageRowsOrdered | presa-migrate/includes/class-presa-prestashop-db.php:409-415 | image rows come in (cover DESC, position ASC) order |
| DbShape.DefaultImage | presa-migrate/includes/class-presa-prestashop-db.php:425-437 | null exactly when there is no image; otherwise the cover image, else the first |
| DbShape.DefaultImageOfProduct | presa-migrate/includes/class-presa-prestashop-db.php:425-437 | the default image is one of the product's images, and the cover one when a cover exists |
| PrestaDb.ProductDefaultImage | presa-migrate/includes/class-presa-prestashop-db.php:425-437 | the same, for the product array: id_default_image is null exactly when the product has no images |
| DbShape.LogoUrls | presa-migrate/includes/class-presa-prestashop-db.php:451-460 | none when id_manufacturer ≤ 0 or the base URL is empty; otherwise /img/m/<id>.jpg then .png |
| DbShape.ManufacturerName | presa-migrate/includes/class-presa-prestashop-db.php:784-807 | trimmed; the manufacturer name when it is not blank; otherwise only the manufacturer_lang name of the language, when that table exists |
| PrestaDb.ProductSpec | presa-migrate/includes/class-presa-prestashop-db.php:310-490 | a connection error yields db_connect; otherwise an array; an unknown product yields the empty array |
| PrestaDb.ProductPromise | presa-migrate/includes/class-presa-prestashop-db.php:462-489 | for a known product, the array records: the id as a string; name and descriptions from the configured language when its name is not blank, else from the lowest-id language row; the category_product ids then the default category; the image ids, their URLs and the default image; the manufacturer logo URLs; and get_combinations of the product |
| PrestaDb.ProductValNames | presa-migrate/includes/class-presa-prestashop-db.php:462-468 | id, name, description and short description of the product array |
| PrestaDb.ProductValLinks | presa-migrate/includes/class-presa-prestashop-db.php:478-489 | logo URLs, associations.categories and associations.images as id entries, the default image, image_urls and combinations of the product array |
| PrestaDb.Db.GetProduct | presa-migrate/includes/class-presa-prestashop-db.php:310-490 | returns the product array of the resolved shop; the memo only moves to the resolved value |
| PrestaDb.Db.ProductParts | presa-migrate/includes/class-presa-prestashop-db.php:373-460 | the stock, category, image, combination and manufacturer steps compute exactly the product's parts |
| PrestaDb.Db.CombinationShop | presa-migrate/includes/class-presa-prestashop-db.php:439-446 | the shop passed to get_combinations is id_shop_default when product has that column and the value is set and not "", else get_shop_id |
| PrestaDb.HasCombinationsIff | presa-migrate/includes/class-presa-prestashop-db.php:498-514 | has_combinations holds exactly when the connection works, product_attribute exists and a row names the product |
| DbCombinations.SkuOf | presa-migrate/includes/class-presa-prestashop-db.php:587-590 | never empty: the trimmed row reference, or, when that is blank, trim(product reference) + "-" + id_product_attribute |
| DbCombinations.PriceImpact | presa-migrate/includes/class-presa-prestashop-db.php:592-601 | without a positive shop and product_attribute_shop, the row price (0 when null) |
| DbCombinations.ShopPriceOverrides | presa-migrate/includes/class-presa-prestashop-db.php:592-601 | a shop price that is set and not "" replaces the row price |
| DbCombinations.IndexOf | presa-migrate/includes/class-presa-prestashop-db.php:580-586 | the position of the first entry with the key; -1 exactly when there is none |
| DbCombinations.Put | presa-migrate/includes/class-presa-prestashop-db.php:580-586 | `$combos[$paid] = …` keeps an existing key's position and appends a new one |
| DbCombinations.PutKeys | presa-migrate/includes/class-presa-prestashop-db.php:580-586 | storing an entry adds its key at the end only when the key is new |
| DbCombinations.BaseCombosKeys | presa-migrate/includes/class-presa-prestashop-db.php:574-603 | the entries' keys are the distinct id_product_attribute values, in first-seen order |
| DbCombinations.BuildBase | presa-migrate/includes/class-presa-prestashop-db.php:574-603 | the first loop builds exactly the base entries |
| DbCombinations.UpdateEach | presa-migrate/includes/class-presa-prestashop-db.php:614-660 | each enrichment pass updates every entry in place and keeps the order |
| DbCombinations.Combinations | presa-migrate/includes/class-presa-prestashop-db.php:569-573 | [] when product_attribute, attribute or attribute_group is missing |
| DbCombinations.CombinationsOrder | presa-migrate/includes/class-presa-prestashop-db.php:574-662 | with the tables present, one entry per distinct id_product_attribute, in insertion order |
| DbCombinations.CombinationsFromRows | presa-migrate/includes/class-presa-prestashop-db.php:587-602 | each entry's SKU and price impact are those of a product_attribute row with its id |
| DbCombinations.CombinationAttributes | presa-migrate/includes/class-presa-prestashop-db.php:627-646 | each entry's attributes are the attribute query's rows, ordered by group position then value position; none when the query fails |
| DbCombinations.CombinationImageSet | presa-migrate/includes/class-presa-prestashop-db.php:648-660 | with product_attribute_image present and a non-empty id_image, the entry takes that image and its URL; otherwise it has none |
| DbCombinations.GetCombinations | presa-migrate/includes/class-presa-prestashop-db.php:556-663 | the method with its loops returns exactly the combinations |
| PrestaTables.AttrRowsOrdered | presa-migrate/includes/class-presa-prestashop-db.php:635 | the attribute rows are sorted by (group position, value position) |
| PrestaDb.Db.LoadCombinations | presa-migrate/includes/class-presa-prestashop-db.php:522-543 | the combinations of the product under the resolved shop; the memo is then resolved when connected |
| PrestaDb.Db.GetCombinationsForProduct | presa-migrate/includes/class-presa-prestashop-db.php:522-543 | the combinations in the configured language |
| PrestaDb.VariationsSpec | presa-migrate/includes/class-presa-prestashop-db.php:673-722 | one variation per combination; none without a connection |
| DbCombinations.VariationRenames | presa-migrate/includes/class-presa-prestashop-db.php:698-720 | each variation attribute's `group` and `value` are the combination attribute's `group_name` and `value_name` |
| PrestaDb.MapVariations | presa-migrate/includes/class-presa-prestashop-db.php:695-721 | the loop maps every combination to its variation |
| PrestaDb.Db.GetProductVariations | presa-migrate/includes/class-presa-prestashop-db.php:673-722 | returns the variations of the resolved shop |
| DbShape.NormalizeAttrSlug | presa-migrate/includes/class-presa-prestashop-db.php:730-734 | "pa_" + the sanitized group name; never "pa_" alone or "pa_0" |
| PrestaDb.CategorySpec | presa-migrate/includes/class-presa-prestashop-db.php:815-842 | none without a connection |
| PrestaDb.CategoryPromise | presa-migrate/includes/class-presa-prestashop-db.php:815-842 | a found category records its id as a string, a set name and link_rewrite, and its parent as a string |
| PrestaDb.Db.GetCategory | presa-migrate/includes/class-presa-prestashop-db.php:815-842 | returns the category of the resolved shop |
| PrestaDb.Db.constructor | presa-migrate/includes/class-presa-prestashop-db.php:87-107 | the reader starts with the resolved settings and no memoised shop |
| MapperRules.AttrSlug | presa-migrate/includes/class-presa-mapper.php:722-728 | an attribute taxonomy slug always starts with "pa_" and goes on |
| MapperRules.AttrSlugSourcesAgree | presa-migrate/includes/class-presa-mapper.php:722-728 | the mapper's and the database's slugs agree except when the sanitized name is "0" (pa_option vs pa_0) |
| MapperRules.OwnTermSlug | presa-migrate/includes/class-presa-mapper.php:736-742 | a term slug is never empty |
| MapperRules.AttributeLabelShape | presa-migrate/includes/class-presa-mapper.php:1011-1012 | the attribute label is the slug without "pa_", '-' and '_' turned into spaces, first letter upper-cased |
| MapperRules.StripPaPrefix | presa-migrate/includes/class-presa-mapper.php:1011 | removing "pa_" from "pa_" + slug gives the slug back |
| MapperRules.ChainEndsMonotone | presa-migrate/includes/class-presa-mapper.php:126-129 | a parent chain that ends within d steps ends within any larger bound |
| MapperRules.SelfParentNeverEnds | presa-migrate/includes/class-presa-mapper.php:126-129 | a category that is its own parent has no finite chain |
| ProductMapper.Mapper.constructor | presa-migrate/includes/class-presa-mapper.php:50-52 | the mapper starts with empty category, brand-taxonomy and brand-image caches |
| ProductMapper.Mapper.GetOrCreateCategory | presa-migrate/includes/class-presa-mapper.php:110-146 | a cached id returns the cached term and changes nothing; otherwise the id is resolved and the result, even null, is cached; a result is a product_cat term |
| ProductMapper.Mapper.ResolveCategory | presa-migrate/includes/class-presa-mapper.php:114-146 | a fetch failure or an empty name caches null; otherwise the parent is resolved first and its term id becomes the parent |
| ProductMapper.Mapper.ResolveUsable | presa-migrate/includes/class-presa-mapper.php:121-146 | the slug is link_rewrite when non-empty, else the name; the parent is 0 when id_parent ≤ 0 or unresolved |
| ProductMapper.Mapper.FindOrInsertCategory | presa-migrate/includes/class-presa-mapper.php:130-145 | an existing slug is reused without insert; otherwise the term is inserted; the outcome is cached |
| ProductMapper.Mapper.CategoryOfAssoc | presa-migrate/includes/class-presa-mapper.php:159-167 | an association without a positive id adds nothing; for a positive id the answer is the term the cache now holds for it, 0 for a cached null, and it is a product_cat term; an id not already resolved is resolved now; 0 only when the category cannot be fetched, has no usable name, or product_cat is missing or refuses its name |
| ProductMapper.NonZero | presa-migrate/includes/class-presa-mapper.php:163-165 | keeps exactly the non-zero entries, in order |
| ProductMapper.ResolvedBySnoc | presa-migrate/includes/class-presa-mapper.php:159-167 | the resolutions of the loop so far stay valid as the cache and the terms grow, and one more association's resolution is appended |
| ProductMapper.ResolvedByGrows | presa-migrate/includes/class-presa-mapper.php:159-167 | every condition of a resolution (a held term, a term cached before, a zero only with cause) stays true for a larger cache and term list, an earlier start cache and fewer taxonomies |
| ProductMapper.CatsResolvedGrows | presa-migrate/includes/class-presa-mapper.php:154-169 | the categories of a product stay the resolved ones as the store grows after get_wc_category_ids |
| ProductMapper.Mapper.ResolveAssocs | presa-migrate/includes/class-presa-mapper.php:159-167 | the loop resolves every association in order, one resolution each: 0 only for an id that is not positive or a category that cannot be resolved, a held product_cat term otherwise; it collects the non-zero ones |
| ProductMapper.Mapper.GetWcCategoryIds | presa-migrate/includes/class-presa-mapper.php:154-169 | one resolution per association, in order (0 for an id that is not positive or a category that cannot be resolved, the cached term otherwise, a term cached before the call kept); the ids are the non-zero resolutions without repeats; none when the product has no categories |
| ProductMapper.Mapper.EnsureAttributeTaxonomy | presa-migrate/includes/class-presa-mapper.php:1005-1044 | an existing attribute keeps its id; otherwise it is created with the derived label and its taxonomy is registered; terms and products are unchanged |
| ProductMapper.Mapper.GetOrCreateAttributeTerm | presa-migrate/includes/class-presa-mapper.php:1066-1088 | the trimmed value is found by slug, then by name, else inserted; an empty value gives none |
| ProductMapper.TermAvailableGrows | presa-migrate/includes/class-presa-mapper.php:1066-1088 | a value that can get a term from some terms can get one from any longer list of terms |
| ProductMapper.RecordedValues | presa-migrate/includes/class-presa-mapper.php:583-589 | the recorded values are values of the list that have a slug-map entry; there are none exactly when no value of the list has one |
| ProductMapper.TermsForAppend | presa-migrate/includes/class-presa-mapper.php:584-588 | a value that got a term adds that term id at the end of the ids, and its slug to the map, keeping the earlier values' terms |
| ProductMapper.CollectedSkip | presa-migrate/includes/class-presa-mapper.php:584-588 | a value that got no term adds nothing, and it had no term available from the start either |
| ProductMapper.Mapper.CollectTerm | presa-migrate/includes/class-presa-mapper.php:584-588 | a term is found or created exactly when the trimmed value is non-blank and has a term by slug or name, or product attribute terms can be inserted for it; its id is then appended and its slug recorded under (taxonomy, value); otherwise nothing changes |
| ProductMapper.Mapper.CollectNext | presa-migrate/includes/class-presa-mapper.php:583-589 | one value more keeps the ids equal to the terms of the recorded values, in order, and keeps every value with a term available at the start recorded |
| ProductMapper.Mapper.AttributeTerms | presa-migrate/includes/class-presa-mapper.php:582-589 | for distinct values: the ids are exactly the terms of the recorded values, in order; every value with a term available at the start is recorded; entries of other taxonomies are kept; none is recorded exactly when there are no ids |
| ProductMapper.Mapper.AddAttribute | presa-migrate/includes/class-presa-mapper.php:576-601 | the attribute of a taxonomy is appended exactly when some value of it was recorded, its options being those terms; every value with a term available at the start is recorded; only that taxonomy may be registered |
| ProductMapper.AttributeStep | presa-migrate/includes/class-presa-mapper.php:576-602 | one taxonomy more keeps the options of every attribute equal to the terms of its recorded values, and every available value of the taxonomies done recorded |
| ProductMapper.Mapper.ResolveNext | presa-migrate/includes/class-presa-mapper.php:576-602 | one iteration of the taxonomy loop keeps the attribute names, the option terms and the recorded values the loop promises, over the taxonomies done |
| ProductMapper.GroupedBuilt | presa-migrate/includes/class-presa-mapper.php:553-607 | the attributes resolved from the grouped pairs are exactly those the pairs call for: names in first-seen order, options the terms of the recorded values, every available pair recorded and nothing else |
| ProductMapper.BuiltFromGrows | presa-migrate/includes/class-presa-mapper.php:553-607 | the built attributes stay what the pairs call for after more terms are created |
| VariationRules.ComboPair | presa-migrate/includes/class-presa-mapper.php:556-565 | an attribute pair exists exactly when the trimmed group and value are non-empty; its taxonomy starts with "pa_" |
| VariationRules.GroupFirstSeen | presa-migrate/includes/class-presa-mapper.php:556-573 | taxonomies in first-seen order, each with its distinct values in first-seen order |
| VariationRules.GroupShape | presa-migrate/includes/class-presa-mapper.php:556-573 | a taxonomy is listed exactly when some pair names it; a value is listed exactly when the pair occurs; a listed taxonomy has a value |
| VariationRules.AddPair | presa-migrate/includes/class-presa-mapper.php:567-572 | a new taxonomy goes last; a value is recorded once per taxonomy |
| ProductMapper.Mapper.ResolveAttributes | presa-migrate/includes/class-presa-mapper.php:576-602 | one attribute per taxonomy that got at least one recorded value, in taxonomy order; each attribute's options are the terms of its recorded values, in value order, each a term of the taxonomy whose slug or name is the trimmed value; the slug map holds that term's slug; every value with a term available at the start is recorded |
| ProductMapper.Mapper.BuildAttributesFromCombinations | presa-migrate/includes/class-presa-mapper.php:553-607 | the attributes of the combination pairs, with attribute ids set: one per taxonomy with a recorded value, in first-seen order; its options the terms of the taxonomy's distinct recorded values, in order; every pair with a term available at the start recorded, and only pairs |
| ProductMapper.Mapper.BuildLegacyAttributes | presa-migrate/includes/class-presa-mapper.php:410-445 | the same for the pairs of the legacy variations, without attribute ids |
| VariationRules.CombinationVariation | presa-migrate/includes/class-presa-mapper.php:652-678 | a variation of the parent: price = base + price_impact; stock managed with the combination's quantity; instock exactly when the quantity is > 0; the combination's SKU |
| VariationRules.MissesOf | presa-migrate/includes/class-presa-mapper.php:626-638 | a combination counts as missing attributes, stock or image exactly when it lacks each |
| VariationRules.TallyCounts | presa-migrate/includes/class-presa-mapper.php:626-638 | the missing_* counters count every combination, skipped or not |
| VariationRules.Append | presa-migrate/includes/class-presa-mapper.php:639-690 | a taken SKU or a refused save leaves the run as it was; otherwise the variation is appended and counted |
| VariationRules.FirstAttrsFirst | presa-migrate/includes/class-presa-mapper.php:691-694 | the default attributes are those of the first created variation whose attributes are non-empty |
| VariationRules.FoldSkus | presa-migrate/includes/class-presa-mapper.php:639-647 | the loop never creates a second live product with a non-empty SKU: SKUs stay unique and new ones are fresh |
| VariationRules.FoldShape | presa-migrate/includes/class-presa-mapper.php:618-703 | the loop only appends live variations of the parent |
| ProductMapper.Mapper.SaveCombination | presa-migrate/includes/class-presa-mapper.php:639-690 | one step of the loop is exactly the step function on the run |
| ProductMapper.Mapper.SaveCombinations | presa-migrate/includes/class-presa-mapper.php:618-703 | the loop's products, created count and first defaults are the fold; the counters are the tallies |
| ProductMapper.Mapper.CreateVariationsFromCombinations | presa-migrate/includes/class-presa-mapper.php:618-703 | the same, for the candidates made from the product's combinations |
| VariationRules.LegacyVariation | presa-migrate/includes/class-presa-mapper.php:453-475 | a legacy variation of the parent, priced exactly when a price is set, instock exactly when its quantity is > 0 |
| MapperRules.NormalizeBrandName | presa-migrate/includes/class-presa-mapper.php:945-953 | trimmed and single-spaced; a blank name gives "" |
| MapperRules.BrandTaxonomyOf | presa-migrate/includes/class-presa-mapper.php:960-970 | product_brand if registered, else presa_product_brand if registered, else ""; a non-empty answer is registered |
| ProductMapper.Mapper.GetBrandTaxonomy | presa-migrate/includes/class-presa-mapper.php:960-970 | the first call fixes the taxonomy in the cache; later calls return it unchanged |
| MapperRules.BrandSlug | presa-migrate/includes/class-presa-mapper.php:983-986 | the brand slug is never empty: sanitize_title of the name when non-empty |
| ProductMapper.Mapper.GetOrCreateBrandTerm | presa-migrate/includes/class-presa-mapper.php:979-997 | an existing slug's term is reused; otherwise a term is inserted; a result is a term of the taxonomy |
| ProductRules.BrandTermReused | presa-migrate/includes/class-presa-mapper.php:987-991 | a second get-or-create for the same name returns the same term and inserts nothing |
| MapperRules.FirstLogo | presa-migrate/includes/class-presa-mapper.php:879-933 | the first candidate URL that answers 200 with an image/* type (any case) and sideloads; none when no candidate does |
| ProductMapper.Mapper.MaybeSetBrandImage | presa-migrate/includes/class-presa-mapper.php:856-937 | nothing when the term has a thumbnail; a cached manufacturer reuses its attachment; otherwise the first good logo becomes the thumbnail and is cached |
| ProductRules.BrandLogoCached | presa-migrate/includes/class-presa-mapper.php:860-932 | after a logo is found for a manufacturer, the next term of that manufacturer gets the same attachment with no new download |
| ProductRules.BrandName | presa-migrate/includes/class-presa-mapper.php:807-823 | no manufacturer name gives none; otherwise the normalised name |
| ProductMapper.Mapper.SetProductBrand | presa-migrate/includes/class-presa-mapper.php:802-845 | no brand when the name or taxonomy is empty; otherwise the term is assigned and its logo considered; products unchanged |
| ProductMapper.Mapper.AssignBrand | presa-migrate/includes/class-presa-mapper.php:825-837 | the brand taxonomy is resolved; the term is assigned to the product |
| MapperRules.ProductName | presa-migrate/includes/class-presa-mapper.php:752-755 | never empty: the first-language name when truthy (so "0" also falls back), else "Proizvod #<id>" |
| MapperRules.PublishedIffTruthy | presa-migrate/includes/class-presa-mapper.php:761 | status is publish exactly when `active` is non-empty and not "0", else draft |
| MapperRules.BaseDataImages | presa-migrate/includes/class-presa-mapper.php:774-783 | the first image is featured and the rest form the gallery; the categories are set when there are any |
| MapperRules.StockStatusOf | presa-migrate/includes/class-presa-mapper.php:380 | instock exactly when the quantity is > 0, else outofstock |
| MapperRules.WithSimpleData | presa-migrate/includes/class-presa-mapper.php:366-379 | a simple product takes the price, managed stock, quantity with its status, and the reference as SKU when non-empty |
| MapperRules.QuantityDefaults | presa-migrate/includes/class-presa-mapper.php:373-376 | an absent or "" quantity is 0; an integer quantity is taken as it is |
| MapperRules.KindFor | presa-migrate/includes/class-presa-mapper.php:185-203 | variable exactly when there are combinations or variations; never a variation |
| MapperRules.RetypeKind | presa-migrate/includes/class-presa-mapper.php:229-245 | a product_variation post keeps its variation type whatever the data; any other product takes the kind the data calls for |
| ProductRules.UpsertKind | presa-migrate/includes/class-presa-mapper.php:215-245 | the kind of the saved product: the data's kind unless the existing product is a variation |
| ProductMapper.Mapper.SetBaseData | presa-migrate/includes/class-presa-mapper.php:751-793 | the product takes the base data with the categories get_wc_category_ids resolves from its associations: the non-zero resolutions in order, without repeats, none dropped without cause |
| ProductRules.SimpleProduct | presa-migrate/includes/class-presa-mapper.php:362-389 | a live simple product without parent or attributes, with price, managed stock and status from the quantity |
| ProductMapper.Mapper.CreateSimple | presa-migrate/includes/class-presa-mapper.php:362-389 | the store ends as the simple-product outcome: appended on save, unchanged on failure; the categories are the resolved ones |
| ProductRules.SimpleShape | presa-migrate/includes/class-presa-mapper.php:379-389 | a successful creation appends exactly one new simple product and returns its id |
| ProductRules.VariableParent | presa-migrate/includes/class-presa-mapper.php:500-505 | the variable parent has no price, SKU or stock management, and carries the attributes |
| ProductMapper.Mapper.CreateFromCombinations | presa-migrate/includes/class-presa-mapper.php:489-545 | without WooCommerce an error and no change; no combinations falls back to simple; otherwise the combination outcome, with the resolved categories and the attributes the combination pairs call for |
| ProductRules.ComboShape | presa-migrate/includes/class-presa-mapper.php:489-545 | a success appends a variable parent and its variations and returns the parent |
| ProductMapper.Mapper.SetDefaults | presa-migrate/includes/class-presa-mapper.php:529-535 | the parent's default attributes are the first defaults |
| ProductRules.DefaultsOnParent | presa-migrate/includes/class-presa-mapper.php:529-535 | only the parent's default attributes change, and only when there are defaults and the save is accepted |
| ProductMapper.Mapper.CreateVariableLegacy | presa-migrate/includes/class-presa-mapper.php:400-479 | without WooCommerce an error and no change; otherwise the legacy outcome, with the resolved categories and the attributes the variations' pairs call for |
| ProductRules.LegacyVariations | presa-migrate/includes/class-presa-mapper.php:453-475 | one legacy variation per entry of `variations` |
| ProductRules.LegacyShape | presa-migrate/includes/class-presa-mapper.php:400-479 | a success appends a variable parent and its variations and returns the parent |
| ProductMapper.Mapper.CreateProduct | presa-migrate/includes/class-presa-mapper.php:179-204 | no WooCommerce gives an error and no change; otherwise combinations, then variations, then simple, with the resolved categories and, for a variable product, the attributes its pairs call for |
| ProductRules.CreatedShape | presa-migrate/includes/class-presa-mapper.php:179-204 | a creation succeeds with a new product of the kind the data calls for |
| ProductMapper.Mapper.DeleteVariations | presa-migrate/includes/class-presa-mapper.php:229-237 | a variable product's live variations are deleted; nothing else changes |
| ProductRules.OrphanedHasNoChildren | presa-migrate/includes/class-presa-mapper.php:229-237 | after the deletion the product has no live variations |
| ProductRules.OrphanedKeeps | presa-migrate/includes/class-presa-mapper.php:229-237 | the deletion touches only the deleted flags of that product's variations |
| ProductRules.Retyped | presa-migrate/includes/class-presa-mapper.php:238-245 | the existing product keeps its id and is re-typed from the new data, except that a variation found by SKU stays a variation |
| ProductRules.RetypedShape | presa-migrate/includes/class-presa-mapper.php:229-245 | after re-typing, the product has the kind the data calls for (a variation stays a variation), and a formerly variable one has no children |
| ProductMapper.Mapper.UpdateExisting | presa-migrate/includes/class-presa-mapper.php:221-352 | the store ends as the update outcome of the existing product, with the resolved categories and the attributes the pairs call for |
| ProductRules.UpdatedShape | presa-migrate/includes/class-presa-mapper.php:221-352 | an update returns the existing id; keeps the product's position; records the PrestaShop id; adds only variations of it |
| ProductRules.UpdateSavesKeep | presa-migrate/includes/class-presa-mapper.php:253-348 | the update's saves leave every other product as it was |
| ProductMapper.Mapper.CreateOrUpdate | presa-migrate/includes/class-presa-mapper.php:215-352 | the store ends as the upsert outcome: woocommerce_missing without WooCommerce; creation when the existing id is ≤ 0; product_not_found when it names no live product; otherwise the update; when it gets to the mapper, the categories are the resolved ones and a variable product's attributes are those its pairs call for |
| ProductRules.UpsertShape | presa-migrate/includes/class-presa-mapper.php:215-352 | a failure changes nothing; a success returns a product of the data's kind, except that an existing variation stays a variation; the existing id for an update, a new one otherwise |
| RunnerRules.BatchIds | presa-migrate/includes/class-presa-migrate-runner.php:53 | the batch ids are absint of the input with zeros dropped |
| RunnerRules.BatchIdsMembers | presa-migrate/includes/class-presa-migrate-runner.php:53 | an id is processed exactly when it is non-zero and the absolute value of some input |
| RunnerRules.BatchIdsAppend | presa-migrate/includes/class-presa-migrate-runner.php:53 | filtering distributes over concatenation, so the order of the input is kept |
| RunnerRules.NormalizeProduct | presa-migrate/includes/class-presa-migrate-runner.php:189-219 | the normalised product is an array |
| RunnerRules.NormalizeId | presa-migrate/includes/class-presa-migrate-runner.php:193 | the id defaults to the requested id |
| RunnerRules.NormalizeImages | presa-migrate/includes/class-presa-migrate-runner.php:195-202 | associations.images.image is unwrapped into associations.images |
| RunnerRules.NormalizeQuantity | presa-migrate/includes/class-presa-migrate-runner.php:204-216 | a present quantity is kept; an absent or "" one is filled from the first stock_availables entry |
| RunnerRules.NormalizeKeeps | presa-migrate/includes/class-presa-migrate-runner.php:189-219 | every other field is left as it was |
| RunnerRules.FindExisting | presa-migrate/includes/class-presa-migrate-runner.php:152-180 | a found product is live and records the PrestaShop id, or has the reference as its SKU |
| RunnerRules.FindExistingComplete | presa-migrate/includes/class-presa-migrate-runner.php:152-180 | the meta match wins whenever one exists; none means no product records the id and, with the SKU lookup, none has the reference |
| RunnerRules.UrlUploadsFrom | presa-migrate/includes/class-presa-migrate-runner.php:235-284 | an attachment comes from exactly the URLs that pass the image HEAD check and sideload |
| RunnerRules.UrlsFirst | presa-migrate/includes/class-presa-migrate-runner.php:235-284 | a non-empty image_urls list decides the images, whatever the API path could do |
| RunnerRules.ApiImageIdsShape | presa-migrate/includes/class-presa-migrate-runner.php:286-304 | id_default_image comes first, then the association ids, with no duplicates and no zeros |
| RunnerRules.ComboImageShape | presa-migrate/includes/class-presa-migrate-runner.php:340-372 | a combination changes only in variation_image_attachment_id, set only when its image URL passes the check and sideloads |
| RunnerRules.ComboEntries | presa-migrate/includes/class-presa-migrate-runner.php:340-372 | each combination is processed in place, keys and order kept |
| BatchRunner.Runner.UploadUrls | presa-migrate/includes/class-presa-migrate-runner.php:235-284 | the URL loop uploads exactly the accepted URLs |
| BatchRunner.Runner.GatherImageIds | presa-migrate/includes/class-presa-migrate-runner.php:286-304 | the id loop gathers exactly the ordered API image ids |
| BatchRunner.Runner.DownloadImages | presa-migrate/includes/class-presa-migrate-runner.php:305-323 | the download loop keeps exactly the successful downloads |
| BatchRunner.Runner.UploadProductImages | presa-migrate/includes/class-presa-migrate-runner.php:228-325 | the product's image ids: the URL path, else the API path when the source can download |
| BatchRunner.Runner.UploadCombinationImages | presa-migrate/includes/class-presa-migrate-runner.php:332-374 | the combinations with their attachment ids set |
| BatchRunner.PreparedFields | presa-migrate/includes/class-presa-migrate-runner.php:95-103 | combinations are lazy-loaded only for a database source that has some while the payload has none; nothing else changes |
| BatchRunner.Runner.Prepare | presa-migrate/includes/class-presa-migrate-runner.php:93-103 | the prepared product is the normalised one, with combinations loaded when due |
| BatchRunner.Runner.Fetch | presa-migrate/includes/class-presa-migrate-runner.php:66 | the database source fails only without a connection; the client passes on its raw fetch's error; otherwise an array |
| BatchRunner.Runner.Create | presa-migrate/includes/class-presa-migrate-runner.php:122-123 | the creation outcome of the mapper, a new product on success; with WooCommerce the categories and attributes are the resolved ones |
| BatchRunner.Runner.Upsert | presa-migrate/includes/class-presa-migrate-runner.php:117-133 | images are uploaded, then an update of the found product or a recorded creation, over the product with its combination images; with WooCommerce its categories and attributes are the resolved ones |
| BatchRunner.Runner.CreateRecorded | presa-migrate/includes/class-presa-migrate-runner.php:122-127 | a successful creation writes _presa_prestashop_id on the new product; a failure writes nothing; with WooCommerce the categories and attributes are the resolved ones |
| BatchRunner.Runner.Import | presa-migrate/includes/class-presa-migrate-runner.php:112-135 | the store and fate are the import outcome: a found product without updates is skipped with no mapper call; otherwise, with WooCommerce, the categories and attributes are the resolved ones |
| RunnerRules.ImportShape | presa-migrate/includes/class-presa-migrate-runner.php:112-135 | a skip happens exactly when a product was found and updates are off, and changes nothing; a failure changes nothing; an update returns the found product; a creation returns a new product of the data's kind recording the id; an updated variation found by SKU stays a variation |
| RunnerRules.CreatedIsFound | presa-migrate/includes/class-presa-migrate-runner.php:122-167 | a product created for an id is found by the next batch, which skips it without updates |
| BatchRunner.Runner.Handle | presa-migrate/includes/class-presa-migrate-runner.php:66-135 | a fetch error fails the id; an empty answer has no data; anything else is prepared and imported, and an id not skipped has, with WooCommerce, the resolved categories and attributes of that prepared product |
| RunnerRules.MigrateSettled | presa-migrate/includes/class-presa-migrate-runner.php:62-136 | every outcome of one id is settled: products are never removed; failure, no data and skip change nothing; a migrated id names the found or a new recorded product; nothing migrates without WooCommerce |
| BatchRunner.Runner.Migrate | presa-migrate/includes/class-presa-migrate-runner.php:62-136 | one id ends settled |
| RunnerRules.ReportCounts | presa-migrate/includes/class-presa-migrate-runner.php:62-142 | each id ends in exactly one of error, migrated or skip |
| RunnerRules.ReportMigrated | presa-migrate/includes/class-presa-migrate-runner.php:134-142 | (id, wcId) is in `migrated` exactly when that id was migrated to that product |
| RunnerRules.Report | presa-migrate/includes/class-presa-migrate-runner.php:137-142 | total_processed is the number of filtered ids, with one log line each |
| BatchRunner.Runner.RunBatch | presa-migrate/includes/class-presa-migrate-runner.php:52-143 | every filtered id in order ends settled; the report is that of the fates; total_processed is the number of filtered ids |

## Left out

- HTTP transport, media download and sideload, temp files: oracles in `Http`.
- Temp files are not modelled. The media oracle answers, per URL, the HEAD status and content type and the sideloaded attachment.
- `download_product_image` of the client is the media oracle's download.
- The mysqli connection and literal SQL text. The connection is `Server.connectError`. `table()` is the prefix plus the name. `has_column` is the `columns` set.
- `test_connection` of the database reader is not modelled. It only reaches the connection.
- `get_connection` is `Server.connectError`.
- `sanitize_attr_slug` of the database reader is not modelled. Nothing in the core calls it.
- `get_custom_attr_slug` of the mapper is not modelled. Nothing in the core calls it.
- WordPress persistence is the `WcStore.Store` class:
  - `wp_insert_term`, `get_term_by` and `term_exists`;
  - `WC_Product*` objects and `save`, with `sync` not modelled;
  - `wc_get_product_id_by_sku`;
  - post and term meta, as string maps; the core writes `_presa_prestashop_id`, `_presa_id_product_attribute`, `_ean13`, `_upc`, `_isbn` and the term thumbnail.
- `get_attribute_taxonomy_id` is `Store.AttributeId`.
- Attachment titles and the `_presa_imported` attachment meta are not modelled. They only label media.
- `class_exists`/`function_exists` checks for WooCommerce are the single flag `Store.wooActive`.
- sanitize_title, wp_strip_all_tags, esc_url_raw, md5 and add_query_arg are uninterpreted deterministic functions.
- Floats are exact reals. `floatval` reads sign, digits and fraction, without exponents. Float-to-string formatting is not modelled beyond those digits.
- Logging (`presa_migrate_log`, the brand log) is not modelled; it is observability only.
- The debug transients (`set_debug_raw_source`, `set_debug_request2`, `presa_debug_last_*`) are not modelled, for the same reason.
- The diagnostics collected at the end of `get_product` (client lines 631-650) are not modelled, for the same reason.
- The `!$id` check at the top of `run_batch`'s loop is not modelled. It cannot hold after the zero filter.
- The mapper's category source is a parameter of the model. It is not tied to the client at the type level.
- Admin, AJAX and template code is not part of this model. The bootstrap file is not either.
- ProductMapper.Mapper.GetOrCreateCategory: requires the category's parent chain to end (a ghost bound). The source recurses without limit on a cyclic chain.
- BatchRunner.Runner.RunBatch: states per id only the settled shape, not the exact outcome. The exact per-id relation is in `BatchRunner.Runner.Handle` (`Handled`, through `RunnerRules.MigrateOutcome`).
- BatchRunner.Runner.Migrate: states the settled shape only, for the same reason.
- BatchRunner.Runner.Fetch: states the shape of the source's answer, not its contents. The contents are stated by `PrestaDb.Db.GetProduct` and `ProductLookup.GetProduct`.
- BatchRunner.Runner.Prepare: does not restate which combinations are loaded. They are those of `PrestaDb.Db.LoadCombinations`.
- ProductLookup.GetProduct: does not state that the product found carries the requested id. The source does not check that for the `prestashop.product` and `product` wrappers. What the `products` branch finds does carry it (`ProductLookup.ListAnswer`).
- PrestaClient.ParseProductsToList: its own contract covers only the non-array case. The wrapper shapes are lemmas beside it.
- RunnerRules.FindExisting: get_posts' status filter is modelled as "not deleted and not a variation". Among several matches, the newest is taken.
- ProductRules.SimpleProduct: does not model WooCommerce's refusal of a SKU that another product already holds. `set_sku` throws WC_Data_Exception on a duplicate, at class-presa-mapper.php:320, 338, 370 and 472. The model saves the product with the duplicate SKU. Only the combination loop (class-presa-mapper.php:639-647) checks first, and that check is modelled.
- ProductRules.LegacyVariations: the same duplicate-SKU exception for a legacy variation's reference is not modelled.
- ProductMapper.Mapper.CreateSimple: the same; a duplicate reference is saved instead of raising the exception.
- ProductMapper.Mapper.UpdateExisting: the same, for the simple-product and legacy-variation branches of the update.
- ProductMapper.Mapper.UpdateExisting: the reload after the type change (`reload_failed`, class-presa-mapper.php:247-250) never fails in the model.
- RunnerRules.ReportCounts: assumes no exception escapes the mapper. Nothing in the core catches WC_Data_Exception. In the source it ends the whole batch, so no report is returned. The exception and the abort are not modelled.
- BatchRunner.Runner.RunBatch: describes a batch in which no such exception escapes, for the same reason.
- PrestaClient.Snippet: PHP strings are modelled as sequences of characters, not bytes. `substr` is cut at 200 characters, so a body with multibyte characters is cut at a different place than the source's 200 bytes. The same holds for every string length and `trim` in the model.
- PrestaDb.ShopIdFrom: a configured shop id counts as numeric only in decimal notation (sign, digits, fraction). PHP `is_numeric` also accepts exponent notation such as "1e2", and `(int)` then gives 100 (class-presa-prestashop-db.php:199-200). Such a setting is not numeric in the model, which resolves the shop as if none were configured.
- PrestaDb.Db.GetShopId: the same; a shop id written with an exponent is not taken from the settings.
- ProductMapper.Mapper.AttributeTerms: completeness is stated against the terms at the start of the loop. A value whose own insert was refused may still get a term that an earlier value of the same loop created with its slug or name. Such a value is recorded, and the contract does not state the exact condition under which that happens.
- ProductMapper.Mapper.ResolveAttributes: the same, for the whole taxonomy loop. Each option is a term of the taxonomy whose slug is that of the trimmed value or whose name is the trimmed value. Which of several such terms is taken (slug first, then name, else the inserted one) is stated by `ProductMapper.Mapper.GetOrCreateAttributeTerm`, not by the attribute contracts.
- BatchRunner.Runner.RunBatch: does not state the resolved categories and attributes of each id. `BatchRunner.Runner.Handle` states them.
- BatchRunner.Runner.constructor: the source builds the client or database reader from saved options. The model takes the source as a parameter.

## Findings

| source | as written | input that shows it | evidently intended | confidence | as-written member | corrected member |
|---|---|---|---|---|---|---|
| presa-migrate/includes/class-presa-prestashop-db.php:595 | `$r && $pas_row = $r->fetch_assoc() && isset($pas_row['price'])`: `=` binds looser than `&&`, so the test reads `$pas_row` before it is assigned, and `$pas_row` then holds a boolean; the shop price never overrides | a product_attribute_shop row with price 9 for the resolved shop: the fetched row `{price: 9}` passes the intended test, the written one fails | a shop price that is set and not "" replaces the combination price | not executed | DbCombinations.ShopPriceAsWrittenExample | DbCombinations.ShopPriceOverrides |
| presa-migrate/includes/class-presa-prestashop-db.php:652 | the same precedence in the product_attribute_image query: the combination image is never set | a product_attribute_image row with id_image 7: `{id_image: 7}` passes the intended test, the written one fails | a non-empty id_image sets image_id and image_url | not executed | DbCombinations.CombinationImageAsWrittenExample | DbCombinations.CombinationImageSet |
| presa-migrate/includes/class-presa-prestashop-db.php:798 | the same precedence in the manufacturer_lang fallback: a blank manufacturer name is never replaced | a manufacturer_lang row named "Acme" for the language: `{name: "Acme"}` passes the intended test, the written one fails | a blank manufacturer name falls back to the manufacturer_lang name | not executed | DbCombinations.ManufacturerLangAsWrittenExample | DbShape.ManufacturerName |
| presa-migrate/includes/class-presa-prestashop-db.php:763-774 | table_exists is called with `table()`, whose name is already wrapped in backticks, and runs `SHOW TABLES LIKE` on that text; no real table name starts with a backtick, so combinations are never found | present tables ps_product_attribute, ps_attribute, ps_attribute_group with prefix ps_ | table_exists matches the plain prefixed name | not executed | DbCombinations.TableExistsExample | PrestaDb.HasCombinationsIff |

`DbCombinations.FetchTestAsWrittenNever` shows the first three rows hold for any sequence of fetches. Starting from an unset row variable, the written condition never holds. `DbCombinations.TableExistsAsWrittenNever` shows the fourth: no table is found unless some table name starts with a backtick. The rest of the model uses the intended readings.
