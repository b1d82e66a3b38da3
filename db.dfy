/** Presa_Prestashop_Db: the direct-database source. Settings come from the
    constructor's arguments or the stored options; the server is the
    PrestaShop catalogue as rows; the one field the object updates after
    construction is the memoised shop id. */
module PrestaDb {
  import opened Common
  import opened Php
  import Text
  import Sql
  import opened PrestaTables
  import opened DbShape
  import opened DbCombinations

  // ------------------------------------------------------------- settings

  datatype Settings = Settings(host: string, user: string, password: string, dbname: string, prefix: string,
                               baseUrl: string, langIso: string, shopId: string, port: int)

  /** get_option($name, $default) over the stored options. */
  function GetOption(opts: map<string, Val>, name: string, dflt: Val): Val {
    if name in opts then opts[name] else dflt
  }

  /** `$arg !== '' ? $arg : (string) get_option($name, $dflt)` */
  function ArgOrOption(arg: string, opts: map<string, Val>, name: string, dflt: string): (r: string)
    ensures arg != "" ==> r == arg
    ensures arg == "" && name !in opts ==> r == dflt
  {
    if arg != "" then arg else ToStr(GetOption(opts, name, Str(dflt)))
  }

  /** The constructor's defaults: explicit arguments win, then the options,
      then prefix "ps_", language "sr" and port 3306; the base URL loses its
      trailing slashes. */
  function ResolveSettings(host: string, user: string, password: string, dbname: string, prefix: string,
                           baseUrl: string, langIso: string, shopId: string, port: int,
                           opts: map<string, Val>): (s: Settings)
    ensures s.port > 0
    ensures port > 0 ==> s.port == port
    ensures port < 0 ==> s.port == 3306
    ensures port == 0 && "presa_db_port" !in opts ==> s.port == 3306
    ensures s.baseUrl == [] || s.baseUrl[|s.baseUrl| - 1] != '/'
    ensures baseUrl != "" ==> s.baseUrl == Text.RTrimChar(baseUrl, '/')
    ensures host != "" ==> s.host == host
    ensures prefix != "" ==> s.prefix == prefix
    ensures prefix == "" && "presa_db_prefix" !in opts ==> s.prefix == "ps_"
    ensures langIso == "" && "presa_db_lang_iso" !in opts ==> s.langIso == "sr"
  {
    var pass := if password == "" then ToStr(GetOption(opts, "presa_db_pass", GetOption(opts, "presa_db_password", Str(""))))
                else password;
    Settings(ArgOrOption(host, opts, "presa_db_host", ""),
             ArgOrOption(user, opts, "presa_db_user", ""),
             pass,
             ArgOrOption(dbname, opts, "presa_db_name", ""),
             ArgOrOption(prefix, opts, "presa_db_prefix", "ps_"),
             ResolveBaseUrl(baseUrl, opts),
             ArgOrOption(langIso, opts, "presa_db_lang_iso", "sr"),
             ArgOrOption(shopId, opts, "presa_db_shop_id", ""),
             ResolvePort(port, opts))
  }

  /** The base URL argument, else presa_source_url, else
      presa_prestashop_url, without trailing slashes. */
  function ResolveBaseUrl(baseUrl: string, opts: map<string, Val>): (r: string)
    ensures r == [] || r[|r| - 1] != '/'
    ensures baseUrl != "" ==> r == Text.RTrimChar(baseUrl, '/')
  {
    var base := if baseUrl == "" then ToStr(GetOption(opts, "presa_source_url", GetOption(opts, "presa_prestashop_url", Str(""))))
                else baseUrl;
    Text.RTrimChar(base, '/')
  }

  /** The port argument when not 0, else presa_db_port (default 3306);
      3306 when that is not positive. */
  function ResolvePort(port: int, opts: map<string, Val>): (r: int)
    ensures r > 0
    ensures port > 0 ==> r == port
    ensures port < 0 ==> r == 3306
    ensures port == 0 && "presa_db_port" !in opts ==> r == 3306
  {
    var p := if port == 0 then ToInt(GetOption(opts, "presa_db_port", Int(3306))) else port;
    if p > 0 then p else 3306
  }

  /** get_lang_id: the option presa_lang_id (default 2) when at least 1, else 2. */
  function LangId(opts: map<string, Val>): (r: int)
    ensures r >= 1
    ensures ToInt(GetOption(opts, "presa_lang_id", Int(2))) >= 1 ==> r == ToInt(GetOption(opts, "presa_lang_id", Int(2)))
    ensures ToInt(GetOption(opts, "presa_lang_id", Int(2))) < 1 ==> r == 2
  {
    var id := ToInt(GetOption(opts, "presa_lang_id", Int(2)));
    if id >= 1 then id else 2
  }

  // -------------------------------------------------------------- shop id

  /** What get_shop_id returns from a given state of the cache: the cached
      id; else a configured numeric shop id; else the least active shop of
      a reachable server; else none. */
  function ShopIdFrom(srv: Server, settings: Settings, cache: Option<int>): Option<int> {
    if cache.Some? then cache
    else if settings.shopId != "" && Text.IsNumeric(settings.shopId) then Some(Text.StringToInt(settings.shopId))
    else if srv.connectError.Some? then None
    else FirstActiveShop(srv, settings.prefix)
  }

  /** Resolving again from what was stored gives the same id. */
  lemma ShopIdMemo(srv: Server, settings: Settings, cache: Option<int>)
    ensures ShopIdFrom(srv, settings, ShopIdFrom(srv, settings, cache)) == ShopIdFrom(srv, settings, cache)
  {
  }

  /** With nothing cached: a configured numeric id wins; otherwise the
      active shop with the least id; none only when the server is
      unreachable, the table is missing or no shop is active. */
  lemma ShopIdResolution(srv: Server, settings: Settings)
    ensures settings.shopId != "" && Text.IsNumeric(settings.shopId) ==>
      ShopIdFrom(srv, settings, None) == Some(Text.StringToInt(settings.shopId))
    ensures !(settings.shopId != "" && Text.IsNumeric(settings.shopId)) ==>
      (ShopIdFrom(srv, settings, None).None? <==>
         srv.connectError.Some? || !Exists(srv, settings.prefix, "shop")
         || forall i :: 0 <= i < |srv.rows.shop| ==> srv.rows.shop[i].active != 1)
    ensures !(settings.shopId != "" && Text.IsNumeric(settings.shopId)) && ShopIdFrom(srv, settings, None).Some? ==>
      forall i :: 0 <= i < |srv.rows.shop| && srv.rows.shop[i].active == 1 ==>
        ShopIdFrom(srv, settings, None).value <= srv.rows.shop[i].idShop
  {
    FirstActiveShopLeast(srv, settings.prefix);
  }

  /** get_shop_filter_sql's text for the shop the filter uses. */
  function ShopFilterSql(alias: string, shop: Option<int>): (r: string)
    ensures r == "" <==> shop.None?
    ensures shop.Some? ==> r == " AND " + alias + ".id_shop = " + Text.IntToString(shop.value)
  {
    if shop.None? then "" else " AND " + alias + ".id_shop = " + Text.IntToString(shop.value)
  }

  /** The shop a filter on `table` uses: none without an id_shop column. */
  function FilterShop(srv: Server, prefix: string, table: string, shop: Option<int>): (r: Option<int>)
    ensures !HasColumn(srv, prefix, table, "id_shop") ==> r.None?
    ensures HasColumn(srv, prefix, table, "id_shop") ==> r == shop
  {
    if HasColumn(srv, prefix, table, "id_shop") then shop else None
  }

  // ------------------------------------------------------------ list page

  function ClampLimit(limit: int): (r: int)
    ensures 1 <= r <= 500
    ensures 1 <= limit <= 500 ==> r == limit
  {
    if limit < 1 then 1 else if limit > 500 then 500 else limit
  }

  /** get_products_list with the shop id `shop` resolved. */
  function ListSpec(srv: Server, settings: Settings, opts: map<string, Val>, shop: Option<int>, offset: int, limit: int): Result<DbListPage> {
    if srv.connectError.Some? then Err(WpError("db_connect", srv.connectError.value))
    else
      var lim := ClampLimit(limit);
      var off: nat := if offset < 0 then 0 else offset;
      match ListRows(srv, settings.prefix, LangId(opts), FilterShop(srv, settings.prefix, "product_lang", shop), off, lim + 1)
      case None => Err(WpError("db_query", srv.queryError))
      case Some(rows) => Ok(ListPageOf(rows, lim))
  }

  /** A page holds at most the clamped limit of products, in ascending id
      order, and has_more says whether a product follows them. */
  lemma ListSpecPromise(srv: Server, settings: Settings, opts: map<string, Val>, shop: Option<int>, offset: int, limit: int)
    requires ListSpec(srv, settings, opts, shop, offset, limit).Ok?
    ensures var page := ListSpec(srv, settings, opts, shop, offset, limit).value;
      |page.products| <= ClampLimit(limit)
      && (forall i, j :: 0 <= i < j < |page.products| ==> page.products[i].id <= page.products[j].id)
      && (page.hasMore <==>
            |JoinAll(Sql.SortBy(srv.rows.product, ProductKey), srv.rows.productLang, LangId(opts),
                     FilterShop(srv, settings.prefix, "product_lang", shop))|
            > (if offset < 0 then 0 else offset) + ClampLimit(limit))
  {
    var lim := ClampLimit(limit);
    var off: nat := if offset < 0 then 0 else offset;
    var f := FilterShop(srv, settings.prefix, "product_lang", shop);
    var sorted := Sql.SortBy(srv.rows.product, ProductKey);
    var all := JoinAll(sorted, srv.rows.productLang, LangId(opts), f);
    var rows := Sql.Window(all, off, lim + 1);
    assert ListRows(srv, settings.prefix, LangId(opts), f, off, lim + 1) == Some(rows);
    Sql.SortBySorted(srv.rows.product, ProductKey);
    JoinAllOrdered(sorted, srv.rows.productLang, LangId(opts), f);
    PageOfWindow(all, off, lim);
  }

  /** The page of the window of lim + 1 rows at off of id-ordered rows. */
  lemma PageOfWindow(all: seq<JoinRow>, off: nat, lim: nat)
    requires forall i, j :: 0 <= i < j < |all| ==> all[i].p.idProduct <= all[j].p.idProduct
    ensures var page := ListPageOf(Sql.Window(all, off, lim + 1), lim);
      && |page.products| <= lim
      && (forall i, j :: 0 <= i < j < |page.products| ==> page.products[i].id <= page.products[j].id)
      && (page.hasMore <==> |all| > off + lim)
  {
    var rows := Sql.Window(all, off, lim + 1);
    var page := ListPageOf(rows, lim);
    forall i, j | 0 <= i < j < |page.products| ensures page.products[i].id <= page.products[j].id {
      assert page.products[i].id == all[off + i].p.idProduct;
      assert page.products[j].id == all[off + j].p.idProduct;
    }
  }

  // -------------------------------------------------------------- product

  function ComboShop(srv: Server, prefix: string, row: JoinRow, shop: Option<int>): Option<int> {
    if HasColumn(srv, prefix, "product", "id_shop_default") && row.p.idShopDefault != Null && row.p.idShopDefault != Str("")
    then Some(ToInt(row.p.idShopDefault))
    else shop
  }

  function ManufacturerId(srv: Server, prefix: string, row: JoinRow): int {
    if HasColumn(srv, prefix, "product", "id_manufacturer") && row.p.idManufacturer != Null then ToInt(row.p.idManufacturer) else 0
  }

  function QuantityOf(q: Option<Val>): int {
    if q.Some? then ToInt(q.value) else 0
  }

  /** weight, width, height, depth, ean13, upc, isbn: `isset ? value : ''`. */
  function Measure(ms: seq<Val>, k: nat): Val {
    if k < |ms| && ms[k] != Null then ms[k] else Str("")
  }

  function StrList(ss: seq<string>): Val {
    List(seq(|ss|, i requires 0 <= i < |ss| => Str(ss[i])))
  }

  function ComboList(cs: seq<Combo>): Val {
    List(seq(|cs|, i requires 0 <= i < |cs| => ComboVal(cs[i])))
  }

  /** The parts of the product array computed from the queries. */
  datatype Parts = Parts(names: (Val, Val, Val), quantity: int, categories: seq<int>, imageIds: seq<int>,
                         imageUrls: seq<string>, defaultImage: Val, combinations: seq<Combo>,
                         idManufacturer: int, manufacturerName: string, logoUrls: seq<string>)

  /** The keys of the product array, in the source's order. */
  const ProductKeys: seq<string> :=
    ["id", "name", "description", "description_short", "price", "reference", "active", "quantity",
     "weight", "width", "height", "depth", "ean13", "upc", "isbn",
     "id_manufacturer", "manufacturer_name", "manufacturer_logo_urls", "associations",
     "id_default_image", "image_urls", "combinations"]

  /** price: the column unless it is unset or "". */
  function PriceVal(price: Val): Val {
    if price != Str("") && price != Null then price else Str("")
  }

  /** active: the column as a string, "1" when unset. */
  function ActiveVal(active: Val): Val {
    if active != Null then Str(ToStr(active)) else Str("1")
  }

  /** The values of the product array, key by key. */
  function ProductValues(id: int, row: JoinRow, parts: Parts): (vs: seq<Val>)
    ensures |vs| == |ProductKeys|
  {
    var ms := row.p.measures;
    [Str(Text.IntToString(id)),
     Elvis(parts.names.0, Str("")),
     Elvis(parts.names.1, Str("")),
     Elvis(parts.names.2, Str("")),
     PriceVal(row.p.price),
     Elvis(row.p.reference, Str("")),
     ActiveVal(row.p.active),
     Int(parts.quantity),
     Measure(ms, 0), Measure(ms, 1), Measure(ms, 2), Measure(ms, 3), Measure(ms, 4), Measure(ms, 5), Measure(ms, 6),
     Int(parts.idManufacturer),
     Str(parts.manufacturerName),
     StrList(parts.logoUrls),
     Record(["categories", "images"], [IdEntries(parts.categories), IdEntries(parts.imageIds)]),
     parts.defaultImage,
     StrList(parts.imageUrls),
     ComboList(parts.combinations)]
  }

  /** The product array, in the source's key order. */
  function ProductVal(id: int, row: JoinRow, parts: Parts): Val {
    Record(ProductKeys, ProductValues(id, row, parts))
  }

  function ImageIdsOf(rows: seq<ImageRow>): seq<int> {
    seq(|rows|, i requires 0 <= i < |rows| => rows[i].idImage)
  }

  /** The combinations get_product embeds: get_combinations with that
      product's reference, in the product's id_shop_default when that column
      exists and the value is set and not "", else in the resolved shop. */
  function ProductCombinations(srv: Server, settings: Settings, lang: int, shop: Option<int>, id: int, row: JoinRow): seq<Combo> {
    Combinations(srv, settings.prefix, settings.baseUrl, id, lang, ComboShop(srv, settings.prefix, row, shop),
                 ToStr(Coalesce(row.p.reference, Str(""))))
  }

  /** The parts get_product computes for a found row, with the shop id
      `shop` resolved. */
  function PartsOf(srv: Server, settings: Settings, lang: int, shop: Option<int>, id: int, row: JoinRow): Parts {
    var prefix := settings.prefix;
    var fb := if NameOk(row) then None else LangFallback(srv, prefix, id, FilterShop(srv, prefix, "product_lang", shop));
    var imgs := ImageRows(srv, prefix, id);
    var ids := ImageIdsOf(imgs);
    var idMan := ManufacturerId(srv, prefix, row);
    Parts(LangColumns(row, fb),
          QuantityOf(StockQuantity(srv, prefix, id, 0, FilterShop(srv, prefix, "stock_available", shop))),
          CategoryList(CategoryRows(srv, prefix, id), ToInt(row.p.idCategoryDefault)),
          ids,
          ImageUrls(settings.baseUrl, imgs),
          DefaultImage(ids, if ids == [] then None else CoverImage(srv, prefix, id)),
          ProductCombinations(srv, settings, lang, shop, id, row),
          idMan,
          if idMan > 0 then ManufacturerName(srv, prefix, idMan, lang) else "",
          LogoUrls(settings.baseUrl, idMan))
  }

  /** get_product with the shop id `shop` resolved: the connection error,
      an empty array for an unknown product, else the product array. */
  function ProductSpec(srv: Server, settings: Settings, opts: map<string, Val>, shop: Option<int>, id: int): (r: Result<Val>)
    ensures srv.connectError.Some? ==> r == Err(WpError("db_connect", srv.connectError.value))
    ensures srv.connectError.None? ==> r.Ok? && r.value.Arr?
    ensures srv.connectError.None? && ProductQuery(srv, settings.prefix, id, LangId(opts), FilterShop(srv, settings.prefix, "product_lang", shop)).None?
            ==> r == Ok(Arr([]))
  {
    if srv.connectError.Some? then Err(WpError("db_connect", srv.connectError.value))
    else
      var lang := LangId(opts);
      match ProductQuery(srv, settings.prefix, id, lang, FilterShop(srv, settings.prefix, "product_lang", shop))
      case None => Ok(Arr([]))
      case Some(row) => Ok(ProductVal(id, row, PartsOf(srv, settings, lang, shop, id, row)))
  }

  lemma ProductKeysDistinct()
    ensures forall i, j :: 0 <= i < j < |ProductKeys| ==> ProductKeys[i] != ProductKeys[j]
  {
  }

  lemma ProductKeysField(vs: seq<Val>, i: int)
    requires |vs| == |ProductKeys| && 0 <= i < |ProductKeys|
    ensures Field(Record(ProductKeys, vs), ProductKeys[i]) == vs[i]
  {
    ProductKeysDistinct();
    RecordField(ProductKeys, vs, i);
  }

  lemma ProductKeyNames()
    ensures ProductKeys[0] == "id" && ProductKeys[1] == "name" && ProductKeys[2] == "description"
    ensures ProductKeys[3] == "description_short" && ProductKeys[17] == "manufacturer_logo_urls"
    ensures ProductKeys[18] == "associations" && ProductKeys[19] == "id_default_image"
    ensures ProductKeys[20] == "image_urls" && ProductKeys[21] == "combinations"
  {
  }

  lemma ProductValuesId(id: int, row: JoinRow, parts: Parts)
    ensures var vs := ProductValues(id, row, parts);
      vs[0] == Str(Text.IntToString(id)) && vs[1] == Elvis(parts.names.0, Str(""))
  {
  }

  lemma ProductValuesTexts(id: int, row: JoinRow, parts: Parts)
    ensures var vs := ProductValues(id, row, parts);
      vs[2] == Elvis(parts.names.1, Str("")) && vs[3] == Elvis(parts.names.2, Str(""))
  {
  }

  lemma ProductValuesLinks(id: int, row: JoinRow, parts: Parts)
    ensures var vs := ProductValues(id, row, parts);
      vs[17] == StrList(parts.logoUrls)
      && vs[18] == Record(["categories", "images"], [IdEntries(parts.categories), IdEntries(parts.imageIds)])
      && vs[19] == parts.defaultImage && vs[20] == StrList(parts.imageUrls) && vs[21] == ComboList(parts.combinations)
  {
  }

  /** The product array's identity and language columns. */
  lemma ProductValNames(id: int, row: JoinRow, parts: Parts)
    ensures Field(ProductVal(id, row, parts), "id") == Str(Text.IntToString(id))
    ensures Field(ProductVal(id, row, parts), "name") == Elvis(parts.names.0, Str(""))
    ensures Field(ProductVal(id, row, parts), "description") == Elvis(parts.names.1, Str(""))
    ensures Field(ProductVal(id, row, parts), "description_short") == Elvis(parts.names.2, Str(""))
  {
    var vs := ProductValues(id, row, parts);
    ProductKeyNames();
    ProductValuesId(id, row, parts);
    ProductValuesTexts(id, row, parts);
    ProductKeysField(vs, 0);
    ProductKeysField(vs, 1);
    ProductKeysField(vs, 2);
    ProductKeysField(vs, 3);
  }

  /** The product array's categories, images, logo URLs and combinations. */
  lemma ProductValLinks(id: int, row: JoinRow, parts: Parts)
    ensures Field(ProductVal(id, row, parts), "manufacturer_logo_urls") == StrList(parts.logoUrls)
    ensures Field(Field(ProductVal(id, row, parts), "associations"), "categories") == IdEntries(parts.categories)
    ensures Field(Field(ProductVal(id, row, parts), "associations"), "images") == IdEntries(parts.imageIds)
    ensures Field(ProductVal(id, row, parts), "id_default_image") == parts.defaultImage
    ensures Field(ProductVal(id, row, parts), "image_urls") == StrList(parts.imageUrls)
    ensures Field(ProductVal(id, row, parts), "combinations") == ComboList(parts.combinations)
  {
    var vs := ProductValues(id, row, parts);
    ProductKeyNames();
    ProductValuesLinks(id, row, parts);
    ProductKeysField(vs, 17);
    ProductKeysField(vs, 18);
    ProductKeysField(vs, 19);
    ProductKeysField(vs, 20);
    ProductKeysField(vs, 21);
    var avs := [IdEntries(parts.categories), IdEntries(parts.imageIds)];
    RecordField(["categories", "images"], avs, 0);
    RecordField(["categories", "images"], avs, 1);
  }

  /** A found product: its id as a string; its name and descriptions from
      the configured language when its name is not blank, else from the
      language fallback; its categories are the category_product ids then
      the default category; its images, their URLs and its default image;
      the manufacturer's logo URLs; and its combinations. */
  lemma ProductPromise(srv: Server, settings: Settings, opts: map<string, Val>, shop: Option<int>, id: int)
    requires srv.connectError.None?
    requires ProductQuery(srv, settings.prefix, id, LangId(opts), FilterShop(srv, settings.prefix, "product_lang", shop)).Some?
    ensures var row := ProductQuery(srv, settings.prefix, id, LangId(opts), FilterShop(srv, settings.prefix, "product_lang", shop)).value;
      var parts := PartsOf(srv, settings, LangId(opts), shop, id, row);
      var v := ProductSpec(srv, settings, opts, shop, id).value;
      Field(v, "id") == Str(Text.IntToString(id))
      && (NameOk(row) ==>
            Field(v, "name") == Elvis(row.pl.value.name, Str(""))
            && Field(v, "description") == Elvis(row.pl.value.description, Str(""))
            && Field(v, "description_short") == Elvis(row.pl.value.descriptionShort, Str("")))
      && Field(Field(v, "associations"), "categories") == IdEntries(CategoryList(CategoryRows(srv, settings.prefix, id), ToInt(row.p.idCategoryDefault)))
      && (!NameOk(row) && LangFallback(srv, settings.prefix, id, FilterShop(srv, settings.prefix, "product_lang", shop)).Some? ==>
            var fb := LangFallback(srv, settings.prefix, id, FilterShop(srv, settings.prefix, "product_lang", shop)).value;
            Field(v, "name") == Elvis(Coalesce(fb.name, Str("")), Str(""))
            && Field(v, "description") == Elvis(Coalesce(fb.description, Str("")), Str(""))
            && Field(v, "description_short") == Elvis(Coalesce(fb.descriptionShort, Str("")), Str("")))
      && Field(v, "id_default_image") == parts.defaultImage
      && Field(v, "manufacturer_logo_urls") == StrList(LogoUrls(settings.baseUrl, ManufacturerId(srv, settings.prefix, row)))
      && Field(Field(v, "associations"), "images") == IdEntries(ImageIdsOf(ImageRows(srv, settings.prefix, id)))
      && Field(v, "image_urls") == StrList(ImageUrls(settings.baseUrl, ImageRows(srv, settings.prefix, id)))
      && Field(v, "combinations") == ComboList(ProductCombinations(srv, settings, LangId(opts), shop, id, row))
  {
    var row := ProductQuery(srv, settings.prefix, id, LangId(opts), FilterShop(srv, settings.prefix, "product_lang", shop)).value;
    var parts := PartsOf(srv, settings, LangId(opts), shop, id, row);
    ProductValNames(id, row, parts);
    ProductValLinks(id, row, parts);
  }

  /** The default image of get_product is null exactly when the product
      has no image, else one of its images, a cover image when it has one. */
  lemma ProductDefaultImage(srv: Server, settings: Settings, lang: int, shop: Option<int>, id: int, row: JoinRow)
    ensures var d := PartsOf(srv, settings, lang, shop, id, row).defaultImage;
      (d == Null <==> ImageRows(srv, settings.prefix, id) == [])
      && (d != Null ==> exists im :: im in srv.rows.image && im.idProduct == id && d == Int(im.idImage))
      && (d != Null && (exists im :: im in srv.rows.image && im.idProduct == id && im.cover == 1) ==>
            exists im :: im in srv.rows.image && im.idProduct == id && im.cover == 1 && d == Int(im.idImage))
  {
    DefaultImageOfProduct(srv, settings.prefix, id);
  }

  // ------------------------------------------------------------ variations

  /** The product row get_product_variations reads for its reference and
      id_shop_default, when that column exists. */
  function VariationRow(srv: Server, prefix: string, id: int): Option<ProductRow> {
    if HasColumn(srv, prefix, "product", "id_shop_default") then
      Single(Sql.First(srv.rows.product, (p: ProductRow) => p.idProduct == id))
    else None
  }

  /** The combinations get_product_variations and
      get_combinations_for_product load, with the shop id `shop` resolved:
      the reference and shop come from the product row when it has
      id_shop_default. */
  function ProductCombos(srv: Server, settings: Settings, shop: Option<int>, id: int, lang: int): (r: seq<Combo>)
    ensures srv.connectError.Some? ==> r == []
  {
    if srv.connectError.Some? then []
    else
      var vr := VariationRow(srv, settings.prefix, id);
      var ref := if vr.Some? && vr.value.reference != Null then Text.Trim(ToStr(vr.value.reference)) else "";
      var s := if vr.Some? && vr.value.idShopDefault != Null && vr.value.idShopDefault != Str("")
               then Some(ToInt(vr.value.idShopDefault)) else shop;
      Combinations(srv, settings.prefix, settings.baseUrl, id, lang, s, ref)
  }

  /** get_product_variations with the shop id `shop` resolved. */
  function VariationsSpec(srv: Server, settings: Settings, opts: map<string, Val>, shop: Option<int>, id: int, lang: Option<int>): (r: seq<Variation>)
    ensures srv.connectError.Some? ==> r == []
    ensures |r| == |ProductCombos(srv, settings, shop, id, if lang.None? then LangId(opts) else lang.value)|
  {
    VariationsOf(ProductCombos(srv, settings, shop, id, if lang.None? then LangId(opts) else lang.value))
  }

  /** has_combinations: the product has a product_attribute row. */
  predicate HasCombinations(srv: Server, prefix: string, id: int) {
    srv.connectError.None? && TableExists(srv, prefix, "product_attribute") && PaRows(srv, prefix, id) != []
  }

  lemma HasCombinationsIff(srv: Server, prefix: string, id: int)
    ensures HasCombinations(srv, prefix, id) <==>
      srv.connectError.None? && Exists(srv, prefix, "product_attribute")
      && exists r :: r in srv.rows.productAttribute && r.idProduct == id
  {
    if srv.connectError.None? && Exists(srv, prefix, "product_attribute") {
      var rows := PaRows(srv, prefix, id);
      if rows != [] {
        assert rows[0] in srv.rows.productAttribute && rows[0].idProduct == id;
      }
      if r :| r in srv.rows.productAttribute && r.idProduct == id {
        var i :| 0 <= i < |srv.rows.productAttribute| && srv.rows.productAttribute[i] == r;
        assert r in rows;
      }
    }
  }

  /** One variation per combination, in order. */
  function VariationsOf(cs: seq<Combo>): (r: seq<Variation>)
    ensures |r| == |cs|
  {
    seq(|cs|, i requires 0 <= i < |cs| => VariationOf(cs[i]))
  }

  method MapVariations(cs: seq<Combo>) returns (out: seq<Variation>)
    ensures out == VariationsOf(cs)
  {
    out := [];
    var i := 0;
    while i < |cs|
      invariant 0 <= i <= |cs|
      invariant out == seq(i, k requires 0 <= k < i => VariationOf(cs[k]))
    {
      out := out + [VariationOf(cs[i])];
      i := i + 1;
    }
  }

  // -------------------------------------------------------------- category

  function CategoryVal(c: CategoryRow, cl: Option<CategoryLangRow>): Val {
    var name := if cl.Some? then cl.value.name else Null;
    var link := if cl.Some? then cl.value.linkRewrite else Null;
    var desc := if cl.Some? then cl.value.description else Null;
    Arr([(StrKey("id"), Str(Text.IntToString(c.idCategory))),
         (StrKey("id_parent"), Str(ToStr(c.idParent))),
         (StrKey("name"), Elvis(name, Str(""))),
         (StrKey("link_rewrite"), Elvis(link, Str(""))),
         (StrKey("description"), Elvis(desc, Str("")))])
  }

  /** get_category with the shop id `shop` resolved. */
  function CategorySpec(srv: Server, settings: Settings, opts: map<string, Val>, shop: Option<int>, id: int): (r: Option<Val>)
    ensures srv.connectError.Some? ==> r.None?
  {
    if srv.connectError.Some? then None
    else
      match CategoryQuery(srv, settings.prefix, id, LangId(opts), FilterShop(srv, settings.prefix, "category_lang", shop))
      case None => None
      case Some(q) => Some(CategoryVal(q.0, q.1))
  }

  /** Where the category array's keys come from. */
  lemma CategoryValFields(c: CategoryRow, cl: Option<CategoryLangRow>)
    ensures Field(CategoryVal(c, cl), "id") == Str(Text.IntToString(c.idCategory))
    ensures Field(CategoryVal(c, cl), "id_parent") == Str(ToStr(c.idParent))
    ensures Field(CategoryVal(c, cl), "name") == Elvis(if cl.Some? then cl.value.name else Null, Str(""))
    ensures Field(CategoryVal(c, cl), "link_rewrite") == Elvis(if cl.Some? then cl.value.linkRewrite else Null, Str(""))
  {
    var e := CategoryVal(c, cl).entries;
    GetAt(e, 0);
    GetAt(e, 1);
    GetAt(e, 2);
    GetAt(e, 3);
  }

  /** A category found is the one asked for, and its name and slug are
      strings ("" when missing). */
  lemma CategoryPromise(srv: Server, settings: Settings, opts: map<string, Val>, shop: Option<int>, id: int)
    requires CategorySpec(srv, settings, opts, shop, id).Some?
    ensures var v := CategorySpec(srv, settings, opts, shop, id).value;
      Field(v, "id") == Str(Text.IntToString(id))
      && Field(v, "name") != Null && Field(v, "link_rewrite") != Null
      && Field(v, "id_parent").Str?
  {
    var q := CategoryQuery(srv, settings.prefix, id, LangId(opts), FilterShop(srv, settings.prefix, "category_lang", shop)).value;
    CategoryValFields(q.0, q.1);
  }

  // ----------------------------------------------------------------- class

  class Db {
    const srv: Server
    const settings: Settings
    const opts: map<string, Val>
    var shopIdResolved: Option<int>

    constructor (srv: Server, host: string, user: string, password: string, dbname: string, prefix: string,
                 baseUrl: string, langIso: string, shopId: string, port: int, opts: map<string, Val>)
      ensures this.srv == srv && this.opts == opts
      ensures settings == ResolveSettings(host, user, password, dbname, prefix, baseUrl, langIso, shopId, port, opts)
      ensures shopIdResolved == None
    {
      this.srv := srv;
      this.opts := opts;
      this.settings := ResolveSettings(host, user, password, dbname, prefix, baseUrl, langIso, shopId, port, opts);
      shopIdResolved := None;
    }

    /** The shop id of this object: what get_shop_id returns, now and on
        every later call. */
    function Shop(): Option<int>
      reads this
    {
      ShopIdFrom(srv, settings, shopIdResolved)
    }

    /** get_shop_id: returns the resolved shop and stores it. */
    method GetShopId() returns (sid: Option<int>)
      modifies this
      ensures sid == old(Shop())
      ensures shopIdResolved == sid
      ensures Shop() == old(Shop())
    {
      if shopIdResolved.Some? {
        return shopIdResolved;
      }
      if settings.shopId != "" && Text.IsNumeric(settings.shopId) {
        shopIdResolved := Some(Text.StringToInt(settings.shopId));
        return shopIdResolved;
      }
      if srv.connectError.Some? {
        shopIdResolved := None;
        return None;
      }
      shopIdResolved := FirstActiveShop(srv, settings.prefix);
      sid := shopIdResolved;
    }

    /** get_shop_filter_sql: the shop of the filter on `table` (its text is
        ShopFilterSql); the shop id is resolved only when the column exists. */
    method GetShopFilter(table: string) returns (f: Option<int>)
      modifies this
      ensures f == FilterShop(srv, settings.prefix, table, old(Shop()))
      ensures Shop() == old(Shop())
      ensures shopIdResolved == old(shopIdResolved) || shopIdResolved == old(Shop())
    {
      if !HasColumn(srv, settings.prefix, table, "id_shop") {
        return None;
      }
      f := GetShopId();
    }

    /** get_products_list */
    method GetProductsList(offset: int, limit: int) returns (r: Result<DbListPage>)
      modifies this
      ensures r == ListSpec(srv, settings, opts, old(Shop()), offset, limit)
      ensures Shop() == old(Shop())
      ensures shopIdResolved == old(shopIdResolved) || shopIdResolved == old(Shop())
    {
      if srv.connectError.Some? {
        return Err(WpError("db_connect", srv.connectError.value));
      }
      var lang := LangId(opts);
      var shop := GetShopFilter("product_lang");
      var off: nat := if offset < 0 then 0 else offset;
      var lim := ClampLimit(limit);
      var rows := ListRows(srv, settings.prefix, lang, shop, off, lim + 1);
      if rows.None? {
        return Err(WpError("db_query", srv.queryError));
      }
      var page := ShapeListRows(rows.value, lim);
      r := Ok(page);
    }

    /** The shop id for a filter that is used only when `table` has an
        id_shop column, resolving it only then. */
    method ShopIfColumn(table: string) returns (s: Option<int>)
      modifies this
      ensures s == FilterShop(srv, settings.prefix, table, old(Shop()))
      ensures Shop() == old(Shop())
      ensures shopIdResolved == old(shopIdResolved) || shopIdResolved == old(Shop())
    {
      s := None;
      if HasColumn(srv, settings.prefix, table, "id_shop") {
        s := GetShopId();
      }
    }

    /** The shop for get_combinations: id_shop_default of the row when the
        column exists and the value is set, else get_shop_id. */
    method CombinationShop(row: JoinRow) returns (s: Option<int>)
      modifies this
      ensures s == ComboShop(srv, settings.prefix, row, old(Shop()))
      ensures Shop() == old(Shop())
      ensures shopIdResolved == old(shopIdResolved) || shopIdResolved == old(Shop())
    {
      if HasColumn(srv, settings.prefix, "product", "id_shop_default") && row.p.idShopDefault != Null && row.p.idShopDefault != Str("") {
        s := Some(ToInt(row.p.idShopDefault));
      } else {
        s := GetShopId();
      }
    }

    /** The queries of get_product after the main row is found. */
    method ProductParts(lang: int, id: int, row: JoinRow, plShop: Option<int>) returns (parts: Parts)
      requires plShop == FilterShop(srv, settings.prefix, "product_lang", Shop())
      modifies this
      ensures parts == PartsOf(srv, settings, lang, old(Shop()), id, row)
      ensures Shop() == old(Shop())
      ensures shopIdResolved == old(shopIdResolved) || shopIdResolved == old(Shop())
    {
      var prefix := settings.prefix;
      var fb: Option<LangRow> := None;
      if !NameOk(row) {
        fb := LangFallback(srv, prefix, id, plShop);
      }
      var names := LangColumns(row, fb);
      var saShop := ShopIfColumn("stock_available");
      var qty := QuantityOf(StockQuantity(srv, prefix, id, 0, saShop));
      var cats := CollectCategories(CategoryRows(srv, prefix, id), ToInt(row.p.idCategoryDefault));
      var imgs := ImageRows(srv, prefix, id);
      var ids, urls := CollectImages(settings.baseUrl, imgs);
      assert ids == ImageIdsOf(imgs);
      var cover: Option<int> := None;
      if ids != [] {
        cover := CoverImage(srv, prefix, id);
      }
      var comboShop := CombinationShop(row);
      var combos := GetCombinations(srv, prefix, settings.baseUrl, id, lang, comboShop, ToStr(Coalesce(row.p.reference, Str(""))));
      var idMan := ManufacturerId(srv, prefix, row);
      var manName := "";
      if idMan > 0 {
        manName := ManufacturerName(srv, prefix, idMan, lang);
      }
      parts := Parts(names, qty, cats, ids, urls, DefaultImage(ids, cover), combos, idMan, manName, LogoUrls(settings.baseUrl, idMan));
    }

    /** get_product */
    method GetProduct(id: int) returns (r: Result<Val>)
      modifies this
      ensures r == ProductSpec(srv, settings, opts, old(Shop()), id)
      ensures Shop() == old(Shop())
      ensures shopIdResolved == old(shopIdResolved) || shopIdResolved == old(Shop())
    {
      if srv.connectError.Some? {
        return Err(WpError("db_connect", srv.connectError.value));
      }
      var lang := LangId(opts);
      var plShop := GetShopFilter("product_lang");
      var found := ProductQuery(srv, settings.prefix, id, lang, plShop);
      if found.None? {
        return Ok(Arr([]));
      }
      var parts := ProductParts(lang, id, found.value, plShop);
      r := Ok(ProductVal(id, found.value, parts));
    }

    /** The combinations of a product, as get_combinations_for_product
        and get_product_variations load them. */
    method LoadCombinations(id: int, lang: int) returns (combos: seq<Combo>)
      modifies this
      ensures combos == ProductCombos(srv, settings, old(Shop()), id, lang)
      ensures Shop() == old(Shop())
      ensures srv.connectError.None? ==> shopIdResolved == old(Shop())
      ensures srv.connectError.Some? ==> shopIdResolved == old(shopIdResolved)
    {
      if srv.connectError.Some? {
        return [];
      }
      var shop := GetShopId();
      var ref := "";
      var vr := VariationRow(srv, settings.prefix, id);
      if vr.Some? {
        ref := if vr.value.reference != Null then Text.Trim(ToStr(vr.value.reference)) else "";
        if vr.value.idShopDefault != Null && vr.value.idShopDefault != Str("") {
          shop := Some(ToInt(vr.value.idShopDefault));
        }
      }
      combos := GetCombinations(srv, settings.prefix, settings.baseUrl, id, lang, shop, ref);
    }

    /** get_combinations_for_product */
    method GetCombinationsForProduct(id: int) returns (combos: seq<Combo>)
      modifies this
      ensures combos == ProductCombos(srv, settings, old(Shop()), id, LangId(opts))
      ensures Shop() == old(Shop())
      ensures shopIdResolved == old(shopIdResolved) || shopIdResolved == old(Shop())
    {
      combos := LoadCombinations(id, LangId(opts));
    }

    /** get_product_variations */
    method GetProductVariations(id: int, lang: Option<int>) returns (out: seq<Variation>)
      modifies this
      ensures out == VariationsSpec(srv, settings, opts, old(Shop()), id, lang)
      ensures Shop() == old(Shop())
      ensures shopIdResolved == old(shopIdResolved) || shopIdResolved == old(Shop())
    {
      var l := if lang.None? then LangId(opts) else lang.value;
      var combos := LoadCombinations(id, l);
      out := MapVariations(combos);
    }

    /** get_category */
    method GetCategory(id: int) returns (r: Option<Val>)
      modifies this
      ensures r == CategorySpec(srv, settings, opts, old(Shop()), id)
      ensures Shop() == old(Shop())
      ensures shopIdResolved == old(shopIdResolved) || shopIdResolved == old(Shop())
    {
      if srv.connectError.Some? {
        return None;
      }
      var lang := LangId(opts);
      var shop := GetShopFilter("category_lang");
      var q := CategoryQuery(srv, settings.prefix, id, lang, shop);
      if q.None? {
        return None;
      }
      r := Some(CategoryVal(q.value.0, q.value.1));
    }
  }
}
