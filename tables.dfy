/** The PrestaShop database as the adapter reads it: the tables it queries,
    as in-memory rows, and each of its SQL queries as a function over them.
    Text columns are PHP values (a string or NULL, as mysqli returns them);
    key columns are integers. */
module PrestaTables {
  import opened Common
  import opened Php
  import Sql

  datatype ShopRow = ShopRow(idShop: int, active: int)

  /** `measures` holds weight, width, height, depth, ean13, upc, isbn. */
  datatype ProductRow = ProductRow(
    idProduct: int, reference: Val, price: Val, active: Val,
    idCategoryDefault: Val, measures: seq<Val>, idManufacturer: Val, idShopDefault: Val)

  datatype LangRow = LangRow(idProduct: int, idLang: int, idShop: int, name: Val, description: Val, descriptionShort: Val)
  datatype StockRow = StockRow(idProduct: int, idProductAttribute: int, idShop: int, quantity: Val)
  datatype CategoryProductRow = CategoryProductRow(idCategory: int, idProduct: int)
  datatype ImageRow = ImageRow(idImage: int, idProduct: int, cover: int, position: int)
  datatype PaRow = PaRow(idProductAttribute: int, idProduct: int, reference: Val, price: Val)
  datatype PasRow = PasRow(idProductAttribute: int, idShop: int, price: Val)
  datatype PacRow = PacRow(idProductAttribute: int, idAttribute: int)
  datatype AttributeRow = AttributeRow(idAttribute: int, idGroup: int, position: int)
  datatype AttributeLangRow = AttributeLangRow(idAttribute: int, idLang: int, name: Val)
  datatype GroupRow = GroupRow(idGroup: int, position: int)
  datatype GroupLangRow = GroupLangRow(idGroup: int, idLang: int, name: Val)
  datatype PaiRow = PaiRow(idProductAttribute: int, idImage: Val)
  datatype ManufacturerRow = ManufacturerRow(idManufacturer: int, name: Val)
  datatype ManufacturerLangRow = ManufacturerLangRow(idManufacturer: int, idLang: int, name: Val)
  datatype CategoryRow = CategoryRow(idCategory: int, idParent: Val)
  datatype CategoryLangRow = CategoryLangRow(idCategory: int, idLang: int, idShop: int, name: Val, linkRewrite: Val, description: Val)

  datatype Tables = Tables(
    shop: seq<ShopRow>,
    product: seq<ProductRow>,
    productLang: seq<LangRow>,
    stockAvailable: seq<StockRow>,
    categoryProduct: seq<CategoryProductRow>,
    image: seq<ImageRow>,
    productAttribute: seq<PaRow>,
    productAttributeShop: seq<PasRow>,
    productAttributeCombination: seq<PacRow>,
    attribute: seq<AttributeRow>,
    attributeLang: seq<AttributeLangRow>,
    attributeGroup: seq<GroupRow>,
    attributeGroupLang: seq<GroupLangRow>,
    productAttributeImage: seq<PaiRow>,
    manufacturer: seq<ManufacturerRow>,
    manufacturerLang: seq<ManufacturerLangRow>,
    category: seq<CategoryRow>,
    categoryLang: seq<CategoryLangRow>)

  /** The database server: whether connecting fails (and with which
      message), the tables and columns that exist (full, prefixed names),
      the rows, and the text mysqli reports for a failed query. */
  datatype Server = Server(
    connectError: Option<string>,
    present: set<string>,
    columns: set<(string, string)>,
    rows: Tables,
    queryError: string)

  /** A table exists under the prefixed name. */
  predicate Exists(srv: Server, prefix: string, table: string) {
    prefix + table in srv.present
  }

  /** has_column: SHOW COLUMNS on a reachable, existing table. */
  predicate HasColumn(srv: Server, prefix: string, table: string, col: string) {
    srv.connectError.None? && Exists(srv, prefix, table) && (prefix + table, col) in srv.columns
  }

  /** A shop filter `AND alias.id_shop = N` admits the row's shop. */
  predicate ShopAdmits(filter: Option<int>, idShop: int) {
    filter.None? || filter.value == idShop
  }

  function Single<T>(s: seq<T>): Option<T> {
    if s == [] then None else Some(s[0])
  }

  // ------------------------------------------------------------- shop

  function ShopKey(s: ShopRow): (int, int) { (s.idShop, 0) }

  /** SELECT id_shop FROM shop WHERE active = 1 ORDER BY id_shop LIMIT 1. */
  function FirstActiveShop(srv: Server, prefix: string): (r: Option<int>)
    ensures r.Some? ==> exists s :: s in srv.rows.shop && s.active == 1 && s.idShop == r.value
  {
    if !Exists(srv, prefix, "shop") then None
    else
      var active := Sql.Filter(srv.rows.shop, (s: ShopRow) => s.active == 1);
      var sorted := Sql.SortBy(active, ShopKey);
      if sorted == [] then None
      else
        assert sorted[0] in multiset(active);
        Some(sorted[0].idShop)
  }

  /** The shop found is the active shop with the least id; none is found
      only when the table is missing or no shop is active. */
  lemma FirstActiveShopLeast(srv: Server, prefix: string)
    ensures var r := FirstActiveShop(srv, prefix);
      (r.None? <==> !Exists(srv, prefix, "shop") || forall i :: 0 <= i < |srv.rows.shop| ==> srv.rows.shop[i].active != 1)
      && (r.Some? ==> forall i :: 0 <= i < |srv.rows.shop| && srv.rows.shop[i].active == 1 ==> r.value <= srv.rows.shop[i].idShop)
  {
    if Exists(srv, prefix, "shop") {
      var p := (s: ShopRow) => s.active == 1;
      var active := Sql.Filter(srv.rows.shop, p);
      forall i | 0 <= i < |srv.rows.shop| && srv.rows.shop[i].active == 1
        ensures Sql.SortBy(active, ShopKey) != [] && Sql.SortBy(active, ShopKey)[0].idShop <= srv.rows.shop[i].idShop
      {
        var s := srv.rows.shop[i];
        assert p(s);
        assert s in active;
        Sql.SortByFirstLeast(active, ShopKey, s);
      }
      if Sql.SortBy(active, ShopKey) != [] {
        var first := Sql.SortBy(active, ShopKey)[0];
        assert first in multiset(active);
        var k :| 0 <= k < |active| && active[k] == first;
        assert active[k] in srv.rows.shop;
      }
    }
  }

  // ---------------------------------------------------- product + language

  /** A product row joined with its language row (NULL columns when none). */
  datatype JoinRow = JoinRow(p: ProductRow, pl: Option<LangRow>)

  predicate LangMatches(l: LangRow, idProduct: int, lang: int, shop: Option<int>) {
    l.idProduct == idProduct && l.idLang == lang && ShopAdmits(shop, l.idShop)
  }

  /** `p LEFT JOIN pl ON pl.id_product = p.id_product AND pl.id_lang = lang
      [AND pl.id_shop = N]` for one product row: one row per matching
      language row, or one row with NULLs. */
  function JoinLang(p: ProductRow, langs: seq<LangRow>, lang: int, shop: Option<int>): (r: seq<JoinRow>)
    ensures |r| >= 1
    ensures forall i :: 0 <= i < |r| ==> r[i].p == p
  {
    var m := Sql.Filter(langs, (l: LangRow) => LangMatches(l, p.idProduct, lang, shop));
    if m == [] then [JoinRow(p, None)]
    else seq(|m|, i requires 0 <= i < |m| => JoinRow(p, Some(m[i])))
  }

  function JoinAll(ps: seq<ProductRow>, langs: seq<LangRow>, lang: int, shop: Option<int>): (r: seq<JoinRow>)
    ensures |r| >= |ps|
  {
    if ps == [] then [] else JoinLang(ps[0], langs, lang, shop) + JoinAll(ps[1..], langs, lang, shop)
  }

  function ProductKey(p: ProductRow): (int, int) { (p.idProduct, 0) }

  /** The list query: the join ordered by product id, LIMIT n OFFSET k;
      None when a table is missing. */
  function ListRows(srv: Server, prefix: string, lang: int, shop: Option<int>, offset: nat, n: nat): Option<seq<JoinRow>> {
    if !Exists(srv, prefix, "product") || !Exists(srv, prefix, "product_lang") then None
    else
      var sorted := Sql.SortBy(srv.rows.product, ProductKey);
      Some(Sql.Window(JoinAll(sorted, srv.rows.productLang, lang, shop), offset, n))
  }

  /** The products listed are ordered by id. */
  lemma {:induction false} JoinAllOrdered(ps: seq<ProductRow>, langs: seq<LangRow>, lang: int, shop: Option<int>)
    requires Sql.SortedBy(ps, ProductKey)
    ensures forall i, j :: 0 <= i < j < |JoinAll(ps, langs, lang, shop)| ==>
      JoinAll(ps, langs, lang, shop)[i].p.idProduct <= JoinAll(ps, langs, lang, shop)[j].p.idProduct
    decreases |ps|
  {
    if ps != [] {
      var tail := ps[1..];
      assert Sql.SortedBy(tail, ProductKey) by {
        forall i, j | 0 <= i < j < |tail| ensures Sql.KeyLe(ProductKey(tail[i]), ProductKey(tail[j])) {
          assert tail[i] == ps[i + 1] && tail[j] == ps[j + 1];
        }
      }
      JoinAllOrdered(tail, langs, lang, shop);
      forall k | 0 <= k < |tail| ensures tail[k].idProduct >= ps[0].idProduct {
        assert tail[k] == ps[k + 1];
        assert Sql.KeyLe(ProductKey(ps[0]), ProductKey(ps[k + 1]));
      }
      JoinAllAtLeast(tail, langs, lang, shop, ps[0].idProduct);
      var a := JoinLang(ps[0], langs, lang, shop);
      var b := JoinAll(tail, langs, lang, shop);
      var r: seq<JoinRow> := a + b;
      assert JoinAll(ps, langs, lang, shop) == r;
      var p0 := ps[0];
      forall i, j | 0 <= i < j < |r| ensures r[i].p.idProduct <= r[j].p.idProduct {
        if i >= |a| {
          assert r[i] == b[i - |a|] && r[j] == b[j - |a|];
        } else if j >= |a| {
          assert r[i] == a[i] && a[i].p == p0;
          assert r[j] == b[j - |a|];
        } else {
          assert r[i] == a[i] && r[j] == a[j];
          assert a[i].p == p0 && a[j].p == p0;
        }
      }
    }
  }

  /** Rows joined from products with ids at least x have ids at least x. */
  lemma {:induction false} JoinAllAtLeast(ps: seq<ProductRow>, langs: seq<LangRow>, lang: int, shop: Option<int>, x: int)
    requires forall k :: 0 <= k < |ps| ==> ps[k].idProduct >= x
    ensures forall j :: 0 <= j < |JoinAll(ps, langs, lang, shop)| ==> JoinAll(ps, langs, lang, shop)[j].p.idProduct >= x
    decreases |ps|
  {
    if ps != [] {
      JoinAllAtLeast(ps[1..], langs, lang, shop, x);
      var a := JoinLang(ps[0], langs, lang, shop);
      var b := JoinAll(ps[1..], langs, lang, shop);
      var r: seq<JoinRow> := a + b;
      assert JoinAll(ps, langs, lang, shop) == r;
      var p0 := ps[0];
      assert p0.idProduct >= x;
      forall j | 0 <= j < |r| ensures r[j].p.idProduct >= x {
        if j >= |a| {
          assert r[j] == b[j - |a|];
          assert b[j - |a|].p.idProduct >= x;
        } else {
          assert r[j] == a[j];
          assert a[j].p == p0;
          assert r[j].p.idProduct >= x;
        }
      }
    }
  }

  /** The single-product query: the first joined row for the id; None when
      a table is missing or the product does not exist. */
  function ProductQuery(srv: Server, prefix: string, id: int, lang: int, shop: Option<int>): (r: Option<JoinRow>)
    ensures r.Some? ==> r.value.p.idProduct == id && r.value.p in srv.rows.product
  {
    if !Exists(srv, prefix, "product") || !Exists(srv, prefix, "product_lang") then None
    else
      var ps := Sql.First(srv.rows.product, (p: ProductRow) => p.idProduct == id);
      if ps == [] then None
      else
        assert ps[0] in srv.rows.product;
        Some(JoinRow(ps[0], Single(Sql.Filter(srv.rows.productLang, (l: LangRow) => LangMatches(l, id, lang, shop)))))
  }

  predicate LangOfProduct(l: LangRow, idProduct: int, shop: Option<int>) {
    l.idProduct == idProduct && ShopAdmits(shop, l.idShop)
  }

  function LangKey(l: LangRow): (int, int) { (l.idLang, 0) }

  /** The language fallback: the product's language row with the least
      id_lang (ORDER BY id_lang ASC LIMIT 1). */
  function LangFallback(srv: Server, prefix: string, id: int, shop: Option<int>): (r: Option<LangRow>)
    ensures r.Some? ==> r.value.idProduct == id && ShopAdmits(shop, r.value.idShop)
  {
    if !Exists(srv, prefix, "product_lang") then None
    else
      var m := Sql.Filter(srv.rows.productLang, (l: LangRow) => LangOfProduct(l, id, shop));
      var sorted := Sql.SortBy(m, LangKey);
      if sorted == [] then None
      else
        assert sorted[0] in multiset(m);
        var k :| 0 <= k < |m| && m[k] == sorted[0];
        Some(sorted[0])
  }

  /** The fallback row has the least id_lang among the product's rows. */
  lemma LangFallbackLeast(srv: Server, prefix: string, id: int, shop: Option<int>, l: LangRow)
    requires Exists(srv, prefix, "product_lang") && l in srv.rows.productLang && LangOfProduct(l, id, shop)
    ensures LangFallback(srv, prefix, id, shop).Some? && LangFallback(srv, prefix, id, shop).value.idLang <= l.idLang
  {
    var p := (x: LangRow) => LangOfProduct(x, id, shop);
    var m := Sql.Filter(srv.rows.productLang, p);
    var i :| 0 <= i < |srv.rows.productLang| && srv.rows.productLang[i] == l;
    assert p(srv.rows.productLang[i]);
    assert l in m;
    Sql.SortByFirstLeast(m, LangKey, l);
  }

  // ------------------------------------------------------------- stock

  predicate StockMatches(s: StockRow, id: int, paid: int, shop: Option<int>) {
    s.idProduct == id && s.idProductAttribute == paid && ShopAdmits(shop, s.idShop)
  }

  /** SELECT quantity FROM stock_available WHERE id_product = id AND
      id_product_attribute = paid [AND id_shop = N] LIMIT 1. */
  function StockQuantity(srv: Server, prefix: string, id: int, paid: int, shop: Option<int>): (r: Option<Val>)
    ensures r.Some? ==> exists s :: s in srv.rows.stockAvailable && StockMatches(s, id, paid, shop) && s.quantity == r.value
  {
    if !Exists(srv, prefix, "stock_available") then None
    else
      var f := Sql.First(srv.rows.stockAvailable, (s: StockRow) => StockMatches(s, id, paid, shop));
      if f == [] then None
      else
        assert f[0] in srv.rows.stockAvailable;
        Some(f[0].quantity)
  }

  // -------------------------------------------------- categories, images

  /** SELECT id_category FROM category_product WHERE id_product = id. */
  function CategoryRows(srv: Server, prefix: string, id: int): (r: seq<CategoryProductRow>)
    ensures forall i :: 0 <= i < |r| ==> r[i].idProduct == id
  {
    if !Exists(srv, prefix, "category_product") then []
    else Sql.Filter(srv.rows.categoryProduct, (c: CategoryProductRow) => c.idProduct == id)
  }

  /** ORDER BY cover DESC, position ASC */
  function ImageKey(im: ImageRow): (int, int) { (-im.cover, im.position) }

  /** The product's images, cover first, then by position. */
  function ImageRows(srv: Server, prefix: string, id: int): (r: seq<ImageRow>)
    ensures forall i :: 0 <= i < |r| ==> r[i].idProduct == id
  {
    if !Exists(srv, prefix, "image") then []
    else
      var m := Sql.Filter(srv.rows.image, (im: ImageRow) => im.idProduct == id);
      var r := Sql.SortBy(m, ImageKey);
      forall i | 0 <= i < |r| ensures r[i].idProduct == id {
        assert r[i] in multiset(m);
      }
      r
  }

  /** The image rows are in ORDER BY cover DESC, position ASC. */
  lemma ImageRowsOrdered(srv: Server, prefix: string, id: int)
    ensures Sql.SortedBy(ImageRows(srv, prefix, id), ImageKey)
  {
    if Exists(srv, prefix, "image") {
      Sql.SortBySorted(Sql.Filter(srv.rows.image, (im: ImageRow) => im.idProduct == id), ImageKey);
    }
  }

  /** SELECT id_image FROM image WHERE id_product = id AND cover = 1 LIMIT 1. */
  function CoverImage(srv: Server, prefix: string, id: int): (r: Option<int>)
    ensures r.Some? ==> exists im :: im in srv.rows.image && im.idProduct == id && im.cover == 1 && im.idImage == r.value
  {
    if !Exists(srv, prefix, "image") then None
    else
      var f := Sql.First(srv.rows.image, (im: ImageRow) => im.idProduct == id && im.cover == 1);
      if f == [] then None
      else
        assert f[0] in srv.rows.image;
        Some(f[0].idImage)
  }

  // ------------------------------------------------------- combinations

  /** SELECT id_product_attribute, reference, price FROM product_attribute
      WHERE id_product = id. */
  function PaRows(srv: Server, prefix: string, id: int): (r: seq<PaRow>)
    ensures forall i :: 0 <= i < |r| ==> r[i].idProduct == id
  {
    if !Exists(srv, prefix, "product_attribute") then []
    else Sql.Filter(srv.rows.productAttribute, (r: PaRow) => r.idProduct == id)
  }

  /** SELECT price FROM product_attribute_shop WHERE id_product_attribute =
      paid AND id_shop = shop LIMIT 1: the price column of the row found. */
  function ShopPrice(srv: Server, prefix: string, paid: int, shop: int): (r: Option<Val>)
    ensures r.Some? ==> exists s :: s in srv.rows.productAttributeShop && s.idProductAttribute == paid && s.idShop == shop && s.price == r.value
  {
    if !Exists(srv, prefix, "product_attribute_shop") then None
    else
      var f := Sql.First(srv.rows.productAttributeShop, (s: PasRow) => s.idProductAttribute == paid && s.idShop == shop);
      if f == [] then None
      else
        assert f[0] in srv.rows.productAttributeShop;
        Some(f[0].price)
  }

  /** One row of the attribute query: group name, value name, group
      position, value position. */
  datatype AttrRow = AttrRow(groupName: Val, valueName: Val, gpos: int, apos: int)

  function AttrKey(a: AttrRow): (int, int) { (a.gpos, a.apos) }

  /** The join pac -> attribute -> attribute_lang -> attribute_group ->
      attribute_group_lang for one combination row; every join is on a
      primary key, so each step takes the one matching row. */
  function AttrJoin(t: Tables, pac: PacRow, lang: int): seq<AttrRow> {
    var a := Sql.First(t.attribute, (x: AttributeRow) => x.idAttribute == pac.idAttribute);
    if a == [] then []
    else
      var al := Sql.First(t.attributeLang, (x: AttributeLangRow) => x.idAttribute == a[0].idAttribute && x.idLang == lang);
      var ag := Sql.First(t.attributeGroup, (x: GroupRow) => x.idGroup == a[0].idGroup);
      if al == [] || ag == [] then []
      else
        var agl := Sql.First(t.attributeGroupLang, (x: GroupLangRow) => x.idGroup == ag[0].idGroup && x.idLang == lang);
        if agl == [] then []
        else [AttrRow(agl[0].name, al[0].name, ag[0].position, a[0].position)]
  }

  function AttrJoinAll(t: Tables, pacs: seq<PacRow>, lang: int): seq<AttrRow> {
    if pacs == [] then [] else AttrJoin(t, pacs[0], lang) + AttrJoinAll(t, pacs[1..], lang)
  }

  /** The attribute query of one combination, ORDER BY gpos ASC, apos ASC;
      None when it fails (a table missing). */
  function AttrRows(srv: Server, prefix: string, paid: int, lang: int): Option<seq<AttrRow>> {
    if !Exists(srv, prefix, "product_attribute_combination") || !Exists(srv, prefix, "attribute")
       || !Exists(srv, prefix, "attribute_lang") || !Exists(srv, prefix, "attribute_group")
       || !Exists(srv, prefix, "attribute_group_lang")
    then None
    else
      var pacs := Sql.Filter(srv.rows.productAttributeCombination, (p: PacRow) => p.idProductAttribute == paid);
      Some(Sql.SortBy(AttrJoinAll(srv.rows, pacs, lang), AttrKey))
  }

  /** The attributes come back by group position, then value position. */
  lemma AttrRowsOrdered(srv: Server, prefix: string, paid: int, lang: int)
    requires AttrRows(srv, prefix, paid, lang).Some?
    ensures Sql.SortedBy(AttrRows(srv, prefix, paid, lang).value, AttrKey)
  {
    var pacs := Sql.Filter(srv.rows.productAttributeCombination, (p: PacRow) => p.idProductAttribute == paid);
    Sql.SortBySorted(AttrJoinAll(srv.rows, pacs, lang), AttrKey);
  }

  /** SELECT id_image FROM product_attribute_image WHERE
      id_product_attribute = paid LIMIT 1. */
  function CombinationImage(srv: Server, prefix: string, paid: int): (r: Option<Val>)
    ensures r.Some? ==> exists x :: x in srv.rows.productAttributeImage && x.idProductAttribute == paid && x.idImage == r.value
  {
    if !Exists(srv, prefix, "product_attribute_image") then None
    else
      var f := Sql.First(srv.rows.productAttributeImage, (x: PaiRow) => x.idProductAttribute == paid);
      if f == [] then None
      else
        assert f[0] in srv.rows.productAttributeImage;
        Some(f[0].idImage)
  }

  // ------------------------------------------------------- manufacturer

  /** SELECT name FROM manufacturer WHERE id_manufacturer = id LIMIT 1. */
  function ManufacturerRowName(srv: Server, prefix: string, id: int): (r: Option<Val>)
    ensures r.Some? ==> exists m :: m in srv.rows.manufacturer && m.idManufacturer == id && m.name == r.value
  {
    if !Exists(srv, prefix, "manufacturer") then None
    else
      var f := Sql.First(srv.rows.manufacturer, (m: ManufacturerRow) => m.idManufacturer == id);
      if f == [] then None
      else
        assert f[0] in srv.rows.manufacturer;
        Some(f[0].name)
  }

  /** SELECT name FROM manufacturer_lang WHERE id_manufacturer = id AND
      id_lang = lang LIMIT 1. */
  function ManufacturerLangName(srv: Server, prefix: string, id: int, lang: int): (r: Option<Val>)
    ensures r.Some? ==> exists m :: m in srv.rows.manufacturerLang && m.idManufacturer == id && m.idLang == lang && m.name == r.value
  {
    if !Exists(srv, prefix, "manufacturer_lang") then None
    else
      var f := Sql.First(srv.rows.manufacturerLang, (m: ManufacturerLangRow) => m.idManufacturer == id && m.idLang == lang);
      if f == [] then None
      else
        assert f[0] in srv.rows.manufacturerLang;
        Some(f[0].name)
  }

  // ----------------------------------------------------------- category

  /** The category query: the category row and its first language row
      (LEFT JOIN on id_category, id_lang and the shop filter). */
  function CategoryQuery(srv: Server, prefix: string, id: int, lang: int, shop: Option<int>): (r: Option<(CategoryRow, Option<CategoryLangRow>)>)
    ensures r.Some? ==> r.value.0 in srv.rows.category && r.value.0.idCategory == id
  {
    if !Exists(srv, prefix, "category") || !Exists(srv, prefix, "category_lang") then None
    else
      var c := Sql.First(srv.rows.category, (x: CategoryRow) => x.idCategory == id);
      if c == [] then None
      else
        assert c[0] in srv.rows.category;
        var cl := Sql.First(srv.rows.categoryLang, (x: CategoryLangRow) => x.idCategory == id && x.idLang == lang && ShopAdmits(shop, x.idShop));
        Some((c[0], Single(cl)))
  }
}
