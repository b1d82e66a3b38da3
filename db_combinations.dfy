/** get_combinations of Presa_Prestashop_Db: one entry per
    id_product_attribute, in the order the rows first name them, then
    enriched in three passes with stock, attributes and image. Also the
    as-written readings of table_exists and of the `$r && $row = fetch &&
    test($row)` conditions, beside the readings the rest of the model uses. */
module DbCombinations {
  import opened Common
  import opened Php
  import Text
  import Sql
  import opened PrestaTables
  import opened DbShape

  datatype Attr = Attr(groupName: Val, valueName: Val)

  datatype Combo = Combo(paid: int, sku: string, priceImpact: real, quantity: int,
                         attributes: seq<Attr>, imageId: Option<int>, imageUrl: string)

  // ------------------------------------------------------------ base entries

  /** The SKU: the trimmed row reference, else trim(product reference) + "-" + id. */
  function SkuOf(row: PaRow, productReference: string): (r: string)
    ensures r != ""
    ensures Text.Trim(ToStr(Coalesce(row.reference, Str("")))) != "" ==> r == Text.Trim(ToStr(Coalesce(row.reference, Str(""))))
    ensures Text.Trim(ToStr(Coalesce(row.reference, Str("")))) == "" ==>
      r == Text.Trim(productReference) + "-" + Text.IntToString(row.idProductAttribute)
  {
    var own := Text.Trim(ToStr(Coalesce(row.reference, Str(""))));
    if own != "" then own else Text.Trim(productReference) + "-" + Text.IntToString(row.idProductAttribute)
  }

  /** The tests the fetched row must pass in the three marked conditions. */
  datatype Guard = PriceGuard | ImageGuard | NameGuard

  predicate GuardHolds(g: Guard, row: Val) {
    match g
    case PriceGuard => FieldSet(row, "price") && Field(row, "price") != Str("")
    case ImageGuard => !Empty(Field(row, "id_image"))
    case NameGuard => FieldSet(row, "name") && Text.Trim(ToStr(Field(row, "name"))) != ""
  }

  /** A one-column row as fetch_assoc returns it. */
  function RowOf(col: string, v: Val): Val {
    Arr([(StrKey(col), v)])
  }

  /** The intended reading: a row was fetched and it passes the test. */
  predicate FetchTest(fetched: Option<Val>, g: Guard) {
    fetched.Some? && GuardHolds(g, fetched.value)
  }

  /** price_impact: (float) of the row price (0 when NULL); for a positive
      shop with product_attribute_shop present, the shop row's price when
      it is set and not "". */
  function PriceImpact(srv: Server, prefix: string, row: PaRow, shop: Option<int>): (r: real)
    ensures !(shop.Some? && shop.value > 0 && TableExists(srv, prefix, "product_attribute_shop")) ==>
      r == ToReal(Coalesce(row.price, Int(0)))
  {
    var base := ToReal(Coalesce(row.price, Int(0)));
    if shop.Some? && shop.value > 0 && TableExists(srv, prefix, "product_attribute_shop") then
      var sp := ShopPrice(srv, prefix, row.idProductAttribute, shop.value);
      var fetched := if sp.Some? then Some(RowOf("price", sp.value)) else None;
      if FetchTest(fetched, PriceGuard) then ToReal(Field(fetched.value, "price")) else base
    else base
  }

  /** A shop-specific price that is set and not "" replaces the row price. */
  lemma ShopPriceOverrides(srv: Server, prefix: string, row: PaRow, shop: int)
    requires shop > 0 && TableExists(srv, prefix, "product_attribute_shop")
    requires ShopPrice(srv, prefix, row.idProductAttribute, shop).Some?
    requires ShopPrice(srv, prefix, row.idProductAttribute, shop).value !in {Null, Str("")}
    ensures PriceImpact(srv, prefix, row, Some(shop)) == ToReal(ShopPrice(srv, prefix, row.idProductAttribute, shop).value)
  {
    var v := ShopPrice(srv, prefix, row.idProductAttribute, shop).value;
    assert Field(RowOf("price", v), "price") == v;
  }

  /** The entry `$combos[$paid] = array(...)` creates. */
  function NewCombo(srv: Server, prefix: string, row: PaRow, shop: Option<int>, productReference: string): Combo {
    Combo(row.idProductAttribute, SkuOf(row, productReference), PriceImpact(srv, prefix, row, shop), 0, [], None, "")
  }

  /** Position of the entry keyed paid, -1 when there is none. */
  function IndexOf(cs: seq<Combo>, paid: int): (k: int)
    ensures -1 <= k < |cs|
    ensures k >= 0 ==> cs[k].paid == paid && forall j :: 0 <= j < k ==> cs[j].paid != paid
    ensures k < 0 <==> forall j :: 0 <= j < |cs| ==> cs[j].paid != paid
  {
    if cs == [] then -1
    else if cs[0].paid == paid then 0
    else
      var k := IndexOf(cs[1..], paid);
      if k < 0 then -1 else k + 1
  }

  /** `$combos[$paid] = $c`: an existing key keeps its position and takes the
      new value; a new key goes last. */
  function Put(cs: seq<Combo>, c: Combo): (r: seq<Combo>)
    ensures IndexOf(cs, c.paid) < 0 ==> r == cs + [c]
    ensures IndexOf(cs, c.paid) >= 0 ==> r == cs[IndexOf(cs, c.paid) := c]
  {
    var k := IndexOf(cs, c.paid);
    if k < 0 then cs + [c] else cs[k := c]
  }

  /** The first loop: Put the entry `mk` makes of each product_attribute
      row, in turn. */
  function BaseCombos(rows: seq<PaRow>, mk: PaRow -> Combo): seq<Combo>
    decreases |rows|
  {
    if rows == [] then []
    else Put(BaseCombos(rows[..|rows| - 1], mk), mk(rows[|rows| - 1]))
  }

  /** The entry maker of one get_combinations call. */
  function Maker(srv: Server, prefix: string, shop: Option<int>, productReference: string): PaRow -> Combo {
    row => NewCombo(srv, prefix, row, shop, productReference)
  }

  // -------------------------------------------------------------- enrichment

  /** The id_shop filter of the stock query. */
  function SaShop(srv: Server, prefix: string, shop: Option<int>): (r: Option<int>)
    ensures r.Some? ==> r == shop && shop.value > 0
  {
    if shop.Some? && shop.value > 0 && HasColumn(srv, prefix, "stock_available", "id_shop") then shop else None
  }

  /** The stock pass: (int) quantity of the matching stock row, when there is one. */
  function WithQuantity(srv: Server, prefix: string, id: int, saShop: Option<int>, c: Combo): Combo {
    match StockQuantity(srv, prefix, id, c.paid, saShop)
    case Some(q) => c.(quantity := ToInt(q))
    case None => c
  }

  /** Attribute names with `?: ''`. */
  function AttrsOf(rows: seq<AttrRow>): (r: seq<Attr>)
    ensures |r| == |rows|
    ensures forall i :: 0 <= i < |rows| ==>
      r[i] == Attr(Elvis(rows[i].groupName, Str("")), Elvis(rows[i].valueName, Str("")))
  {
    seq(|rows|, i requires 0 <= i < |rows| => Attr(Elvis(rows[i].groupName, Str("")), Elvis(rows[i].valueName, Str(""))))
  }

  /** The attribute pass: the query's rows appended, when it succeeds. */
  function WithAttributes(srv: Server, prefix: string, lang: int, c: Combo): Combo {
    match AttrRows(srv, prefix, c.paid, lang)
    case Some(rows) => c.(attributes := c.attributes + AttrsOf(rows))
    case None => c
  }

  /** The image pass: a non-empty id_image of product_attribute_image sets
      image_id and image_url. */
  function WithImage(srv: Server, prefix: string, baseUrl: string, c: Combo): Combo {
    var im := CombinationImage(srv, prefix, c.paid);
    var fetched := if im.Some? then Some(RowOf("id_image", im.value)) else None;
    if FetchTest(fetched, ImageGuard) then
      var n := ToInt(Field(fetched.value, "id_image"));
      c.(imageId := Some(n), imageUrl := ImageUrl(baseUrl, n))
    else c
  }

  /** The three passes applied to one entry. */
  function Enrich(srv: Server, prefix: string, baseUrl: string, id: int, lang: int, shop: Option<int>, c: Combo): (r: Combo)
    ensures r.paid == c.paid && r.sku == c.sku && r.priceImpact == c.priceImpact
  {
    var q := WithQuantity(srv, prefix, id, SaShop(srv, prefix, shop), c);
    var a := WithAttributes(srv, prefix, lang, q);
    if TableExists(srv, prefix, "product_attribute_image") then WithImage(srv, prefix, baseUrl, a) else a
  }

  /** get_combinations: [] when product_attribute, attribute or
      attribute_group is missing; else the base entries, each enriched. */
  function Combinations(srv: Server, prefix: string, baseUrl: string, id: int, lang: int, shop: Option<int>, productReference: string): (r: seq<Combo>)
    ensures (!TableExists(srv, prefix, "product_attribute") || !TableExists(srv, prefix, "attribute")
             || !TableExists(srv, prefix, "attribute_group")) ==> r == []
  {
    if !TableExists(srv, prefix, "product_attribute") || !TableExists(srv, prefix, "attribute")
       || !TableExists(srv, prefix, "attribute_group")
    then []
    else
      var base := BaseCombos(PaRows(srv, prefix, id), Maker(srv, prefix, shop, productReference));
      seq(|base|, i requires 0 <= i < |base| => Enrich(srv, prefix, baseUrl, id, lang, shop, base[i]))
  }

  // ------------------------------------------------------------- the method

  /** The loop over the product_attribute rows. */
  method BuildBase(rows: seq<PaRow>, mk: PaRow -> Combo) returns (cs: seq<Combo>)
    ensures cs == BaseCombos(rows, mk)
  {
    cs := [];
    var i := 0;
    while i < |rows|
      invariant 0 <= i <= |rows|
      invariant cs == BaseCombos(rows[..i], mk)
    {
      assert rows[..i + 1][..i] == rows[..i];
      cs := Put(cs, mk(rows[i]));
      i := i + 1;
    }
    assert rows[..|rows|] == rows;
  }

  /** One `foreach ($ids as $paid)` pass: the entry of each id updated in
      place by f. */
  method UpdateEach(cs: seq<Combo>, f: Combo -> Combo) returns (out: seq<Combo>)
    ensures out == seq(|cs|, i requires 0 <= i < |cs| => f(cs[i]))
  {
    out := cs;
    var i := 0;
    while i < |cs|
      invariant 0 <= i <= |cs| && |out| == |cs|
      invariant forall k :: 0 <= k < i ==> out[k] == f(cs[k])
      invariant forall k :: i <= k < |cs| ==> out[k] == cs[k]
    {
      out := out[i := f(out[i])];
      i := i + 1;
    }
  }

  /** get_combinations, pass by pass. */
  method GetCombinations(srv: Server, prefix: string, baseUrl: string, id: int, lang: int, shop: Option<int>, productReference: string)
    returns (combos: seq<Combo>)
    ensures combos == Combinations(srv, prefix, baseUrl, id, lang, shop, productReference)
  {
    if !TableExists(srv, prefix, "product_attribute") || !TableExists(srv, prefix, "attribute")
       || !TableExists(srv, prefix, "attribute_group") {
      return [];
    }
    var base := BuildBase(PaRows(srv, prefix, id), Maker(srv, prefix, shop, productReference));
    var sa := SaShop(srv, prefix, shop);
    var q := UpdateEach(base, c => WithQuantity(srv, prefix, id, sa, c));
    var a := UpdateEach(q, c => WithAttributes(srv, prefix, lang, c));
    combos := a;
    if TableExists(srv, prefix, "product_attribute_image") {
      combos := UpdateEach(a, c => WithImage(srv, prefix, baseUrl, c));
    }
    assert |combos| == |base|;
    forall i | 0 <= i < |base|
      ensures combos[i] == Enrich(srv, prefix, baseUrl, id, lang, shop, base[i])
    {
      assert q[i] == WithQuantity(srv, prefix, id, sa, base[i]);
      assert a[i] == WithAttributes(srv, prefix, lang, q[i]);
    }
  }

  // -------------------------------------------------------- what it promises

  function Keys(cs: seq<Combo>): (r: seq<int>)
    ensures |r| == |cs| && forall i :: 0 <= i < |cs| ==> r[i] == cs[i].paid
  {
    seq(|cs|, i requires 0 <= i < |cs| => cs[i].paid)
  }

  function PaIds(rows: seq<PaRow>): (r: seq<int>)
    ensures |r| == |rows| && forall i :: 0 <= i < |rows| ==> r[i] == rows[i].idProductAttribute
  {
    seq(|rows|, i requires 0 <= i < |rows| => rows[i].idProductAttribute)
  }

  /** Put keeps the keys and their order, adding a new key at the end. */
  lemma PutKeys(cs: seq<Combo>, c: Combo)
    ensures Keys(Put(cs, c)) == if c.paid in Keys(cs) then Keys(cs) else Keys(cs) + [c.paid]
  {
    var k := IndexOf(cs, c.paid);
    if k >= 0 {
      assert Keys(cs)[k] == c.paid;
    } else {
      assert c.paid !in Keys(cs);
    }
  }

  /** The output follows the order in which the rows first name each id,
      one entry per id. */
  lemma {:induction false} BaseCombosKeys(rows: seq<PaRow>, mk: PaRow -> Combo)
    requires forall row :: mk(row).paid == row.idProductAttribute
    ensures Keys(BaseCombos(rows, mk)) == Distinct(PaIds(rows))
    decreases |rows|
  {
    if rows != [] {
      var init := rows[..|rows| - 1];
      BaseCombosKeys(init, mk);
      assert PaIds(rows)[..|rows| - 1] == PaIds(init);
      PutKeys(BaseCombos(init, mk), mk(rows[|rows| - 1]));
    }
  }

  /** Every base entry is the entry made of one of the rows. */
  lemma {:induction false} BaseCombosFromRows(rows: seq<PaRow>, mk: PaRow -> Combo, i: int)
    requires 0 <= i < |BaseCombos(rows, mk)|
    ensures exists j :: 0 <= j < |rows| && BaseCombos(rows, mk)[i] == mk(rows[j])
    decreases |rows|
  {
    var init := rows[..|rows| - 1];
    var prev := BaseCombos(init, mk);
    var c := mk(rows[|rows| - 1]);
    var k := IndexOf(prev, c.paid);
    if (k < 0 && i == |prev|) || (k >= 0 && i == k) {
      assert BaseCombos(rows, mk)[i] == c;
    } else {
      assert BaseCombos(rows, mk)[i] == prev[i];
      BaseCombosFromRows(init, mk, i);
      var j :| 0 <= j < |init| && prev[i] == mk(init[j]);
      assert rows[j] == init[j];
    }
  }

  /** One entry per distinct id_product_attribute, in first-seen order. */
  lemma CombinationsOrder(srv: Server, prefix: string, baseUrl: string, id: int, lang: int, shop: Option<int>, productReference: string)
    requires TableExists(srv, prefix, "product_attribute") && TableExists(srv, prefix, "attribute")
             && TableExists(srv, prefix, "attribute_group")
    ensures Keys(Combinations(srv, prefix, baseUrl, id, lang, shop, productReference)) == Distinct(PaIds(PaRows(srv, prefix, id)))
  {
    var mk := Maker(srv, prefix, shop, productReference);
    BaseCombosKeys(PaRows(srv, prefix, id), mk);
  }

  /** Each entry's SKU and price impact are those of a product_attribute row
      with its id. */
  lemma CombinationsFromRows(srv: Server, prefix: string, baseUrl: string, id: int, lang: int, shop: Option<int>, productReference: string, i: int)
    requires 0 <= i < |Combinations(srv, prefix, baseUrl, id, lang, shop, productReference)|
    ensures var c := Combinations(srv, prefix, baseUrl, id, lang, shop, productReference)[i];
      exists row :: row in PaRows(srv, prefix, id) && row.idProductAttribute == c.paid
         && c.sku == SkuOf(row, productReference) && c.priceImpact == PriceImpact(srv, prefix, row, shop)
  {
    var rows := PaRows(srv, prefix, id);
    var mk := Maker(srv, prefix, shop, productReference);
    BaseCombosFromRows(rows, mk, i);
    var j :| 0 <= j < |rows| && BaseCombos(rows, mk)[i] == mk(rows[j]);
    assert rows[j] in rows;
  }

  /** Base entries start with no attributes and no image. */
  lemma {:induction false} BaseCombosFresh(srv: Server, prefix: string, rows: seq<PaRow>, shop: Option<int>, productReference: string, i: int)
    requires 0 <= i < |BaseCombos(rows, Maker(srv, prefix, shop, productReference))|
    ensures BaseCombos(rows, Maker(srv, prefix, shop, productReference))[i].attributes == []
    ensures BaseCombos(rows, Maker(srv, prefix, shop, productReference))[i].imageId.None?
    ensures BaseCombos(rows, Maker(srv, prefix, shop, productReference))[i].imageUrl == ""
  {
    var mk := Maker(srv, prefix, shop, productReference);
    BaseCombosFromRows(rows, mk, i);
  }

  /** Each entry's attributes are the rows of the attribute query, ordered
      by group position, then value position; none when it fails. */
  lemma CombinationAttributes(srv: Server, prefix: string, baseUrl: string, id: int, lang: int, shop: Option<int>, productReference: string, i: int)
    requires 0 <= i < |Combinations(srv, prefix, baseUrl, id, lang, shop, productReference)|
    ensures var c := Combinations(srv, prefix, baseUrl, id, lang, shop, productReference)[i];
      (AttrRows(srv, prefix, c.paid, lang).Some? ==>
            c.attributes == AttrsOf(AttrRows(srv, prefix, c.paid, lang).value)
            && Sql.SortedBy(AttrRows(srv, prefix, c.paid, lang).value, AttrKey))
      && (AttrRows(srv, prefix, c.paid, lang).None? ==> c.attributes == [])
  {
    var base := BaseCombos(PaRows(srv, prefix, id), Maker(srv, prefix, shop, productReference));
    BaseCombosFresh(srv, prefix, PaRows(srv, prefix, id), shop, productReference, i);
    var c := Combinations(srv, prefix, baseUrl, id, lang, shop, productReference)[i];
    assert c == Enrich(srv, prefix, baseUrl, id, lang, shop, base[i]);
    if AttrRows(srv, prefix, c.paid, lang).Some? {
      AttrRowsOrdered(srv, prefix, c.paid, lang);
    }
  }

  /** The three passes set the image exactly when the image pass finds a
      non-empty id_image, and leave it as it was otherwise. */
  lemma EnrichImage(srv: Server, prefix: string, baseUrl: string, id: int, lang: int, shop: Option<int>, c: Combo)
    ensures var e := Enrich(srv, prefix, baseUrl, id, lang, shop, c);
      var im := CombinationImage(srv, prefix, c.paid);
      var found := TableExists(srv, prefix, "product_attribute_image") && im.Some? && !Empty(im.value);
      && (found ==> e.imageId == Some(ToInt(im.value)) && e.imageUrl == ImageUrl(baseUrl, ToInt(im.value)))
      && (!found ==> e.imageId == c.imageId && e.imageUrl == c.imageUrl)
  {
    var im := CombinationImage(srv, prefix, c.paid);
    if im.Some? {
      assert Field(RowOf("id_image", im.value), "id_image") == im.value;
    }
  }

  /** Each entry's image: with product_attribute_image present and a
      non-empty id_image for the combination, that image and its URL;
      otherwise none. */
  lemma CombinationImageSet(srv: Server, prefix: string, baseUrl: string, id: int, lang: int, shop: Option<int>, productReference: string, i: int)
    requires 0 <= i < |Combinations(srv, prefix, baseUrl, id, lang, shop, productReference)|
    ensures var c := Combinations(srv, prefix, baseUrl, id, lang, shop, productReference)[i];
      var im := CombinationImage(srv, prefix, c.paid);
      var found := TableExists(srv, prefix, "product_attribute_image") && im.Some? && !Empty(im.value);
      && (found ==> c.imageId == Some(ToInt(im.value)) && c.imageUrl == ImageUrl(baseUrl, ToInt(im.value)))
      && (!found ==> c.imageId.None? && c.imageUrl == "")
  {
    var base := BaseCombos(PaRows(srv, prefix, id), Maker(srv, prefix, shop, productReference));
    BaseCombosFresh(srv, prefix, PaRows(srv, prefix, id), shop, productReference, i);
    assert Combinations(srv, prefix, baseUrl, id, lang, shop, productReference)[i]
      == Enrich(srv, prefix, baseUrl, id, lang, shop, base[i]);
    EnrichImage(srv, prefix, baseUrl, id, lang, shop, base[i]);
  }

  // ---------------------------------------------------------- as PHP arrays

  function AttrVal(a: Attr): Val {
    Arr([(StrKey("group_name"), a.groupName), (StrKey("value_name"), a.valueName)])
  }

  function AttrList(attrs: seq<Attr>): Val {
    List(seq(|attrs|, j requires 0 <= j < |attrs| => AttrVal(attrs[j])))
  }

  function ImageIdVal(imageId: Option<int>): Val {
    if imageId.Some? then Int(imageId.value) else Null
  }

  /** One get_combinations entry as the PHP array the mapper reads. */
  function ComboVal(c: Combo): Val {
    Arr([(StrKey("id_product_attribute"), Int(c.paid)),
         (StrKey("sku"), Str(c.sku)),
         (StrKey("price_impact"), Num(c.priceImpact)),
         (StrKey("quantity"), Int(c.quantity)),
         (StrKey("attributes"), AttrList(c.attributes)),
         (StrKey("image_id"), ImageIdVal(c.imageId)),
         (StrKey("image_url"), Str(c.imageUrl))])
  }

  lemma ComboValFields(c: Combo)
    ensures Field(ComboVal(c), "sku") == Str(c.sku)
    ensures Field(ComboVal(c), "attributes") == AttrList(c.attributes)
    ensures Field(ComboVal(c), "image_id") == ImageIdVal(c.imageId)
  {
    GetAt(ComboVal(c).entries, 1);
    GetAt(ComboVal(c).entries, 4);
    GetAt(ComboVal(c).entries, 5);
  }

  /** One get_product_variations entry: group/value instead of
      group_name/value_name, image_ids instead of image_id. */
  datatype Variation = Variation(paid: int, sku: string, attributes: seq<(Val, Val)>, priceImpact: real, quantity: int, imageIds: seq<int>)

  function VariationOf(c: Combo): Variation {
    Variation(c.paid, c.sku,
              seq(|c.attributes|, j requires 0 <= j < |c.attributes| => (c.attributes[j].groupName, c.attributes[j].valueName)),
              c.priceImpact, c.quantity,
              if c.imageId.Some? && c.imageId.value != 0 then [c.imageId.value] else [])
  }

  function PairVal(a: (Val, Val)): Val {
    Arr([(StrKey("group"), a.0), (StrKey("value"), a.1)])
  }

  function PairList(attrs: seq<(Val, Val)>): Val {
    List(seq(|attrs|, j requires 0 <= j < |attrs| => PairVal(attrs[j])))
  }

  function IntList(ns: seq<int>): Val {
    List(seq(|ns|, j requires 0 <= j < |ns| => Int(ns[j])))
  }

  function VariationVal(v: Variation): Val {
    Arr([(StrKey("id_product_attribute"), Int(v.paid)),
         (StrKey("sku"), Str(v.sku)),
         (StrKey("attributes"), PairList(v.attributes)),
         (StrKey("price_impact"), Num(v.priceImpact)),
         (StrKey("quantity"), Int(v.quantity)),
         (StrKey("image_ids"), IntList(v.imageIds))])
  }

  lemma VariationValFields(v: Variation)
    ensures Field(VariationVal(v), "sku") == Str(v.sku)
    ensures Field(VariationVal(v), "attributes") == PairList(v.attributes)
    ensures Field(VariationVal(v), "image_ids") == IntList(v.imageIds)
  {
    GetAt(VariationVal(v).entries, 1);
    GetAt(VariationVal(v).entries, 2);
    GetAt(VariationVal(v).entries, 5);
  }

  /** The variation carries the combination's attributes in the same order,
      group_name as group and value_name as value, and its image id unless
      that is empty (with ComboValFields and VariationValFields, these are
      the arrays' "attributes", "sku", "image_id" and "image_ids"). */
  lemma VariationRenames(c: Combo, j: int)
    requires 0 <= j < |c.attributes|
    ensures |Values(PairList(VariationOf(c).attributes))| == |Values(AttrList(c.attributes))|
    ensures Field(Values(PairList(VariationOf(c).attributes))[j], "group") == Field(Values(AttrList(c.attributes))[j], "group_name")
    ensures Field(Values(PairList(VariationOf(c).attributes))[j], "value") == Field(Values(AttrList(c.attributes))[j], "value_name")
    ensures VariationOf(c).sku == c.sku
    ensures Values(IntList(VariationOf(c).imageIds)) == [] <==> Empty(ImageIdVal(c.imageId))
  {
    var vv := VariationOf(c);
    var pa := PairVal(vv.attributes[j]);
    var ca := AttrVal(c.attributes[j]);
    assert Values(PairList(vv.attributes))[j] == pa;
    assert Values(AttrList(c.attributes))[j] == ca;
    GetAt(pa.entries, 0);
    GetAt(pa.entries, 1);
    GetAt(ca.entries, 0);
    GetAt(ca.entries, 1);
  }

  // ------------------------------------------------------- as-written readings

  /** MySQL LIKE with % and _ as wildcards and every other character literal. */
  predicate Like(s: string, p: string)
    decreases |s| + |p|
  {
    if p == [] then s == []
    else if p[0] == '%' then Like(s, p[1..]) || (s != [] && Like(s[1..], p))
    else s != [] && (p[0] == '_' || p[0] == s[0]) && Like(s[1..], p[1..])
  }

  /** table_exists as written: it receives table(), the name already wrapped
      in backticks, and runs SHOW TABLES LIKE on that text. */
  predicate TableExistsAsWritten(srv: Server, prefix: string, table: string) {
    srv.connectError.None? && exists n :: n in srv.present && Like(n, "`" + prefix + table + "`")
  }

  /** A pattern starting with a literal character matches only names that
      start with it. */
  lemma LikeLiteralHead(s: string, p: string)
    requires p != [] && p[0] != '%' && p[0] != '_' && Like(s, p)
    ensures s != [] && s[0] == p[0]
  {
  }

  /** As written, no table is ever found unless a table name begins with a
      backtick, so every get_combinations call returns []. */
  lemma TableExistsAsWrittenNever(srv: Server, prefix: string, table: string)
    requires forall n :: n in srv.present ==> n == [] || n[0] != '`'
    ensures !TableExistsAsWritten(srv, prefix, table)
  {
    if TableExistsAsWritten(srv, prefix, table) {
      var n :| n in srv.present && Like(n, "`" + prefix + table + "`");
      LikeLiteralHead(n, "`" + prefix + table + "`");
    }
  }

  /** A catalogue with ps_product_attribute, ps_attribute and
      ps_attribute_group: the intended check finds them, the written one
      does not. */
  lemma TableExistsExample(srv: Server)
    requires srv.connectError.None?
    requires srv.present == {"ps_product_attribute", "ps_attribute", "ps_attribute_group"}
    ensures TableExists(srv, "ps_", "product_attribute") && TableExists(srv, "ps_", "attribute")
            && TableExists(srv, "ps_", "attribute_group")
    ensures !TableExistsAsWritten(srv, "ps_", "product_attribute")
  {
    assert "ps_" + "product_attribute" == "ps_product_attribute";
    assert "ps_" + "attribute" == "ps_attribute";
    assert "ps_" + "attribute_group" == "ps_attribute_group";
    TableExistsAsWrittenNever(srv, "ps_", "product_attribute");
  }

  /** `$q && $row = $q->fetch_assoc() && test($row)` as PHP reads it: `=`
      binds looser than `&&`, so the test reads $row from before the
      statement, and $row is then assigned the boolean of the whole
      conjunction. The result is (condition, new $row). */
  function FetchTestAsWritten(fetched: Option<Val>, prev: Val, g: Guard): (r: (bool, Val))
    ensures r.1 == Bool(r.0)
  {
    var c := fetched.Some? && GuardHolds(g, prev);
    (c, Bool(c))
  }

  /** No test passes on a value that is not an array. */
  lemma GuardNeedsArray(g: Guard, v: Val)
    requires !v.Arr?
    ensures !GuardHolds(g, v)
  {
  }

  /** Over any sequence of fetches, starting with $row unset, the written
      condition never holds: $row only ever holds booleans. */
  lemma {:induction false} FetchTestAsWrittenNever(fetches: seq<Option<Val>>, prev: Val, g: Guard)
    requires !prev.Arr?
    ensures RunAsWritten(fetches, prev, g) == []
    decreases |fetches|
  {
    GuardNeedsArray(g, prev);
    if fetches != [] {
      var next := FetchTestAsWritten(fetches[0], prev, g).1;
      FetchTestAsWrittenNever(fetches[1..], next, g);
    }
  }

  /** The positions at which the written condition holds, over successive
      loop iterations that carry $row over. */
  function RunAsWritten(fetches: seq<Option<Val>>, prev: Val, g: Guard): seq<int>
    decreases |fetches|
  {
    if fetches == [] then []
    else
      var step := FetchTestAsWritten(fetches[0], prev, g);
      (if step.0 then [0] else []) + Shift(RunAsWritten(fetches[1..], step.1, g))
  }

  function Shift(ks: seq<int>): seq<int> {
    seq(|ks|, i requires 0 <= i < |ks| => ks[i] + 1)
  }

  /** A shop price of 9 for the combination: the intended condition holds,
      the written one does not (at line 595, $pas_row is unset the first
      time round). */
  lemma ShopPriceAsWrittenExample()
    ensures FetchTest(Some(RowOf("price", Int(9))), PriceGuard)
    ensures !FetchTestAsWritten(Some(RowOf("price", Int(9))), Null, PriceGuard).0
  {
    assert Field(RowOf("price", Int(9)), "price") == Int(9);
  }

  /** A combination image 7: intended condition holds, written one does not. */
  lemma CombinationImageAsWrittenExample()
    ensures FetchTest(Some(RowOf("id_image", Int(7))), ImageGuard)
    ensures !FetchTestAsWritten(Some(RowOf("id_image", Int(7))), Null, ImageGuard).0
  {
    assert Field(RowOf("id_image", Int(7)), "id_image") == Int(7);
  }

  /** A manufacturer_lang name "Acme": intended condition holds, written one does not. */
  lemma ManufacturerLangAsWrittenExample()
    ensures FetchTest(Some(RowOf("name", Str("Acme"))), NameGuard)
    ensures !FetchTestAsWritten(Some(RowOf("name", Str("Acme"))), Null, NameGuard).0
  {
    assert Field(RowOf("name", Str("Acme")), "name") == Str("Acme");
    assert Text.Trim("Acme") == "Acme" by {
      Text.TrimOfTrimmed("Acme");
    }
  }
}
