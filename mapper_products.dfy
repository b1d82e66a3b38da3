/** The products create_wc_product and create_or_update_wc_product save, and
    what set_product_brand decides, as values over the store's state. */
module ProductRules {
  import opened Common
  import opened Php
  import Http
  import WcStore
  import MapperRules
  import VariationRules

  // ------------------------------------------------------------ products

  /** The product create_wc_simple_product saves: base data on a new simple
      product, then its price, SKU and stock. */
  function SimpleProduct(product: Val, cats: seq<int>, imageIds: seq<int>): (p: WcStore.Product)
    ensures p.kind == WcStore.Simple && p.parent == 0 && !p.deleted && p.attributes == []
    ensures p.regularPrice == Some(MapperRules.PriceOf(product)) && p.manageStock
    ensures p.stockQuantity == MapperRules.QuantityOf(product) && (p.stockStatus == "instock" <==> p.stockQuantity > 0)
    ensures p.sku == MapperRules.ReferenceOf(product)
    ensures p.categoryIds == cats && p.name == MapperRules.ProductName(product)
    ensures imageIds != [] ==> p.imageId == imageIds[0]
  {
    var base := MapperRules.WithBaseData(WcStore.NewProduct(WcStore.Simple), product, cats, imageIds);
    MapperRules.BaseDataImages(WcStore.NewProduct(WcStore.Simple), product, cats, imageIds);
    MapperRules.WithSimpleData(base, product)
  }

  /** The parent a variable product is saved as: base data, stock not
      managed, and the built attributes; no price and no SKU. */
  function VariableParent(product: Val, cats: seq<int>, imageIds: seq<int>, attrs: seq<WcStore.Attribute>): (p: WcStore.Product)
    ensures p.kind == WcStore.Variable && p.parent == 0 && !p.deleted
    ensures p.regularPrice.None? && p.sku == "" && !p.manageStock
    ensures p.attributes == attrs && p.categoryIds == cats && p.name == MapperRules.ProductName(product)
    ensures p.defaultAttributes == []
    ensures imageIds != [] ==> p.imageId == imageIds[0]
  {
    MapperRules.BaseDataImages(WcStore.NewProduct(WcStore.Variable), product, cats, imageIds);
    MapperRules.WithBaseData(WcStore.NewProduct(WcStore.Variable), product, cats, imageIds).(manageStock := false, attributes := attrs)
  }

  /** save() of product id as p: stored unless the store refuses it. */
  function SaveAt(refused: iset<WcStore.Product>, ps: seq<WcStore.Product>, id: int, p: WcStore.Product): (r: seq<WcStore.Product>)
    ensures |r| == |ps|
    ensures forall k :: 0 <= k < |ps| && k != id - 1 ==> r[k] == ps[k]
    ensures 0 < id <= |ps| ==> r[id - 1] == if p in refused then ps[id - 1] else p
  {
    if p in refused || !(0 < id <= |ps|) then ps else ps[id - 1 := p]
  }

  /** The last step of create_wc_variable_product_from_combinations: with
      first default attributes, a product id that is still a live variable
      product gets them as its defaults. */
  function WithDefaults(refused: iset<WcStore.Product>, ps: seq<WcStore.Product>, id: int, d: seq<(string, string)>): (r: seq<WcStore.Product>)
    ensures |r| == |ps|
  {
    if d != [] && 0 < id <= |ps| && ps[id - 1].kind == WcStore.Variable && !ps[id - 1].deleted
    then SaveAt(refused, ps, id, ps[id - 1].(defaultAttributes := d))
    else ps
  }

  /** The defaults land on the parent and only there, unless the store
      refuses the save; without defaults nothing changes. */
  lemma DefaultsOnParent(refused: iset<WcStore.Product>, ps: seq<WcStore.Product>, id: int, d: seq<(string, string)>)
    requires 0 < id <= |ps|
    ensures var r := WithDefaults(refused, ps, id, d);
      && (forall k :: 0 <= k < |ps| && k != id - 1 ==> r[k] == ps[k])
      && r[id - 1].(defaultAttributes := ps[id - 1].defaultAttributes) == ps[id - 1]
      && (d == [] ==> r == ps)
      && ((d != [] && ps[id - 1].kind == WcStore.Variable && !ps[id - 1].deleted && ps[id - 1].(defaultAttributes := d) !in refused)
          ==> r[id - 1] == ps[id - 1].(defaultAttributes := d))
  {
  }

  // ------------------------------------------------------------ outcomes

  /** What a create or an update leaves: the products, and the id or the
      error it returns. */
  datatype Outcome = Outcome(products: seq<WcStore.Product>, result: Result<int>)

  /** The post meta key that records the PrestaShop product id. */
  const PrestashopIdKey: string := "_presa_prestashop_id"

  const WooMissing: WpError := WpError("woocommerce_missing", "WooCommerce nije aktivan.")
  const VariableMissing: WpError := WpError("woocommerce_missing", "WooCommerce Variable proizvod nije dostupan.")
  const SaveFailed: WpError := WpError("save_failed", "Čuvanje proizvoda nije uspelo.")
  const VariableSaveFailed: WpError := WpError("save_failed", "Čuvanje variable proizvoda nije uspelo.")
  const NotFound: WpError := WpError("product_not_found", "WooCommerce proizvod nije pronađen.")

  /** save() of a new product p: its id when the store takes it, else e. */
  function InsertOutcome(refused: iset<WcStore.Product>, ps: seq<WcStore.Product>, p: WcStore.Product, e: WpError): Outcome {
    if p in refused then Outcome(ps, Err(e)) else Outcome(ps + [p], Ok(|ps| + 1))
  }

  /** create_wc_simple_product */
  function SimpleOutcome(refused: iset<WcStore.Product>, ps: seq<WcStore.Product>, product: Val,
                         cats: seq<int>, imageIds: seq<int>): Outcome {
    InsertOutcome(refused, ps, SimpleProduct(product, cats, imageIds), SaveFailed)
  }

  /** The legacy variations of a parent, in the order of the list. */
  function LegacyVariations(wp: Http.Wp, parent: int, slugMap: map<(string, string), string>, vs: seq<Val>): (r: seq<WcStore.Product>)
    ensures |r| == |vs|
    ensures forall i :: 0 <= i < |vs| ==> r[i] == VariationRules.LegacyVariation(wp, parent, slugMap, vs[i])
  {
    seq(|vs|, i requires 0 <= i < |vs| => VariationRules.LegacyVariation(wp, parent, slugMap, vs[i]))
  }

  /** The saves of create_wc_variable_product once its parent p is
      built: p, then each legacy variation the store takes. */
  function LegacySaves(refused: iset<WcStore.Product>, ps: seq<WcStore.Product>, wp: Http.Wp, p: WcStore.Product,
                       slugMap: map<(string, string), string>, variations: seq<Val>): Outcome {
    if p in refused then Outcome(ps, Err(VariableSaveFailed))
    else Outcome(ps + [p] + VariationRules.Kept(refused, LegacyVariations(wp, |ps| + 1, slugMap, variations)), Ok(|ps| + 1))
  }

  /** create_wc_variable_product, for the attributes and term slugs the
      legacy build gave. */
  function LegacyOutcome(refused: iset<WcStore.Product>, ps: seq<WcStore.Product>, wp: Http.Wp, product: Val,
                         cats: seq<int>, imageIds: seq<int>, attrs: seq<WcStore.Attribute>,
                         slugMap: map<(string, string), string>): Outcome {
    LegacySaves(refused, ps, wp, VariableParent(product, cats, imageIds, attrs), slugMap, MapperRules.ListField(product, "variations"))
  }

  /** The candidates of the product's combinations for a parent. */
  function ComboCandidates(wp: Http.Wp, viaDb: bool, parent: int, product: Val,
                           slugMap: map<(string, string), string>): seq<VariationRules.Candidate> {
    VariationRules.Candidates(VariationRules.Context(wp, viaDb, parent, MapperRules.PriceOf(product), slugMap),
                              MapperRules.ListField(product, "combinations"))
  }

  /** The saves of create_wc_variable_product_from_combinations once its
      parent p is built: p, the fold of the combination loop, then the
      first defaults on the parent. */
  function ComboSaves(refused: iset<WcStore.Product>, ps: seq<WcStore.Product>, wp: Http.Wp, viaDb: bool,
                      p: WcStore.Product, product: Val, slugMap: map<(string, string), string>): Outcome {
    if p in refused then Outcome(ps, Err(VariableSaveFailed))
    else
      var xs := ComboCandidates(wp, viaDb, |ps| + 1, product, slugMap);
      var run := VariationRules.Fold(refused, ps + [p], xs, |xs|);
      Outcome(WithDefaults(refused, run.products, |ps| + 1, run.firstDefault), Ok(|ps| + 1))
  }

  /** create_wc_variable_product_from_combinations with combinations, for
      the attributes and term slugs their build gave. */
  function ComboOutcome(refused: iset<WcStore.Product>, ps: seq<WcStore.Product>, wp: Http.Wp, viaDb: bool, product: Val,
                        cats: seq<int>, imageIds: seq<int>, attrs: seq<WcStore.Attribute>,
                        slugMap: map<(string, string), string>): Outcome {
    ComboSaves(refused, ps, wp, viaDb, VariableParent(product, cats, imageIds, attrs), product, slugMap)
  }

  /** create_wc_product with WooCommerce active: combinations first, then
      legacy variations, else a simple product. */
  function CreatedOutcome(refused: iset<WcStore.Product>, ps: seq<WcStore.Product>, wp: Http.Wp, viaDb: bool, product: Val,
                          cats: seq<int>, imageIds: seq<int>, attrs: seq<WcStore.Attribute>,
                          slugMap: map<(string, string), string>): Outcome {
    if MapperRules.ListField(product, "combinations") != [] then ComboOutcome(refused, ps, wp, viaDb, product, cats, imageIds, attrs, slugMap)
    else if MapperRules.ListField(product, "variations") != [] then LegacyOutcome(refused, ps, wp, product, cats, imageIds, attrs, slugMap)
    else SimpleOutcome(refused, ps, product, cats, imageIds)
  }

  /** A live variation whose parent is id (what get_children lists). */
  predicate ChildOf(p: WcStore.Product, id: int) {
    p.parent == id && p.kind == WcStore.Variation && !p.deleted
  }

  /** The products after the variations of product id are deleted. */
  function Orphaned(ps: seq<WcStore.Product>, id: int): (r: seq<WcStore.Product>)
    ensures |r| == |ps|
  {
    seq(|ps|, k requires 0 <= k < |ps| => if ChildOf(ps[k], id) then ps[k].(deleted := true) else ps[k])
  }

  /** Deleting the variations leaves product id without children among
      the first n products. */
  lemma {:induction false} OrphanedHasNoChildren(ps: seq<WcStore.Product>, id: int, n: nat)
    requires n <= |ps|
    ensures WcStore.ChildrenIn(Orphaned(ps, id), id, n) == []
  {
    if n > 0 {
      OrphanedHasNoChildren(ps, id, n - 1);
    }
  }

  /** Deleting the variations of id changes nothing else: other products
      are as they were, and the deleted ones differ only in being deleted. */
  lemma OrphanedKeeps(ps: seq<WcStore.Product>, id: int)
    ensures forall k :: 0 <= k < |ps| && !ChildOf(ps[k], id) ==> Orphaned(ps, id)[k] == ps[k]
    ensures forall k :: 0 <= k < |ps| ==> Orphaned(ps, id)[k].(deleted := ps[k].deleted) == ps[k]
  {
  }

  /** create_or_update_wc_product: without WooCommerce an error; an id of
      0 or less creates; an id that names no live product is not found;
      otherwise that product is updated. */
  function UpsertOutcome(refused: iset<WcStore.Product>, ps: seq<WcStore.Product>, wooActive: bool, wp: Http.Wp, viaDb: bool,
                         product: Val, existing: int, cats: seq<int>, imageIds: seq<int>, attrs: seq<WcStore.Attribute>,
                         slugMap: map<(string, string), string>): Outcome {
    if !wooActive then Outcome(ps, Err(WooMissing))
    else if existing <= 0 then CreatedOutcome(refused, ps, wp, viaDb, product, cats, imageIds, attrs, slugMap)
    else if !(existing <= |ps| && !ps[existing - 1].deleted) then Outcome(ps, Err(NotFound))
    else UpdatedOutcome(refused, ps, wp, viaDb, product, existing, cats, imageIds, attrs, slugMap)
  }

  /** The kind the product an upsert returns has: that of a retyped
      existing product, else the kind the data calls for. */
  function UpsertKind(ps: seq<WcStore.Product>, existing: int, product: Val): (k: WcStore.Kind)
    ensures !(0 < existing <= |ps| && ps[existing - 1].kind == WcStore.Variation) ==> k == MapperRules.KindFor(product)
  {
    if 0 < existing <= |ps| then MapperRules.RetypeKind(ps[existing - 1].kind, product) else MapperRules.KindFor(product)
  }

  /** An upsert that succeeds returns a product that exists, live and of
      the kind the data calls for (an existing variation stays one): the
      one asked for when that one was live, a new one otherwise; an upsert
      that fails changes nothing. */
  lemma UpsertShape(refused: iset<WcStore.Product>, ps: seq<WcStore.Product>, wooActive: bool, wp: Http.Wp, viaDb: bool,
                    product: Val, existing: int, cats: seq<int>, imageIds: seq<int>, attrs: seq<WcStore.Attribute>,
                    slugMap: map<(string, string), string>)
    ensures var o := UpsertOutcome(refused, ps, wooActive, wp, viaDb, product, existing, cats, imageIds, attrs, slugMap);
      && (o.result.Err? ==> o.products == ps)
      && (o.result.Ok? ==>
            && wooActive && 0 < o.result.value <= |o.products| && |ps| <= |o.products|
            && o.products[o.result.value - 1].kind == UpsertKind(ps, existing, product)
            && (existing > 0 ==> o.result.value == existing)
            && (existing <= 0 ==> o.result.value == |ps| + 1 && !o.products[|ps|].deleted))
  {
    if wooActive && existing <= 0 {
      CreatedShape(refused, ps, wp, viaDb, product, cats, imageIds, attrs, slugMap);
    } else if wooActive && existing <= |ps| && !ps[existing - 1].deleted {
      UpdatedShape(refused, ps, wp, viaDb, product, existing, cats, imageIds, attrs, slugMap);
    }
  }

  // -------------------------------------------------------------- brands

  /** (int) id_manufacturer when isset, else 0. */
  function ManufacturerId(product: Val): int {
    if FieldSet(product, "id_manufacturer") then ToInt(Field(product, "id_manufacturer")) else 0
  }

  /** (string) manufacturer_name when isset, else ''. */
  function ManufacturerName(product: Val): string {
    if FieldSet(product, "manufacturer_name") then ToStr(Field(product, "manufacturer_name")) else ""
  }

  /** The brand name set_product_brand assigns, '' when it skips the brand:
      no manufacturer name (whatever the manufacturer id), or a name that
      normalizes to nothing. */
  function BrandName(wp: Http.Wp, product: Val): (r: string)
    ensures ManufacturerName(product) == "" ==> r == ""
    ensures ManufacturerName(product) != "" ==> r == MapperRules.NormalizeBrandName(wp, ManufacturerName(product))
  {
    var name := ManufacturerName(product);
    if ManufacturerId(product) > 0 && name == "" then ""
    else if name == "" then ""
    else MapperRules.NormalizeBrandName(wp, name)
  }

  /** What get_or_create_brand_term gives for a name and a taxonomy, and
      the terms after it: nothing for an empty name, an empty or missing
      taxonomy; the first term with the slug; else a new term with that
      name and slug, unless the store refuses it. */
  ghost predicate BrandTermFound(name: string, tax: string, slug: string, taxonomies: set<string>,
                                 refused: iset<(string, string)>, ts: seq<WcStore.Term>, ts': seq<WcStore.Term>, t: Option<int>)
  {
    if name == "" || tax == "" || tax !in taxonomies then t.None? && ts' == ts
    else if slug != "" && WcStore.FindTerm(ts, tax, true, slug, 0).Some? then t == WcStore.FindTerm(ts, tax, true, slug, 0) && ts' == ts
    else if (tax, name) in refused then t.None? && ts' == ts
    else t == Some(|ts| + 1) && ts' == ts + [WcStore.Term(tax, name, slug, 0, "")]
  }

  /** The same brand twice gives the same term and creates nothing the
      second time: a brand never gets two terms. */
  lemma BrandTermReused(name: string, tax: string, slug: string, taxonomies: set<string>, refused: iset<(string, string)>,
                        ts: seq<WcStore.Term>, ts1: seq<WcStore.Term>, ts2: seq<WcStore.Term>, t1: Option<int>, t2: Option<int>)
    requires slug != ""
    requires BrandTermFound(name, tax, slug, taxonomies, refused, ts, ts1, t1)
    requires BrandTermFound(name, tax, slug, taxonomies, refused, ts1, ts2, t2)
    ensures t2 == t1 && ts2 == ts1
  {
    if name != "" && tax != "" && tax in taxonomies && WcStore.FindTerm(ts, tax, true, slug, 0).None? && (tax, name) !in refused {
      WcStore.FindTermAppend(ts, WcStore.Term(tax, name, slug, 0, ""), tax, true, slug, 0);
    }
  }

  /** What set_product_brand does once the brand name and the brand
      taxonomy are known: nothing without a name or a taxonomy; else the
      term get_or_create_brand_term gives, and with a term the product's
      brand terms replaced by it and the term's logo set. */
  ghost predicate BrandAssigned(name: string, tax: string, taxonomies: set<string>, refused: iset<(string, string)>,
                                ts: seq<WcStore.Term>, ts': seq<WcStore.Term>,
                                ot: map<(int, string), seq<int>>, ot': map<(int, string), seq<int>>,
                                th: map<int, int>, th': map<int, int>, cache: map<int, int>, cache': map<int, int>,
                                pid: int, idM: int, logo: Option<int>, slug: string, brand: Option<(string, int)>)
  {
    if name == "" || tax == "" then brand.None? && ts' == ts && ot' == ot && th' == th && cache' == cache
    else
      && BrandTermFound(name, tax, slug, taxonomies, refused, ts, ts', if brand.Some? then Some(brand.value.1) else None)
      && (brand.None? ==> ot' == ot && th' == th && cache' == cache)
      && (brand.Some? ==>
            && brand.value.0 == tax && 0 < brand.value.1 <= |ts'| && ts'[brand.value.1 - 1].taxonomy == tax
            && ot' == ot[(pid, tax) := [brand.value.1]]
            && BrandImageOutcome(th, cache, th', cache', brand.value.1, idM, logo))
  }

  /** A term's thumbnail_id, 0 when unset. */
  function Thumb(th: map<int, int>, term: int): int {
    if term in th then th[term] else 0
  }

  /** What maybe_set_brand_image does to the thumbnails and the logo cache,
      given the attachment the first usable logo URL gives: nothing when
      the term has a thumbnail; the cached attachment of the manufacturer
      when there is one (none when it is not positive); else the logo,
      cached for a positive manufacturer id. */
  ghost predicate BrandImageOutcome(th: map<int, int>, cache: map<int, int>, th': map<int, int>, cache': map<int, int>,
                                    term: int, idM: int, logo: Option<int>)
  {
    if Thumb(th, term) != 0 then th' == th && cache' == cache
    else if idM > 0 && idM in cache then cache' == cache && th' == (if cache[idM] > 0 then th[term := cache[idM]] else th)
    else if logo.Some? then th' == th[term := logo.value] && cache' == (if idM > 0 then cache[idM := logo.value] else cache)
    else th' == th && cache' == cache
  }

  /** A logo downloaded for a manufacturer serves every later brand term of
      that manufacturer in the import without a second download: whatever
      the later URLs would give, the later term gets the cached logo. */
  lemma BrandLogoCached(th: map<int, int>, cache: map<int, int>, th1: map<int, int>, cache1: map<int, int>,
                        th2: map<int, int>, cache2: map<int, int>,
                        term: int, term2: int, idM: int, logo: Option<int>, logo2: Option<int>)
    requires BrandImageOutcome(th, cache, th1, cache1, term, idM, logo)
    requires BrandImageOutcome(th1, cache1, th2, cache2, term2, idM, logo2)
    requires Thumb(th, term) == 0 && idM > 0 && idM !in cache && logo.Some? && logo.value > 0
    requires Thumb(th1, term2) == 0
    ensures cache1 == cache[idM := logo.value] && cache2 == cache1
    ensures th2 == th1[term2 := logo.value]
  {
  }

  /** The shape a create leaves: an error leaves the products as they
      were; otherwise the id is the next one, the products there were are
      kept, the product at the id has the given kind, name and categories,
      and everything saved after it is a live variation of it. */
  ghost predicate CreatedLike(ps: seq<WcStore.Product>, o: Outcome, kind: WcStore.Kind, product: Val, cats: seq<int>) {
    && (o.result.Err? ==> o.products == ps)
    && (o.result.Ok? ==>
          && o.result.value == |ps| + 1 && |ps| < |o.products| && o.products[..|ps|] == ps
          && o.products[|ps|].kind == kind && !o.products[|ps|].deleted
          && o.products[|ps|].name == MapperRules.ProductName(product) && o.products[|ps|].categoryIds == cats
          && forall k :: |ps| < k < |o.products| ==> ChildOf(o.products[k], |ps| + 1))
  }

  /** The defaults step keeps the shape the combination loop left. */
  lemma DefaultsShape(refused: iset<WcStore.Product>, ps: seq<WcStore.Product>, p: WcStore.Product, n: nat,
                      run: VariationRules.Run, product: Val, cats: seq<int>)
    requires VariationRules.Appended(|ps| + 1, ps + [p], n, run)
    requires p.kind == WcStore.Variable && !p.deleted && p.name == MapperRules.ProductName(product) && p.categoryIds == cats
    ensures CreatedLike(ps, Outcome(WithDefaults(refused, run.products, |ps| + 1, run.firstDefault), Ok(|ps| + 1)),
                        WcStore.Variable, product, cats)
  {
    var ps1 := ps + [p];
    assert run.products[..|ps1|] == ps1;
    assert run.products[|ps|] == p;
    DefaultsOnParent(refused, run.products, |ps| + 1, run.firstDefault);
    var r := WithDefaults(refused, run.products, |ps| + 1, run.firstDefault);
    assert r[..|ps|] == ps by {
      forall k | 0 <= k < |ps| ensures r[k] == ps[k] {
        assert run.products[k] == ps1[k];
      }
    }
  }

  lemma ComboShape(refused: iset<WcStore.Product>, ps: seq<WcStore.Product>, wp: Http.Wp, viaDb: bool, product: Val,
                   cats: seq<int>, imageIds: seq<int>, attrs: seq<WcStore.Attribute>, slugMap: map<(string, string), string>)
    ensures CreatedLike(ps, ComboOutcome(refused, ps, wp, viaDb, product, cats, imageIds, attrs, slugMap), WcStore.Variable, product, cats)
  {
    var p := VariableParent(product, cats, imageIds, attrs);
    if p !in refused {
      var ctx := VariationRules.Context(wp, viaDb, |ps| + 1, MapperRules.PriceOf(product), slugMap);
      var xs := ComboCandidates(wp, viaDb, |ps| + 1, product, slugMap);
      VariationRules.CandidatesLive(ctx, MapperRules.ListField(product, "combinations"));
      VariationRules.FoldShape(refused, |ps| + 1, ps + [p], xs, |xs|);
      DefaultsShape(refused, ps, p, |xs|, VariationRules.Fold(refused, ps + [p], xs, |xs|), product, cats);
    }
  }

  lemma LegacyShape(refused: iset<WcStore.Product>, ps: seq<WcStore.Product>, wp: Http.Wp, product: Val,
                    cats: seq<int>, imageIds: seq<int>, attrs: seq<WcStore.Attribute>, slugMap: map<(string, string), string>)
    ensures CreatedLike(ps, LegacyOutcome(refused, ps, wp, product, cats, imageIds, attrs, slugMap), WcStore.Variable, product, cats)
  {
    var p := VariableParent(product, cats, imageIds, attrs);
    if p !in refused {
      var vs := LegacyVariations(wp, |ps| + 1, slugMap, MapperRules.ListField(product, "variations"));
      var kept := VariationRules.Kept(refused, vs);
      var r := ps + [p] + kept;
      assert r[..|ps|] == ps;
      forall k | |ps| < k < |r| ensures ChildOf(r[k], |ps| + 1) {
        assert r[k] == kept[k - |ps| - 1];
        assert r[k] in vs;
      }
    }
  }

  /** create_wc_product makes the product the data calls for (variable
      with combinations or variations, simple otherwise) and hangs every
      variation it saves on it. */
  lemma CreatedShape(refused: iset<WcStore.Product>, ps: seq<WcStore.Product>, wp: Http.Wp, viaDb: bool, product: Val,
                     cats: seq<int>, imageIds: seq<int>, attrs: seq<WcStore.Attribute>, slugMap: map<(string, string), string>)
    ensures CreatedLike(ps, CreatedOutcome(refused, ps, wp, viaDb, product, cats, imageIds, attrs, slugMap),
                        MapperRules.KindFor(product), product, cats)
  {
    if MapperRules.ListField(product, "combinations") != [] {
      ComboShape(refused, ps, wp, viaDb, product, cats, imageIds, attrs, slugMap);
    } else if MapperRules.ListField(product, "variations") != [] {
      LegacyShape(refused, ps, wp, product, cats, imageIds, attrs, slugMap);
    } else {
      SimpleShape(refused, ps, product, cats, imageIds);
    }
  }

  lemma SimpleShape(refused: iset<WcStore.Product>, ps: seq<WcStore.Product>, product: Val, cats: seq<int>, imageIds: seq<int>)
    ensures CreatedLike(ps, SimpleOutcome(refused, ps, product, cats, imageIds), WcStore.Simple, product, cats)
  {
    var p := SimpleProduct(product, cats, imageIds);
    assert (ps + [p])[..|ps|] == ps;
  }

  // -------------------------------------------------------------- update

  /** update_post_meta(id, key, value) on product id. */
  function WithMeta(ps: seq<WcStore.Product>, id: int, key: string, value: string): (r: seq<WcStore.Product>)
    ensures |r| == |ps|
    ensures forall k :: 0 <= k < |ps| && k != id - 1 ==> r[k] == ps[k]
    ensures 0 < id <= |ps| ==> r[id - 1] == ps[id - 1].(meta := Http.SetParam(ps[id - 1].meta, key, value))
  {
    if 0 < id <= |ps| then ps[id - 1 := ps[id - 1].(meta := Http.SetParam(ps[id - 1].meta, key, value))] else ps
  }

  /** The products before the update saves: a variable product's
      variations deleted, and the product retyped (a variation stays one). */
  function Retyped(ps: seq<WcStore.Product>, e: int, product: Val): (r: seq<WcStore.Product>)
    requires 0 < e <= |ps|
    ensures |r| == |ps|
  {
    var ps1 := if ps[e - 1].kind == WcStore.Variable then Orphaned(ps, e) else ps;
    ps1[e - 1 := ps1[e - 1].(kind := MapperRules.RetypeKind(ps[e - 1].kind, product))]
  }

  /** The combinations branch of an update: the product saved with the
      attributes, the combination loop, and the product saved again with
      the first defaults when there are some. */
  function ComboUpdate(refused: iset<WcStore.Product>, ps: seq<WcStore.Product>, wp: Http.Wp, viaDb: bool, product: Val,
                       e: int, q: WcStore.Product, slugMap: map<(string, string), string>): seq<WcStore.Product>
  {
    var ps1 := SaveAt(refused, ps, e, q);
    var xs := ComboCandidates(wp, viaDb, e, product, slugMap);
    var run := VariationRules.Fold(refused, ps1, xs, |xs|);
    if run.firstDefault != [] then SaveAt(refused, run.products, e, q.(defaultAttributes := run.firstDefault)) else run.products
  }

  /** The saves of an update after the base data q: by combinations,
      by legacy variations, or as a simple product. */
  function UpdateSaves(refused: iset<WcStore.Product>, ps: seq<WcStore.Product>, wp: Http.Wp, viaDb: bool, product: Val,
                       e: int, q: WcStore.Product, attrs: seq<WcStore.Attribute>,
                       slugMap: map<(string, string), string>): seq<WcStore.Product>
  {
    if MapperRules.ListField(product, "combinations") != [] then
      ComboUpdate(refused, ps, wp, viaDb, product, e, q.(manageStock := false, attributes := attrs), slugMap)
    else if MapperRules.ListField(product, "variations") != [] then
      SaveAt(refused, ps, e, q.(manageStock := false, attributes := attrs))
        + VariationRules.Kept(refused, LegacyVariations(wp, e, slugMap, MapperRules.ListField(product, "variations")))
    else SaveAt(refused, ps, e, MapperRules.WithSimpleData(q, product))
  }

  /** create_or_update_wc_product for an existing product e, for the
      category ids, attributes and term slugs it resolved: the product is
      rewritten in place with the data, its variations replaced, and its
      PrestaShop id recorded; the returned id is e. */
  function UpdatedOutcome(refused: iset<WcStore.Product>, ps: seq<WcStore.Product>, wp: Http.Wp, viaDb: bool, product: Val,
                          e: int, cats: seq<int>, imageIds: seq<int>, attrs: seq<WcStore.Attribute>,
                          slugMap: map<(string, string), string>): Outcome
    requires 0 < e <= |ps|
  {
    var ps2 := Retyped(ps, e, product);
    var q := MapperRules.WithBaseData(ps2[e - 1], product, cats, imageIds);
    var ps4 := UpdateSaves(refused, ps2, wp, viaDb, product, e, q, attrs, slugMap);
    Outcome(WithMeta(ps4, e, PrestashopIdKey, ToStr(Field(product, "id"))), Ok(e))
  }

  /** The saves of an update touch product e only as far as its kind
      goes, keep every other product, and add only variations of e. */
  ghost predicate KeepsOthers(ps: seq<WcStore.Product>, qs: seq<WcStore.Product>, e: int) {
    && 0 < e <= |ps| <= |qs|
    && qs[e - 1].kind == ps[e - 1].kind
    && (forall k :: 0 <= k < |ps| && k != e - 1 ==> qs[k] == ps[k])
    && (forall k :: |ps| <= k < |qs| ==> ChildOf(qs[k], e))
  }

  lemma SaveAtKeeps(refused: iset<WcStore.Product>, ps: seq<WcStore.Product>, e: int, q: WcStore.Product)
    requires 0 < e <= |ps| && q.kind == ps[e - 1].kind
    ensures KeepsOthers(ps, SaveAt(refused, ps, e, q), e)
  {
  }

  lemma AppendedKeeps(ps: seq<WcStore.Product>, e: int, n: nat, run: VariationRules.Run)
    requires 0 < e <= |ps| && VariationRules.Appended(e, ps, n, run)
    ensures KeepsOthers(ps, run.products, e)
  {
    forall k | 0 <= k < |ps| ensures run.products[k] == ps[k] {
      assert run.products[..|ps|][k] == run.products[k];
    }
  }

  lemma KeepsOthersTrans(a: seq<WcStore.Product>, b: seq<WcStore.Product>, c: seq<WcStore.Product>, e: int)
    requires KeepsOthers(a, b, e) && KeepsOthers(b, c, e)
    ensures KeepsOthers(a, c, e)
  {
  }

  lemma ComboUpdateKeeps(refused: iset<WcStore.Product>, ps: seq<WcStore.Product>, wp: Http.Wp, viaDb: bool, product: Val,
                         e: int, q: WcStore.Product, slugMap: map<(string, string), string>)
    requires 0 < e <= |ps| && q.kind == ps[e - 1].kind
    ensures KeepsOthers(ps, ComboUpdate(refused, ps, wp, viaDb, product, e, q, slugMap), e)
  {
    var ps1 := SaveAt(refused, ps, e, q);
    SaveAtKeeps(refused, ps, e, q);
    var ctx := VariationRules.Context(wp, viaDb, e, MapperRules.PriceOf(product), slugMap);
    var xs := ComboCandidates(wp, viaDb, e, product, slugMap);
    VariationRules.CandidatesLive(ctx, MapperRules.ListField(product, "combinations"));
    VariationRules.FoldShape(refused, e, ps1, xs, |xs|);
    var run := VariationRules.Fold(refused, ps1, xs, |xs|);
    AppendedKeeps(ps1, e, |xs|, run);
    KeepsOthersTrans(ps, ps1, run.products, e);
    if run.firstDefault != [] {
      SaveAtKeeps(refused, run.products, e, q.(defaultAttributes := run.firstDefault));
      KeepsOthersTrans(ps, run.products, SaveAt(refused, run.products, e, q.(defaultAttributes := run.firstDefault)), e);
    }
  }

  lemma LegacyUpdateKeeps(refused: iset<WcStore.Product>, ps: seq<WcStore.Product>, e: int, q: WcStore.Product,
                          vs: seq<WcStore.Product>)
    requires 0 < e <= |ps| && q.kind == ps[e - 1].kind
    requires forall i :: 0 <= i < |vs| ==> ChildOf(vs[i], e)
    ensures KeepsOthers(ps, SaveAt(refused, ps, e, q) + VariationRules.Kept(refused, vs), e)
  {
    var ps1 := SaveAt(refused, ps, e, q);
    var kept := VariationRules.Kept(refused, vs);
    var r := ps1 + kept;
    forall k | |ps| <= k < |r| ensures ChildOf(r[k], e) {
      assert r[k] == kept[k - |ps|];
      assert r[k] in vs;
    }
  }

  lemma UpdateSavesKeep(refused: iset<WcStore.Product>, ps: seq<WcStore.Product>, wp: Http.Wp, viaDb: bool, product: Val,
                        e: int, q: WcStore.Product, attrs: seq<WcStore.Attribute>, slugMap: map<(string, string), string>)
    requires 0 < e <= |ps| && q.kind == ps[e - 1].kind
    ensures KeepsOthers(ps, UpdateSaves(refused, ps, wp, viaDb, product, e, q, attrs, slugMap), e)
  {
    var variations := MapperRules.ListField(product, "variations");
    if MapperRules.ListField(product, "combinations") != [] {
      ComboUpdateKeeps(refused, ps, wp, viaDb, product, e, q.(manageStock := false, attributes := attrs), slugMap);
    } else if variations != [] {
      LegacyUpdateKeeps(refused, ps, e, q.(manageStock := false, attributes := attrs), LegacyVariations(wp, e, slugMap, variations));
    } else {
      SaveAtKeeps(refused, ps, e, MapperRules.WithSimpleData(q, product));
    }
  }

  /** Product e of ps2 has the kind, the products that are neither e nor
      its variations are those of ps, and the variations are deleted when
      del holds and kept otherwise. */
  ghost predicate ReplacedLike(ps: seq<WcStore.Product>, qs: seq<WcStore.Product>, e: int, kind: WcStore.Kind, del: bool) {
    && 0 < e <= |ps| <= |qs|
    && qs[e - 1].kind == kind
    && (forall k :: 0 <= k < |ps| && k != e - 1 && !ChildOf(ps[k], e) ==> qs[k] == ps[k])
    && (forall k :: 0 <= k < |ps| && k != e - 1 && ChildOf(ps[k], e) ==> qs[k] == if del then ps[k].(deleted := true) else ps[k])
  }

  lemma RetypedShape(ps: seq<WcStore.Product>, e: int, product: Val)
    requires 0 < e <= |ps|
    ensures ReplacedLike(ps, Retyped(ps, e, product), e, MapperRules.RetypeKind(ps[e - 1].kind, product), ps[e - 1].kind == WcStore.Variable)
  {
    OrphanedKeeps(ps, e);
  }

  lemma MetaShape(ps: seq<WcStore.Product>, ps2: seq<WcStore.Product>, ps4: seq<WcStore.Product>, e: int,
                  kind: WcStore.Kind, del: bool, value: string)
    requires ReplacedLike(ps, ps2, e, kind, del) && |ps2| == |ps| && KeepsOthers(ps2, ps4, e)
    ensures var r := WithMeta(ps4, e, PrestashopIdKey, value);
      && ReplacedLike(ps, r, e, kind, del)
      && Http.ParamOf(r[e - 1].meta, PrestashopIdKey) == Some(value)
      && (forall k :: |ps| <= k < |r| ==> ChildOf(r[k], e))
  {
    Http.ParamOfSetSame(ps4[e - 1].meta, PrestashopIdKey, value);
  }

  /** What create_or_update_wc_product promises for an existing product:
      it returns e, keeps every product that is neither e nor one of its
      variations, deletes the variations a variable product had, gives e
      the kind the data calls for (a variation stays one) and records the PrestaShop id on it, and
      adds only variations of e. */
  lemma UpdatedShape(refused: iset<WcStore.Product>, ps: seq<WcStore.Product>, wp: Http.Wp, viaDb: bool, product: Val,
                     e: int, cats: seq<int>, imageIds: seq<int>, attrs: seq<WcStore.Attribute>,
                     slugMap: map<(string, string), string>)
    requires 0 < e <= |ps|
    ensures var o := UpdatedOutcome(refused, ps, wp, viaDb, product, e, cats, imageIds, attrs, slugMap);
      && o.result == Ok(e)
      && ReplacedLike(ps, o.products, e, MapperRules.RetypeKind(ps[e - 1].kind, product), ps[e - 1].kind == WcStore.Variable)
      && Http.ParamOf(o.products[e - 1].meta, PrestashopIdKey) == Some(ToStr(Field(product, "id")))
      && (forall k :: |ps| <= k < |o.products| ==> ChildOf(o.products[k], e))
  {
    var ps2 := Retyped(ps, e, product);
    RetypedShape(ps, e, product);
    var q := MapperRules.WithBaseData(ps2[e - 1], product, cats, imageIds);
    MapperRules.BaseDataImages(ps2[e - 1], product, cats, imageIds);
    UpdateSavesKeep(refused, ps2, wp, viaDb, product, e, q, attrs, slugMap);
    MetaShape(ps, ps2, UpdateSaves(refused, ps2, wp, viaDb, product, e, q, attrs, slugMap), e,
              MapperRules.RetypeKind(ps[e - 1].kind, product), ps[e - 1].kind == WcStore.Variable, ToStr(Field(product, "id")));
  }
}
