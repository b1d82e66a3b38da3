/** The pure rules of the product mapper: category slugs and parents,
    attribute and term slugs, attribute labels, brand names and brand
    taxonomies, and the base and simple data a WooCommerce product takes
    from a PrestaShop product. */
module MapperRules {
  import opened Common
  import opened Php
  import Text
  import Http
  import FieldNormalizer
  import DbShape
  import WcStore

  /** get_first_lang of `isset($v[name]) ? $v[name] : ''`. */
  function LangField(v: Val, name: string): string {
    FieldNormalizer.GetFirstLang(Coalesce(Field(v, name), Str("")))
  }

  // ------------------------------------------------------------ categories

  /** The category slug: sanitized link_rewrite when it is truthy, else the
      sanitized name. */
  function CategorySlug(wp: Http.Wp, cat: Val): string {
    var linkRewrite := LangField(cat, "link_rewrite");
    if !DbShape.Falsy(linkRewrite) then wp.sanitizeTitle(linkRewrite) else wp.sanitizeTitle(LangField(cat, "name"))
  }

  /** (int) id_parent when id_parent is non-empty and positive, else 0. */
  function ParentOf(cat: Val): (r: int)
    ensures r >= 0
  {
    var p := Field(cat, "id_parent");
    if !Empty(p) && ToInt(p) > 0 then ToInt(p) else 0
  }

  /** The category get_or_create_wc_category resolves first for what
      get_category answered, if any: only a non-empty category with a
      truthy name and a positive parent gets that far. */
  function ParentRequest(fetched: Result<Val>): Option<int> {
    if fetched.Err? || Empty(fetched.value) || DbShape.Falsy(LangField(fetched.value, "name"))
       || ParentOf(fetched.value) == 0
    then None
    else Some(ParentOf(fetched.value))
  }

  /** The parent chain from id ends within d steps. */
  predicate ChainEnds(fetch: int -> Result<Val>, id: int, d: nat)
    decreases d
  {
    match ParentRequest(fetch(id))
    case None => true
    case Some(p) => d > 0 && ChainEnds(fetch, p, d - 1)
  }

  /** The client's get_category, and a bound within which every parent
      chain ends. */
  datatype CategorySource = CategorySource(fetch: int -> Result<Val>, depth: nat)

  /** Every parent chain of the source ends within its depth: the
      recursion over parents in get_or_create_wc_category never runs
      forever over it. */
  ghost predicate ChainsEnd(c: CategorySource) {
    forall id :: ChainEnds(c.fetch, id, c.depth)
  }

  /** get_category(id) */
  function Category(c: CategorySource, id: int): Result<Val> {
    c.fetch(id)
  }

  /** A category that is its own parent has no ending chain. */
  lemma {:induction false} SelfParentNeverEnds(fetch: int -> Result<Val>, id: int, d: nat)
    ensures ParentRequest(fetch(id)) == Some(id) ==> !ChainEnds(fetch, id, d)
    decreases d
  {
    if d > 0 {
      SelfParentNeverEnds(fetch, id, d - 1);
    }
  }

  /** A chain that ends within d steps ends within any larger bound. */
  lemma {:induction false} ChainEndsMonotone(fetch: int -> Result<Val>, id: int, d: nat, e: nat)
    requires ChainEnds(fetch, id, d) && d <= e
    ensures ChainEnds(fetch, id, e)
    decreases d
  {
    match ParentRequest(fetch(id))
    case None =>
    case Some(p) => ChainEndsMonotone(fetch, p, d - 1, e - 1);
  }

  // ------------------------------------------------------- attribute slugs

  /** normalize_attr_slug: the database adapter's rule when the source is
      the database (it has its own normalize_attr_slug), else "pa_" and the
      sanitized name, "pa_option" when that is the empty string. */
  function AttrSlug(wp: Http.Wp, viaDb: bool, groupName: string): (r: string)
    ensures |r| > 3 && r[..3] == "pa_"
  {
    if viaDb then DbShape.NormalizeAttrSlug(wp, groupName)
    else
      var slug := wp.sanitizeTitle(groupName);
      if slug != "" then "pa_" + slug else "pa_option"
  }

  /** The mapper's own normalize_term_slug, also the slug rule of
      get_or_create_attribute_term: the sanitized name, or "term-" and its
      md5 when that is empty. */
  function OwnTermSlug(wp: Http.Wp, valueName: string): (r: string)
    ensures r != ""
  {
    var slug := wp.sanitizeTitle(valueName);
    if slug != "" then slug else "term-" + wp.md5(valueName)
  }

  /** normalize_term_slug: the database adapter's (sanitize_title alone)
      when the source is the database, else the mapper's own. */
  function TermSlug(wp: Http.Wp, viaDb: bool, valueName: string): string {
    if viaDb then wp.sanitizeTitle(valueName) else OwnTermSlug(wp, valueName)
  }

  /** The two slug rules differ only where sanitize_title gives "0": the
      database adapter turns it into "pa_option", the mapper keeps "pa_0". */
  lemma AttrSlugSourcesAgree(wp: Http.Wp, groupName: string)
    ensures wp.sanitizeTitle(groupName) != "0" ==> AttrSlug(wp, true, groupName) == AttrSlug(wp, false, groupName)
    ensures wp.sanitizeTitle(groupName) == "0" ==> AttrSlug(wp, true, groupName) == "pa_option" && AttrSlug(wp, false, groupName) == "pa_0"
  {
  }

  // ------------------------------------------------------ attribute labels

  /** str_replace('pa_', '', $s): every occurrence, scanning left to right. */
  function StripPa(s: string): (r: string)
    ensures |r| <= |s|
  {
    if |s| >= 3 && s[..3] == "pa_" then StripPa(s[3..])
    else if s == [] then []
    else [s[0]] + StripPa(s[1..])
  }

  /** str_replace(array('-', '_'), ' ', $s) */
  function Spaced(s: string): (r: string)
    ensures |r| == |s|
    ensures forall i :: 0 <= i < |s| ==> r[i] == (if s[i] == '-' || s[i] == '_' then ' ' else s[i])
  {
    if s == [] then [] else [if s[0] == '-' || s[0] == '_' then ' ' else s[0]] + Spaced(s[1..])
  }

  /** The label ensure_attribute_taxonomy gives a new attribute. */
  function AttributeLabel(taxonomy: string): string {
    Text.Ucfirst(Spaced(StripPa(taxonomy)))
  }

  /** The attribute slug ensure_attribute_taxonomy registers. */
  function AttributeSlugOf(taxonomy: string): string {
    StripPa(taxonomy)
  }

  /** A label has one character per character of the slug and no '-' or
      '_'; after the first letter it is the slug with those made spaces. */
  lemma AttributeLabelShape(taxonomy: string)
    ensures var slug := StripPa(taxonomy); var title := AttributeLabel(taxonomy);
      |title| == |slug|
      && (forall i :: 0 <= i < |title| ==> title[i] != '-' && title[i] != '_')
      && (forall i :: 1 <= i < |title| ==> title[i] == (if slug[i] == '-' || slug[i] == '_' then ' ' else slug[i]))
  {
  }

  /** A string in which "pa_" does not occur is left as it is. */
  lemma {:induction false} StripPaPlain(s: string)
    requires !Text.Contains(s, "pa_")
    ensures StripPa(s) == s
  {
    if s != [] {
      assert !(|s| >= 3 && s[..3] == "pa_") by {
        if |s| >= 3 && s[..3] == "pa_" { assert Text.OccursAt(s, "pa_", 0); }
      }
      assert !Text.Contains(s[1..], "pa_") by {
        if Text.Contains(s[1..], "pa_") {
          var i :| 0 <= i <= |s[1..]| - 3 && Text.OccursAt(s[1..], "pa_", i);
          assert s[i + 1..i + 4] == s[1..][i..i + 3];
          assert Text.OccursAt(s, "pa_", i + 1);
        }
      }
      StripPaPlain(s[1..]);
    }
  }

  /** For a taxonomy "pa_" + slug where "pa_" does not occur in slug, the
      registered attribute slug is slug. */
  lemma StripPaPrefix(slug: string)
    requires !Text.Contains(slug, "pa_")
    ensures AttributeSlugOf("pa_" + slug) == slug
  {
    assert ("pa_" + slug)[3..] == slug;
    StripPaPlain(slug);
  }

  // ------------------------------------------------------------------ brands

  /** normalize_brand_name: trim; empty stays empty; else strip tags,
      collapse every \s run to one space, trim again. */
  function NormalizeBrandName(wp: Http.Wp, name: string): (r: string)
    ensures Text.Trimmed(r) && Text.SingleSpaced(r)
    ensures Text.Trim(name) == "" ==> r == ""
  {
    var t := Text.Trim(name);
    if t == "" then ""
    else
      var c := Text.CollapseWhitespace(wp.stripAllTags(t));
      Text.CollapseWhitespaceSingleSpaced(wp.stripAllTags(t));
      Text.TrimSingleSpaced(c);
      Text.TrimSpec(c);
      Text.Trim(c)
  }

  /** The brand term slug: the sanitized name, or "brand-" and its md5. */
  function BrandSlug(wp: Http.Wp, name: string): (r: string)
    ensures r != ""
    ensures wp.sanitizeTitle(name) != "" ==> r == wp.sanitizeTitle(name)
  {
    var slug := wp.sanitizeTitle(name);
    if slug != "" then slug else "brand-" + wp.md5(name)
  }

  /** get_brand_taxonomy on a cache miss: product_brand when that taxonomy
      exists, else presa_product_brand when it exists, else none (''). */
  function BrandTaxonomyOf(taxonomies: set<string>): (r: string)
    ensures r == "product_brand" <==> "product_brand" in taxonomies
    ensures r == "presa_product_brand" <==> "product_brand" !in taxonomies && "presa_product_brand" in taxonomies
    ensures r == "" <==> "product_brand" !in taxonomies && "presa_product_brand" !in taxonomies
    ensures r != "" ==> r in taxonomies
  {
    if "product_brand" in taxonomies then "product_brand"
    else if "presa_product_brand" in taxonomies then "presa_product_brand"
    else ""
  }

  /** What the i-th logo URL gives on its own: esc_url_raw must leave it
      truthy, the HEAD check must pass and the sideload must succeed. */
  function LogoAt(wp: Http.Wp, media: Http.Media, urls: seq<Val>, i: int): Option<int>
    requires 0 <= i < |urls|
  {
    var url := wp.escUrlRaw(ToStr(urls[i]));
    if DbShape.Falsy(url) || !Http.ImageHead(media.head(url)) then None else media.sideload(url)
  }

  /** The attachment the first usable logo URL from i on gives. */
  function FirstLogo(wp: Http.Wp, media: Http.Media, urls: seq<Val>, i: nat): (r: Option<int>)
    requires i <= |urls|
    ensures r.Some? ==> exists k :: i <= k < |urls| && LogoAt(wp, media, urls, k) == r
                                   && forall j :: i <= j < k ==> LogoAt(wp, media, urls, j).None?
    ensures r.None? ==> forall k :: i <= k < |urls| ==> LogoAt(wp, media, urls, k).None?
    decreases |urls| - i
  {
    if i == |urls| then None
    else if LogoAt(wp, media, urls, i).Some? then LogoAt(wp, media, urls, i)
    else FirstLogo(wp, media, urls, i + 1)
  }

  // ------------------------------------------------------------- base data

  /** The product name: get_first_lang of name, or "Proizvod #" and the id
      when that is falsy ('' or '0'). */
  function ProductName(product: Val): (r: string)
    ensures r != ""
    ensures !DbShape.Falsy(LangField(product, "name")) ==> r == LangField(product, "name")
    ensures DbShape.Falsy(LangField(product, "name")) ==> Text.StartsWith(r, "Proizvod #")
  {
    var name := LangField(product, "name");
    if !DbShape.Falsy(name) then name else "Proizvod #" + ToStr(Coalesce(Field(product, "id"), Str("")))
  }

  /** The post status: publish when active is non-empty and not "0". */
  function StatusOf(product: Val): string {
    if !Empty(Field(product, "active")) && Field(product, "active") != Str("0") then "publish" else "draft"
  }

  /** The "and not '0'" test adds nothing: empty() already holds of "0",
      so a product is published exactly when active is truthy. */
  lemma PublishedIffTruthy(product: Val)
    ensures StatusOf(product) == "publish" <==> !Empty(Field(product, "active"))
    ensures StatusOf(product) == "publish" || StatusOf(product) == "draft"
  {
  }

  /** A dimension set when the field is non-empty (width, height, depth). */
  function DimensionOf(product: Val, name: string, current: Option<real>): Option<real> {
    if !Empty(Field(product, name)) then Some(ToReal(Field(product, name))) else current
  }

  /** The weight, set when isset and not ''. */
  function WeightOf(product: Val, current: Option<real>): Option<real> {
    if FieldSet(product, "weight") && Field(product, "weight") != Str("") then Some(ToReal(Field(product, "weight"))) else current
  }

  /** update_meta_data(key, v[name]) when that is isset and not ''. */
  function CodeMeta(meta: seq<(string, string)>, product: Val, name: string, key: string): seq<(string, string)> {
    if FieldSet(product, name) && Field(product, name) != Str("") then Http.SetParam(meta, key, ToStr(Field(product, name))) else meta
  }

  /** set_wc_product_base_data applied to p, for the category ids
      get_wc_category_ids gave and the attachment ids of the images. */
  function WithBaseData(p: WcStore.Product, product: Val, categoryIds: seq<int>, imageIds: seq<int>): (r: WcStore.Product)
  {
    p.(name := ProductName(product),
       description := LangField(product, "description"),
       shortDescription := LangField(product, "description_short"),
       status := StatusOf(product),
       weight := WeightOf(product, p.weight),
       width := DimensionOf(product, "width", p.width),
       height := DimensionOf(product, "height", p.height),
       length := DimensionOf(product, "depth", p.length),
       categoryIds := if categoryIds != [] then categoryIds else p.categoryIds,
       imageId := if imageIds != [] then imageIds[0] else p.imageId,
       galleryIds := if |imageIds| > 1 then imageIds[1..] else p.galleryIds,
       meta := CodeMeta(CodeMeta(CodeMeta(p.meta, product, "ean13", "_ean13"), product, "upc", "_upc"), product, "isbn", "_isbn"))
  }

  /** The first image is featured and the rest form the gallery; no
      images and no categories leave those settings as they were; the
      kind, parent, price, SKU, stock and attributes are untouched. */
  lemma BaseDataImages(p: WcStore.Product, product: Val, categoryIds: seq<int>, imageIds: seq<int>)
    ensures var r := WithBaseData(p, product, categoryIds, imageIds);
      && (imageIds != [] ==> r.imageId == imageIds[0] && [r.imageId] + (if |imageIds| > 1 then r.galleryIds else []) == imageIds)
      && (imageIds == [] ==> r.imageId == p.imageId && r.galleryIds == p.galleryIds)
      && (categoryIds != [] ==> r.categoryIds == categoryIds)
      && (categoryIds == [] ==> r.categoryIds == p.categoryIds)
      && r.name != "" && (r.status == "publish" <==> !Empty(Field(product, "active")))
      && r.kind == p.kind && r.parent == p.parent && r.regularPrice == p.regularPrice && r.sku == p.sku
      && r.manageStock == p.manageStock && r.stockQuantity == p.stockQuantity && r.stockStatus == p.stockStatus
      && r.attributes == p.attributes && r.variationAttributes == p.variationAttributes && r.deleted == p.deleted
  {
    PublishedIffTruthy(product);
  }

  // ----------------------------------------------------------- simple data

  /** The stock status for a quantity. */
  function StockStatusOf(qty: int): (r: string)
    ensures r == "instock" <==> qty > 0
    ensures r == "instock" || r == "outofstock"
  {
    if qty > 0 then "instock" else "outofstock"
  }

  /** The regular price: floatval of price when isset, else 0. */
  function PriceOf(product: Val): real {
    if FieldSet(product, "price") then ToReal(Field(product, "price")) else 0.0
  }

  /** The SKU: reference as a string when it is scalar, get_first_lang of
      it otherwise ('' when not isset). */
  function ReferenceOf(product: Val): string {
    var reference := Coalesce(Field(product, "reference"), Str(""));
    if IsScalar(reference) then ToStr(reference) else FieldNormalizer.GetFirstLang(reference)
  }

  /** The stock quantity: (int) quantity when isset and not '', else 0. */
  function QuantityOf(product: Val): int {
    if FieldSet(product, "quantity") && Field(product, "quantity") != Str("") then ToInt(Field(product, "quantity")) else 0
  }

  /** The price, SKU and stock a simple product gets. */
  function WithSimpleData(p: WcStore.Product, product: Val): (r: WcStore.Product)
    ensures r.regularPrice == Some(PriceOf(product)) && r.manageStock && r.stockQuantity == QuantityOf(product)
    ensures r.stockStatus == "instock" <==> r.stockQuantity > 0
    ensures ReferenceOf(product) != "" ==> r.sku == ReferenceOf(product)
    ensures ReferenceOf(product) == "" ==> r.sku == p.sku
    ensures r.(regularPrice := p.regularPrice, sku := p.sku, manageStock := p.manageStock,
               stockQuantity := p.stockQuantity, stockStatus := p.stockStatus) == p
  {
    var qty := QuantityOf(product);
    var reference := ReferenceOf(product);
    p.(regularPrice := Some(PriceOf(product)),
       sku := if reference != "" then reference else p.sku,
       manageStock := true,
       stockQuantity := qty,
       stockStatus := StockStatusOf(qty))
  }

  /** A missing quantity and an empty-string quantity both give 0 stock;
      an integer quantity is taken as it is. */
  lemma QuantityDefaults(product: Val)
    ensures !FieldSet(product, "quantity") ==> QuantityOf(product) == 0
    ensures Field(product, "quantity") == Str("") ==> QuantityOf(product) == 0
    ensures Field(product, "quantity").Int? ==> QuantityOf(product) == Field(product, "quantity").i
  {
  }

  // ------------------------------------------------------------ dispatch

  /** `isset($v[name]) && is_array($v[name]) ? values : array()` */
  function ListField(v: Val, name: string): (r: seq<Val>)
    ensures Field(v, name).Arr? ==> |r| == |Field(v, name).entries|
    ensures !Field(v, name).Arr? ==> r == []
  {
    if Field(v, name).Arr? then Values(Field(v, name)) else []
  }

  /** The kind create_wc_product makes: variable when the product has
      combinations or (legacy) variations, simple otherwise. */
  function KindFor(product: Val): (k: WcStore.Kind)
    ensures k == WcStore.Variable <==> ListField(product, "combinations") != [] || ListField(product, "variations") != []
    ensures k != WcStore.Variation
  {
    if ListField(product, "combinations") != [] || ListField(product, "variations") != [] then WcStore.Variable else WcStore.Simple
  }

  /** The kind an existing product has after wp_set_object_terms and the
      reload: WooCommerce types a product_variation post by its post type,
      so a variation stays a variation; any other product takes the kind
      the data calls for. */
  function RetypeKind(current: WcStore.Kind, product: Val): (k: WcStore.Kind)
    ensures k == WcStore.Variation <==> current == WcStore.Variation
    ensures current != WcStore.Variation ==> k == KindFor(product)
  {
    if current == WcStore.Variation then WcStore.Variation else KindFor(product)
  }
}
