/** The WordPress and WooCommerce side of a migration, as an in-memory store:
    terms and their taxonomies, the global product attributes, products and
    variations with their post meta, term meta and term assignments. Ids are
    positions: the post, term or attribute at index i has id i + 1. What the
    store refuses to save or insert is left to oracles. */
module WcStore {
  import opened Common
  import Http

  /** A term of some taxonomy (get_term). */
  datatype Term = Term(taxonomy: string, name: string, slug: string, parent: int, description: string)

  datatype Kind = Simple | Variable | Variation

  /** A WC_Product_Attribute of a variable product. */
  datatype Attribute = Attribute(id: int, name: string, options: seq<int>, visible: bool, variation: bool)

  /** A WC_Product (or WC_Product_Variation) as saved. Prices and
      dimensions are the numbers the source formats into strings;
      variation attributes, default attributes and meta are PHP string-keyed
      arrays in insertion order. */
  datatype Product = Product(
    kind: Kind, parent: int,
    name: string, description: string, shortDescription: string, status: string,
    sku: string, regularPrice: Option<real>,
    manageStock: bool, stockQuantity: int, stockStatus: string,
    weight: Option<real>, width: Option<real>, height: Option<real>, length: Option<real>,
    categoryIds: seq<int>, imageId: int, galleryIds: seq<int>,
    attributes: seq<Attribute>,
    variationAttributes: seq<(string, string)>,
    defaultAttributes: seq<(string, string)>,
    meta: seq<(string, string)>,
    deleted: bool)

  /** A new, empty WC_Product of the given kind. */
  function NewProduct(kind: Kind): (p: Product)
    ensures p.kind == kind && !p.deleted && p.sku == "" && p.meta == []
  {
    Product(kind, 0, "", "", "", "draft", "", None, false, 0, "instock", None, None, None, None,
            [], 0, [], [], [], [], [], false)
  }

  /** A registered global attribute (wc_create_attribute): its slug and label (title). */
  datatype AttributeDef = AttributeDef(slug: string, title: string)

  /** The field get_term_by matches on: the slug, or the name. */
  function TermKey(t: Term, bySlug: bool): string {
    if bySlug then t.slug else t.name
  }

  /** The first index in ts at or after i of a term of taxonomy tax whose
      slug (or name) is key, as an id. */
  function FindTerm(ts: seq<Term>, tax: string, bySlug: bool, key: string, i: nat): (r: Option<int>)
    requires i <= |ts|
    ensures r.Some? ==> i < r.value <= |ts| && ts[r.value - 1].taxonomy == tax && TermKey(ts[r.value - 1], bySlug) == key
    ensures r.None? ==> forall j :: i <= j < |ts| ==> !(ts[j].taxonomy == tax && TermKey(ts[j], bySlug) == key)
    decreases |ts| - i
  {
    if i == |ts| then None
    else if ts[i].taxonomy == tax && TermKey(ts[i], bySlug) == key then Some(i + 1)
    else FindTerm(ts, tax, bySlug, key, i + 1)
  }

  /** The first match among a prefix of ts is still the first match in ts. */
  lemma {:induction false} FindTermPrefix(ts: seq<Term>, more: seq<Term>, tax: string, bySlug: bool, key: string, i: nat)
    requires i <= |ts|
    requires FindTerm(ts, tax, bySlug, key, i).Some?
    ensures FindTerm(ts + more, tax, bySlug, key, i) == FindTerm(ts, tax, bySlug, key, i)
    decreases |ts| - i
  {
    var all := ts + more;
    assert all[i] == ts[i];
    if !(ts[i].taxonomy == tax && TermKey(ts[i], bySlug) == key) {
      FindTermPrefix(ts, more, tax, bySlug, key, i + 1);
    }
  }

  /** With no match in ts, a matching term appended is the first match. */
  lemma {:induction false} FindTermAppend(ts: seq<Term>, t: Term, tax: string, bySlug: bool, key: string, i: nat)
    requires i <= |ts|
    requires FindTerm(ts, tax, bySlug, key, i).None?
    requires t.taxonomy == tax && TermKey(t, bySlug) == key
    ensures FindTerm(ts + [t], tax, bySlug, key, i) == Some(|ts| + 1)
    decreases |ts| - i
  {
    var all := ts + [t];
    if i < |ts| {
      assert all[i] == ts[i];
      FindTermAppend(ts, t, tax, bySlug, key, i + 1);
    } else {
      assert all[i] == t;
    }
  }

  /** A product (not a variation) that has not been deleted. */
  predicate Listed(ps: seq<Product>, id: int) {
    0 < id <= |ps| && !ps[id - 1].deleted && ps[id - 1].kind != Variation
  }

  /** wc_get_product_id_by_sku: the first live product or variation with
      that SKU; none for an empty SKU. */
  function SkuOwnerIn(ps: seq<Product>, sku: string): (r: Option<int>)
    ensures r.Some? ==> 0 < r.value <= |ps| && ps[r.value - 1].sku == sku && !ps[r.value - 1].deleted
    ensures r.Some? ==> sku != ""
    ensures sku != "" && r.None? ==> forall j :: 0 <= j < |ps| ==> !(ps[j].sku == sku && !ps[j].deleted)
  {
    if sku == "" then None else SkuOwnerFrom(ps, sku, 0)
  }

  function SkuOwnerFrom(ps: seq<Product>, sku: string, i: nat): (r: Option<int>)
    requires i <= |ps|
    ensures r.Some? ==> i < r.value <= |ps| && ps[r.value - 1].sku == sku && !ps[r.value - 1].deleted
    ensures r.None? ==> forall j :: i <= j < |ps| ==> !(ps[j].sku == sku && !ps[j].deleted)
    decreases |ps| - i
  {
    if i == |ps| then None
    else if ps[i].sku == sku && !ps[i].deleted then Some(i + 1)
    else SkuOwnerFrom(ps, sku, i + 1)
  }

  /** get_posts with a meta_query for key = value, one post, newest first:
      among the first n products, the listed one with the highest id
      carrying that meta. */
  function MetaOwnerIn(ps: seq<Product>, key: string, value: string, n: nat): (r: Option<int>)
    requires n <= |ps|
    ensures r.Some? ==> 0 < r.value <= n && Listed(ps, r.value) && Http.ParamOf(ps[r.value - 1].meta, key) == Some(value)
    ensures r.Some? ==> forall id :: r.value < id <= n && Listed(ps, id) ==> Http.ParamOf(ps[id - 1].meta, key) != Some(value)
    ensures r.None? ==> forall id :: 0 < id <= n && Listed(ps, id) ==> Http.ParamOf(ps[id - 1].meta, key) != Some(value)
  {
    if n == 0 then None
    else if Listed(ps, n) && Http.ParamOf(ps[n - 1].meta, key) == Some(value) then Some(n)
    else
      var r := MetaOwnerIn(ps, key, value, n - 1);
      assert forall id :: n - 1 < id <= n && Listed(ps, id) ==> Http.ParamOf(ps[id - 1].meta, key) != Some(value);
      r
  }

  /** The live variations among the first n products whose parent is id,
      in id order (get_children). */
  function ChildrenIn(ps: seq<Product>, id: int, n: nat): (r: seq<int>)
    requires n <= |ps|
    ensures forall c :: c in r <==> 0 < c <= n && ps[c - 1].parent == id && ps[c - 1].kind == Variation && !ps[c - 1].deleted
  {
    if n == 0 then []
    else
      var rest := ChildrenIn(ps, id, n - 1);
      var p := ps[n - 1];
      if p.parent == id && p.kind == Variation && !p.deleted then rest + [n] else rest
  }

  class Store {
    var terms: seq<Term>
    var termThumbnail: map<int, int>
    var objectTerms: map<(int, string), seq<int>>
    var taxonomies: set<string>
    var attributeDefs: seq<AttributeDef>
    var products: seq<Product>
    /** Whether WooCommerce is active (the WC_Product classes exist). */
    const wooActive: bool
    /** Whether wc_create_attribute exists. */
    const canCreateAttributes: bool
    /** The products whose save() returns 0 (a data-store failure). */
    const refusedSaves: iset<Product>
    /** The (taxonomy, name) pairs wp_insert_term fails for, beyond the checks below. */
    const refusedTerms: iset<(string, string)>
    /** The slugs wc_create_attribute fails for, beyond an existing slug. */
    const refusedAttributes: iset<string>

    constructor (wooActive: bool, canCreateAttributes: bool, refusedSaves: iset<Product>,
                 refusedTerms: iset<(string, string)>, refusedAttributes: iset<string>, taxonomies: set<string>)
      ensures this.wooActive == wooActive && this.canCreateAttributes == canCreateAttributes
      ensures this.refusedSaves == refusedSaves && this.refusedTerms == refusedTerms && this.refusedAttributes == refusedAttributes
      ensures this.taxonomies == taxonomies
      ensures terms == [] && termThumbnail == map[] && objectTerms == map[] && attributeDefs == [] && products == []
    {
      this.wooActive := wooActive;
      this.canCreateAttributes := canCreateAttributes;
      this.refusedSaves := refusedSaves;
      this.refusedTerms := refusedTerms;
      this.refusedAttributes := refusedAttributes;
      this.taxonomies := taxonomies;
      terms := [];
      termThumbnail := map[];
      objectTerms := map[];
      attributeDefs := [];
      products := [];
    }

    // ------------------------------------------------------------- queries

    /** get_term_by('slug', slug, tax): the first term with that slug; none
        for an empty slug. */
    function TermBySlug(slug: string, tax: string): (r: Option<int>)
      reads this`terms
      ensures r.Some? ==> 0 < r.value <= |terms| && terms[r.value - 1].taxonomy == tax && terms[r.value - 1].slug == slug
      ensures slug != "" && r.None? ==> forall j :: 0 <= j < |terms| ==> !(terms[j].taxonomy == tax && terms[j].slug == slug)
    {
      if slug == "" then None else FindTerm(terms, tax, true, slug, 0)
    }

    /** get_term_by('name', name, tax) */
    function TermByName(name: string, tax: string): (r: Option<int>)
      reads this`terms
      ensures r.Some? ==> 0 < r.value <= |terms| && terms[r.value - 1].taxonomy == tax && terms[r.value - 1].name == name
    {
      if name == "" then None else FindTerm(terms, tax, false, name, 0)
    }

    /** taxonomy_exists */
    predicate TaxonomyExists(tax: string)
      reads this`taxonomies
    {
      tax in taxonomies
    }

    /** The thumbnail_id term meta, 0 when unset. */
    function Thumbnail(term: int): int
      reads this`termThumbnail
    {
      if term in termThumbnail then termThumbnail[term] else 0
    }

    /** wc_attribute_taxonomy_id_by_name: the id of the attribute whose
        taxonomy is "pa_" + slug, 0 when there is none. */
    function AttributeId(tax: string): (r: int)
      reads this`attributeDefs
      ensures r == 0 || (0 < r <= |attributeDefs| && "pa_" + attributeDefs[r - 1].slug == tax)
    {
      AttributeIdFrom(tax, 0)
    }

    function AttributeIdFrom(tax: string, i: nat): (r: int)
      reads this`attributeDefs
      requires i <= |attributeDefs|
      ensures r == 0 || (i < r <= |attributeDefs| && "pa_" + attributeDefs[r - 1].slug == tax)
      decreases |attributeDefs| - i
    {
      if i == |attributeDefs| then 0
      else if "pa_" + attributeDefs[i].slug == tax then i + 1
      else AttributeIdFrom(tax, i + 1)
    }

    /** wc_get_product_id_by_sku over the current products. */
    function SkuOwner(sku: string): (r: Option<int>)
      reads this`products
      ensures r == SkuOwnerIn(products, sku)
    {
      SkuOwnerIn(products, sku)
    }

    /** get_posts for a meta key and value over the current products. */
    function MetaOwner(key: string, value: string): (r: Option<int>)
      reads this`products
      ensures r == MetaOwnerIn(products, key, value, |products|)
    {
      MetaOwnerIn(products, key, value, |products|)
    }

    /** get_children over the current products. */
    function Children(id: int): (r: seq<int>)
      reads this`products
      ensures r == ChildrenIn(products, id, |products|)
    {
      ChildrenIn(products, id, |products|)
    }

    // ------------------------------------------------------------- updates

    /** wp_insert_term: the new term's id, or none when the taxonomy does
        not exist, the name is empty or the store refuses it. */
    method InsertTerm(name: string, tax: string, slug: string, parent: int, description: string) returns (id: Option<int>)
      modifies this
      ensures var ok := tax in taxonomies && name != "" && (tax, name) !in refusedTerms;
        (ok ==> id == Some(|old(terms)| + 1) && terms == old(terms) + [Term(tax, name, slug, parent, description)])
        && (!ok ==> id.None? && terms == old(terms))
      ensures termThumbnail == old(termThumbnail) && objectTerms == old(objectTerms) && taxonomies == old(taxonomies)
      ensures attributeDefs == old(attributeDefs) && products == old(products)
    {
      if tax in taxonomies && name != "" && (tax, name) !in refusedTerms {
        terms := terms + [Term(tax, name, slug, parent, description)];
        id := Some(|terms|);
      } else {
        id := None;
      }
    }

    /** register_taxonomy */
    method RegisterTaxonomy(tax: string)
      modifies this
      ensures taxonomies == old(taxonomies) + {tax}
      ensures terms == old(terms) && termThumbnail == old(termThumbnail) && objectTerms == old(objectTerms)
      ensures attributeDefs == old(attributeDefs) && products == old(products)
    {
      taxonomies := taxonomies + {tax};
    }

    /** wc_create_attribute: the new attribute's id, or none when the slug
        is taken or refused. */
    method CreateAttribute(slug: string, title: string) returns (id: Option<int>)
      modifies this
      ensures var ok := slug !in refusedAttributes && forall j :: 0 <= j < |old(attributeDefs)| ==> old(attributeDefs)[j].slug != slug;
        (ok ==> id == Some(|old(attributeDefs)| + 1) && attributeDefs == old(attributeDefs) + [AttributeDef(slug, title)])
        && (!ok ==> id.None? && attributeDefs == old(attributeDefs))
      ensures terms == old(terms) && termThumbnail == old(termThumbnail) && objectTerms == old(objectTerms)
      ensures taxonomies == old(taxonomies) && products == old(products)
    {
      if slug !in refusedAttributes && forall j :: 0 <= j < |attributeDefs| ==> attributeDefs[j].slug != slug {
        attributeDefs := attributeDefs + [AttributeDef(slug, title)];
        id := Some(|attributeDefs|);
      } else {
        id := None;
      }
    }

    /** update_term_meta(term, 'thumbnail_id', attachment) */
    method SetThumbnail(term: int, attachment: int)
      modifies this
      ensures termThumbnail == old(termThumbnail)[term := attachment]
      ensures terms == old(terms) && objectTerms == old(objectTerms) && taxonomies == old(taxonomies)
      ensures attributeDefs == old(attributeDefs) && products == old(products)
    {
      termThumbnail := termThumbnail[term := attachment];
    }

    /** wp_set_object_terms(object, ids, tax, false): replaces the terms. */
    method SetObjectTerms(obj: int, tax: string, ids: seq<int>)
      modifies this
      ensures objectTerms == old(objectTerms)[(obj, tax) := ids]
      ensures terms == old(terms) && termThumbnail == old(termThumbnail) && taxonomies == old(taxonomies)
      ensures attributeDefs == old(attributeDefs) && products == old(products)
    {
      objectTerms := objectTerms[(obj, tax) := ids];
    }

    /** save() of a new product: its id, or 0 when the store refuses it. */
    method Insert(p: Product) returns (id: int)
      modifies this
      ensures p !in refusedSaves ==> id == |old(products)| + 1 && products == old(products) + [p]
      ensures p in refusedSaves ==> id == 0 && products == old(products)
      ensures terms == old(terms) && termThumbnail == old(termThumbnail) && objectTerms == old(objectTerms)
      ensures taxonomies == old(taxonomies) && attributeDefs == old(attributeDefs)
    {
      if p in refusedSaves {
        id := 0;
      } else {
        products := products + [p];
        id := |products|;
      }
    }

    /** save() of an existing product: whether it was stored. */
    method Update(id: int, p: Product) returns (ok: bool)
      requires 0 < id <= |products|
      modifies this
      ensures ok == (p !in refusedSaves)
      ensures ok ==> products == old(products)[id - 1 := p]
      ensures !ok ==> products == old(products)
      ensures terms == old(terms) && termThumbnail == old(termThumbnail) && objectTerms == old(objectTerms)
      ensures taxonomies == old(taxonomies) && attributeDefs == old(attributeDefs)
    {
      ok := p !in refusedSaves;
      if ok {
        products := products[id - 1 := p];
      }
    }

    /** update_post_meta(id, key, value) */
    method SetMeta(id: int, key: string, value: string)
      requires 0 < id <= |products|
      modifies this
      ensures products == old(products)[id - 1 := old(products)[id - 1].(meta := Http.SetParam(old(products)[id - 1].meta, key, value))]
      ensures terms == old(terms) && termThumbnail == old(termThumbnail) && objectTerms == old(objectTerms)
      ensures taxonomies == old(taxonomies) && attributeDefs == old(attributeDefs)
    {
      products := products[id - 1 := products[id - 1].(meta := Http.SetParam(products[id - 1].meta, key, value))];
    }

    /** wp_set_object_terms(id, type, 'product_type'): the product's type. */
    method SetKind(id: int, kind: Kind)
      requires 0 < id <= |products|
      modifies this
      ensures products == old(products)[id - 1 := old(products)[id - 1].(kind := kind)]
      ensures terms == old(terms) && termThumbnail == old(termThumbnail) && objectTerms == old(objectTerms)
      ensures taxonomies == old(taxonomies) && attributeDefs == old(attributeDefs)
    {
      products := products[id - 1 := products[id - 1].(kind := kind)];
    }

    /** delete(true) of a variation: it is gone for every lookup. */
    method Delete(id: int)
      requires 0 < id <= |products|
      modifies this
      ensures products == old(products)[id - 1 := old(products)[id - 1].(deleted := true)]
      ensures terms == old(terms) && termThumbnail == old(termThumbnail) && objectTerms == old(objectTerms)
      ensures taxonomies == old(taxonomies) && attributeDefs == old(attributeDefs)
    {
      products := products[id - 1 := products[id - 1].(deleted := true)];
    }
  }
}
