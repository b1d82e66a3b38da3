/** Presa_Mapper: turns a normalized PrestaShop product into WooCommerce
    products, variations, terms and attributes in the store, with its
    three per-import caches (categories, the brand taxonomy, brand logos). */
module ProductMapper {
  import opened Common
  import opened Php
  import Text
  import Http
  import DbShape
  import WcStore
  import MapperRules
  import VariationRules
  import ProductRules

  const ProductCat: string := "product_cat"

  /** Every term the cache resolves to is a product_cat term of ts. */
  ghost predicate CacheIn(cache: map<int, Option<int>>, ts: seq<WcStore.Term>) {
    forall k :: k in cache && cache[k].Some? ==> 0 < cache[k].value <= |ts| && ts[cache[k].value - 1].taxonomy == ProductCat
  }

  /** The id of one category association, (int) $cat['id'], 0 when unset. */
  function AssocId(assoc: Val): int {
    if FieldSet(assoc, "id") then ToInt(Field(assoc, "id")) else 0
  }

  /** The category associations of a product: the values of
      associations.categories when that is a non-empty array, else none. */
  function CategoryAssocs(product: Val): seq<Val> {
    var assocs := Field(Field(product, "associations"), "categories");
    if Empty(assocs) || !assocs.Arr? then [] else Values(assocs)
  }

  /** The non-zero entries of xs, in order. */
  function NonZero(xs: seq<int>): (r: seq<int>)
    ensures forall x :: x in r <==> x in xs && x != 0
    ensures |r| <= |xs|
  {
    if xs == [] then []
    else NonZero(xs[..|xs| - 1]) + (if xs[|xs| - 1] != 0 then [xs[|xs| - 1]] else [])
  }

  /** Whether category id may be left without a term: get_category fails
      for it, answers empty or with a falsy name, or the store has no
      product_cat taxonomy or refuses a term with the category's name. */
  ghost predicate MayStayUnresolved(categories: MapperRules.CategorySource, id: int, taxonomies: set<string>,
                                    refused: iset<(string, string)>) {
    var fetched := MapperRules.Category(categories, id);
    || !Mapper.Usable(fetched)
    || ProductCat !in taxonomies
    || (ProductCat, MapperRules.LangField(fetched.value, "name")) in refused
  }

  /** One association's resolution: 0 for an id that is not positive, and
      for a positive id only when the category may stay unresolved (given
      the taxonomies and refusals of the store); a non-zero entry is a
      product_cat term of ts that cache holds for the id; an id start
      already held a term for resolved to that term. */
  ghost predicate ResolvedOne(assoc: Val, r: int, start: map<int, Option<int>>, cache: map<int, Option<int>>, ts: seq<WcStore.Term>,
                              categories: MapperRules.CategorySource, taxonomies: set<string>, refused: iset<(string, string)>) {
    && (AssocId(assoc) <= 0 ==> r == 0)
    && (AssocId(assoc) > 0 && r == 0 ==> MayStayUnresolved(categories, AssocId(assoc), taxonomies, refused))
    && (r != 0 ==> 0 < r <= |ts| && ts[r - 1].taxonomy == ProductCat && (AssocId(assoc), r) in Resolutions(cache))
    && (AssocId(assoc) > 0 && AssocId(assoc) in start && start[AssocId(assoc)].Some? ==> r == start[AssocId(assoc)].value)
  }

  /** One resolution per association, in order. */
  ghost predicate ResolvedBy(assocs: seq<Val>, resolved: seq<int>, start: map<int, Option<int>>, cache: map<int, Option<int>>,
                             ts: seq<WcStore.Term>, categories: MapperRules.CategorySource, taxonomies: set<string>,
                             refused: iset<(string, string)>) {
    && |resolved| == |assocs|
    && forall i :: 0 <= i < |resolved| ==> ResolvedOne(assocs[i], resolved[i], start, cache, ts, categories, taxonomies, refused)
  }

  /** cats are the category term ids of product, as get_wc_category_ids
      gives them: the non-zero resolutions of its associations, each once. */
  ghost predicate CatsResolved(categories: MapperRules.CategorySource, product: Val, cats: seq<int>,
                               start: map<int, Option<int>>, taxonomies: set<string>, refused: iset<(string, string)>,
                               cache: map<int, Option<int>>, ts: seq<WcStore.Term>) {
    exists resolved :: ResolvedBy(CategoryAssocs(product), resolved, start, cache, ts, categories, taxonomies, refused)
                       && cats == Distinct(NonZero(resolved))
  }

  /** The resolved entries of a category cache. */
  function Resolutions(cache: map<int, Option<int>>): set<(int, int)> {
    set k | k in cache && cache[k].Some? :: (k, cache[k].value)
  }

  /** A pair is a resolution exactly when the cache holds that term. */
  lemma ResolutionAt(cache: map<int, Option<int>>, k: int, v: int)
    ensures (k, v) in Resolutions(cache) <==> k in cache && cache[k] == Some(v)
  {
    if k in cache && cache[k] == Some(v) {
      assert (k, cache[k].value) in Resolutions(cache);
    }
  }

  /** Resolutions stay what they are when the cache and the terms grow,
      and when they are read against an earlier cache (fewer resolutions
      at the start) and fewer taxonomies. */
  lemma ResolvedByGrows(assocs: seq<Val>, resolved: seq<int>, start: map<int, Option<int>>, start': map<int, Option<int>>,
                        cache: map<int, Option<int>>, cache': map<int, Option<int>>, ts: seq<WcStore.Term>, ts': seq<WcStore.Term>,
                        categories: MapperRules.CategorySource, taxonomies: set<string>, taxonomies': set<string>,
                        refused: iset<(string, string)>)
    requires ResolvedBy(assocs, resolved, start, cache, ts, categories, taxonomies, refused)
    requires Resolutions(start') <= Resolutions(start) && taxonomies' <= taxonomies
    requires Resolutions(cache) <= Resolutions(cache') && ts <= ts'
    ensures ResolvedBy(assocs, resolved, start', cache', ts', categories, taxonomies', refused)
  {
    forall i | 0 <= i < |resolved| ensures ResolvedOne(assocs[i], resolved[i], start', cache', ts', categories, taxonomies', refused) {
      assert ResolvedOne(assocs[i], resolved[i], start, cache, ts, categories, taxonomies, refused);
      var id := AssocId(assocs[i]);
      if resolved[i] != 0 {
        assert ts'[resolved[i] - 1] == ts[resolved[i] - 1];
      }
      if id > 0 && id in start' && start'[id].Some? {
        ResolutionAt(start', id, start'[id].value);
        ResolutionAt(start, id, start'[id].value);
      }
    }
  }

  /** CatsResolved under the same conditions as ResolvedByGrows. */
  lemma CatsResolvedGrows(categories: MapperRules.CategorySource, product: Val, cats: seq<int>,
                          start: map<int, Option<int>>, start': map<int, Option<int>>, taxonomies: set<string>, taxonomies': set<string>,
                          refused: iset<(string, string)>, cache: map<int, Option<int>>, cache': map<int, Option<int>>,
                          ts: seq<WcStore.Term>, ts': seq<WcStore.Term>)
    requires CatsResolved(categories, product, cats, start, taxonomies, refused, cache, ts)
    requires Resolutions(start') <= Resolutions(start) && taxonomies' <= taxonomies
    requires Resolutions(cache) <= Resolutions(cache') && ts <= ts'
    ensures CatsResolved(categories, product, cats, start', taxonomies', refused, cache', ts')
  {
    var resolved :| ResolvedBy(CategoryAssocs(product), resolved, start, cache, ts, categories, taxonomies, refused)
                    && cats == Distinct(NonZero(resolved));
    ResolvedByGrows(CategoryAssocs(product), resolved, start, start', cache, cache', ts, ts', categories, taxonomies, taxonomies', refused);
  }

  /** More resolutions and more terms keep the resolutions so far, and one
      more association's resolution is appended. */
  lemma ResolvedBySnoc(assocs: seq<Val>, resolved: seq<int>, start: map<int, Option<int>>,
                       cache: map<int, Option<int>>, cache': map<int, Option<int>>,
                       ts: seq<WcStore.Term>, ts': seq<WcStore.Term>, categories: MapperRules.CategorySource,
                       taxonomies: set<string>, refused: iset<(string, string)>, assoc: Val, r: int)
    requires ResolvedBy(assocs, resolved, start, cache, ts, categories, taxonomies, refused)
    requires Resolutions(cache) <= Resolutions(cache') && ts <= ts'
    requires ResolvedOne(assoc, r, start, cache', ts', categories, taxonomies, refused)
    ensures ResolvedBy(assocs + [assoc], resolved + [r], start, cache', ts', categories, taxonomies, refused)
  {
    ResolvedByGrows(assocs, resolved, start, start, cache, cache', ts, ts', categories, taxonomies, taxonomies, refused);
    assert (resolved + [r])[..|resolved|] == resolved;
  }

  /** Setting one entry keeps the resolutions of every other id. */
  lemma ResolutionsUpdate(cache: map<int, Option<int>>, id: int, r: Option<int>)
    ensures forall e :: e in Resolutions(cache) && e.0 != id ==> e in Resolutions(cache[id := r])
    ensures !(id in cache && cache[id].Some?) ==> forall e :: e in Resolutions(cache) ==> e.0 != id
  {
    var c' := cache[id := r];
    forall e | e in Resolutions(cache) && e.0 != id ensures e in Resolutions(c') {
      assert e.0 in c' && c'[e.0] == cache[e.0];
    }
  }

  /** What get_or_create_attribute_term gives for the trimmed value and
      its slug, when the terms go from ts to ts': none for an empty
      value; else the first term of the taxonomy with that slug, else the
      first with that name, else a new term with that name and slug when
      the store inserts one (then the first with that slug). */
  ghost predicate AttributeTermFound(value: string, slug: string, taxonomy: string,
                                     ts: seq<WcStore.Term>, ts': seq<WcStore.Term>, inserts: bool, t: Option<int>) {
    var bySlug := WcStore.FindTerm(ts, taxonomy, true, slug, 0);
    var byName := WcStore.FindTerm(ts, taxonomy, false, value, 0);
    && (value == "" ==> t.None? && ts' == ts)
    && (value != "" && bySlug.Some? ==> t == bySlug && ts' == ts)
    && (value != "" && bySlug.None? && byName.Some? ==> t == byName && ts' == ts)
    && (value != "" && bySlug.None? && byName.None? ==>
          (t.Some? <==> inserts)
          && (t.Some? ==> ts' == ts + [WcStore.Term(taxonomy, value, slug, 0, "")] && WcStore.FindTerm(ts', taxonomy, true, slug, 0) == t)
          && (t.None? ==> ts' == ts))
  }

  /** The ids in ids are terms of tax in ts. */
  ghost predicate TermsOf(ids: seq<int>, ts: seq<WcStore.Term>, tax: string) {
    forall x :: x in ids ==> 0 < x <= |ts| && ts[x - 1].taxonomy == tax
  }

  /** More terms keep what ids are. */
  lemma TermsOfGrows(ids: seq<int>, ts: seq<WcStore.Term>, ts': seq<WcStore.Term>, tax: string)
    requires TermsOf(ids, ts, tax) && ts <= ts'
    ensures TermsOf(ids, ts', tax)
  {
    forall x | x in ids ensures ts'[x - 1] == ts[x - 1] {
    }
  }

  /** A term of tax appended to ids of tax. */
  lemma TermsOfSnoc(ids: seq<int>, ts: seq<WcStore.Term>, tax: string, x: int)
    requires TermsOf(ids, ts, tax) && 0 < x <= |ts| && ts[x - 1].taxonomy == tax
    ensures TermsOf(ids + [x], ts, tax) && (ids + [x])[..|ids|] == ids && (ids + [x])[|ids|] == x
  {
    assert (ids + [x])[..|ids|] == ids;
  }

  /** Replacing the last element of ps + [v]. */
  lemma SnocUpdate<T>(ps: seq<T>, v: T, w: T)
    ensures (ps + [v])[|ps| := w] == ps + [w]
  {
  }

  /** More terms keep the cache valid. */
  lemma CacheInGrows(cache: map<int, Option<int>>, ts: seq<WcStore.Term>, ts': seq<WcStore.Term>)
    requires CacheIn(cache, ts) && ts <= ts'
    ensures CacheIn(cache, ts')
  {
    forall k | k in cache && cache[k].Some? ensures ts'[cache[k].value - 1] == ts[cache[k].value - 1] {
    }
  }

  /** The names of a list of product attributes. */
  function Names(attrs: seq<WcStore.Attribute>): (r: seq<string>)
    ensures |r| == |attrs| && forall i :: 0 <= i < |attrs| ==> r[i] == attrs[i].name
  {
    if attrs == [] then [] else Names(attrs[..|attrs| - 1]) + [attrs[|attrs| - 1].name]
  }

  /** The (taxonomy, value) pairs a variable product's attributes are built
      from: those of its combinations, or of its legacy variations. */
  function AttributePairs(wp: Http.Wp, viaDb: bool, product: Val, fromCombinations: bool): seq<(string, string)> {
    if fromCombinations then VariationRules.AllComboPairs(wp, viaDb, MapperRules.ListField(product, "combinations"))
    else VariationRules.AllLegacyPairs(MapperRules.ListField(product, "variations"))
  }

  /** The attributes name the taxonomies of pairs that got a term, in
      first-seen order; every recorded term slug is for one of pairs; every
      pair whose value has a term available in ts0 (given the taxonomies
      and refusals) is recorded; and the options of each attribute are, in
      order, the terms in ts of its taxonomy's recorded values. */
  ghost predicate BuiltFrom(wp: Http.Wp, attrs: seq<WcStore.Attribute>, slugMap: map<(string, string), string>,
                            pairs: seq<(string, string)>, ts0: seq<WcStore.Term>, ts: seq<WcStore.Term>,
                            taxonomies: set<string>, refused: iset<(string, string)>) {
    && Names(attrs) == WithTerms(Distinct(VariationRules.Firsts(pairs)), slugMap)
    && (forall k :: k in slugMap ==> k in pairs)
    && (forall k :: k in pairs && TermAvailable(wp, k.0, k.1, ts0, taxonomies, refused) ==> k in slugMap)
    && (forall i :: 0 <= i < |attrs| ==>
          TermsFor(wp, attrs[i].name, Distinct(VariationRules.ValuesFor(pairs, attrs[i].name)), attrs[i].options, slugMap, ts))
  }

  /** BuiltFrom holds from an earlier store (fewer terms to start from) and
      with more terms since. */
  lemma BuiltFromGrows(wp: Http.Wp, attrs: seq<WcStore.Attribute>, slugMap: map<(string, string), string>,
                       pairs: seq<(string, string)>, ts0: seq<WcStore.Term>, ts0': seq<WcStore.Term>,
                       ts: seq<WcStore.Term>, ts': seq<WcStore.Term>, taxonomies: set<string>, refused: iset<(string, string)>)
    requires BuiltFrom(wp, attrs, slugMap, pairs, ts0, ts, taxonomies, refused) && ts0' <= ts0 && ts <= ts'
    ensures BuiltFrom(wp, attrs, slugMap, pairs, ts0', ts', taxonomies, refused)
  {
    forall k | k in pairs && TermAvailable(wp, k.0, k.1, ts0', taxonomies, refused) ensures k in slugMap {
      TermAvailableGrows(wp, k.0, k.1, ts0', ts0, taxonomies, refused);
    }
    forall i | 0 <= i < |attrs|
      ensures TermsFor(wp, attrs[i].name, Distinct(VariationRules.ValuesFor(pairs, attrs[i].name)), attrs[i].options, slugMap, ts')
    {
      TermsForFrame(wp, attrs[i].name, Distinct(VariationRules.ValuesFor(pairs, attrs[i].name)), attrs[i].options, slugMap, slugMap, ts, ts');
    }
  }

  /** What the second attribute loop gives for the grouping of pairs is
      BuiltFrom pairs. */
  lemma GroupedBuilt(wp: Http.Wp, pairs: seq<(string, string)>, order: seq<string>, values: map<string, seq<string>>,
                     attrs: seq<WcStore.Attribute>, slugMap: map<(string, string), string>,
                     ts0: seq<WcStore.Term>, ts: seq<WcStore.Term>, taxonomies: set<string>, refused: iset<(string, string)>)
    requires VariationRules.Grouped(pairs, order, values)
    requires Names(attrs) == WithTerms(order, slugMap)
    requires forall k :: k in slugMap ==> k.0 in order && k.0 in values && k.1 in values[k.0]
    requires AttrsTermsFor(wp, attrs, values, slugMap, ts)
    requires AvailableRecorded(wp, order, values, slugMap, ts0, taxonomies, refused)
    ensures BuiltFrom(wp, attrs, slugMap, pairs, ts0, ts, taxonomies, refused)
  {
    forall k | k in slugMap ensures k in pairs {
      VariationRules.GroupShape(pairs, k.0, k.1);
    }
    forall k | k in pairs && TermAvailable(wp, k.0, k.1, ts0, taxonomies, refused) ensures k in slugMap {
      VariationRules.GroupShape(pairs, k.0, k.1);
      assert k.0 in order && k.0 in values && k.1 in values[k.0];
    }
  }

  /** The taxonomies of order, in order, for which some value got a term
      recorded in slugMap: those that become product attributes. */
  ghost function WithTerms(order: seq<string>, slugMap: map<(string, string), string>): seq<string> {
    if order == [] then []
    else
      var t := order[|order| - 1];
      WithTerms(order[..|order| - 1], slugMap) + (if exists v :: (t, v) in slugMap then [t] else [])
  }

  /** Entries for other taxonomies do not change which of order have terms. */
  lemma {:induction false} WithTermsFrame(order: seq<string>, m: map<(string, string), string>, m': map<(string, string), string>)
    requires forall t, v :: t in order ==> ((t, v) in m <==> (t, v) in m')
    ensures WithTerms(order, m) == WithTerms(order, m')
  {
    if order != [] {
      WithTermsFrame(order[..|order| - 1], m, m');
    }
  }

  /** One more taxonomy at the end of order. */
  lemma WithTermsSnoc(order: seq<string>, t: string, m: map<(string, string), string>)
    ensures WithTerms(order + [t], m) == WithTerms(order, m) + (if exists v :: (t, v) in m then [t] else [])
  {
    var all := order + [t];
    assert all[..|all| - 1] == order && all[|all| - 1] == t;
  }

  /** Every element of WithTerms(order, m) is in order and has a term. */
  lemma {:induction false} WithTermsIn(order: seq<string>, m: map<(string, string), string>, t: string)
    requires t in WithTerms(order, m)
    ensures t in order
  {
    var init := order[..|order| - 1];
    if t in WithTerms(init, m) {
      WithTermsIn(init, m, t);
      assert forall x :: x in init ==> x in order;
    }
  }

  /** Whether get_or_create_attribute_term gives value a term of taxonomy
      when the store holds ts: its trimmed form is not empty, and a term
      of the taxonomy has its slug or its name, or a new term with that
      name may be inserted (the taxonomy exists and the name is not
      refused). */
  ghost predicate TermAvailable(wp: Http.Wp, taxonomy: string, value: string, ts: seq<WcStore.Term>,
                                taxonomies: set<string>, refused: iset<(string, string)>) {
    var v := Text.Trim(value);
    && v != ""
    && (|| WcStore.FindTerm(ts, taxonomy, true, MapperRules.OwnTermSlug(wp, v), 0).Some?
        || WcStore.FindTerm(ts, taxonomy, false, v, 0).Some?
        || (taxonomy in taxonomies && (taxonomy, v) !in refused))
  }

  /** More terms keep a term available. */
  lemma TermAvailableGrows(wp: Http.Wp, taxonomy: string, value: string, ts: seq<WcStore.Term>, ts': seq<WcStore.Term>,
                           taxonomies: set<string>, refused: iset<(string, string)>)
    requires TermAvailable(wp, taxonomy, value, ts, taxonomies, refused) && ts <= ts'
    ensures TermAvailable(wp, taxonomy, value, ts', taxonomies, refused)
  {
    var v := Text.Trim(value);
    var slug := MapperRules.OwnTermSlug(wp, v);
    assert ts' == ts + ts'[|ts|..];
    if WcStore.FindTerm(ts, taxonomy, true, slug, 0).Some? {
      WcStore.FindTermPrefix(ts, ts'[|ts|..], taxonomy, true, slug, 0);
    } else if WcStore.FindTerm(ts, taxonomy, false, v, 0).Some? {
      WcStore.FindTermPrefix(ts, ts'[|ts|..], taxonomy, false, v, 0);
    }
  }

  /** id is a term of taxonomy in ts for the non-empty trimmed value:
      one with its slug or with its name. */
  ghost predicate TermOfValue(wp: Http.Wp, taxonomy: string, value: string, id: int, ts: seq<WcStore.Term>) {
    var v := Text.Trim(value);
    && v != ""
    && 0 < id <= |ts| && ts[id - 1].taxonomy == taxonomy
    && (ts[id - 1].slug == MapperRules.OwnTermSlug(wp, v) || ts[id - 1].name == v)
  }

  /** The values of vs that have a term slug recorded under taxonomy in
      slugMap, in order. */
  function RecordedValues(taxonomy: string, vs: seq<string>, slugMap: map<(string, string), string>): (r: seq<string>)
    ensures forall j :: 0 <= j < |r| ==> (taxonomy, r[j]) in slugMap && r[j] in vs
    ensures r == [] <==> forall v :: v in vs ==> (taxonomy, v) !in slugMap
  {
    if vs == [] then []
    else
      var init := vs[..|vs| - 1];
      assert forall v :: v in vs <==> v in init || v == vs[|vs| - 1];
      RecordedValues(taxonomy, init, slugMap) + (if (taxonomy, vs[|vs| - 1]) in slugMap then [vs[|vs| - 1]] else [])
  }

  /** ids are, in order, the terms of the values of vs recorded under
      taxonomy in slugMap: each a term of the value in ts whose slug is
      the one recorded. */
  ghost predicate TermsFor(wp: Http.Wp, taxonomy: string, vs: seq<string>, ids: seq<int>,
                           slugMap: map<(string, string), string>, ts: seq<WcStore.Term>) {
    var kept := RecordedValues(taxonomy, vs, slugMap);
    && |ids| == |kept|
    && forall j :: 0 <= j < |ids| ==> TermRecorded(wp, taxonomy, kept[j], ids[j], slugMap, ts)
  }

  /** id is a term of value in ts, and its slug is the one slugMap records
      for value under taxonomy. */
  ghost predicate TermRecorded(wp: Http.Wp, taxonomy: string, value: string, id: int,
                               slugMap: map<(string, string), string>, ts: seq<WcStore.Term>) {
    && TermOfValue(wp, taxonomy, value, id, ts)
    && (taxonomy, value) in slugMap && slugMap[(taxonomy, value)] == ts[id - 1].slug
  }

  /** Entries of vs under taxonomy that stay as they are, and more terms,
      keep TermsFor. */
  lemma {:induction false} TermsForFrame(wp: Http.Wp, taxonomy: string, vs: seq<string>, ids: seq<int>,
                                         m: map<(string, string), string>, m': map<(string, string), string>,
                                         ts: seq<WcStore.Term>, ts': seq<WcStore.Term>)
    requires TermsFor(wp, taxonomy, vs, ids, m, ts) && ts <= ts'
    requires forall v :: v in vs ==> ((taxonomy, v) in m <==> (taxonomy, v) in m')
    requires forall v :: v in vs && (taxonomy, v) in m ==> m'[(taxonomy, v)] == m[(taxonomy, v)]
    ensures TermsFor(wp, taxonomy, vs, ids, m', ts')
  {
    RecordedFrame(taxonomy, vs, m, m');
    var kept := RecordedValues(taxonomy, vs, m);
    forall j | 0 <= j < |ids| ensures TermRecorded(wp, taxonomy, kept[j], ids[j], m', ts') {
      assert TermRecorded(wp, taxonomy, kept[j], ids[j], m, ts);
      assert ts'[ids[j] - 1] == ts[ids[j] - 1];
    }
  }

  /** RecordedValues only looks at the entries of vs under taxonomy. */
  lemma {:induction false} RecordedFrame(taxonomy: string, vs: seq<string>, m: map<(string, string), string>, m': map<(string, string), string>)
    requires forall v :: v in vs ==> ((taxonomy, v) in m <==> (taxonomy, v) in m')
    ensures RecordedValues(taxonomy, vs, m) == RecordedValues(taxonomy, vs, m')
  {
    if vs != [] {
      RecordedFrame(taxonomy, vs[..|vs| - 1], m, m');
    }
  }

  /** One more value x that got no term leaves ids and slugMap as they are. */
  lemma TermsForSkip(wp: Http.Wp, taxonomy: string, vs: seq<string>, x: string, ids: seq<int>,
                     m: map<(string, string), string>, ts: seq<WcStore.Term>, ts': seq<WcStore.Term>)
    requires TermsFor(wp, taxonomy, vs, ids, m, ts) && ts <= ts' && (taxonomy, x) !in m
    ensures TermsFor(wp, taxonomy, vs + [x], ids, m, ts')
  {
    var all := vs + [x];
    assert all[..|all| - 1] == vs && all[|all| - 1] == x;
    TermsForFrame(wp, taxonomy, vs, ids, m, m, ts, ts');
  }

  /** One more value x, new to vs and to slugMap, whose term k is appended
      to ids and its slug recorded. */
  lemma TermsForAppend(wp: Http.Wp, taxonomy: string, vs: seq<string>, x: string, ids: seq<int>, k: int,
                       m: map<(string, string), string>, ts: seq<WcStore.Term>, ts': seq<WcStore.Term>)
    requires TermsFor(wp, taxonomy, vs, ids, m, ts) && ts <= ts'
    requires x !in vs && (taxonomy, x) !in m && TermOfValue(wp, taxonomy, x, k, ts')
    ensures TermsFor(wp, taxonomy, vs + [x], ids + [k], m[(taxonomy, x) := ts'[k - 1].slug], ts')
  {
    var m' := m[(taxonomy, x) := ts'[k - 1].slug];
    var all, ids' := vs + [x], ids + [k];
    assert all[..|all| - 1] == vs && all[|all| - 1] == x;
    TermsForFrame(wp, taxonomy, vs, ids, m, m', ts, ts');
    var kept := RecordedValues(taxonomy, vs, m');
    assert RecordedValues(taxonomy, all, m') == kept + [x];
    forall j | 0 <= j < |ids'| ensures TermRecorded(wp, taxonomy, (kept + [x])[j], ids'[j], m', ts') {
      if j < |ids| {
        assert ids'[j] == ids[j] && (kept + [x])[j] == kept[j];
      } else {
        assert (kept + [x])[j] == x && ids'[j] == k;
      }
    }
  }

  /** Every value of vs with a term available in ts0 is recorded in m. */
  ghost predicate ValuesRecorded(wp: Http.Wp, taxonomy: string, vs: seq<string>, m: map<(string, string), string>,
                                 ts0: seq<WcStore.Term>, taxonomies: set<string>, refused: iset<(string, string)>)
  {
    forall v :: v in vs && TermAvailable(wp, taxonomy, v, ts0, taxonomies, refused) ==> (taxonomy, v) in m
  }

  /** One value x of the inner attribute loop, new to seen and to m, that
      got no term: it had none available, and the values of seen with a
      term available in ts0 stay recorded. */
  lemma CollectedSkip(wp: Http.Wp, taxonomy: string, seen: seq<string>, x: string, ids: seq<int>,
                      m: map<(string, string), string>, ts0: seq<WcStore.Term>, ts: seq<WcStore.Term>, ts': seq<WcStore.Term>,
                      taxonomies: set<string>, refused: iset<(string, string)>)
    requires TermsFor(wp, taxonomy, seen, ids, m, ts) && ts0 <= ts && ts <= ts'
    requires (taxonomy, x) !in m
    requires ValuesRecorded(wp, taxonomy, seen, m, ts0, taxonomies, refused)
    requires !TermAvailable(wp, taxonomy, x, ts, taxonomies, refused)
    ensures TermsFor(wp, taxonomy, seen + [x], ids, m, ts')
    ensures ValuesRecorded(wp, taxonomy, seen + [x], m, ts0, taxonomies, refused)
  {
    TermsForSkip(wp, taxonomy, seen, x, ids, m, ts, ts');
    if TermAvailable(wp, taxonomy, x, ts0, taxonomies, refused) {
      TermAvailableGrows(wp, taxonomy, x, ts0, ts, taxonomies, refused);
    }
  }

  /** A value x that got recorded keeps seen + [x] complete. */
  lemma RecordedAppend(wp: Http.Wp, taxonomy: string, seen: seq<string>, x: string,
                       m: map<(string, string), string>, m': map<(string, string), string>, ts0: seq<WcStore.Term>,
                       taxonomies: set<string>, refused: iset<(string, string)>)
    requires ValuesRecorded(wp, taxonomy, seen, m, ts0, taxonomies, refused)
    requires m.Keys <= m'.Keys && (taxonomy, x) in m'
    ensures ValuesRecorded(wp, taxonomy, seen + [x], m', ts0, taxonomies, refused)
  {
  }

  /** Every value of every taxonomy of order that has a term available in
      ts is recorded in slugMap. */
  ghost predicate AvailableRecorded(wp: Http.Wp, order: seq<string>, values: map<string, seq<string>>,
                                    slugMap: map<(string, string), string>, ts: seq<WcStore.Term>,
                                    taxonomies: set<string>, refused: iset<(string, string)>) {
    forall t, v :: t in order && t in values && v in values[t] && TermAvailable(wp, t, v, ts, taxonomies, refused) ==> (t, v) in slugMap
  }

  /** The options of each attribute are the terms of its taxonomy's
      recorded values, in order. */
  ghost predicate AttrsTermsFor(wp: Http.Wp, attrs: seq<WcStore.Attribute>, values: map<string, seq<string>>,
                                slugMap: map<(string, string), string>, ts: seq<WcStore.Term>) {
    forall i :: 0 <= i < |attrs| ==>
      attrs[i].name in values && TermsFor(wp, attrs[i].name, values[attrs[i].name], attrs[i].options, slugMap, ts)
  }

  /** One taxonomy t of the second attribute loop, new to order: the
      attributes and recorded values so far are kept, those of t added. */
  lemma {:induction false} AttributeStep(wp: Http.Wp, order: seq<string>, values: map<string, seq<string>>, t: string,
                                         attrs: seq<WcStore.Attribute>, attrs': seq<WcStore.Attribute>,
                                         m: map<(string, string), string>, m': map<(string, string), string>,
                                         ts0: seq<WcStore.Term>, ts: seq<WcStore.Term>, ts': seq<WcStore.Term>,
                                         tax: set<string>, tax': set<string>, refused: iset<(string, string)>)
    requires t !in order && t in values && ts0 <= ts && ts <= ts' && tax <= tax' && tax' <= tax + {t}
    requires forall i :: 0 <= i < |attrs| ==> attrs[i].name in order
    requires AttrsTermsFor(wp, attrs, values, m, ts) && AvailableRecorded(wp, order, values, m, ts0, tax, refused)
    requires forall k :: k in m ==> k in m' && m'[k] == m[k]
    requires forall k :: k in m' && k !in m ==> k.0 == t
    requires (exists v :: (t, v) in m') ==>
      && |attrs'| == |attrs| + 1 && attrs'[..|attrs|] == attrs && attrs'[|attrs|].name == t
      && TermsFor(wp, t, values[t], attrs'[|attrs|].options, m', ts')
    requires !(exists v :: (t, v) in m') ==> attrs' == attrs
    requires forall v :: v in values[t] && TermAvailable(wp, t, v, ts, tax', refused) ==> (t, v) in m'
    ensures AttrsTermsFor(wp, attrs', values, m', ts') && AvailableRecorded(wp, order + [t], values, m', ts0, tax', refused)
    ensures forall i :: 0 <= i < |attrs'| ==> attrs'[i].name in order + [t]
  {
    forall i | 0 <= i < |attrs| ensures TermsFor(wp, attrs[i].name, values[attrs[i].name], attrs[i].options, m', ts') {
      var name := attrs[i].name;
      assert name != t;
      TermsForFrame(wp, name, values[name], attrs[i].options, m, m', ts, ts');
    }
    if exists v :: (t, v) in m' {
      forall i | 0 <= i < |attrs'|
        ensures attrs'[i].name in values && TermsFor(wp, attrs'[i].name, values[attrs'[i].name], attrs'[i].options, m', ts')
        ensures attrs'[i].name in order + [t]
      {
        if i < |attrs| {
          assert attrs'[i] == attrs'[..|attrs|][i] == attrs[i];
        }
      }
    }
    forall u, v | u in order + [t] && u in values && v in values[u] && TermAvailable(wp, u, v, ts0, tax', refused)
      ensures (u, v) in m'
    {
      if u == t {
        TermAvailableGrows(wp, u, v, ts0, ts, tax', refused);
      } else {
        assert u in order;
        assert TermAvailable(wp, u, v, ts0, tax, refused);
      }
    }
  }

  /** Every attribute is visible and variation-enabled, with at least one
      option, each a term of the attribute's taxonomy in ts; a non-zero id
      (only with withId) is one of the first n global attributes. */
  ghost predicate AttrsShape(attrs: seq<WcStore.Attribute>, ts: seq<WcStore.Term>, n: int, withId: bool) {
    forall i :: 0 <= i < |attrs| ==>
      && attrs[i].visible && attrs[i].variation && attrs[i].options != []
      && TermsOf(attrs[i].options, ts, attrs[i].name)
      && (attrs[i].id != 0 ==> withId && 0 < attrs[i].id <= n)
  }

  lemma AttrsShapeGrows(attrs: seq<WcStore.Attribute>, ts: seq<WcStore.Term>, ts': seq<WcStore.Term>, n: int, n': int, withId: bool)
    requires AttrsShape(attrs, ts, n, withId) && ts <= ts' && n <= n'
    ensures AttrsShape(attrs, ts', n', withId)
  {
    forall i | 0 <= i < |attrs| ensures TermsOf(attrs[i].options, ts', attrs[i].name) {
      TermsOfGrows(attrs[i].options, ts, ts', attrs[i].name);
    }
  }

  /** Names(attrs + [a]) */
  lemma NamesSnoc(attrs: seq<WcStore.Attribute>, a: WcStore.Attribute)
    ensures Names(attrs + [a]) == Names(attrs) + [a.name]
  {
    assert (attrs + [a])[..|attrs|] == attrs;
  }

  class Mapper {
    /** The WordPress/WooCommerce store written to. */
    const store: WcStore.Store
    /** The client's get_category. */
    const categories: MapperRules.CategorySource
    /** Whether the client is the database adapter, whose own
        normalize_attr_slug and normalize_term_slug the mapper then uses. */
    const viaDb: bool
    const wp: Http.Wp
    const media: Http.Media
    /** category_cache: PrestaShop category id => term id, or null. */
    var categoryCache: map<int, Option<int>>
    /** brand_taxonomy_cache: none until resolved, then the taxonomy or "". */
    var brandTaxonomyCache: Option<string>
    /** brand_image_cache: manufacturer id => attachment id. */
    var brandImageCache: map<int, int>

    constructor (store: WcStore.Store, categories: MapperRules.CategorySource, viaDb: bool, wp: Http.Wp, media: Http.Media)
      ensures this.store == store && this.categories == categories && this.viaDb == viaDb
      ensures this.wp == wp && this.media == media
      ensures categoryCache == map[] && brandTaxonomyCache.None? && brandImageCache == map[]
      ensures Valid()
    {
      this.store := store;
      this.categories := categories;
      this.viaDb := viaDb;
      this.wp := wp;
      this.media := media;
      categoryCache := map[];
      brandTaxonomyCache := None;
      brandImageCache := map[];
    }

    /** Every cached category term is a product_cat term of the store. */
    ghost predicate Valid()
      reads this, store
    {
      CacheIn(categoryCache, store.terms)
    }

    /** The store only gained terms; nothing else in it changed. */
    twostate predicate OnlyTermsGrew()
      reads this, store
    {
      && old(store.terms) <= store.terms
      && store.termThumbnail == old(store.termThumbnail) && store.objectTerms == old(store.objectTerms)
      && store.taxonomies == old(store.taxonomies) && store.attributeDefs == old(store.attributeDefs)
      && store.products == old(store.products)
    }

    /** A resolved category stays resolved to the same term, and the brand
        caches are those there were. */
    twostate predicate CachesKept()
      reads this
    {
      && Resolutions(old(categoryCache)) <= Resolutions(categoryCache)
      && brandTaxonomyCache == old(brandTaxonomyCache) && brandImageCache == old(brandImageCache)
    }

    /** What get_category answers for id is usable: no error, non-empty,
        with a truthy name. */
    static predicate Usable(fetched: Result<Val>) {
      fetched.Ok? && !Empty(fetched.value) && !DbShape.Falsy(MapperRules.LangField(fetched.value, "name"))
    }

    // ------------------------------------------------------------ categories

    /** get_or_create_wc_category: a cached term is returned as it is,
        anything else is resolved again (isset is false for a cached
        null). The parent chain of id ends within bound steps. */
    method GetOrCreateCategory(id: int, ghost bound: nat) returns (r: Option<int>)
      requires Valid()
      requires MapperRules.ChainEnds(categories.fetch, id, bound)
      modifies this, store
      ensures Valid() && OnlyTermsGrew() && CachesKept()
      ensures id in old(categoryCache) && old(categoryCache)[id].Some? ==>
        r == old(categoryCache)[id] && store.terms == old(store.terms) && categoryCache == old(categoryCache)
      ensures !(id in old(categoryCache) && old(categoryCache)[id].Some?) ==> Resolved(id, r)
      ensures id in categoryCache && categoryCache[id] == r
      ensures r.Some? ==> 0 < r.value <= |store.terms| && store.terms[r.value - 1].taxonomy == ProductCat
      decreases bound, 2
    {
      if id in categoryCache && categoryCache[id].Some? {
        r := categoryCache[id];
        return;
      }
      r := ResolveCategory(id, bound);
    }

    /** What resolving category id gave: null when get_category failed, was
        empty or had a falsy name (and then the store is unchanged);
        otherwise a term exactly when the store could insert one, and then
        the product_cat term with the category's slug, the first one with
        that slug. */
    twostate predicate Resolved(id: int, new r: Option<int>)
      reads this, store
    {
      var fetched := MapperRules.Category(categories, id);
      && (!Usable(fetched) ==> r.None? && store.terms == old(store.terms) && categoryCache == old(categoryCache)[id := None])
      && (Usable(fetched) ==>
            var slug := MapperRules.CategorySlug(wp, fetched.value);
            && (r.Some? ==> 0 < r.value <= |store.terms| && store.terms[r.value - 1].slug == slug
                            && (slug != "" ==> store.TermBySlug(slug, ProductCat) == r))
            && (ProductCat in store.taxonomies && (ProductCat, MapperRules.LangField(fetched.value, "name")) !in store.refusedTerms ==> r.Some?))
    }

    /** The uncached part of get_or_create_wc_category: fetch and check,
        then resolve. */
    method ResolveCategory(id: int, ghost bound: nat) returns (r: Option<int>)
      requires Valid()
      requires MapperRules.ChainEnds(categories.fetch, id, bound)
      requires !(id in categoryCache && categoryCache[id].Some?)
      modifies this, store
      ensures Valid() && OnlyTermsGrew() && CachesKept()
      ensures Resolved(id, r)
      ensures id in categoryCache && categoryCache[id] == r
      ensures r.Some? ==> 0 < r.value <= |store.terms| && store.terms[r.value - 1].taxonomy == ProductCat
      decreases bound, 1
    {
      var fetched := MapperRules.Category(categories, id);
      if !Usable(fetched) {
        ResolutionsUpdate(categoryCache, id, None);
        categoryCache := categoryCache[id := None];
        return None;
      }
      r := ResolveUsable(id, fetched.value, bound);
    }

    /** A usable category: its parent first, then its term. */
    method ResolveUsable(id: int, cat: Val, ghost bound: nat) returns (r: Option<int>)
      requires Valid()
      requires MapperRules.Category(categories, id) == Ok(cat) && Usable(Ok(cat))
      requires MapperRules.ChainEnds(categories.fetch, id, bound)
      requires !(id in categoryCache && categoryCache[id].Some?)
      modifies this, store
      ensures Valid() && OnlyTermsGrew() && CachesKept()
      ensures id in categoryCache && categoryCache[id] == r
      ensures r.Some? ==> 0 < r.value <= |store.terms| && store.terms[r.value - 1].taxonomy == ProductCat
      ensures var slug := MapperRules.CategorySlug(wp, cat);
        && (r.Some? ==> store.terms[r.value - 1].slug == slug && (slug != "" ==> store.TermBySlug(slug, ProductCat) == r))
        && (ProductCat in store.taxonomies && (ProductCat, MapperRules.LangField(cat, "name")) !in store.refusedTerms ==> r.Some?)
      decreases bound, 0
    {
      var name := MapperRules.LangField(cat, "name");
      var slug := MapperRules.CategorySlug(wp, cat);
      var parent := 0;
      var parentId := MapperRules.ParentOf(cat);
      if parentId > 0 {
        assert MapperRules.ParentRequest(Ok(cat)) == Some(parentId);
        var p := GetOrCreateCategory(parentId, bound - 1);
        parent := if p.Some? then p.value else 0;
      }
      ghost var mid := categoryCache;
      r := FindOrInsertCategory(id, name, slug, parent, MapperRules.LangField(cat, "description"));
      ResolutionsUpdate(old(categoryCache), id, r);
      ResolutionsUpdate(mid, id, r);
    }

    /** The end of get_or_create_wc_category: the product_cat term with
        that slug when there is one, else a new one; cached either way. */
    method FindOrInsertCategory(id: int, name: string, slug: string, parent: int, description: string) returns (r: Option<int>)
      requires Valid() && name != ""
      modifies this, store
      ensures Valid() && OnlyTermsGrew()
      ensures categoryCache == old(categoryCache)[id := r]
      ensures brandTaxonomyCache == old(brandTaxonomyCache) && brandImageCache == old(brandImageCache)
      ensures r.Some? ==> 0 < r.value <= |store.terms| && store.terms[r.value - 1].taxonomy == ProductCat
      ensures r.Some? ==> store.terms[r.value - 1].slug == slug && (slug != "" ==> store.TermBySlug(slug, ProductCat) == r)
      ensures old(store.TermBySlug(slug, ProductCat)).None? ==>
        (r.Some? <==> ProductCat in store.taxonomies && (ProductCat, name) !in store.refusedTerms)
        && (r.Some? ==> store.terms == old(store.terms) + [WcStore.Term(ProductCat, name, slug, parent, description)])
      ensures old(store.TermBySlug(slug, ProductCat)).Some? ==> r == old(store.TermBySlug(slug, ProductCat)) && store.terms == old(store.terms)
    {
      var existing := store.TermBySlug(slug, ProductCat);
      if existing.Some? {
        categoryCache := categoryCache[id := existing];
        return existing;
      }
      ghost var before := store.terms;
      var term := store.InsertTerm(name, ProductCat, slug, parent, description);
      CacheInGrows(categoryCache, before, store.terms);
      if term.Some? && slug != "" {
        WcStore.FindTermAppend(before, store.terms[|before|], ProductCat, true, slug, 0);
      }
      categoryCache := categoryCache[id := term];
      r := term;
    }

    /** What the associations of product resolved to, one entry each, in
        order: 0 for an id that is not positive, and for a positive id
        only when the category may stay unresolved; a non-zero entry is
        the product_cat term the cache now holds for that id; an id
        already cached with a term resolved to that term. */
    twostate predicate AssocsResolved(product: Val, resolved: seq<int>)
      reads this, store
    {
      ResolvedBy(CategoryAssocs(product), resolved, old(categoryCache), categoryCache, store.terms,
                 categories, old(store.taxonomies), store.refusedTerms)
    }

    /** get_wc_category_ids: each association with a positive id resolves
        to its category term; the ids are the non-zero term ids in the
        associations' order, each once. */
    method GetWcCategoryIds(product: Val) returns (ids: seq<int>, ghost resolved: seq<int>)
      requires Valid() && MapperRules.ChainsEnd(categories)
      modifies this, store
      ensures Valid() && OnlyTermsGrew() && CachesKept()
      ensures AssocsResolved(product, resolved) && ids == Distinct(NonZero(resolved))
      ensures forall i, j :: 0 <= i < j < |ids| ==> ids[i] != ids[j]
      ensures forall x :: x in ids ==> 0 < x <= |store.terms| && store.terms[x - 1].taxonomy == ProductCat
      ensures forall x :: x in ids ==> exists k :: k in categoryCache && categoryCache[k] == Some(x)
      ensures Empty(Field(Field(product, "associations"), "categories")) ==> ids == [] && store.terms == old(store.terms)
    {
      var assocs := Field(Field(product, "associations"), "categories");
      if Empty(assocs) || !assocs.Arr? {
        return [], [];
      }
      var found;
      found, resolved := ResolveAssocs(Values(assocs));
      ids := Distinct(found);
      DistinctSpec(found);
      forall x | x in ids
        ensures 0 < x <= |store.terms| && store.terms[x - 1].taxonomy == ProductCat
        ensures exists k :: k in categoryCache && categoryCache[k] == Some(x)
      {
        var j :| 0 <= j < |resolved| && resolved[j] == x;
        var k := AssocId(Values(assocs)[j]);
        assert ResolvedOne(Values(assocs)[j], x, old(categoryCache), categoryCache, store.terms,
                           categories, old(store.taxonomies), store.refusedTerms);
        ResolutionAt(categoryCache, k, x);
      }
    }

    /** The loop of get_wc_category_ids: each association in order, through
        CategoryOfAssoc; found keeps the non-zero answers. */
    method ResolveAssocs(list: seq<Val>) returns (found: seq<int>, ghost resolved: seq<int>)
      requires Valid() && MapperRules.ChainsEnd(categories)
      modifies this, store
      ensures Valid() && OnlyTermsGrew() && CachesKept()
      ensures ResolvedBy(list, resolved, old(categoryCache), categoryCache, store.terms, categories, old(store.taxonomies), store.refusedTerms)
      ensures found == NonZero(resolved)
    {
      found, resolved := [], [];
      var i := 0;
      while i < |list|
        invariant 0 <= i <= |list|
        invariant Valid() && OnlyTermsGrew() && CachesKept()
        invariant found == NonZero(resolved)
        invariant ResolvedBy(list[..i], resolved, old(categoryCache), categoryCache, store.terms,
                             categories, old(store.taxonomies), store.refusedTerms)
      {
        ghost var before := categoryCache;
        ghost var ts := store.terms;
        var catId, wcId := CategoryOfAssoc(list[i]);
        if catId > 0 && catId in old(categoryCache) && old(categoryCache)[catId].Some? {
          ResolutionAt(old(categoryCache), catId, old(categoryCache)[catId].value);
          ResolutionAt(categoryCache, catId, old(categoryCache)[catId].value);
        }
        ResolvedBySnoc(list[..i], resolved, old(categoryCache), before, categoryCache, ts, store.terms,
                       categories, old(store.taxonomies), store.refusedTerms, list[i], wcId);
        assert list[..i + 1] == list[..i] + [list[i]];
        assert (resolved + [wcId])[..|resolved|] == resolved;
        if wcId != 0 {
          found := found + [wcId];
        }
        resolved := resolved + [wcId];
        i := i + 1;
      }
      assert list[..|list|] == list;
    }

    /** One association of get_wc_category_ids: its (int) id, and the term
        it resolves to when that id is positive, 0 when none. */
    method CategoryOfAssoc(assoc: Val) returns (catId: int, wcId: int)
      requires Valid() && MapperRules.ChainsEnd(categories)
      modifies this, store
      ensures Valid() && OnlyTermsGrew() && CachesKept()
      ensures catId == AssocId(assoc)
      ensures catId <= 0 ==> wcId == 0 && store.terms == old(store.terms)
      ensures catId > 0 ==> catId in categoryCache && wcId == (if categoryCache[catId].Some? then categoryCache[catId].value else 0)
      ensures wcId != 0 ==> (catId, wcId) in Resolutions(categoryCache)
      ensures wcId != 0 ==> 0 < wcId <= |store.terms| && store.terms[wcId - 1].taxonomy == ProductCat
      ensures catId > 0 && !(catId in old(categoryCache) && old(categoryCache)[catId].Some?) ==>
        Resolved(catId, if wcId == 0 then None else Some(wcId))
      ensures catId > 0 && wcId == 0 ==> MayStayUnresolved(categories, catId, store.taxonomies, store.refusedTerms)
    {
      catId := if FieldSet(assoc, "id") then ToInt(Field(assoc, "id")) else 0;
      wcId := 0;
      if catId > 0 {
        var r := GetOrCreateCategory(catId, categories.depth);
        if r.Some? {
          wcId := r.value;
        }
      }
    }

    // ------------------------------------------------------------ attributes

    /** What ensure_attribute_taxonomy did: an existing attribute's id with
        nothing changed; otherwise the taxonomy registered, and a new
        attribute (slug without "pa_", label from the slug) exactly when
        the store can create one and has none with that slug, its id the
        answer, else 0. */
    twostate predicate AttributeEnsured(taxonomy: string, id: int)
      reads store
    {
      var slug := MapperRules.AttributeSlugOf(taxonomy);
      && (old(store.AttributeId(taxonomy)) > 0 ==>
            id == old(store.AttributeId(taxonomy)) && store.attributeDefs == old(store.attributeDefs) && store.taxonomies == old(store.taxonomies))
      && (old(store.AttributeId(taxonomy)) == 0 ==> store.taxonomies == old(store.taxonomies) + {taxonomy})
      && (old(store.AttributeId(taxonomy)) == 0 && id > 0 ==>
            id == |old(store.attributeDefs)| + 1
            && store.attributeDefs == old(store.attributeDefs) + [WcStore.AttributeDef(slug, MapperRules.AttributeLabel(taxonomy))])
      && (old(store.AttributeId(taxonomy)) == 0 && id == 0 ==> store.attributeDefs == old(store.attributeDefs))
      && (old(store.AttributeId(taxonomy)) == 0 ==>
            (id > 0 <==> store.canCreateAttributes && slug !in store.refusedAttributes
                         && forall j :: 0 <= j < |old(store.attributeDefs)| ==> old(store.attributeDefs)[j].slug != slug))
    }

    /** ensure_attribute_taxonomy: an attribute already named by taxonomy
        gives its id; otherwise it is created (slug without "pa_", label
        from the slug) and its taxonomy registered, giving the new id; if
        that fails the taxonomy is registered when missing and the answer
        is wc_attribute_taxonomy_id_by_name, which is then 0. */
    method EnsureAttributeTaxonomy(taxonomy: string) returns (id: int)
      modifies store
      ensures store.terms == old(store.terms) && store.termThumbnail == old(store.termThumbnail)
      ensures store.objectTerms == old(store.objectTerms) && store.products == old(store.products)
      ensures AttributeEnsured(taxonomy, id)
      ensures old(store.attributeDefs) <= store.attributeDefs && old(store.taxonomies) <= store.taxonomies
      ensures id == 0 || 0 < id <= |store.attributeDefs|
    {
      var existing := store.AttributeId(taxonomy);
      if existing > 0 {
        return existing;
      }
      if store.canCreateAttributes {
        var created := store.CreateAttribute(MapperRules.AttributeSlugOf(taxonomy), MapperRules.AttributeLabel(taxonomy));
        if created.Some? {
          store.RegisterTaxonomy(taxonomy);
          return created.value;
        }
      }
      if !store.TaxonomyExists(taxonomy) {
        store.RegisterTaxonomy(taxonomy);
      }
      id := store.AttributeId(taxonomy);
    }

    /** get_or_create_attribute_term: the trimmed value; none when that is
        empty; else the term of the taxonomy with its slug, else the one
        with its name, else a new term with that name and slug. */
    method GetOrCreateAttributeTerm(taxonomy: string, valueName: string) returns (t: Option<int>)
      modifies store
      ensures store.termThumbnail == old(store.termThumbnail) && store.objectTerms == old(store.objectTerms)
      ensures store.taxonomies == old(store.taxonomies) && store.attributeDefs == old(store.attributeDefs)
      ensures store.products == old(store.products) && old(store.terms) <= store.terms
      ensures var value := Text.Trim(valueName);
        AttributeTermFound(value, MapperRules.OwnTermSlug(wp, value), taxonomy, old(store.terms), store.terms,
                           taxonomy in store.taxonomies && (taxonomy, value) !in store.refusedTerms, t)
      ensures t.Some? ==> 0 < t.value <= |store.terms| && store.terms[t.value - 1].taxonomy == taxonomy
    {
      var value := Text.Trim(valueName);
      if value == "" {
        return None;
      }
      var slug := MapperRules.OwnTermSlug(wp, value);
      var bySlug := store.TermBySlug(slug, taxonomy);
      if bySlug.Some? {
        return bySlug;
      }
      var byName := store.TermByName(value, taxonomy);
      if byName.Some? {
        return byName;
      }
      ghost var before := store.terms;
      t := store.InsertTerm(value, taxonomy, slug, 0, "");
      if t.Some? {
        WcStore.FindTermAppend(before, store.terms[|before|], taxonomy, true, slug, 0);
      }
    }

    /** One value of the inner loop: when get_or_create_attribute_term
        gives a term, which happens exactly when one is available for the
        value, its id is collected and its slug recorded under
        (taxonomy, value). */
    method CollectTerm(taxonomy: string, value: string, termIds: seq<int>, slugMap: map<(string, string), string>)
      returns (found: bool, termIds': seq<int>, slugMap': map<(string, string), string>)
      requires Valid() && TermsOf(termIds, store.terms, taxonomy)
      modifies store
      ensures Valid() && OnlyTermsGrew() && TermsOf(termIds', store.terms, taxonomy)
      ensures !found ==> termIds' == termIds && slugMap' == slugMap
      ensures found ==>
        |termIds'| == |termIds| + 1 && termIds' == termIds + [termIds'[|termIds|]] && 0 < termIds'[|termIds|] <= |store.terms|
        && slugMap' == slugMap[(taxonomy, value) := store.terms[termIds'[|termIds|] - 1].slug]
      ensures found <==> TermAvailable(wp, taxonomy, value, old(store.terms), store.taxonomies, store.refusedTerms)
      ensures found ==> TermOfValue(wp, taxonomy, value, termIds'[|termIds|], store.terms)
    {
      ghost var before := store.terms;
      var term := GetOrCreateAttributeTerm(taxonomy, value);
      CacheInGrows(categoryCache, before, store.terms);
      TermsOfGrows(termIds, before, store.terms, taxonomy);
      found, termIds', slugMap' := term.Some?, termIds, slugMap;
      if term.Some? {
        TermsOfSnoc(termIds, store.terms, taxonomy, term.value);
        termIds' := termIds + [term.value];
        slugMap' := slugMap[(taxonomy, value) := store.terms[term.value - 1].slug];
      }
    }

    /** One step of the inner loop: CollectTerm on a value new to seen,
        keeping the recorded terms and the completeness of seen + [value]. */
    method CollectNext(ghost seen: seq<string>, taxonomy: string, value: string, termIds: seq<int>,
                       slugMap: map<(string, string), string>, ghost ts0: seq<WcStore.Term>)
      returns (termIds': seq<int>, slugMap': map<(string, string), string>)
      requires Valid() && TermsOf(termIds, store.terms, taxonomy) && ts0 <= store.terms
      requires value !in seen && (taxonomy, value) !in slugMap
      requires TermsFor(wp, taxonomy, seen, termIds, slugMap, store.terms)
      requires ValuesRecorded(wp, taxonomy, seen, slugMap, ts0, store.taxonomies, store.refusedTerms)
      modifies store
      ensures Valid() && OnlyTermsGrew() && TermsOf(termIds', store.terms, taxonomy)
      ensures forall k :: k in slugMap ==> k in slugMap' && slugMap'[k] == slugMap[k]
      ensures forall k :: k in slugMap' && k !in slugMap ==> k == (taxonomy, value)
      ensures TermsFor(wp, taxonomy, seen + [value], termIds', slugMap', store.terms)
      ensures ValuesRecorded(wp, taxonomy, seen + [value], slugMap', ts0, store.taxonomies, store.refusedTerms)
    {
      ghost var ts := store.terms;
      var found;
      found, termIds', slugMap' := CollectTerm(taxonomy, value, termIds, slugMap);
      if !found {
        CollectedSkip(wp, taxonomy, seen, value, termIds, slugMap, ts0, ts, store.terms, store.taxonomies, store.refusedTerms);
      } else {
        TermsForAppend(wp, taxonomy, seen, value, termIds, termIds'[|termIds|], slugMap, ts, store.terms);
        RecordedAppend(wp, taxonomy, seen, value, slugMap, slugMap', ts0, store.taxonomies, store.refusedTerms);
      }
    }

    /** The inner loop of the attribute build for one taxonomy: the term of
        each value, found or created, its id collected and its slug
        recorded under (taxonomy, value). Every value with a term available
        from the start gets one; the ids are the terms of the recorded
        values, in order. */
    method AttributeTerms(taxonomy: string, vs: seq<string>, slugMap: map<(string, string), string>)
      returns (termIds: seq<int>, slugMap': map<(string, string), string>)
      requires Valid()
      requires forall k :: k in slugMap ==> k.0 != taxonomy
      requires forall i, j :: 0 <= i < j < |vs| ==> vs[i] != vs[j]
      modifies store
      ensures Valid() && OnlyTermsGrew()
      ensures TermsOf(termIds, store.terms, taxonomy)
      ensures forall k :: k in slugMap ==> k in slugMap' && slugMap'[k] == slugMap[k]
      ensures forall k :: k in slugMap' && k !in slugMap ==> k.0 == taxonomy && k.1 in vs
      ensures termIds == [] <==> forall v :: v in vs ==> (taxonomy, v) !in slugMap'
      ensures TermsFor(wp, taxonomy, vs, termIds, slugMap', store.terms)
      ensures forall v :: v in vs && TermAvailable(wp, taxonomy, v, old(store.terms), store.taxonomies, store.refusedTerms) ==>
                (taxonomy, v) in slugMap'
    {
      termIds := [];
      slugMap' := slugMap;
      var i := 0;
      while i < |vs|
        invariant 0 <= i <= |vs|
        invariant Valid() && OnlyTermsGrew()
        invariant TermsOf(termIds, store.terms, taxonomy)
        invariant forall k :: k in slugMap ==> k in slugMap' && slugMap'[k] == slugMap[k]
        invariant forall k :: k in slugMap' && k !in slugMap ==> k.0 == taxonomy && k.1 in vs[..i]
        invariant TermsFor(wp, taxonomy, vs[..i], termIds, slugMap', store.terms)
        invariant ValuesRecorded(wp, taxonomy, vs[..i], slugMap', old(store.terms), store.taxonomies, store.refusedTerms)
      {
        assert vs[i] !in vs[..i];
        termIds, slugMap' := CollectNext(vs[..i], taxonomy, vs[i], termIds, slugMap', old(store.terms));
        assert vs[..i + 1] == vs[..i] + [vs[i]];
        i := i + 1;
      }
      assert vs[..i] == vs;
      assert termIds == [] <==> RecordedValues(taxonomy, vs, slugMap') == [];
    }

    /** One taxonomy of the second loop: ensure_attribute_taxonomy, its
        terms, and the attribute appended when there is at least one. */
    method AddAttribute(t: string, vs: seq<string>, withId: bool, attrs: seq<WcStore.Attribute>, slugMap: map<(string, string), string>)
      returns (attrs': seq<WcStore.Attribute>, slugMap': map<(string, string), string>)
      requires Valid() && AttrsShape(attrs, store.terms, |store.attributeDefs|, withId)
      requires forall k :: k in slugMap ==> k.0 != t
      requires forall i, j :: 0 <= i < j < |vs| ==> vs[i] != vs[j]
      modifies store
      ensures Valid() && AttrsShape(attrs', store.terms, |store.attributeDefs|, withId)
      ensures old(store.terms) <= store.terms && old(store.attributeDefs) <= store.attributeDefs && old(store.taxonomies) <= store.taxonomies
      ensures store.termThumbnail == old(store.termThumbnail) && store.objectTerms == old(store.objectTerms)
      ensures store.products == old(store.products)
      ensures forall k :: k in slugMap ==> k in slugMap' && slugMap'[k] == slugMap[k]
      ensures forall k :: k in slugMap' && k !in slugMap ==> k.0 == t && k.1 in vs
      ensures Names(attrs') == Names(attrs) + (if exists v :: (t, v) in slugMap' then [t] else [])
      ensures (exists v :: (t, v) in slugMap') ==>
        && |attrs'| == |attrs| + 1 && attrs'[..|attrs|] == attrs && attrs'[|attrs|].name == t
        && TermsFor(wp, t, vs, attrs'[|attrs|].options, slugMap', store.terms)
      ensures !(exists v :: (t, v) in slugMap') ==> attrs' == attrs
      ensures forall v :: v in vs && TermAvailable(wp, t, v, old(store.terms), store.taxonomies, store.refusedTerms) ==> (t, v) in slugMap'
      ensures store.taxonomies <= old(store.taxonomies) + {t}
    {
      ghost var ts0, n0 := store.terms, |store.attributeDefs|;
      var attrId := EnsureAttributeTaxonomy(t);
      var termIds;
      termIds, slugMap' := AttributeTerms(t, vs, slugMap);
      AttrsShapeGrows(attrs, ts0, store.terms, n0, |store.attributeDefs|, withId);
      assert (exists v :: (t, v) in slugMap') <==> termIds != [];
      attrs' := attrs;
      if termIds != [] {
        var a := WcStore.Attribute(if withId && attrId > 0 then attrId else 0, t, termIds, true, true);
        NamesSnoc(attrs, a);
        attrs' := attrs + [a];
        assert attrs'[..|attrs|] == attrs;
      }
    }

    /** One taxonomy t of the second loop after the taxonomies done:
        AddAttribute on what those built, which keeps their attributes and
        recorded values and adds those of t. */
    method ResolveNext(ghost done: seq<string>, t: string, values: map<string, seq<string>>, withId: bool,
                       attrs: seq<WcStore.Attribute>, slugMap: map<(string, string), string>, ghost ts0: seq<WcStore.Term>)
      returns (attrs': seq<WcStore.Attribute>, slugMap': map<(string, string), string>)
      requires Valid() && AttrsShape(attrs, store.terms, |store.attributeDefs|, withId)
      requires t !in done && t in values && ts0 <= store.terms
      requires forall i, j :: 0 <= i < j < |values[t]| ==> values[t][i] != values[t][j]
      requires Names(attrs) == WithTerms(done, slugMap)
      requires forall k :: k in slugMap ==> k.0 in done && k.0 in values && k.1 in values[k.0]
      requires forall j :: 0 <= j < |attrs| ==> attrs[j].name in done
      requires AttrsTermsFor(wp, attrs, values, slugMap, store.terms)
      requires AvailableRecorded(wp, done, values, slugMap, ts0, store.taxonomies, store.refusedTerms)
      modifies store
      ensures Valid() && AttrsShape(attrs', store.terms, |store.attributeDefs|, withId)
      ensures old(store.terms) <= store.terms && old(store.attributeDefs) <= store.attributeDefs && old(store.taxonomies) <= store.taxonomies
      ensures store.termThumbnail == old(store.termThumbnail) && store.objectTerms == old(store.objectTerms)
      ensures store.products == old(store.products)
      ensures Names(attrs') == WithTerms(done + [t], slugMap')
      ensures forall k :: k in slugMap' ==> k.0 in done + [t] && k.0 in values && k.1 in values[k.0]
      ensures forall j :: 0 <= j < |attrs'| ==> attrs'[j].name in done + [t]
      ensures AttrsTermsFor(wp, attrs', values, slugMap', store.terms)
      ensures AvailableRecorded(wp, done + [t], values, slugMap', ts0, store.taxonomies, store.refusedTerms)
    {
      ghost var ts, tax := store.terms, store.taxonomies;
      attrs', slugMap' := AddAttribute(t, values[t], withId, attrs, slugMap);
      AttributeStep(wp, done, values, t, attrs, attrs', slugMap, slugMap', ts0, ts, store.terms,
                    tax, store.taxonomies, store.refusedTerms);
      WithTermsFrame(done, slugMap, slugMap');
      WithTermsSnoc(done, t, slugMap');
    }

    /** The second loop of the attribute build: for each taxonomy in order,
        ensure_attribute_taxonomy, its terms, and a visible,
        variation-enabled attribute with those term ids when there is at
        least one; with withId the attribute carries the global attribute
        id when that is positive. Each attribute's options are the terms
        of its recorded values, and every value with a term available from
        the start is recorded. */
    method ResolveAttributes(order: seq<string>, values: map<string, seq<string>>, withId: bool)
      returns (attrs: seq<WcStore.Attribute>, slugMap: map<(string, string), string>)
      requires Valid()
      requires forall t :: t in order ==> t in values
      requires forall i, j :: 0 <= i < j < |order| ==> order[i] != order[j]
      requires forall t :: t in values ==> forall i, j :: 0 <= i < j < |values[t]| ==> values[t][i] != values[t][j]
      modifies store
      ensures Valid() && AttrsShape(attrs, store.terms, |store.attributeDefs|, withId)
      ensures old(store.terms) <= store.terms && old(store.attributeDefs) <= store.attributeDefs && old(store.taxonomies) <= store.taxonomies
      ensures store.termThumbnail == old(store.termThumbnail) && store.objectTerms == old(store.objectTerms)
      ensures store.products == old(store.products)
      ensures Names(attrs) == WithTerms(order, slugMap)
      ensures forall k :: k in slugMap ==> k.0 in order && k.0 in values && k.1 in values[k.0]
      ensures AttrsTermsFor(wp, attrs, values, slugMap, store.terms)
      ensures AvailableRecorded(wp, order, values, slugMap, old(store.terms), store.taxonomies, store.refusedTerms)
    {
      attrs := [];
      slugMap := map[];
      var i := 0;
      while i < |order|
        invariant 0 <= i <= |order|
        invariant Valid() && AttrsShape(attrs, store.terms, |store.attributeDefs|, withId)
        invariant old(store.terms) <= store.terms && old(store.attributeDefs) <= store.attributeDefs && old(store.taxonomies) <= store.taxonomies
        invariant store.termThumbnail == old(store.termThumbnail) && store.objectTerms == old(store.objectTerms)
        invariant store.products == old(store.products)
        invariant Names(attrs) == WithTerms(order[..i], slugMap)
        invariant forall k :: k in slugMap ==> k.0 in order[..i] && k.0 in values && k.1 in values[k.0]
        invariant forall j :: 0 <= j < |attrs| ==> attrs[j].name in order[..i]
        invariant AttrsTermsFor(wp, attrs, values, slugMap, store.terms)
        invariant AvailableRecorded(wp, order[..i], values, slugMap, old(store.terms), store.taxonomies, store.refusedTerms)
      {
        assert order[i] !in order[..i];
        attrs, slugMap := ResolveNext(order[..i], order[i], values, withId, attrs, slugMap, old(store.terms));
        assert order[..i + 1] == order[..i] + [order[i]];
        i := i + 1;
      }
      assert order[..i] == order;
    }

    /** build_attributes_from_combinations: the (taxonomy, value) pairs of
        all combinations, grouped by taxonomy in first-seen order with each
        value once, then resolved to attributes that carry the global
        attribute id. */
    method BuildAttributesFromCombinations(combos: seq<Val>)
      returns (attrs: seq<WcStore.Attribute>, slugMap: map<(string, string), string>)
      requires Valid()
      modifies store
      ensures Valid() && AttrsShape(attrs, store.terms, |store.attributeDefs|, true)
      ensures old(store.terms) <= store.terms && old(store.attributeDefs) <= store.attributeDefs && old(store.taxonomies) <= store.taxonomies
      ensures store.termThumbnail == old(store.termThumbnail) && store.objectTerms == old(store.objectTerms)
      ensures store.products == old(store.products)
      ensures BuiltFrom(wp, attrs, slugMap, VariationRules.AllComboPairs(wp, viaDb, combos), old(store.terms), store.terms,
                        store.taxonomies, store.refusedTerms)
    {
      var pairs := VariationRules.AllComboPairs(wp, viaDb, combos);
      var order, values := VariationRules.GroupFirstSeen(pairs);
      DistinctSpec(VariationRules.Firsts(pairs));
      forall t | t in values ensures forall i, j :: 0 <= i < j < |values[t]| ==> values[t][i] != values[t][j] {
        DistinctSpec(VariationRules.ValuesFor(pairs, t));
      }
      attrs, slugMap := ResolveAttributes(order, values, true);
      GroupedBuilt(wp, pairs, order, values, attrs, slugMap, old(store.terms), store.terms, store.taxonomies, store.refusedTerms);
    }

    /** The legacy grouping and build of create_wc_variable_product: the
        (slug, value) pairs of the variations' attribute maps, grouped in
        first-seen order, resolved to attributes without ids. */
    method BuildLegacyAttributes(variations: seq<Val>)
      returns (attrs: seq<WcStore.Attribute>, slugMap: map<(string, string), string>)
      requires Valid()
      modifies store
      ensures Valid() && AttrsShape(attrs, store.terms, |store.attributeDefs|, false)
      ensures old(store.terms) <= store.terms && old(store.attributeDefs) <= store.attributeDefs && old(store.taxonomies) <= store.taxonomies
      ensures store.termThumbnail == old(store.termThumbnail) && store.objectTerms == old(store.objectTerms)
      ensures store.products == old(store.products)
      ensures BuiltFrom(wp, attrs, slugMap, VariationRules.AllLegacyPairs(variations), old(store.terms), store.terms,
                        store.taxonomies, store.refusedTerms)
    {
      var pairs := VariationRules.AllLegacyPairs(variations);
      var order, values := VariationRules.GroupFirstSeen(pairs);
      DistinctSpec(VariationRules.Firsts(pairs));
      forall t | t in values ensures forall i, j :: 0 <= i < j < |values[t]| ==> values[t][i] != values[t][j] {
        DistinctSpec(VariationRules.ValuesFor(pairs, t));
      }
      attrs, slugMap := ResolveAttributes(order, values, false);
      GroupedBuilt(wp, pairs, order, values, attrs, slugMap, old(store.terms), store.terms, store.taxonomies, store.refusedTerms);
    }

    // ------------------------------------------------------------ variations

    /** One combination of create_variations_from_combinations, after its
        counters: skipped when its non-empty SKU is taken, skipped when the
        save fails, otherwise saved with its _presa_id_product_attribute
        meta, counted, and its attributes taken as the defaults when there
        are none yet. */
    method SaveCombination(x: VariationRules.Candidate, created: nat, firstDefault: seq<(string, string)>)
      returns (created': nat, firstDefault': seq<(string, string)>)
      modifies store
      ensures VariationRules.Step(store.refusedSaves, VariationRules.Run(old(store.products), created, firstDefault), x)
              == VariationRules.Run(store.products, created', firstDefault')
      ensures store.terms == old(store.terms) && store.termThumbnail == old(store.termThumbnail)
      ensures store.objectTerms == old(store.objectTerms) && store.taxonomies == old(store.taxonomies)
      ensures store.attributeDefs == old(store.attributeDefs)
    {
      created', firstDefault' := created, firstDefault;
      var v := x.variation;
      if v.sku != "" {
        var existing := store.SkuOwner(v.sku);
        if existing.Some? {
          return;
        }
      }
      var vid := store.Insert(v);
      if vid == 0 {
        return;
      }
      var idText := Text.IntToString(x.idAttr);
      ghost var w := VariationRules.Saved(x);
      assert w == v.(meta := Http.SetParam(v.meta, VariationRules.VariationIdKey, idText));
      store.SetMeta(vid, VariationRules.VariationIdKey, idText);
      SnocUpdate(old(store.products), v, w);
      created' := created + 1;
      if firstDefault == [] && v.variationAttributes != [] {
        firstDefault' := v.variationAttributes;
      }
    }

    /** The missing_* counters after one more combination. */
    static method CountMisses(x: VariationRules.Candidate, attributes: nat, stock: nat, images: nat)
      returns (attributes': nat, stock': nat, images': nat)
      ensures attributes' == attributes + (if VariationRules.NoAttributes in x.misses then 1 else 0)
      ensures stock' == stock + (if VariationRules.NoStock in x.misses then 1 else 0)
      ensures images' == images + (if VariationRules.NoImage in x.misses then 1 else 0)
    {
      attributes', stock', images' := attributes, stock, images;
      if VariationRules.NoAttributes in x.misses {
        attributes' := attributes' + 1;
      }
      if VariationRules.NoStock in x.misses {
        stock' := stock' + 1;
      }
      if VariationRules.NoImage in x.misses {
        images' := images' + 1;
      }
    }

    /** create_variations_from_combinations: the loop is the fold of Step
        over the product's combinations, from the products there were;
        the missing_* counters count every combination, skipped or not. */
    method CreateVariationsFromCombinations(parentId: int, product: Val, slugMap: map<(string, string), string>)
      returns (firstDefault: seq<(string, string)>, created: nat, missingAttributes: nat, missingStock: nat, missingImages: nat)
      modifies store
      ensures var combos := MapperRules.ListField(product, "combinations");
        var xs := VariationRules.Candidates(VariationRules.Context(wp, viaDb, parentId, MapperRules.PriceOf(product), slugMap), combos);
        && VariationRules.Fold(store.refusedSaves, old(store.products), xs, |xs|) == VariationRules.Run(store.products, created, firstDefault)
        && VariationRules.Appended(parentId, old(store.products), |combos|, VariationRules.Run(store.products, created, firstDefault))
        && missingAttributes == VariationRules.CountMissing(combos, VariationRules.NoAttributes)
        && missingStock == VariationRules.CountMissing(combos, VariationRules.NoStock)
        && missingImages == VariationRules.CountMissing(combos, VariationRules.NoImage)
      ensures store.terms == old(store.terms) && store.termThumbnail == old(store.termThumbnail)
      ensures store.objectTerms == old(store.objectTerms) && store.taxonomies == old(store.taxonomies)
      ensures store.attributeDefs == old(store.attributeDefs)
    {
      var combos := MapperRules.ListField(product, "combinations");
      var ctx := VariationRules.Context(wp, viaDb, parentId, MapperRules.PriceOf(product), slugMap);
      var xs := VariationRules.Candidates(ctx, combos);
      firstDefault, created, missingAttributes, missingStock, missingImages := SaveCombinations(xs);
      VariationRules.CandidatesLive(ctx, combos);
      assert forall i :: 0 <= i < |xs| ==> xs[i].misses == VariationRules.MissesOf(combos[i]);
      VariationRules.TallyCounts(xs, combos, VariationRules.NoAttributes, |combos|);
      VariationRules.TallyCounts(xs, combos, VariationRules.NoStock, |combos|);
      VariationRules.TallyCounts(xs, combos, VariationRules.NoImage, |combos|);
      assert combos[..|combos|] == combos;
      VariationRules.FoldShape(store.refusedSaves, parentId, old(store.products), xs, |xs|);
    }

    /** The loop of create_variations_from_combinations over the
        candidates of the combinations. */
    method SaveCombinations(xs: seq<VariationRules.Candidate>)
      returns (firstDefault: seq<(string, string)>, created: nat, missingAttributes: nat, missingStock: nat, missingImages: nat)
      modifies store
      ensures VariationRules.Fold(store.refusedSaves, old(store.products), xs, |xs|) == VariationRules.Run(store.products, created, firstDefault)
      ensures missingAttributes == VariationRules.Tally(xs, VariationRules.NoAttributes, |xs|)
      ensures missingStock == VariationRules.Tally(xs, VariationRules.NoStock, |xs|)
      ensures missingImages == VariationRules.Tally(xs, VariationRules.NoImage, |xs|)
      ensures store.terms == old(store.terms) && store.termThumbnail == old(store.termThumbnail)
      ensures store.objectTerms == old(store.objectTerms) && store.taxonomies == old(store.taxonomies)
      ensures store.attributeDefs == old(store.attributeDefs)
    {
      firstDefault, created, missingAttributes, missingStock, missingImages := [], 0, 0, 0, 0;
      var i := 0;
      while i < |xs|
        invariant 0 <= i <= |xs|
        invariant VariationRules.Fold(store.refusedSaves, old(store.products), xs, i) == VariationRules.Run(store.products, created, firstDefault)
        invariant missingAttributes == VariationRules.Tally(xs, VariationRules.NoAttributes, i)
        invariant missingStock == VariationRules.Tally(xs, VariationRules.NoStock, i)
        invariant missingImages == VariationRules.Tally(xs, VariationRules.NoImage, i)
        invariant store.terms == old(store.terms) && store.termThumbnail == old(store.termThumbnail)
        invariant store.objectTerms == old(store.objectTerms) && store.taxonomies == old(store.taxonomies)
        invariant store.attributeDefs == old(store.attributeDefs)
      {
        var x := xs[i];
        missingAttributes, missingStock, missingImages := CountMisses(x, missingAttributes, missingStock, missingImages);
        ghost var before := VariationRules.Run(store.products, created, firstDefault);
        created, firstDefault := SaveCombination(x, created, firstDefault);
        assert VariationRules.Fold(store.refusedSaves, old(store.products), xs, i + 1)
               == VariationRules.Step(store.refusedSaves, before, x);
        i := i + 1;
      }
    }

    // ---------------------------------------------------------------- brands

    /** get_brand_taxonomy: resolved on the first call, then the same answer
        for the rest of the import. */
    method GetBrandTaxonomy() returns (tax: string)
      modifies this`brandTaxonomyCache
      ensures old(brandTaxonomyCache).Some? ==> tax == old(brandTaxonomyCache).value && brandTaxonomyCache == old(brandTaxonomyCache)
      ensures old(brandTaxonomyCache).None? ==> tax == MapperRules.BrandTaxonomyOf(store.taxonomies)
      ensures brandTaxonomyCache == Some(tax)
    {
      if brandTaxonomyCache.Some? {
        return brandTaxonomyCache.value;
      }
      tax := MapperRules.BrandTaxonomyOf(store.taxonomies);
      brandTaxonomyCache := Some(tax);
    }

    /** get_or_create_brand_term, with its slug from the brand name. */
    method GetOrCreateBrandTerm(name: string, tax: string) returns (t: Option<int>)
      modifies store
      ensures ProductRules.BrandTermFound(name, tax, MapperRules.BrandSlug(wp, name), store.taxonomies, store.refusedTerms,
                                          old(store.terms), store.terms, t)
      ensures t.Some? ==> 0 < t.value <= |store.terms| && store.terms[t.value - 1].taxonomy == tax
      ensures old(store.terms) <= store.terms
      ensures store.termThumbnail == old(store.termThumbnail) && store.objectTerms == old(store.objectTerms)
      ensures store.taxonomies == old(store.taxonomies) && store.attributeDefs == old(store.attributeDefs)
      ensures store.products == old(store.products)
    {
      if name == "" || tax == "" || !store.TaxonomyExists(tax) {
        return None;
      }
      var slug := MapperRules.BrandSlug(wp, name);
      var found := store.TermBySlug(slug, tax);
      if found.Some? {
        return found;
      }
      t := store.InsertTerm(name, tax, slug, 0, "");
    }

    /** maybe_set_brand_image: the loop over the logo URLs stops at the
        first one that gives an attachment. */
    method MaybeSetBrandImage(term: int, urls: seq<Val>, idM: int)
      modifies this`brandImageCache, store
      ensures ProductRules.BrandImageOutcome(old(store.termThumbnail), old(brandImageCache), store.termThumbnail, brandImageCache,
                                             term, idM, MapperRules.FirstLogo(wp, media, urls, 0))
      ensures store.terms == old(store.terms) && store.objectTerms == old(store.objectTerms)
      ensures store.taxonomies == old(store.taxonomies) && store.attributeDefs == old(store.attributeDefs)
      ensures store.products == old(store.products)
    {
      if store.Thumbnail(term) != 0 {
        return;
      }
      if idM > 0 && idM in brandImageCache {
        var attach := brandImageCache[idM];
        if attach > 0 {
          store.SetThumbnail(term, attach);
        }
        return;
      }
      if urls == [] {
        return;
      }
      var i := 0;
      while i < |urls|
        invariant 0 <= i <= |urls|
        invariant MapperRules.FirstLogo(wp, media, urls, 0) == MapperRules.FirstLogo(wp, media, urls, i)
        invariant store.termThumbnail == old(store.termThumbnail) && brandImageCache == old(brandImageCache)
        invariant store.terms == old(store.terms) && store.objectTerms == old(store.objectTerms)
        invariant store.taxonomies == old(store.taxonomies) && store.attributeDefs == old(store.attributeDefs)
        invariant store.products == old(store.products)
      {
        var url := wp.escUrlRaw(ToStr(urls[i]));
        if !DbShape.Falsy(url) && Http.ImageHead(media.head(url)) {
          var attach := media.sideload(url);
          if attach.Some? {
            store.SetThumbnail(term, attach.value);
            if idM > 0 {
              brandImageCache := brandImageCache[idM := attach.value];
            }
            return;
          }
        }
        i := i + 1;
      }
    }

    /** set_product_brand: the product gets the brand term of its
        normalized manufacturer name in the brand taxonomy, and the term
        a logo; brand is the (taxonomy, term) assigned, none when skipped. */
    method SetProductBrand(pid: int, product: Val) returns (ghost brand: Option<(string, int)>)
      requires Valid()
      modifies this`brandTaxonomyCache, this`brandImageCache, store
      ensures Valid() && categoryCache == old(categoryCache)
      ensures old(store.terms) <= store.terms && store.products == old(store.products)
      ensures store.taxonomies == old(store.taxonomies) && store.attributeDefs == old(store.attributeDefs)
      ensures ProductRules.BrandName(wp, product) == "" ==> brandTaxonomyCache == old(brandTaxonomyCache)
      ensures ProductRules.BrandName(wp, product) != "" ==> BrandTaxonomyResolved()
      ensures ProductRules.BrandAssigned(ProductRules.BrandName(wp, product), ResolvedBrandTaxonomy(), store.taxonomies, store.refusedTerms,
                                         old(store.terms), store.terms, old(store.objectTerms), store.objectTerms,
                                         old(store.termThumbnail), store.termThumbnail, old(brandImageCache), brandImageCache,
                                         pid, ProductRules.ManufacturerId(product),
                                         MapperRules.FirstLogo(wp, media, MapperRules.ListField(product, "manufacturer_logo_urls"), 0),
                                         MapperRules.BrandSlug(wp, ProductRules.BrandName(wp, product)), brand)
    {
      brand := None;
      var idM := ProductRules.ManufacturerId(product);
      var mname := ProductRules.ManufacturerName(product);
      if idM > 0 && mname == "" {
        return;
      }
      if mname == "" {
        return;
      }
      var name := MapperRules.NormalizeBrandName(wp, mname);
      if name == "" {
        return;
      }
      brand := AssignBrand(pid, name, idM, MapperRules.ListField(product, "manufacturer_logo_urls"));
    }

    /** set_product_brand as the product saves see it: the products, the
        attributes and the category cache are left as they were. */
    method ApplyBrand(pid: int, product: Val)
      requires Valid()
      modifies this`brandTaxonomyCache, this`brandImageCache, store
      ensures Valid() && categoryCache == old(categoryCache)
      ensures old(store.terms) <= store.terms && store.products == old(store.products)
      ensures store.taxonomies == old(store.taxonomies) && store.attributeDefs == old(store.attributeDefs)
    {
      ghost var brand := SetProductBrand(pid, product);
    }

    /** The brand taxonomy once resolved, '' before. */
    function ResolvedBrandTaxonomy(): string
      reads this
    {
      if brandTaxonomyCache.Some? then brandTaxonomyCache.value else ""
    }

    /** The brand taxonomy is resolved, and a resolution that was there is
        kept: the taxonomy does not change mid-import. */
    twostate predicate BrandTaxonomyResolved()
      reads this, store
    {
      && brandTaxonomyCache.Some?
      && (old(brandTaxonomyCache).Some? ==> brandTaxonomyCache == old(brandTaxonomyCache))
      && (old(brandTaxonomyCache).None? ==> brandTaxonomyCache == Some(MapperRules.BrandTaxonomyOf(store.taxonomies)))
    }

    /** The rest of set_product_brand once there is a brand name. */
    method AssignBrand(pid: int, name: string, idM: int, urls: seq<Val>) returns (ghost brand: Option<(string, int)>)
      requires Valid() && name != ""
      modifies this`brandTaxonomyCache, this`brandImageCache, store
      ensures Valid() && categoryCache == old(categoryCache) && BrandTaxonomyResolved()
      ensures old(store.terms) <= store.terms && store.products == old(store.products)
      ensures store.taxonomies == old(store.taxonomies) && store.attributeDefs == old(store.attributeDefs)
      ensures ProductRules.BrandAssigned(name, ResolvedBrandTaxonomy(), store.taxonomies, store.refusedTerms,
                                         old(store.terms), store.terms, old(store.objectTerms), store.objectTerms,
                                         old(store.termThumbnail), store.termThumbnail, old(brandImageCache), brandImageCache,
                                         pid, idM, MapperRules.FirstLogo(wp, media, urls, 0), MapperRules.BrandSlug(wp, name), brand)
    {
      brand := None;
      var tax := GetBrandTaxonomy();
      if tax == "" {
        return;
      }
      var term := GetOrCreateBrandTerm(name, tax);
      CacheInGrows(old(categoryCache), old(store.terms), store.terms);
      if term.None? {
        return;
      }
      store.SetObjectTerms(pid, tax, [term.value]);
      MaybeSetBrandImage(term.value, urls, idM);
      brand := Some((tax, term.value));
    }

    // -------------------------------------------------------------- products

    /** The store and the caches after a create or an update: the category
        resolutions kept, terms and attributes only added, no taxonomy
        registered. */
    twostate predicate Grew()
      reads this, store
    {
      && Valid() && Resolutions(old(categoryCache)) <= Resolutions(categoryCache)
      && old(store.terms) <= store.terms && old(store.attributeDefs) <= store.attributeDefs
      && old(store.taxonomies) <= store.taxonomies
    }

    /** cats are what get_wc_category_ids gives product from the cache and
        taxonomies there were: the non-zero resolutions of its
        associations, each once, none zero without cause. */
    twostate predicate CategoriesResolved(product: Val, cats: seq<int>)
      reads this, store
    {
      CatsResolved(categories, product, cats, old(categoryCache), old(store.taxonomies), store.refusedTerms, categoryCache, store.terms)
    }

    /** attrs and slugMap are what the attribute build gives for product,
        from its combinations or its legacy variations, from the terms
        there were. */
    twostate predicate AttributesBuilt(product: Val, fromCombinations: bool, new attrs: seq<WcStore.Attribute>,
                                       new slugMap: map<(string, string), string>)
      reads this, store
    {
      BuiltFrom(wp, attrs, slugMap, AttributePairs(wp, viaDb, product, fromCombinations), old(store.terms), store.terms,
                store.taxonomies, store.refusedTerms)
    }

    /** set_wc_product_base_data on p, with the category ids
        get_wc_category_ids resolves. */
    method SetBaseData(p: WcStore.Product, product: Val, imageIds: seq<int>) returns (q: WcStore.Product, cats: seq<int>)
      requires Valid() && MapperRules.ChainsEnd(categories)
      modifies this, store
      ensures Valid() && OnlyTermsGrew() && CachesKept()
      ensures CategoriesResolved(product, cats)
      ensures TermsOf(cats, store.terms, ProductCat) && forall i, j :: 0 <= i < j < |cats| ==> cats[i] != cats[j]
      ensures q == MapperRules.WithBaseData(p, product, cats, imageIds)
    {
      ghost var resolved;
      cats, resolved := GetWcCategoryIds(product);
      q := MapperRules.WithBaseData(p, product, cats, imageIds);
    }

    /** create_wc_simple_product */
    method CreateSimple(product: Val, imageIds: seq<int>) returns (r: Result<int>, cats: seq<int>)
      requires Valid() && MapperRules.ChainsEnd(categories)
      modifies this, store
      ensures Grew() && TermsOf(cats, store.terms, ProductCat) && CategoriesResolved(product, cats)
      ensures ProductRules.Outcome(store.products, r)
              == ProductRules.SimpleOutcome(store.refusedSaves, old(store.products), product, cats, imageIds)
    {
      var p;
      p, cats := SetBaseData(WcStore.NewProduct(WcStore.Simple), product, imageIds);
      ghost var cache, ts0 := categoryCache, store.terms;
      p := MapperRules.WithSimpleData(p, product);
      var id := store.Insert(p);
      if id == 0 {
        return Err(ProductRules.SaveFailed), cats;
      }
      ghost var ts := store.terms;
      ApplyBrand(id, product);
      TermsOfGrows(cats, ts, store.terms, ProductCat);
      CatsResolvedGrows(categories, product, cats, old(categoryCache), old(categoryCache), old(store.taxonomies), old(store.taxonomies),
                        store.refusedTerms, cache, categoryCache, ts0, store.terms);
      r := Ok(id);
    }

    /** The variation loop of create_wc_variable_product (and of the legacy
        update): each variation saved in turn, failures ignored. */
    method SaveLegacyVariations(vs: seq<WcStore.Product>)
      modifies store
      ensures store.products == old(store.products) + VariationRules.Kept(store.refusedSaves, vs)
      ensures store.terms == old(store.terms) && store.termThumbnail == old(store.termThumbnail)
      ensures store.objectTerms == old(store.objectTerms) && store.taxonomies == old(store.taxonomies)
      ensures store.attributeDefs == old(store.attributeDefs)
    {
      var i := 0;
      while i < |vs|
        invariant 0 <= i <= |vs|
        invariant store.products == old(store.products) + VariationRules.Kept(store.refusedSaves, vs[..i])
        invariant store.terms == old(store.terms) && store.termThumbnail == old(store.termThumbnail)
        invariant store.objectTerms == old(store.objectTerms) && store.taxonomies == old(store.taxonomies)
        invariant store.attributeDefs == old(store.attributeDefs)
      {
        VariationRules.KeptTake(store.refusedSaves, vs, i);
        var id := store.Insert(vs[i]);
        i := i + 1;
      }
      assert vs[..i] == vs;
    }

    /** The attribute build of a variable product: from its combinations,
        or from its legacy variations. */
    method BuildAttributes(product: Val, fromCombinations: bool)
      returns (attrs: seq<WcStore.Attribute>, slugMap: map<(string, string), string>)
      requires Valid()
      modifies store
      ensures Valid()
      ensures old(store.terms) <= store.terms && old(store.attributeDefs) <= store.attributeDefs && old(store.taxonomies) <= store.taxonomies
      ensures store.termThumbnail == old(store.termThumbnail) && store.objectTerms == old(store.objectTerms)
      ensures store.products == old(store.products)
      ensures AttributesBuilt(product, fromCombinations, attrs, slugMap)
    {
      if fromCombinations {
        attrs, slugMap := BuildAttributesFromCombinations(MapperRules.ListField(product, "combinations"));
      } else {
        attrs, slugMap := BuildLegacyAttributes(MapperRules.ListField(product, "variations"));
      }
    }

    /** The parent of create_wc_variable_product and of
        create_wc_variable_product_from_combinations before its save: base
        data, stock not managed, and the built attributes. */
    method NewVariableParent(product: Val, imageIds: seq<int>, fromCombinations: bool)
      returns (p: WcStore.Product, cats: seq<int>, attrs: seq<WcStore.Attribute>, slugMap: map<(string, string), string>)
      requires Valid() && MapperRules.ChainsEnd(categories)
      modifies this, store
      ensures Grew() && CachesKept() && store.products == old(store.products)
      ensures store.termThumbnail == old(store.termThumbnail) && store.objectTerms == old(store.objectTerms)
      ensures TermsOf(cats, store.terms, ProductCat)
      ensures p == ProductRules.VariableParent(product, cats, imageIds, attrs)
      ensures CategoriesResolved(product, cats) && AttributesBuilt(product, fromCombinations, attrs, slugMap)
    {
      p, cats := SetBaseData(WcStore.NewProduct(WcStore.Variable), product, imageIds);
      p := p.(manageStock := false);
      ghost var ts := store.terms;
      attrs, slugMap := BuildAttributes(product, fromCombinations);
      CacheInGrows(categoryCache, ts, store.terms);
      TermsOfGrows(cats, ts, store.terms, ProductCat);
      CatsResolvedGrows(categories, product, cats, old(categoryCache), old(categoryCache), old(store.taxonomies), old(store.taxonomies),
                        store.refusedTerms, categoryCache, categoryCache, ts, store.terms);
      BuiltFromGrows(wp, attrs, slugMap, AttributePairs(wp, viaDb, product, fromCombinations), ts, old(store.terms),
                     store.terms, store.terms, store.taxonomies, store.refusedTerms);
      p := p.(attributes := attrs);
    }

    /** The saves of create_wc_variable_product once the parent is built. */
    method SaveLegacyProduct(p: WcStore.Product, slugMap: map<(string, string), string>, variations: seq<Val>) returns (r: Result<int>)
      modifies store
      ensures ProductRules.Outcome(store.products, r)
              == ProductRules.LegacySaves(store.refusedSaves, old(store.products), wp, p, slugMap, variations)
      ensures store.terms == old(store.terms) && store.termThumbnail == old(store.termThumbnail)
      ensures store.objectTerms == old(store.objectTerms) && store.taxonomies == old(store.taxonomies)
      ensures store.attributeDefs == old(store.attributeDefs)
    {
      var id := store.Insert(p);
      if id == 0 {
        return Err(ProductRules.VariableSaveFailed);
      }
      SaveLegacyVariations(ProductRules.LegacyVariations(wp, id, slugMap, variations));
      r := Ok(id);
    }

    /** create_wc_variable_product for the product's legacy variations. */
    method CreateVariableLegacy(product: Val, imageIds: seq<int>)
      returns (r: Result<int>, ghost cats: seq<int>, ghost attrs: seq<WcStore.Attribute>, ghost slugMap: map<(string, string), string>)
      requires Valid() && MapperRules.ChainsEnd(categories)
      modifies this, store
      ensures Grew()
      ensures !store.wooActive ==> r == Err(ProductRules.VariableMissing) && store.products == old(store.products)
      ensures store.wooActive ==>
        ProductRules.Outcome(store.products, r)
          == ProductRules.LegacyOutcome(store.refusedSaves, old(store.products), wp, product, cats, imageIds, attrs, slugMap)
      ensures store.wooActive ==> TermsOf(cats, store.terms, ProductCat) && CategoriesResolved(product, cats)
      ensures store.wooActive ==> AttributesBuilt(product, false, attrs, slugMap)
    {
      cats, attrs, slugMap := [], [], map[];
      if !store.wooActive {
        return Err(ProductRules.VariableMissing), cats, attrs, slugMap;
      }
      var p, c, a, m := NewVariableParent(product, imageIds, false);
      cats, attrs, slugMap := c, a, m;
      r := SaveLegacyProduct(p, m, MapperRules.ListField(product, "variations"));
      if r.Ok? {
        ghost var ts := store.terms;
        ApplyBrand(r.value, product);
        TermsOfGrows(cats, ts, store.terms, ProductCat);
        CatsResolvedGrows(categories, product, cats, old(categoryCache), old(categoryCache), old(store.taxonomies), old(store.taxonomies),
                          store.refusedTerms, categoryCache, categoryCache, ts, store.terms);
        BuiltFromGrows(wp, attrs, slugMap, AttributePairs(wp, viaDb, product, false), old(store.terms), old(store.terms),
                       ts, store.terms, store.taxonomies, store.refusedTerms);
      }
    }

    /** The first-defaults step of
        create_wc_variable_product_from_combinations: a product id that is
        still a live variable product is saved again with the defaults. */
    method SetDefaults(id: int, d: seq<(string, string)>)
      modifies store
      ensures store.products == ProductRules.WithDefaults(store.refusedSaves, old(store.products), id, d)
      ensures store.terms == old(store.terms) && store.termThumbnail == old(store.termThumbnail)
      ensures store.objectTerms == old(store.objectTerms) && store.taxonomies == old(store.taxonomies)
      ensures store.attributeDefs == old(store.attributeDefs)
    {
      if d != [] && 0 < id <= |store.products| && store.products[id - 1].kind == WcStore.Variable && !store.products[id - 1].deleted {
        var ok := store.Update(id, store.products[id - 1].(defaultAttributes := d));
      }
    }

    /** The saves of create_wc_variable_product_from_combinations once the
        parent is built. */
    method SaveComboProduct(p: WcStore.Product, product: Val, slugMap: map<(string, string), string>) returns (r: Result<int>)
      modifies store
      ensures ProductRules.Outcome(store.products, r)
              == ProductRules.ComboSaves(store.refusedSaves, old(store.products), wp, viaDb, p, product, slugMap)
      ensures store.terms == old(store.terms) && store.termThumbnail == old(store.termThumbnail)
      ensures store.objectTerms == old(store.objectTerms) && store.taxonomies == old(store.taxonomies)
      ensures store.attributeDefs == old(store.attributeDefs)
    {
      var id := store.Insert(p);
      if id == 0 {
        return Err(ProductRules.VariableSaveFailed);
      }
      var fd, created, ma, ms, mi := CreateVariationsFromCombinations(id, product, slugMap);
      SetDefaults(id, fd);
      r := Ok(id);
    }

    /** create_wc_variable_product_from_combinations: a simple product
        when there are no combinations after all. */
    method CreateFromCombinations(product: Val, imageIds: seq<int>)
      returns (r: Result<int>, ghost cats: seq<int>, ghost attrs: seq<WcStore.Attribute>, ghost slugMap: map<(string, string), string>)
      requires Valid() && MapperRules.ChainsEnd(categories)
      modifies this, store
      ensures Grew()
      ensures !store.wooActive ==> r == Err(ProductRules.VariableMissing) && store.products == old(store.products)
      ensures store.wooActive && MapperRules.ListField(product, "combinations") == [] ==>
        ProductRules.Outcome(store.products, r) == ProductRules.SimpleOutcome(store.refusedSaves, old(store.products), product, cats, imageIds)
      ensures store.wooActive && MapperRules.ListField(product, "combinations") != [] ==>
        ProductRules.Outcome(store.products, r)
          == ProductRules.ComboOutcome(store.refusedSaves, old(store.products), wp, viaDb, product, cats, imageIds, attrs, slugMap)
        && AttributesBuilt(product, true, attrs, slugMap)
      ensures store.wooActive ==> TermsOf(cats, store.terms, ProductCat) && CategoriesResolved(product, cats)
    {
      cats, attrs, slugMap := [], [], map[];
      if !store.wooActive {
        return Err(ProductRules.VariableMissing), cats, attrs, slugMap;
      }
      if MapperRules.ListField(product, "combinations") == [] {
        var c;
        r, c := CreateSimple(product, imageIds);
        return r, c, attrs, slugMap;
      }
      var p, c, a, m := NewVariableParent(product, imageIds, true);
      cats, attrs, slugMap := c, a, m;
      r := SaveComboProduct(p, product, m);
      if r.Ok? {
        ghost var ts := store.terms;
        ApplyBrand(r.value, product);
        TermsOfGrows(cats, ts, store.terms, ProductCat);
        CatsResolvedGrows(categories, product, cats, old(categoryCache), old(categoryCache), old(store.taxonomies), old(store.taxonomies),
                          store.refusedTerms, categoryCache, categoryCache, ts, store.terms);
        BuiltFromGrows(wp, attrs, slugMap, AttributePairs(wp, viaDb, product, true), old(store.terms), old(store.terms),
                       ts, store.terms, store.taxonomies, store.refusedTerms);
      }
    }

    /** create_wc_product: by combinations, else by legacy variations, else
        a simple product; nothing happens without WooCommerce. */
    method CreateProduct(product: Val, imageIds: seq<int>)
      returns (r: Result<int>, ghost cats: seq<int>, ghost attrs: seq<WcStore.Attribute>, ghost slugMap: map<(string, string), string>)
      requires Valid() && MapperRules.ChainsEnd(categories)
      modifies this, store
      ensures Grew()
      ensures !store.wooActive ==> r == Err(ProductRules.WooMissing) && store.products == old(store.products)
      ensures store.wooActive ==>
        ProductRules.Outcome(store.products, r)
          == ProductRules.CreatedOutcome(store.refusedSaves, old(store.products), wp, viaDb, product, cats, imageIds, attrs, slugMap)
        && TermsOf(cats, store.terms, ProductCat) && CategoriesResolved(product, cats)
      ensures store.wooActive && MapperRules.KindFor(product) == WcStore.Variable ==>
        AttributesBuilt(product, MapperRules.ListField(product, "combinations") != [], attrs, slugMap)
    {
      cats, attrs, slugMap := [], [], map[];
      if !store.wooActive {
        return Err(ProductRules.WooMissing), cats, attrs, slugMap;
      }
      if MapperRules.ListField(product, "combinations") != [] {
        r, cats, attrs, slugMap := CreateFromCombinations(product, imageIds);
      } else if MapperRules.ListField(product, "variations") != [] {
        r, cats, attrs, slugMap := CreateVariableLegacy(product, imageIds);
      } else {
        r, cats := CreateSimple(product, imageIds);
      }
    }

    /** The first step of an update: a variable product's variations, as
        get_children lists them, are deleted one by one. */
    method DeleteVariations(e: int)
      requires 0 < e <= |store.products|
      modifies store
      ensures store.products == if old(store.products)[e - 1].kind == WcStore.Variable
                                then ProductRules.Orphaned(old(store.products), e) else old(store.products)
      ensures store.terms == old(store.terms) && store.termThumbnail == old(store.termThumbnail)
      ensures store.objectTerms == old(store.objectTerms) && store.taxonomies == old(store.taxonomies)
      ensures store.attributeDefs == old(store.attributeDefs)
    {
      if store.products[e - 1].kind != WcStore.Variable {
        return;
      }
      ghost var ps := store.products;
      var children := store.Children(e);
      ghost var done: set<int> := {};
      var i := 0;
      while i < |children|
        invariant 0 <= i <= |children| && |store.products| == |ps|
        invariant forall c :: c in children ==> 0 < c <= |ps| && ProductRules.ChildOf(ps[c - 1], e)
        invariant forall j :: 0 <= j < i ==> children[j] in done
        invariant forall c :: c in done ==> c in children
        invariant forall k :: 0 <= k < |ps| ==> store.products[k] == if k + 1 in done then ps[k].(deleted := true) else ps[k]
        invariant store.terms == old(store.terms) && store.termThumbnail == old(store.termThumbnail)
        invariant store.objectTerms == old(store.objectTerms) && store.taxonomies == old(store.taxonomies)
        invariant store.attributeDefs == old(store.attributeDefs)
      {
        var c := children[i];
        assert c in children;
        if store.products[c - 1].kind == WcStore.Variation {
          store.Delete(c);
        }
        done := done + {c};
        i := i + 1;
      }
      assert store.products == ProductRules.Orphaned(ps, e) by {
        forall k | 0 <= k < |ps| ensures store.products[k] == ProductRules.Orphaned(ps, e)[k] {
          if ProductRules.ChildOf(ps[k], e) {
            assert k + 1 in children;
            var j :| 0 <= j < |children| && children[j] == k + 1;
            assert k + 1 in done;
          }
        }
      }
    }

    /** The combinations branch of an update of product e from its base
        data q: the attributes saved, the combination loop, and the first
        defaults saved. */
    method SaveComboUpdate(e: int, q: WcStore.Product, product: Val)
      returns (ghost attrs: seq<WcStore.Attribute>, ghost slugMap: map<(string, string), string>)
      requires Valid() && 0 < e <= |store.products|
      modifies store
      ensures Valid() && |old(store.products)| <= |store.products|
      ensures old(store.terms) <= store.terms && old(store.attributeDefs) <= store.attributeDefs && old(store.taxonomies) <= store.taxonomies
      ensures store.termThumbnail == old(store.termThumbnail) && store.objectTerms == old(store.objectTerms)
      ensures store.products
              == ProductRules.ComboUpdate(store.refusedSaves, old(store.products), wp, viaDb, product, e, q.(manageStock := false, attributes := attrs), slugMap)
      ensures AttributesBuilt(product, true, attrs, slugMap)
    {
      var a, m := BuildAttributes(product, true);
      attrs, slugMap := a, m;
      var q1 := q.(manageStock := false, attributes := a);
      var ok := store.Update(e, q1);
      var fd, created, ma, ms, mi := CreateVariationsFromCombinations(e, product, m);
      if fd != [] {
        ok := store.Update(e, q1.(defaultAttributes := fd));
      }
    }

    /** The legacy branch of an update of product e from its base data q:
        the attributes saved, then the legacy variation loop. */
    method SaveLegacyUpdate(e: int, q: WcStore.Product, product: Val)
      returns (ghost attrs: seq<WcStore.Attribute>, ghost slugMap: map<(string, string), string>)
      requires Valid() && 0 < e <= |store.products|
      modifies store
      ensures Valid() && |old(store.products)| <= |store.products|
      ensures old(store.terms) <= store.terms && old(store.attributeDefs) <= store.attributeDefs && old(store.taxonomies) <= store.taxonomies
      ensures store.termThumbnail == old(store.termThumbnail) && store.objectTerms == old(store.objectTerms)
      ensures store.products
              == ProductRules.SaveAt(store.refusedSaves, old(store.products), e, q.(manageStock := false, attributes := attrs))
                 + VariationRules.Kept(store.refusedSaves, ProductRules.LegacyVariations(wp, e, slugMap, MapperRules.ListField(product, "variations")))
      ensures AttributesBuilt(product, false, attrs, slugMap)
    {
      var a, m := BuildAttributes(product, false);
      attrs, slugMap := a, m;
      var ok := store.Update(e, q.(manageStock := false, attributes := a));
      SaveLegacyVariations(ProductRules.LegacyVariations(wp, e, m, MapperRules.ListField(product, "variations")));
    }

    /** The saves of create_or_update_wc_product after the base data q of
        product e: by combinations, by legacy variations, or as a simple
        product. */
    method SaveUpdate(e: int, q: WcStore.Product, product: Val)
      returns (ghost attrs: seq<WcStore.Attribute>, ghost slugMap: map<(string, string), string>)
      requires Valid() && 0 < e <= |store.products|
      modifies store
      ensures Valid() && |old(store.products)| <= |store.products|
      ensures old(store.terms) <= store.terms && old(store.attributeDefs) <= store.attributeDefs && old(store.taxonomies) <= store.taxonomies
      ensures store.termThumbnail == old(store.termThumbnail) && store.objectTerms == old(store.objectTerms)
      ensures store.products == ProductRules.UpdateSaves(store.refusedSaves, old(store.products), wp, viaDb, product, e, q, attrs, slugMap)
      ensures MapperRules.KindFor(product) == WcStore.Variable ==>
        AttributesBuilt(product, MapperRules.ListField(product, "combinations") != [], attrs, slugMap)
    {
      attrs, slugMap := [], map[];
      if MapperRules.ListField(product, "combinations") != [] {
        attrs, slugMap := SaveComboUpdate(e, q, product);
      } else if MapperRules.ListField(product, "variations") != [] {
        attrs, slugMap := SaveLegacyUpdate(e, q, product);
      } else {
        var ok := store.Update(e, MapperRules.WithSimpleData(q, product));
      }
    }

    /** The start of an update of product e: its variations deleted, its
        type set, and its base data built. */
    method Retype(product: Val, imageIds: seq<int>, e: int) returns (q: WcStore.Product, cats: seq<int>)
      requires Valid() && MapperRules.ChainsEnd(categories) && 0 < e <= |store.products|
      modifies this, store
      ensures Valid() && CachesKept() && old(store.terms) <= store.terms
      ensures store.termThumbnail == old(store.termThumbnail) && store.objectTerms == old(store.objectTerms)
      ensures store.taxonomies == old(store.taxonomies) && store.attributeDefs == old(store.attributeDefs)
      ensures store.products == ProductRules.Retyped(old(store.products), e, product)
      ensures q == MapperRules.WithBaseData(store.products[e - 1], product, cats, imageIds)
      ensures TermsOf(cats, store.terms, ProductCat) && CategoriesResolved(product, cats)
    {
      DeleteVariations(e);
      store.SetKind(e, MapperRules.RetypeKind(store.products[e - 1].kind, product));
      q, cats := SetBaseData(store.products[e - 1], product, imageIds);
    }

    /** create_or_update_wc_product for an existing live product e. */
    method UpdateExisting(product: Val, imageIds: seq<int>, e: int)
      returns (r: Result<int>, ghost cats: seq<int>, ghost attrs: seq<WcStore.Attribute>, ghost slugMap: map<(string, string), string>)
      requires Valid() && MapperRules.ChainsEnd(categories) && 0 < e <= |store.products|
      modifies this, store
      ensures Grew() && TermsOf(cats, store.terms, ProductCat) && CategoriesResolved(product, cats)
      ensures ProductRules.Outcome(store.products, r)
                == ProductRules.UpdatedOutcome(store.refusedSaves, old(store.products), wp, viaDb, product, e, cats, imageIds, attrs, slugMap)
      ensures MapperRules.KindFor(product) == WcStore.Variable ==>
        AttributesBuilt(product, MapperRules.ListField(product, "combinations") != [], attrs, slugMap)
    {
      var q, c := Retype(product, imageIds, e);
      cats := c;
      ghost var ts := store.terms;
      ghost var ts0 := ts;
      attrs, slugMap := SaveUpdate(e, q, product);
      CacheInGrows(categoryCache, ts, store.terms);
      CatsResolvedGrows(categories, product, cats, old(categoryCache), old(categoryCache), old(store.taxonomies), old(store.taxonomies),
                        store.refusedTerms, categoryCache, categoryCache, ts, store.terms);
      ghost var ts1 := store.terms;
      store.SetMeta(e, ProductRules.PrestashopIdKey, ToStr(Field(product, "id")));
      ts := store.terms;
      ApplyBrand(e, product);
      TermsOfGrows(cats, ts, store.terms, ProductCat);
      CatsResolvedGrows(categories, product, cats, old(categoryCache), old(categoryCache), old(store.taxonomies), old(store.taxonomies),
                        store.refusedTerms, categoryCache, categoryCache, ts, store.terms);
      if MapperRules.KindFor(product) == WcStore.Variable {
        BuiltFromGrows(wp, attrs, slugMap, AttributePairs(wp, viaDb, product, MapperRules.ListField(product, "combinations") != []),
                       ts0, old(store.terms), ts1, store.terms, store.taxonomies, store.refusedTerms);
      }
      r := Ok(e);
    }

    /** create_or_update_wc_product */
    method CreateOrUpdate(product: Val, imageIds: seq<int>, existing: int)
      returns (r: Result<int>, ghost cats: seq<int>, ghost attrs: seq<WcStore.Attribute>, ghost slugMap: map<(string, string), string>)
      requires Valid() && MapperRules.ChainsEnd(categories)
      modifies this, store
      ensures Grew()
      ensures ProductRules.Outcome(store.products, r)
              == ProductRules.UpsertOutcome(store.refusedSaves, old(store.products), store.wooActive, wp, viaDb,
                                            product, existing, cats, imageIds, attrs, slugMap)
      ensures store.wooActive && (existing <= 0 || (existing <= |old(store.products)| && !old(store.products)[existing - 1].deleted)) ==>
        && TermsOf(cats, store.terms, ProductCat) && CategoriesResolved(product, cats)
        && (MapperRules.KindFor(product) == WcStore.Variable ==>
              AttributesBuilt(product, MapperRules.ListField(product, "combinations") != [], attrs, slugMap))
    {
      cats, attrs, slugMap := [], [], map[];
      if !store.wooActive {
        return Err(ProductRules.WooMissing), cats, attrs, slugMap;
      }
      if existing <= 0 {
        r, cats, attrs, slugMap := CreateProduct(product, imageIds);
        return;
      }
      if !(existing <= |store.products| && !store.products[existing - 1].deleted) {
        return Err(ProductRules.NotFound), cats, attrs, slugMap;
      }
      r, cats, attrs, slugMap := UpdateExisting(product, imageIds, existing);
    }
  }
}
