/** The rules of variable products: the (taxonomy, value) pairs of
    combinations and legacy variations, their first-seen grouping, the
    variation each combination or legacy variation becomes, and the
    variation-creation loop as a fold over the saved products. */
module VariationRules {
  import opened Common
  import opened Php
  import Text
  import Http
  import WcStore
  import MapperRules

  // ---------------------------------------------------------------- pairs

  /** The entries of `attributes` when it is a non-empty array, else none. */
  function AttributesOf(c: Val): seq<(Key, Val)> {
    var a := Field(c, "attributes");
    if !Empty(a) && a.Arr? then a.entries else []
  }

  /** `isset($a[name]) ? trim((string) $a[name]) : ''` */
  function TrimmedField(a: Val, name: string): string {
    if FieldSet(a, name) then Text.Trim(ToStr(Field(a, name))) else ""
  }

  /** The (taxonomy, value) pair of one attribute entry, or none when its
      trimmed group or value is empty. */
  function ComboPair(wp: Http.Wp, viaDb: bool, a: Val): (r: Option<(string, string)>)
    ensures r.Some? ==> r.value.1 != "" && |r.value.0| > 3 && r.value.0[..3] == "pa_"
    ensures r.None? <==> TrimmedField(a, "group_name") == "" || TrimmedField(a, "value_name") == ""
  {
    var g := TrimmedField(a, "group_name");
    var v := TrimmedField(a, "value_name");
    if g == "" || v == "" then None else Some((MapperRules.AttrSlug(wp, viaDb, g), v))
  }

  /** The (taxonomy, value) pairs of one combination's attributes, in
      order; an entry with an empty trimmed group or value is ignored. */
  function ComboPairs(wp: Http.Wp, viaDb: bool, attrs: seq<(Key, Val)>): (r: seq<(string, string)>)
    ensures |r| <= |attrs|
    ensures forall i :: 0 <= i < |r| ==> r[i].1 != "" && |r[i].0| > 3 && r[i].0[..3] == "pa_"
  {
    if attrs == [] then []
    else
      var rest := ComboPairs(wp, viaDb, attrs[..|attrs| - 1]);
      match ComboPair(wp, viaDb, attrs[|attrs| - 1].1)
      case None => rest
      case Some(x) => rest + [x]
  }

  /** The pairs of all combinations, combination by combination. */
  function AllComboPairs(wp: Http.Wp, viaDb: bool, combos: seq<Val>): seq<(string, string)> {
    if combos == [] then []
    else AllComboPairs(wp, viaDb, combos[..|combos| - 1]) + ComboPairs(wp, viaDb, AttributesOf(combos[|combos| - 1]))
  }

  /** A key as the string PHP gives it. */
  function KeyString(k: Key): string {
    match k
    case IntKey(i) => Text.IntToString(i)
    case StrKey(s) => s
  }

  /** The (slug, value) pairs of a legacy variation's attributes map. */
  function LegacyPairs(attrs: seq<(Key, Val)>): (r: seq<(string, string)>)
    ensures |r| == |attrs|
    ensures forall i :: 0 <= i < |r| ==> r[i] == (KeyString(attrs[i].0), ToStr(attrs[i].1))
  {
    seq(|attrs|, i requires 0 <= i < |attrs| => (KeyString(attrs[i].0), ToStr(attrs[i].1)))
  }

  /** The pairs of all legacy variations, variation by variation. */
  function AllLegacyPairs(vs: seq<Val>): seq<(string, string)> {
    if vs == [] then [] else AllLegacyPairs(vs[..|vs| - 1]) + LegacyPairs(AttributesOf(vs[|vs| - 1]))
  }

  // ------------------------------------------------------------- grouping

  function Firsts(ps: seq<(string, string)>): (r: seq<string>)
    ensures |r| == |ps| && forall i :: 0 <= i < |ps| ==> r[i] == ps[i].0
  {
    if ps == [] then [] else Firsts(ps[..|ps| - 1]) + [ps[|ps| - 1].0]
  }

  /** The values paired with t, in order. */
  function ValuesFor(ps: seq<(string, string)>, t: string): (r: seq<string>)
    ensures forall v :: v in r <==> (t, v) in ps
  {
    if ps == [] then []
    else
      var rest := ValuesFor(ps[..|ps| - 1], t);
      assert forall x :: x in ps <==> x in ps[..|ps| - 1] || x == ps[|ps| - 1];
      if ps[|ps| - 1].0 == t then rest + [ps[|ps| - 1].1] else rest
  }

  lemma FirstsSnoc(ps: seq<(string, string)>, p: (string, string))
    ensures Firsts(ps + [p]) == Firsts(ps) + [p.0]
  {
    assert (ps + [p])[..|ps|] == ps;
  }

  lemma ValuesForSnoc(ps: seq<(string, string)>, p: (string, string), t: string)
    ensures ValuesFor(ps + [p], t) == if p.0 == t then ValuesFor(ps, t) + [p.1] else ValuesFor(ps, t)
  {
    assert (ps + [p])[..|ps|] == ps;
  }

  lemma NewTaxonomyHasNoValues(pre: seq<(string, string)>, t: string)
    requires t !in Distinct(Firsts(pre))
    ensures ValuesFor(pre, t) == []
  {
    DistinctHas(Firsts(pre), t);
  }

  /** order lists the taxonomies of ps in first-seen order, and values
      maps each of them to its values in first-seen order. */
  ghost predicate Grouped(ps: seq<(string, string)>, order: seq<string>, values: map<string, seq<string>>)
  {
    && order == Distinct(Firsts(ps))
    && (forall t :: t in values <==> t in order)
    && (forall t :: t in values ==> values[t] == Distinct(ValuesFor(ps, t)))
  }

  /** One pair in the grouping loop: its taxonomy is appended when new, its
      value is appended to that taxonomy's list when new. */
  lemma GroupAdvance(pre: seq<(string, string)>, p: (string, string),
                     order: seq<string>, values: map<string, seq<string>>,
                     order': seq<string>, values': map<string, seq<string>>)
    requires Grouped(pre, order, values)
    requires order' == if p.0 in values then order else order + [p.0]
    requires p.0 in values'
    requires forall t :: t != p.0 ==> (t in values' <==> t in values) && (t in values' ==> values'[t] == values[t])
    requires var known := if p.0 in values then values[p.0] else [];
      values'[p.0] == if p.1 in known then known else known + [p.1]
    ensures Grouped(pre + [p], order', values')
  {
    assert p.0 in values <==> p.0 in order;
    GroupOrderAdvance(pre, p);
    assert order' == Distinct(Firsts(pre + [p]));
    forall t ensures t in values' <==> t in order' {
      if t != p.0 {
        assert t in order' <==> t in order;
      }
    }
    GroupValuesAdvance(pre, p, values, values');
  }

  /** GroupAdvance for the pair at i of ps. */
  lemma GroupNext(ps: seq<(string, string)>, i: nat,
                  order: seq<string>, values: map<string, seq<string>>,
                  order': seq<string>, values': map<string, seq<string>>)
    requires i < |ps| && Grouped(ps[..i], order, values)
    requires order' == if ps[i].0 in values then order else order + [ps[i].0]
    requires ps[i].0 in values'
    requires forall t :: t != ps[i].0 ==> (t in values' <==> t in values) && (t in values' ==> values'[t] == values[t])
    requires var known := if ps[i].0 in values then values[ps[i].0] else [];
      values'[ps[i].0] == if ps[i].1 in known then known else known + [ps[i].1]
    ensures Grouped(ps[..i + 1], order', values')
  {
    assert ps[..i + 1] == ps[..i] + [ps[i]];
    GroupAdvance(ps[..i], ps[i], order, values, order', values');
  }

  lemma GroupOrderAdvance(pre: seq<(string, string)>, p: (string, string))
    ensures var order := Distinct(Firsts(pre));
      Distinct(Firsts(pre + [p])) == if p.0 in order then order else order + [p.0]
  {
    FirstsSnoc(pre, p);
    DistinctSnoc(Firsts(pre), p.0);
    DistinctHas(Firsts(pre), p.0);
  }

  lemma GroupValuesAdvance(pre: seq<(string, string)>, p: (string, string),
                           values: map<string, seq<string>>, values': map<string, seq<string>>)
    requires forall t :: t in values ==> values[t] == Distinct(ValuesFor(pre, t))
    requires p.0 !in values ==> p.0 !in Distinct(Firsts(pre))
    requires p.0 in values'
    requires forall t :: t != p.0 ==> (t in values' <==> t in values) && (t in values' ==> values'[t] == values[t])
    requires var known := if p.0 in values then values[p.0] else [];
      values'[p.0] == if p.1 in known then known else known + [p.1]
    ensures forall t :: t in values' ==> values'[t] == Distinct(ValuesFor(pre + [p], t))
  {
    forall t | t in values' ensures values'[t] == Distinct(ValuesFor(pre + [p], t)) {
      ValuesForSnoc(pre, p, t);
      if t == p.0 {
        DistinctSnoc(ValuesFor(pre, t), p.1);
        DistinctHas(ValuesFor(pre, t), p.1);
        if t !in values {
          NewTaxonomyHasNoValues(pre, t);
          assert Distinct<string>([]) == [];
        }
      }
    }
  }

  /** The first loop of build_attributes_from_combinations (and of the
      legacy variable product): the taxonomies in first-seen order, and
      for each the values in first-seen order, each once. */
  method GroupFirstSeen(pairs: seq<(string, string)>) returns (order: seq<string>, values: map<string, seq<string>>)
    ensures Grouped(pairs, order, values)
  {
    order := [];
    values := map[];
    var i := 0;
    while i < |pairs|
      invariant 0 <= i <= |pairs|
      invariant Grouped(pairs[..i], order, values)
    {
      var p := pairs[i];
      ghost var order0, values0 := order, values;
      order, values := AddPair(order, values, p);
      GroupNext(pairs, i, order0, values0, order, values);
      i := i + 1;
    }
    assert pairs[..|pairs|] == pairs;
  }

  /** One pass of the grouping loop: the taxonomy of p is appended when
      new, and its value to that taxonomy's list when new. */
  method AddPair(order: seq<string>, values: map<string, seq<string>>, p: (string, string))
    returns (order': seq<string>, values': map<string, seq<string>>)
    ensures order' == if p.0 in values then order else order + [p.0]
    ensures p.0 in values'
    ensures forall t :: t != p.0 ==> (t in values' <==> t in values) && (t in values' ==> values'[t] == values[t])
    ensures var known := if p.0 in values then values[p.0] else [];
      values'[p.0] == if p.1 in known then known else known + [p.1]
  {
    order', values' := order, values;
    if p.0 !in values' {
      order' := order' + [p.0];
      values' := values'[p.0 := []];
    }
    var known := values'[p.0];
    if p.1 !in known {
      values' := values'[p.0 := known + [p.1]];
    }
  }

  /** Grouping keeps every taxonomy once and each of its values once; a
      taxonomy is listed exactly when some pair has it, and then it has at
      least one value. */
  lemma GroupShape(pairs: seq<(string, string)>, t: string, v: string)
    ensures t in Distinct(Firsts(pairs)) <==> exists w :: (t, w) in pairs
    ensures v in Distinct(ValuesFor(pairs, t)) <==> (t, v) in pairs
    ensures t in Distinct(Firsts(pairs)) ==> Distinct(ValuesFor(pairs, t)) != []
  {
    DistinctSpec(Firsts(pairs));
    DistinctSpec(ValuesFor(pairs, t));
    if t in Distinct(Firsts(pairs)) {
      var i :| 0 <= i < |pairs| && Firsts(pairs)[i] == t;
      assert (t, pairs[i].1) in pairs;
      assert pairs[i].1 in Distinct(ValuesFor(pairs, t));
    }
    if exists w :: (t, w) in pairs {
      var w :| (t, w) in pairs;
      var i :| 0 <= i < |pairs| && pairs[i] == (t, w);
      assert Firsts(pairs)[i] == t;
    }
  }

  // ---------------------------------------------------- variation building

  /** The variation attribute map: "attribute_" + taxonomy => term slug, as
      PHP array assignment builds it. */
  function VarAttrs(pairs: seq<(string, string)>, slugOf: (string, string) -> string): (r: seq<(string, string)>)
    ensures r == [] <==> pairs == []
  {
    if pairs == [] then []
    else
      var p := pairs[|pairs| - 1];
      Http.SetParam(VarAttrs(pairs[..|pairs| - 1], slugOf), "attribute_" + p.0, slugOf(p.0, p.1))
  }

  /** The data a variation is made from, besides the combination. */
  datatype Context = Context(
    wp: Http.Wp, viaDb: bool, parent: int, basePrice: real,
    slugMap: map<(string, string), string>)

  /** The term slug of (taxonomy, value): the one the attribute build
      recorded, else normalize_term_slug. */
  function ComboSlug(ctx: Context, t: string, v: string): string {
    if (t, v) in ctx.slugMap then ctx.slugMap[(t, v)] else MapperRules.TermSlug(ctx.wp, ctx.viaDb, v)
  }

  function ComboSku(c: Val): string {
    TrimmedField(c, "sku")
  }

  function ComboQty(c: Val): int {
    if FieldSet(c, "quantity") then ToInt(Field(c, "quantity")) else 0
  }

  function PriceImpact(c: Val): real {
    if FieldSet(c, "price_impact") then ToReal(Field(c, "price_impact")) else 0.0
  }

  function IdProductAttribute(c: Val): int {
    if FieldSet(c, "id_product_attribute") then ToInt(Field(c, "id_product_attribute")) else 0
  }

  /** The meta key that records a variation's id_product_attribute. */
  const VariationIdKey: string := "_presa_id_product_attribute"

  /** The variation a combination becomes before it is saved. */
  function CombinationVariation(ctx: Context, c: Val): (r: WcStore.Product)
    ensures r.kind == WcStore.Variation && r.parent == ctx.parent && !r.deleted && r.meta == []
    ensures r.regularPrice == Some(ctx.basePrice + PriceImpact(c))
    ensures r.manageStock && r.stockQuantity == ComboQty(c) && (r.stockStatus == "instock" <==> ComboQty(c) > 0)
    ensures r.sku == ComboSku(c)
    ensures r.variationAttributes == [] <==> ComboPairs(ctx.wp, ctx.viaDb, AttributesOf(c)) == []
  {
    var qty := ComboQty(c);
    var image := Field(c, "variation_image_attachment_id");
    WcStore.NewProduct(WcStore.Variation).(
      parent := ctx.parent,
      variationAttributes := VarAttrs(ComboPairs(ctx.wp, ctx.viaDb, AttributesOf(c)), (t, v) => ComboSlug(ctx, t, v)),
      sku := ComboSku(c),
      regularPrice := Some(ctx.basePrice + PriceImpact(c)),
      manageStock := true,
      stockQuantity := qty,
      stockStatus := MapperRules.StockStatusOf(qty),
      imageId := if !Empty(image) then ToInt(image) else 0)
  }

  /** The variation a legacy variation becomes: price only when isset,
      SKU the raw reference when non-empty, term slugs from the map or
      sanitize_title. */
  function LegacyVariation(wp: Http.Wp, parent: int, slugMap: map<(string, string), string>, v: Val): (r: WcStore.Product)
    ensures r.kind == WcStore.Variation && r.parent == parent && !r.deleted
    ensures FieldSet(v, "price") <==> r.regularPrice.Some?
    ensures r.manageStock && (r.stockStatus == "instock" <==> r.stockQuantity > 0)
  {
    var qty := if FieldSet(v, "quantity") then ToInt(Field(v, "quantity")) else 0;
    WcStore.NewProduct(WcStore.Variation).(
      parent := parent,
      variationAttributes := VarAttrs(LegacyPairs(AttributesOf(v)),
                                      (t, x) => if (t, x) in slugMap then slugMap[(t, x)] else wp.sanitizeTitle(x)),
      regularPrice := if FieldSet(v, "price") then Some(ToReal(Field(v, "price"))) else None,
      manageStock := true,
      stockQuantity := qty,
      stockStatus := MapperRules.StockStatusOf(qty),
      sku := if !Empty(Field(v, "reference")) then ToStr(Field(v, "reference")) else "")
  }

  // ------------------------------------------------------------- counters

  /** No usable attributes: empty, not an array, or every entry falsy. */
  predicate MissesAttributes(c: Val) {
    var a := Field(c, "attributes");
    Empty(a) || !a.Arr? || forall i :: 0 <= i < |a.entries| ==> Empty(a.entries[i].1)
  }

  predicate MissesStock(c: Val) {
    ComboQty(c) <= 0
  }

  predicate MissesImage(c: Val) {
    Empty(Field(c, "variation_image_attachment_id")) && Empty(Field(c, "image_id"))
  }

  /** The three things create_variations_from_combinations counts as
      missing. */
  datatype Miss = NoAttributes | NoStock | NoImage

  /** What the combination misses. */
  function MissesOf(c: Val): (r: set<Miss>)
    ensures NoAttributes in r <==> MissesAttributes(c)
    ensures NoStock in r <==> MissesStock(c)
    ensures NoImage in r <==> MissesImage(c)
  {
    (if MissesAttributes(c) then {NoAttributes} else {})
    + (if MissesStock(c) then {NoStock} else {})
    + (if MissesImage(c) then {NoImage} else {})
  }

  /** How many of cs miss k. */
  function CountMissing(cs: seq<Val>, k: Miss): (n: nat)
    ensures n <= |cs|
  {
    if cs == [] then 0 else CountMissing(cs[..|cs| - 1], k) + (if k in MissesOf(cs[|cs| - 1]) then 1 else 0)
  }

  // ----------------------------------------------------------------- fold

  /** The state of create_variations_from_combinations after some
      combinations: the saved products, created_count and
      first_default_attrs. */
  datatype Run = Run(products: seq<WcStore.Product>, created: nat, firstDefault: seq<(string, string)>)

  /** A combination as the loop handles it: its variation, the
      id_product_attribute the variation's meta records, and what the
      combination misses. */
  datatype Candidate = Candidate(variation: WcStore.Product, idAttr: int, misses: set<Miss>)

  function CandidateOf(ctx: Context, c: Val): Candidate {
    Candidate(CombinationVariation(ctx, c), IdProductAttribute(c), MissesOf(c))
  }

  /** The candidates of the combinations, in order. */
  function Candidates(ctx: Context, cs: seq<Val>): (xs: seq<Candidate>)
    ensures |xs| == |cs|
    ensures forall i :: 0 <= i < |cs| ==> xs[i] == CandidateOf(ctx, cs[i])
  {
    seq(|cs|, i requires 0 <= i < |cs| => CandidateOf(ctx, cs[i]))
  }

  /** How many of the first n candidates miss k. */
  function Tally(xs: seq<Candidate>, k: Miss, n: nat): (t: nat)
    requires n <= |xs|
    ensures t <= n
  {
    if n == 0 then 0 else Tally(xs, k, n - 1) + (if k in xs[n - 1].misses then 1 else 0)
  }

  /** The tally over candidates that miss what their combinations miss is
      the count over the combinations. */
  lemma {:induction false} TallyCounts(xs: seq<Candidate>, cs: seq<Val>, k: Miss, n: nat)
    requires |xs| == |cs| && n <= |cs|
    requires forall i :: 0 <= i < |xs| ==> xs[i].misses == MissesOf(cs[i])
    ensures Tally(xs, k, n) == CountMissing(cs[..n], k)
  {
    if n > 0 {
      TallyCounts(xs, cs, k, n - 1);
      CountMissingTake(cs, n - 1, k);
    }
  }

  /** The variations of the parent, live: what every candidate is. */
  ghost predicate LiveOf(parent: int, xs: seq<Candidate>) {
    forall i :: 0 <= i < |xs| ==>
      xs[i].variation.kind == WcStore.Variation && xs[i].variation.parent == parent && !xs[i].variation.deleted
  }

  lemma CandidatesLive(ctx: Context, cs: seq<Val>)
    ensures LiveOf(ctx.parent, Candidates(ctx, cs))
  {
    var xs := Candidates(ctx, cs);
    forall i | 0 <= i < |xs| ensures xs[i].variation == CombinationVariation(ctx, cs[i]) {
    }
  }

  /** A candidate's variation as saved, with its meta. */
  function Saved(x: Candidate): (r: WcStore.Product)
    ensures r.sku == x.variation.sku && r.deleted == x.variation.deleted
    ensures r.kind == x.variation.kind && r.parent == x.variation.parent
    ensures r.variationAttributes == x.variation.variationAttributes
  {
    x.variation.(meta := Http.SetParam(x.variation.meta, VariationIdKey, Text.IntToString(x.idAttr)))
  }

  /** The loop state after one more combination: unchanged when its SKU
      was taken or the save was refused, otherwise v appended and counted,
      with v's attributes as the defaults when none were chosen yet and
      they are non-empty. */
  function Append(st: Run, taken: bool, refused: bool, v: WcStore.Product): (r: Run)
    ensures taken || refused ==> r == st
    ensures !taken && !refused ==> r.products == st.products + [v] && r.created == st.created + 1
  {
    if taken || refused then st
    else
      Run(st.products + [v], st.created + 1,
          if st.firstDefault == [] && v.variationAttributes != [] then v.variationAttributes else st.firstDefault)
  }

  /** One combination: skipped when its non-empty SKU is taken, skipped
      when the store refuses the variation, otherwise saved with its
      _presa_id_product_attribute meta. */
  function Step(refused: iset<WcStore.Product>, st: Run, x: Candidate): Run {
    var sku := x.variation.sku;
    Append(st, sku != "" && WcStore.SkuOwnerIn(st.products, sku).Some?, x.variation in refused, Saved(x))
  }

  /** The loop after its first n candidates, from the products there were. */
  function Fold(refused: iset<WcStore.Product>, ps: seq<WcStore.Product>, xs: seq<Candidate>, n: nat): Run
    requires n <= |xs|
  {
    if n == 0 then Run(ps, 0, []) else Step(refused, Fold(refused, ps, xs, n - 1), xs[n - 1])
  }

  /** One more combination counted. */
  lemma CountMissingTake(cs: seq<Val>, i: nat, k: Miss)
    requires i < |cs|
    ensures CountMissing(cs[..i + 1], k) == CountMissing(cs[..i], k) + (if k in MissesOf(cs[i]) then 1 else 0)
  {
    assert cs[..i + 1][..i] == cs[..i];
  }

  /** The attributes of the first product whose attributes are non-empty. */
  function FirstAttrs(ps: seq<WcStore.Product>): seq<(string, string)> {
    if ps == [] then []
    else
      var f := FirstAttrs(ps[..|ps| - 1]);
      if f != [] then f else ps[|ps| - 1].variationAttributes
  }

  /** FirstAttrs is empty exactly when every product's attributes are
      empty, and otherwise the attributes of the first product that has
      any. */
  lemma {:induction false} FirstAttrsFirst(ps: seq<WcStore.Product>)
    ensures FirstAttrs(ps) == [] ==> forall k :: 0 <= k < |ps| ==> ps[k].variationAttributes == []
    ensures FirstAttrs(ps) != [] ==>
      exists k :: 0 <= k < |ps| && ps[k].variationAttributes == FirstAttrs(ps)
                  && forall j :: 0 <= j < k ==> ps[j].variationAttributes == []
  {
    if ps != [] {
      var init := ps[..|ps| - 1];
      FirstAttrsFirst(init);
      if FirstAttrs(init) != [] {
        var k :| 0 <= k < |init| && init[k].variationAttributes == FirstAttrs(init)
                 && forall j :: 0 <= j < k ==> init[j].variationAttributes == [];
        assert ps[k] == init[k];
      } else {
        assert forall k :: 0 <= k < |init| ==> ps[k] == init[k];
      }
    }
  }

  /** No two live products share a non-empty SKU. */
  predicate UniqueSkus(ps: seq<WcStore.Product>) {
    forall i, j :: 0 <= i < j < |ps| && ps[i].sku != "" && !ps[i].deleted && !ps[j].deleted ==> ps[i].sku != ps[j].sku
  }

  lemma FirstAttrsSnoc(ps: seq<WcStore.Product>, v: WcStore.Product)
    ensures FirstAttrs(ps + [v]) == if FirstAttrs(ps) != [] then FirstAttrs(ps) else v.variationAttributes
  {
    assert (ps + [v])[..|ps|] == ps;
  }

  /** What the loop has done after n combinations, starting from ps: it
      only appended, one live variation of the parent per created
      combination, at most n of them, and the defaults are the attributes
      of the first created variation that has any. */
  ghost predicate Appended(parent: int, ps: seq<WcStore.Product>, n: nat, r: Run) {
    && |r.products| == |ps| + r.created && r.created <= n && r.products[..|ps|] == ps
    && (forall k :: |ps| <= k < |r.products| ==>
          r.products[k].kind == WcStore.Variation && r.products[k].parent == parent && !r.products[k].deleted)
    && r.firstDefault == FirstAttrs(r.products[|ps|..])
  }

  lemma AppendKeeps(parent: int, ps: seq<WcStore.Product>, n: nat, st: Run, taken: bool, refused: bool, v: WcStore.Product)
    requires Appended(parent, ps, n, st)
    requires v.kind == WcStore.Variation && v.parent == parent && !v.deleted
    ensures Appended(parent, ps, n + 1, Append(st, taken, refused, v))
  {
    if !taken && !refused {
      var added := st.products[|ps|..];
      assert (st.products + [v])[|ps|..] == added + [v];
      assert (st.products + [v])[..|ps|] == st.products[..|ps|];
      FirstAttrsSnoc(added, v);
    }
  }

  /** The loop only appends: one live variation of the parent per created
      combination, never more than there are combinations, and the
      defaults are the attributes of the first created variation that has
      any. */
  lemma {:induction false} FoldShape(refused: iset<WcStore.Product>, parent: int, ps: seq<WcStore.Product>, xs: seq<Candidate>, n: nat)
    requires n <= |xs| && LiveOf(parent, xs)
    ensures Appended(parent, ps, n, Fold(refused, ps, xs, n))
  {
    if n == 0 {
      assert ps[..|ps|] == ps;
    } else {
      FoldShape(refused, parent, ps, xs, n - 1);
      var st := Fold(refused, ps, xs, n - 1);
      var x := xs[n - 1];
      AppendKeeps(parent, ps, n - 1, st, x.variation.sku != "" && WcStore.SkuOwnerIn(st.products, x.variation.sku).Some?,
                  x.variation in refused, Saved(x));
    }
  }

  /** Every product after the first |ps| has an empty SKU or one no live
      product of ps has. */
  ghost predicate FreshSkus(ps: seq<WcStore.Product>, qs: seq<WcStore.Product>) {
    forall k :: |ps| <= k < |qs| && qs[k].sku != "" ==> WcStore.SkuOwnerIn(ps, qs[k].sku).None?
  }

  lemma AppendSkus(ps: seq<WcStore.Product>, st: Run, taken: bool, refused: bool, v: WcStore.Product)
    requires UniqueSkus(st.products) && FreshSkus(ps, st.products) && ps <= st.products && !v.deleted
    requires taken == (v.sku != "" && WcStore.SkuOwnerIn(st.products, v.sku).Some?)
    ensures UniqueSkus(Append(st, taken, refused, v).products)
    ensures FreshSkus(ps, Append(st, taken, refused, v).products)
    ensures ps <= Append(st, taken, refused, v).products
  {
    if !taken && !refused {
      SkuAppendKeepsUnique(st.products, v, ps);
      var qs := st.products + [v];
      forall k | |ps| <= k < |qs| && qs[k].sku != "" ensures WcStore.SkuOwnerIn(ps, qs[k].sku).None? {
        if k < |st.products| {
          assert qs[k] == st.products[k];
        }
      }
    }
  }

  /** AppendSkus for one step of the loop. */
  lemma StepSkus(refused: iset<WcStore.Product>, ps: seq<WcStore.Product>, st: Run, x: Candidate)
    requires UniqueSkus(st.products) && FreshSkus(ps, st.products) && ps <= st.products && !x.variation.deleted
    ensures UniqueSkus(Step(refused, st, x).products)
    ensures FreshSkus(ps, Step(refused, st, x).products)
    ensures ps <= Step(refused, st, x).products
  {
    var taken := x.variation.sku != "" && WcStore.SkuOwnerIn(st.products, x.variation.sku).Some?;
    AppendSkus(ps, st, taken, x.variation in refused, Saved(x));
  }

  /** A combination whose non-empty SKU a live product already has is never
      created, so the loop keeps SKUs unique and no created variation takes
      the SKU of a product that was there before. */
  lemma {:induction false} FoldSkus(refused: iset<WcStore.Product>, parent: int, ps: seq<WcStore.Product>, xs: seq<Candidate>, n: nat)
    requires n <= |xs| && UniqueSkus(ps) && LiveOf(parent, xs)
    ensures UniqueSkus(Fold(refused, ps, xs, n).products)
    ensures FreshSkus(ps, Fold(refused, ps, xs, n).products)
    ensures ps <= Fold(refused, ps, xs, n).products
  {
    if n > 0 {
      var x := xs[n - 1];
      FoldSkus(refused, parent, ps, xs, n - 1);
      assert !x.variation.deleted;
      StepSkus(refused, ps, Fold(refused, ps, xs, n - 1), x);
    }
  }

  /** Appending a live product whose non-empty SKU no live product has
      keeps SKUs unique, and its SKU is not owned in any prefix either. */
  lemma SkuAppendKeepsUnique(qs: seq<WcStore.Product>, v: WcStore.Product, ps: seq<WcStore.Product>)
    requires UniqueSkus(qs) && !v.deleted && ps <= qs
    requires v.sku != "" ==> WcStore.SkuOwnerIn(qs, v.sku).None?
    ensures UniqueSkus(qs + [v])
    ensures v.sku != "" ==> WcStore.SkuOwnerIn(ps, v.sku).None?
  {
    var all := qs + [v];
    if v.sku != "" {
      assert forall j :: 0 <= j < |qs| ==> !(qs[j].sku == v.sku && !qs[j].deleted);
      assert forall j :: 0 <= j < |ps| ==> ps[j] == qs[j];
    }
    forall i, j | 0 <= i < j < |all| && all[i].sku != "" && !all[i].deleted && !all[j].deleted
      ensures all[i].sku != all[j].sku
    {
      if j == |qs| {
        assert all[i] == qs[i];
      } else {
        assert all[i] == qs[i] && all[j] == qs[j];
      }
    }
  }

  /** Saving the legacy variations in turn: the ones the store accepts. */
  function Kept(refused: iset<WcStore.Product>, vs: seq<WcStore.Product>): (r: seq<WcStore.Product>)
    ensures |r| <= |vs|
    ensures forall x :: x in r <==> x in vs && x !in refused
  {
    if vs == [] then []
    else
      var rest := Kept(refused, vs[..|vs| - 1]);
      assert forall x :: x in vs <==> x in vs[..|vs| - 1] || x == vs[|vs| - 1];
      if vs[|vs| - 1] in refused then rest else rest + [vs[|vs| - 1]]
  }

  /** One more variation saved, or not. */
  lemma KeptTake(refused: iset<WcStore.Product>, vs: seq<WcStore.Product>, i: nat)
    requires i < |vs|
    ensures Kept(refused, vs[..i + 1]) == Kept(refused, vs[..i]) + (if vs[i] in refused then [] else [vs[i]])
  {
    assert vs[..i + 1][..i] == vs[..i];
  }
}
