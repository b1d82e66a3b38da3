/** Presa_Prestashop_Client::get_product: one product by id, through the
    raw fetch and, when the product is not on the first page, a direct
    offset request and two page scans (sorted, then unsorted starting at
    the page where the id would sit if the list were ordered by id). */
module ProductLookup {
  import opened Common
  import opened Php
  import opened Http
  import Text
  import FieldNormalizer
  import opened PrestaClient

  /** product_has_data: a non-empty name or a price that is set and not "". */
  predicate HasData(p: Val) {
    p.Arr?
    && (FieldNormalizer.ExtractFirstLangValue(Coalesce(Field(p, "name"), Str(""))) != ""
        || (FieldSet(p, "price") && Field(p, "price") != Str("")))
  }

  /** A page-scan result: the product found, and the requests sent. */
  datatype Scan = Scan(found: Option<Val>, sent: seq<Url>)

  /** What one page of a scan tells: unusable (an error or no entries), a
      hit with data, a short page without a hit, or a full page without one. */
  datatype PageOutcome = Unusable | Hit(product: Val) | Short | Full

  function ClassifyPage(r: Result<Val>, idStr: string): PageOutcome {
    if r.Err? || IsProductsResponseEmpty(r.value) then Unusable
    else
      var items := ParseProductsToList(r.value);
      var hit := FindProductByIdInList(items, idStr);
      if hit.Some? && HasData(hit.value) then Hit(hit.value)
      else if |items| < PageSize then Short
      else Full
  }

  /** The offset of a page: 250 entries per page. */
  function PageOffset(page: int): int {
    page * PageSize
  }

  /** What a scan finds has the requested id and carries data. */
  predicate Acceptable(p: Val, idStr: string) {
    p.Arr? && idStr != "" && FieldNormalizer.GetProductIdScalar(p) == idStr && HasData(p)
  }

  /** A hit is a product with the requested id and with data. */
  lemma ClassifyPageSound(r: Result<Val>, idStr: string)
    ensures ClassifyPage(r, idStr).Hit? ==> Acceptable(ClassifyPage(r, idStr).product, idStr)
  {
  }

  /** A page fetcher: the outcome of the page at an offset, and the
      requests fetching it sent. */
  type Pager = int -> Fetched<PageOutcome>

  /** Every hit a pager reports is acceptable. */
  ghost predicate SoundPager(pager: Pager, idStr: string) {
    forall o :: pager(o).result.Hit? ==> Acceptable(pager(o).result.product, idStr)
  }

  /** Every page costs one or two requests. */
  ghost predicate BoundedPager(pager: Pager) {
    forall o :: 1 <= |pager(o).sent| <= 2
  }

  /** The pages of the lookup scans: fetch_products_page with the given
      sort flag and 250 entries, then classified. */
  function Pages(c: Client, idStr: string, sorted: bool): (r: Pager)
    ensures SoundPager(r, idStr) && BoundedPager(r)
  {
    var pager := (o: int) =>
      var f := FetchProductsPage(c, o, PageSize, sorted);
      Fetched(ClassifyPage(f.result, idStr), f.sent);
    assert forall o :: pager(o).result == ClassifyPage(FetchProductsPage(c, o, PageSize, sorted).result, idStr);
    forall o ensures pager(o).result.Hit? ==> Acceptable(pager(o).result.product, idStr) {
      ClassifyPageSound(FetchProductsPage(c, o, PageSize, sorted).result, idStr);
    }
    pager
  }

  /** The pages of the sorted scan: 0, 250, ..., 9750. */
  function SortedOffsets(): (r: seq<int>)
    ensures |r| == MaxPages
    ensures forall k :: 0 <= k < MaxPages ==> r[k] == PageOffset(k)
  {
    seq(MaxPages, k => PageOffset(k))
  }

  /** The page scan over the offsets in order: a hit or a short page ends
      it, a full page goes on; an unusable page ends the sorted scan
      (`stopOnUnusable`) and is passed over by the unsorted one. */
  function ScanFrom(pager: Pager, offsets: seq<int>, stopOnUnusable: bool): Scan
    decreases |offsets|
  {
    if offsets == [] then Scan(None, [])
    else
      var f := pager(offsets[0]);
      if f.result.Hit? then Scan(Some(f.result.product), f.sent)
      else if f.result.Short? || (f.result.Unusable? && stopOnUnusable) then Scan(None, f.sent)
      else
        var rest := ScanFrom(pager, offsets[1..], stopOnUnusable);
        Scan(rest.found, f.sent + rest.sent)
  }

  /** A scan with a sound pager finds only acceptable products. */
  lemma {:induction false} ScanSound(pager: Pager, idStr: string, offsets: seq<int>, stopOnUnusable: bool)
    requires SoundPager(pager, idStr)
    ensures ScanFrom(pager, offsets, stopOnUnusable).found.Some? ==> Acceptable(ScanFrom(pager, offsets, stopOnUnusable).found.value, idStr)
    decreases |offsets|
  {
    if offsets != [] {
      var o := offsets[0];
      assert pager(o).result.Hit? ==> Acceptable(pager(o).result.product, idStr);
      ScanSound(pager, idStr, offsets[1..], stopOnUnusable);
    }
  }

  /** A scan sends at least one request, and at most two per offset. */
  lemma {:induction false} ScanBound(pager: Pager, offsets: seq<int>, stopOnUnusable: bool)
    requires BoundedPager(pager)
    ensures offsets != [] ==> 1 <= |ScanFrom(pager, offsets, stopOnUnusable).sent|
    ensures |ScanFrom(pager, offsets, stopOnUnusable).sent| <= 2 * |offsets|
    decreases |offsets|
  {
    if offsets != [] {
      var o := offsets[0];
      assert 1 <= |pager(o).sent| <= 2;
      ScanBound(pager, offsets[1..], stopOnUnusable);
    }
  }

  /** A scan that is not stopped by the first page sends that page's
      requests and then the rest of the scan's. */
  lemma ScanGoesOn(pager: Pager, offsets: seq<int>, stopOnUnusable: bool)
    requires offsets != []
    requires var o := pager(offsets[0]).result; o.Full? || (o.Unusable? && !stopOnUnusable)
    ensures ScanFrom(pager, offsets, stopOnUnusable).found == ScanFrom(pager, offsets[1..], stopOnUnusable).found
    ensures ScanFrom(pager, offsets, stopOnUnusable).sent == pager(offsets[0]).sent + ScanFrom(pager, offsets[1..], stopOnUnusable).sent
  {
  }

  /** The page loop of both scans: one page per offset, in order, until a
      page ends the scan. */
  method ScanPages(pager: Pager, offsets: seq<int>, stopOnUnusable: bool) returns (found: Option<Val>, sent: seq<Url>)
    ensures Scan(found, sent) == ScanFrom(pager, offsets, stopOnUnusable)
  {
    var k := 0;
    sent := [];
    while k < |offsets|
      invariant 0 <= k <= |offsets|
      invariant ScanFrom(pager, offsets, stopOnUnusable).found == ScanFrom(pager, offsets[k..], stopOnUnusable).found
      invariant ScanFrom(pager, offsets, stopOnUnusable).sent == sent + ScanFrom(pager, offsets[k..], stopOnUnusable).sent
    {
      var f := pager(offsets[k]);
      if f.result.Hit? {
        return Some(f.result.product), sent + f.sent;
      }
      if f.result.Short? || (f.result.Unusable? && stopOnUnusable) {
        return None, sent + f.sent;
      }
      ScanGoesOn(pager, offsets[k..], stopOnUnusable);
      assert offsets[k..][1..] == offsets[k + 1..];
      ghost var rest := ScanFrom(pager, offsets[k + 1..], stopOnUnusable);
      assert sent + (f.sent + rest.sent) == (sent + f.sent) + rest.sent;
      sent := sent + f.sent;
      k := k + 1;
    }
    found := None;
    assert sent + [] == sent;
  }

  /** The page an id would sit on if the list were ordered by id. */
  function LikelyOffset(id: int): int
    requires id > 0
  {
    ((id - 1) / PageSize) * PageSize
  }

  /** The page offsets from page on appended to offs, each one only when
      offs does not hold it yet. */
  function AddPages(offs: seq<int>, page: nat): seq<int>
    decreases MaxPages - page
  {
    if page >= MaxPages then offs
    else AddPages(if PageOffset(page) in offs then offs else offs + [PageOffset(page)], page + 1)
  }

  /** The offsets of the unsorted scan: the likely page first (for a
      positive id), then the pages 0, 250, ..., 9750 without repeats. */
  function UnsortedOffsets(id: int): seq<int> {
    AddPages(if id > 0 then [LikelyOffset(id)] else [], 0)
  }

  /** What the offsets hold once the pages before page are appended: the
      likely page first, no repeats, every page offset below
      PageOffset(page), nothing else, and one more offset than pages when
      the likely page lies at or beyond PageOffset(page). */
  ghost predicate PagesUpTo(offs: seq<int>, id: int, page: nat) {
    && (id > 0 ==> |offs| > 0 && offs[0] == LikelyOffset(id))
    && (forall i, j :: 0 <= i < j < |offs| ==> offs[i] != offs[j])
    && (forall x :: 0 <= x < PageOffset(page) && x % PageSize == 0 ==> x in offs)
    && (forall i :: 0 <= i < |offs| ==>
          offs[i] % PageSize == 0
          && ((0 <= offs[i] < PageOffset(page)) || (id > 0 && offs[i] == LikelyOffset(id))))
    && |offs| == page + (if id > 0 && LikelyOffset(id) >= PageOffset(page) then 1 else 0)
  }

  /** Appending one page offset keeps PagesUpTo, one page further. */
  lemma AddPageKeeps(offs: seq<int>, id: int, page: nat)
    requires page < MaxPages && PagesUpTo(offs, id, page)
    ensures PagesUpTo(if PageOffset(page) in offs then offs else offs + [PageOffset(page)], id, page + 1)
  {
    var off := PageOffset(page);
    if off in offs {
      assert id > 0 && off == LikelyOffset(id);
    }
  }

  /** Appending the remaining pages ends with all 40 of them. */
  lemma {:induction false} AddPagesKeeps(offs: seq<int>, id: int, page: nat)
    requires page <= MaxPages && PagesUpTo(offs, id, page)
    ensures PagesUpTo(AddPages(offs, page), id, MaxPages)
    decreases MaxPages - page
  {
    if page < MaxPages {
      AddPageKeeps(offs, id, page);
      AddPagesKeeps(if PageOffset(page) in offs then offs else offs + [PageOffset(page)], id, page + 1);
    }
  }

  /** The unsorted scan's offsets: floor((id-1)/250)*250 first for a
      positive id; no offset twice; every page offset 0, ..., 9750;
      nothing else; 41 offsets when the likely one lies beyond the 40
      pages, otherwise 40. */
  lemma UnsortedOffsetsShape(id: int)
    ensures var offs := UnsortedOffsets(id);
      && (id > 0 ==> |offs| > 0 && offs[0] == LikelyOffset(id))
      && (forall i, j :: 0 <= i < j < |offs| ==> offs[i] != offs[j])
      && (forall x :: 0 <= x < MaxPages * PageSize && x % PageSize == 0 ==> x in offs)
      && (forall i :: 0 <= i < |offs| ==>
            offs[i] % PageSize == 0
            && ((0 <= offs[i] < MaxPages * PageSize) || (id > 0 && offs[i] == LikelyOffset(id))))
      && |offs| == if id > 0 && LikelyOffset(id) >= MaxPages * PageSize then MaxPages + 1 else MaxPages
  {
    AddPagesKeeps(if id > 0 then [LikelyOffset(id)] else [], id, 0);
  }

  /** The unsorted scan has at most 41 offsets. */
  lemma UnsortedOffsetsLength(id: int)
    ensures |UnsortedOffsets(id)| <= MaxPages + 1
  {
    UnsortedOffsetsShape(id);
  }

  /** The loop building the unsorted scan's offsets (likely_offsets). */
  method LikelyOffsets(id: int) returns (offs: seq<int>)
    ensures offs == UnsortedOffsets(id)
    ensures id > 0 ==> |offs| > 0 && offs[0] == LikelyOffset(id)
    ensures forall i, j :: 0 <= i < j < |offs| ==> offs[i] != offs[j]
    ensures forall x :: 0 <= x < MaxPages * PageSize && x % PageSize == 0 ==> x in offs
    ensures forall i :: 0 <= i < |offs| ==>
      offs[i] % PageSize == 0
      && ((0 <= offs[i] < MaxPages * PageSize) || (id > 0 && offs[i] == LikelyOffset(id)))
    ensures |offs| == if id > 0 && LikelyOffset(id) >= MaxPages * PageSize then MaxPages + 1 else MaxPages
  {
    offs := [];
    if id > 0 {
      offs := [LikelyOffset(id)];
    }
    var page := 0;
    while page < MaxPages
      invariant 0 <= page <= MaxPages
      invariant AddPages(offs, page) == UnsortedOffsets(id)
    {
      var off := PageOffset(page);
      if off !in offs {
        offs := offs + [off];
      }
      page := page + 1;
    }
    assert offs == UnsortedOffsets(id);
    UnsortedOffsetsShape(id);
  }

  /** The `products` and `product` wrappers under `prestashop` are lifted
      to the top level when the top level lacks them. */
  function UnwrapResponse(data: Val): Val {
    var pp := Field(Field(data, "prestashop"), "products");
    var d1 := if Empty(Field(data, "products")) && !Empty(pp) && pp.Arr? then SetField(data, "products", pp) else data;
    var p := Field(Field(d1, "prestashop"), "product");
    if Empty(Field(d1, "product")) && !Empty(p) && p.Arr? then SetField(d1, "product", p) else d1
  }

  /** The offset request for one product: sorted, limit "(id-1),1". */
  function SingleUrl(c: Client, id: int): Url {
    BuildUrl(c, "products", [("display", "full"), ("sort", "[id_ASC]"), ("limit", Text.IntToString(id - 1) + ",1")])
  }

  function SingleUnwrap(v: Val): Val {
    var pp := Field(Field(v, "prestashop"), "products");
    if v.Arr? && Empty(Field(v, "products")) && !Empty(pp) then SetField(v, "products", pp) else v
  }

  /** The first product of the offset request's answer. */
  function SingleFirst(sd: Val): Val {
    var products := Field(sd, "products");
    var list := if IsSet(products, StrKey("product")) then Field(products, "product") else products;
    if list.Arr? && FieldSet(list, "id") && !HasKey(list, IntKey(0)) then list
    else if list.Arr? && HasKey(list, IntKey(0)) then Php.Get(list, IntKey(0))
    else if list.Arr? then Reset(list)
    else Null
  }

  /** The last steps: a one-element list wrapper is unwrapped; the whole
      answer is taken when it is itself the product; the id is made a
      scalar string; a product with neither name nor price is dropped. */
  function FinishProduct(product: Val, data: Val, idStr: string): (r: Val)
    requires product.Arr?
    ensures r.Arr?
    ensures r == Arr([]) || (HasData(r) && Field(r, "id").Str?)
  {
    var p1 := if IsSet(product, IntKey(0)) && Php.Get(product, IntKey(0)).Arr? then Php.Get(product, IntKey(0)) else product;
    var p2 := if Empty(p1) && FieldSet(data, "id") && ToStr(Field(data, "id")) == idStr then data else p1;
    var p3 := if p2.Arr? && !Empty(p2) then SetField(p2, "id", Str(FieldNormalizer.GetProductIdScalar(p2))) else p2;
    if !p3.Arr? || (!Empty(p3) && !HasData(p3)) then Arr([])
    else
      GetSet(p2, StrKey("id"), Str(FieldNormalizer.GetProductIdScalar(p2)), StrKey("id"));
      p3
  }

  /** The offset request (`Zahtev 2`): the product at position id - 1 in
      id order, kept only when its id is the one asked for. */
  function OffsetLookup(c: Client, id: int, idStr: string): (r: Fetched<Val>)
    ensures r.sent == [SingleUrl(c, id)]
    ensures r.result == Arr([]) || (r.result.Arr? && FieldNormalizer.GetProductIdScalar(r.result) == idStr)
  {
    var sd := Request(c, SingleUrl(c, id));
    var first := if sd.Ok? && !IsProductsResponseEmpty(SingleUnwrap(sd.value)) then SingleFirst(SingleUnwrap(sd.value)) else Null;
    var product := if first.Arr? && FieldNormalizer.GetProductIdScalar(first) == idStr then first else Arr([]);
    Fetched(product, [SingleUrl(c, id)])
  }

  /** The two page scans: the sorted scan's hit; when it has none, the
      unsorted scan's hit from the likely page, or nothing. The sorted
      scan's requests come first, then the unsorted scan's. */
  function Scans(c: Client, id: int, idStr: string): (r: Fetched<Val>)
    ensures r.result == Arr([]) || Acceptable(r.result, idStr)
    ensures |r.sent| <= 2 * MaxPages + 2 * (MaxPages + 1)
  {
    var sorted := ScanFrom(Pages(c, idStr, true), SortedOffsets(), true);
    var unsorted := ScanFrom(Pages(c, idStr, false), UnsortedOffsets(id), false);
    ScanSound(Pages(c, idStr, true), idStr, SortedOffsets(), true);
    ScanBound(Pages(c, idStr, true), SortedOffsets(), true);
    ScanSound(Pages(c, idStr, false), idStr, UnsortedOffsets(id), false);
    ScanBound(Pages(c, idStr, false), UnsortedOffsets(id), false);
    UnsortedOffsetsLength(id);
    if sorted.found.Some? then Fetched(sorted.found.value, sorted.sent)
    else Fetched(if unsorted.found.Some? then unsorted.found.value else Arr([]), sorted.sent + unsorted.sent)
  }

  /** The sorted-scan hit, when there is one, is the answer, and only the
      sorted scan's requests are sent; otherwise the unsorted scan runs
      after it. */
  lemma ScansOrder(c: Client, id: int, idStr: string)
    ensures var sorted := ScanFrom(Pages(c, idStr, true), SortedOffsets(), true);
      var unsorted := ScanFrom(Pages(c, idStr, false), UnsortedOffsets(id), false);
      && (sorted.found.Some? ==> Scans(c, id, idStr) == Fetched(sorted.found.value, sorted.sent))
      && (sorted.found.None? && unsorted.found.Some? ==> Scans(c, id, idStr) == Fetched(unsorted.found.value, sorted.sent + unsorted.sent))
      && (sorted.found.None? && unsorted.found.None? ==> Scans(c, id, idStr) == Fetched(Arr([]), sorted.sent + unsorted.sent))
  {
  }

  /** The scan loops, one after the other. */
  method ScanLookup(c: Client, id: int, idStr: string) returns (product: Val, sent: seq<Url>)
    ensures Fetched(product, sent) == Scans(c, id, idStr)
    ensures product == Arr([]) || Acceptable(product, idStr)
    ensures |sent| <= 2 * MaxPages + 2 * (MaxPages + 1)
  {
    var s1, t1 := ScanPages(Pages(c, idStr, true), SortedOffsets(), true);
    if s1.Some? {
      return s1.value, t1;
    }
    var offs := LikelyOffsets(id);
    var s2, t2 := ScanPages(Pages(c, idStr, false), offs, false);
    sent := t1 + t2;
    product := if s2.Some? then s2.value else Arr([]);
  }

  /** The entry with the id on the first page, or an empty array. */
  function FirstPageEntry(data: Val, idStr: string): Val {
    var found := FindProductByIdInList(ParseProductsToList(data), idStr);
    if found.Some? then found.value else Arr([])
  }

  /** Whether a product has a non-empty first-language name (has_name). */
  predicate Named(p: Val) {
    FieldNormalizer.ExtractFirstLangValue(Coalesce(Field(p, "name"), Str(""))) != ""
  }

  /** The `products` branch: the first page's entry with the id, with no
      further request; else, for a positive id, the offset request's
      product when it has a name; else the scans, whose requests follow
      the offset request. Whatever is found carries the requested id. */
  function ListAnswer(c: Client, id: int, idStr: string, data: Val): (r: Fetched<Val>)
    ensures r.result.Arr?
    ensures r.result == Arr([]) || FieldNormalizer.GetProductIdScalar(r.result) == idStr
    ensures |r.sent| <= 1 + 2 * MaxPages + 2 * (MaxPages + 1)
    ensures !Empty(FirstPageEntry(data, idStr)) || id <= 0 ==> r == Fetched(FirstPageEntry(data, idStr), [])
    ensures Empty(FirstPageEntry(data, idStr)) && id > 0 ==>
      var single := OffsetLookup(c, id, idStr);
      && (!Empty(single.result) && Named(single.result) ==> r == single)
      && (Empty(single.result) || !Named(single.result) ==>
            r == Fetched(Scans(c, id, idStr).result, single.sent + Scans(c, id, idStr).sent))
  {
    var first := FirstPageEntry(data, idStr);
    if !Empty(first) || id <= 0 then Fetched(first, [])
    else
      var single := OffsetLookup(c, id, idStr);
      if !Empty(single.result) && Named(single.result) then single
      else
        var scans := Scans(c, id, idStr);
        Fetched(scans.result, single.sent + scans.sent)
  }

  /** The `products` branch: the first page's entry with the id, else the
      offset request, else, when that gives nothing with a name, the scans. */
  method ListLookup(c: Client, id: int, idStr: string, data: Val) returns (product: Val, sent: seq<Url>)
    ensures Fetched(product, sent) == ListAnswer(c, id, idStr, data)
    ensures product.Arr?
    ensures |sent| <= 1 + 2 * MaxPages + 2 * (MaxPages + 1)
  {
    product := FirstPageEntry(data, idStr);
    sent := [];
    if !Empty(product) || id <= 0 {
      return;
    }
    var single := OffsetLookup(c, id, idStr);
    product := single.result;
    sent := single.sent;
    if Empty(product) || !Named(product) {
      var more;
      product, more := ScanLookup(c, id, idStr);
      sent := sent + more;
    }
  }

  /** The product wrappers in order: a non-empty array at
      prestashop.product, else one at product, else the `products` list
      (no request is sent before it); with none of them, nothing. */
  function Answer(c: Client, id: int, idStr: string, data: Val): (r: Fetched<Val>)
    ensures r.result.Arr?
    ensures |r.sent| <= 1 + 2 * MaxPages + 2 * (MaxPages + 1)
    ensures var pp := Field(Field(data, "prestashop"), "product");
      var p := Field(data, "product");
      var ps := Field(data, "products");
      && (!Empty(pp) && pp.Arr? ==> r == Fetched(pp, []))
      && (!(!Empty(pp) && pp.Arr?) && !Empty(p) && p.Arr? ==> r == Fetched(p, []))
      && (!(!Empty(pp) && pp.Arr?) && !(!Empty(p) && p.Arr?) && !Empty(ps) && ps.Arr? ==> r == ListAnswer(c, id, idStr, data))
      && (!(!Empty(pp) && pp.Arr?) && !(!Empty(p) && p.Arr?) && !(!Empty(ps) && ps.Arr?) ==> r == Fetched(Arr([]), []))
  {
    var pp := Field(Field(data, "prestashop"), "product");
    if !Empty(pp) && pp.Arr? then Fetched(pp, [])
    else if !Empty(Field(data, "product")) && Field(data, "product").Arr? then Fetched(Field(data, "product"), [])
    else if !Empty(Field(data, "products")) && Field(data, "products").Arr? then ListAnswer(c, id, idStr, data)
    else Fetched(Arr([]), [])
  }

  /** get_product: the raw fetch's error is passed on; otherwise the answer
      is what FinishProduct makes of the wrapper lookup over the unwrapped
      answer: an empty array (not found) or a product with a name or a
      price and a scalar id. The raw fetch's requests come first, then the
      lookup's, at most 1 + 2 * 40 + 2 * 41 more. */
  method GetProduct(c: Client, id: int) returns (r: Result<Val>, sent: seq<Url>)
    ensures var raw := GetProductRaw(c, id);
      && |raw.sent| <= |sent| <= |raw.sent| + 1 + 2 * MaxPages + 2 * (MaxPages + 1)
      && sent[..|raw.sent|] == raw.sent
      && (raw.result.Err? ==> r == raw.result && sent == raw.sent)
      && (raw.result.Ok? ==>
            r.Ok? && r.value.Arr? && (r.value == Arr([]) || (HasData(r.value) && Field(r.value, "id").Str?)))
    ensures var raw := GetProductRaw(c, id);
      raw.result.Ok? ==>
        var data := UnwrapResponse(raw.result.value);
        var answer := Answer(c, id, Text.IntToString(id), data);
        r == Ok(FinishProduct(answer.result, data, Text.IntToString(id))) && sent == raw.sent + answer.sent
  {
    var raw := GetProductRaw(c, id);
    if raw.result.Err? {
      return raw.result, raw.sent;
    }
    var data := UnwrapResponse(raw.result.value);
    var idStr := Text.IntToString(id);
    var product, more := FindInAnswer(c, id, idStr, data);
    r := Ok(FinishProduct(product, data, idStr));
    sent := raw.sent + more;
  }

  /** The wrapper lookup, following Answer. */
  method FindInAnswer(c: Client, id: int, idStr: string, data: Val) returns (product: Val, sent: seq<Url>)
    ensures Fetched(product, sent) == Answer(c, id, idStr, data)
    ensures product.Arr?
    ensures |sent| <= 1 + 2 * MaxPages + 2 * (MaxPages + 1)
  {
    var pp := Field(Field(data, "prestashop"), "product");
    product, sent := Arr([]), [];
    if !Empty(pp) && pp.Arr? {
      product := pp;
    } else if !Empty(Field(data, "product")) && Field(data, "product").Arr? {
      product := Field(data, "product");
    } else if !Empty(Field(data, "products")) && Field(data, "products").Arr? {
      product, sent := ListLookup(c, id, idStr, data);
    }
  }
}
