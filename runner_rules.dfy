/** The value-level rules of the batch runner: which ids a batch takes,
    how a fetched product is normalized, how an existing WooCommerce
    product is found, which images are uploaded, and what the batch
    reports for each id. */
module RunnerRules {
  import opened Common
  import opened Php
  import Text
  import Http
  import WcStore
  import FieldNormalizer
  import DbShape
  import MapperRules
  import ProductRules

  // ------------------------------------------------------------------ ids

  /** array_filter(array_map('absint', ids)): the absolute integer values,
      zeros dropped, in order. */
  function BatchIds(ids: seq<Val>): (r: seq<nat>)
    ensures |r| <= |ids|
    ensures forall i :: 0 <= i < |r| ==> r[i] > 0
  {
    if ids == [] then []
    else (if AbsInt(ids[0]) == 0 then [] else [AbsInt(ids[0])]) + BatchIds(ids[1..])
  }

  /** The filter keeps the order: the ids of a concatenation are the ids
      of its parts, one after the other. */
  lemma {:induction false} BatchIdsAppend(a: seq<Val>, b: seq<Val>)
    ensures BatchIds(a + b) == BatchIds(a) + BatchIds(b)
  {
    if a == [] {
      assert a + b == b;
    } else {
      assert (a + b)[0] == a[0];
      assert (a + b)[1..] == a[1..] + b;
      BatchIdsAppend(a[1..], b);
      var h := if AbsInt(a[0]) == 0 then [] else [AbsInt(a[0])];
      assert BatchIds(a + b) == h + (BatchIds(a[1..]) + BatchIds(b));
      assert h + (BatchIds(a[1..]) + BatchIds(b)) == (h + BatchIds(a[1..])) + BatchIds(b);
    }
  }

  /** An id is in the batch exactly when it is not 0 and some entry of
      the input converts to it. */
  lemma {:induction false} BatchIdsMembers(ids: seq<Val>, x: nat)
    ensures x in BatchIds(ids) <==> x != 0 && exists i :: 0 <= i < |ids| && AbsInt(ids[i]) == x
  {
    if ids != [] {
      var rest := ids[1..];
      BatchIdsMembers(rest, x);
      if x != 0 && x !in BatchIds(ids) {
        forall i | 0 <= i < |ids| ensures AbsInt(ids[i]) != x {
          if i > 0 {
            assert ids[i] == rest[i - 1];
          }
        }
      }
      if x in BatchIds(rest) {
        var i :| 0 <= i < |rest| && AbsInt(rest[i]) == x;
        assert ids[i + 1] == rest[i];
      }
    }
  }

  // ------------------------------------------------------------ normalize

  /** associations.images.image, when it is an array, replaces
      associations.images. */
  function UnwrapImages(assoc: Val): Val {
    var imgs := Field(assoc, "images");
    if imgs.Arr? && Field(imgs, "image").Arr? then SetField(assoc, "images", Field(imgs, "image")) else assoc
  }

  /** The quantity stock_availables offers: that of its first entry (the
      stock_available list when there is one), else its own quantity. */
  function StockQuantity(stocks: Val): Option<Val> {
    var list := if FieldSet(stocks, "stock_available") then Field(stocks, "stock_available") else stocks;
    var first := Reset(if list.Arr? then list else Arr([(IntKey(0), list)]));
    if first.Arr? && FieldSet(first, "quantity") then Some(Field(first, "quantity"))
    else if FieldSet(stocks, "quantity") then Some(Field(stocks, "quantity"))
    else None
  }

  /** Whether the root of the product has no usable quantity. */
  predicate NoQuantity(p: Val) {
    !FieldSet(p, "quantity") || Field(p, "quantity") == Str("")
  }

  /** The product as an array with its id set: the id it has, else the
      id it was asked for, as a string. */
  function WithId(product: Val, id: int): Val {
    var p := if product.Arr? then product else Arr([]);
    SetField(p, "id", if FieldSet(p, "id") then Field(p, "id") else Str(Text.IntToString(id)))
  }

  /** The associations step of normalize_product: a non-empty
      associations array has its image list unwrapped and, when the root
      has no quantity, lends the quantity of stock_availables. */
  function Associated(p: Val): Val {
    var assoc := Field(p, "associations");
    if Empty(assoc) || !assoc.Arr? then p
    else
      var assoc1 := UnwrapImages(assoc);
      var p2 := SetField(p, "associations", assoc1);
      var stocks := Field(assoc1, "stock_availables");
      if NoQuantity(p2) && !Empty(stocks) && StockQuantity(stocks).Some?
      then SetField(p2, "quantity", StockQuantity(stocks).value) else p2
  }

  /** normalize_product */
  function NormalizeProduct(product: Val, id: int): (r: Val)
    ensures r.Arr?
  {
    Associated(WithId(product, id))
  }

  /** The id step sets only the id. */
  lemma WithIdFields(product: Val, id: int, name: string)
    ensures Field(WithId(product, id), name)
            == if name == "id" then (if FieldSet(product, "id") then Field(product, "id") else Str(Text.IntToString(id)))
               else if product.Arr? then Field(product, name) else Null
  {
    var p := if product.Arr? then product else Arr([]);
    GetSet(p, StrKey("id"), if FieldSet(p, "id") then Field(p, "id") else Str(Text.IntToString(id)), StrKey(name));
  }

  /** The associations step changes no field but associations and
      quantity. */
  lemma AssociatedKeeps(p: Val, name: string)
    requires p.Arr? && name != "associations" && name != "quantity"
    ensures Field(Associated(p), name) == Field(p, name)
  {
    var assoc := Field(p, "associations");
    if !(Empty(assoc) || !assoc.Arr?) {
      var p2 := SetField(p, "associations", UnwrapImages(assoc));
      GetSet(p, StrKey("associations"), UnwrapImages(assoc), StrKey(name));
      var stocks := Field(UnwrapImages(assoc), "stock_availables");
      if NoQuantity(p2) && !Empty(stocks) && StockQuantity(stocks).Some? {
        GetSet(p2, StrKey("quantity"), StockQuantity(stocks).value, StrKey(name));
      }
    }
  }

  /** The image unwrapping leaves stock_availables alone. */
  lemma UnwrapKeepsStocks(assoc: Val)
    ensures Field(UnwrapImages(assoc), "stock_availables") == Field(assoc, "stock_availables")
  {
    var imgs := Field(assoc, "images");
    if imgs.Arr? && Field(imgs, "image").Arr? {
      GetSet(assoc, StrKey("images"), Field(imgs, "image"), StrKey("stock_availables"));
    }
  }

  /** The quantity after the associations step: the root's when it has
      one, else the first stock entry's when there is one. */
  lemma AssociatedQuantity(p: Val)
    requires p.Arr?
    ensures !NoQuantity(p) ==> Field(Associated(p), "quantity") == Field(p, "quantity")
    ensures var assoc := Field(p, "associations");
      NoQuantity(p) && !Empty(assoc) && assoc.Arr? && !Empty(Field(assoc, "stock_availables"))
      && StockQuantity(Field(assoc, "stock_availables")).Some?
      ==> Field(Associated(p), "quantity") == StockQuantity(Field(assoc, "stock_availables")).value
  {
    var assoc := Field(p, "associations");
    if !(Empty(assoc) || !assoc.Arr?) {
      var p2 := SetField(p, "associations", UnwrapImages(assoc));
      GetSet(p, StrKey("associations"), UnwrapImages(assoc), StrKey("quantity"));
      UnwrapKeepsStocks(assoc);
      var stocks := Field(UnwrapImages(assoc), "stock_availables");
      if NoQuantity(p2) && !Empty(stocks) && StockQuantity(stocks).Some? {
        GetSet(p2, StrKey("quantity"), StockQuantity(stocks).value, StrKey("quantity"));
      }
    }
  }

  /** The product keeps its id, or takes the id it was asked for. */
  lemma NormalizeId(product: Val, id: int)
    ensures Field(NormalizeProduct(product, id), "id")
            == if FieldSet(product, "id") then Field(product, "id") else Str(Text.IntToString(id))
  {
    WithIdFields(product, id, "id");
    AssociatedKeeps(WithId(product, id), "id");
  }

  /** Every field other than id, associations and quantity is the one the
      source sent. */
  lemma NormalizeKeeps(product: Val, id: int, name: string)
    requires product.Arr? && name != "id" && name != "associations" && name != "quantity"
    ensures Field(NormalizeProduct(product, id), name) == Field(product, name)
  {
    WithIdFields(product, id, name);
    AssociatedKeeps(WithId(product, id), name);
  }

  /** A quantity at the root wins over stock_availables; without one, the
      first stock entry's quantity is taken. */
  lemma NormalizeQuantity(product: Val, id: int)
    requires product.Arr?
    ensures !NoQuantity(product) ==> Field(NormalizeProduct(product, id), "quantity") == Field(product, "quantity")
    ensures var assoc := Field(product, "associations");
      NoQuantity(product) && !Empty(assoc) && assoc.Arr? && !Empty(Field(assoc, "stock_availables"))
      && StockQuantity(Field(assoc, "stock_availables")).Some?
      ==> Field(NormalizeProduct(product, id), "quantity") == StockQuantity(Field(assoc, "stock_availables")).value
  {
    WithIdFields(product, id, "quantity");
    WithIdFields(product, id, "associations");
    AssociatedQuantity(WithId(product, id));
  }

  /** A wrapped image list is unwrapped. */
  lemma NormalizeImages(product: Val, id: int)
    requires product.Arr?
    requires var assoc := Field(product, "associations");
      !Empty(assoc) && assoc.Arr? && Field(assoc, "images").Arr? && Field(Field(assoc, "images"), "image").Arr?
    ensures Field(Field(NormalizeProduct(product, id), "associations"), "images")
            == Field(Field(Field(product, "associations"), "images"), "image")
  {
    WithIdFields(product, id, "associations");
    var p := WithId(product, id);
    var assoc := Field(p, "associations");
    var assoc1 := UnwrapImages(assoc);
    var p2 := SetField(p, "associations", assoc1);
    GetSet(p, StrKey("associations"), assoc1, StrKey("associations"));
    GetSet(assoc, StrKey("images"), Field(Field(assoc, "images"), "image"), StrKey("images"));
    var stocks := Field(assoc1, "stock_availables");
    if NoQuantity(p2) && !Empty(stocks) && StockQuantity(stocks).Some? {
      GetSet(p2, StrKey("quantity"), StockQuantity(stocks).value, StrKey("associations"));
    }
  }

  // -------------------------------------------------------- find existing

  /** The reference find_existing_wc_product looks an SKU up by: the
      first language of an array, trimmed. */
  function LookupReference(product: Val): string {
    var reference := if FieldSet(product, "reference") then Field(product, "reference") else Str("");
    Text.Trim(if reference.Arr? then FieldNormalizer.GetFirstLang(reference) else ToStr(reference))
  }

  /** find_existing_wc_product over the products ps: the newest listed
      product recording the PrestaShop id, else the product with the
      reference as its SKU (when the SKU lookup exists), else none. */
  function FindExisting(ps: seq<WcStore.Product>, skuLookup: bool, prestashopId: int, product: Val): (r: Option<int>)
    ensures r.Some? ==> 0 < r.value <= |ps| && !ps[r.value - 1].deleted
    ensures r.Some? ==>
      || (WcStore.Listed(ps, r.value) && Http.ParamOf(ps[r.value - 1].meta, ProductRules.PrestashopIdKey) == Some(Text.IntToString(prestashopId)))
      || (skuLookup && LookupReference(product) != "" && ps[r.value - 1].sku == LookupReference(product))
  {
    var byMeta := WcStore.MetaOwnerIn(ps, ProductRules.PrestashopIdKey, Text.IntToString(prestashopId), |ps|);
    if byMeta.Some? then byMeta
    else
      var reference := LookupReference(product);
      if reference != "" && skuLookup then WcStore.SkuOwnerIn(ps, reference) else None
  }

  /** find_existing_wc_product prefers the PrestaShop id: when a listed
      product records it, one that does is found; finding none means no
      listed product records it and, when the SKU lookup runs, no live
      product has the reference as its SKU. */
  lemma FindExistingComplete(ps: seq<WcStore.Product>, skuLookup: bool, prestashopId: int, product: Val)
    ensures var r := FindExisting(ps, skuLookup, prestashopId, product);
      && ((exists id :: 0 < id <= |ps| && WcStore.Listed(ps, id)
                        && Http.ParamOf(ps[id - 1].meta, ProductRules.PrestashopIdKey) == Some(Text.IntToString(prestashopId)))
          ==> r.Some? && WcStore.Listed(ps, r.value)
              && Http.ParamOf(ps[r.value - 1].meta, ProductRules.PrestashopIdKey) == Some(Text.IntToString(prestashopId)))
      && (r.None? ==>
            && (forall id :: 0 < id <= |ps| && WcStore.Listed(ps, id)
                             ==> Http.ParamOf(ps[id - 1].meta, ProductRules.PrestashopIdKey) != Some(Text.IntToString(prestashopId)))
            && (skuLookup && LookupReference(product) != ""
                ==> forall j :: 0 <= j < |ps| ==> !(ps[j].sku == LookupReference(product) && !ps[j].deleted)))
  {
    var key, value := ProductRules.PrestashopIdKey, Text.IntToString(prestashopId);
    var byMeta := WcStore.MetaOwnerIn(ps, key, value, |ps|);
    if byMeta.None? {
      assert forall id :: 0 < id <= |ps| && WcStore.Listed(ps, id) ==> Http.ParamOf(ps[id - 1].meta, key) != Some(value);
    }
  }

  // --------------------------------------------------------------- images

  /** The attachment the image_urls path makes of one entry: none when
      esc_url_raw leaves nothing, the HEAD check fails, or the download or
      the sideload fails. */
  function UrlUpload(wp: Http.Wp, media: Http.Media, url: Val): Option<int> {
    var u := wp.escUrlRaw(ToStr(url));
    if DbShape.Falsy(u) || !Http.ImageHead(media.head(u)) then None else media.sideload(u)
  }

  /** The attachments of the image_urls path, in order. */
  function UrlUploads(wp: Http.Wp, media: Http.Media, urls: seq<Val>): (r: seq<int>)
    ensures |r| <= |urls|
  {
    if urls == [] then []
    else
      var r := UrlUploads(wp, media, urls[..|urls| - 1]);
      match UrlUpload(wp, media, urls[|urls| - 1])
      case Some(a) => r + [a]
      case None => r
  }

  /** An attachment is uploaded exactly when some URL passes the checks and
      the store makes it of that URL; so a URL that is not HTTP 200 with an
      image content type never gives one. */
  lemma {:induction false} UrlUploadsFrom(wp: Http.Wp, media: Http.Media, urls: seq<Val>, a: int)
    ensures a in UrlUploads(wp, media, urls) <==> exists i :: 0 <= i < |urls| && UrlUpload(wp, media, urls[i]) == Some(a)
  {
    if urls != [] {
      var init := urls[..|urls| - 1];
      UrlUploadsFrom(wp, media, init, a);
      if exists i :: 0 <= i < |urls| && UrlUpload(wp, media, urls[i]) == Some(a) {
        var i :| 0 <= i < |urls| && UrlUpload(wp, media, urls[i]) == Some(a);
        if i < |init| {
          assert init[i] == urls[i];
        }
      }
      if a in UrlUploads(wp, media, init) {
        var i :| 0 <= i < |init| && UrlUpload(wp, media, init[i]) == Some(a);
        assert urls[i] == init[i];
      }
    }
  }

  /** (int) id_default_image first, when it is not empty. */
  function DefaultImageIds(product: Val): seq<int> {
    if Empty(Field(product, "id_default_image")) then [] else [ToInt(Field(product, "id_default_image"))]
  }

  /** The id of an association image, 0 when it has none. */
  function AssocImageId(img: Val): int {
    if FieldSet(img, "id") then ToInt(Field(img, "id")) else 0
  }

  /** The association images of the API path. */
  function AssocImages(product: Val): seq<Val> {
    var imgs := Field(Field(product, "associations"), "images");
    if !Empty(imgs) && imgs.Arr? then Values(imgs) else []
  }

  /** The image ids after the association loop over imgs: each non-zero
      id not listed yet is appended. */
  function CollectImageIds(start: seq<int>, imgs: seq<Val>): (r: seq<int>)
  {
    if imgs == [] then start
    else
      var r := CollectImageIds(start, imgs[..|imgs| - 1]);
      var iid := AssocImageId(imgs[|imgs| - 1]);
      if iid != 0 && iid !in r then r + [iid] else r
  }

  /** The ids of the API path before the default is merged in again. */
  function ApiImageIds(product: Val): seq<int> {
    CollectImageIds(DefaultImageIds(product), AssocImages(product))
  }

  /** The ids of the API path: the default is put in front once more and
      duplicates dropped. */
  function MergedImageIds(product: Val): seq<int> {
    var ids := ApiImageIds(product);
    if !Empty(Field(product, "id_default_image")) && |ids| > 1
    then Distinct([ToInt(Field(product, "id_default_image"))] + ids) else ids
  }

  /** The association loop keeps what it started with in front, adds only
      non-zero ids, and adds each id once. */
  lemma {:induction false} CollectShape(start: seq<int>, imgs: seq<Val>)
    requires forall i, j :: 0 <= i < j < |start| ==> start[i] != start[j]
    ensures var r := CollectImageIds(start, imgs);
      && |start| <= |r| && r[..|start|] == start
      && (forall i, j :: 0 <= i < j < |r| ==> r[i] != r[j])
      && (forall i :: |start| <= i < |r| ==> r[i] != 0)
  {
    if imgs != [] {
      CollectShape(start, imgs[..|imgs| - 1]);
      var r := CollectImageIds(start, imgs[..|imgs| - 1]);
      var iid := AssocImageId(imgs[|imgs| - 1]);
      if iid != 0 && iid !in r {
        assert (r + [iid])[..|start|] == r[..|start|];
      }
    }
  }

  /** Distinct of a list that starts with d, has no duplicates, and has d
      put in front once more, is the list. */
  lemma {:induction false} DistinctFront(d: int, ids: seq<int>, k: nat)
    requires 1 <= k <= |ids| && ids[0] == d
    requires forall i, j :: 0 <= i < j < |ids| ==> ids[i] != ids[j]
    ensures Distinct([d] + ids[..k]) == ids[..k]
  {
    if k == 1 {
      assert [d] + ids[..1] == [d, d];
      assert [d, d][..1] == [d];
      assert Distinct([d]) == [d] by {
        assert [d][..0] == [];
      }
    } else {
      DistinctFront(d, ids, k - 1);
      var xs := [d] + ids[..k];
      assert xs[..|xs| - 1] == [d] + ids[..k - 1];
      assert xs[|xs| - 1] == ids[k - 1];
      assert ids[k - 1] !in ids[..k - 1];
      assert ids[..k - 1] + [ids[k - 1]] == ids[..k];
    }
  }

  /** The API ids have the default image first when it is not empty, no
      duplicates, no zero after the default; and putting the default in
      front again changes nothing. */
  lemma ApiImageIdsShape(product: Val)
    ensures var ids := ApiImageIds(product);
      && MergedImageIds(product) == ids
      && (forall i, j :: 0 <= i < j < |ids| ==> ids[i] != ids[j])
      && (!Empty(Field(product, "id_default_image")) ==> |ids| >= 1 && ids[0] == ToInt(Field(product, "id_default_image")))
      && (forall i :: |DefaultImageIds(product)| <= i < |ids| ==> ids[i] != 0)
  {
    var start := DefaultImageIds(product);
    CollectShape(start, AssocImages(product));
    if !Empty(Field(product, "id_default_image")) {
      FrontMerge(ToInt(Field(product, "id_default_image")), start, ApiImageIds(product));
    }
  }

  /** Putting the first id of a duplicate-free list in front again, and
      dropping duplicates, gives the list back. */
  lemma FrontMerge(d: int, start: seq<int>, ids: seq<int>)
    requires start == [d] && |start| <= |ids| && ids[..|start|] == start
    requires forall i, j :: 0 <= i < j < |ids| ==> ids[i] != ids[j]
    ensures |ids| >= 1 && ids[0] == d
    ensures Distinct([d] + ids) == ids
  {
    assert ids[0] == ids[..1][0];
    DistinctFront(d, ids, |ids|);
    assert ids[..|ids|] == ids;
  }

  /** The attachments of the API path, in the order of the ids. */
  function ApiUploads(media: Http.Media, productId: int, ids: seq<int>): (r: seq<int>)
    ensures |r| <= |ids|
  {
    if ids == [] then []
    else
      var r := ApiUploads(media, productId, ids[..|ids| - 1]);
      match media.sideloadApiImage(productId, ids[|ids| - 1])
      case Some(a) => r + [a]
      case None => r
  }

  /** upload_product_images: the image_urls path when the product has
      such a list; otherwise, for a product with an id, the API images
      when the source can download them. */
  function ProductImages(canDownload: bool, wp: Http.Wp, media: Http.Media, product: Val): seq<int> {
    var urls := Field(product, "image_urls");
    var productId := if FieldSet(product, "id") then ToInt(Field(product, "id")) else 0;
    if !Empty(urls) && urls.Arr? then UrlUploads(wp, media, Values(urls))
    else if productId == 0 then []
    else
      var ids := MergedImageIds(product);
      if ids != [] && canDownload then ApiUploads(media, productId, ids) else []
  }

  /** The image_urls path wins over the API path. */
  lemma UrlsFirst(canDownload: bool, wp: Http.Wp, media: Http.Media, product: Val)
    requires !Empty(Field(product, "image_urls")) && Field(product, "image_urls").Arr?
    ensures ProductImages(canDownload, wp, media, product) == UrlUploads(wp, media, Values(Field(product, "image_urls")))
              == ProductImages(false, wp, media, product)
  {
  }

  /** One combination of upload_combination_images: its image_url, when
      it passes the checks and is sideloaded, gives its
      variation_image_attachment_id. */
  function ComboImage(wp: Http.Wp, media: Http.Media, c: Val): (r: Val)
  {
    var url := if FieldSet(c, "image_url") then wp.escUrlRaw(ToStr(Field(c, "image_url"))) else "";
    if DbShape.Falsy(url) || !Http.ImageHead(media.head(url)) then c
    else
      match media.sideload(url)
      case None => c
      case Some(a) => SetField(c, "variation_image_attachment_id", Int(a))
  }

  /** A combination changes only in its variation_image_attachment_id,
      which it gets exactly when its image is uploaded. */
  lemma ComboImageShape(wp: Http.Wp, media: Http.Media, c: Val, name: string)
    requires c.Arr?
    ensures name != "variation_image_attachment_id" ==> Field(ComboImage(wp, media, c), name) == Field(c, name)
    ensures var url := if FieldSet(c, "image_url") then wp.escUrlRaw(ToStr(Field(c, "image_url"))) else "";
      ComboImage(wp, media, c) != c ==>
        && !DbShape.Falsy(url) && Http.ImageHead(media.head(url)) && media.sideload(url).Some?
        && Field(ComboImage(wp, media, c), "variation_image_attachment_id") == Int(media.sideload(url).value)
  {
    var url := if FieldSet(c, "image_url") then wp.escUrlRaw(ToStr(Field(c, "image_url"))) else "";
    if !DbShape.Falsy(url) && Http.ImageHead(media.head(url)) && media.sideload(url).Some? {
      GetSet(c, StrKey("variation_image_attachment_id"), Int(media.sideload(url).value), StrKey(name));
      GetSet(c, StrKey("variation_image_attachment_id"), Int(media.sideload(url).value), StrKey("variation_image_attachment_id"));
    }
  }

  /** The combinations after their images: each entry keeps its key. */
  function ComboEntries(wp: Http.Wp, media: Http.Media, es: seq<(Key, Val)>): (r: seq<(Key, Val)>)
    ensures |r| == |es|
    ensures forall i :: 0 <= i < |es| ==> r[i] == (es[i].0, ComboImage(wp, media, es[i].1))
  {
    seq(|es|, i requires 0 <= i < |es| => (es[i].0, ComboImage(wp, media, es[i].1)))
  }

  /** upload_combination_images: a product without a combination list is
      left as it is. */
  function ComboImages(wp: Http.Wp, media: Http.Media, product: Val): Val {
    var combos := Field(product, "combinations");
    if Empty(combos) || !combos.Arr? then product
    else SetField(product, "combinations", Arr(ComboEntries(wp, media, combos.entries)))
  }

  // --------------------------------------------------------------- report

  /** How one id of a batch ends. */
  datatype Fate =
    | Failed(message: string)       // the fetch or the mapper returned an error
    | NoData                        // the source returned nothing usable
    | Skipped(wcId: int)            // the product exists and is not updated
    | Migrated(wcId: int, updated: bool)

  /** The "Proizvod #id: " prefix of every line about an id. */
  function Prefix(id: nat): string {
    "Proizvod #" + Text.IntToString(id) + ": "
  }

  /** The error line of an id, if its fate has one. */
  function ErrorLines(id: nat, f: Fate): seq<string> {
    match f
    case Failed(m) => [Prefix(id) + m]
    case NoData => [Prefix(id) + "API/DB nije vratio podatke (naslov/cena)."]
    case Skipped(_) => []
    case Migrated(_, _) => []
  }

  /** The log line of an id. */
  function LogLine(id: nat, f: Fate): string {
    match f
    case Failed(m) => Prefix(id) + "preskočen – " + m
    case NoData => Prefix(id) + "preskočen – nema naslova/cene"
    case Skipped(w) => Prefix(id) + "preskočen – već postoji (WC #" + Text.IntToString(w) + ")"
    case Migrated(w, u) => Prefix(id) + (if u then "ažuriran" else "migriran") + " (WC #" + Text.IntToString(w) + ")"
  }

  /** What run_batch returns. */
  datatype Batch = Batch(migrated: seq<(nat, int)>, totalProcessed: nat, errors: seq<string>, log: seq<string>)

  /** The (id, product) pairs of the successes, in input order. */
  function Successes(ids: seq<nat>, fates: seq<Fate>): seq<(nat, int)>
    requires |ids| == |fates|
  {
    if ids == [] then []
    else
      var n := |ids| - 1;
      Successes(ids[..n], fates[..n]) + (if fates[n].Migrated? then [(ids[n], fates[n].wcId)] else [])
  }

  /** The error lines, in input order. */
  function Errors(ids: seq<nat>, fates: seq<Fate>): seq<string>
    requires |ids| == |fates|
  {
    if ids == [] then []
    else
      var n := |ids| - 1;
      Errors(ids[..n], fates[..n]) + ErrorLines(ids[n], fates[n])
  }

  /** The log, one line per id. */
  function Log(ids: seq<nat>, fates: seq<Fate>): (r: seq<string>)
    requires |ids| == |fates|
    ensures |r| == |ids|
    ensures forall i :: 0 <= i < |ids| ==> r[i] == LogLine(ids[i], fates[i])
  {
    seq(|ids|, i requires 0 <= i < |ids| => LogLine(ids[i], fates[i]))
  }

  /** The report of a batch whose ids ended as the fates say. */
  function Report(ids: seq<nat>, fates: seq<Fate>): (b: Batch)
    requires |ids| == |fates|
    ensures b.totalProcessed == |ids| && |b.log| == |ids|
  {
    Batch(Successes(ids, fates), |ids|, Errors(ids, fates), Log(ids, fates))
  }

  /** The ways an id can end, as run_batch counts them. */
  datatype Outcome = Error | Skip | Success

  function OutcomeOf(f: Fate): Outcome {
    match f
    case Failed(_) => Error
    case NoData => Error
    case Skipped(_) => Skip
    case Migrated(_, _) => Success
  }

  /** The number of fates that end as k. */
  function CountOf(fates: seq<Fate>, k: Outcome): nat {
    if fates == [] then 0 else CountOf(fates[..|fates| - 1], k) + (if OutcomeOf(fates[|fates| - 1]) == k then 1 else 0)
  }

  /** Every id ends in exactly one way: an error line for a failure, a
      migrated entry for a success, neither for a skip. */
  lemma ReportCounts(ids: seq<nat>, fates: seq<Fate>)
    requires |ids| == |fates|
    ensures var b := Report(ids, fates);
      && |b.errors| == CountOf(fates, Error)
      && |b.migrated| == CountOf(fates, Success)
      && |b.errors| + |b.migrated| + CountOf(fates, Skip) == |ids|
  {
    ErrorsCount(ids, fates);
    SuccessesCount(ids, fates);
    CountsAdd(fates);
  }

  lemma {:induction false} ErrorsCount(ids: seq<nat>, fates: seq<Fate>)
    requires |ids| == |fates|
    ensures |Errors(ids, fates)| == CountOf(fates, Error)
  {
    if ids != [] {
      var n := |ids| - 1;
      ErrorsCount(ids[..n], fates[..n]);
      assert |ErrorLines(ids[n], fates[n])| == if OutcomeOf(fates[n]) == Error then 1 else 0;
    }
  }

  lemma {:induction false} SuccessesCount(ids: seq<nat>, fates: seq<Fate>)
    requires |ids| == |fates|
    ensures |Successes(ids, fates)| == CountOf(fates, Success)
  {
    if ids != [] {
      var n := |ids| - 1;
      SuccessesCount(ids[..n], fates[..n]);
    }
  }

  lemma {:induction false} CountsAdd(fates: seq<Fate>)
    ensures CountOf(fates, Error) + CountOf(fates, Success) + CountOf(fates, Skip) == |fates|
  {
    if fates != [] {
      CountsAdd(fates[..|fates| - 1]);
    }
  }

  /** The migrated entries are the (id, product) pairs of the successes. */
  lemma {:induction false} ReportMigrated(ids: seq<nat>, fates: seq<Fate>, id: nat, w: int)
    requires |ids| == |fates|
    ensures (id, w) in Report(ids, fates).migrated
            <==> exists i :: 0 <= i < |ids| && ids[i] == id && fates[i].Migrated? && fates[i].wcId == w
  {
    SuccessesFrom(ids, fates, id, w);
  }

  lemma {:induction false} SuccessesFrom(ids: seq<nat>, fates: seq<Fate>, id: nat, w: int)
    requires |ids| == |fates|
    ensures (id, w) in Successes(ids, fates)
            <==> exists i :: 0 <= i < |ids| && ids[i] == id && fates[i].Migrated? && fates[i].wcId == w
  {
    if ids != [] {
      var n := |ids| - 1;
      var ids', fates' := ids[..n], fates[..n];
      SuccessesFrom(ids', fates', id, w);
      if exists i :: 0 <= i < |ids| && ids[i] == id && fates[i].Migrated? && fates[i].wcId == w {
        var i :| 0 <= i < |ids| && ids[i] == id && fates[i].Migrated? && fates[i].wcId == w;
        if i < n {
          assert ids'[i] == id && fates'[i] == fates[i];
        }
      }
      if (id, w) in Successes(ids', fates') {
        var i :| 0 <= i < n && ids'[i] == id && fates'[i].Migrated? && fates'[i].wcId == w;
        assert ids[i] == id && fates[i] == fates'[i];
      }
    }
  }

  /** The report of one more id. */
  lemma ReportSnoc(ids: seq<nat>, fates: seq<Fate>, id: nat, f: Fate)
    requires |ids| == |fates|
    ensures var b := Report(ids, fates);
      Report(ids + [id], fates + [f])
        == Batch(b.migrated + (if f.Migrated? then [(id, f.wcId)] else []), |ids| + 1,
                 b.errors + ErrorLines(id, f), b.log + [LogLine(id, f)])
  {
    assert (ids + [id])[..|ids|] == ids;
    assert (fates + [f])[..|fates|] == fates;
  }

  /** The report of the first i + 1 ids of a batch, from that of the
      first i. */
  lemma ReportNext(ids: seq<nat>, i: nat, fates: seq<Fate>, f: Fate)
    requires i < |ids| && |fates| == i
    ensures var b := Report(ids[..i], fates);
      Report(ids[..i + 1], fates + [f])
        == Batch(b.migrated + (if f.Migrated? then [(ids[i], f.wcId)] else []), i + 1,
                 b.errors + ErrorLines(ids[i], f), b.log + [LogLine(ids[i], f)])
  {
    assert ids[..i + 1] == ids[..i] + [ids[i]];
    ReportSnoc(ids[..i], fates, ids[i], f);
  }

  // --------------------------------------------------------------- import

  /** The fate of a mapper call: its product id, or its error message. */
  function FateOf(r: Result<int>, updated: bool): Fate {
    if r.Ok? then Migrated(r.value, updated) else Failed(r.error.message)
  }

  /** The products and the fate after the mapper call o: an update
      reports it as it is; a creation that succeeds records the PrestaShop
      id on the new product. */
  function Finish(o: ProductRules.Outcome, updated: bool, id: nat): (seq<WcStore.Product>, Fate) {
    if !updated && o.result.Ok? then
      (ProductRules.WithMeta(o.products, o.result.value, ProductRules.PrestashopIdKey, Text.IntToString(id)), FateOf(o.result, false))
    else (o.products, FateOf(o.result, updated))
  }

  /** The products and the fate after the store steps of one id of
      run_batch, for the normalized product full: an existing product is
      skipped unless updates are asked for; otherwise the images are
      uploaded and the product is updated in place through
      create_or_update_wc_product, or created through create_wc_product
      and given the PrestaShop id as meta. The term and attribute ids the
      mapper resolves are cats, attrs and slugMap. */
  function ImportOutcome(refused: iset<WcStore.Product>, ps: seq<WcStore.Product>, wooActive: bool,
                         wp: Http.Wp, media: Http.Media, viaDb: bool, canDownload: bool,
                         id: nat, full: Val, updateExisting: bool, cats: seq<int>, attrs: seq<WcStore.Attribute>,
                         slugMap: map<(string, string), string>): (seq<WcStore.Product>, Fate)
  {
    var existing := FindExisting(ps, wooActive, id, full);
    if existing.Some? && !updateExisting then (ps, Skipped(existing.value))
    else
      Finish(ProductRules.UpsertOutcome(refused, ps, wooActive, wp, viaDb, ComboImages(wp, media, full),
                                        if existing.Some? then existing.value else 0,
                                        cats, ProductImages(canDownload, wp, media, full), attrs, slugMap),
             existing.Some?, id)
  }

  /** The shape UpsertShape gives an upsert of existing (0 for none) over
      ps, carried to what Finish makes of it. */
  lemma FinishShape(ps: seq<WcStore.Product>, o: ProductRules.Outcome, wooActive: bool, existing: int, kind: WcStore.Kind, id: nat,
                    updateExisting: bool)
    requires existing <= 0 ==> kind != WcStore.Variation
    requires o.result.Err? ==> o.products == ps
    requires o.result.Ok? ==>
      && wooActive && 0 < o.result.value <= |o.products| && |ps| <= |o.products|
      && o.products[o.result.value - 1].kind == kind
      && (existing > 0 ==> o.result.value == existing)
      && (existing <= 0 ==> o.result.value == |ps| + 1 && !o.products[|ps|].deleted)
    requires existing > 0 ==> existing <= |ps| && !ps[existing - 1].deleted
    ensures var (ps', f) := Finish(o, existing > 0, id);
      && |ps| <= |ps'| && !f.NoData? && !f.Skipped?
      && (f.Failed? ==> ps' == ps)
      && (!wooActive ==> !f.Migrated?)
      && (f.Migrated? ==>
            && (f.updated <==> existing > 0)
            && 0 < f.wcId <= |ps'| && ps'[f.wcId - 1].kind == kind
            && (f.updated ==> f.wcId == existing)
            && (!f.updated ==>
                  && f.wcId == |ps| + 1 && WcStore.Listed(ps', f.wcId)
                  && Http.ParamOf(ps'[f.wcId - 1].meta, ProductRules.PrestashopIdKey) == Some(Text.IntToString(id))))
      && Settled(ps, ps', f, updateExisting, wooActive, id)
  {
    if existing <= 0 && o.result.Ok? {
      var w := o.result.value;
      Http.ParamOfSetSame(o.products[w - 1].meta, ProductRules.PrestashopIdKey, Text.IntToString(id));
    }
  }

  /** One id of the batch: an error from the source fails it, an empty
      answer has no data, anything else is imported as full. */
  function MigrateOutcome(refused: iset<WcStore.Product>, ps: seq<WcStore.Product>, wooActive: bool,
                          wp: Http.Wp, media: Http.Media, viaDb: bool, canDownload: bool,
                          id: nat, fetched: Result<Val>, full: Val, updateExisting: bool, cats: seq<int>,
                          attrs: seq<WcStore.Attribute>, slugMap: map<(string, string), string>): (seq<WcStore.Product>, Fate)
  {
    if fetched.Err? then (ps, Failed(fetched.error.message))
    else if Empty(fetched.value) || !fetched.value.Arr? then (ps, NoData)
    else ImportOutcome(refused, ps, wooActive, wp, media, viaDb, canDownload, id, full, updateExisting, cats, attrs, slugMap)
  }

  /** What one id does to the store, for the product existing found
      before: a product found is skipped exactly when updates are not asked
      for, and then nothing changes; a failure changes nothing; an update
      returns the product found; a creation returns a new product of the
      given kind, which records the PrestaShop id; products are never
      removed. */
  predicate Imported(ps: seq<WcStore.Product>, ps': seq<WcStore.Product>, f: Fate, existing: Option<int>,
                     updateExisting: bool, wooActive: bool, kind: WcStore.Kind, id: nat)
  {
    && |ps| <= |ps'| && !f.NoData?
    && (f.Skipped? <==> existing.Some? && !updateExisting)
    && (f.Skipped? ==> ps' == ps && existing.Some? && f.wcId == existing.value)
    && (f.Failed? ==> ps' == ps)
    && (!wooActive ==> !f.Migrated?)
    && (f.Migrated? ==>
          && (f.updated <==> existing.Some?)
          && 0 < f.wcId <= |ps'|
          && ps'[f.wcId - 1].kind == kind
          && (f.updated ==> existing.Some? && f.wcId == existing.value)
          && (!f.updated ==>
                && f.wcId == |ps| + 1 && WcStore.Listed(ps', f.wcId)
                && Http.ParamOf(ps'[f.wcId - 1].meta, ProductRules.PrestashopIdKey) == Some(Text.IntToString(id))))
  }

  /** The kind a migrated product has: that of the product found, retyped,
      or the kind the data calls for. */
  function ImportKind(ps: seq<WcStore.Product>, wooActive: bool, wp: Http.Wp, media: Http.Media, id: nat, full: Val): WcStore.Kind {
    var existing := FindExisting(ps, wooActive, id, full);
    ProductRules.UpsertKind(ps, if existing.Some? then existing.value else 0, ComboImages(wp, media, full))
  }

  /** Every import is Imported, for the product FindExisting finds and the
      kind the data calls for (a variation found by SKU stays one). */
  lemma ImportShape(refused: iset<WcStore.Product>, ps: seq<WcStore.Product>, wooActive: bool,
                    wp: Http.Wp, media: Http.Media, viaDb: bool, canDownload: bool,
                    id: nat, full: Val, updateExisting: bool, cats: seq<int>, attrs: seq<WcStore.Attribute>,
                    slugMap: map<(string, string), string>)
    ensures var (ps', f) := ImportOutcome(refused, ps, wooActive, wp, media, viaDb, canDownload, id, full, updateExisting, cats, attrs, slugMap);
      Imported(ps, ps', f, FindExisting(ps, wooActive, id, full), updateExisting, wooActive,
               ImportKind(ps, wooActive, wp, media, id, full), id)
  {
    var existing := FindExisting(ps, wooActive, id, full);
    var kind := ImportKind(ps, wooActive, wp, media, id, full);
    var r := ImportOutcome(refused, ps, wooActive, wp, media, viaDb, canDownload, id, full, updateExisting, cats, attrs, slugMap);
    if existing.Some? && !updateExisting {
      SkipImported(ps, existing.value, wooActive, kind, id);
    } else {
      var product := ComboImages(wp, media, full);
      var imageIds := ProductImages(canDownload, wp, media, full);
      var e := if existing.Some? then existing.value else 0;
      UpsertFinished(refused, ps, wooActive, wp, viaDb, product, e, cats, imageIds, attrs, slugMap, id, updateExisting);
      FinishImported(ps, r.0, r.1, existing, updateExisting, wooActive, kind, id);
    }
  }

  /** A skip of the product found, without updates. */
  lemma SkipImported(ps: seq<WcStore.Product>, w: int, wooActive: bool, kind: WcStore.Kind, id: nat)
    ensures Imported(ps, ps, Skipped(w), Some(w), false, wooActive, kind, id)
  {
  }

  /** What FinishShape gives, for the product found (if any), is Imported. */
  lemma FinishImported(ps: seq<WcStore.Product>, ps': seq<WcStore.Product>, f: Fate, existing: Option<int>,
                       updateExisting: bool, wooActive: bool, kind: WcStore.Kind, id: nat)
    requires existing.Some? ==> existing.value > 0 && updateExisting
    requires var e := if existing.Some? then existing.value else 0;
      && |ps| <= |ps'| && !f.NoData? && !f.Skipped?
      && (f.Failed? ==> ps' == ps)
      && (!wooActive ==> !f.Migrated?)
      && (f.Migrated? ==>
            && (f.updated <==> e > 0)
            && 0 < f.wcId <= |ps'| && ps'[f.wcId - 1].kind == kind
            && (f.updated ==> f.wcId == e)
            && (!f.updated ==>
                  && f.wcId == |ps| + 1 && WcStore.Listed(ps', f.wcId)
                  && Http.ParamOf(ps'[f.wcId - 1].meta, ProductRules.PrestashopIdKey) == Some(Text.IntToString(id))))
    ensures Imported(ps, ps', f, existing, updateExisting, wooActive, kind, id)
  {
  }

  /** Every import is settled. */
  lemma ImportSettles(refused: iset<WcStore.Product>, ps: seq<WcStore.Product>, wooActive: bool,
                      wp: Http.Wp, media: Http.Media, viaDb: bool, canDownload: bool,
                      id: nat, full: Val, updateExisting: bool, cats: seq<int>, attrs: seq<WcStore.Attribute>,
                      slugMap: map<(string, string), string>)
    ensures var (ps', f) := ImportOutcome(refused, ps, wooActive, wp, media, viaDb, canDownload, id, full, updateExisting, cats, attrs, slugMap);
      Settled(ps, ps', f, updateExisting, wooActive, id)
  {
    var existing := FindExisting(ps, wooActive, id, full);
    if existing.Some? && !updateExisting {
      SkipSettled(ps, existing.value, wooActive, id);
    } else {
      var product := ComboImages(wp, media, full);
      var imageIds := ProductImages(canDownload, wp, media, full);
      var e := if existing.Some? then existing.value else 0;
      UpsertFinished(refused, ps, wooActive, wp, viaDb, product, e, cats, imageIds, attrs, slugMap, id, updateExisting);
    }
  }

  /** A skip of a live product, without updates, is settled. */
  lemma SkipSettled(ps: seq<WcStore.Product>, w: int, wooActive: bool, id: nat)
    requires 0 < w <= |ps| && !ps[w - 1].deleted
    ensures Settled(ps, ps, Skipped(w), false, wooActive, id)
  {
  }

  /** FinishShape for the upsert of product over ps. */
  lemma UpsertFinished(refused: iset<WcStore.Product>, ps: seq<WcStore.Product>, wooActive: bool, wp: Http.Wp, viaDb: bool,
                       product: Val, existing: int, cats: seq<int>, imageIds: seq<int>, attrs: seq<WcStore.Attribute>,
                       slugMap: map<(string, string), string>, id: nat, updateExisting: bool)
    requires existing > 0 ==> existing <= |ps| && !ps[existing - 1].deleted
    ensures var (ps', f) := Finish(ProductRules.UpsertOutcome(refused, ps, wooActive, wp, viaDb, product, existing, cats, imageIds, attrs, slugMap), existing > 0, id);
      && |ps| <= |ps'| && !f.NoData? && !f.Skipped?
      && (f.Failed? ==> ps' == ps)
      && (!wooActive ==> !f.Migrated?)
      && (f.Migrated? ==>
            && (f.updated <==> existing > 0)
            && 0 < f.wcId <= |ps'| && ps'[f.wcId - 1].kind == ProductRules.UpsertKind(ps, existing, product)
            && (f.updated ==> f.wcId == existing)
            && (!f.updated ==>
                  && f.wcId == |ps| + 1 && WcStore.Listed(ps', f.wcId)
                  && Http.ParamOf(ps'[f.wcId - 1].meta, ProductRules.PrestashopIdKey) == Some(Text.IntToString(id))))
      && Settled(ps, ps', f, updateExisting, wooActive, id)
  {
    ProductRules.UpsertShape(refused, ps, wooActive, wp, viaDb, product, existing, cats, imageIds, attrs, slugMap);
    var o := ProductRules.UpsertOutcome(refused, ps, wooActive, wp, viaDb, product, existing, cats, imageIds, attrs, slugMap);
    FinishShape(ps, o, wooActive, existing, ProductRules.UpsertKind(ps, existing, product), id, updateExisting);
  }

  /** A product created for id is found by the next run, whatever the
      product data then is: a second run without updates skips it. */
  lemma CreatedIsFound(refused: iset<WcStore.Product>, ps: seq<WcStore.Product>, wooActive: bool,
                       wp: Http.Wp, media: Http.Media, viaDb: bool, canDownload: bool,
                       id: nat, full: Val, cats: seq<int>, attrs: seq<WcStore.Attribute>,
                       slugMap: map<(string, string), string>, full': Val)
    ensures var (ps', f) := ImportOutcome(refused, ps, wooActive, wp, media, viaDb, canDownload, id, full, false, cats, attrs, slugMap);
      f.Migrated? ==>
        && FindExisting(ps', wooActive, id, full').Some?
        && ImportOutcome(refused, ps', wooActive, wp, media, viaDb, canDownload, id, full', false, cats, attrs, slugMap).1.Skipped?
  {
    ImportShape(refused, ps, wooActive, wp, media, viaDb, canDownload, id, full, false, cats, attrs, slugMap);
    var (ps', f) := ImportOutcome(refused, ps, wooActive, wp, media, viaDb, canDownload, id, full, false, cats, attrs, slugMap);
    if f.Migrated? {
      FindExistingComplete(ps', wooActive, id, full');
      assert 0 < f.wcId <= |ps'| && WcStore.Listed(ps', f.wcId)
        && Http.ParamOf(ps'[f.wcId - 1].meta, ProductRules.PrestashopIdKey) == Some(Text.IntToString(id));
    }
  }

  /** What every id of a batch leaves, whatever its data: products are
      never removed; a failure, an empty answer and a skip change nothing;
      a skip names a live product and happens only without updates; a
      migrated id names a product, the product found when it was updated,
      and otherwise a new listed product that records the PrestaShop id;
      nothing is migrated without WooCommerce. */
  predicate Settled(ps: seq<WcStore.Product>, ps': seq<WcStore.Product>, f: Fate, updateExisting: bool, wooActive: bool, id: nat) {
    && |ps| <= |ps'|
    && (f.Failed? || f.NoData? || f.Skipped? ==> ps' == ps)
    && (f.Skipped? ==> !updateExisting && 0 < f.wcId <= |ps| && !ps[f.wcId - 1].deleted)
    && (!wooActive ==> !f.Migrated?)
    && (f.Migrated? ==>
          && 0 < f.wcId <= |ps'|
          && (f.updated ==> f.wcId <= |ps| && !ps[f.wcId - 1].deleted)
          && (!f.updated ==>
                && f.wcId == |ps| + 1 && WcStore.Listed(ps', f.wcId)
                && Http.ParamOf(ps'[f.wcId - 1].meta, ProductRules.PrestashopIdKey) == Some(Text.IntToString(id))))
  }

  /** Every outcome of one id is settled. */
  lemma MigrateSettled(refused: iset<WcStore.Product>, ps: seq<WcStore.Product>, wooActive: bool,
                       wp: Http.Wp, media: Http.Media, viaDb: bool, canDownload: bool,
                       id: nat, fetched: Result<Val>, full: Val, updateExisting: bool, cats: seq<int>,
                       attrs: seq<WcStore.Attribute>, slugMap: map<(string, string), string>)
    ensures var (ps', f) := MigrateOutcome(refused, ps, wooActive, wp, media, viaDb, canDownload, id, fetched, full,
                                           updateExisting, cats, attrs, slugMap);
      Settled(ps, ps', f, updateExisting, wooActive, id)
  {
    if fetched.Ok? && !Empty(fetched.value) && fetched.value.Arr? {
      ImportSettles(refused, ps, wooActive, wp, media, viaDb, canDownload, id, full, updateExisting, cats, attrs, slugMap);
    }
  }
}
