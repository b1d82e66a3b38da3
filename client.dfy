/** Presa_Prestashop_Client: the PrestaShop Webservice client. The client
    is immutable after construction; every request goes through the
    network oracle, and each operation reports the requests it sent. */
module PrestaClient {
  import opened Common
  import opened Php
  import opened Http
  import Text
  import FieldNormalizer

  datatype ApiMode = Api | Dispatcher

  /** The base URL (no trailing '/'), the Webservice key, the URL layout,
      and the collaborators the client calls. */
  datatype Client = Client(baseUrl: string, apiKey: string, mode: ApiMode, net: Net, wp: Wp)

  /** The result of an operation together with the requests it sent. */
  datatype Fetched<T> = Fetched(result: T, sent: seq<Url>)

  const ApiErrorCode := "presa_api_error"
  const JsonErrorCode := "presa_json_error"
  const JsonErrorMessage := "Neispravan JSON odgovor od API-ja."
  const PageSize := 250
  const MaxPages := 40

  /** __construct: trailing slashes are dropped from the base URL, and any
      mode other than "dispatcher" means the standard /api/ layout. */
  function NewClient(baseUrl: string, apiKey: string, apiMode: string, net: Net, wp: Wp): (c: Client)
    ensures c.mode == Dispatcher <==> apiMode == "dispatcher"
    ensures c.apiKey == apiKey && c.net == net && c.wp == wp
    ensures |c.baseUrl| <= |baseUrl| && baseUrl[..|c.baseUrl|] == c.baseUrl
    ensures c.baseUrl == [] || c.baseUrl[|c.baseUrl| - 1] != '/'
    ensures forall i :: |c.baseUrl| <= i < |baseUrl| ==> baseUrl[i] == '/'
  {
    Client(Text.RTrimChar(baseUrl, '/'), apiKey, if apiMode == "dispatcher" then Dispatcher else Api, net, wp)
  }

  /** build_url */
  function BuildUrl(c: Client, path: string, params: seq<(string, string)>): Url {
    var p := Text.LTrimChar(path, '/');
    var ps := SetParam(SetParam(params, "ws_key", c.apiKey), "output_format", "JSON");
    if c.mode == Dispatcher then Url(c.baseUrl + "/webservice/dispatcher.php", SetParam(ps, "url", p))
    else Url(c.baseUrl + "/api/" + p, ps)
  }

  /** Every URL carries the key and output_format=JSON; in dispatcher mode
      the path travels in the `url` parameter, otherwise it follows /api/;
      the caller's other parameters are kept. */
  lemma BuildUrlSpec(c: Client, path: string, params: seq<(string, string)>)
    ensures var u := BuildUrl(c, path, params);
      && ParamOf(u.params, "ws_key") == Some(c.apiKey)
      && ParamOf(u.params, "output_format") == Some("JSON")
      && (c.mode == Dispatcher ==>
            u.address == c.baseUrl + "/webservice/dispatcher.php"
            && ParamOf(u.params, "url") == Some(Text.LTrimChar(path, '/')))
      && (c.mode == Api ==> u.address == c.baseUrl + "/api/" + Text.LTrimChar(path, '/'))
      && forall k :: k != "ws_key" && k != "output_format" && (c.mode == Dispatcher ==> k != "url")
           ==> ParamOf(u.params, k) == ParamOf(params, k)
  {
    var p := Text.LTrimChar(path, '/');
    var ps1 := SetParam(params, "ws_key", c.apiKey);
    var ps := SetParam(ps1, "output_format", "JSON");
    ParamOfSetSame(params, "ws_key", c.apiKey);
    ParamOfSetOther(ps1, "output_format", "JSON", "ws_key");
    ParamOfSetSame(ps1, "output_format", "JSON");
    if c.mode == Dispatcher {
      ParamOfSetOther(ps, "url", p, "ws_key");
      ParamOfSetOther(ps, "url", p, "output_format");
      ParamOfSetSame(ps, "url", p);
    }
    forall k | k != "ws_key" && k != "output_format" && (c.mode == Dispatcher ==> k != "url")
      ensures ParamOf(BuildUrl(c, path, params).params, k) == ParamOf(params, k)
    {
      ParamOfSetOther(params, "ws_key", c.apiKey, k);
      ParamOfSetOther(ps1, "output_format", "JSON", k);
      if c.mode == Dispatcher {
        ParamOfSetOther(ps, "url", p, k);
      }
    }
  }

  /** The first 200 characters of a body. */
  function Snippet(body: string): (r: string)
    ensures |r| <= 200 && |r| <= |body| && r == body[..|r|]
    ensures |body| <= 200 ==> r == body
    ensures |r| == if |body| <= 200 then |body| else 200
  {
    if |body| <= 200 then body else body[..200]
  }

  function ApiErrorMessage(wp: Wp, code: int, body: string): string {
    "API greška: " + Text.IntToString(code) + ". " + wp.stripAllTags(Snippet(body))
  }

  /** get: a transport error is passed on; a status of 400 or more is
      presa_api_error with the code and a body snippet in the message; a
      body that does not decode is presa_json_error; otherwise the decoded
      data. */
  function Get(wp: Wp, resp: Response): (r: Result<Val>)
    ensures r.Ok? <==> resp.Reply? && resp.code < 400 && resp.json.Some?
    ensures r.Ok? ==> r.value == resp.json.value
    ensures resp.Failed? ==> r == Err(resp.error)
    ensures resp.Reply? && resp.code >= 400 ==>
      r.Err? && r.error.code == ApiErrorCode
      && Text.Contains(r.error.message, Text.IntToString(resp.code))
    ensures resp.Reply? && resp.code < 400 && resp.json.None? ==>
      r == Err(WpError(JsonErrorCode, JsonErrorMessage))
  {
    match resp
    case Failed(e) => Err(e)
    case Reply(code, body, json) =>
      if code >= 400 then
        Text.ContainsConcat("API greška: ", Text.IntToString(code), ". " + wp.stripAllTags(Snippet(body)));
        assert ApiErrorMessage(wp, code, body)
            == "API greška: " + Text.IntToString(code) + (". " + wp.stripAllTags(Snippet(body)));
        Err(WpError(ApiErrorCode, ApiErrorMessage(wp, code, body)))
      else if json.None? then Err(WpError(JsonErrorCode, JsonErrorMessage))
      else Ok(json.value)
  }

  /** One GET through the network. */
  function Request(c: Client, u: Url): Result<Val> {
    Get(c.wp, c.net(u))
  }

  /** test_connection: None when the probe request succeeds. */
  function TestConnection(c: Client): (r: Fetched<Option<WpError>>)
    ensures |r.sent| == 1
    ensures r.result.None? <==> Request(c, r.sent[0]).Ok?
    ensures r.result.Some? ==> Request(c, r.sent[0]) == Err(r.result.value)
  {
    var u := BuildUrl(c, "products", [("display", "full"), ("limit", "1")]);
    var d := Request(c, u);
    Fetched(if d.Ok? then None else Some(d.error), [u])
  }

  // ---------------------------------------------------------------------
  // Response shapes

  /** parse_products_to_list: the product entries of a response, whether
      they sit under products or prestashop.products, under a `product`
      key or not, as a list or as one object. */
  function ParseProductsToList(data: Val): (r: seq<Val>)
    ensures !data.Arr? ==> r == []
  {
    var products0 := Field(data, "products");
    var wrapped := Field(Field(data, "prestashop"), "products");
    var products :=
      if (Empty(products0) || !products0.Arr?) && !Empty(wrapped) && wrapped.Arr? then wrapped else products0;
    if Empty(products) || !products.Arr? then []
    else
      var list := if FieldSet(products, "product") then Field(products, "product") else products;
      if !list.Arr? then []
      else if FieldSet(list, "id") && !HasKey(list, IntKey(0)) then [list]
      else Values(list)
  }

  /** is_products_response_empty */
  predicate IsProductsResponseEmpty(data: Val) {
    ParseProductsToList(if data.Arr? then data else Arr([])) == []
  }

  /** A JSON list of products under `products` comes back as it is. */
  lemma ParseList(ps: seq<Val>)
    requires ps != []
    ensures ParseProductsToList(Arr([(StrKey("products"), List(ps))])) == ps
  {
    var data := Arr([(StrKey("products"), List(ps))]);
    assert Field(data, "products") == List(ps);
    assert Lookup(List(ps).entries, StrKey("product")).None?;
    assert List(ps).entries[0].0 == IntKey(0);
  }

  /** A list under products.product comes back as it is. */
  lemma ParseProductKeyList(ps: seq<Val>)
    requires ps != []
    ensures ParseProductsToList(Arr([(StrKey("products"), Arr([(StrKey("product"), List(ps))]))])) == ps
  {
    var inner := Arr([(StrKey("product"), List(ps))]);
    var data := Arr([(StrKey("products"), inner)]);
    assert Field(data, "products") == inner;
    assert Field(inner, "product") == List(ps);
    assert List(ps).entries[0].0 == IntKey(0);
  }

  /** A single product object (an id and no key 0) becomes a one-element list. */
  lemma ParseSingleObject(obj: Val)
    requires obj.Arr? && FieldSet(obj, "id") && !HasKey(obj, IntKey(0))
    ensures ParseProductsToList(Arr([(StrKey("products"), Arr([(StrKey("product"), obj)]))])) == [obj]
  {
    var inner := Arr([(StrKey("product"), obj)]);
    var data := Arr([(StrKey("products"), inner)]);
    assert Field(data, "products") == inner;
    assert Field(inner, "product") == obj;
  }

  /** The prestashop wrapper is transparent. */
  lemma ParsePrestashopWrapper(p: Val)
    ensures ParseProductsToList(Arr([(StrKey("prestashop"), Arr([(StrKey("products"), p)]))]))
         == ParseProductsToList(Arr([(StrKey("products"), p)]))
  {
    var inner := Arr([(StrKey("products"), p)]);
    var outer := Arr([(StrKey("prestashop"), inner)]);
    assert Field(outer, "products") == Null;
    assert Field(outer, "prestashop") == inner;
    assert Field(inner, "products") == p;
    assert Field(inner, "prestashop") == Null;
    assert Field(Null, "products") == Null;
  }

  /** find_product_by_id_in_list: the first array item whose scalar id is
      exactly the target; the empty id never matches. */
  function FindProductByIdInList(items: seq<Val>, idStr: string): (r: Option<Val>)
    ensures r.Some? ==> (r.value.Arr? && idStr != ""
      && FieldNormalizer.GetProductIdScalar(r.value) == idStr
      && exists i :: 0 <= i < |items| && items[i] == r.value
           && forall j :: 0 <= j < i ==> !Matches(items[j], idStr))
    ensures r.None? ==> forall i :: 0 <= i < |items| ==> !Matches(items[i], idStr)
  {
    if items == [] then None
    else if Matches(items[0], idStr) then Some(items[0])
    else
      var r := FindProductByIdInList(items[1..], idStr);
      assert r.Some? ==>
        exists i :: 1 <= i < |items| && items[i] == r.value
          && forall j :: 0 <= j < i ==> !Matches(items[j], idStr) by {
        if r.Some? {
          var i :| 0 <= i < |items[1..]| && items[1..][i] == r.value
                   && forall j :: 0 <= j < i ==> !Matches(items[1..][j], idStr);
          assert items[i + 1] == items[1..][i];
          forall j | 0 < j < i + 1 ensures !Matches(items[j], idStr) {
            assert items[j] == items[1..][j - 1];
          }
        }
      }
      r
  }

  predicate Matches(p: Val, idStr: string) {
    p.Arr? && FieldNormalizer.GetProductIdScalar(p) != "" && FieldNormalizer.GetProductIdScalar(p) == idStr
  }

  // ---------------------------------------------------------------------
  // The product list page

  datatype ListItem = ListItem(id: Val, name: Val, reference: Val, price: Val, active: Val)
  datatype ListPage = ListPage(products: seq<ListItem>, hasMore: bool)

  function ClampListLimit(limit: int): (r: int)
    ensures 1 <= r <= PageSize
    ensures 1 <= limit <= PageSize ==> r == limit
    ensures limit < 1 ==> r == 1
    ensures limit > PageSize ==> r == PageSize
  {
    if limit < 1 then 1 else if limit > PageSize then PageSize else limit
  }

  function ClampOffset(offset: int): (r: nat)
    ensures offset >= 0 ==> r == offset
    ensures offset < 0 ==> r == 0
  {
    if offset < 0 then 0 else offset
  }

  function LimitParam(offset: int, limit: int): string {
    Text.IntToString(offset) + "," + Text.IntToString(limit)
  }

  function ListPageUrl(c: Client, offset: int, limit: int, sorted: bool): Url {
    BuildUrl(c, "products",
      [("display", "[id,name,reference,price,active]")]
      + (if sorted then [("sort", "[id_ASC]")] else [])
      + [("limit", LimitParam(offset, limit))])
  }

  /** The raw product entries a list page counts and walks over. */
  function RawProducts(data: Val): seq<Val> {
    var raw := if FieldSet(data, "products") then Field(data, "products") else Arr([]);
    if FieldSet(raw, "product") && Field(raw, "product").Arr? then Values(Field(raw, "product"))
    else if raw.Arr? then Values(raw)
    else []
  }

  /** The display name of a list entry: the first translation (or its
      `value`) of a multilingual name, else a non-empty plain name. */
  function ListName(n: Val): Val {
    if !Empty(n) && n.Arr? then
      var first := Reset(n);
      if first.Arr? && FieldSet(first, "value") then Field(first, "value") else first
    else if !Empty(n) then n
    else Str("")
  }

  function ListItemOf(p: Val): ListItem {
    ListItem(
      Coalesce(Field(p, "id"), Str("")),
      ListName(Field(p, "name")),
      Coalesce(Field(p, "reference"), Str("")),
      Coalesce(Field(p, "price"), Str("")),
      Coalesce(Field(p, "active"), Str("1")))
  }

  /** The list entries for the array-valued products, in order. */
  function ListItems(ps: seq<Val>): (r: seq<ListItem>)
    ensures |r| <= |ps|
  {
    if ps == [] then []
    else
      var last := ps[|ps| - 1];
      ListItems(ps[..|ps| - 1]) + (if last.Arr? then [ListItemOf(last)] else [])
  }

  /** When every entry is an array, each one gives exactly one list item,
      in the same position. */
  lemma {:induction false} ListItemsAllArrays(ps: seq<Val>)
    requires forall i :: 0 <= i < |ps| ==> ps[i].Arr?
    ensures |ListItems(ps)| == |ps|
    ensures forall i :: 0 <= i < |ps| ==> ListItems(ps)[i] == ListItemOf(ps[i])
  {
    if ps != [] {
      var init := ps[..|ps| - 1];
      ListItemsAllArrays(init);
      var r := ListItems(ps);
      assert r == ListItems(init) + [ListItemOf(ps[|ps| - 1])];
      forall i | 0 <= i < |ps| ensures r[i] == ListItemOf(ps[i]) {
        if i < |init| {
          assert r[i] == ListItems(init)[i] == ListItemOf(init[i]);
        }
      }
    }
  }

  /** get_products_list_page: limit clamped to [1, 250], offset to >= 0,
      sent as "offset,limit"; an empty sorted answer is retried exactly once
      without sort; has_more iff the raw entry count equals the limit. */
  method GetProductsListPage(c: Client, offset: int, limit: int) returns (r: Result<ListPage>, sent: seq<Url>)
    ensures var off := ClampOffset(offset); var lim := ClampListLimit(limit);
      && 1 <= |sent| <= 2
      && sent[0] == ListPageUrl(c, off, lim, true)
      && (|sent| == 2 <==> Request(c, sent[0]).Ok? && IsProductsResponseEmpty(Request(c, sent[0]).value))
      && (|sent| == 2 ==> sent[1] == ListPageUrl(c, off, lim, false))
      && var last := Request(c, sent[|sent| - 1]);
         && (last.Err? ==> r == Err(last.error))
         && (last.Ok? ==> r == Ok(ListPage(ListItems(RawProducts(last.value)),
                                            |RawProducts(last.value)| == lim)))
  {
    var lim := ClampListLimit(limit);
    var off := ClampOffset(offset);
    var u := ListPageUrl(c, off, lim, true);
    sent := [u];
    var data := Request(c, u);
    if data.Err? {
      return Err(data.error), sent;
    }
    if IsProductsResponseEmpty(data.value) {
      var u2 := ListPageUrl(c, off, lim, false);
      sent := [u, u2];
      data := Request(c, u2);
    }
    if data.Err? {
      return Err(data.error), sent;
    }
    var products := RawProducts(data.value);
    var out := CollectListItems(products);
    r := Ok(ListPage(out, |products| == lim));
  }

  /** The list loop: one item per array entry, in order; other entries are
      skipped. */
  method CollectListItems(products: seq<Val>) returns (out: seq<ListItem>)
    ensures out == ListItems(products)
  {
    out := [];
    var i := 0;
    while i < |products|
      invariant 0 <= i <= |products|
      invariant out == ListItems(products[..i])
    {
      var p := products[i];
      assert products[..i + 1][..i] == products[..i];
      if p.Arr? {
        out := out + [ListItemOf(p)];
      }
      i := i + 1;
    }
    assert products[..|products|] == products;
  }

  // ---------------------------------------------------------------------
  // Raw product fetch with fallbacks

  function DirectUrl(c: Client, id: int): Url {
    BuildUrl(c, "products/" + Text.IntToString(id), [("display", "full")])
  }

  function FilterValue(id: int): string {
    "[" + Text.IntToString(id) + "]"
  }

  /** The dispatcher URL that carries the whole filtered query in `url`. */
  function DispatcherFilterUrl(c: Client, id: int): Url {
    Url(c.baseUrl + "/webservice/dispatcher.php",
      [("url", "products?display=full&limit=0,1&filter[id]=" + c.wp.rawUrlEncode(FilterValue(id))),
       ("ws_key", c.apiKey),
       ("output_format", "JSON")])
  }

  function FilterUrl(c: Client, id: int): Url {
    BuildUrl(c, "products", [("display", "full"), ("limit", "0,1"), ("filter[id]", FilterValue(id))])
  }

  function FirstPageUrl(c: Client, sorted: bool): Url {
    BuildUrl(c, "products",
      [("display", "full")] + (if sorted then [("sort", "[id_ASC]")] else []) + [("limit", "0,250")])
  }

  /** The fallback requests, in the order they are tried. */
  function FallbackUrls(c: Client, id: int): (r: seq<Url>)
    ensures |r| == if c.mode == Dispatcher then 4 else 3
    ensures r[|r| - 1] == FirstPageUrl(c, false)
  {
    (if c.mode == Dispatcher then [DispatcherFilterUrl(c, id)] else [])
      + [FilterUrl(c, id), FirstPageUrl(c, true), FirstPageUrl(c, false)]
  }

  /** A response that holds at least one product entry. */
  predicate Usable(r: Result<Val>) {
    r.Ok? && !IsProductsResponseEmpty(r.value)
  }

  /** Tries each request in turn and stops at the first usable answer; the
      last request's answer is returned whatever it is. */
  function TryInOrder(c: Client, urls: seq<Url>): (f: Fetched<Result<Val>>)
    requires |urls| >= 1
    ensures 1 <= |f.sent| <= |urls| && f.sent == urls[..|f.sent|]
    ensures f.result == Request(c, f.sent[|f.sent| - 1])
    ensures |f.sent| < |urls| ==> Usable(f.result)
    ensures forall i :: 0 <= i < |f.sent| - 1 ==> !Usable(Request(c, f.sent[i]))
  {
    var r := Request(c, urls[0]);
    if |urls| == 1 || Usable(r) then Fetched(r, [urls[0]])
    else
      var rest := TryInOrder(c, urls[1..]);
      var sent := [urls[0]] + rest.sent;
      assert sent == urls[..|sent|] by {
        assert rest.sent == urls[1..][..|rest.sent|] == urls[1..|sent|];
      }
      assert forall i :: 1 <= i < |sent| ==> sent[i] == rest.sent[i - 1];
      assert sent[0] == urls[0] && sent[|sent| - 1] == rest.sent[|rest.sent| - 1];
      Fetched(rest.result, sent)
  }

  /** get_product_raw: a successful direct GET is returned at once, and so
      is any error other than a presa_api_error whose message mentions
      404; otherwise the fallback requests are tried in order. */
  function GetProductRaw(c: Client, id: int): (f: Fetched<Result<Val>>)
    ensures |f.sent| >= 1 && f.sent[0] == DirectUrl(c, id)
    ensures var d := Request(c, DirectUrl(c, id));
      (d.Ok? || d.error.code != ApiErrorCode || !Text.Contains(d.error.message, "404"))
        <==> f == Fetched(d, [DirectUrl(c, id)])
    ensures |f.sent| <= 1 + |FallbackUrls(c, id)|
    ensures |f.sent| > 1 ==>
      && f.sent[1..] == FallbackUrls(c, id)[..|f.sent| - 1]
      && f.result == Request(c, f.sent[|f.sent| - 1])
      && (|f.sent| - 1 < |FallbackUrls(c, id)| ==> Usable(f.result))
  {
    var u := DirectUrl(c, id);
    var d := Request(c, u);
    if d.Ok? || d.error.code != ApiErrorCode || !Text.Contains(d.error.message, "404") then Fetched(d, [u])
    else
      var t := TryInOrder(c, FallbackUrls(c, id));
      assert ([u] + t.sent)[1..] == t.sent;
      Fetched(t.result, [u] + t.sent)
  }

  lemma IntToString404()
    ensures Text.IntToString(404) == "404"
  {
    assert Text.NatToString(4) == "4";
    assert Text.NatToString(40) == "40";
  }

  /** A 404 reply to the direct GET always starts the fallback chain. */
  lemma DirectNotFoundFallsBack(c: Client, id: int)
    requires c.net(DirectUrl(c, id)).Reply? && c.net(DirectUrl(c, id)).code == 404
    ensures |GetProductRaw(c, id).sent| >= 2
    ensures GetProductRaw(c, id).sent[1] == FallbackUrls(c, id)[0]
  {
    IntToString404();
    var f := GetProductRaw(c, id);
    assert f.sent != [DirectUrl(c, id)];
  }

  /** fetch_products_page */
  function PageUrl(c: Client, offset: int, limit: int, sorted: bool): Url {
    BuildUrl(c, "products",
      [("display", "full"), ("limit", LimitParam(offset, limit))]
      + (if sorted then [("sort", "[id_ASC]")] else []))
  }

  /** One page of full products; a sorted request that comes back empty is
      retried once without sort. */
  function FetchProductsPage(c: Client, offset: int, limit: int, sorted: bool): (f: Fetched<Result<Val>>)
    ensures 1 <= |f.sent| <= 2 && f.sent[0] == PageUrl(c, offset, limit, sorted)
    ensures |f.sent| == 2 <==>
      sorted && Request(c, f.sent[0]).Ok? && IsProductsResponseEmpty(Request(c, f.sent[0]).value)
    ensures |f.sent| == 2 ==> f.sent[1] == PageUrl(c, offset, limit, false)
    ensures f.result == Request(c, f.sent[|f.sent| - 1])
  {
    var u := PageUrl(c, offset, limit, sorted);
    var d := Request(c, u);
    if d.Ok? && sorted && IsProductsResponseEmpty(d.value) then
      var u2 := PageUrl(c, offset, limit, false);
      Fetched(Request(c, u2), [u, u2])
    else Fetched(d, [u])
  }

  /** get_category: the `category` entry of the answer, or an empty array. */
  function GetCategory(c: Client, id: int): (f: Fetched<Result<Val>>)
    ensures |f.sent| == 1
    ensures f.sent[0] == BuildUrl(c, "categories/" + Text.IntToString(id), [("display", "full")])
    ensures Request(c, f.sent[0]).Err? ==> f.result == Request(c, f.sent[0])
    ensures Request(c, f.sent[0]).Ok? ==> (f.result.Ok?
      && (FieldSet(Request(c, f.sent[0]).value, "category") ==> f.result.value == Field(Request(c, f.sent[0]).value, "category"))
      && (!FieldSet(Request(c, f.sent[0]).value, "category") ==> f.result.value == Arr([])))
  {
    var u := BuildUrl(c, "categories/" + Text.IntToString(id), [("display", "full")]);
    var d := Request(c, u);
    if d.Err? then Fetched(d, [u])
    else Fetched(Ok(if FieldSet(d.value, "category") then Field(d.value, "category") else Arr([])), [u])
  }

  /** get_product_image_url: the image resource of the product, carrying
      the key as it is in dispatcher mode and rawurlencoded in api mode. */
  function GetProductImageUrl(c: Client, productId: int, imageId: int): (u: Url)
    ensures c.mode == Dispatcher ==> ParamOf(u.params, "ws_key") == Some(c.apiKey)
    ensures c.mode == Api ==> ParamOf(u.params, "ws_key") == Some(c.wp.rawUrlEncode(c.apiKey))
    ensures c.mode == Dispatcher ==>
      u.address == c.baseUrl + "/webservice/dispatcher.php"
      && ParamOf(u.params, "url") == Some("images/products/" + Text.IntToString(productId) + "/" + Text.IntToString(imageId))
    ensures c.mode == Api ==>
      u.address == c.baseUrl + "/api/images/products/" + Text.IntToString(productId) + "/" + Text.IntToString(imageId)
  {
    if c.mode == Dispatcher then
      Url(c.baseUrl + "/webservice/dispatcher.php",
        [("url", "images/products/" + Text.IntToString(productId) + "/" + Text.IntToString(imageId)),
         ("ws_key", c.apiKey)])
    else
      Url(c.baseUrl + "/api/images/products/" + Text.IntToString(productId) + "/" + Text.IntToString(imageId),
        [("ws_key", c.wp.rawUrlEncode(c.apiKey))])
  }
}
