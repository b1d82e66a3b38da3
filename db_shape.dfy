/** How Presa_Prestashop_Db shapes query rows into the arrays the mapper
    reads: image paths, the list page, the category and image lists, the
    default image, manufacturer logo candidates and name, the attribute slug. */
module DbShape {
  import opened Common
  import opened Php
  import Text
  import Sql
  import Http
  import opened PrestaTables

  /** table_exists on the prefixed name of a reachable server. */
  predicate TableExists(srv: Server, prefix: string, table: string) {
    srv.connectError.None? && Exists(srv, prefix, table)
  }

  // ------------------------------------------------------------ image path

  /** `!$base_url`: PHP treats "" and "0" as false. */
  predicate Falsy(s: string) {
    s == "" || s == "0"
  }

  /** str_split then implode('/', ...): the digits with '/' between them. */
  function DigitPath(digits: string): string {
    Text.Join(Text.Chars(digits), "/")
  }

  /** get_image_url: "" for a non-positive id or a false base URL, else
      base/img/p/<digits joined by '/'>/<id>.jpg. */
  function ImageUrl(baseUrl: string, idImage: int): (r: string)
    ensures idImage <= 0 || Falsy(baseUrl) ==> r == ""
    ensures idImage > 0 && !Falsy(baseUrl) ==> Text.StartsWith(r, baseUrl + "/img/p/")
  {
    if idImage <= 0 || Falsy(baseUrl) then ""
    else baseUrl + "/img/p/" + DigitPath(Text.IntToString(idImage)) + "/" + Text.IntToString(idImage) + ".jpg"
  }

  /** The directory part has one level per digit: the digits at even
      positions, '/' between them. */
  lemma {:induction false} DigitPathShape(d: string)
    requires d != []
    ensures |DigitPath(d)| == 2 * |d| - 1
    ensures forall i :: 0 <= i < |d| ==> DigitPath(d)[2 * i] == d[i]
    ensures forall i :: 0 <= i < |d| - 1 ==> DigitPath(d)[2 * i + 1] == '/'
    decreases |d|
  {
    if |d| > 1 {
      DigitPathShape(d[1..]);
      var cs := Text.Chars(d);
      assert cs[1..] == Text.Chars(d[1..]);
      var rest := DigitPath(d[1..]);
      assert DigitPath(d) == [d[0]] + "/" + rest;
      forall i | 0 < i < |d| ensures DigitPath(d)[2 * i] == d[i] {
        assert DigitPath(d)[2 * i] == rest[2 * (i - 1)];
        assert d[1..][i - 1] == d[i];
      }
      forall i | 0 < i < |d| - 1 ensures DigitPath(d)[2 * i + 1] == '/' {
        assert DigitPath(d)[2 * i + 1] == rest[2 * (i - 1) + 1];
      }
    }
  }

  /** Image 42 is stored under img/p/4/2/42.jpg. */
  lemma ImageUrlExample()
    ensures ImageUrl("http://s", 42) == "http://s/img/p/4/2/42.jpg"
  {
    assert Text.IntToString(42) == "42";
    assert DigitPath("42") == "4/2" by {
      assert Text.Chars("42") == ["4", "2"];
    }
  }

  // ------------------------------------------------------------- list page

  datatype DbListItem = DbListItem(id: int, name: Val, reference: Val, price: Val, active: Val)
  datatype DbListPage = DbListPage(products: seq<DbListItem>, hasMore: bool)

  /** One list entry: empty name, reference and price become "", a NULL
      active flag becomes "1". */
  function ListItemOfRow(row: JoinRow): DbListItem {
    var name := if row.pl.Some? then row.pl.value.name else Null;
    DbListItem(row.p.idProduct, Elvis(name, Str("")), Elvis(row.p.reference, Str("")), Elvis(row.p.price, Str("")),
               if row.p.active != Null then row.p.active else Str("1"))
  }

  /** The page from the limit + 1 rows fetched: at most `limit` entries, in
      row order; has_more iff more than `limit` rows came back. */
  function ListPageOf(rows: seq<JoinRow>, limit: nat): (r: DbListPage)
    ensures |r.products| == if |rows| > limit then limit else |rows|
    ensures r.hasMore <==> |rows| > limit
    ensures forall i :: 0 <= i < |r.products| ==> r.products[i] == ListItemOfRow(rows[i])
  {
    var n := if |rows| > limit then limit else |rows|;
    DbListPage(seq(n, i requires 0 <= i < n => ListItemOfRow(rows[i])), |rows| > limit)
  }

  /** The array_slice and foreach over the fetched rows. */
  method ShapeListRows(rows: seq<JoinRow>, limit: nat) returns (page: DbListPage)
    ensures page == ListPageOf(rows, limit)
  {
    var hasMore := |rows| > limit;
    var kept := if hasMore then rows[..limit] else rows;
    var products: seq<DbListItem> := [];
    var i := 0;
    while i < |kept|
      invariant 0 <= i <= |kept|
      invariant |products| == i
      invariant forall k :: 0 <= k < i ==> products[k] == ListItemOfRow(rows[k])
    {
      products := products + [ListItemOfRow(kept[i])];
      i := i + 1;
    }
    page := DbListPage(products, hasMore);
  }

  // ------------------------------------------------------------ categories

  /** The category ids in row order, then the default category when it is
      positive and not among them. */
  function CategoryList(rows: seq<CategoryProductRow>, defaultCat: int): (r: seq<int>)
    ensures |rows| <= |r| <= |rows| + 1
    ensures forall i :: 0 <= i < |rows| ==> r[i] == rows[i].idCategory
    ensures |r| == |rows| + 1 <==> defaultCat > 0 && forall i :: 0 <= i < |rows| ==> rows[i].idCategory != defaultCat
    ensures |r| == |rows| + 1 ==> r[|rows|] == defaultCat
    ensures defaultCat > 0 ==> defaultCat in r
  {
    var ids := seq(|rows|, i requires 0 <= i < |rows| => rows[i].idCategory);
    if defaultCat > 0 && defaultCat !in ids then ids + [defaultCat] else ids
  }

  /** The category loop of get_product. */
  method CollectCategories(rows: seq<CategoryProductRow>, defaultCat: int) returns (cats: seq<int>)
    ensures cats == CategoryList(rows, defaultCat)
  {
    cats := [];
    var i := 0;
    while i < |rows|
      invariant 0 <= i <= |rows|
      invariant cats == seq(i, k requires 0 <= k < i => rows[k].idCategory)
    {
      cats := cats + [rows[i].idCategory];
      i := i + 1;
    }
    if defaultCat > 0 && defaultCat !in cats {
      cats := cats + [defaultCat];
    }
  }

  /** A list of {"id": n} entries. */
  function IdEntries(ids: seq<int>): (r: Val)
    ensures Values(r) == seq(|ids|, i requires 0 <= i < |ids| => Arr([(StrKey("id"), Int(ids[i]))]))
  {
    List(seq(|ids|, i requires 0 <= i < |ids| => Arr([(StrKey("id"), Int(ids[i]))])))
  }

  // ---------------------------------------------------------------- images

  /** The non-empty strings of xs, in order. */
  function NonEmpty(xs: seq<string>): (r: seq<string>)
    ensures |r| <= |xs|
    ensures forall i :: 0 <= i < |r| ==> r[i] != ""
  {
    if xs == [] then []
    else NonEmpty(xs[..|xs| - 1]) + (if xs[|xs| - 1] != "" then [xs[|xs| - 1]] else [])
  }

  /** Without empty strings, nothing is left out. */
  lemma {:induction false} NonEmptyKeepsAll(xs: seq<string>)
    requires forall i :: 0 <= i < |xs| ==> xs[i] != ""
    ensures NonEmpty(xs) == xs
    decreases |xs|
  {
    if xs != [] {
      var n := |xs| - 1;
      var front := xs[..n];
      assert forall i :: 0 <= i < n ==> front[i] == xs[i];
      NonEmptyKeepsAll(front);
      assert NonEmpty(xs) == front + [xs[n]];
      assert front + [xs[n]] == xs;
    }
  }

  /** The URL of every row, empty or not. */
  function RowUrls(baseUrl: string, rows: seq<ImageRow>): (r: seq<string>)
    ensures |r| == |rows|
  {
    seq(|rows|, i requires 0 <= i < |rows| => ImageUrl(baseUrl, rows[i].idImage))
  }

  /** The image URLs of the rows, in order; an empty URL is left out. */
  function ImageUrls(baseUrl: string, rows: seq<ImageRow>): (r: seq<string>)
    ensures |r| <= |rows|
    ensures forall i :: 0 <= i < |r| ==> r[i] != ""
  {
    NonEmpty(RowUrls(baseUrl, rows))
  }

  /** With a usable base URL and positive ids, every image has its URL. */
  lemma ImageUrlsComplete(baseUrl: string, rows: seq<ImageRow>)
    requires !Falsy(baseUrl) && forall i :: 0 <= i < |rows| ==> rows[i].idImage > 0
    ensures |ImageUrls(baseUrl, rows)| == |rows|
    ensures forall i :: 0 <= i < |rows| ==> ImageUrls(baseUrl, rows)[i] == ImageUrl(baseUrl, rows[i].idImage)
  {
    var xs := RowUrls(baseUrl, rows);
    forall i | 0 <= i < |rows| ensures xs[i] != "" {
      assert Text.StartsWith(ImageUrl(baseUrl, rows[i].idImage), baseUrl + "/img/p/");
    }
    NonEmptyKeepsAll(xs);
  }

  /** The image loop of get_product: the ids in row order, and the URLs. */
  method CollectImages(baseUrl: string, rows: seq<ImageRow>) returns (ids: seq<int>, urls: seq<string>)
    ensures ids == seq(|rows|, i requires 0 <= i < |rows| => rows[i].idImage)
    ensures urls == ImageUrls(baseUrl, rows)
  {
    ids := seq(|rows|, i requires 0 <= i < |rows| => rows[i].idImage);
    urls := CollectImageUrls(baseUrl, rows);
  }

  method CollectImageUrls(baseUrl: string, rows: seq<ImageRow>) returns (urls: seq<string>)
    ensures urls == ImageUrls(baseUrl, rows)
  {
    ghost var xs := RowUrls(baseUrl, rows);
    urls := [];
    var i := 0;
    while i < |rows|
      invariant 0 <= i <= |rows|
      invariant urls == NonEmpty(xs[..i])
    {
      assert xs[..i + 1][..i] == xs[..i];
      var u := ImageUrl(baseUrl, rows[i].idImage);
      if u != "" {
        urls := urls + [u];
      }
      i := i + 1;
    }
    assert xs[..|rows|] == xs;
  }

  /** id_default_image: null without images, else the cover image when the
      cover query finds one, else the first image. */
  function DefaultImage(ids: seq<int>, cover: Option<int>): (r: Val)
    ensures r == Null <==> ids == []
    ensures ids != [] ==> r == Int(if cover.Some? then cover.value else ids[0])
  {
    if ids == [] then Null
    else if cover.Some? then Int(cover.value)
    else Int(ids[0])
  }

  /** The default image of a product is one of its images, and it is a
      cover image whenever the product has one. */
  lemma DefaultImageOfProduct(srv: Server, prefix: string, id: int)
    ensures var rows := ImageRows(srv, prefix, id);
      var d := DefaultImage(seq(|rows|, i requires 0 <= i < |rows| => rows[i].idImage), CoverImage(srv, prefix, id));
      (d != Null ==> exists im :: im in srv.rows.image && im.idProduct == id && d == Int(im.idImage))
      && (d != Null && (exists im :: im in srv.rows.image && im.idProduct == id && im.cover == 1) ==>
            exists im :: im in srv.rows.image && im.idProduct == id && im.cover == 1 && d == Int(im.idImage))
  {
    var rows := ImageRows(srv, prefix, id);
    var cover := CoverImage(srv, prefix, id);
    if rows != [] && cover.None? {
      var m := Sql.Filter(srv.rows.image, (im: ImageRow) => im.idProduct == id);
      assert rows[0] in multiset(m);
      assert rows[0] in srv.rows.image;
    }
  }

  // ---------------------------------------------------------- manufacturer

  /** The logo candidates: /img/m/<id>.jpg then .png, only for a positive
      manufacturer id and a non-empty base URL. */
  function LogoUrls(baseUrl: string, idMan: int): (r: seq<string>)
    ensures r == [] <==> idMan <= 0 || baseUrl == ""
    ensures r != [] ==>
      (|r| == 2
       && r[0] == Text.RTrimChar(baseUrl, '/') + "/img/m/" + Text.IntToString(idMan) + ".jpg"
       && r[1] == Text.RTrimChar(baseUrl, '/') + "/img/m/" + Text.IntToString(idMan) + ".png")
  {
    if idMan <= 0 || baseUrl == "" then []
    else
      var stem := Text.RTrimChar(baseUrl, '/') + "/img/m/" + Text.IntToString(idMan);
      [stem + ".jpg", stem + ".png"]
  }

  /** A name row counts when it is set and not blank. */
  function NameIfSet(v: Option<Val>): string {
    if v.Some? && v.value != Null then Text.Trim(ToStr(v.value)) else ""
  }

  lemma NameIfSetTrimmed(v: Option<Val>)
    ensures Text.Trimmed(NameIfSet(v))
  {
    if v.Some? && v.value != Null {
      Text.TrimSpec(ToStr(v.value));
    }
  }

  /** get_manufacturer_name: the trimmed manufacturer name; when blank, the
      trimmed manufacturer_lang name for the language, if that table
      exists and the name is not blank. */
  function ManufacturerName(srv: Server, prefix: string, idMan: int, lang: int): (r: string)
    ensures Text.Trimmed(r)
    ensures NameIfSet(ManufacturerRowName(srv, prefix, idMan)) != "" ==> r == NameIfSet(ManufacturerRowName(srv, prefix, idMan))
    ensures r != "" && NameIfSet(ManufacturerRowName(srv, prefix, idMan)) == "" ==>
      lang > 0 && TableExists(srv, prefix, "manufacturer_lang") && r == NameIfSet(ManufacturerLangName(srv, prefix, idMan, lang))
  {
    var name := NameIfSet(ManufacturerRowName(srv, prefix, idMan));
    NameIfSetTrimmed(ManufacturerRowName(srv, prefix, idMan));
    if name == "" && lang > 0 && TableExists(srv, prefix, "manufacturer_lang") then
      var alt := NameIfSet(ManufacturerLangName(srv, prefix, idMan, lang));
      NameIfSetTrimmed(ManufacturerLangName(srv, prefix, idMan, lang));
      if alt != "" then alt else name
    else name
  }

  // ------------------------------------------------------------- language

  /** The configured-language name is usable when set and not blank. */
  predicate NameOk(row: JoinRow) {
    row.pl.Some? && row.pl.value.name != Null && Text.Trim(ToStr(row.pl.value.name)) != ""
  }

  /** name, description and description_short: from the configured
      language row when its name is usable, else from the fallback row
      (unset columns as ""), else as they were. */
  function LangColumns(row: JoinRow, fallback: Option<LangRow>): (r: (Val, Val, Val))
    ensures NameOk(row) ==> r == (row.pl.value.name, row.pl.value.description, row.pl.value.descriptionShort)
    ensures !NameOk(row) && fallback.Some? ==>
      r == (Coalesce(fallback.value.name, Str("")), Coalesce(fallback.value.description, Str("")),
            Coalesce(fallback.value.descriptionShort, Str("")))
  {
    var own := if row.pl.Some? then (row.pl.value.name, row.pl.value.description, row.pl.value.descriptionShort)
               else (Null, Null, Null);
    if NameOk(row) || fallback.None? then own
    else
      var fb := fallback.value;
      (if fb.name != Null then fb.name else Str(""),
       if fb.description != Null then fb.description else Str(""),
       if fb.descriptionShort != Null then fb.descriptionShort else Str(""))
  }

  // ------------------------------------------------------------ attributes

  /** normalize_attr_slug: "pa_" and the sanitized name, "option" when that
      is empty or "0". */
  function NormalizeAttrSlug(wp: Http.Wp, groupName: string): (r: string)
    ensures |r| > 3 && r[..3] == "pa_"
    ensures r[3..] != "" && r[3..] != "0"
    ensures !Falsy(wp.sanitizeTitle(groupName)) ==> r[3..] == wp.sanitizeTitle(groupName)
  {
    var slug := wp.sanitizeTitle(groupName);
    "pa_" + (if Falsy(slug) then "option" else slug)
  }
}
