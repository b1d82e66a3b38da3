/** Presa_Migrate_Runner: one batch of the migration, id by id: fetch the
    product from PrestaShop, normalize it, look for the WooCommerce
    product that already stands for it, upload its images, and create or
    update it through the mapper. */
module BatchRunner {
  import opened Common
  import opened Php
  import Text
  import Http
  import DbShape
  import WcStore
  import MapperRules
  import ProductRules
  import ProductMapper
  import PrestaClient
  import ProductLookup
  import PrestaDb
  import DbCombinations
  import opened RunnerRules

  /** The data source: the webservice client or the direct database reader. */
  datatype Source = Api(client: PrestaClient.Client) | Database(db: PrestaDb.Db)

  /** The objects a source updates: the database reader caches its shop id. */
  function SourceObjects(s: Source): set<object> {
    if s.Database? then {s.db} else {}
  }

  /** What run_batch relies on in get_product's answer for id: the
      database reader fails only without a connection and otherwise
      answers an array; the client passes on the error of its direct
      request, and otherwise answers an array. */
  ghost predicate FetchedBy(s: Source, id: int, r: Result<Val>) {
    match s
    case Database(db) =>
      && (db.srv.connectError.Some? ==> r == Err(WpError("db_connect", db.srv.connectError.value)))
      && (db.srv.connectError.None? ==> r.Ok? && r.value.Arr?)
    case Api(c) =>
      var raw := PrestaClient.GetProductRaw(c, id).result;
      (raw.Err? ==> r == raw) && (raw.Ok? ==> r.Ok? && r.value.Arr?)
  }

  /** Whether the payload has no combinations the runner can see. */
  predicate NoCombinations(full: Val) {
    var cs := Field(full, "combinations");
    !cs.Arr? || Empty(cs)
  }

  /** Whether run_batch loads combinations for id: the database reader
      has some and the normalized payload has none. */
  predicate LoadsCombinations(s: Source, id: int, full: Val) {
    s.Database? && PrestaDb.HasCombinations(s.db.srv, s.db.settings.prefix, id) && NoCombinations(full)
  }

  /** normalize_product, then the combinations combos when the runner
      loads them. */
  function Prepared(s: Source, id: int, fetched: Val, combos: seq<DbCombinations.Combo>): (r: Val)
  {
    var full := NormalizeProduct(fetched, id);
    if LoadsCombinations(s, id, full) then SetField(full, "combinations", PrestaDb.ComboList(combos)) else full
  }

  /** The lazy load sets only the combinations, and only for a database
      source that has some while the payload has none. */
  lemma PreparedFields(s: Source, id: int, fetched: Val, combos: seq<DbCombinations.Combo>, name: string)
    ensures var full := NormalizeProduct(fetched, id);
      && (name != "combinations" || !LoadsCombinations(s, id, full) ==> Field(Prepared(s, id, fetched, combos), name) == Field(full, name))
      && (LoadsCombinations(s, id, full) ==> Field(Prepared(s, id, fetched, combos), "combinations") == PrestaDb.ComboList(combos))
  {
    var full := NormalizeProduct(fetched, id);
    if LoadsCombinations(s, id, full) {
      GetSet(full, StrKey("combinations"), PrestaDb.ComboList(combos), StrKey(name));
      GetSet(full, StrKey("combinations"), PrestaDb.ComboList(combos), StrKey("combinations"));
    }
  }

  /** What the runner knows of one id after it: the source's answer, the
      product it prepared, and what the mapper resolved. */
  datatype Trace = Trace(fetched: Result<Val>, combos: seq<DbCombinations.Combo>, full: Val, cats: seq<int>,
                         attrs: seq<WcStore.Attribute>, slugMap: map<(string, string), string>)

  class Runner {
    const source: Source
    const mapper: ProductMapper.Mapper

    /** The runner over a source; the mapper is built over the same source
        and WordPress site. */
    constructor (source: Source, store: WcStore.Store, categories: MapperRules.CategorySource, wp: Http.Wp, media: Http.Media)
      requires MapperRules.ChainsEnd(categories)
      ensures this.source == source && fresh(mapper)
      ensures mapper.store == store && mapper.categories == categories && mapper.viaDb == source.Database?
      ensures mapper.wp == wp && mapper.media == media
      ensures Valid()
    {
      this.source := source;
      mapper := new ProductMapper.Mapper(store, categories, source.Database?, wp, media);
    }

    ghost predicate Valid()
      reads this, mapper, mapper.store
    {
      mapper.Valid() && MapperRules.ChainsEnd(mapper.categories)
    }

    /** cats are the categories the mapper resolved for product and, for a
        variable product, attrs and slugMap the attributes it built. */
    twostate predicate Resolved(product: Val, cats: seq<int>, new attrs: seq<WcStore.Attribute>,
                                new slugMap: map<(string, string), string>)
      reads this, mapper, mapper.store
    {
      && ProductMapper.TermsOf(cats, mapper.store.terms, ProductMapper.ProductCat) && mapper.CategoriesResolved(product, cats)
      && (MapperRules.KindFor(product) == WcStore.Variable ==>
            mapper.AttributesBuilt(product, MapperRules.ListField(product, "combinations") != [], attrs, slugMap))
    }

    /** The shop id of a database source. */
    function Shop(): Option<int>
      reads SourceObjects(source)
    {
      if source.Database? then source.db.Shop() else None
    }

    /** What the runner does with the source's answer for id: the
        products ps become ps' and the id ends as fate, for the trace t. */
    ghost predicate Handled(ps: seq<WcStore.Product>, id: nat, updateExisting: bool, t: Trace,
                            ps': seq<WcStore.Product>, fate: Fate)
    {
      && (t.fetched.Ok? && t.fetched.value.Arr? && !Empty(t.fetched.value)
          ==> t.full == Prepared(source, id, t.fetched.value, t.combos))
      && (ps', fate) == MigrateOutcome(mapper.store.refusedSaves, ps, mapper.store.wooActive, mapper.wp, mapper.media,
                                       mapper.viaDb, source.Api?, id, t.fetched, t.full, updateExisting,
                                       t.cats, t.attrs, t.slugMap)
    }

    /** get_product of the source. */
    method Fetch(id: int) returns (r: Result<Val>)
      modifies SourceObjects(source)
      ensures FetchedBy(source, id, r)
      ensures Shop() == old(Shop())
    {
      match source
      case Database(db) =>
        r := db.GetProduct(id);
      case Api(c) =>
        var sent;
        r, sent := ProductLookup.GetProduct(c, id);
    }

    /** normalize_product, then the lazy combinations of run_batch. */
    method Prepare(id: int, fetched: Val) returns (full: Val, combos: seq<DbCombinations.Combo>)
      modifies SourceObjects(source)
      ensures full == Prepared(source, id, fetched, combos)
      ensures Shop() == old(Shop())
    {
      full := NormalizeProduct(fetched, id);
      combos := [];
      if source.Database? && PrestaDb.HasCombinations(source.db.srv, source.db.settings.prefix, id) && NoCombinations(full) {
        combos := source.db.GetCombinationsForProduct(id);
        full := SetField(full, "combinations", PrestaDb.ComboList(combos));
      }
    }

    /** The image_urls loop of upload_product_images. */
    method UploadUrls(urls: seq<Val>) returns (ids: seq<int>)
      ensures ids == UrlUploads(mapper.wp, mapper.media, urls)
    {
      ids := [];
      var i := 0;
      while i < |urls|
        invariant 0 <= i <= |urls|
        invariant ids == UrlUploads(mapper.wp, mapper.media, urls[..i])
      {
        var url := mapper.wp.escUrlRaw(ToStr(urls[i]));
        if !DbShape.Falsy(url) && Http.ImageHead(mapper.media.head(url)) {
          var attachment := mapper.media.sideload(url);
          if attachment.Some? {
            ids := ids + [attachment.value];
          }
        }
        assert urls[..i + 1][..i] == urls[..i];
        i := i + 1;
      }
      assert urls[..|urls|] == urls;
    }

    /** The image ids of the API path: the default image, then each
        association image not listed yet. */
    method GatherImageIds(product: Val) returns (ids: seq<int>)
      ensures ids == ApiImageIds(product)
    {
      ids := DefaultImageIds(product);
      var imgs := AssocImages(product);
      var i := 0;
      while i < |imgs|
        invariant 0 <= i <= |imgs|
        invariant ids == CollectImageIds(DefaultImageIds(product), imgs[..i])
      {
        var iid := AssocImageId(imgs[i]);
        if iid != 0 && iid !in ids {
          ids := ids + [iid];
        }
        assert imgs[..i + 1][..i] == imgs[..i];
        i := i + 1;
      }
      assert imgs[..|imgs|] == imgs;
    }

    /** The download loop of the API path. */
    method DownloadImages(productId: int, ids: seq<int>) returns (attachments: seq<int>)
      ensures attachments == ApiUploads(mapper.media, productId, ids)
    {
      attachments := [];
      var i := 0;
      while i < |ids|
        invariant 0 <= i <= |ids|
        invariant attachments == ApiUploads(mapper.media, productId, ids[..i])
      {
        var attachment := mapper.media.sideloadApiImage(productId, ids[i]);
        if attachment.Some? {
          attachments := attachments + [attachment.value];
        }
        assert ids[..i + 1][..i] == ids[..i];
        i := i + 1;
      }
      assert ids[..|ids|] == ids;
    }

    /** upload_product_images; only the client can download API images. */
    method UploadProductImages(product: Val) returns (ids: seq<int>)
      ensures ids == ProductImages(source.Api?, mapper.wp, mapper.media, product)
    {
      var urls := Field(product, "image_urls");
      var productId := if FieldSet(product, "id") then ToInt(Field(product, "id")) else 0;
      if !Empty(urls) && urls.Arr? {
        ids := UploadUrls(Values(urls));
        return;
      }
      ids := [];
      if productId == 0 {
        return;
      }
      var imageIds := GatherImageIds(product);
      if !Empty(Field(product, "id_default_image")) && |imageIds| > 1 {
        imageIds := Distinct([ToInt(Field(product, "id_default_image"))] + imageIds);
      }
      if imageIds != [] && source.Api? {
        ids := DownloadImages(productId, imageIds);
      }
    }

    /** upload_combination_images: each combination whose image is
        uploaded gets its variation_image_attachment_id, in place. */
    method UploadCombinationImages(product: Val) returns (r: Val)
      ensures r == ComboImages(mapper.wp, mapper.media, product)
    {
      var combos := Field(product, "combinations");
      if Empty(combos) || !combos.Arr? {
        return product;
      }
      var es := combos.entries;
      var i := 0;
      while i < |es|
        invariant 0 <= i <= |es| == |combos.entries|
        invariant forall k :: 0 <= k < i ==> es[k] == (combos.entries[k].0, ComboImage(mapper.wp, mapper.media, combos.entries[k].1))
        invariant forall k :: i <= k < |es| ==> es[k] == combos.entries[k]
      {
        var c := es[i].1;
        var url := if FieldSet(c, "image_url") then mapper.wp.escUrlRaw(ToStr(Field(c, "image_url"))) else "";
        if !DbShape.Falsy(url) && Http.ImageHead(mapper.media.head(url)) {
          var attachment := mapper.media.sideload(url);
          if attachment.Some? {
            es := es[i := (es[i].0, SetField(c, "variation_image_attachment_id", Int(attachment.value)))];
          }
        }
        i := i + 1;
      }
      assert es == ComboEntries(mapper.wp, mapper.media, combos.entries);
      r := SetField(product, "combinations", Arr(es));
    }

    /** create_wc_product, as create_or_update_wc_product does it for no
        existing product; a product it returns is one of the store's. */
    method Create(product: Val, imageIds: seq<int>)
      returns (r: Result<int>, ghost cats: seq<int>, ghost attrs: seq<WcStore.Attribute>, ghost slugMap: map<(string, string), string>)
      requires Valid()
      modifies mapper, mapper.store
      ensures Valid() && mapper.Grew()
      ensures ProductRules.Outcome(mapper.store.products, r)
              == ProductRules.UpsertOutcome(mapper.store.refusedSaves, old(mapper.store.products), mapper.store.wooActive,
                                            mapper.wp, mapper.viaDb, product, 0, cats, imageIds, attrs, slugMap)
      ensures r.Ok? ==> 0 < r.value <= |mapper.store.products|
      ensures mapper.store.wooActive ==> Resolved(product, cats, attrs, slugMap)
    {
      ghost var ps := mapper.store.products;
      r, cats, attrs, slugMap := mapper.CreateProduct(product, imageIds);
      ProductRules.UpsertShape(mapper.store.refusedSaves, ps, mapper.store.wooActive, mapper.wp, mapper.viaDb, product, 0,
                               cats, imageIds, attrs, slugMap);
    }

    /** The create path of run_batch: create_wc_product, then the
        PrestaShop id as meta of the new product. */
    method CreateRecorded(id: nat, product: Val, imageIds: seq<int>)
      returns (r: Result<int>, ghost cats: seq<int>, ghost attrs: seq<WcStore.Attribute>, ghost slugMap: map<(string, string), string>)
      requires Valid()
      modifies mapper, mapper.store
      ensures Valid() && mapper.Grew()
      ensures (mapper.store.products, FateOf(r, false))
              == Finish(ProductRules.UpsertOutcome(mapper.store.refusedSaves, old(mapper.store.products), mapper.store.wooActive,
                                                   mapper.wp, mapper.viaDb, product, 0, cats, imageIds, attrs, slugMap), false, id)
      ensures mapper.store.wooActive ==> Resolved(product, cats, attrs, slugMap)
    {
      r, cats, attrs, slugMap := Create(product, imageIds);
      if r.Ok? {
        mapper.store.SetMeta(r.value, ProductRules.PrestashopIdKey, Text.IntToString(id));
      }
    }

    /** The store steps of one id: skip, or upload and create or update. */
    method Import(id: nat, full: Val, updateExisting: bool)
      returns (fate: Fate, ghost cats: seq<int>, ghost attrs: seq<WcStore.Attribute>, ghost slugMap: map<(string, string), string>)
      requires Valid()
      modifies mapper, mapper.store
      ensures Valid() && mapper.Grew()
      ensures (mapper.store.products, fate)
              == ImportOutcome(mapper.store.refusedSaves, old(mapper.store.products), mapper.store.wooActive, mapper.wp,
                               mapper.media, mapper.viaDb, source.Api?, id, full, updateExisting, cats, attrs, slugMap)
      ensures mapper.store.wooActive && !fate.Skipped? ==> Resolved(ComboImages(mapper.wp, mapper.media, full), cats, attrs, slugMap)
    {
      cats, attrs, slugMap := [], [], map[];
      var existing := FindExisting(mapper.store.products, mapper.store.wooActive, id, full);
      if existing.Some? && !updateExisting {
        return Skipped(existing.value), cats, attrs, slugMap;
      }
      fate, cats, attrs, slugMap := Upsert(id, full, existing);
    }

    /** The images uploaded, then the product existing (when there is one)
        updated, or a new product created with the PrestaShop id. */
    method Upsert(id: nat, full: Val, existing: Option<int>)
      returns (fate: Fate, ghost cats: seq<int>, ghost attrs: seq<WcStore.Attribute>, ghost slugMap: map<(string, string), string>)
      requires Valid()
      requires existing.Some? ==> 0 < existing.value <= |mapper.store.products| && !mapper.store.products[existing.value - 1].deleted
      modifies mapper, mapper.store
      ensures Valid() && mapper.Grew()
      ensures (mapper.store.products, fate)
              == Finish(ProductRules.UpsertOutcome(mapper.store.refusedSaves, old(mapper.store.products), mapper.store.wooActive,
                                                   mapper.wp, mapper.viaDb, ComboImages(mapper.wp, mapper.media, full),
                                                   if existing.Some? then existing.value else 0, cats,
                                                   ProductImages(source.Api?, mapper.wp, mapper.media, full), attrs, slugMap),
                        existing.Some?, id)
      ensures mapper.store.wooActive ==> Resolved(ComboImages(mapper.wp, mapper.media, full), cats, attrs, slugMap)
    {
      var imageIds := UploadProductImages(full);
      var product := UploadCombinationImages(full);
      var r;
      if existing.Some? {
        r, cats, attrs, slugMap := mapper.CreateOrUpdate(product, imageIds, existing.value);
        fate := FateOf(r, true);
      } else {
        r, cats, attrs, slugMap := CreateRecorded(id, product, imageIds);
        fate := FateOf(r, false);
      }
    }

    /** The body of run_batch's loop for one id, once the source has
        answered fetched. */
    method Handle(id: nat, fetched: Result<Val>, updateExisting: bool) returns (fate: Fate, ghost t: Trace)
      requires Valid()
      modifies mapper, mapper.store, SourceObjects(source)
      ensures Valid() && mapper.Grew() && Shop() == old(Shop()) && t.fetched == fetched
      ensures Handled(old(mapper.store.products), id, updateExisting, t, mapper.store.products, fate)
      ensures mapper.store.wooActive && fetched.Ok? && fetched.value.Arr? && !Empty(fetched.value) && !fate.Skipped? ==>
                Resolved(ComboImages(mapper.wp, mapper.media, t.full), t.cats, t.attrs, t.slugMap)
    {
      t := Trace(fetched, [], Null, [], [], map[]);
      if fetched.Err? {
        return Failed(fetched.error.message), t;
      }
      if Empty(fetched.value) || !fetched.value.Arr? {
        return NoData, t;
      }
      var full, combos;
      ghost var cats, attrs, slugMap;
      full, combos := Prepare(id, fetched.value);
      fate, cats, attrs, slugMap := Import(id, full, updateExisting);
      t := Trace(fetched, combos, full, cats, attrs, slugMap);
    }

    /** The body of run_batch's loop for one id: get_product of the
        source, then the rest. */
    method Migrate(id: nat, updateExisting: bool) returns (fate: Fate)
      requires Valid()
      modifies mapper, mapper.store, SourceObjects(source)
      ensures Valid() && Shop() == old(Shop())
      ensures Settled(old(mapper.store.products), mapper.store.products, fate, updateExisting, mapper.store.wooActive, id)
    {
      ghost var ps := mapper.store.products;
      var fetched := Fetch(id);
      ghost var t;
      fate, t := Handle(id, fetched, updateExisting);
      MigrateSettled(mapper.store.refusedSaves, ps, mapper.store.wooActive, mapper.wp, mapper.media,
                     mapper.viaDb, source.Api?, id, fetched, t.full, updateExisting, t.cats, t.attrs, t.slugMap);
    }

    /** run_batch: every id of the batch in order, and the report of how
        each ended; states are the products before and after each id. */
    method RunBatch(productIds: seq<Val>, updateExisting: bool)
      returns (b: Batch, ghost fates: seq<Fate>, ghost states: seq<seq<WcStore.Product>>)
      requires Valid()
      modifies mapper, mapper.store, SourceObjects(source)
      ensures Valid() && Shop() == old(Shop())
      ensures var ids := BatchIds(productIds);
        && |fates| == |ids| && |states| == |ids| + 1
        && states[0] == old(mapper.store.products) && states[|ids|] == mapper.store.products
        && (forall i :: 0 <= i < |ids| ==>
              Settled(states[i], states[i + 1], fates[i], updateExisting, mapper.store.wooActive, ids[i]))
        && b == Report(ids, fates)
    {
      var ids := BatchIds(productIds);
      ghost var shop := Shop();
      var migrated, errors, log := [], [], [];
      fates, states := [], [mapper.store.products];
      var i := 0;
      while i < |ids|
        invariant 0 <= i <= |ids|
        invariant Valid() && Shop() == shop
        invariant |fates| == i && |states| == i + 1 
        invariant states[0] == old(mapper.store.products) && states[i] == mapper.store.products
        invariant forall j :: 0 <= j < i ==>
                    Settled(states[j], states[j + 1], fates[j], updateExisting, mapper.store.wooActive, ids[j])
        invariant Batch(migrated, i, errors, log) == Report(ids[..i], fates)
      {
        var id := ids[i];
        var fate := Migrate(id, updateExisting);
        ReportNext(ids, i, fates, fate);
        errors := errors + ErrorLines(id, fate);
        log := log + [LogLine(id, fate)];
        if fate.Migrated? {
          migrated := migrated + [(id, fate.wcId)];
        }
        fates, states := fates + [fate], states + [mapper.store.products];
        i := i + 1;
      }
      assert ids[..|ids|] == ids;
      b := Batch(migrated, |ids|, errors, log);
    }
  }
}
