/**
  The catalog tables written by importer.js and the import run itself.

  Each table is a map keyed by its UNIQUE natural key (producer name, brand name, product SKU);
  the surrogate id is a column of the row and comes from the table's id sequence. An
  `INSERT ... ON CONFLICT` draws a sequence value even when it ends up updating, and
  `getOrCreateId` draws one only when it inserts.

  The import is specified in two steps: the feed alone decides which writes happen and
  whether the run reaches its end (`PlanProducers`, `PlanProducts`); the tables decide only
  which ids those writes see (`RunProducers`, `RunProducts`). An exception anywhere in the
  loop body ends the run in the catch block, and the writes before it persist.
 */
module Catalog {
  import opened Wrappers
  import opened Feed

  datatype ProducerRow = ProducerRow(id: nat, info: ProducerInfo)

  datatype ProductData = ProductData(fields: ProductFields, brandId: Option<nat>, producerId: Option<nat>)

  datatype ProductRow = ProductRow(id: nat, data: ProductData)

  /** The tables `producers`, `brands`, `products` and the next value of each id sequence. */
  datatype Db = Db(
    producers: map<string, ProducerRow>,
    brands: map<string, nat>,
    products: map<string, ProductRow>,
    producerSeq: nat,
    brandSeq: nat,
    productSeq: nat)

  /** Ids are below their sequence and no two rows of a table share one. */
  ghost predicate ValidDb(db: Db) {
    && (forall n :: n in db.producers ==> db.producers[n].id < db.producerSeq)
    && (forall a, b :: a in db.producers && b in db.producers && a != b ==>
          db.producers[a].id != db.producers[b].id)
    && (forall n :: n in db.brands ==> db.brands[n] < db.brandSeq)
    && (forall a, b :: a in db.brands && b in db.brands && a != b ==> db.brands[a] != db.brands[b])
    && (forall s :: s in db.products ==> db.products[s].id < db.productSeq)
    && (forall a, b :: a in db.products && b in db.products && a != b ==>
          db.products[a].id != db.products[b].id)
  }

  /** The same rows in every table; the sequences may stand elsewhere. */
  predicate SameTables(a: Db, b: Db) {
    a.producers == b.producers && a.brands == b.brands && a.products == b.products
  }

  // ---------------------------------------------------------------------------------------
  // getOrCreateId(client, 'brands', name) (importer.js:33-43)

  /** The id `getOrCreateId` answers once the brand row exists: null for a missing or empty
      name. */
  function BrandRef(brands: map<string, nat>, name: Option<string>): Option<nat> {
    if name.Some? && name.value != "" && name.value in brands then Some(brands[name.value]) else None
  }

  /** The brands table after `getOrCreateId`. */
  function EnsureBrand(db: Db, name: Option<string>): Db {
    if name.None? || name.value == "" || name.value in db.brands then db
    else db.(brands := db.brands[name.value := db.brandSeq], brandSeq := db.brandSeq + 1)
  }

  lemma GetOrCreateIdContract(db: Db, name: Option<string>)
    requires ValidDb(db)
    ensures var after := EnsureBrand(db, name);
      && ValidDb(after)
      && (name.None? || name.value == "" ==> after == db && BrandRef(after.brands, name) == None)
      && (name.Some? && name.value != "" && name.value in db.brands ==>
            after == db && BrandRef(after.brands, name) == Some(db.brands[name.value]))
      && (name.Some? && name.value != "" && name.value !in db.brands ==>
            && after.brands.Keys == db.brands.Keys + {name.value}
            && (forall n :: n in db.brands ==> after.brands[n] == db.brands[n])
            && BrandRef(after.brands, name).Some?
            && (forall n :: n in db.brands ==> db.brands[n] != BrandRef(after.brands, name).value))
      && EnsureBrand(after, name) == after
      && after.producers == db.producers && after.products == db.products
  {
  }

  // ---------------------------------------------------------------------------------------
  // The two upserts (importer.js:80-101 and 130-174)

  /** `INSERT INTO producers ... ON CONFLICT (name) DO UPDATE SET` all six columns. */
  function UpsertProducerRow(db: Db, name: string, info: ProducerInfo): Db {
    var id := if name in db.producers then db.producers[name].id else db.producerSeq;
    db.(producers := db.producers[name := ProducerRow(id, info)], producerSeq := db.producerSeq + 1)
  }

  /** `INSERT INTO products ... ON CONFLICT (sku) DO UPDATE SET` every other column. */
  function UpsertProductRow(db: Db, sku: string, data: ProductData): Db {
    var id := if sku in db.products then db.products[sku].id else db.productSeq;
    db.(products := db.products[sku := ProductRow(id, data)], productSeq := db.productSeq + 1)
  }

  lemma UpsertProducerContract(db: Db, name: string, info: ProducerInfo)
    requires ValidDb(db)
    ensures var after := UpsertProducerRow(db, name, info);
      && ValidDb(after)
      && after.producers.Keys == db.producers.Keys + {name}
      && after.producers[name].info == info
      && (name in db.producers ==> after.producers[name].id == db.producers[name].id)
      && (name !in db.producers ==> forall n :: n in db.producers ==> db.producers[n].id != after.producers[name].id)
      && (forall n :: n in db.producers && n != name ==> after.producers[n] == db.producers[n])
      && after.brands == db.brands && after.products == db.products
  {
  }

  lemma UpsertProductContract(db: Db, sku: string, data: ProductData)
    requires ValidDb(db)
    ensures var after := UpsertProductRow(db, sku, data);
      && ValidDb(after)
      && after.products.Keys == db.products.Keys + {sku}
      && after.products[sku].data == data
      && (sku in db.products ==> after.products[sku].id == db.products[sku].id)
      && (sku !in db.products ==> forall s :: s in db.products ==> db.products[s].id != after.products[sku].id)
      && (forall s :: s in db.products && s != sku ==> after.products[s] == db.products[s])
      && after.brands == db.brands && after.producers == db.producers
      && UpsertProductRow(after, sku, data).products == after.products
  {
  }

  // ---------------------------------------------------------------------------------------
  // What the feed asks for

  /** The writes a loop performs, and whether it reaches its end without an exception. */
  datatype Plan<W> = Plan(writes: seq<W>, completes: bool)

  datatype ProducerWrite = ProducerWrite(name: string, info: ProducerInfo)

  /** The producer loop (importer.js:76-103): entries without a name are skipped, the first
      entry that throws ends the run. */
  function PlanProducers(es: seq<ProducerEntry>): Plan<ProducerWrite> {
    if es == [] then Plan([], true)
    else match ProducerStepOf(es[0])
      case SkipProducer => PlanProducers(es[1..])
      case ProducerFails => Plan([], false)
      case UpsertProducer(name, info) =>
        var rest := PlanProducers(es[1..]);
        Plan([ProducerWrite(name, info)] + rest.writes, rest.completes)
  }

  /** A product iteration writes its brand (`getOrCreateId`) and then, unless the values
      throw or the database rejects them, its product row. */
  datatype ProductWrite =
    | BrandOnly(brand: Option<string>)
    | WriteProduct(brand: Option<string>, producer: Option<string>, sku: string, fields: ProductFields)

  /** One product iteration (importer.js:108-174), given its decoded references and values:
      the writes it makes, and whether the loop goes on after it. */
  function WritesFor(refs: Decoded<ProductRefs>, values: Decoded<ProductValues>): Plan<ProductWrite> {
    match refs
    case TypeError => Plan([], false)
    case Value(r) =>
      match values
      case TypeError => Plan([BrandOnly(r.brand)], false)
      case Value(v) =>
        if !Accepted(v) then Plan([BrandOnly(r.brand)], false)
        else Plan([WriteProduct(r.brand, r.producer, v.sku.value, FieldsOf(v))], true)
  }

  function EntryWrites(e: ProductEntry): Plan<ProductWrite> {
    WritesFor(ProductRefsOf(e), ProductValuesOf(e))
  }

  /** The product loop (importer.js:107-175): the first iteration that throws ends the run. */
  function PlanProducts(es: seq<ProductEntry>): Plan<ProductWrite> {
    if es == [] then Plan([], true)
    else
      var head := EntryWrites(es[0]);
      if !head.completes then head
      else
        var rest := PlanProducts(es[1..]);
        Plan(head.writes + rest.writes, rest.completes)
  }

  // ---------------------------------------------------------------------------------------
  // Running the writes against the tables

  /** The tables and `producerMap` after the producer loop. */
  datatype ProducerRun = ProducerRun(db: Db, producerMap: map<string, nat>)

  function RunProducers(db: Db, pm: map<string, nat>, ws: seq<ProducerWrite>): ProducerRun
    decreases |ws|
  {
    if ws == [] then ProducerRun(db, pm)
    else
      var after := UpsertProducerRow(db, ws[0].name, ws[0].info);
      RunProducers(after, pm[ws[0].name := after.producers[ws[0].name].id], ws[1..])
  }

  /** `producerMap.get(producerName)`: null when there is no name or it was not imported. */
  function ProducerRef(pm: map<string, nat>, name: Option<string>): Option<nat> {
    if name.Some? && name.value in pm then Some(pm[name.value]) else None
  }

  /** The columns a product write stores, given the brand table at hand. */
  function DataOf(w: ProductWrite, brands: map<string, nat>, pm: map<string, nat>): ProductData
    requires w.WriteProduct?
  {
    ProductData(w.fields, BrandRef(brands, w.brand), ProducerRef(pm, w.producer))
  }

  function StepProduct(db: Db, pm: map<string, nat>, w: ProductWrite): Db {
    var withBrand := EnsureBrand(db, w.brand);
    match w
    case BrandOnly(_) => withBrand
    case WriteProduct(_, _, sku, _) => UpsertProductRow(withBrand, sku, DataOf(w, withBrand.brands, pm))
  }

  function RunProducts(db: Db, pm: map<string, nat>, ws: seq<ProductWrite>): Db
    decreases |ws|
  {
    if ws == [] then db else RunProducts(StepProduct(db, pm, ws[0]), pm, ws[1..])
  }

  /** The outcome of `importData`: the tables, and whether the run got to its end. */
  datatype Outcome = Outcome(db: Db, completed: bool)

  /** importer.js:68-179. A missing producer or product list throws on `length` before any
      write; otherwise the producer loop runs, and the product loop when that one completes. */
  function Import(db: Db, doc: Document): (r: Outcome)
    ensures doc.producers.None? || doc.products.None? ==> r == Outcome(db, false)
    ensures doc.producers.Some? && !PlanProducers(doc.producers.value).completes ==> !r.completed
  {
    if doc.producers.None? || doc.products.None? then Outcome(db, false)
    else
      var pp := PlanProducers(doc.producers.value);
      var rp := RunProducers(db, map[], pp.writes);
      if !pp.completes then Outcome(rp.db, false)
      else
        var qp := PlanProducts(doc.products.value);
        Outcome(RunProducts(rp.db, rp.producerMap, qp.writes), qp.completes)
  }

  // ---------------------------------------------------------------------------------------
  // Which rows a run leaves: the feed always wins

  function ProducerNames(ws: seq<ProducerWrite>): set<string> {
    if ws == [] then {} else {ws[0].name} + ProducerNames(ws[1..])
  }

  /** The attributes of the last write of a name. */
  function LastInfo(ws: seq<ProducerWrite>, name: string): ProducerInfo
    requires name in ProducerNames(ws)
    decreases |ws|
  {
    if name in ProducerNames(ws[1..]) then LastInfo(ws[1..], name) else ws[0].info
  }

  lemma {:induction false} RunProducersEffect(db: Db, pm: map<string, nat>, ws: seq<ProducerWrite>)
    ensures var r := RunProducers(db, pm, ws);
      && r.db.producers.Keys == db.producers.Keys + ProducerNames(ws)
      && (forall n :: n in ProducerNames(ws) ==> r.db.producers[n].info == LastInfo(ws, n))
      && (forall n :: n in db.producers ==> r.db.producers[n].id == db.producers[n].id)
      && (forall n :: n in db.producers && n !in ProducerNames(ws) ==> r.db.producers[n] == db.producers[n])
      && r.db.brands == db.brands && r.db.products == db.products
      && r.db.producerSeq >= db.producerSeq
      && r.producerMap.Keys == pm.Keys + ProducerNames(ws)
      && (forall n :: n in ProducerNames(ws) ==> r.producerMap[n] == r.db.producers[n].id)
      && (forall n :: n in pm && n !in ProducerNames(ws) ==> r.producerMap[n] == pm[n])
    decreases |ws|
  {
    if ws != [] {
      var w := ws[0];
      var after := UpsertProducerRow(db, w.name, w.info);
      var pm' := pm[w.name := after.producers[w.name].id];
      RunProducersEffect(after, pm', ws[1..]);
    }
  }

  /** Running the producer writes over tables that already hold their result changes no
      producer row and yields the same `producerMap`. */
  lemma ProducersIdempotent(db: Db, x: Db, ws: seq<ProducerWrite>)
    requires x.producers == RunProducers(db, map[], ws).db.producers
    ensures RunProducers(x, map[], ws).db.producers == x.producers
    ensures RunProducers(x, map[], ws).producerMap == RunProducers(db, map[], ws).producerMap
  {
    var r1 := RunProducers(db, map[], ws);
    var r2 := RunProducers(x, map[], ws);
    RunProducersEffect(db, map[], ws);
    RunProducersEffect(x, map[], ws);
    assert r2.db.producers.Keys == x.producers.Keys;
    forall n | n in x.producers
      ensures r2.db.producers[n] == x.producers[n]
    {
      if n in ProducerNames(ws) {
        assert r2.db.producers[n].info == x.producers[n].info;
      }
    }
    assert r2.producerMap.Keys == r1.producerMap.Keys;
  }

  function BrandNames(ws: seq<ProductWrite>): set<string> {
    if ws == [] then {}
    else (if ws[0].brand.Some? && ws[0].brand.value != "" then {ws[0].brand.value} else {})
         + BrandNames(ws[1..])
  }

  function Skus(ws: seq<ProductWrite>): set<string> {
    if ws == [] then {}
    else (if ws[0].WriteProduct? then {ws[0].sku} else {}) + Skus(ws[1..])
  }

  /** The last product write of a SKU. */
  function LastProduct(ws: seq<ProductWrite>, sku: string): (w: ProductWrite)
    requires sku in Skus(ws)
    ensures w.WriteProduct? && w.sku == sku
    decreases |ws|
  {
    if sku in Skus(ws[1..]) then LastProduct(ws[1..], sku) else ws[0]
  }

  lemma StepProductBrands(db: Db, pm: map<string, nat>, w: ProductWrite)
    ensures var r := StepProduct(db, pm, w);
      && r.brands.Keys == db.brands.Keys + BrandNames([w])
      && (forall n :: n in db.brands ==> r.brands[n] == db.brands[n])
      && r.producers == db.producers
  {
    assert [w][1..] == [];
  }

  lemma {:induction false} RunProductsBrands(db: Db, pm: map<string, nat>, ws: seq<ProductWrite>)
    ensures var r := RunProducts(db, pm, ws);
      && r.brands.Keys == db.brands.Keys + BrandNames(ws)
      && (forall n :: n in db.brands ==> r.brands[n] == db.brands[n])
      && r.producers == db.producers
    decreases |ws|
  {
    if ws != [] {
      StepProductBrands(db, pm, ws[0]);
      assert BrandNames(ws) == BrandNames([ws[0]]) + BrandNames(ws[1..]);
      RunProductsBrands(StepProduct(db, pm, ws[0]), pm, ws[1..]);
    }
  }

  lemma StepProductRows(db: Db, pm: map<string, nat>, w: ProductWrite)
    ensures var r := StepProduct(db, pm, w);
      && r.products.Keys == db.products.Keys + Skus([w])
      && (forall s :: s in db.products ==> r.products[s].id == db.products[s].id)
      && (forall s :: s in db.products && s !in Skus([w]) ==> r.products[s] == db.products[s])
  {
    assert [w][1..] == [];
  }

  lemma {:induction false} RunProductsRows(db: Db, pm: map<string, nat>, ws: seq<ProductWrite>)
    ensures var r := RunProducts(db, pm, ws);
      && r.products.Keys == db.products.Keys + Skus(ws)
      && (forall s :: s in db.products ==> r.products[s].id == db.products[s].id)
      && (forall s :: s in db.products && s !in Skus(ws) ==> r.products[s] == db.products[s])
    decreases |ws|
  {
    if ws != [] {
      StepProductRows(db, pm, ws[0]);
      assert Skus(ws) == Skus([ws[0]]) + Skus(ws[1..]);
      RunProductsRows(StepProduct(db, pm, ws[0]), pm, ws[1..]);
    }
  }

  /** After a run, every SKU written holds the columns of its last write, with the brand id
      the brand table ends with. */
  lemma {:induction false} RunProductsEffect(db: Db, pm: map<string, nat>, ws: seq<ProductWrite>)
    ensures var r := RunProducts(db, pm, ws);
      && r.products.Keys == db.products.Keys + Skus(ws)
      && forall s :: s in Skus(ws) ==> r.products[s].data == DataOf(LastProduct(ws, s), r.brands, pm)
    decreases |ws|
  {
    RunProductsRows(db, pm, ws);
    if ws != [] {
      var w := ws[0];
      var mid := StepProduct(db, pm, w);
      var r := RunProducts(db, pm, ws);
      assert r == RunProducts(mid, pm, ws[1..]);
      RunProductsEffect(mid, pm, ws[1..]);
      forall s | s in Skus(ws)
        ensures r.products[s].data == DataOf(LastProduct(ws, s), r.brands, pm)
      {
        if s !in Skus(ws[1..]) {
          RunProductsBrands(mid, pm, ws[1..]);
          RunProductsRows(mid, pm, ws[1..]);
          assert LastProduct(ws, s) == w;
          assert BrandRef(mid.brands, w.brand) == BrandRef(r.brands, w.brand);
          assert r.products[s] == mid.products[s];
        }
      }
    }
  }

  /** Running the product writes over tables that already hold their result changes no
      brand and no product row. */
  lemma ProductsIdempotent(db: Db, x: Db, pm: map<string, nat>, ws: seq<ProductWrite>)
    requires x.brands == RunProducts(db, pm, ws).brands
    requires x.products == RunProducts(db, pm, ws).products
    ensures RunProducts(x, pm, ws).brands == x.brands
    ensures RunProducts(x, pm, ws).products == x.products
  {
    var r2 := RunProducts(x, pm, ws);
    RunProductsBrands(db, pm, ws);
    RunProductsRows(db, pm, ws);
    RunProductsEffect(db, pm, ws);
    RunProductsBrands(x, pm, ws);
    RunProductsRows(x, pm, ws);
    RunProductsEffect(x, pm, ws);
    assert r2.brands.Keys == x.brands.Keys;
    assert r2.products.Keys == x.products.Keys;
    forall s | s in x.products
      ensures r2.products[s] == x.products[s]
    {
      if s in Skus(ws) {
        assert r2.products[s].data == x.products[s].data;
      }
    }
  }

  /** Importing the same feed twice leaves the tables as importing it once, whether or not
      the run reached its end. */
  lemma ImportIdempotent(db: Db, doc: Document)
    ensures var once := Import(db, doc);
      var twice := Import(once.db, doc);
      SameTables(twice.db, once.db) && twice.completed == once.completed
  {
    if doc.producers.Some? && doc.products.Some? {
      var once := Import(db, doc);
      var pp := PlanProducers(doc.producers.value);
      var r1 := RunProducers(db, map[], pp.writes);
      var r2 := RunProducers(once.db, map[], pp.writes);
      if pp.completes {
        RunProductsBrands(r1.db, r1.producerMap, PlanProducts(doc.products.value).writes);
      }
      assert once.db.producers == r1.db.producers;
      ProducersIdempotent(db, once.db, pp.writes);
      RunProducersEffect(once.db, map[], pp.writes);
      if pp.completes {
        var qw := PlanProducts(doc.products.value).writes;
        ProductsIdempotent(r1.db, r2.db, r1.producerMap, qw);
        RunProductsBrands(r2.db, r1.producerMap, qw);
      }
    }
  }

  // ---------------------------------------------------------------------------------------
  // The run keeps the ids unique

  lemma {:induction false} RunProducersValid(db: Db, pm: map<string, nat>, ws: seq<ProducerWrite>)
    requires ValidDb(db)
    ensures ValidDb(RunProducers(db, pm, ws).db)
    decreases |ws|
  {
    if ws != [] {
      var after := UpsertProducerRow(db, ws[0].name, ws[0].info);
      UpsertProducerContract(db, ws[0].name, ws[0].info);
      RunProducersValid(after, pm[ws[0].name := after.producers[ws[0].name].id], ws[1..]);
    }
  }

  lemma StepProductValid(db: Db, pm: map<string, nat>, w: ProductWrite)
    requires ValidDb(db)
    ensures ValidDb(StepProduct(db, pm, w))
  {
    var withBrand := EnsureBrand(db, w.brand);
    GetOrCreateIdContract(db, w.brand);
    if w.WriteProduct? {
      UpsertProductContract(withBrand, w.sku, DataOf(w, withBrand.brands, pm));
    }
  }

  lemma {:induction false} RunProductsValid(db: Db, pm: map<string, nat>, ws: seq<ProductWrite>)
    requires ValidDb(db)
    ensures ValidDb(RunProducts(db, pm, ws))
    decreases |ws|
  {
    if ws != [] {
      StepProductValid(db, pm, ws[0]);
      RunProductsValid(StepProduct(db, pm, ws[0]), pm, ws[1..]);
    }
  }

  lemma ImportValid(db: Db, doc: Document)
    requires ValidDb(db)
    ensures ValidDb(Import(db, doc).db)
  {
    if doc.producers.Some? && doc.products.Some? {
      var pp := PlanProducers(doc.producers.value);
      RunProducersValid(db, map[], pp.writes);
      var r := RunProducers(db, map[], pp.writes);
      RunProductsValid(r.db, r.producerMap, PlanProducts(doc.products.value).writes);
    }
  }

  lemma {:induction false} RunProductsAppend(db: Db, pm: map<string, nat>, a: seq<ProductWrite>, b: seq<ProductWrite>)
    ensures RunProducts(db, pm, a + b) == RunProducts(RunProducts(db, pm, a), pm, b)
    decreases |a|
  {
    if a != [] {
      assert (a + b)[0] == a[0] && (a + b)[1..] == a[1..] + b;
      RunProductsAppend(StepProduct(db, pm, a[0]), pm, a[1..], b);
    } else {
      assert a + b == b;
    }
  }

  /** The product loop run entry by entry, as the importer's loop goes: the tables after the
      remaining entries, and whether the loop reaches its end. */
  function ImportRest(db: Db, pm: map<string, nat>, es: seq<ProductEntry>): (Db, bool)
    decreases |es|
  {
    if es == [] then (db, true)
    else
      var step := EntryWrites(es[0]);
      var after := RunProducts(db, pm, step.writes);
      if !step.completes then (after, false) else ImportRest(after, pm, es[1..])
  }

  /** Running the loop entry by entry is running the whole plan of writes at once. */
  lemma {:induction false} ImportRestPlan(db: Db, pm: map<string, nat>, es: seq<ProductEntry>)
    ensures ImportRest(db, pm, es) == (RunProducts(db, pm, PlanProducts(es).writes), PlanProducts(es).completes)
    decreases |es|
  {
    if es != [] {
      var head := EntryWrites(es[0]);
      ImportRestPlan(RunProducts(db, pm, head.writes), pm, es[1..]);
      if head.completes {
        RunProductsAppend(db, pm, head.writes, PlanProducts(es[1..]).writes);
      }
    }
  }

  lemma RunProductsOne(db: Db, pm: map<string, nat>, w: ProductWrite)
    ensures RunProducts(db, pm, [w]) == StepProduct(db, pm, w)
  {
    assert [w][1..] == [];
  }

  // ---------------------------------------------------------------------------------------
  // The importer against the database

  class CatalogStore {
    var producers: map<string, ProducerRow>
    var brands: map<string, nat>
    var products: map<string, ProductRow>
    var producerSeq: nat
    var brandSeq: nat
    var productSeq: nat

    function State(): Db
      reads this
    {
      Db(producers, brands, products, producerSeq, brandSeq, productSeq)
    }

    ghost predicate Valid()
      reads this
    {
      ValidDb(State())
    }

    /** Empty tables; serial sequences start at 1. */
    constructor ()
      ensures Valid()
      ensures State() == Db(map[], map[], map[], 1, 1, 1)
    {
      producers, brands, products := map[], map[], map[];
      producerSeq, brandSeq, productSeq := 1, 1, 1;
    }

    /** `getOrCreateId(client, 'brands', name)`. */
    method GetOrCreateBrandId(name: Option<string>) returns (id: Option<nat>)
      requires Valid()
      modifies this
      ensures Valid()
      ensures State() == EnsureBrand(old(State()), name)
      ensures id == BrandRef(brands, name)
    {
      GetOrCreateIdContract(State(), name);
      if name.None? || name.value == "" {
        return None;
      }
      if name.value in brands {
        return Some(brands[name.value]);
      }
      brands := brands[name.value := brandSeq];
      id := Some(brandSeq);
      brandSeq := brandSeq + 1;
    }

    /** The producer upsert `RETURNING id`. */
    method UpsertProducer(name: string, info: ProducerInfo) returns (id: nat)
      requires Valid()
      modifies this
      ensures Valid()
      ensures State() == UpsertProducerRow(old(State()), name, info)
      ensures name in producers && id == producers[name].id
    {
      UpsertProducerContract(State(), name, info);
      id := if name in producers then producers[name].id else producerSeq;
      producers := producers[name := ProducerRow(id, info)];
      producerSeq := producerSeq + 1;
    }

    /** The product upsert; the statement fails when the SKU is null or an integer column
        receives NaN. */
    method UpsertProduct(values: ProductValues, brandId: Option<nat>, producerId: Option<nat>)
      returns (accepted: bool)
      requires Valid()
      modifies this
      ensures Valid()
      ensures accepted == Accepted(values)
      ensures accepted ==> State() == UpsertProductRow(old(State()), values.sku.value,
                                                       ProductData(FieldsOf(values), brandId, producerId))
      ensures !accepted ==> State() == old(State())
    {
      if !Accepted(values) {
        return false;
      }
      var sku := values.sku.value;
      var data := ProductData(FieldsOf(values), brandId, producerId);
      UpsertProductContract(State(), sku, data);
      var id := if sku in products then products[sku].id else productSeq;
      products := products[sku := ProductRow(id, data)];
      productSeq := productSeq + 1;
      accepted := true;
    }

    /** Step 1 of `importData`: the producer loop, building `producerMap`. */
    method ImportProducers(entries: seq<ProducerEntry>) returns (producerMap: map<string, nat>, ok: bool)
      requires Valid()
      modifies this
      ensures Valid()
      ensures var plan := PlanProducers(entries);
        && RunProducers(old(State()), map[], plan.writes) == ProducerRun(State(), producerMap)
        && ok == plan.completes
    {
      producerMap := map[];
      var i := 0;
      while i < |entries|
        invariant 0 <= i <= |entries| && Valid()
        invariant RunProducers(State(), producerMap, PlanProducers(entries[i..]).writes)
                  == RunProducers(old(State()), map[], PlanProducers(entries).writes)
        invariant PlanProducers(entries[i..]).completes == PlanProducers(entries).completes
      {
        assert entries[i..][0] == entries[i] && entries[i..][1..] == entries[i + 1..];
        match ProducerStepOf(entries[i]) {
          case SkipProducer =>
          case ProducerFails =>
            return producerMap, false;
          case UpsertProducer(name, info) =>
            var id := UpsertProducer(name, info);
            producerMap := producerMap[name := id];
        }
        i := i + 1;
      }
      assert entries[i..] == [];
      ok := true;
    }

    /** The writes of one product iteration once its references are read: the brand, then,
        unless building the values throws or the database rejects them, the product row. */
    method ApplyProduct(refs: ProductRefs, values: Decoded<ProductValues>, producerMap: map<string, nat>)
      returns (ok: bool)
      requires Valid()
      modifies this
      ensures Valid()
      ensures var step := WritesFor(Value(refs), values);
        State() == RunProducts(old(State()), producerMap, step.writes) && ok == step.completes
    {
      ghost var before := State();
      var brandId := GetOrCreateBrandId(refs.brand);
      var producerId := ProducerRef(producerMap, refs.producer);
      if values.TypeError? {
        RunProductsOne(before, producerMap, BrandOnly(refs.brand));
        return false;
      }
      ok := UpsertProduct(values.v, brandId, producerId);
      if ok {
        RunProductsOne(before, producerMap, WriteProduct(refs.brand, refs.producer, values.v.sku.value, FieldsOf(values.v)));
      } else {
        RunProductsOne(before, producerMap, BrandOnly(refs.brand));
      }
    }

    /** Iteration `i` of the product loop: on success the loop goes on with the next entry,
        otherwise the run ends here. */
    method ImportProduct(entries: seq<ProductEntry>, i: nat, producerMap: map<string, nat>) returns (more: bool)
      requires i < |entries| && Valid()
      modifies this
      ensures Valid()
      ensures more ==> ImportRest(State(), producerMap, entries[i + 1..])
                       == ImportRest(old(State()), producerMap, entries[i..])
      ensures !more ==> (State(), false) == ImportRest(old(State()), producerMap, entries[i..])
    {
      assert entries[i..][0] == entries[i] && entries[i..][1..] == entries[i + 1..];
      var refs := ProductRefsOf(entries[i]);
      if refs.TypeError? {
        return false;
      }
      more := ApplyProduct(refs.v, ProductValuesOf(entries[i]), producerMap);
    }

    /** Step 2 of `importData`: the product loop. */
    method ImportProducts(entries: seq<ProductEntry>, producerMap: map<string, nat>) returns (ok: bool)
      requires Valid()
      modifies this
      ensures Valid()
      ensures var plan := PlanProducts(entries);
        RunProducts(old(State()), producerMap, plan.writes) == State() && ok == plan.completes
    {
      ImportRestPlan(State(), producerMap, entries);
      var i := 0;
      while i < |entries|
        invariant 0 <= i <= |entries| && Valid()
        invariant ImportRest(State(), producerMap, entries[i..]) == ImportRest(old(State()), producerMap, entries)
      {
        var more := ImportProduct(entries, i, producerMap);
        if !more {
          return false;
        }
        i := i + 1;
      }
      assert entries[i..] == [];
      ok := true;
    }

    /** `importData` from the decoded document on: the two lists, then producers, then
        products; `completed` is false when the catch block logged an error. */
    method ImportData(doc: Document) returns (completed: bool)
      requires Valid()
      modifies this
      ensures Valid()
      ensures Import(old(State()), doc) == Outcome(State(), completed)
    {
      if doc.producers.None? || doc.products.None? {
        return false;
      }
      var producerMap, ok := ImportProducers(doc.producers.value);
      if !ok {
        return false;
      }
      completed := ImportProducts(doc.products.value, producerMap);
    }
  }
}
