/** The batch migration of convex/migrations.ts: every stored product whose
    `skinTypeCompatibility` still holds a legacy string value is patched in
    place with the five-key object encoding, and the number of patched
    documents is returned. */
module Migrations {
  import opened Wrappers
  import opened JsValues
  import opened Products

  /** Product ids are unique within the table, as database ids are. */
  predicate DistinctIds(ds: seq<Product>) {
    forall i, j :: 0 <= i < j < |ds| ==> ds[i].id != ds[j].id
  }

  /** The table after every document has been migrated. */
  function MigrateAll(ds: seq<Product>): (r: seq<Product>)
    ensures |r| == |ds|
    ensures forall j :: 0 <= j < |ds| ==> r[j] == MigrateProduct(ds[j])
  {
    if ds == [] then [] else MigrateAll(ds[..|ds| - 1]) + [MigrateProduct(ds[|ds| - 1])]
  }

  /** How many documents need the upgrade. */
  function CountNeeding(ds: seq<Product>): (n: nat)
    ensures n <= |ds|
  {
    if ds == [] then 0
    else CountNeeding(ds[..|ds| - 1]) + (if NeedsMigration(ds[|ds| - 1].skinTypeCompatibility) then 1 else 0)
  }

  /** How many documents the migration changes. */
  function CountChanged(before: seq<Product>, after: seq<Product>): nat
    requires |before| == |after|
  {
    if before == [] then 0
    else CountChanged(before[..|before| - 1], after[..|after| - 1]) + (if before[|before| - 1] != after[|after| - 1] then 1 else 0)
  }

  /** The `products` table, as a sequence of documents in query order. */
  class ProductTable {
    var docs: seq<Product>

    ghost predicate Valid()
      reads this
    {
      DistinctIds(docs)
    }

    constructor (initial: seq<Product>)
      requires DistinctIds(initial)
      ensures Valid() && docs == initial
    {
      docs := initial;
    }

    /** `ctx.db.patch(id, { skinTypeCompatibility: compat })`: the document
        with that id has its field replaced; every other document and every
        other field is left as it was. */
    method Patch(id: string, compat: Json)
      requires Valid()
      modifies this
      ensures Valid()
      ensures |docs| == |old(docs)|
      ensures forall j :: 0 <= j < |docs| ==>
        docs[j] == if old(docs)[j].id == id then old(docs)[j].(skinTypeCompatibility := Some(compat)) else old(docs)[j]
    {
      var i := 0;
      while i < |docs|
        invariant 0 <= i <= |docs| && |docs| == |old(docs)|
        invariant forall j :: 0 <= j < |docs| ==>
          docs[j] == if j < i && old(docs)[j].id == id then old(docs)[j].(skinTypeCompatibility := Some(compat)) else old(docs)[j]
      {
        if docs[i].id == id {
          docs := docs[i := docs[i].(skinTypeCompatibility := Some(compat))];
        }
        i := i + 1;
      }
    }

    /** `migrateSkinCompatibility`: the table afterwards is the old table
        with every document migrated, and the returned count is the number
        of documents that needed it. */
    method MigrateSkinCompatibility() returns (migrated: nat)
      requires Valid()
      modifies this
      ensures Valid()
      ensures docs == MigrateAll(old(docs))
      ensures migrated == CountNeeding(old(docs))
    {
      var products := docs;
      migrated := 0;
      for i := 0 to |products|
        invariant |docs| == |products| && DistinctIds(docs)
        invariant forall j :: 0 <= j < |docs| ==> docs[j] == if j < i then MigrateProduct(products[j]) else products[j]
        invariant migrated == CountNeeding(products[..i])
      {
        CountNeedingStep(products, i);
        var product := products[i];
        if !IsTruthy(product.skinTypeCompatibility) {
          continue;
        }
        var compatibility := product.skinTypeCompatibility.value;
        var needsMigration := HasStringValue(compatibility);
        if needsMigration {
          var newCompatibility := BuildMigratedCompatibility(compatibility);
          ghost var before := docs;
          Patch(product.id, newCompatibility);
          PatchTouchesOne(before, docs, i, newCompatibility);
          migrated := migrated + 1;
        }
      }
      assert products[..|products|] == products;
    }
  }

  /** One more document counted. */
  lemma CountNeedingStep(ds: seq<Product>, i: int)
    requires 0 <= i < |ds|
    ensures CountNeeding(ds[..i + 1]) ==
      CountNeeding(ds[..i]) + (if NeedsMigration(ds[i].skinTypeCompatibility) then 1 else 0)
  {
    assert ds[..i + 1][..i] == ds[..i];
  }

  /** With distinct ids, patching the id of document `i` changes that
      document alone. */
  lemma PatchTouchesOne(before: seq<Product>, after: seq<Product>, i: int, c: Json)
    requires DistinctIds(before) && 0 <= i < |before| && |after| == |before|
    requires forall j :: 0 <= j < |after| ==>
      after[j] == if before[j].id == before[i].id then before[j].(skinTypeCompatibility := Some(c)) else before[j]
    ensures after[i] == before[i].(skinTypeCompatibility := Some(c))
    ensures forall j :: 0 <= j < |after| && j != i ==> after[j] == before[j]
  {
    forall j | 0 <= j < |after| && j != i ensures after[j] == before[j] {
      assert before[j].id != before[i].id;
    }
  }

  // ---------------------------------------------------------------------
  // Properties
  // ---------------------------------------------------------------------

  /** The returned count is exactly the number of documents the migration
      changed. */
  lemma {:induction false} CountIsChanged(ds: seq<Product>)
    ensures CountChanged(ds, MigrateAll(ds)) == CountNeeding(ds)
  {
    if ds != [] {
      var init := ds[..|ds| - 1];
      CountIsChanged(init);
      assert MigrateAll(ds)[..|ds| - 1] == MigrateAll(init);
      MigrateProductProperties(ds[|ds| - 1]);
    }
  }

  /** After a run no document needs the upgrade, so a second run patches
      nothing, reports zero, and leaves the table as it is. */
  lemma {:induction false} SecondRunIsNoOp(ds: seq<Product>)
    ensures CountNeeding(MigrateAll(ds)) == 0
    ensures MigrateAll(MigrateAll(ds)) == MigrateAll(ds)
  {
    if ds != [] {
      var init := ds[..|ds| - 1];
      SecondRunIsNoOp(init);
      var m := MigrateAll(ds);
      assert m[..|m| - 1] == MigrateAll(init);
      MigrateProductProperties(ds[|ds| - 1]);
    }
  }

  /** The migration changes no id, order or field other than
      `skinTypeCompatibility`, and leaves documents without a string value
      untouched. */
  lemma MigrationOnlyTouchesSkinField(ds: seq<Product>)
    ensures |MigrateAll(ds)| == |ds|
    ensures forall j :: 0 <= j < |ds| ==>
      MigrateAll(ds)[j] == ds[j].(skinTypeCompatibility := MigrateAll(ds)[j].skinTypeCompatibility)
    ensures forall j :: 0 <= j < |ds| && !NeedsMigration(ds[j].skinTypeCompatibility) ==> MigrateAll(ds)[j] == ds[j]
  {
    forall j | 0 <= j < |ds|
      ensures MigrateAll(ds)[j] == ds[j].(skinTypeCompatibility := MigrateAll(ds)[j].skinTypeCompatibility)
    {
      MigrateProductProperties(ds[j]);
    }
  }
}
