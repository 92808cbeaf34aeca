/** The product table's queries and mutations (convex/products.ts):
    `saveProduct` turns an accepted recognition into a stored record,
    `searchProducts` filters, ranks and truncates the table for a free-text
    query, and `getById` upgrades the legacy string-only encoding of
    `skinTypeCompatibility` on read. */
module Products {
  import opened Wrappers
  import opened JsValues
  import AiLogic

  datatype Category = Skin | Hair | Mixed | Unknown

  /** A document of the `products` table (convex/schema.ts). */
  datatype Product = Product(
    id: string,
    brand: string,
    name: string,
    description: string,
    rating: real,
    pros: Json,
    cons: Json,
    ingredientsAnalysis: string,
    priceEstimate: string,
    imageUrl: string,
    category: Option<Category>,
    skinTypeCompatibility: Option<Json>,
    hairTypeCompatibility: Option<Json>)

  // ---------------------------------------------------------------------
  // saveProduct (lines 36-47)
  // ---------------------------------------------------------------------

  /** The arguments of `saveProduct`, as its validators admit them. */
  datatype SaveArgs = SaveArgs(
    brand: string,
    name: string,
    analysis: Option<Json>,
    price: string,
    storageId: string,
    skinCompatibility: Option<Json>)

  /** `x || []`. */
  function OrEmpty(x: Option<Json>): Json {
    if IsTruthy(x) then x.value else JArr([], map[])
  }

  /** The record `saveProduct` inserts under the fresh id `newId`, with
      `stringify` as `JSON.stringify`; `None` when `args.analysis.pros`
      throws because the analysis is null or undefined. */
  function SaveProduct(args: SaveArgs, stringify: Json -> string, newId: string): (r: Option<Product>)
    ensures r.Some? <==> args.analysis.Some? && args.analysis.value != JNull
    ensures r.Some? ==>
      && r.value.id == newId && r.value.brand == args.brand && r.value.name == args.name
      && r.value.ingredientsAnalysis == stringify(args.analysis.value)
      && r.value.priceEstimate == args.price && r.value.imageUrl == args.storageId
      && r.value.rating == 0.0 && r.value.description == ""
      && (IsTruthy(Prop(args.analysis.value, "pros")) ==> Some(r.value.pros) == Prop(args.analysis.value, "pros"))
      && (!IsTruthy(Prop(args.analysis.value, "pros")) ==> r.value.pros == JArr([], map[]))
      && (IsTruthy(Prop(args.analysis.value, "cons")) ==> Some(r.value.cons) == Prop(args.analysis.value, "cons"))
      && (!IsTruthy(Prop(args.analysis.value, "cons")) ==> r.value.cons == JArr([], map[]))
      && (r.value.skinTypeCompatibility.Some? <==> IsTruthy(args.skinCompatibility))
      && (r.value.skinTypeCompatibility.Some? ==> r.value.skinTypeCompatibility == args.skinCompatibility)
      && r.value.category.None? && r.value.hairTypeCompatibility.None?
  {
    if args.analysis.None? || args.analysis.value == JNull then None
    else
      var a := args.analysis.value;
      Some(Product(
        newId, args.brand, args.name, "", 0.0,
        OrEmpty(Prop(a, "pros")), OrEmpty(Prop(a, "cons")),
        stringify(a), args.price, args.storageId, None,
        if IsTruthy(args.skinCompatibility) then args.skinCompatibility else None,
        None))
  }

  // ---------------------------------------------------------------------
  // searchProducts (lines 63-98)
  // ---------------------------------------------------------------------

  /** The locale-dependent library functions the search relies on:
      `toLowerCase`, and `localeCompare` as the comparison of a real-valued
      collation key (every countable total preorder has such a key). */
  datatype Locale = Locale(lower: string -> string, collationKey: string -> real)

  /** ECMAScript WhiteSpace and LineTerminator code points, which `trim`
      removes. */
  predicate IsJsSpace(c: char) {
    || c in {'\t', '\n', '\U{000B}', '\U{000C}', '\r', ' ', '\U{00A0}', '\U{1680}'}
    || ('\U{2000}' <= c <= '\U{200A}')
    || c in {'\U{2028}', '\U{2029}', '\U{202F}', '\U{205F}', '\U{3000}', '\U{FEFF}'}
  }

  function TrimStart(s: string): (r: string)
    ensures |r| <= |s| && r == s[|s| - |r|..]
    ensures r != [] ==> !IsJsSpace(r[0])
    ensures forall i :: 0 <= i < |s| - |r| ==> IsJsSpace(s[i])
  {
    if s != [] && IsJsSpace(s[0]) then TrimStart(s[1..]) else s
  }

  function TrimEnd(s: string): (r: string)
    ensures |r| <= |s| && r == s[..|r|]
    ensures r != [] ==> !IsJsSpace(r[|r| - 1])
    ensures forall i :: |r| <= i < |s| ==> IsJsSpace(s[i])
  {
    if s != [] && IsJsSpace(s[|s| - 1]) then TrimEnd(s[..|s| - 1]) else s
  }

  /** `s.trim()`. */
  function Trim(s: string): string {
    TrimEnd(TrimStart(s))
  }

  /** `s.includes(q)`. */
  predicate Contains(s: string, q: string) {
    q <= s || (s != [] && Contains(s[1..], q))
  }

  /** The normalised query of line 66. */
  function SearchQuery(raw: string, loc: Locale): string {
    loc.lower(Trim(raw))
  }

  /** The filter of lines 74-78. */
  predicate Matches(p: Product, q: string, loc: Locale) {
    Contains(loc.lower(p.name), q) || Contains(loc.lower(p.brand), q)
  }

  function Filter(ps: seq<Product>, q: string, loc: Locale): (r: seq<Product>)
    ensures multiset(r) <= multiset(ps)
    ensures forall i :: 0 <= i < |r| ==> Matches(r[i], q, loc)
    ensures forall p :: Matches(p, q, loc) ==> multiset(r)[p] == multiset(ps)[p]
  {
    if ps == [] then []
    else
      assert ps == [ps[0]] + ps[1..];
      (if Matches(ps[0], q, loc) then [ps[0]] else []) + Filter(ps[1..], q, loc)
  }

  predicate NamePrefix(p: Product, q: string, loc: Locale) {
    q <= loc.lower(p.name)
  }

  predicate BrandPrefix(p: Product, q: string, loc: Locale) {
    q <= loc.lower(p.brand)
  }

  /** `a.name.localeCompare(b.name)`. */
  function Collate(loc: Locale, x: string, y: string): int {
    var kx := loc.collationKey(x);
    var ky := loc.collationKey(y);
    if kx < ky then -1 else if kx > ky then 1 else 0
  }

  /** The comparator of lines 81-92. */
  function Compare(a: Product, b: Product, q: string, loc: Locale): int {
    var aName := NamePrefix(a, q, loc);
    var bName := NamePrefix(b, q, loc);
    if aName && !bName then -1
    else if !aName && bName then 1
    else
      var aBrand := BrandPrefix(a, q, loc);
      var bBrand := BrandPrefix(b, q, loc);
      if aBrand && !bBrand then -1
      else if !aBrand && bBrand then 1
      else Collate(loc, a.name, b.name)
  }

  predicate Leq(a: Product, b: Product, q: string, loc: Locale) {
    Compare(a, b, q, loc) <= 0
  }

  /** Inserting `x` after every element it does not precede keeps the sort
      stable, as ECMAScript requires of `Array.prototype.sort`. */
  function Insert(x: Product, s: seq<Product>, q: string, loc: Locale): seq<Product> {
    if s == [] then [x]
    else if Compare(x, s[0], q, loc) < 0 then [x] + s
    else [s[0]] + Insert(x, s[1..], q, loc)
  }

  /** `s.sort(comparator)`. */
  function Sort(s: seq<Product>, q: string, loc: Locale): seq<Product> {
    if s == [] then [] else Insert(s[|s| - 1], Sort(s[..|s| - 1], q, loc), q, loc)
  }

  /** `searchProducts` over the collected table `products`. */
  function SearchProducts(products: seq<Product>, raw: string, loc: Locale): seq<Product> {
    var q := SearchQuery(raw, loc);
    if q == "" || |q| < 2 then []
    else
      var sorted := Sort(Filter(products, q, loc), q, loc);
      sorted[..if |sorted| < 20 then |sorted| else 20]
  }

  // ---------------------------------------------------------------------
  // getById's on-read migration (lines 101-142)
  // ---------------------------------------------------------------------

  /** `Object.values(c).some(val => typeof val === 'string')`. */
  predicate HasStringValue(c: Json) {
    match c
    case JStr(s) => s != ""
    case JObj(m) => exists k :: k in m && m[k].JStr?
    case JArr(items, p) => (exists i :: 0 <= i < |items| && items[i].JStr?) || (exists k :: k in p && p[k].JStr?)
    case _ => false
  }

  /** A stored compatibility field that is truthy and holds a string. */
  predicate NeedsMigration(c: Option<Json>) {
    IsTruthy(c) && HasStringValue(c.value)
  }

  /** The per-key mapping of lines 118-132 (repeated verbatim in
      convex/migrations.ts:22-35): a string becomes `{string, default
      score}` without validating the status, a truthy object is kept, and
      anything else is `{neutral, 50}`. */
  function LegacyEntry(v: Option<Json>): Json {
    if v.Some? && v.value.JStr? then AiLogic.Item(v.value.s, AiLogic.DefaultScore(v.value.s))
    else if IsTruthy(v) && IsObject(v.value) then v.value
    else AiLogic.Item("neutral", 50)
  }

  /** The `newCompatibility` map: exactly the five keys. */
  function MigratedCompat(c: Json): Json {
    JObj(map k | k in AiLogic.SKIN_KEYS :: LegacyEntry(Prop(c, k)))
  }

  /** A product with its legacy compatibility upgraded; unchanged when the
      field is absent, falsy or holds no string. */
  function MigrateProduct(p: Product): Product {
    if NeedsMigration(p.skinTypeCompatibility)
    then p.(skinTypeCompatibility := Some(MigratedCompat(p.skinTypeCompatibility.value)))
    else p
  }

  /** The loop of lines 116-132, shared by `getById` and the batch
      migration. */
  method BuildMigratedCompatibility(compatibility: Json) returns (newCompatibility: Json)
    ensures newCompatibility == MigratedCompat(compatibility)
  {
    newCompatibility := JObj(map[]);
    for i := 0 to |AiLogic.SKIN_KEYS|
      invariant newCompatibility.JObj?
      invariant forall k :: Prop(newCompatibility, k) == (if k in AiLogic.SKIN_KEYS[..i] then Some(LegacyEntry(Prop(compatibility, k))) else None)
    {
      var key := AiLogic.SKIN_KEYS[i];
      assert AiLogic.SKIN_KEYS[..i + 1] == AiLogic.SKIN_KEYS[..i] + [key];
      var oldValue := Prop(compatibility, key);
      if oldValue.Some? && oldValue.value.JStr? {
        var status := oldValue.value.s;
        var score := if status == "good" then 75 else if status == "bad" then 25 else 50;
        newCompatibility := SetProp(newCompatibility, key, AiLogic.Item(status, score));
      } else if IsTruthy(oldValue) && IsObject(oldValue.value) {
        newCompatibility := SetProp(newCompatibility, key, oldValue.value);
      } else {
        newCompatibility := SetProp(newCompatibility, key, AiLogic.Item("neutral", 50));
      }
    }
    assert AiLogic.SKIN_KEYS[..|AiLogic.SKIN_KEYS|] == AiLogic.SKIN_KEYS;
    SamePropsSameValue(newCompatibility, MigratedCompat(compatibility));
  }

  /** `getById`, given what `ctx.db.get` found. */
  method GetById(stored: Option<Product>) returns (r: Option<Product>)
    ensures stored.None? ==> r.None?
    ensures stored.Some? ==> r == Some(MigrateProduct(stored.value))
  {
    if stored.None? {
      return None;
    }
    var product := stored.value;
    if IsTruthy(product.skinTypeCompatibility) {
      var compatibility := product.skinTypeCompatibility.value;
      if HasStringValue(compatibility) {
        var newCompatibility := BuildMigratedCompatibility(compatibility);
        return Some(product.(skinTypeCompatibility := Some(newCompatibility)));
      }
    }
    return Some(product);
  }

  // ---------------------------------------------------------------------
  // Properties of the search
  // ---------------------------------------------------------------------

  predicate Sorted(s: seq<Product>, q: string, loc: Locale) {
    forall i, j :: 0 <= i < j < |s| ==> Leq(s[i], s[j], q, loc)
  }

  lemma LeqTotal(a: Product, b: Product, q: string, loc: Locale)
    ensures Leq(a, b, q, loc) || Leq(b, a, q, loc)
    ensures Compare(a, b, q, loc) >= 0 ==> Leq(b, a, q, loc)
  {
  }

  lemma LeqTrans(a: Product, b: Product, c: Product, q: string, loc: Locale)
    requires Leq(a, b, q, loc) && Leq(b, c, q, loc)
    ensures Leq(a, c, q, loc)
  {
  }

  /** Inserting adds exactly the one element. */
  lemma {:induction false} InsertPermutes(x: Product, s: seq<Product>, q: string, loc: Locale)
    ensures multiset(Insert(x, s, q, loc)) == multiset(s) + multiset{x}
  {
    if s != [] && Compare(x, s[0], q, loc) >= 0 {
      InsertPermutes(x, s[1..], q, loc);
      assert s == [s[0]] + s[1..];
    }
  }

  lemma {:induction false} InsertSorted(x: Product, s: seq<Product>, q: string, loc: Locale)
    requires Sorted(s, q, loc)
    ensures multiset(Insert(x, s, q, loc)) == multiset(s) + multiset{x}
    ensures Sorted(Insert(x, s, q, loc), q, loc)
  {
    InsertPermutes(x, s, q, loc);
    if s == [] {
    } else if Compare(x, s[0], q, loc) < 0 {
      forall j | 0 <= j < |s| ensures Leq(x, s[j], q, loc) {
        if j > 0 { LeqTrans(x, s[0], s[j], q, loc); }
      }
    } else {
      var t := Insert(x, s[1..], q, loc);
      InsertSorted(x, s[1..], q, loc);
      assert s == [s[0]] + s[1..];
      LeqTotal(x, s[0], q, loc);
      forall j | 0 <= j < |t| ensures Leq(s[0], t[j], q, loc) {
        assert t[j] in multiset(t);
        if t[j] != x {
          assert t[j] in multiset(s[1..]);
          var k :| 0 <= k < |s[1..]| && s[1..][k] == t[j];
          assert s[k + 1] == t[j];
        }
      }
      var r := [s[0]] + t;
      forall i, j | 0 <= i < j < |r| ensures Leq(r[i], r[j], q, loc) {
        if i > 0 { assert r[i] == t[i - 1] && r[j] == t[j - 1]; }
      }
    }
  }

  /** `Array.prototype.sort` with the ranking comparator returns a
      permutation of its input, ordered by the comparator. */
  lemma {:induction false} SortSorted(s: seq<Product>, q: string, loc: Locale)
    ensures multiset(Sort(s, q, loc)) == multiset(s)
    ensures Sorted(Sort(s, q, loc), q, loc)
  {
    if s != [] {
      SortSorted(s[..|s| - 1], q, loc);
      InsertSorted(s[|s| - 1], Sort(s[..|s| - 1], q, loc), q, loc);
      assert s == s[..|s| - 1] + [s[|s| - 1]];
    }
  }

  /** Lines 66-67: a query that is empty or shorter than two characters after
      trimming and lowercasing finds nothing. */
  lemma ShortQueryFindsNothing(products: seq<Product>, raw: string, loc: Locale)
    requires |SearchQuery(raw, loc)| < 2
    ensures SearchProducts(products, raw, loc) == []
  {
  }

  lemma TakeSub(s: seq<Product>, n: nat)
    requires n <= |s|
    ensures multiset(s[..n]) <= multiset(s)
  {
    assert s == s[..n] + s[n..];
  }

  /** The ranked list of all matches is as long as the list of matches and
      holds only matches. */
  lemma RankedMatches(products: seq<Product>, q: string, loc: Locale)
    ensures var f := Filter(products, q, loc);
      var sorted := Sort(f, q, loc);
      && |sorted| == |f|
      && multiset(sorted) <= multiset(products)
      && forall i :: 0 <= i < |sorted| ==> Matches(sorted[i], q, loc)
  {
    var f := Filter(products, q, loc);
    var sorted := Sort(f, q, loc);
    SortSorted(f, q, loc);
    assert |sorted| == |f| by {
      assert |multiset(sorted)| == |multiset(f)|;
    }
    forall i | 0 <= i < |sorted| ensures Matches(sorted[i], q, loc) {
      assert sorted[i] in multiset(f);
      var k :| 0 <= k < |f| && f[k] == sorted[i];
    }
  }

  /** Lines 74-96: every result contains the query in its lowercased name or
      brand, results are drawn from the stored products, there are at most
      20 of them, and they are a prefix of the ranked list of all matches. */
  lemma SearchSound(products: seq<Product>, raw: string, loc: Locale)
    requires |SearchQuery(raw, loc)| >= 2
    ensures var q := SearchQuery(raw, loc);
      var r := SearchProducts(products, raw, loc);
      && |r| <= 20
      && r <= Sort(Filter(products, q, loc), q, loc)
      && (forall i :: 0 <= i < |r| ==> Matches(r[i], q, loc))
      && multiset(r) <= multiset(products)
  {
    var q := SearchQuery(raw, loc);
    var sorted := Sort(Filter(products, q, loc), q, loc);
    RankedMatches(products, q, loc);
    var r := SearchProducts(products, raw, loc);
    TakeSub(sorted, |r|);
  }

  /** Line 96: when at most 20 products match, every match is returned;
      otherwise exactly 20 are. */
  lemma SearchComplete(products: seq<Product>, raw: string, loc: Locale)
    requires |SearchQuery(raw, loc)| >= 2
    ensures var q := SearchQuery(raw, loc);
      var r := SearchProducts(products, raw, loc);
      var f := Filter(products, q, loc);
      && (|f| <= 20 ==> multiset(r) == multiset(f))
      && (|f| <= 20 ==> forall p :: Matches(p, q, loc) ==> multiset(r)[p] == multiset(products)[p])
      && (|f| >= 20 ==> |r| == 20)
  {
    var q := SearchQuery(raw, loc);
    var f := Filter(products, q, loc);
    SortSorted(f, q, loc);
    RankedMatches(products, q, loc);
    var sorted := Sort(f, q, loc);
    if |f| <= 20 {
      assert SearchProducts(products, raw, loc) == sorted[..|sorted|];
      assert sorted[..|sorted|] == sorted;
    }
  }

  /** Lines 81-92: name-prefix matches come before the rest; among products
      with the same name-prefix standing brand-prefix matches come first; the
      remaining ties are in collation order of the name. */
  lemma SearchRanking(products: seq<Product>, raw: string, loc: Locale, i: int, j: int)
    requires 0 <= i < j < |SearchProducts(products, raw, loc)|
    ensures var q := SearchQuery(raw, loc);
      var r := SearchProducts(products, raw, loc);
      && (NamePrefix(r[j], q, loc) ==> NamePrefix(r[i], q, loc))
      && (NamePrefix(r[i], q, loc) == NamePrefix(r[j], q, loc) && BrandPrefix(r[j], q, loc) ==> BrandPrefix(r[i], q, loc))
      && (NamePrefix(r[i], q, loc) == NamePrefix(r[j], q, loc) && BrandPrefix(r[i], q, loc) == BrandPrefix(r[j], q, loc) ==>
          loc.collationKey(r[i].name) <= loc.collationKey(r[j].name))
  {
    var q := SearchQuery(raw, loc);
    var f := Filter(products, q, loc);
    SortSorted(f, q, loc);
    var sorted := Sort(f, q, loc);
    assert Leq(sorted[i], sorted[j], q, loc);
  }

  // ---------------------------------------------------------------------
  // Properties of the legacy mapping
  // ---------------------------------------------------------------------

  /** Lines 116-132: a migrated map holds exactly the five keys, each mapped
      by the per-key rule, and no string value. */
  lemma MigratedCompatShape(c: Json)
    ensures forall k :: Prop(MigratedCompat(c), k).Some? <==> k in AiLogic.SKIN_KEYS
    ensures forall k :: k in AiLogic.SKIN_KEYS ==> Prop(MigratedCompat(c), k) == Some(LegacyEntry(Prop(c, k)))
    ensures !HasStringValue(MigratedCompat(c))
  {
    var m := MigratedCompat(c).fields;
    forall k | k in m ensures !m[k].JStr? {
      assert m[k] == LegacyEntry(Prop(c, k));
    }
  }

  /** The per-key rule: `{s, 75 if good / 25 if bad / else 50}` for a string
      `s` (so an unknown status such as "great" is kept with 50), an object
      kept as it is, `{neutral, 50}` for anything else. */
  lemma LegacyEntryRule(v: Option<Json>)
    ensures v.Some? && v.value.JStr? ==>
      LegacyEntry(v) == AiLogic.Item(v.value.s, if v.value.s == "good" then 75 else if v.value.s == "bad" then 25 else 50)
    ensures v.Some? && IsObject(v.value) ==> LegacyEntry(v) == v.value
    ensures v.None? || v.value.JNull? || v.value.JBool? || v.value.JNum? ==> LegacyEntry(v) == AiLogic.Item("neutral", 50)
  {
  }

  /** `getById` touches nothing but `skinTypeCompatibility`, and only when a
      string value is present; after the upgrade no string value is left,
      so upgrading again changes nothing. */
  lemma MigrateProductProperties(p: Product)
    ensures MigrateProduct(p) == p.(skinTypeCompatibility := MigrateProduct(p).skinTypeCompatibility)
    ensures !NeedsMigration(p.skinTypeCompatibility) ==> MigrateProduct(p) == p
    ensures NeedsMigration(p.skinTypeCompatibility) ==> MigrateProduct(p) != p
    ensures !NeedsMigration(MigrateProduct(p).skinTypeCompatibility)
    ensures MigrateProduct(MigrateProduct(p)) == MigrateProduct(p)
  {
    if NeedsMigration(p.skinTypeCompatibility) {
      MigratedCompatShape(p.skinTypeCompatibility.value);
    }
  }
}
