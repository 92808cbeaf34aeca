/** The pure helpers of the product screen, app/product-result.tsx: the
    decode of the stored analysis and of a stored compatibility value, the
    icon colour of an ingredient status, the ordered keyword classifier that
    picks an ingredient's icon, the compatibility style with its precedence
    rules, and the conditions under which the compatibility card and the
    expanded compatibility block are shown. */
module ProductResult {
  import opened Wrappers
  import opened JsValues
  import AiLogic
  import opened Products

  // ---------------------------------------------------------------------
  // Decoding the stored analysis (lines 75-90)
  // ---------------------------------------------------------------------

  /** `CosmeticAnalysis` as the screen holds it. */
  datatype CosmeticAnalysis = CosmeticAnalysis(pros: Json, cons: Json, hazards: Json, ingredients: Json)

  const EMPTY_ARRAY: Json := JArr([], map[])

  /** The analysis the screen starts from and keeps when decoding fails. */
  const DEFAULT_ANALYSIS: CosmeticAnalysis := CosmeticAnalysis(EMPTY_ARRAY, EMPTY_ARRAY, JStr("low"), EMPTY_ARRAY)

  /** `Array.isArray(x) ? x : []`. */
  function ArrayOr(x: Option<Json>): (r: Json)
    ensures r.JArr?
    ensures x.Some? && x.value.JArr? ==> r == x.value
    ensures !(x.Some? && x.value.JArr?) ==> r == EMPTY_ARRAY
  {
    if x.Some? && x.value.JArr? then x.value else EMPTY_ARRAY
  }

  /** `x || 'low'`. */
  function HazardsOr(x: Option<Json>): (r: Json)
    ensures Truthy(r)
    ensures IsTruthy(x) ==> r == x.value
    ensures !IsTruthy(x) ==> r == JStr("low")
  {
    if IsTruthy(x) then x.value else JStr("low")
  }

  /** The decode of `ingredientsAnalysis`, a string by the schema, with
      `parse` as `JSON.parse` (`None` where it throws): a failed parse or a
      value that is not a non-null object leaves the default analysis;
      otherwise every list that is not an array becomes empty and a falsy
      `hazards` becomes "low", while a truthy one passes unchecked. */
  function DecodeAnalysis(stored: string, parse: string -> Option<Json>): (r: CosmeticAnalysis)
    ensures parse(stored).None? ==> r == DEFAULT_ANALYSIS
    ensures parse(stored).Some? && !(Truthy(parse(stored).value) && IsObject(parse(stored).value)) ==>
      r == DEFAULT_ANALYSIS
    ensures r.pros.JArr? && r.cons.JArr? && r.ingredients.JArr? && Truthy(r.hazards)
    ensures parse(stored).Some? && IsObject(parse(stored).value) ==>
      && (Prop(parse(stored).value, "pros").Some? && Prop(parse(stored).value, "pros").value.JArr? ==>
            Some(r.pros) == Prop(parse(stored).value, "pros"))
      && (Prop(parse(stored).value, "cons").Some? && Prop(parse(stored).value, "cons").value.JArr? ==>
            Some(r.cons) == Prop(parse(stored).value, "cons"))
      && (Prop(parse(stored).value, "ingredients").Some? && Prop(parse(stored).value, "ingredients").value.JArr? ==>
            Some(r.ingredients) == Prop(parse(stored).value, "ingredients"))
      && (IsTruthy(Prop(parse(stored).value, "hazards")) ==> Some(r.hazards) == Prop(parse(stored).value, "hazards"))
    ensures parse(stored).Some? && IsObject(parse(stored).value) ==>
      && (!(Prop(parse(stored).value, "pros").Some? && Prop(parse(stored).value, "pros").value.JArr?) ==>
            r.pros == EMPTY_ARRAY)
      && (!(Prop(parse(stored).value, "cons").Some? && Prop(parse(stored).value, "cons").value.JArr?) ==>
            r.cons == EMPTY_ARRAY)
      && (!(Prop(parse(stored).value, "ingredients").Some? && Prop(parse(stored).value, "ingredients").value.JArr?) ==>
            r.ingredients == EMPTY_ARRAY)
      && (!IsTruthy(Prop(parse(stored).value, "hazards")) ==> r.hazards == JStr("low"))
  {
    var parsed := parse(stored);
    if parsed.Some? && Truthy(parsed.value) && IsObject(parsed.value) then
      var p := parsed.value;
      CosmeticAnalysis(ArrayOr(Prop(p, "pros")), ArrayOr(Prop(p, "cons")), HazardsOr(Prop(p, "hazards")),
                       ArrayOr(Prop(p, "ingredients")))
    else
      DEFAULT_ANALYSIS
  }

  /** The object `{pros, cons, hazards, ingredients}`. */
  function EncodeAnalysis(a: CosmeticAnalysis): (v: Json)
    ensures IsObject(v) && Truthy(v)
    ensures v.JObj? && v.fields.Keys == {"pros", "cons", "hazards", "ingredients"}
    ensures Prop(v, "pros") == Some(a.pros) && Prop(v, "cons") == Some(a.cons)
    ensures Prop(v, "hazards") == Some(a.hazards) && Prop(v, "ingredients") == Some(a.ingredients)
  {
    JObj(map["pros" := a.pros, "cons" := a.cons, "hazards" := a.hazards, "ingredients" := a.ingredients])
  }

  /** What the decode can produce: three arrays and a truthy hazards value. */
  predicate WellFormedAnalysis(a: CosmeticAnalysis) {
    a.pros.JArr? && a.cons.JArr? && a.ingredients.JArr? && Truthy(a.hazards)
  }

  /** Round trip: when `JSON.parse` undoes `JSON.stringify`, decoding the
      stored text of an encoded analysis gives that analysis back exactly
      when it is one the decode can produce. */
  lemma DecodeEncode(a: CosmeticAnalysis, stringify: Json -> string, parse: string -> Option<Json>)
    requires parse(stringify(EncodeAnalysis(a))) == Some(EncodeAnalysis(a))
    ensures DecodeAnalysis(stringify(EncodeAnalysis(a)), parse) == a <==> WellFormedAnalysis(a)
  {
  }

  /** What the screen shows for a product `saveProduct` stored: when the
      parser undoes the serialiser, the analysis the AI returned comes back
      with its arrays and a truthy `hazards` intact. */
  lemma SavedAnalysisDecodes(args: SaveArgs, stringify: Json -> string, parse: string -> Option<Json>, newId: string)
    requires SaveProduct(args, stringify, newId).Some?
    requires parse(stringify(args.analysis.value)) == Some(args.analysis.value)
    requires IsObject(args.analysis.value)
    ensures DecodeAnalysis(SaveProduct(args, stringify, newId).value.ingredientsAnalysis, parse) ==
      CosmeticAnalysis(ArrayOr(Prop(args.analysis.value, "pros")), ArrayOr(Prop(args.analysis.value, "cons")),
                       HazardsOr(Prop(args.analysis.value, "hazards")),
                       ArrayOr(Prop(args.analysis.value, "ingredients")))
  {
  }

  /** The safety badge of lines 419-436: its icon. Every hazards value other
      than "low" and "medium" shows the warning, whatever it is. */
  function HazardIcon(hazards: Json): (r: string)
    ensures r == "shield-checkmark" <==> hazards == JStr("low")
    ensures r == "shield" <==> hazards == JStr("medium")
    ensures r == "warning" <==> hazards != JStr("low") && hazards != JStr("medium")
  {
    if hazards == JStr("low") then "shield-checkmark"
    else if hazards == JStr("medium") then "shield"
    else "warning"
  }

  /** A stored analysis the parser cannot read shows the low-risk badge. */
  lemma UnreadableAnalysisLooksSafe(stored: string, parse: string -> Option<Json>)
    requires parse(stored).None?
    ensures HazardIcon(DecodeAnalysis(stored, parse).hazards) == "shield-checkmark"
  {
  }

  // ---------------------------------------------------------------------
  // Decoding a stored compatibility value (lines 92-112)
  // ---------------------------------------------------------------------

  /** A truthy string is parsed, and a parse failure leaves `undefined`;
      every other value is used as stored. */
  function DecodeCompatibility(stored: Option<Json>, parse: string -> Option<Json>): (r: Option<Json>)
    ensures !(IsTruthy(stored) && stored.value.JStr?) ==> r == stored
    ensures IsTruthy(stored) && stored.value.JStr? ==> r == parse(stored.value.s)
  {
    if IsTruthy(stored) && stored.value.JStr? then parse(stored.value.s) else stored
  }

  // ---------------------------------------------------------------------
  // getIconColor (lines 115-127)
  // ---------------------------------------------------------------------

  const GREEN := "#34C759"
  const ORANGE := "#FF9500"
  const RED := "#FF3B30"
  const GREY := "#8E8E93"

  function GetIconColor(status: string): (r: string)
    ensures r == GREEN <==> status == "green"
    ensures r == ORANGE <==> status == "yellow"
    ensures r == RED <==> status == "red"
    ensures r == GREY <==> status != "green" && status != "yellow" && status != "red"
  {
    match status
    case "green" => GREEN
    case "yellow" => ORANGE
    case "red" => RED
    case _ => GREY
  }

  // ---------------------------------------------------------------------
  // getIngredientIcon (lines 129-209)
  // ---------------------------------------------------------------------

  /** `Ingredient` of types/products.ts. */
  datatype Ingredient = Ingredient(name: string, desc: string, status: string)

  /** The nine keyword groups, tested in this order. */
  datatype Group =
    Moisturising | Antioxidant | Acid | Oil | Peptide | Ceramide | Preservative | Alcohol | Sunscreen

  /** The position of a group in the test order. */
  function Rank(g: Group): nat {
    match g
    case Moisturising => 0
    case Antioxidant => 1
    case Acid => 2
    case Oil => 3
    case Peptide => 4
    case Ceramide => 5
    case Preservative => 6
    case Alcohol => 7
    case Sunscreen => 8
  }

  /** The keywords searched for in the lower-cased name. */
  function NameKeys(g: Group): seq<string> {
    match g
    case Moisturising => ["глицерин", "glycerin", "гиалурон", "hyaluron"]
    case Antioxidant => ["витамин", "vitamin", "токоферол", "tocopherol", "аскорби", "ascorbic"]
    case Acid => ["кислот", "acid", "салицилов", "salicylic", "гликолев", "glycolic"]
    case Oil => ["масло", "oil", "сквалан", "squalane"]
    case Peptide => ["пептид", "peptide", "белок", "protein"]
    case Ceramide => ["керамид", "ceramide"]
    case Preservative => ["парабен", "paraben", "фенокси", "phenoxy"]
    case Alcohol => ["спирт", "alcohol", "этанол", "ethanol"]
    case Sunscreen => ["оксид", "oxide", "цинк", "zinc"]
  }

  /** The keywords searched for in the lower-cased description. */
  function DescKeys(g: Group): seq<string> {
    match g
    case Moisturising => ["увлажн", "влагу"]
    case Antioxidant => ["антиоксидант", "витамин"]
    case Acid => ["отшелуш", "exfoliat"]
    case Oil => ["эмолент", "масло"]
    case Peptide => ["пептид", "белок"]
    case Ceramide => ["керамид"]
    case Preservative => ["консервант", "стабилизатор"]
    case Alcohol => ["спирт"]
    case Sunscreen => ["spf", "uv", "солнце"]
  }

  /** The icon a group gives. */
  function GroupIcon(g: Group): string {
    match g
    case Moisturising => "water"
    case Antioxidant => "leaf"
    case Acid => "flask"
    case Oil => "water"
    case Peptide => "fitness"
    case Ceramide => "shield-checkmark"
    case Preservative => "lock-closed"
    case Alcohol => "flame"
    case Sunscreen => "sunny"
  }

  /** `keys.some(k => s.includes(k))`, written as the source's `||` chain. */
  predicate AnyContains(s: string, keys: seq<string>) {
    |keys| > 0 && (Contains(s, keys[0]) || AnyContains(s, keys[1..]))
  }

  /** `AnyContains` holds exactly when some key occurs. */
  lemma {:induction false} AnyContainsIff(s: string, keys: seq<string>)
    ensures AnyContains(s, keys) <==> exists i :: 0 <= i < |keys| && Contains(s, keys[i])
  {
    if |keys| > 0 {
      AnyContainsIff(s, keys[1..]);
      if AnyContains(s, keys[1..]) {
        var i :| 0 <= i < |keys| - 1 && Contains(s, keys[1..][i]);
        assert Contains(s, keys[i + 1]);
      }
      if exists i :: 0 <= i < |keys| && Contains(s, keys[i]) {
        var i :| 0 <= i < |keys| && Contains(s, keys[i]);
        if i > 0 {
          assert Contains(s, keys[1..][i - 1]);
        }
      }
    }
  }

  /** A group's test: one of its name keywords in the name, or one of its
      description keywords in the description. */
  predicate Hits(g: Group, name: string, desc: string) {
    AnyContains(name, NameKeys(g)) || AnyContains(desc, DescKeys(g))
  }

  /** The `if` chain of lines 134-197 on the lower-cased name and
      description: the group whose test fires first, if any. It fires, and
      no group tested before it does; with no result no group fires. */
  function KeywordGroup(name: string, desc: string): (r: Option<Group>)
    ensures r.Some? ==> Hits(r.value, name, desc)
    ensures forall g :: Rank(g) < (if r.Some? then Rank(r.value) else 9) ==> !Hits(g, name, desc)
  {
    if Hits(Moisturising, name, desc) then Some(Moisturising)
    else if Hits(Antioxidant, name, desc) then Some(Antioxidant)
    else if Hits(Acid, name, desc) then Some(Acid)
    else if Hits(Oil, name, desc) then Some(Oil)
    else if Hits(Peptide, name, desc) then Some(Peptide)
    else if Hits(Ceramide, name, desc) then Some(Ceramide)
    else if Hits(Preservative, name, desc) then Some(Preservative)
    else if Hits(Alcohol, name, desc) then Some(Alcohol)
    else if Hits(Sunscreen, name, desc) then Some(Sunscreen)
    else None
  }

  /** The fallback of lines 199-208. */
  function StatusIcon(status: string): (r: string)
    ensures r == "checkmark-circle" <==> status == "green"
    ensures r == "warning" <==> status == "yellow"
    ensures r == "alert-circle" <==> status == "red"
    ensures r == "ellipse" <==> status != "green" && status != "yellow" && status != "red"
  {
    match status
    case "green" => "checkmark-circle"
    case "yellow" => "warning"
    case "red" => "alert-circle"
    case _ => "ellipse"
  }

  /** `getIngredientIcon`, with `lower` as `toLowerCase`. */
  function GetIngredientIcon(ing: Ingredient, lower: string -> string): string {
    var g := KeywordGroup(lower(ing.name), lower(ing.desc));
    if g.Some? then GroupIcon(g.value) else StatusIcon(ing.status)
  }

  /** The first group that fires decides the icon, whatever fires later and
      whatever the status. */
  lemma FirstHitWins(ing: Ingredient, lower: string -> string, g: Group)
    requires Hits(g, lower(ing.name), lower(ing.desc))
    requires forall h :: Rank(h) < Rank(g) ==> !Hits(h, lower(ing.name), lower(ing.desc))
    ensures GetIngredientIcon(ing, lower) == GroupIcon(g)
  {
    var r := KeywordGroup(lower(ing.name), lower(ing.desc));
    assert r.Some?;
    assert !(Rank(r.value) < Rank(g) || Rank(g) < Rank(r.value));
    match g
    case Moisturising => {}
    case Antioxidant => {}
    case Acid => {}
    case Oil => {}
    case Peptide => {}
    case Ceramide => {}
    case Preservative => {}
    case Alcohol => {}
    case Sunscreen => {}
  }

  /** With no keyword anywhere the icon follows the status alone. */
  lemma NoHitFollowsStatus(ing: Ingredient, lower: string -> string)
    requires forall g :: !Hits(g, lower(ing.name), lower(ing.desc))
    ensures GetIngredientIcon(ing, lower) == StatusIcon(ing.status)
  {
  }

  /** The moisturising and the oil groups share the water icon, and no
      status gives it: an ingredient shows water exactly when one of the
      two is the first group to fire. */
  lemma WaterIcon(ing: Ingredient, lower: string -> string)
    ensures GetIngredientIcon(ing, lower) == "water" <==>
      KeywordGroup(lower(ing.name), lower(ing.desc)) in {Some(Moisturising), Some(Oil)}
  {
    var g := KeywordGroup(lower(ing.name), lower(ing.desc));
    if g.None? {
      assert StatusIcon(ing.status) != "water";
    } else {
      match g.value
      case Moisturising => {}
      case Antioxidant => {}
      case Acid => {}
      case Oil => {}
      case Peptide => {}
      case Ceramide => {}
      case Preservative => {}
      case Alcohol => {}
      case Sunscreen => {}
    }
  }

  /** "hyaluronic acid" fires both the moisturising and the acid group; the
      moisturising group is tested first, so it shows water, not the flask. */
  lemma HyaluronicAcidIsWater(name: string, desc: string)
    requires name == "hyaluronic acid"
    ensures Hits(Acid, name, desc)
    ensures KeywordGroup(name, desc) == Some(Moisturising)
  {
    HyaluronicAcidFiresAcid(name);
    assert "hyaluron" <= name;
    assert NameKeys(Moisturising)[3] == "hyaluron";
    AnyContainsIff(name, NameKeys(Moisturising));
  }

  lemma HyaluronicAcidFiresAcid(name: string)
    requires name == "hyaluronic acid"
    ensures AnyContains(name, NameKeys(Acid))
  {
    assert name[11..] == "acid";
    ContainsSuffix(name, 11, "acid");
    assert NameKeys(Acid)[1] == "acid";
    AnyContainsIff(name, NameKeys(Acid));
  }

  /** A name holding both "vitamin" and "oil" and no moisturising keyword
      shows the antioxidant leaf, not the oil's water drop. */
  lemma VitaminBeatsOil(ing: Ingredient, lower: string -> string)
    requires Contains(lower(ing.name), "vitamin") && Contains(lower(ing.name), "oil")
    requires !Hits(Moisturising, lower(ing.name), lower(ing.desc))
    ensures Hits(Oil, lower(ing.name), lower(ing.desc))
    ensures GetIngredientIcon(ing, lower) == "leaf"
  {
    var n := lower(ing.name);
    assert NameKeys(Antioxidant)[1] == "vitamin";
    AnyContainsIff(n, NameKeys(Antioxidant));
    assert NameKeys(Oil)[1] == "oil";
    AnyContainsIff(n, NameKeys(Oil));
  }

  /** A string whose suffix from `k` starts with `q` contains `q`. */
  lemma {:induction false} ContainsSuffix(s: string, k: nat, q: string)
    requires k <= |s| && q <= s[k..]
    ensures Contains(s, q)
    decreases k
  {
    if k > 0 {
      assert s[1..][k - 1..] == s[k..];
      ContainsSuffix(s[1..], k - 1, q);
    }
  }

  // ---------------------------------------------------------------------
  // getCompatibilityStyle (lines 211-235)
  // ---------------------------------------------------------------------

  /** `{iconColor, iconName, bgColor, label}`; `title` is the label. */
  datatype CompatStyle = CompatStyle(iconColor: string, iconName: string, bgColor: string, title: string)

  const NOT_RECOMMENDED := "Не рекомендуется"
  const EXCELLENT := "Отлично подходит"
  const NEUTRAL := "Нейтрально"

  const BAD_STYLE := CompatStyle(RED, "alert-circle", RED, NOT_RECOMMENDED)
  const GOOD_STYLE := CompatStyle(GREEN, "checkmark-circle", GREEN, EXCELLENT)
  const NEUTRAL_STYLE := CompatStyle(ORANGE, "help-circle", ORANGE, NEUTRAL)

  /** The status is whatever `compatibility.status || 'neutral'` produced,
      so it need not be a string; it is compared with `===`. A bad status
      or a score below 40 wins over everything; otherwise a good status or a
      score of at least 70 is excellent; all else is neutral. */
  function GetCompatibilityStyle(status: Json, score: real): (r: CompatStyle)
    ensures r == BAD_STYLE <==> status == JStr("bad") || score < 40.0
    ensures r == GOOD_STYLE <==> status != JStr("bad") && score >= 40.0 && (status == JStr("good") || score >= 70.0)
    ensures r == NEUTRAL_STYLE <==>
      status != JStr("bad") && status != JStr("good") && 40.0 <= score < 70.0
  {
    if status == JStr("bad") || score < 40.0 then BAD_STYLE
    else if status == JStr("good") || score >= 70.0 then GOOD_STYLE
    else NEUTRAL_STYLE
  }

  /** The precedence in two cases: a good status with a low score is not
      recommended, and a bad status with a high score is not either. */
  lemma ScoreAndStatusPrecedence()
    ensures GetCompatibilityStyle(JStr("good"), 30.0) == BAD_STYLE
    ensures GetCompatibilityStyle(JStr("bad"), 95.0) == BAD_STYLE
    ensures GetCompatibilityStyle(JStr("neutral"), 85.0) == GOOD_STYLE
  {
  }

  // ---------------------------------------------------------------------
  // The compatibility card (lines 478-540) and the expanded block
  // (lines 294-320 and 346-372)
  // ---------------------------------------------------------------------

  /** The skin card's category gate of line 479. */
  predicate SkinCardCategory(category: Option<Category>) {
    category.None? || category == Some(Skin) || category == Some(Mixed)
  }

  /** The hair card's category gate of line 511. */
  predicate HairCardCategory(category: Option<Category>) {
    category.None? || category == Some(Hair) || category == Some(Mixed)
  }

  /** The hair block's category gate of line 347: unlike the card's, it
      excludes an absent category. */
  predicate HairBlockCategory(category: Option<Category>) {
    category == Some(Hair) || category == Some(Mixed)
  }

  /** What a card shows: its style and the score after `%`. */
  datatype Card = Card(style: CompatStyle, score: real)

  /** The entry of the chosen type in a compatibility value. */
  function Entry(typeId: string, compat: Json): Option<Json> {
    Prop(compat, typeId)
  }

  /** `compatibility.status || 'neutral'`. */
  function CardStatus(entry: Json): Json {
    if IsTruthy(Prop(entry, "status")) then Prop(entry, "status").value else JStr("neutral")
  }

  /** `typeof score === 'number' ? score : dflt`. */
  function ScoreOr(entry: Json, dflt: real): (r: real)
    ensures Prop(entry, "score").Some? && Prop(entry, "score").value.JNum? ==> r == Prop(entry, "score").value.n
    ensures !(Prop(entry, "score").Some? && Prop(entry, "score").value.JNum?) ==> r == dflt
  {
    if Prop(entry, "score").Some? && Prop(entry, "score").value.JNum? then Prop(entry, "score").value.n else dflt
  }

  /** The card for a chosen type (`None` when the user has none), a decoded
      compatibility value and the category gate: shown only for a truthy
      type, a truthy compatibility, an open gate and an entry that is a
      non-null object; its status defaults to neutral and its score to 50. */
  function CompatibilityCard(typeId: Option<string>, compat: Option<Json>, gate: bool): (r: Option<Card>)
    ensures r.Some? <==>
      typeId.Some? && typeId.value != "" && IsTruthy(compat) && gate
      && Entry(typeId.value, compat.value).Some? && IsObject(Entry(typeId.value, compat.value).value)
    ensures r.Some? ==>
      var e := Entry(typeId.value, compat.value).value;
      r.value == Card(GetCompatibilityStyle(CardStatus(e), ScoreOr(e, 50.0)), ScoreOr(e, 50.0))
  {
    if typeId.Some? && typeId.value != "" && IsTruthy(compat) && gate then
      var e := Entry(typeId.value, compat.value);
      if !IsTruthy(e) || !IsObject(e.value) then None
      else Some(Card(GetCompatibilityStyle(CardStatus(e.value), ScoreOr(e.value, 50.0)), ScoreOr(e.value, 50.0)))
    else None
  }

  /** What the expanded block's compatibility row shows: a label and colour
      from the status alone, and the score after `%`. */
  datatype Block = Block(title: string, color: string, score: real)

  /** The status-only mapping of lines 308-312. */
  function BlockStyle(status: Option<Json>): (r: (string, string))
    ensures r == (EXCELLENT, GREEN) <==> status == Some(JStr("good"))
    ensures r == (NOT_RECOMMENDED, RED) <==> status == Some(JStr("bad"))
    ensures r == (NEUTRAL, ORANGE) <==> status != Some(JStr("good")) && status != Some(JStr("bad"))
  {
    if status == Some(JStr("good")) then (EXCELLENT, GREEN)
    else if status == Some(JStr("bad")) then (NOT_RECOMMENDED, RED)
    else (NEUTRAL, ORANGE)
  }

  /** The expanded block's row for a chosen type, a decoded compatibility
      value and the section's gate: shown for any truthy entry, object or
      not, with the score defaulting to 0. */
  function CompatibilityBlock(typeId: Option<string>, compat: Option<Json>, gate: bool): (r: Option<Block>)
    ensures r.Some? <==>
      typeId.Some? && typeId.value != "" && gate && IsTruthy(compat) && IsTruthy(Entry(typeId.value, compat.value))
    ensures r.Some? ==>
      var e := Entry(typeId.value, compat.value).value;
      r.value == Block(BlockStyle(Prop(e, "status")).0, BlockStyle(Prop(e, "status")).1, ScoreOr(e, 0.0))
  {
    if typeId.Some? && typeId.value != "" && gate && IsTruthy(compat) then
      var e := Entry(typeId.value, compat.value);
      if IsTruthy(e) then
        var s := BlockStyle(Prop(e.value, "status"));
        Some(Block(s.0, s.1, ScoreOr(e.value, 0.0)))
      else None
    else None
  }

  /** The skin card and the skin block of a product, for the user's skin
      type. The skin section has no category gate. */
  function SkinCard(p: Product, skinType: Option<string>, parse: string -> Option<Json>): Option<Card> {
    CompatibilityCard(skinType, DecodeCompatibility(p.skinTypeCompatibility, parse), SkinCardCategory(p.category))
  }

  function SkinBlock(p: Product, skinType: Option<string>, parse: string -> Option<Json>): Option<Block> {
    CompatibilityBlock(skinType, DecodeCompatibility(p.skinTypeCompatibility, parse), true)
  }

  function HairCard(p: Product, hairType: Option<string>, parse: string -> Option<Json>): Option<Card> {
    CompatibilityCard(hairType, DecodeCompatibility(p.hairTypeCompatibility, parse), HairCardCategory(p.category))
  }

  function HairBlock(p: Product, hairType: Option<string>, parse: string -> Option<Json>): Option<Block> {
    CompatibilityBlock(hairType, DecodeCompatibility(p.hairTypeCompatibility, parse), HairBlockCategory(p.category))
  }

  /** The category gates: both cards show for a mixed or uncategorised
      product, the hair card never for a skin product and the skin card
      never for a hair product; an "unknown" product shows neither. */
  lemma CategoryGates(c: Option<Category>)
    ensures SkinCardCategory(c) && HairCardCategory(c) <==> c.None? || c == Some(Mixed)
    ensures c == Some(Skin) ==> !HairCardCategory(c) && !HairBlockCategory(c)
    ensures c == Some(Hair) ==> !SkinCardCategory(c)
    ensures c == Some(Unknown) ==> !SkinCardCategory(c) && !HairCardCategory(c) && !HairBlockCategory(c)
    ensures HairBlockCategory(c) ==> HairCardCategory(c)
  {
  }

  /** `saveProduct` stores no category and no hair compatibility, so its
      products pass both card gates, never show a hair card or hair block,
      and show the skin card exactly when the stored entry for the user's
      skin type is an object. */
  lemma SavedProductCards(args: SaveArgs, stringify: Json -> string, newId: string,
                          skinType: Option<string>, hairType: Option<string>, parse: string -> Option<Json>)
    requires SaveProduct(args, stringify, newId).Some?
    ensures SkinCardCategory(SaveProduct(args, stringify, newId).value.category)
    ensures HairCardCategory(SaveProduct(args, stringify, newId).value.category)
    ensures HairCard(SaveProduct(args, stringify, newId).value, hairType, parse).None?
    ensures HairBlock(SaveProduct(args, stringify, newId).value, hairType, parse).None?
  {
  }

  /** A non-numeric score reads 50 on the card and 0 in the block, and a
      missing status reads neutral in both. */
  lemma ScoreDefaultsDiffer(typeId: string, compat: Json, gate: bool)
    requires typeId != "" && Truthy(compat) && gate
    requires Entry(typeId, compat).Some? && IsObject(Entry(typeId, compat).value)
    requires Prop(Entry(typeId, compat).value, "score").None?
    requires Prop(Entry(typeId, compat).value, "status").None?
    ensures CompatibilityCard(Some(typeId), Some(compat), gate) == Some(Card(NEUTRAL_STYLE, 50.0))
    ensures CompatibilityBlock(Some(typeId), Some(compat), gate) == Some(Block(NEUTRAL, ORANGE, 0.0))
  {
  }

  /** On an entry the backend normalised, the card and the block agree:
      the score is an integer kept in step with the status by
      `AiLogic.Band`, so the score rules of the card pick the style the
      status alone names. */
  lemma NormalizedEntryAgrees(typeId: string, compat: Json, gate: bool)
    requires typeId != "" && Truthy(compat) && gate
    requires Entry(typeId, compat).Some? && AiLogic.NormalizedItemOk(Entry(typeId, compat).value)
    ensures CompatibilityCard(Some(typeId), Some(compat), gate).Some?
    ensures CompatibilityBlock(Some(typeId), Some(compat), gate).Some?
    ensures CompatibilityCard(Some(typeId), Some(compat), gate).value.style.title ==
            CompatibilityBlock(Some(typeId), Some(compat), gate).value.title
    ensures CompatibilityCard(Some(typeId), Some(compat), gate).value.score ==
            CompatibilityBlock(Some(typeId), Some(compat), gate).value.score
  {
    var e := Entry(typeId, compat).value;
    var n := Prop(e, "score").value.n;
    assert n == n.Floor as real;
    assert CardStatus(e) == Prop(e, "status").value;
  }

  /** Off the normalised path they disagree: a good status with score 30
      reads "Отлично подходит" in the block and "Не рекомендуется" on the
      card. */
  lemma UnnormalizedEntryDisagrees()
    ensures
      var compat := JObj(map["dry" := JObj(map["status" := JStr("good"), "score" := JNum(30.0)])]);
      && CompatibilityCard(Some("dry"), Some(compat), true).value.style.title == NOT_RECOMMENDED
      && CompatibilityBlock(Some("dry"), Some(compat), true).value.title == EXCELLENT
  {
    var compat := JObj(map["dry" := JObj(map["status" := JStr("good"), "score" := JNum(30.0)])]);
    var e := JObj(map["status" := JStr("good"), "score" := JNum(30.0)]);
    assert Entry("dry", compat) == Some(e);
    assert Prop(e, "status") == Some(JStr("good"));
    assert Prop(e, "score") == Some(JNum(30.0));
  }
}
