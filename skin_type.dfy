/** The skin types of types/skinType.ts: the nine ids in picker order, their
    tables, the picker built from the short labels, the validator, and the
    three compatibility statuses. The `SkinType` union becomes a datatype;
    `Id` gives the string the source uses. */
module SkinTypes {
  import opened Wrappers
  import opened JsValues
  import opened TypeOptions
  import AiLogic

  datatype SkinType =
    Dry | Oily | Combination | Normal | Sensitive | Mature | AcneProne | Dehydrated | Pigmented

  /** `SKIN_TYPES`, in picker order. */
  const SKIN_TYPES: seq<SkinType> :=
    [Dry, Oily, Combination, Normal, Sensitive, Mature, AcneProne, Dehydrated, Pigmented]

  function Id(t: SkinType): string {
    match t
    case Dry => "dry"
    case Oily => "oily"
    case Combination => "combination"
    case Normal => "normal"
    case Sensitive => "sensitive"
    case Mature => "mature"
    case AcneProne => "acne_prone"
    case Dehydrated => "dehydrated"
    case Pigmented => "pigmented"
  }

  /** `SKIN_TYPE_LABELS`. */
  function Label(t: SkinType): string {
    match t
    case Dry => "Сухая кожа"
    case Oily => "Жирная кожа"
    case Combination => "Комбинированная кожа"
    case Normal => "Нормальная кожа"
    case Sensitive => "Чувствительная кожа"
    case Mature => "Возрастная кожа"
    case AcneProne => "Склонная к акне"
    case Dehydrated => "Обезвоженная кожа"
    case Pigmented => "С пигментацией"
  }

  /** `SKIN_TYPE_SHORT_LABELS`. */
  function ShortLabel(t: SkinType): string {
    match t
    case Dry => "Сухая"
    case Oily => "Жирная"
    case Combination => "Комбинированная"
    case Normal => "Нормальная"
    case Sensitive => "Чувствительная"
    case Mature => "Возрастная"
    case AcneProne => "Склонная к акне"
    case Dehydrated => "Обезвоженная"
    case Pigmented => "С пигментацией"
  }

  /** `SKIN_TYPE_DESCRIPTIONS`. */
  function Description(t: SkinType): string {
    match t
    case Dry => "Чувство стянутости, шелушение"
    case Oily => "Блеск, расширенные поры"
    case Combination => "Сухость на щеках, жирность в Т-зоне"
    case Normal => "Сбалансированная, без проблем"
    case Sensitive => "Покраснения, раздражения"
    case Mature => "Морщины, потеря упругости"
    case AcneProne => "Частые высыпания, воспаления"
    case Dehydrated => "Недостаток влаги, тусклость"
    case Pigmented => "Пигментные пятна, неровный тон"
  }

  /** `SKIN_TYPE_ICONS`. */
  function Icon(t: SkinType): string {
    match t
    case Dry => "water-outline"
    case Oily => "flash-outline"
    case Combination => "layers-outline"
    case Normal => "checkmark-circle-outline"
    case Sensitive => "heart-outline"
    case Mature => "hourglass-outline"
    case AcneProne => "medical-outline"
    case Dehydrated => "rainy-outline"
    case Pigmented => "color-palette-outline"
  }

  const SKIN_COMPATIBILITY_STATUSES: seq<string> := ["good", "bad", "neutral"]

  /** The skin type a string names, if any. */
  function Parse(s: string): Option<SkinType> {
    if s == "dry" then Some(Dry)
    else if s == "oily" then Some(Oily)
    else if s == "combination" then Some(Combination)
    else if s == "normal" then Some(Normal)
    else if s == "sensitive" then Some(Sensitive)
    else if s == "mature" then Some(Mature)
    else if s == "acne_prone" then Some(AcneProne)
    else if s == "dehydrated" then Some(Dehydrated)
    else if s == "pigmented" then Some(Pigmented)
    else None
  }

  /** `isValidSkinType`: not `null` or `undefined` (both `None`) and
      listed in `SKIN_TYPES`. */
  predicate IsValidSkinType(value: Option<string>) {
    value.Some? && exists i :: 0 <= i < |SKIN_TYPES| && Id(SKIN_TYPES[i]) == value.value
  }

  /** `Id` and `Parse` are inverse, so no two skin types share an id. */
  lemma IdRoundTrip(t: SkinType, s: string)
    ensures Parse(Id(t)) == Some(t)
    ensures Parse(s).Some? ==> Id(Parse(s).value) == s
  {
  }

  /** `SKIN_TYPES` lists every skin type exactly once. */
  lemma SkinTypesListed(t: SkinType)
    ensures t in SKIN_TYPES
    ensures forall i, j :: 0 <= i < j < |SKIN_TYPES| ==> SKIN_TYPES[i] != SKIN_TYPES[j]
  {
  }

  /** The validator accepts exactly the strings that name a skin type. */
  lemma ValidIffParses(value: Option<string>)
    ensures IsValidSkinType(value) <==> value.Some? && Parse(value.value).Some?
  {
    if value.Some? && Parse(value.value).Some? {
      var t := Parse(value.value).value;
      IdRoundTrip(t, value.value);
      SkinTypesListed(t);
      var i :| 0 <= i < |SKIN_TYPES| && SKIN_TYPES[i] == t;
    }
    if IsValidSkinType(value) {
      var i :| 0 <= i < |SKIN_TYPES| && Id(SKIN_TYPES[i]) == value.value;
      IdRoundTrip(SKIN_TYPES[i], value.value);
    }
  }

  /** `getSkinTypeOptions()`: one entry per skin type, in order, labelled
      with the short label; the picker offers exactly the values
      `isValidSkinType` accepts, each once. */
  function GetSkinTypeOptions(): (r: seq<TypeOption>)
    ensures |r| == |SKIN_TYPES|
    ensures forall i :: 0 <= i < |r| ==>
      r[i] == TypeOption(Id(SKIN_TYPES[i]), ShortLabel(SKIN_TYPES[i]), Icon(SKIN_TYPES[i]), Description(SKIN_TYPES[i]))
    ensures forall i :: 0 <= i < |r| ==> IsValidSkinType(Some(r[i].id))
    ensures forall s :: IsValidSkinType(Some(s)) ==> exists i :: 0 <= i < |r| && r[i].id == s
    ensures forall i, j :: 0 <= i < j < |r| ==> r[i].id != r[j].id
  {
    var r := seq(|SKIN_TYPES|, i requires 0 <= i < |SKIN_TYPES| =>
      TypeOption(Id(SKIN_TYPES[i]), ShortLabel(SKIN_TYPES[i]), Icon(SKIN_TYPES[i]), Description(SKIN_TYPES[i])));
    assert forall i :: 0 <= i < |r| ==> r[i].id == Id(SKIN_TYPES[i]);
    assert forall i, j :: 0 <= i < j < |r| ==> r[i].id != r[j].id by {
      forall i, j | 0 <= i < j < |r| ensures r[i].id != r[j].id {
        SkinTypesListed(SKIN_TYPES[i]);
        IdRoundTrip(SKIN_TYPES[i], "");
        IdRoundTrip(SKIN_TYPES[j], "");
      }
    }
    r
  }

  /** The five skin types whose compatibility the backend normalises are the
      first five skin types, and the client's statuses are the backend's. */
  lemma BackendKeysAreSkinTypes()
    ensures |AiLogic.SKIN_KEYS| == 5
    ensures forall i :: 0 <= i < 5 ==> AiLogic.SKIN_KEYS[i] == Id(SKIN_TYPES[i])
    ensures SKIN_COMPATIBILITY_STATUSES == AiLogic.STATUSES
  {
  }

  /** A normalised item is a `SkinCompatibilityItem`: its status is one of
      the three and its score lies in 0..100. */
  lemma NormalizedItemIsSkinCompatibilityItem(v: Json)
    requires AiLogic.NormalizedItemOk(v)
    ensures Prop(v, "status").value.s in SKIN_COMPATIBILITY_STATUSES
    ensures 0.0 <= Prop(v, "score").value.n <= 100.0
  {
  }
}
