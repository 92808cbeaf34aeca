/** The hair types of types/hairType.ts: the eight ids in picker order,
    their tables, the picker built from the short labels, the validator, and
    the three compatibility statuses. The `HairType` union becomes a
    datatype; `Id` gives the string the source uses. */
module HairTypes {
  import opened Wrappers
  import opened TypeOptions
  import SkinTypes

  datatype HairType = Straight | Wavy | Curly | Coily | Oily | Dry | Normal | Damaged

  /** `HAIR_TYPES`, in picker order. */
  const HAIR_TYPES: seq<HairType> := [Straight, Wavy, Curly, Coily, Oily, Dry, Normal, Damaged]

  function Id(t: HairType): string {
    match t
    case Straight => "straight"
    case Wavy => "wavy"
    case Curly => "curly"
    case Coily => "coily"
    case Oily => "oily"
    case Dry => "dry"
    case Normal => "normal"
    case Damaged => "damaged"
  }

  /** `HAIR_TYPE_LABELS`. */
  function Label(t: HairType): string {
    match t
    case Straight => "Прямые волосы"
    case Wavy => "Волнистые волосы"
    case Curly => "Кудрявые волосы"
    case Coily => "Кучерявые волосы"
    case Oily => "Жирные волосы"
    case Dry => "Сухие волосы"
    case Normal => "Нормальные волосы"
    case Damaged => "Повреждённые волосы"
  }

  /** `HAIR_TYPE_SHORT_LABELS`. */
  function ShortLabel(t: HairType): string {
    match t
    case Straight => "Прямые"
    case Wavy => "Волнистые"
    case Curly => "Кудрявые"
    case Coily => "Кучерявые"
    case Oily => "Жирные"
    case Dry => "Сухие"
    case Normal => "Нормальные"
    case Damaged => "Повреждённые"
  }

  /** `HAIR_TYPE_DESCRIPTIONS`. */
  function Description(t: HairType): string {
    match t
    case Straight => "Ровные, гладкие, без завитков"
    case Wavy => "Мягкие волны, S-образная форма"
    case Curly => "Явные локоны, пружинистые завитки"
    case Coily => "Тугие кольца, очень кучерявые"
    case Oily => "Быстро загрязняются, нужен контроль жира"
    case Dry => "Ломкие, тусклые, нужна увлажняющая косметика"
    case Normal => "Сбалансированные, без проблем"
    case Damaged => "Обесцвеченные, после окрашивания, секущиеся"
  }

  /** `HAIR_TYPE_ICONS`. */
  function Icon(t: HairType): string {
    match t
    case Straight => "remove-outline"
    case Wavy => "water-outline"
    case Curly => "infinite-outline"
    case Coily => "reload-outline"
    case Oily => "flash-outline"
    case Dry => "water-outline"
    case Normal => "checkmark-circle-outline"
    case Damaged => "warning-outline"
  }

  const HAIR_COMPATIBILITY_STATUSES: seq<string> := ["good", "bad", "neutral"]

  /** The hair type a string names, if any. */
  function Parse(s: string): Option<HairType> {
    if s == "straight" then Some(Straight)
    else if s == "wavy" then Some(Wavy)
    else if s == "curly" then Some(Curly)
    else if s == "coily" then Some(Coily)
    else if s == "oily" then Some(Oily)
    else if s == "dry" then Some(Dry)
    else if s == "normal" then Some(Normal)
    else if s == "damaged" then Some(Damaged)
    else None
  }

  /** `isValidHairType`: not `null` or `undefined` (both `None`) and
      listed in `HAIR_TYPES`. */
  predicate IsValidHairType(value: Option<string>) {
    value.Some? && exists i :: 0 <= i < |HAIR_TYPES| && Id(HAIR_TYPES[i]) == value.value
  }

  /** `Id` and `Parse` are inverse, so no two hair types share an id. */
  lemma IdRoundTrip(t: HairType, s: string)
    ensures Parse(Id(t)) == Some(t)
    ensures Parse(s).Some? ==> Id(Parse(s).value) == s
  {
  }

  /** `HAIR_TYPES` lists every hair type exactly once. */
  lemma HairTypesListed(t: HairType)
    ensures t in HAIR_TYPES
    ensures forall i, j :: 0 <= i < j < |HAIR_TYPES| ==> HAIR_TYPES[i] != HAIR_TYPES[j]
  {
  }

  /** The validator accepts exactly the strings that name a hair type. */
  lemma ValidIffParses(value: Option<string>)
    ensures IsValidHairType(value) <==> value.Some? && Parse(value.value).Some?
  {
    if value.Some? && Parse(value.value).Some? {
      var t := Parse(value.value).value;
      IdRoundTrip(t, value.value);
      HairTypesListed(t);
      var i :| 0 <= i < |HAIR_TYPES| && HAIR_TYPES[i] == t;
    }
    if IsValidHairType(value) {
      var i :| 0 <= i < |HAIR_TYPES| && Id(HAIR_TYPES[i]) == value.value;
      IdRoundTrip(HAIR_TYPES[i], value.value);
    }
  }

  /** `getHairTypeOptions()`: one entry per hair type, in order, labelled
      with the short label; the picker offers exactly the values
      `isValidHairType` accepts, each once. */
  function GetHairTypeOptions(): (r: seq<TypeOption>)
    ensures |r| == |HAIR_TYPES|
    ensures forall i :: 0 <= i < |r| ==>
      r[i] == TypeOption(Id(HAIR_TYPES[i]), ShortLabel(HAIR_TYPES[i]), Icon(HAIR_TYPES[i]), Description(HAIR_TYPES[i]))
    ensures forall i :: 0 <= i < |r| ==> IsValidHairType(Some(r[i].id))
    ensures forall s :: IsValidHairType(Some(s)) ==> exists i :: 0 <= i < |r| && r[i].id == s
    ensures forall i, j :: 0 <= i < j < |r| ==> r[i].id != r[j].id
  {
    var r := seq(|HAIR_TYPES|, i requires 0 <= i < |HAIR_TYPES| =>
      TypeOption(Id(HAIR_TYPES[i]), ShortLabel(HAIR_TYPES[i]), Icon(HAIR_TYPES[i]), Description(HAIR_TYPES[i])));
    assert forall i :: 0 <= i < |r| ==> r[i].id == Id(HAIR_TYPES[i]);
    assert forall i, j :: 0 <= i < j < |r| ==> r[i].id != r[j].id by {
      forall i, j | 0 <= i < j < |r| ensures r[i].id != r[j].id {
        HairTypesListed(HAIR_TYPES[i]);
        IdRoundTrip(HAIR_TYPES[i], "");
        IdRoundTrip(HAIR_TYPES[j], "");
      }
    }
    r
  }

  /** "oily", "dry" and "normal" name both a hair type and a skin type, so a
      bare id does not say which picker it came from; the statuses are the
      same three. */
  lemma SharedIds(s: string)
    ensures Parse(s).Some? && SkinTypes.Parse(s).Some? <==> s == "oily" || s == "dry" || s == "normal"
    ensures HAIR_COMPATIBILITY_STATUSES == SkinTypes.SKIN_COMPATIBILITY_STATUSES
  {
  }
}
