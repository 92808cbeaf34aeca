/** The user profile of types/userProfile.ts: age ranges, lifestyles and
    locations with their pickers and validators, the climate table, and the
    climate phrase the AI prompt is given. Each union type becomes a
    datatype; `…Id` gives the string the source uses. */
module UserProfile {
  import opened Wrappers
  import opened JsValues
  import opened TypeOptions

  // ---------------------------------------------------------------------
  // Age ranges (lines 7-52)
  // ---------------------------------------------------------------------

  datatype AgeRange = Age18To24 | Age25To34 | Age35To44 | Age45To54 | Age55Plus

  const AGE_RANGES: seq<AgeRange> := [Age18To24, Age25To34, Age35To44, Age45To54, Age55Plus]

  function AgeId(a: AgeRange): string {
    match a
    case Age18To24 => "18-24"
    case Age25To34 => "25-34"
    case Age35To44 => "35-44"
    case Age45To54 => "45-54"
    case Age55Plus => "55+"
  }

  /** `AGE_RANGE_LABELS`. */
  function AgeLabel(a: AgeRange): string {
    match a
    case Age18To24 => "18-24 года"
    case Age25To34 => "25-34 года"
    case Age35To44 => "35-44 года"
    case Age45To54 => "45-54 года"
    case Age55Plus => "55+ лет"
  }

  /** `AGE_RANGE_DESCRIPTIONS`. */
  function AgeDescription(a: AgeRange): string {
    match a
    case Age18To24 => "Молодая кожа, профилактика"
    case Age25To34 => "Первые признаки старения"
    case Age35To44 => "Антивозрастной уход"
    case Age45To54 => "Интенсивный уход"
    case Age55Plus => "Зрелая кожа"
  }

  /** `AGE_RANGE_ICONS`. */
  function AgeIcon(a: AgeRange): string {
    match a
    case Age18To24 => "sparkles-outline"
    case Age25To34 => "sunny-outline"
    case Age35To44 => "fitness-outline"
    case Age45To54 => "shield-outline"
    case Age55Plus => "diamond-outline"
  }

  function ParseAge(s: string): Option<AgeRange> {
    if s == "18-24" then Some(Age18To24)
    else if s == "25-34" then Some(Age25To34)
    else if s == "35-44" then Some(Age35To44)
    else if s == "45-54" then Some(Age45To54)
    else if s == "55+" then Some(Age55Plus)
    else None
  }

  /** `isValidAgeRange`. */
  predicate IsValidAgeRange(value: Option<string>) {
    value.Some? && exists i :: 0 <= i < |AGE_RANGES| && AgeId(AGE_RANGES[i]) == value.value
  }

  /** `AgeId` and `ParseAge` are inverse. */
  lemma AgeIdRoundTrip(a: AgeRange, s: string)
    ensures ParseAge(AgeId(a)) == Some(a)
    ensures ParseAge(s).Some? ==> AgeId(ParseAge(s).value) == s
  {
  }

  /** `AGE_RANGES` lists every value exactly once. */
  lemma AgesListed(a: AgeRange)
    ensures a in AGE_RANGES
    ensures forall i, j :: 0 <= i < j < |AGE_RANGES| ==> AGE_RANGES[i] != AGE_RANGES[j]
  {
  }

  /** The validator accepts exactly the strings that name an age range. */
  lemma AgeValidIffParses(value: Option<string>)
    ensures IsValidAgeRange(value) <==> value.Some? && ParseAge(value.value).Some?
  {
    if value.Some? && ParseAge(value.value).Some? {
      var a := ParseAge(value.value).value;
      AgeIdRoundTrip(a, value.value);
      AgesListed(a);
      var i :| 0 <= i < |AGE_RANGES| && AGE_RANGES[i] == a;
    }
    if IsValidAgeRange(value) {
      var i :| 0 <= i < |AGE_RANGES| && AgeId(AGE_RANGES[i]) == value.value;
      AgeIdRoundTrip(AGE_RANGES[i], value.value);
    }
  }

  /** `getAgeRangeOptions()`: one entry per age range, in order; the picker
      offers exactly the values `isValidAgeRange` accepts, each once. */
  function GetAgeRangeOptions(): (r: seq<TypeOption>)
    ensures |r| == |AGE_RANGES|
    ensures forall i :: 0 <= i < |r| ==>
      r[i] == TypeOption(AgeId(AGE_RANGES[i]), AgeLabel(AGE_RANGES[i]), AgeIcon(AGE_RANGES[i]), AgeDescription(AGE_RANGES[i]))
    ensures forall i :: 0 <= i < |r| ==> IsValidAgeRange(Some(r[i].id))
    ensures forall s :: IsValidAgeRange(Some(s)) ==> exists i :: 0 <= i < |r| && r[i].id == s
    ensures forall i, j :: 0 <= i < j < |r| ==> r[i].id != r[j].id
  {
    var r := seq(|AGE_RANGES|, i requires 0 <= i < |AGE_RANGES| =>
      TypeOption(AgeId(AGE_RANGES[i]), AgeLabel(AGE_RANGES[i]), AgeIcon(AGE_RANGES[i]), AgeDescription(AGE_RANGES[i])));
    assert forall i :: 0 <= i < |r| ==> r[i].id == AgeId(AGE_RANGES[i]);
    assert forall i, j :: 0 <= i < j < |r| ==> r[i].id != r[j].id by {
      forall i, j | 0 <= i < j < |r| ensures r[i].id != r[j].id {
        AgesListed(AGE_RANGES[i]);
        AgeIdRoundTrip(AGE_RANGES[i], "");
        AgeIdRoundTrip(AGE_RANGES[j], "");
      }
    }
    r
  }

  // ---------------------------------------------------------------------
  // Lifestyles (lines 55-100)
  // ---------------------------------------------------------------------

  datatype Lifestyle = Active | Sedentary | Outdoor | Stress | Balanced

  const LIFESTYLES: seq<Lifestyle> := [Active, Sedentary, Outdoor, Stress, Balanced]

  function LifestyleId(l: Lifestyle): string {
    match l
    case Active => "active"
    case Sedentary => "sedentary"
    case Outdoor => "outdoor"
    case Stress => "stress"
    case Balanced => "balanced"
  }

  /** `LIFESTYLE_LABELS`. */
  function LifestyleLabel(l: Lifestyle): string {
    match l
    case Active => "Активный"
    case Sedentary => "Сидячий"
    case Outdoor => "На свежем воздухе"
    case Stress => "Стрессовый"
    case Balanced => "Сбалансированный"
  }

  /** `LIFESTYLE_DESCRIPTIONS`. */
  function LifestyleDescription(l: Lifestyle): string {
    match l
    case Active => "Спорт, много движения"
    case Sedentary => "Офисная работа, мало активности"
    case Outdoor => "Много времени на улице"
    case Stress => "Высокий уровень стресса"
    case Balanced => "Умеренная активность"
  }

  /** `LIFESTYLE_ICONS`. */
  function LifestyleIcon(l: Lifestyle): string {
    match l
    case Active => "barbell-outline"
    case Sedentary => "desktop-outline"
    case Outdoor => "leaf-outline"
    case Stress => "flash-outline"
    case Balanced => "scale-outline"
  }

  function ParseLifestyle(s: string): Option<Lifestyle> {
    if s == "active" then Some(Active)
    else if s == "sedentary" then Some(Sedentary)
    else if s == "outdoor" then Some(Outdoor)
    else if s == "stress" then Some(Stress)
    else if s == "balanced" then Some(Balanced)
    else None
  }

  /** `isValidLifestyle`. */
  predicate IsValidLifestyle(value: Option<string>) {
    value.Some? && exists i :: 0 <= i < |LIFESTYLES| && LifestyleId(LIFESTYLES[i]) == value.value
  }

  /** `LifestyleId` and `ParseLifestyle` are inverse. */
  lemma LifestyleIdRoundTrip(l: Lifestyle, s: string)
    ensures ParseLifestyle(LifestyleId(l)) == Some(l)
    ensures ParseLifestyle(s).Some? ==> LifestyleId(ParseLifestyle(s).value) == s
  {
  }

  /** `LIFESTYLES` lists every value exactly once. */
  lemma LifestylesListed(l: Lifestyle)
    ensures l in LIFESTYLES
    ensures forall i, j :: 0 <= i < j < |LIFESTYLES| ==> LIFESTYLES[i] != LIFESTYLES[j]
  {
  }

  /** The validator accepts exactly the strings that name a lifestyle. */
  lemma LifestyleValidIffParses(value: Option<string>)
    ensures IsValidLifestyle(value) <==> value.Some? && ParseLifestyle(value.value).Some?
  {
    if value.Some? && ParseLifestyle(value.value).Some? {
      var l := ParseLifestyle(value.value).value;
      LifestyleIdRoundTrip(l, value.value);
      LifestylesListed(l);
      var i :| 0 <= i < |LIFESTYLES| && LIFESTYLES[i] == l;
    }
    if IsValidLifestyle(value) {
      var i :| 0 <= i < |LIFESTYLES| && LifestyleId(LIFESTYLES[i]) == value.value;
      LifestyleIdRoundTrip(LIFESTYLES[i], value.value);
    }
  }

  /** `getLifestyleOptions()`: one entry per lifestyle, in order; the picker
      offers exactly the values `isValidLifestyle` accepts, each once. */
  function GetLifestyleOptions(): (r: seq<TypeOption>)
    ensures |r| == |LIFESTYLES|
    ensures forall i :: 0 <= i < |r| ==>
      r[i] == TypeOption(LifestyleId(LIFESTYLES[i]), LifestyleLabel(LIFESTYLES[i]), LifestyleIcon(LIFESTYLES[i]),
                         LifestyleDescription(LIFESTYLES[i]))
    ensures forall i :: 0 <= i < |r| ==> IsValidLifestyle(Some(r[i].id))
    ensures forall s :: IsValidLifestyle(Some(s)) ==> exists i :: 0 <= i < |r| && r[i].id == s
    ensures forall i, j :: 0 <= i < j < |r| ==> r[i].id != r[j].id
  {
    var r := seq(|LIFESTYLES|, i requires 0 <= i < |LIFESTYLES| =>
      TypeOption(LifestyleId(LIFESTYLES[i]), LifestyleLabel(LIFESTYLES[i]), LifestyleIcon(LIFESTYLES[i]),
                 LifestyleDescription(LIFESTYLES[i])));
    assert forall i :: 0 <= i < |r| ==> r[i].id == LifestyleId(LIFESTYLES[i]);
    assert forall i, j :: 0 <= i < j < |r| ==> r[i].id != r[j].id by {
      forall i, j | 0 <= i < j < |r| ensures r[i].id != r[j].id {
        LifestylesListed(LIFESTYLES[i]);
        LifestyleIdRoundTrip(LIFESTYLES[i], "");
        LifestyleIdRoundTrip(LIFESTYLES[j], "");
      }
    }
    r
  }

  // ---------------------------------------------------------------------
  // Locations and their climate (lines 103-237)
  // ---------------------------------------------------------------------

  datatype Location =
    Moscow | SaintPetersburg | Novosibirsk | Yekaterinburg | Kazan | Sochi | Vladivostok | OtherHumid | OtherDry

  const LOCATIONS: seq<Location> :=
    [Moscow, SaintPetersburg, Novosibirsk, Yekaterinburg, Kazan, Sochi, Vladivostok, OtherHumid, OtherDry]

  datatype Level = Low | Medium | High
  datatype ClimateKind = Continental | Maritime | Subtropical | Tropical | Arid

  /** `LocationClimate`. */
  datatype Climate = Climate(humidity: Level, pollution: Level, uv: Level, kind: ClimateKind)

  function LocationId(l: Location): string {
    match l
    case Moscow => "moscow"
    case SaintPetersburg => "saint_petersburg"
    case Novosibirsk => "novosibirsk"
    case Yekaterinburg => "yekaterinburg"
    case Kazan => "kazan"
    case Sochi => "sochi"
    case Vladivostok => "vladivostok"
    case OtherHumid => "other_humid"
    case OtherDry => "other_dry"
  }

  /** `LOCATION_LABELS`. */
  function LocationLabel(l: Location): string {
    match l
    case Moscow => "Москва"
    case SaintPetersburg => "Санкт-Петербург"
    case Novosibirsk => "Новосибирск"
    case Yekaterinburg => "Екатеринбург"
    case Kazan => "Казань"
    case Sochi => "Сочи"
    case Vladivostok => "Владивосток"
    case OtherHumid => "Другой (влажный климат)"
    case OtherDry => "Другой (сухой климат)"
  }

  /** `LOCATION_DESCRIPTIONS`. */
  function LocationDescription(l: Location): string {
    match l
    case Moscow => "Умеренный климат, средняя влажность"
    case SaintPetersburg => "Высокая влажность, мало солнца"
    case Novosibirsk => "Резко континентальный, сухой"
    case Yekaterinburg => "Континентальный, сухой"
    case Kazan => "Умеренный, средняя влажность"
    case Sochi => "Субтропический, высокая влажность"
    case Vladivostok => "Муссонный, влажный"
    case OtherHumid => "Высокая влажность воздуха"
    case OtherDry => "Низкая влажность воздуха"
  }

  /** `LOCATION_ICONS`. */
  function LocationIcon(l: Location): string {
    match l
    case Moscow => "business-outline"
    case SaintPetersburg => "rainy-outline"
    case Novosibirsk => "snow-outline"
    case Yekaterinburg => "cloudy-outline"
    case Kazan => "partly-sunny-outline"
    case Sochi => "sunny-outline"
    case Vladivostok => "boat-outline"
    case OtherHumid => "water-outline"
    case OtherDry => "sunny-outline"
  }

  /** `LOCATION_CLIMATE`. */
  function LocationClimate(l: Location): Climate {
    match l
    case Moscow => Climate(Medium, High, Medium, Continental)
    case SaintPetersburg => Climate(High, Medium, Low, Maritime)
    case Novosibirsk => Climate(Low, Medium, Medium, Continental)
    case Yekaterinburg => Climate(Low, Medium, Medium, Continental)
    case Kazan => Climate(Medium, Medium, Medium, Continental)
    case Sochi => Climate(High, Low, High, Subtropical)
    case Vladivostok => Climate(High, Low, Medium, Maritime)
    case OtherHumid => Climate(High, Medium, Medium, Maritime)
    case OtherDry => Climate(Low, Medium, Medium, Continental)
  }

  function ParseLocation(s: string): Option<Location> {
    if s == "moscow" then Some(Moscow)
    else if s == "saint_petersburg" then Some(SaintPetersburg)
    else if s == "novosibirsk" then Some(Novosibirsk)
    else if s == "yekaterinburg" then Some(Yekaterinburg)
    else if s == "kazan" then Some(Kazan)
    else if s == "sochi" then Some(Sochi)
    else if s == "vladivostok" then Some(Vladivostok)
    else if s == "other_humid" then Some(OtherHumid)
    else if s == "other_dry" then Some(OtherDry)
    else None
  }

  /** `isValidLocation`. */
  predicate IsValidLocation(value: Option<string>) {
    value.Some? && exists i :: 0 <= i < |LOCATIONS| && LocationId(LOCATIONS[i]) == value.value
  }

  /** `LocationId` and `ParseLocation` are inverse. */
  lemma LocationIdRoundTrip(l: Location, s: string)
    ensures ParseLocation(LocationId(l)) == Some(l)
    ensures ParseLocation(s).Some? ==> LocationId(ParseLocation(s).value) == s
  {
  }

  /** `LOCATIONS` lists every value exactly once. */
  lemma LocationsListed(l: Location)
    ensures l in LOCATIONS
    ensures forall i, j :: 0 <= i < j < |LOCATIONS| ==> LOCATIONS[i] != LOCATIONS[j]
  {
  }

  /** The validator accepts exactly the strings that name a location. */
  lemma LocationValidIffParses(value: Option<string>)
    ensures IsValidLocation(value) <==> value.Some? && ParseLocation(value.value).Some?
  {
    if value.Some? && ParseLocation(value.value).Some? {
      var l := ParseLocation(value.value).value;
      LocationIdRoundTrip(l, value.value);
      LocationsListed(l);
      var i :| 0 <= i < |LOCATIONS| && LOCATIONS[i] == l;
    }
    if IsValidLocation(value) {
      var i :| 0 <= i < |LOCATIONS| && LocationId(LOCATIONS[i]) == value.value;
      LocationIdRoundTrip(LOCATIONS[i], value.value);
    }
  }

  /** A location picker entry carries its climate. */
  datatype LocationOption = LocationOption(id: string, title: string, icon: string, desc: string, climate: Climate)

  /** `getLocationOptions()`: one entry per location, in order, with its
      climate; the picker offers exactly the values `isValidLocation`
      accepts, each once. */
  function GetLocationOptions(): (r: seq<LocationOption>)
    ensures |r| == |LOCATIONS|
    ensures forall i :: 0 <= i < |r| ==>
      r[i] == LocationOption(LocationId(LOCATIONS[i]), LocationLabel(LOCATIONS[i]), LocationIcon(LOCATIONS[i]),
                             LocationDescription(LOCATIONS[i]), LocationClimate(LOCATIONS[i]))
    ensures forall i :: 0 <= i < |r| ==> IsValidLocation(Some(r[i].id))
    ensures forall s :: IsValidLocation(Some(s)) ==> exists i :: 0 <= i < |r| && r[i].id == s
    ensures forall i, j :: 0 <= i < j < |r| ==> r[i].id != r[j].id
  {
    var r := seq(|LOCATIONS|, i requires 0 <= i < |LOCATIONS| =>
      LocationOption(LocationId(LOCATIONS[i]), LocationLabel(LOCATIONS[i]), LocationIcon(LOCATIONS[i]),
                     LocationDescription(LOCATIONS[i]), LocationClimate(LOCATIONS[i])));
    assert forall i :: 0 <= i < |r| ==> r[i].id == LocationId(LOCATIONS[i]);
    assert forall i, j :: 0 <= i < j < |r| ==> r[i].id != r[j].id by {
      forall i, j | 0 <= i < j < |r| ensures r[i].id != r[j].id {
        LocationsListed(LOCATIONS[i]);
        LocationIdRoundTrip(LOCATIONS[i], "");
        LocationIdRoundTrip(LOCATIONS[j], "");
      }
    }
    r
  }

  // ---------------------------------------------------------------------
  // getClimateDescription (lines 240-261)
  // ---------------------------------------------------------------------

  const HIGH_HUMIDITY := "высокая влажность воздуха"
  const LOW_HUMIDITY := "низкая влажность воздуха"
  const HIGH_POLLUTION := "высокий уровень загрязнения воздуха"
  const HIGH_UV := "высокий уровень UV-излучения"
  const LOW_UV := "низкий уровень UV-излучения"
  const MODERATE := "умеренные климатические условия"

  /** The fragments pushed for a climate: humidity if not medium, pollution
      if high, UV if not medium, in that order. */
  function Fragments(c: Climate): seq<string> {
    (if c.humidity == High then [HIGH_HUMIDITY] else if c.humidity == Low then [LOW_HUMIDITY] else [])
    + (if c.pollution == High then [HIGH_POLLUTION] else [])
    + (if c.uv == High then [HIGH_UV] else if c.uv == Low then [LOW_UV] else [])
  }

  /** The phrase for a climate: the fragments joined by ", ", or the
      moderate-conditions phrase when there are none. */
  function Describe(c: Climate): string {
    var parts := Fragments(c);
    if |parts| > 0 then Join(parts, ", ") else MODERATE
  }

  /** `getClimateDescription`, building `parts` push by push. */
  method GetClimateDescription(location: Location) returns (r: string)
    ensures r == Describe(LocationClimate(location))
  {
    var climate := LocationClimate(location);
    var parts: seq<string> := [];
    if climate.humidity == High {
      parts := parts + [HIGH_HUMIDITY];
    } else if climate.humidity == Low {
      parts := parts + [LOW_HUMIDITY];
    }
    if climate.pollution == High {
      parts := parts + [HIGH_POLLUTION];
    }
    if climate.uv == High {
      parts := parts + [HIGH_UV];
    } else if climate.uv == Low {
      parts := parts + [LOW_UV];
    }
    r := if |parts| > 0 then Join(parts, ", ") else MODERATE;
  }

  // ---------------------------------------------------------------------
  // Properties of the climate phrase
  // ---------------------------------------------------------------------

  /** Each fragment appears exactly when its condition holds: at most one
      humidity and one UV fragment, at most three in all, and no fragment
      at all exactly when every level is medium or (for pollution) low. */
  lemma FragmentsRule(c: Climate)
    ensures |Fragments(c)| <= 3
    ensures (HIGH_HUMIDITY in Fragments(c)) <==> c.humidity == High
    ensures (LOW_HUMIDITY in Fragments(c)) <==> c.humidity == Low
    ensures (HIGH_POLLUTION in Fragments(c)) <==> c.pollution == High
    ensures (HIGH_UV in Fragments(c)) <==> c.uv == High
    ensures (LOW_UV in Fragments(c)) <==> c.uv == Low
    ensures Fragments(c) == [] <==> c.humidity == Medium && c.pollution != High && c.uv == Medium
  {
  }

  /** The fragments contain no comma, so splitting the phrase at the commas
      gives them back (each after the first led by the space of ", "). */
  lemma {:induction false} DescribeSplits(c: Climate)
    requires Fragments(c) != []
    ensures Split(Describe(c), ',') ==
      [Fragments(c)[0]] + seq(|Fragments(c)| - 1, i requires 0 <= i < |Fragments(c)| - 1 => " " + Fragments(c)[i + 1])
  {
    var f := Fragments(c);
    var g := [f[0]] + seq(|f| - 1, i requires 0 <= i < |f| - 1 => " " + f[i + 1]);
    FragmentsHaveNoComma(c);
    forall i | 0 <= i < |g| ensures ',' !in g[i] {
      if i > 0 {
        assert g[i] == " " + f[i];
        assert ',' !in f[i];
      }
    }
    JoinWithSpace(f);
    SplitJoin(g, ',');
  }

  lemma FragmentsHaveNoComma(c: Climate)
    ensures forall i :: 0 <= i < |Fragments(c)| ==> ',' !in Fragments(c)[i]
  {
    HumidityPhrasesHaveNoComma();
    OtherPhrasesHaveNoComma();
  }

  lemma HumidityPhrasesHaveNoComma()
    ensures ',' !in HIGH_HUMIDITY && ',' !in LOW_HUMIDITY
  {
  }

  lemma OtherPhrasesHaveNoComma()
    ensures ',' !in HIGH_POLLUTION && ',' !in HIGH_UV && ',' !in LOW_UV
  {
  }

  /** Joining with ", " is joining with "," after prefixing every part but
      the first with a space. */
  lemma {:induction false} JoinWithSpace(f: seq<string>)
    requires f != []
    ensures Join(f, ", ") == Join([f[0]] + seq(|f| - 1, i requires 0 <= i < |f| - 1 => " " + f[i + 1]), ",")
  {
    var g := [f[0]] + seq(|f| - 1, i requires 0 <= i < |f| - 1 => " " + f[i + 1]);
    if |f| > 1 {
      var t := f[1..];
      var h := [" " + t[0]] + seq(|t| - 1, i requires 0 <= i < |t| - 1 => " " + t[i + 1]);
      JoinWithSpace(t);
      assert g[1..] == h;
      assert Join(t, ", ") == Join([t[0]] + seq(|t| - 1, i requires 0 <= i < |t| - 1 => " " + t[i + 1]), ",");
      JoinHeadSpace(t[0], seq(|t| - 1, i requires 0 <= i < |t| - 1 => " " + t[i + 1]));
    }
  }

  /** Prefixing the first part with a space prefixes the joined string. */
  lemma JoinHeadSpace(x: string, rest: seq<string>)
    ensures Join([" " + x] + rest, ",") == " " + Join([x] + rest, ",")
  {
    if |rest| > 0 {
      assert ([" " + x] + rest)[1..] == rest;
      assert ([x] + rest)[1..] == rest;
    }
  }

  /** The phrase is never empty: the moderate phrase stands in for an empty
      list. */
  lemma DescribeNonEmpty(c: Climate)
    ensures Describe(c) != ""
    ensures Fragments(c) == [] <==> Describe(c) == MODERATE
  {
    var f := Fragments(c);
    if f != [] {
      assert f[0] in {HIGH_HUMIDITY, LOW_HUMIDITY, HIGH_POLLUTION, HIGH_UV, LOW_UV};
      JoinStartsWithHead(f, ", ");
    }
  }

  lemma JoinStartsWithHead(parts: seq<string>, sep: string)
    requires parts != []
    ensures parts[0] <= Join(parts, sep)
  {
  }

  /** The phrase for some of the locations. */
  lemma DescribeExamples()
    ensures Describe(LocationClimate(Moscow)) == HIGH_POLLUTION
    ensures Describe(LocationClimate(Kazan)) == MODERATE
    ensures Describe(LocationClimate(Sochi)) == HIGH_HUMIDITY + ", " + HIGH_UV
    ensures Describe(LocationClimate(SaintPetersburg)) == HIGH_HUMIDITY + ", " + LOW_UV
    ensures Describe(LocationClimate(Novosibirsk)) == LOW_HUMIDITY
  {
  }
}
