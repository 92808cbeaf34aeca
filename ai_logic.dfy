/** Post-processing of the vision model's chat-completion reply in the
    `identifyProduct` action (convex/ai_logic.ts): the reply's content is
    flattened to text, the JSON object is cut out of it and parsed, a schema
    gate rejects unusable payloads, and `skinCompatibility` is normalised so
    that each of five skin types carries a valid status and a score in
    0..100 that agree with each other. */
module AiLogic {
  import opened Wrappers
  import opened JsValues

  /** The skin types the normaliser covers (convex/ai_logic.ts:131). */
  const SKIN_KEYS: seq<string> := ["dry", "oily", "combination", "normal", "sensitive"]

  /** The statuses it accepts (convex/ai_logic.ts:132). */
  const STATUSES: seq<string> := ["good", "bad", "neutral"]

  const MISSING_KEY_ERROR := "Отсутствует ключ GEMINI_API_KEY на сервере."
  const UNAVAILABLE_ERROR := "Сервис распознавания временно недоступен. Попробуйте ещё раз."
  const UNRECOGNISED_ERROR := "Не удалось распознать продукт. Попробуйте сделать фото крупнее и без бликов."
  const CORRUPT_ERROR := "ИИ вернул некорректные данные. Попробуйте переснять фото."
  const SCHEMA_ERROR := "Не удалось уверенно определить продукт. Попробуйте другой ракурс."
  const REQUEST_ERROR := "Произошла ошибка при обращении к ИИ. Попробуйте снова чуть позже."

  /** What came back from the HTTP call to the chat-completions endpoint. */
  datatype ServiceReply =
    | NotOk              // `response.ok` is false (and reading the error body did not throw)
    | Failed             // `fetch`, `response.text()` on an error reply, or `response.json()` threw
    | Received(data: Json)

  // ---------------------------------------------------------------------
  // Content flattening (lines 81-95) and the text guard (lines 97-102)
  // ---------------------------------------------------------------------

  /** `data?.choices?.[0]?.message?.content`. */
  function MessageContent(data: Json): Option<Json> {
    PropOf(PropOf(Elem0(Prop(data, "choices")), "message"), "content")
  }

  /** What one content part contributes before empty pieces are dropped. */
  function Piece(part: Json): Json {
    if part.JStr? then part
    else if IsTruthy(Prop(part, "text")) then Prop(part, "text").value
    else if IsTruthy(Prop(part, "content")) then Prop(part, "content").value
    else JStr("")
  }

  /** `parts.map(Piece).filter(Boolean)`. */
  function Pieces(parts: seq<Json>): (r: seq<Json>)
    ensures |r| <= |parts|
    ensures forall i :: 0 <= i < |r| ==> Truthy(r[i])
  {
    if parts == [] then []
    else (if Truthy(Piece(parts[0])) then [Piece(parts[0])] else []) + Pieces(parts[1..])
  }

  /** The text `Array.prototype.join` writes for one piece; `toText` is
      ECMAScript's ToString for the non-string pieces (numbers, objects). */
  function PieceText(p: Json, toText: Json -> string): string {
    if p.JStr? then p.s else toText(p)
  }

  function PieceTexts(ps: seq<Json>, toText: Json -> string): (r: seq<string>)
    ensures |r| == |ps|
    ensures forall i :: 0 <= i < |ps| ==> r[i] == PieceText(ps[i], toText)
  {
    if ps == [] then [] else [PieceText(ps[0], toText)] + PieceTexts(ps[1..], toText)
  }

  /** The `text` variable after line 95: an array content becomes the
      newline-joined text of its non-empty pieces; any other content is kept. */
  function FlattenContent(content: Option<Json>, toText: Json -> string): Option<Json> {
    if content.Some? && content.value.JArr? then
      Some(JStr(Join(PieceTexts(Pieces(content.value.items), toText), "\n")))
    else content
  }

  /** The guard `!text || typeof text !== 'string'`: only a non-empty string
      goes on to parsing. */
  function RecognizedText(text: Option<Json>): (r: Option<string>)
    ensures r.Some? <==> (text.Some? && text.value.JStr? && text.value.s != "")
    ensures r.Some? ==> text == Some(JStr(r.value))
  {
    if text.Some? && text.value.JStr? && text.value.s != "" then Some(text.value.s) else None
  }

  // ---------------------------------------------------------------------
  // The span handed to JSON.parse (lines 107-108)
  // ---------------------------------------------------------------------

  function FirstIndexOf(s: string, c: char): (r: Option<nat>)
    ensures r.Some? ==> r.value < |s| && s[r.value] == c && c !in s[..r.value]
    ensures r.None? ==> c !in s
  {
    if |s| == 0 then None
    else if s[0] == c then Some(0)
    else
      var t := FirstIndexOf(s[1..], c);
      if t.None? then None
      else
        assert s[..t.value + 1] == [s[0]] + s[1..][..t.value];
        Some(t.value + 1)
  }

  function LastIndexOf(s: string, c: char): (r: Option<nat>)
    ensures r.Some? ==> r.value < |s| && s[r.value] == c && c !in s[r.value + 1..]
    ensures r.None? ==> c !in s
  {
    if |s| == 0 then None
    else if s[|s| - 1] == c then Some(|s| - 1)
    else
      var t := LastIndexOf(s[..|s| - 1], c);
      if t.None? then None
      else
        assert s[t.value + 1..] == s[..|s| - 1][t.value + 1..] + [s[|s| - 1]];
        Some(t.value)
  }

  /** `text.match(/\{[\s\S]*\}/)`: the greedy match runs from the first `{`
      to the last `}` after it; with no such span the whole text is parsed. */
  function JsonSpan(s: string): string {
    var i := FirstIndexOf(s, '{');
    var j := LastIndexOf(s, '}');
    if i.Some? && j.Some? && i.value < j.value then s[i.value..j.value + 1] else s
  }

  // ---------------------------------------------------------------------
  // Schema gate (lines 117-128)
  // ---------------------------------------------------------------------

  /** String `brand`, string `name`, number `confidence`, truthy `analysis`. */
  predicate SchemaOk(p: Json) {
    && Truthy(p)
    && Prop(p, "brand").Some? && Prop(p, "brand").value.JStr?
    && Prop(p, "name").Some? && Prop(p, "name").value.JStr?
    && Prop(p, "confidence").Some? && Prop(p, "confidence").value.JNum?
    && IsTruthy(Prop(p, "analysis"))
  }

  /** Everything up to and including the schema gate. `parse` is
      `JSON.parse`, `None` when it throws. */
  function Recognize(data: Json, toText: Json -> string, parse: string -> Option<Json>): Result<Json> {
    var text := RecognizedText(FlattenContent(MessageContent(data), toText));
    if text.None? then Err(UNRECOGNISED_ERROR)
    else
      var parsed := parse(JsonSpan(text.value));
      if parsed.None? then Err(CORRUPT_ERROR)
      else if !SchemaOk(parsed.value) then Err(SCHEMA_ERROR)
      else Ok(parsed.value)
  }

  // ---------------------------------------------------------------------
  // skinCompatibility normalisation (lines 131-177)
  // ---------------------------------------------------------------------

  /** `validStatuses.includes(v)`. */
  predicate IsValidStatus(v: Option<Json>) {
    v.Some? && v.value.JStr? && v.value.s in STATUSES
  }

  /** The score a bare status stands for (lines 150, 163). */
  function DefaultScore(status: string): int {
    if status == "good" then 75 else if status == "bad" then 25 else 50
  }

  /** `Math.round` for a finite number: halves round towards +infinity. */
  function Round(x: real): int {
    (x + 0.5).Floor
  }

  /** `Math.max(0, Math.min(100, n))`. */
  function Clamp(n: int): int {
    if n > 100 then 100 else if n < 0 then 0 else n
  }

  /** The status a score stands for (the thresholds of lines 168-173). */
  function Band(score: int): string {
    if score >= 70 then "good" else if score < 40 then "bad" else "neutral"
  }

  /** `{status, score}`. */
  function Item(status: string, score: int): Json {
    JObj(map["status" := JStr(status), "score" := JNum(score as real)])
  }

  /** The new-format branch (lines 157-174) on an object or array `item`:
      an invalid status becomes neutral, the score is defaulted or rounded
      and clamped, then the status is forced to agree with the score. */
  function NormalizeItem(item: Json): Json
    requires IsObject(item)
  {
    var item1 := if IsValidStatus(Prop(item, "status")) then item else SetProp(item, "status", JStr("neutral"));
    var status := Prop(item1, "status").value.s;
    var raw := Prop(item1, "score");
    var score := if raw.Some? && raw.value.JNum? then Clamp(Round(raw.value.n)) else DefaultScore(status);
    var item2 := SetProp(item1, "score", JNum(score as real));
    if score >= 70 && status != "good" then SetProp(item2, "status", JStr("good"))
    else if score < 40 && status != "bad" then SetProp(item2, "status", JStr("bad"))
    else if score >= 40 && score < 70 && status != "neutral" then SetProp(item2, "status", JStr("neutral"))
    else item2
  }

  /** What one of the five keys holds after the loop of lines 142-176. */
  function NormalizeEntry(v: Option<Json>): Json {
    if IsTruthy(v) && IsObject(v.value) then NormalizeItem(v.value)
    else if IsValidStatus(v) then Item(v.value.s, DefaultScore(v.value.s))
    else Item("neutral", 50)
  }

  function NormalizeFields(m: map<string, Json>): map<string, Json> {
    map k | k in m.Keys + (set t | t in SKIN_KEYS) ::
      if k in SKIN_KEYS then NormalizeEntry(if k in m then Some(m[k]) else None) else m[k]
  }

  /** A truthy object or array `skinCompatibility` after normalisation: the
      five keys are normalised, every other key and element is kept. */
  function NormalizedCompat(c: Json): Json
    requires IsObject(c)
  {
    match c
    case JObj(m) => JObj(NormalizeFields(m))
    case JArr(items, p) => JArr(items, NormalizeFields(p))
  }

  /** The map built at lines 136-139 for a falsy `skinCompatibility`. */
  function DefaultCompat(): Json {
    JObj(map k | k in SKIN_KEYS :: Item("neutral", 50))
  }

  /** The payload after lines 131-177, or `None` when a truthy primitive
      `skinCompatibility` makes the assignment at line 153 throw a TypeError
      (module code is strict), which lines 180-185 turn into REQUEST_ERROR. */
  function NormalizeParsed(p: Json): Option<Json>
    requires IsObject(p)
  {
    var c := Prop(p, "skinCompatibility");
    if !IsTruthy(c) then Some(SetProp(p, "skinCompatibility", DefaultCompat()))
    else if !IsObject(c.value) then None
    else Some(SetProp(p, "skinCompatibility", NormalizedCompat(c.value)))
  }

  lemma SchemaOkIsObject(p: Json)
    requires SchemaOk(p)
    ensures IsObject(p)
  {
  }

  /** The value `identifyProduct` returns: an `{error}` object, or the
      validated and normalised payload. */
  function Identify(apiKey: Option<string>, reply: ServiceReply, toText: Json -> string,
                    parse: string -> Option<Json>): Json
  {
    if apiKey.None? || apiKey.value == "" then ErrorObject(MISSING_KEY_ERROR)
    else match reply
      case NotOk => ErrorObject(UNAVAILABLE_ERROR)
      case Failed => ErrorObject(REQUEST_ERROR)
      case Received(data) =>
        var rec := Recognize(data, toText, parse);
        if rec.Err? then ErrorObject(rec.error)
        else
          SchemaOkIsObject(rec.value);
          var n := NormalizeParsed(rec.value);
          if n.None? then ErrorObject(REQUEST_ERROR) else n.value
  }

  // ---------------------------------------------------------------------
  // The handler, in the source's step-by-step form
  // ---------------------------------------------------------------------

  /** Lines 131-177: fills or normalises `parsed.skinCompatibility` key by
      key, as the source's two `for` loops do. */
  method NormalizeSkinCompatibility(parsed: Json) returns (r: Option<Json>)
    requires IsObject(parsed)
    ensures r == NormalizeParsed(parsed)
  {
    var c := Prop(parsed, "skinCompatibility");
    if !IsTruthy(c) {
      var compat := JObj(map[]);
      for i := 0 to |SKIN_KEYS|
        invariant compat.JObj?
        invariant forall k :: Prop(compat, k) == if k in SKIN_KEYS[..i] then Some(Item("neutral", 50)) else None
      {
        assert SKIN_KEYS[..i + 1] == SKIN_KEYS[..i] + [SKIN_KEYS[i]];
        compat := SetProp(compat, SKIN_KEYS[i], Item("neutral", 50));
      }
      assert SKIN_KEYS[..|SKIN_KEYS|] == SKIN_KEYS;
      SamePropsSameValue(compat, DefaultCompat());
      r := Some(SetProp(parsed, "skinCompatibility", compat));
      return;
    }
    if !IsObject(c.value) {
      // `parsed.skinCompatibility[type] = ...` on a primitive throws.
      r := None;
      return;
    }
    var compat := c.value;
    for i := 0 to |SKIN_KEYS|
      invariant IsObject(compat) && compat.JArr? == c.value.JArr?
      invariant compat.JArr? ==> compat.items == c.value.items
      invariant forall k :: Prop(compat, k) == (if k in SKIN_KEYS[..i] then Some(NormalizeEntry(Prop(c.value, k))) else Prop(c.value, k))
    {
      var key := SKIN_KEYS[i];
      assert SKIN_KEYS[..i + 1] == SKIN_KEYS[..i] + [key];
      assert key !in SKIN_KEYS[..i];
      var oldValue := Prop(compat, key);
      if !IsTruthy(oldValue) || !IsObject(oldValue.value) {
        if IsValidStatus(oldValue) {
          compat := SetProp(compat, key, Item(oldValue.value.s, DefaultScore(oldValue.value.s)));
        } else {
          compat := SetProp(compat, key, Item("neutral", 50));
        }
      } else {
        var item := oldValue.value;
        if !IsValidStatus(Prop(item, "status")) {
          item := SetProp(item, "status", JStr("neutral"));
        }
        var status := Prop(item, "status").value.s;
        var raw := Prop(item, "score");
        var score: int;
        if !(raw.Some? && raw.value.JNum?) {
          score := DefaultScore(status);
        } else {
          score := Clamp(Round(raw.value.n));
        }
        item := SetProp(item, "score", JNum(score as real));
        if score >= 70 && status != "good" {
          item := SetProp(item, "status", JStr("good"));
        } else if score < 40 && status != "bad" {
          item := SetProp(item, "status", JStr("bad"));
        } else if score >= 40 && score < 70 && status != "neutral" {
          item := SetProp(item, "status", JStr("neutral"));
        }
        assert item == NormalizeItem(oldValue.value);
        compat := SetProp(compat, key, item);
      }
    }
    assert SKIN_KEYS[..|SKIN_KEYS|] == SKIN_KEYS;
    forall k ensures Prop(compat, k) == Prop(NormalizedCompat(c.value), k) {
      NormalizedCompatProp(c.value, k);
    }
    SamePropsSameValue(compat, NormalizedCompat(c.value));
    r := Some(SetProp(parsed, "skinCompatibility", compat));
  }

  /** The `identifyProduct` handler body (lines 17-185) with the HTTP call,
      the environment key, `JSON.parse` and ECMAScript ToString as inputs. */
  method IdentifyProduct(apiKey: Option<string>, reply: ServiceReply, toText: Json -> string,
                         parse: string -> Option<Json>) returns (r: Json)
    ensures r == Identify(apiKey, reply, toText, parse)
  {
    if apiKey.None? || apiKey.value == "" {
      return ErrorObject(MISSING_KEY_ERROR);
    }
    if reply.NotOk? {
      return ErrorObject(UNAVAILABLE_ERROR);
    }
    if reply.Failed? {
      return ErrorObject(REQUEST_ERROR);
    }
    var text := FlattenContent(MessageContent(reply.data), toText);
    if !(text.Some? && text.value.JStr? && text.value.s != "") {
      return ErrorObject(UNRECOGNISED_ERROR);
    }
    var parsed := parse(JsonSpan(text.value.s));
    if parsed.None? {
      return ErrorObject(CORRUPT_ERROR);
    }
    if !SchemaOk(parsed.value) {
      return ErrorObject(SCHEMA_ERROR);
    }
    var normalized := NormalizeSkinCompatibility(parsed.value);
    if normalized.None? {
      return ErrorObject(REQUEST_ERROR);
    }
    return normalized.value;
  }

  // ---------------------------------------------------------------------
  // Properties
  // ---------------------------------------------------------------------

  /** A normalised compatibility item: an object whose status is one of the
      three and agrees with an integer score in 0..100. */
  predicate NormalizedItemOk(v: Json) {
    && IsObject(v)
    && Prop(v, "status").Some? && Prop(v, "status").value.JStr?
    && Prop(v, "score").Some? && Prop(v, "score").value.JNum?
    && var status := Prop(v, "status").value.s;
       var score := Prop(v, "score").value.n;
       && status in STATUSES
       && score == score.Floor as real
       && 0 <= score.Floor <= 100
       && status == Band(score.Floor)
  }

  /** All five keys hold normalised items. */
  predicate CompatInvariant(c: Json) {
    forall k :: k in SKIN_KEYS ==> Prop(c, k).Some? && NormalizedItemOk(Prop(c, k).value)
  }

  lemma BandIsStatus(score: int)
    ensures Band(score) in STATUSES
  {
  }

  lemma ItemOk(score: int)
    requires 0 <= score <= 100
    ensures NormalizedItemOk(Item(Band(score), score))
  {
    assert (score as real).Floor == score;
    BandIsStatus(score);
  }

  /** Lines 157-174 always produce a normalised item, whatever the object
      held before: e.g. `{bad, 85}` becomes `{good, 85}`. */
  lemma NormalizeItemOk(item: Json)
    requires IsObject(item)
    ensures NormalizedItemOk(NormalizeItem(item))
    ensures Prop(NormalizeItem(item), "score").value.n.Floor ==
            (var raw := Prop(item, "score");
             if raw.Some? && raw.value.JNum? then Clamp(Round(raw.value.n))
             else DefaultScore(if IsValidStatus(Prop(item, "status")) then Prop(item, "status").value.s else "neutral"))
    ensures forall k :: k != "status" && k != "score" ==> Prop(NormalizeItem(item), k) == Prop(item, k)
  {
    var r := NormalizeItem(item);
    var raw := Prop(item, "score");
    var item1 := if IsValidStatus(Prop(item, "status")) then item else SetProp(item, "status", JStr("neutral"));
    assert Prop(item1, "score") == raw;
    var status := Prop(item1, "status").value.s;
    var score := if raw.Some? && raw.value.JNum? then Clamp(Round(raw.value.n)) else DefaultScore(status);
    assert 0 <= score <= 100;
    assert Prop(r, "score") == Some(JNum(score as real));
    assert (score as real).Floor == score;
    assert Prop(r, "status") == Some(JStr(Band(score)));
    BandIsStatus(score);
  }

  /** Every entry the loop of lines 142-176 writes is normalised. */
  lemma NormalizeEntryOk(v: Option<Json>)
    ensures NormalizedItemOk(NormalizeEntry(v))
  {
    if IsTruthy(v) && IsObject(v.value) {
      NormalizeItemOk(v.value);
    } else if IsValidStatus(v) {
      ItemOk(DefaultScore(v.value.s));
    } else {
      ItemOk(50);
    }
  }

  lemma NormalizedCompatProp(c: Json, k: string)
    requires IsObject(c)
    ensures Prop(NormalizedCompat(c), k) == if k in SKIN_KEYS then Some(NormalizeEntry(Prop(c, k))) else Prop(c, k)
  {
  }

  /** The invariant of the normaliser: after lines 131-177, each of the five
      keys holds a valid status and an integer score in 0..100 that agree,
      every other key of `skinCompatibility` is kept, and no other field of
      the payload changes. */
  lemma NormalizeParsedInvariant(p: Json)
    requires IsObject(p)
    ensures var r := NormalizeParsed(p);
      r.Some? ==>
        && IsObject(r.value)
        && Prop(r.value, "skinCompatibility").Some?
        && CompatInvariant(Prop(r.value, "skinCompatibility").value)
        && (forall k :: k != "skinCompatibility" ==> Prop(r.value, k) == Prop(p, k))
    ensures NormalizeParsed(p).None? <==>
      (IsTruthy(Prop(p, "skinCompatibility")) && !IsObject(Prop(p, "skinCompatibility").value))
  {
    var c := Prop(p, "skinCompatibility");
    if !IsTruthy(c) {
      forall k | k in SKIN_KEYS ensures Prop(DefaultCompat(), k) == Some(Item("neutral", 50)) && NormalizedItemOk(Item("neutral", 50)) {
        ItemOk(50);
      }
    } else if IsObject(c.value) {
      forall k | k in SKIN_KEYS
        ensures Prop(NormalizedCompat(c.value), k).Some? && NormalizedItemOk(Prop(NormalizedCompat(c.value), k).value)
      {
        NormalizedCompatProp(c.value, k);
        NormalizeEntryOk(Prop(c.value, k));
      }
    }
  }

  /** Lines 134-139: a falsy `skinCompatibility` becomes `{neutral, 50}` for
      all five keys and nothing else. */
  lemma FalsyCompatDefaults(p: Json)
    requires IsObject(p) && !IsTruthy(Prop(p, "skinCompatibility"))
    ensures NormalizeParsed(p) == Some(SetProp(p, "skinCompatibility", DefaultCompat()))
    ensures forall k :: Prop(DefaultCompat(), k) == if k in SKIN_KEYS then Some(Item("neutral", 50)) else None
  {
  }

  /** Lines 143-154: a legacy or missing entry. A bare valid status gets its
      default score; anything else that is not a truthy object or array
      becomes `{neutral, 50}`. */
  lemma LegacyEntry(v: Option<Json>)
    requires !(IsTruthy(v) && IsObject(v.value))
    ensures v == Some(JStr("good")) ==> NormalizeEntry(v) == Item("good", 75)
    ensures v == Some(JStr("bad")) ==> NormalizeEntry(v) == Item("bad", 25)
    ensures v == Some(JStr("neutral")) ==> NormalizeEntry(v) == Item("neutral", 50)
    ensures !IsValidStatus(v) ==> NormalizeEntry(v) == Item("neutral", 50)
  {
  }

  /** Lines 162-166: a numeric score is rounded and clamped into 0..100
      (150 to 100, -30 to 0); a missing or non-numeric one gets the default of
      the already validated status. */
  lemma ScoreRule(item: Json)
    requires IsObject(item)
    ensures var raw := Prop(item, "score");
      raw.Some? && raw.value.JNum? ==>
        Prop(NormalizeItem(item), "score") == Some(JNum(Clamp(Round(raw.value.n)) as real))
    ensures var raw := Prop(item, "score");
      !(raw.Some? && raw.value.JNum?) ==>
        Prop(NormalizeItem(item), "score") ==
          Some(JNum(DefaultScore(if IsValidStatus(Prop(item, "status")) then Prop(item, "status").value.s else "neutral") as real))
  {
    NormalizeItemOk(item);
  }

  lemma ClampExamples()
    ensures Clamp(Round(150.0)) == 100 && Clamp(Round(-30.0)) == 0 && Clamp(Round(84.5)) == 85
  {
  }

  /** Score wins over status. */
  lemma ScoreWinsExample()
    ensures NormalizeItem(Item("bad", 85)) == Item("good", 85)
  {
    var i := Item("bad", 85);
    assert Prop(i, "status") == Some(JStr("bad"));
    assert Round(85.0) == 85;
    SamePropsSameValue(NormalizeItem(i), Item("good", 85));
  }

  /** A normalised item is a fixed point of lines 157-174. */
  lemma NormalizeItemIdempotent(v: Json)
    requires NormalizedItemOk(v)
    ensures NormalizeItem(v) == v
  {
    var n := Prop(v, "score").value.n;
    assert Round(n) == n.Floor;
    var r := NormalizeItem(v);
    assert Prop(r, "score") == Some(JNum(n.Floor as real));
    assert Prop(r, "status") == Prop(v, "status");
    forall k ensures Prop(r, k) == Prop(v, k) {
    }
    SamePropsSameValue(r, v);
  }

  lemma NormalizeEntryIdempotent(v: Option<Json>)
    ensures NormalizeEntry(Some(NormalizeEntry(v))) == NormalizeEntry(v)
  {
    NormalizeEntryOk(v);
    NormalizeItemIdempotent(NormalizeEntry(v));
  }

  /** Normalising an already normalised payload changes nothing. */
  lemma NormalizeParsedIdempotent(p: Json)
    requires IsObject(p) && NormalizeParsed(p).Some?
    ensures IsObject(NormalizeParsed(p).value)
    ensures NormalizeParsed(NormalizeParsed(p).value) == NormalizeParsed(p)
  {
    var q := NormalizeParsed(p).value;
    NormalizeParsedInvariant(p);
    var c := Prop(q, "skinCompatibility").value;
    assert IsObject(c) by {
      if !IsTruthy(Prop(p, "skinCompatibility")) {
      } else {
      }
    }
    forall k ensures Prop(NormalizedCompat(c), k) == Prop(c, k) {
      NormalizedCompatProp(c, k);
      if k in SKIN_KEYS {
        NormalizeItemIdempotent(Prop(c, k).value);
      }
    }
    SamePropsSameValue(NormalizedCompat(c), c);
    forall k ensures Prop(SetProp(q, "skinCompatibility", c), k) == Prop(q, k) {
    }
    SamePropsSameValue(SetProp(q, "skinCompatibility", c), q);
  }

  /** Lines 107-108: the parsed text starts at the first `{` and ends at the
      last `}` after it when there is such a span, and is the whole text
      otherwise. */
  lemma JsonSpanIsOuterBraces(s: string)
    ensures var i := FirstIndexOf(s, '{'); var j := LastIndexOf(s, '}');
      if i.Some? && j.Some? && i.value < j.value then
        && JsonSpan(s) == s[i.value..j.value + 1]
        && '{' !in s[..i.value] && '}' !in s[j.value + 1..]
      else JsonSpan(s) == s
  {
  }

  /** Cutting the span out of an already cut span changes nothing. */
  lemma JsonSpanIdempotent(s: string)
    ensures JsonSpan(JsonSpan(s)) == JsonSpan(s)
  {
    var i := FirstIndexOf(s, '{');
    var j := LastIndexOf(s, '}');
    if i.Some? && j.Some? && i.value < j.value {
      var t := s[i.value..j.value + 1];
      assert JsonSpan(s) == t;
      assert t[0] == '{' && t[|t| - 1] == '}';
      assert FirstIndexOf(t, '{') == Some(0);
      assert LastIndexOf(t, '}') == Some(|t| - 1);
      assert t[0..|t|] == t;
    }
  }

  /** Lines 85-95: a string part is kept as it is, an object part gives its
      truthy `text`, else its truthy `content`; empty pieces are dropped. */
  lemma PieceRule(part: Json)
    ensures part.JStr? ==> Piece(part) == part
    ensures !part.JStr? && IsTruthy(Prop(part, "text")) ==> Piece(part) == Prop(part, "text").value
    ensures !part.JStr? && !IsTruthy(Prop(part, "text")) && IsTruthy(Prop(part, "content")) ==>
      Piece(part) == Prop(part, "content").value
    ensures !part.JStr? && !IsTruthy(Prop(part, "text")) && !IsTruthy(Prop(part, "content")) ==>
      !Truthy(Piece(part))
  {
  }

  /** Content made of non-empty strings only is kept piece for piece. */
  lemma {:induction false} PiecesOfStrings(parts: seq<Json>)
    requires forall i :: 0 <= i < |parts| ==> parts[i].JStr? && parts[i].s != ""
    ensures Pieces(parts) == parts
  {
    if parts != [] {
      PiecesOfStrings(parts[1..]);
      assert [parts[0]] + parts[1..] == parts;
    }
  }

  /** Dropping falsy pieces works part by part: the pieces of a
      concatenation are the pieces of each half, in order. */
  lemma {:induction false} PiecesAppend(a: seq<Json>, b: seq<Json>)
    ensures Pieces(a + b) == Pieces(a) + Pieces(b)
  {
    if a == [] {
      assert a + b == b;
    } else {
      var h := if Truthy(Piece(a[0])) then [Piece(a[0])] else [];
      PiecesAppend(a[1..], b);
      assert (a + b)[0] == a[0];
      assert (a + b)[1..] == a[1..] + b;
      assert Pieces(a + b) == h + Pieces(a[1..] + b);
      assert Pieces(a) == h + Pieces(a[1..]);
    }
  }

  /** One part contributes its piece exactly when that piece is truthy. */
  lemma PiecesSingle(x: Json)
    ensures Pieces([x]) == if Truthy(Piece(x)) then [Piece(x)] else []
  {
    assert [x][1..] == [];
  }

  /** The pieces are joined with newlines: when none of their texts contains
      a newline, splitting the flattened text on newlines gives them back. */
  lemma FlattenSplits(items: seq<Json>, props: map<string, Json>, toText: Json -> string)
    requires Pieces(items) != []
    requires forall i :: 0 <= i < |Pieces(items)| ==> '\n' !in PieceText(Pieces(items)[i], toText)
    ensures var text := FlattenContent(Some(JArr(items, props)), toText);
      text.Some? && text.value.JStr? &&
      Split(text.value.s, '\n') == PieceTexts(Pieces(items), toText)
  {
    SplitJoin(PieceTexts(Pieces(items), toText), '\n');
  }

  /** An array whose parts are all empty (or have no usable text) flattens
      to "" and is turned away by the text guard (lines 97-102). */
  lemma EmptyFlattenRejected(items: seq<Json>, props: map<string, Json>, toText: Json -> string)
    requires Pieces(items) == []
    ensures RecognizedText(FlattenContent(Some(JArr(items, props)), toText)).None?
  {
  }

  /** The recognition errors: nothing is parsed without non-empty text, and
      the schema gate accepts exactly the payloads with string brand and
      name, numeric confidence and truthy analysis. */
  lemma RecognizeErrors(data: Json, toText: Json -> string, parse: string -> Option<Json>)
    ensures var text := RecognizedText(FlattenContent(MessageContent(data), toText));
      text.None? ==> Recognize(data, toText, parse) == Err(UNRECOGNISED_ERROR)
    ensures var text := RecognizedText(FlattenContent(MessageContent(data), toText));
      text.Some? ==>
        (parse(JsonSpan(text.value)).None? ==> Recognize(data, toText, parse) == Err(CORRUPT_ERROR)) &&
        (parse(JsonSpan(text.value)).Some? ==>
          (Recognize(data, toText, parse).Ok? <==> SchemaOk(parse(JsonSpan(text.value)).value)) &&
          (!SchemaOk(parse(JsonSpan(text.value)).value) ==> Recognize(data, toText, parse) == Err(SCHEMA_ERROR)))
  {
  }

  /** What `identifyProduct` returns when the reply is usable: exactly the
      payload the gate let through, normalised, or the TypeError's generic
      error; in every case with all five keys normalised. */
  lemma IdentifySuccess(apiKey: Option<string>, data: Json, toText: Json -> string, parse: string -> Option<Json>)
    requires apiKey.Some? && apiKey.value != ""
    requires Recognize(data, toText, parse).Ok?
    ensures var p := Recognize(data, toText, parse).value;
      IsObject(p) &&
      (NormalizeParsed(p).Some? ==>
        && Identify(apiKey, Received(data), toText, parse) == NormalizeParsed(p).value
        && CompatInvariant(Prop(NormalizeParsed(p).value, "skinCompatibility").value)
        && Prop(NormalizeParsed(p).value, "brand") == Prop(p, "brand")
        && Prop(NormalizeParsed(p).value, "confidence") == Prop(p, "confidence"))
    ensures var p := Recognize(data, toText, parse).value;
      IsObject(p) && NormalizeParsed(p).None? ==>
        Identify(apiKey, Received(data), toText, parse) == ErrorObject(REQUEST_ERROR)
  {
    var p := Recognize(data, toText, parse).value;
    SchemaOkIsObject(p);
    NormalizeParsedInvariant(p);
  }
}
