/** The `analyzeProduct` action (convex/analysis.ts): it gates the
    recognition result, looks up a price, turns the base64 photo into bytes
    for storage and saves the product. The recognition result, the price
    service's reply, `atob`'s output, the storage id and the new document id
    are parameters; what the action stores and inserts is part of its
    outcome. */
module Analysis {
  import opened Wrappers
  import opened JsValues
  import AiLogic
  import opened Products

  newtype Byte = x: int | 0 <= x < 256

  const UNRECOGNISED_ERROR := "Не удалось распознать продукт. Попробуйте сделать фото ещё раз."
  const MALFORMED_ERROR := "ИИ вернул некорректный результат. Попробуйте переснять фото."
  const LOW_CONFIDENCE_ERROR := "Не удалось четко распознать продукт."
  const PRICE_PENDING := "Уточняется"
  const PRICE_NOT_FOUND := "Не найдено"
  /** Results below this confidence are rejected (line 52). */
  const MIN_CONFIDENCE: real := 0.7

  // ---------------------------------------------------------------------
  // The recognition gate (lines 38-54)
  // ---------------------------------------------------------------------

  /** The `error` the action returns for the recognition result `aiResult`,
      or `None` when the result passes. */
  function Guard(aiResult: Json): Option<Json> {
    if !Truthy(aiResult) then Some(JStr(UNRECOGNISED_ERROR))
    else if IsTruthy(Prop(aiResult, "error")) then Prop(aiResult, "error")
    else
      var confidence := Prop(aiResult, "confidence");
      if confidence.None? || !confidence.value.JNum? then Some(JStr(MALFORMED_ERROR))
      else if confidence.value.n < MIN_CONFIDENCE then Some(JStr(LOW_CONFIDENCE_ERROR))
      else None
  }

  // ---------------------------------------------------------------------
  // The price lookup (lines 59-76)
  // ---------------------------------------------------------------------

  /** What the price service did: its request or body parsing threw, or it
      returned the parsed body `data`. */
  datatype PriceReply = SearchThrew | SearchReturned(data: Json)

  /** `searchPrice` after the `try`: the service's truthy `answer`, else
      "not found"; the default "pending" survives only a throw, including
      the TypeError of reading `answer` from a `null` body. */
  function SearchPrice(reply: PriceReply): Json {
    match reply
    case SearchThrew => JStr(PRICE_PENDING)
    case SearchReturned(data) =>
      if data == JNull then JStr(PRICE_PENDING)
      else if IsTruthy(Prop(data, "answer")) then Prop(data, "answer").value
      else JStr(PRICE_NOT_FOUND)
  }

  // ---------------------------------------------------------------------
  // base64 to bytes (lines 80-84)
  // ---------------------------------------------------------------------

  /** Storing a UTF-16 code unit into a `Uint8Array` keeps it modulo 256. */
  function ToByte(c: char): Byte {
    (c as int % 256) as Byte
  }

  /** The bytes of `atob`'s output, one per character. */
  function BinaryBytes(binary: string): (r: seq<Byte>)
    ensures |r| == |binary|
    ensures forall i :: 0 <= i < |binary| ==> r[i] == ToByte(binary[i])
  {
    if binary == [] then [] else [ToByte(binary[0])] + BinaryBytes(binary[1..])
  }

  /** The `Uint8Array` filled by the loop of lines 81-84. */
  method CopyBytes(binary: string) returns (bytes: array<Byte>)
    ensures bytes[..] == BinaryBytes(binary)
  {
    bytes := new Byte[|binary|];
    for i := 0 to |binary|
      invariant forall j :: 0 <= j < i ==> bytes[j] == ToByte(binary[j])
    {
      bytes[i] := ToByte(binary[i]);
    }
  }

  // ---------------------------------------------------------------------
  // The call to saveProduct (lines 90-100)
  // ---------------------------------------------------------------------

  /** `v.object({ status: v.string(), score: v.number() })`. */
  predicate ItemAccepted(v: Json) {
    && v.JObj? && v.fields.Keys == {"status", "score"}
    && v.fields["status"].JStr? && v.fields["score"].JNum?
  }

  /** The validator of `skinCompatibility` (products.ts:12-33): an object
      with exactly the five skin keys, each an accepted item. */
  predicate CompatAccepted(c: Json) {
    && c.JObj? && c.fields.Keys == set k | k in AiLogic.SKIN_KEYS
    && forall k :: k in c.fields ==> ItemAccepted(c.fields[k])
  }

  /** The arguments `saveProduct`'s validators admit, or `None` when they
      reject the call and it throws: brand, name and price must be strings,
      and a present `skinCompatibility` must pass its validator. */
  function SaveArgsFor(productInfo: Json, price: Json, storageId: string): (r: Option<SaveArgs>)
    ensures r.Some? <==>
      && Prop(productInfo, "brand").Some? && Prop(productInfo, "brand").value.JStr?
      && Prop(productInfo, "name").Some? && Prop(productInfo, "name").value.JStr?
      && price.JStr?
      && (Prop(productInfo, "skinCompatibility").None? || CompatAccepted(Prop(productInfo, "skinCompatibility").value))
    ensures r.Some? ==>
      && Prop(productInfo, "brand") == Some(JStr(r.value.brand))
      && Prop(productInfo, "name") == Some(JStr(r.value.name))
      && price == JStr(r.value.price)
      && r.value.storageId == storageId
      && r.value.analysis == Prop(productInfo, "analysis")
      && r.value.skinCompatibility == Prop(productInfo, "skinCompatibility")
      && (r.value.skinCompatibility.Some? ==> CompatAccepted(r.value.skinCompatibility.value))
  {
    var brand := Prop(productInfo, "brand");
    var name := Prop(productInfo, "name");
    var skin := Prop(productInfo, "skinCompatibility");
    if brand.Some? && brand.value.JStr? && name.Some? && name.value.JStr? && price.JStr?
       && (skin.None? || CompatAccepted(skin.value))
    then Some(SaveArgs(brand.value.s, name.value.s, Prop(productInfo, "analysis"), price.s, storageId, skin))
    else None
  }

  // ---------------------------------------------------------------------
  // The action
  // ---------------------------------------------------------------------

  /** The returned `ProductResult`. */
  datatype ProductResult =
    | Failure(error: Json)
    | Success(productId: string, brand: string, name: string, analysis: Option<Json>, price: string)

  /** The action returns a result or throws (an invalid base64 string, a
      rejected `saveProduct` call). */
  datatype Outcome = Returned(result: ProductResult) | Threw

  /** What the action returns, the bytes it put into storage and the record
      it inserted. */
  datatype Effects = Effects(outcome: Outcome, stored: Option<seq<Byte>>, inserted: Option<Product>)

  /** `analyzeProduct`. `decoded` is `atob(imageBase64)` (`None` when it
      throws); `storageId` is the id storage assigns the blob; `newId` the id
      the insert assigns; `stringify` is `JSON.stringify`. */
  function Analyze(aiResult: Json, priceReply: PriceReply, decoded: Option<string>, storageId: string,
                   stringify: Json -> string, newId: string): Effects
  {
    var g := Guard(aiResult);
    if g.Some? then Effects(Returned(Failure(g.value)), None, None)
    else
      var price := SearchPrice(priceReply);
      if decoded.None? then Effects(Threw, None, None)
      else
        var blob := BinaryBytes(decoded.value);
        var args := SaveArgsFor(aiResult, price, storageId);
        if args.None? then Effects(Threw, Some(blob), None)
        else
          var record := SaveProduct(args.value, stringify, newId);
          if record.None? then Effects(Threw, Some(blob), None)
          else
            var a := args.value;
            Effects(Returned(Success(newId, a.brand, a.name, a.analysis, a.price)), Some(blob), record)
  }

  /** The handler step by step. */
  method AnalyzeProduct(aiResult: Json, priceReply: PriceReply, decoded: Option<string>, storageId: string,
                        stringify: Json -> string, newId: string) returns (e: Effects)
    ensures e == Analyze(aiResult, priceReply, decoded, storageId, stringify, newId)
  {
    if !Truthy(aiResult) || IsTruthy(Prop(aiResult, "error")) {
      var error := if IsTruthy(Prop(aiResult, "error")) then Prop(aiResult, "error").value else JStr(UNRECOGNISED_ERROR);
      return Effects(Returned(Failure(error)), None, None);
    }
    var confidence := Prop(aiResult, "confidence");
    if confidence.None? || !confidence.value.JNum? {
      return Effects(Returned(Failure(JStr(MALFORMED_ERROR))), None, None);
    }
    if confidence.value.n < MIN_CONFIDENCE {
      return Effects(Returned(Failure(JStr(LOW_CONFIDENCE_ERROR))), None, None);
    }
    var productInfo := aiResult;
    var searchPrice := JStr(PRICE_PENDING);
    match priceReply {
      case SearchThrew =>
      case SearchReturned(searchData) =>
        if searchData != JNull {
          var answer := Prop(searchData, "answer");
          searchPrice := if IsTruthy(answer) then answer.value else JStr(PRICE_NOT_FOUND);
        }
    }
    if decoded.None? {
      return Effects(Threw, None, None);
    }
    var bytes := CopyBytes(decoded.value);
    var stored := bytes[..];
    var args := SaveArgsFor(productInfo, searchPrice, storageId);
    if args.None? {
      return Effects(Threw, Some(stored), None);
    }
    var record := SaveProduct(args.value, stringify, newId);
    if record.None? {
      return Effects(Threw, Some(stored), None);
    }
    var productId := record.value.id;
    return Effects(Returned(Success(productId, args.value.brand, args.value.name, args.value.analysis, args.value.price)),
                   Some(stored), record);
  }

  // ---------------------------------------------------------------------
  // Properties
  // ---------------------------------------------------------------------

  /** Lines 38-54: a result passes the gate exactly when it is truthy, has
      no truthy `error`, and has a numeric confidence of at least 0.7;
      otherwise the error reported is its own `error` or one of the three
      messages, in that order of precedence. */
  lemma GuardRule(a: Json)
    ensures Guard(a).None? <==>
      Truthy(a) && !IsTruthy(Prop(a, "error")) && Prop(a, "confidence").Some?
      && Prop(a, "confidence").value.JNum? && Prop(a, "confidence").value.n >= MIN_CONFIDENCE
    ensures !Truthy(a) ==> Guard(a) == Some(JStr(UNRECOGNISED_ERROR))
    ensures Truthy(a) && IsTruthy(Prop(a, "error")) ==> Guard(a) == Prop(a, "error")
    ensures Guard(a).Some? ==> Truthy(Guard(a).value)
  {
  }

  /** The threshold is inclusive: 0.7 passes, anything below fails. */
  lemma ConfidenceThreshold(fields: map<string, Json>, c: real)
    requires "error" !in fields
    ensures var a := JObj(fields["confidence" := JNum(c)]);
      (c >= 0.7 ==> Guard(a).None?) && (c < 0.7 ==> Guard(a) == Some(JStr(LOW_CONFIDENCE_ERROR)))
  {
  }

  /** Every `{error}` object `identifyProduct` returns reaches the user
      unchanged, and nothing is stored or saved. */
  lemma IdentifyErrorsReachUser(msg: string, priceReply: PriceReply, decoded: Option<string>, storageId: string,
                                stringify: Json -> string, newId: string)
    requires msg != ""
    ensures Analyze(ErrorObject(msg), priceReply, decoded, storageId, stringify, newId)
         == Effects(Returned(Failure(JStr(msg))), None, None)
  {
    assert Prop(ErrorObject(msg), "error") == Some(JStr(msg));
  }

  /** A rejected recognition stores and inserts nothing; a stored blob or an
      inserted record implies the gate passed; the action throws only after
      the gate. */
  lemma FailureHasNoEffects(aiResult: Json, priceReply: PriceReply, decoded: Option<string>, storageId: string,
                            stringify: Json -> string, newId: string)
    ensures var e := Analyze(aiResult, priceReply, decoded, storageId, stringify, newId);
      && (e.outcome.Returned? && e.outcome.result.Failure? <==> Guard(aiResult).Some?)
      && (e.outcome.Returned? && e.outcome.result.Failure? ==> e.stored.None? && e.inserted.None?)
      && (e.stored.Some? <==> Guard(aiResult).None? && decoded.Some?)
      && (e.inserted.Some? <==> e.outcome.Returned? && e.outcome.result.Success?)
  {
  }

  /** Lines 90-108: a success reports the record that was inserted — its id,
      brand, name and price — and that record points at the stored photo. */
  lemma SuccessMatchesRecord(aiResult: Json, priceReply: PriceReply, decoded: Option<string>, storageId: string,
                             stringify: Json -> string, newId: string)
    requires Analyze(aiResult, priceReply, decoded, storageId, stringify, newId).outcome.Returned?
    requires Analyze(aiResult, priceReply, decoded, storageId, stringify, newId).outcome.result.Success?
    ensures var e := Analyze(aiResult, priceReply, decoded, storageId, stringify, newId);
      var s := e.outcome.result;
      && e.inserted.Some?
      && s.productId == e.inserted.value.id == newId
      && Prop(aiResult, "brand") == Some(JStr(s.brand)) && e.inserted.value.brand == s.brand
      && Prop(aiResult, "name") == Some(JStr(s.name)) && e.inserted.value.name == s.name
      && SearchPrice(priceReply) == JStr(s.price) && e.inserted.value.priceEstimate == s.price
      && s.analysis == Prop(aiResult, "analysis")
      && e.inserted.value.imageUrl == storageId
      && decoded.Some? && e.stored == Some(BinaryBytes(decoded.value))
  {
  }

  /** Lines 59-76: the three values the price can take. */
  lemma PriceRule(reply: PriceReply)
    ensures reply.SearchThrew? ==> SearchPrice(reply) == JStr(PRICE_PENDING)
    ensures reply == SearchReturned(JNull) ==> SearchPrice(reply) == JStr(PRICE_PENDING)
    ensures reply.SearchReturned? && reply.data != JNull ==>
      (IsTruthy(Prop(reply.data, "answer")) ==> Some(SearchPrice(reply)) == Prop(reply.data, "answer")) &&
      (!IsTruthy(Prop(reply.data, "answer")) ==> SearchPrice(reply) == JStr(PRICE_NOT_FOUND))
    ensures Truthy(SearchPrice(reply))
  {
  }

  lemma ToByteLatin1(c: char)
    requires c as int < 256
    ensures ToByte(c) as int == c as int
  {
    var n := c as int;
    assert n % 256 == n;
  }

  /** `atob` yields only code units below 256, so the stored bytes are
      exactly the decoded characters' codes and no information is lost. */
  lemma BytesAreLatin1(binary: string)
    requires forall i :: 0 <= i < |binary| ==> binary[i] as int < 256
    ensures forall i :: 0 <= i < |binary| ==> BinaryBytes(binary)[i] as int == binary[i] as int
  {
    forall i | 0 <= i < |binary| ensures BinaryBytes(binary)[i] as int == binary[i] as int {
      ToByteLatin1(binary[i]);
    }
  }

  /** The default compatibility `identifyProduct` fills in when the model
      gave none passes `saveProduct`'s validator. */
  lemma DefaultCompatAccepted()
    ensures CompatAccepted(AiLogic.DefaultCompat())
  {
    var c := AiLogic.DefaultCompat();
    forall k | k in c.fields ensures ItemAccepted(c.fields[k]) {
      assert c.fields[k] == AiLogic.Item("neutral", 50);
    }
  }

  /** A normalised compatibility object whose items hold nothing but
      `status` and `score` passes the validator, but any extra key — at the
      top level or inside an item, both of which the normalisation keeps —
      makes `saveProduct` reject the call and the action throw. */
  lemma NormalizedCompatAccepted(c: Json)
    requires c.JObj? && AiLogic.CompatInvariant(c)
    ensures CompatAccepted(c) <==>
      && c.fields.Keys == (set k | k in AiLogic.SKIN_KEYS)
      && forall k :: k in c.fields ==> c.fields[k].JObj? && c.fields[k].fields.Keys == {"status", "score"}
  {
    if c.fields.Keys == (set k | k in AiLogic.SKIN_KEYS) {
      forall k | k in c.fields ensures AiLogic.NormalizedItemOk(c.fields[k]) {
        assert Prop(c, k) == Some(c.fields[k]);
      }
    }
  }
}
