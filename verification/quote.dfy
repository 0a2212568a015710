/**
 * The quote side of the swap API: the `SwapMode` enum and its text parser,
 * the request a client builds and the projection that strips it down to the
 * internal request, and the response the server sends back.
 */
module Quote {
  import opened Serde
  import opened Foreign

  // ---------------------------------------------------------------------
  // SwapMode
  // ---------------------------------------------------------------------

  /** Whether the quoted `amount` is what goes in or what comes out. */
  datatype SwapMode = ExactIn | ExactOut

  /** The variant names, which are also the wire names: no renaming applies. */
  function SwapModeName(m: SwapMode): string {
    match m
    case ExactIn => "ExactIn"
    case ExactOut => "ExactOut"
  }

  /** `#[default]`: the mode that the text `"ExactIn"` parses to. */
  function DefaultSwapMode(): (m: SwapMode)
    ensures SwapModeFromStr("ExactIn") == Ok(m)
  {
    ExactIn
  }

  /** `FromStr`: an exact, case-sensitive match, and a message naming the input otherwise. */
  function SwapModeFromStr(s: string): (r: Result<SwapMode, string>)
    ensures r.Err? ==> r.error == s + " is not a valid SwapMode"
  {
    match s
    case "ExactIn" => Ok(ExactIn)
    case "ExactOut" => Ok(ExactOut)
    case _ => Err(s + " is not a valid SwapMode")
  }

  /** Parsing succeeds exactly on the two variant names, and gives back the variant named. */
  lemma SwapModeFromStrSpec(s: string)
    ensures SwapModeFromStr(s).Ok? <==> s == "ExactIn" || s == "ExactOut"
    ensures forall m :: SwapModeFromStr(s) == Ok(m) <==> s == SwapModeName(m)
  {
  }

  /** Names that differ from a variant name only in case, or name nothing, are rejected. */
  lemma SwapModeRejectsOtherText()
    ensures SwapModeFromStr("exactin").Err?
    ensures SwapModeFromStr("EXACTOUT").Err?
    ensures SwapModeFromStr("Sideways") == Err("Sideways is not a valid SwapMode")
    ensures SwapModeFromStr("").Err?
  {
    assert "Sideways" + " is not a valid SwapMode" == "Sideways is not a valid SwapMode";
  }

  /** The derived encoder: a unit variant is its name. */
  function EncodeSwapMode(m: SwapMode): Json {
    JStr(SwapModeName(m))
  }

  /** The derived decoder: an externally tagged unit variant. */
  function DecodeSwapMode(j: Json): Decoded<SwapMode> {
    var tag :- ExternalTag(j);
    var m :- match tag.variant
      case "ExactIn" => Ok(ExactIn)
      case "ExactOut" => Ok(ExactOut)
      case _ => Err(UnknownVariant(tag.variant));
    if UnitPayload(tag.payload) then Ok(m) else Err(InvalidType)
  }

  /** On a JSON string the derived decoder accepts exactly what `FromStr` accepts. */
  lemma DecodeSwapModeAgreesWithFromStr(s: string)
    ensures DecodeSwapMode(JStr(s)).Ok? <==> SwapModeFromStr(s).Ok?
    ensures DecodeSwapMode(JStr(s)).Ok? ==> DecodeSwapMode(JStr(s)).value == SwapModeFromStr(s).value
    ensures DecodeSwapMode(JStr(s)).Err? ==> DecodeSwapMode(JStr(s)).error == UnknownVariant(s)
  {
  }

  lemma SwapModeRoundTrip(m: SwapMode)
    ensures DecodeSwapMode(EncodeSwapMode(m)) == Ok(m)
  {
  }

  // ---------------------------------------------------------------------
  // QuoteRequest and its projection
  // ---------------------------------------------------------------------

  /** A `usize` on the 64-bit targets the client is built for. */
  type usize = u64

  /** A comma-delimited list of DEX labels. */
  type Dexes = string

  datatype ComputeUnitScore = ComputeUnitScore(maxPenaltyBps: Option<Float>)

  /** What a client asks to be quoted. */
  datatype QuoteRequest = QuoteRequest(
    inputMint: Pubkey,
    outputMint: Pubkey,
    amount: u64,
    swapMode: Option<SwapMode>,
    slippageBps: u16,
    autoSlippage: Option<bool>,
    maxAutoSlippageBps: Option<u16>,
    computeAutoSlippage: bool,
    autoSlippageCollisionUsdValue: Option<u32>,
    minimizeSlippage: Option<bool>,
    platformFeeBps: Option<u8>,
    dexes: Option<Dexes>,
    excludedDexes: Option<Dexes>,
    onlyDirectRoutes: Option<bool>,
    asLegacyTransaction: Option<bool>,
    restrictIntermediateTokens: Option<bool>,
    maxAccounts: Option<usize>,
    quoteType: Option<string>,
    quoteArgs: Option<map<string, string>>,
    preferLiquidDexes: Option<bool>,
    computeUnitScore: Option<ComputeUnitScore>,
    routingConstraints: Option<string>,
    tokenCategoryBasedIntermediateTokens: Option<bool>)

  /** The request without the arguments that travel separately. */
  datatype InternalQuoteRequest = InternalQuoteRequest(
    inputMint: Pubkey,
    outputMint: Pubkey,
    amount: u64,
    swapMode: Option<SwapMode>,
    slippageBps: u16,
    autoSlippage: Option<bool>,
    maxAutoSlippageBps: Option<u16>,
    computeAutoSlippage: bool,
    autoSlippageCollisionUsdValue: Option<u32>,
    minimizeSlippage: Option<bool>,
    platformFeeBps: Option<u8>,
    dexes: Option<Dexes>,
    excludedDexes: Option<Dexes>,
    onlyDirectRoutes: Option<bool>,
    asLegacyTransaction: Option<bool>,
    restrictIntermediateTokens: Option<bool>,
    maxAccounts: Option<usize>,
    quoteType: Option<string>,
    preferLiquidDexes: Option<bool>)

  /** `QuoteRequest::default()`: default keys, zero numbers, `false`, and `None` throughout. */
  function DefaultQuoteRequest(): QuoteRequest {
    QuoteRequest(DefaultPubkey(), DefaultPubkey(), 0, None, 0, None, None, false, None, None,
                 None, None, None, None, None, None, None, None, None, None, None, None, None)
  }

  /** `InternalQuoteRequest::default()`. */
  function DefaultInternalQuoteRequest(): InternalQuoteRequest {
    InternalQuoteRequest(DefaultPubkey(), DefaultPubkey(), 0, None, 0, None, None, false, None, None,
                         None, None, None, None, None, None, None, None, None)
  }

  /** `From<QuoteRequest> for InternalQuoteRequest`: copy every field the internal request has. */
  function Project(q: QuoteRequest): InternalQuoteRequest {
    InternalQuoteRequest(
      inputMint := q.inputMint,
      outputMint := q.outputMint,
      amount := q.amount,
      swapMode := q.swapMode,
      slippageBps := q.slippageBps,
      autoSlippage := q.autoSlippage,
      maxAutoSlippageBps := q.maxAutoSlippageBps,
      computeAutoSlippage := q.computeAutoSlippage,
      autoSlippageCollisionUsdValue := q.autoSlippageCollisionUsdValue,
      minimizeSlippage := q.minimizeSlippage,
      platformFeeBps := q.platformFeeBps,
      dexes := q.dexes,
      excludedDexes := q.excludedDexes,
      onlyDirectRoutes := q.onlyDirectRoutes,
      asLegacyTransaction := q.asLegacyTransaction,
      restrictIntermediateTokens := q.restrictIntermediateTokens,
      maxAccounts := q.maxAccounts,
      quoteType := q.quoteType,
      preferLiquidDexes := q.preferLiquidDexes)
  }

  /** The four fields of a request that the internal request has no slot for. */
  datatype QuoteExtras = QuoteExtras(
    quoteArgs: Option<map<string, string>>,
    computeUnitScore: Option<ComputeUnitScore>,
    routingConstraints: Option<string>,
    tokenCategoryBasedIntermediateTokens: Option<bool>)

  function Dropped(q: QuoteRequest): QuoteExtras {
    QuoteExtras(
      quoteArgs := q.quoteArgs,
      computeUnitScore := q.computeUnitScore,
      routingConstraints := q.routingConstraints,
      tokenCategoryBasedIntermediateTokens := q.tokenCategoryBasedIntermediateTokens)
  }

  /** The request made of an internal request and the four extra fields. */
  function Embed(i: InternalQuoteRequest, e: QuoteExtras): QuoteRequest {
    QuoteRequest(
      inputMint := i.inputMint,
      outputMint := i.outputMint,
      amount := i.amount,
      swapMode := i.swapMode,
      slippageBps := i.slippageBps,
      autoSlippage := i.autoSlippage,
      maxAutoSlippageBps := i.maxAutoSlippageBps,
      computeAutoSlippage := i.computeAutoSlippage,
      autoSlippageCollisionUsdValue := i.autoSlippageCollisionUsdValue,
      minimizeSlippage := i.minimizeSlippage,
      platformFeeBps := i.platformFeeBps,
      dexes := i.dexes,
      excludedDexes := i.excludedDexes,
      onlyDirectRoutes := i.onlyDirectRoutes,
      asLegacyTransaction := i.asLegacyTransaction,
      restrictIntermediateTokens := i.restrictIntermediateTokens,
      maxAccounts := i.maxAccounts,
      quoteType := i.quoteType,
      quoteArgs := e.quoteArgs,
      preferLiquidDexes := i.preferLiquidDexes,
      computeUnitScore := e.computeUnitScore,
      routingConstraints := e.routingConstraints,
      tokenCategoryBasedIntermediateTokens := e.tokenCategoryBasedIntermediateTokens)
  }

  /** Nothing but the four extra fields is lost: the projection and the extras rebuild the request. */
  lemma ProjectionLosesOnlyExtras(q: QuoteRequest)
    ensures Embed(Project(q), Dropped(q)) == q
  {
  }

  /** Every internal request is the projection of a request, whatever the extras were. */
  lemma ProjectionIsOnto(i: InternalQuoteRequest, e: QuoteExtras)
    ensures Project(Embed(i, e)) == i
    ensures Dropped(Embed(i, e)) == e
  {
  }

  /** Two requests that differ at most in the four dropped fields. */
  predicate SameExceptExtras(q1: QuoteRequest, q2: QuoteRequest) {
    q1.(quoteArgs := q2.quoteArgs,
        computeUnitScore := q2.computeUnitScore,
        routingConstraints := q2.routingConstraints,
        tokenCategoryBasedIntermediateTokens := q2.tokenCategoryBasedIntermediateTokens) == q2
  }

  /** The projection identifies two requests exactly when they differ only in the dropped fields. */
  lemma ProjectionForgetsExactlyExtras(q1: QuoteRequest, q2: QuoteRequest)
    ensures Project(q1) == Project(q2) <==> SameExceptExtras(q1, q2)
  {
    if Project(q1) == Project(q2) {
      ProjectionLosesOnlyExtras(q1);
      ProjectionLosesOnlyExtras(q2);
    }
  }

  /** The default request projects to the default internal request. */
  lemma ProjectDefault()
    ensures Project(DefaultQuoteRequest()) == DefaultInternalQuoteRequest()
  {
  }

  /** A request for one million base units at 50 basis points keeps every shared field, `swapMode` still unset. */
  lemma ProjectExample(q: QuoteRequest)
    requires q == DefaultQuoteRequest().(amount := 1_000_000, slippageBps := 50,
                                         quoteArgs := Some(map["k" := "v"]),
                                         computeUnitScore := Some(ComputeUnitScore(None)))
    ensures Project(q) == DefaultInternalQuoteRequest().(amount := 1_000_000, slippageBps := 50)
    ensures Project(q).swapMode == None
  {
  }

  // ---------------------------------------------------------------------
  // PlatformFee
  // ---------------------------------------------------------------------

  datatype PlatformFee = PlatformFee(amount: u64, feeBps: u8)

  const PlatformFeeFields: seq<string> := ["amount", "feeBps"]

  function EncodePlatformFee(f: PlatformFee, c: Codecs): Json {
    JObj([("amount", c.encodeAmount(f.amount)), ("feeBps", JNum(f.feeBps))])
  }

  /** Both fields are required; `amount` goes through the string codec. */
  function DecodePlatformFee(j: Json, c: Codecs): Decoded<PlatformFee> {
    var fields :- StructFields(j, PlatformFeeFields, 2);
    var amount :- Required(fields, "amount", c.decodeAmount);
    var feeBps :- Required(fields, "feeBps", DecodeU8);
    Ok(PlatformFee(amount, feeBps))
  }

  /** A platform fee decodes back from its encoding whenever the amount codec round-trips. */
  lemma PlatformFeeRoundTrip(f: PlatformFee, c: Codecs)
    requires AmountRoundTrips(c)
    ensures DecodePlatformFee(EncodePlatformFee(f, c), c) == Ok(f)
  {
    var ms := [("amount", c.encodeAmount(f.amount)), ("feeBps", JNum(f.feeBps))];
    var names := FieldSet(PlatformFeeFields);
    assert PlatformFeeFields[0] == "amount" && PlatformFeeFields[1] == "feeBps";
    assert NoRepeatedField(ms, names);
    FieldMapSpec(ms, names);
    assert ms[0].0 == "amount" && ms[1].0 == "feeBps";
  }

  function EncodeOptionalPlatformFee(o: Option<PlatformFee>, c: Codecs): Json {
    match o
    case None => JNull
    case Some(f) => EncodePlatformFee(f, c)
  }

  function DecodeOptionalPlatformFee(j: Json, c: Codecs): Decoded<Option<PlatformFee>> {
    if j == JNull then Ok(None)
    else var f :- DecodePlatformFee(j, c); Ok(Some(f))
  }

  // ---------------------------------------------------------------------
  // QuoteResponse
  // ---------------------------------------------------------------------

  /** What the server answers to a quote request. */
  datatype QuoteResponse = QuoteResponse(
    inputMint: Pubkey,
    inAmount: u64,
    outputMint: Pubkey,
    outAmount: u64,
    otherAmountThreshold: u64,
    swapMode: SwapMode,
    slippageBps: u16,
    computedAutoSlippage: Option<u16>,
    usesQuoteMinimizingSlippage: Option<bool>,
    platformFee: Option<PlatformFee>,
    priceImpactPct: Decimal,
    routePlan: RoutePlan,
    contextSlot: u64,
    timeTaken: Float)

  /** The wire names of the fields, in declaration order. */
  const QuoteResponseFields: seq<string> := [
    "inputMint", "inAmount", "outputMint", "outAmount", "otherAmountThreshold", "swapMode",
    "slippageBps", "computedAutoSlippage", "usesQuoteMinimizingSlippage", "platformFee",
    "priceImpactPct", "routePlan", "contextSlot", "timeTaken"]

  /** The fields written before, and after, the two that are skipped when `None`. */
  const LeadingFields: seq<string> := [
    "inputMint", "inAmount", "outputMint", "outAmount", "otherAmountThreshold", "swapMode", "slippageBps"]
  const TrailingFields: seq<string> := ["platformFee", "priceImpactPct", "routePlan", "contextSlot", "timeTaken"]

  /** Only `contextSlot` and `timeTaken` have defaults, so the positional form needs the first twelve. */
  const QuoteResponseRequired: nat := 12

  /** `0.0`: every bit of the double is zero. */
  const ZeroFloat: Float := Float(0)

  /** The members the derived encoder writes, in declaration order; two `None`s are skipped. */
  function QuoteResponseMembers(r: QuoteResponse, c: Codecs): seq<(string, Json)> {
    LeadingMembers(r, c) + SkippableMembers(r) + TrailingMembers(r, c)
  }

  function LeadingMembers(r: QuoteResponse, c: Codecs): seq<(string, Json)> {
    [("inputMint", c.encodePubkey(r.inputMint)),
     ("inAmount", c.encodeAmount(r.inAmount)),
     ("outputMint", c.encodePubkey(r.outputMint)),
     ("outAmount", c.encodeAmount(r.outAmount)),
     ("otherAmountThreshold", c.encodeAmount(r.otherAmountThreshold)),
     ("swapMode", EncodeSwapMode(r.swapMode)),
     ("slippageBps", JNum(r.slippageBps))]
  }

  /** `skip_serializing_if = "Option::is_none"` on the two fields that carry it. */
  function SkippableMembers(r: QuoteResponse): seq<(string, Json)> {
    (match r.computedAutoSlippage
     case None => []
     case Some(n) => [("computedAutoSlippage", JNum(n))])
    + (match r.usesQuoteMinimizingSlippage
       case None => []
       case Some(b) => [("usesQuoteMinimizingSlippage", JBool(b))])
  }

  function TrailingMembers(r: QuoteResponse, c: Codecs): seq<(string, Json)> {
    [("platformFee", EncodeOptionalPlatformFee(r.platformFee, c)),
     ("priceImpactPct", c.encodeDecimal(r.priceImpactPct)),
     ("routePlan", c.encodeRoutePlan(r.routePlan)),
     ("contextSlot", JNum(r.contextSlot)),
     ("timeTaken", c.encodeFloat(r.timeTaken))]
  }

  function EncodeQuoteResponse(r: QuoteResponse, c: Codecs): Json {
    JObj(QuoteResponseMembers(r, c))
  }

  /**
   * The derived decoder: the three `Option` fields read as `None` when absent,
   * `contextSlot` and `timeTaken` take their defaults, the rest are required.
   */
  function DecodeQuoteResponse(j: Json, c: Codecs): Decoded<QuoteResponse> {
    var fields :- StructFields(j, QuoteResponseFields, QuoteResponseRequired);
    ResponseFromFields(fields, c)
  }

  function ResponseFromFields(fields: map<string, Json>, c: Codecs): Decoded<QuoteResponse> {
    var inputMint :- Required(fields, "inputMint", c.decodePubkey);
    var inAmount :- Required(fields, "inAmount", c.decodeAmount);
    var outputMint :- Required(fields, "outputMint", c.decodePubkey);
    var outAmount :- Required(fields, "outAmount", c.decodeAmount);
    var otherAmountThreshold :- Required(fields, "otherAmountThreshold", c.decodeAmount);
    var swapMode :- Required(fields, "swapMode", DecodeSwapMode);
    var slippageBps :- Required(fields, "slippageBps", DecodeU16);
    var computedAutoSlippage :- Defaulted(fields, "computedAutoSlippage", DecodeOptionalU16, None);
    var usesQuoteMinimizingSlippage :- Defaulted(fields, "usesQuoteMinimizingSlippage", DecodeOptionalBool, None);
    var platformFee :- Defaulted(fields, "platformFee", j => DecodeOptionalPlatformFee(j, c), None);
    var priceImpactPct :- Required(fields, "priceImpactPct", c.decodeDecimal);
    var routePlan :- Required(fields, "routePlan", c.decodeRoutePlan);
    var contextSlot :- Defaulted(fields, "contextSlot", DecodeU64, 0);
    var timeTaken :- Defaulted(fields, "timeTaken", c.decodeFloat, ZeroFloat);
    Ok(QuoteResponse(inputMint, inAmount, outputMint, outAmount, otherAmountThreshold, swapMode,
                     slippageBps, computedAutoSlippage, usesQuoteMinimizingSlippage, platformFee,
                     priceImpactPct, routePlan, contextSlot, timeTaken))
  }

  function SkippableKeys(r: QuoteResponse): seq<string> {
    (if r.computedAutoSlippage.Some? then ["computedAutoSlippage"] else [])
    + (if r.usesQuoteMinimizingSlippage.Some? then ["usesQuoteMinimizingSlippage"] else [])
  }

  lemma MemberKeys(r: QuoteResponse, c: Codecs)
    ensures Keys(QuoteResponseMembers(r, c)) == LeadingFields + SkippableKeys(r) + TrailingFields
  {
    var lead, skip, trail := LeadingMembers(r, c), SkippableMembers(r), TrailingMembers(r, c);
    KeysAppend(lead, skip);
    KeysAppend(lead + skip, trail);
    assert Keys(lead) == LeadingFields;
    assert Keys(trail) == TrailingFields;
    assert Keys(skip) == SkippableKeys(r);
  }

  /**
   * The encoder writes `computedAutoSlippage` and `usesQuoteMinimizingSlippage`
   * exactly when they hold a value, every other field always, and no other key.
   */
  lemma QuoteResponseKeys(r: QuoteResponse, c: Codecs)
    ensures "computedAutoSlippage" in Keys(QuoteResponseMembers(r, c)) <==> r.computedAutoSlippage.Some?
    ensures "usesQuoteMinimizingSlippage" in Keys(QuoteResponseMembers(r, c)) <==> r.usesQuoteMinimizingSlippage.Some?
    ensures forall k :: k in QuoteResponseFields && k != "computedAutoSlippage" && k != "usesQuoteMinimizingSlippage"
                        ==> k in Keys(QuoteResponseMembers(r, c))
    ensures forall k :: k in Keys(QuoteResponseMembers(r, c)) ==> k in QuoteResponseFields
  {
    MemberKeys(r, c);
    var ks := Keys(QuoteResponseMembers(r, c));
    assert QuoteResponseFields == LeadingFields + ["computedAutoSlippage", "usesQuoteMinimizingSlippage"] + TrailingFields;
    assert "computedAutoSlippage" !in LeadingFields + TrailingFields;
    assert "usesQuoteMinimizingSlippage" !in LeadingFields + TrailingFields;
  }

  /** With or without the two skippable fields, the field names are pairwise distinct. */
  lemma FieldListsDistinct()
    ensures DistinctKeys(LeadingFields + ["computedAutoSlippage", "usesQuoteMinimizingSlippage"] + TrailingFields)
    ensures DistinctKeys(LeadingFields + ["computedAutoSlippage"] + TrailingFields)
    ensures DistinctKeys(LeadingFields + ["usesQuoteMinimizingSlippage"] + TrailingFields)
    ensures DistinctKeys(LeadingFields + TrailingFields)
  {
  }

  /** The encoder never writes a key twice. */
  lemma EncodedKeysDistinct(r: QuoteResponse, c: Codecs)
    ensures DistinctKeys(Keys(QuoteResponseMembers(r, c)))
  {
    MemberKeys(r, c);
    SkippableKeysDistinct(r);
  }

  lemma SkippableKeysDistinct(r: QuoteResponse)
    ensures DistinctKeys(LeadingFields + SkippableKeys(r) + TrailingFields)
  {
    FieldListsDistinct();
    var a, b := "computedAutoSlippage", "usesQuoteMinimizingSlippage";
    match (r.computedAutoSlippage.Some?, r.usesQuoteMinimizingSlippage.Some?)
    case (true, true) => assert SkippableKeys(r) == [a, b];
    case (true, false) => assert SkippableKeys(r) == [a];
    case (false, true) => assert SkippableKeys(r) == [b];
    case (false, false) => assert SkippableKeys(r) == [];
  }

  /** The field map the decoder reads from an encoded response. */
  function EncodedFields(r: QuoteResponse, c: Codecs): Decoded<map<string, Json>> {
    StructFields(EncodeQuoteResponse(r, c), QuoteResponseFields, QuoteResponseRequired)
  }

  /** Decoding reads every member the encoder wrote, under its own key, and nothing else. */
  lemma EncodedFieldMap(r: QuoteResponse, c: Codecs)
    ensures EncodedFields(r, c).Ok?
    ensures forall k :: k in EncodedFields(r, c).value <==> k in Keys(QuoteResponseMembers(r, c))
    ensures forall i :: 0 <= i < |QuoteResponseMembers(r, c)| ==>
              EncodedFields(r, c).value[QuoteResponseMembers(r, c)[i].0] == QuoteResponseMembers(r, c)[i].1
  {
    var ms := QuoteResponseMembers(r, c);
    var names := FieldSet(QuoteResponseFields);
    EncodedKeysDistinct(r, c);
    DistinctKeysNoRepeat(ms, names);
    FieldMapSpec(ms, names);
    QuoteResponseKeys(r, c);
  }

  lemma LeadingFieldValues(r: QuoteResponse, c: Codecs)
    ensures EncodedFields(r, c).Ok?
    ensures var f := EncodedFields(r, c).value;
            && "inputMint" in f && f["inputMint"] == c.encodePubkey(r.inputMint)
            && "inAmount" in f && f["inAmount"] == c.encodeAmount(r.inAmount)
            && "outputMint" in f && f["outputMint"] == c.encodePubkey(r.outputMint)
            && "outAmount" in f && f["outAmount"] == c.encodeAmount(r.outAmount)
            && "otherAmountThreshold" in f && f["otherAmountThreshold"] == c.encodeAmount(r.otherAmountThreshold)
            && "swapMode" in f && f["swapMode"] == EncodeSwapMode(r.swapMode)
            && "slippageBps" in f && f["slippageBps"] == JNum(r.slippageBps)
  {
    EncodedFieldMap(r, c);
    var ms, lead := QuoteResponseMembers(r, c), LeadingMembers(r, c);
    assert ms[0] == lead[0] && ms[1] == lead[1] && ms[2] == lead[2] && ms[3] == lead[3];
    assert ms[4] == lead[4] && ms[5] == lead[5] && ms[6] == lead[6];
  }

  lemma ComputedAutoSlippageValue(r: QuoteResponse, c: Codecs)
    ensures EncodedFields(r, c).Ok?
    ensures "computedAutoSlippage" in EncodedFields(r, c).value <==> r.computedAutoSlippage.Some?
    ensures r.computedAutoSlippage.Some? ==>
              EncodedFields(r, c).value["computedAutoSlippage"] == JNum(r.computedAutoSlippage.value)
  {
    EncodedFieldMap(r, c);
    QuoteResponseKeys(r, c);
    var ms := QuoteResponseMembers(r, c);
    if r.computedAutoSlippage.Some? {
      assert ms[7] == SkippableMembers(r)[0] == ("computedAutoSlippage", JNum(r.computedAutoSlippage.value));
    }
  }

  lemma UsesQuoteMinimizingSlippageValue(r: QuoteResponse, c: Codecs)
    ensures EncodedFields(r, c).Ok?
    ensures "usesQuoteMinimizingSlippage" in EncodedFields(r, c).value <==> r.usesQuoteMinimizingSlippage.Some?
    ensures r.usesQuoteMinimizingSlippage.Some? ==>
              EncodedFields(r, c).value["usesQuoteMinimizingSlippage"] == JBool(r.usesQuoteMinimizingSlippage.value)
  {
    EncodedFieldMap(r, c);
    QuoteResponseKeys(r, c);
    var ms, skip := QuoteResponseMembers(r, c), SkippableMembers(r);
    if r.usesQuoteMinimizingSlippage.Some? {
      var i := |skip| - 1;
      assert ms[7 + i] == skip[i] == ("usesQuoteMinimizingSlippage", JBool(r.usesQuoteMinimizingSlippage.value));
    }
  }

  lemma TrailingFieldValues(r: QuoteResponse, c: Codecs)
    ensures EncodedFields(r, c).Ok?
    ensures var f := EncodedFields(r, c).value;
            && "platformFee" in f && f["platformFee"] == EncodeOptionalPlatformFee(r.platformFee, c)
            && "priceImpactPct" in f && f["priceImpactPct"] == c.encodeDecimal(r.priceImpactPct)
            && "routePlan" in f && f["routePlan"] == c.encodeRoutePlan(r.routePlan)
            && "contextSlot" in f && f["contextSlot"] == JNum(r.contextSlot)
            && "timeTaken" in f && f["timeTaken"] == c.encodeFloat(r.timeTaken)
  {
    EncodedFieldMap(r, c);
    var ms, trail := QuoteResponseMembers(r, c), TrailingMembers(r, c);
    var t := 7 + |SkippableMembers(r)|;
    assert forall i :: 0 <= i < 5 ==> ms[t + i] == trail[i];
    assert ms[t].0 == "platformFee" && ms[t + 1].0 == "priceImpactPct" && ms[t + 2].0 == "routePlan";
    assert ms[t + 3].0 == "contextSlot" && ms[t + 4].0 == "timeTaken";
  }

  /** The decoder builds the response from the values its fields decode to. */
  lemma ResponseFromDecodedFields(fields: map<string, Json>, c: Codecs, r: QuoteResponse)
    requires Required(fields, "inputMint", c.decodePubkey) == Ok(r.inputMint)
    requires Required(fields, "inAmount", c.decodeAmount) == Ok(r.inAmount)
    requires Required(fields, "outputMint", c.decodePubkey) == Ok(r.outputMint)
    requires Required(fields, "outAmount", c.decodeAmount) == Ok(r.outAmount)
    requires Required(fields, "otherAmountThreshold", c.decodeAmount) == Ok(r.otherAmountThreshold)
    requires Required(fields, "swapMode", DecodeSwapMode) == Ok(r.swapMode)
    requires Required(fields, "slippageBps", DecodeU16) == Ok(r.slippageBps)
    requires Defaulted(fields, "computedAutoSlippage", DecodeOptionalU16, None) == Ok(r.computedAutoSlippage)
    requires Defaulted(fields, "usesQuoteMinimizingSlippage", DecodeOptionalBool, None) == Ok(r.usesQuoteMinimizingSlippage)
    requires "platformFee" in fields ==> DecodeOptionalPlatformFee(fields["platformFee"], c) == Ok(r.platformFee)
    requires "platformFee" !in fields ==> r.platformFee == None
    requires Required(fields, "priceImpactPct", c.decodeDecimal) == Ok(r.priceImpactPct)
    requires Required(fields, "routePlan", c.decodeRoutePlan) == Ok(r.routePlan)
    requires Defaulted(fields, "contextSlot", DecodeU64, 0) == Ok(r.contextSlot)
    requires Defaulted(fields, "timeTaken", c.decodeFloat, ZeroFloat) == Ok(r.timeTaken)
    ensures ResponseFromFields(fields, c) == Ok(r)
  {
  }

  /**
   * Under codecs that round-trip, every response with a finite `timeTaken`
   * decodes back from its encoding.
   */
  lemma QuoteResponseRoundTrip(r: QuoteResponse, c: Codecs)
    requires RoundTrips(c)
    requires Finite(r.timeTaken)
    ensures DecodeQuoteResponse(EncodeQuoteResponse(r, c), c) == Ok(r)
  {
    LeadingFieldValues(r, c);
    ComputedAutoSlippageValue(r, c);
    UsesQuoteMinimizingSlippageValue(r, c);
    TrailingFieldValues(r, c);
    SwapModeRoundTrip(r.swapMode);
    if r.platformFee.Some? {
      PlatformFeeRoundTrip(r.platformFee.value, c);
    }
    ResponseFromDecodedFields(EncodedFields(r, c).value, c, r);
  }

  /**
   * Decoding an object: an absent `contextSlot` is `0`, an absent `timeTaken`
   * is `0.0`, and an absent `Option` field is `None`.
   */
  lemma AbsentFieldsTakeDefaults(ms: seq<(string, Json)>, c: Codecs)
    requires DecodeQuoteResponse(JObj(ms), c).Ok?
    ensures var r := DecodeQuoteResponse(JObj(ms), c).value;
            && ("contextSlot" !in Keys(ms) ==> r.contextSlot == 0)
            && ("timeTaken" !in Keys(ms) ==> r.timeTaken == ZeroFloat)
            && ("computedAutoSlippage" !in Keys(ms) ==> r.computedAutoSlippage == None)
            && ("usesQuoteMinimizingSlippage" !in Keys(ms) ==> r.usesQuoteMinimizingSlippage == None)
            && ("platformFee" !in Keys(ms) ==> r.platformFee == None)
  {
    var names := FieldSet(QuoteResponseFields);
    FieldMapSpec(ms, names);
    ResponseFromFieldsSpec(FieldMap(ms, names).value, c);
  }

  /** Decoding an object succeeds only when every field without a default is present. */
  lemma RequiredFieldsPresent(ms: seq<(string, Json)>, c: Codecs)
    requires DecodeQuoteResponse(JObj(ms), c).Ok?
    ensures forall k :: k in LeadingFields ==> k in Keys(ms)
    ensures "priceImpactPct" in Keys(ms) && "routePlan" in Keys(ms)
  {
    var names := FieldSet(QuoteResponseFields);
    FieldMapSpec(ms, names);
    ResponseFromFieldsSpec(FieldMap(ms, names).value, c);
  }

  /** What a successful read from a field map implies about the fields that were absent. */
  lemma ResponseFromFieldsSpec(fields: map<string, Json>, c: Codecs)
    requires ResponseFromFields(fields, c).Ok?
    ensures var r := ResponseFromFields(fields, c).value;
            && ("contextSlot" !in fields ==> r.contextSlot == 0)
            && ("timeTaken" !in fields ==> r.timeTaken == ZeroFloat)
            && ("computedAutoSlippage" !in fields ==> r.computedAutoSlippage == None)
            && ("usesQuoteMinimizingSlippage" !in fields ==> r.usesQuoteMinimizingSlippage == None)
            && ("platformFee" !in fields ==> r.platformFee == None)
    ensures forall k :: k in LeadingFields ==> k in fields
    ensures "priceImpactPct" in fields && "routePlan" in fields
  {
  }

  /** The positional form needs the twelve fields without a default, and takes at most all fourteen. */
  lemma PositionalResponseLength(items: seq<Json>, c: Codecs)
    requires |items| < 12 || 14 < |items|
    ensures DecodeQuoteResponse(JArr(items), c) == Err(InvalidLength)
  {
  }
}
