/**
 * The transaction-building configuration of the swap API: the two
 * priority-fee unions with their wire codecs, `PriorityLevel`, and
 * `TransactionConfig` with its default and its default-filling decoder.
 */
module TransactionConfig {
  import opened Serde
  import opened Foreign

  // ---------------------------------------------------------------------
  // ComputeUnitPriceMicroLamports: an untagged union
  // ---------------------------------------------------------------------

  datatype ComputeUnitPriceMicroLamports = MicroLamports(microLamports: u64) | Auto

  /**
   * The `auto` and `disabled` helpers: an externally tagged enum whose only
   * (unit) variant is named `word`, so exactly `"word"` or `{"word": null}`.
   */
  predicate IsSentinel(j: Json, word: string) {
    var tag := ExternalTag(j);
    tag.Ok? && tag.value.variant == word && UnitPayload(tag.value.payload)
  }

  /** Untagged decoding: a bare `u64` first, then the `auto` sentinel. */
  function DecodeComputeUnitPrice(j: Json): Decoded<ComputeUnitPriceMicroLamports> {
    var n := DecodeU64(j);
    if n.Ok? then Ok(MicroLamports(n.value))
    else if IsSentinel(j, "auto") then Ok(ComputeUnitPriceMicroLamports.Auto)
    else Err(NoVariantMatched)
  }

  /**
   * The derived untagged encoder, as written: the newtype variant is its
   * number and the unit variant `Auto` is `null`.
   */
  function EncodeComputeUnitPrice(p: ComputeUnitPriceMicroLamports): Json {
    match p
    case MicroLamports(n) => JNum(n)
    case Auto => JNull
  }

  /**
   * The encoding the decoder expects: `Auto` is `"auto"`, the only text the
   * `auto` helper accepts, and the text the prioritization fee's own `Auto`
   * is written as.
   */
  function EncodeComputeUnitPriceIntended(p: ComputeUnitPriceMicroLamports): Json {
    match p
    case MicroLamports(n) => JNum(n)
    case Auto => JStr("auto")
  }

  /** Decoding accepts a `u64` number, `"auto"` and `{"auto": null}`, and nothing else. */
  lemma ComputeUnitPriceDecodeCases(j: Json)
    ensures DecodeComputeUnitPrice(j) == Ok(ComputeUnitPriceMicroLamports.Auto)
            <==> j == JStr("auto") || j == JObj([("auto", JNull)])
    ensures forall n: u64 :: DecodeComputeUnitPrice(j) == Ok(MicroLamports(n)) <==> j == JNum(n)
    ensures DecodeComputeUnitPrice(j).Err? <==>
            !(j.JNum? && 0 <= j.n <= U64_MAX) && j != JStr("auto") && j != JObj([("auto", JNull)])
  {
    if j.JObj? && |j.members| == 1 && j.members[0] == ("auto", JNull) {
      assert j.members == [("auto", JNull)];
    }
  }

  /** `MicroLamports(n)` encodes to the bare number `n` and decodes back. */
  lemma MicroLamportsRoundTrip(n: u64)
    ensures EncodeComputeUnitPrice(MicroLamports(n)) == JNum(n)
    ensures DecodeComputeUnitPrice(EncodeComputeUnitPrice(MicroLamports(n))) == Ok(MicroLamports(n))
  {
  }

  /** As written, `Auto` encodes to `null`, which the decoder rejects. */
  lemma AutoComputeUnitPriceDoesNotRoundTrip()
    ensures EncodeComputeUnitPrice(ComputeUnitPriceMicroLamports.Auto) == JNull
    ensures DecodeComputeUnitPrice(EncodeComputeUnitPrice(ComputeUnitPriceMicroLamports.Auto)).Err?
  {
  }

  /**
   * What a caller sees: inside a configuration the field is an `Option`, so
   * `Some(Auto)`, written as `null`, reads back as `None`, and the whole
   * configuration decodes with the price silently unset.
   */
  lemma AutoInConfigReadsAsNone(c: Codecs)
    ensures DecodeOptionalComputeUnitPrice(EncodeComputeUnitPrice(ComputeUnitPriceMicroLamports.Auto)) == Ok(None)
    ensures DecodeTransactionConfig(
              JObj([("computeUnitPriceMicroLamports", EncodeComputeUnitPrice(ComputeUnitPriceMicroLamports.Auto))]), c)
            == Ok(DefaultTransactionConfig())
  {
    var ms := [("computeUnitPriceMicroLamports", JNull)];
    DecodeFillsFromDefault(ms, c);
  }

  /** With `Auto` written as `"auto"`, every value round-trips. */
  lemma IntendedComputeUnitPriceRoundTrip(p: ComputeUnitPriceMicroLamports)
    ensures DecodeComputeUnitPrice(EncodeComputeUnitPriceIntended(p)) == Ok(p)
  {
  }

  // ---------------------------------------------------------------------
  // PriorityLevel: a unit-only enum with camelCase names
  // ---------------------------------------------------------------------

  datatype PriorityLevel = Medium | High | VeryHigh

  function PriorityLevelName(level: PriorityLevel): string {
    match level
    case Medium => "medium"
    case High => "high"
    case VeryHigh => "veryHigh"
  }

  function EncodePriorityLevel(level: PriorityLevel): Json {
    JStr(PriorityLevelName(level))
  }

  function DecodePriorityLevel(j: Json): Decoded<PriorityLevel> {
    var tag :- ExternalTag(j);
    var level :-
      match tag.variant
      case "medium" => Ok(Medium)
      case "high" => Ok(High)
      case "veryHigh" => Ok(VeryHigh)
      case _ => Err(UnknownVariant(tag.variant));
    if UnitPayload(tag.payload) then Ok(level) else Err(InvalidType)
  }

  /** A string decodes as a level exactly when it is that level's name. */
  lemma PriorityLevelNames(s: string, level: PriorityLevel)
    ensures DecodePriorityLevel(JStr(s)) == Ok(level) <==> s == PriorityLevelName(level)
    ensures DecodePriorityLevel(JStr(s)).Err? <==> s !in {"medium", "high", "veryHigh"}
  {
  }

  lemma PriorityLevelRoundTrip(level: PriorityLevel)
    ensures DecodePriorityLevel(EncodePriorityLevel(level)) == Ok(level)
  {
  }

  // ---------------------------------------------------------------------
  // PrioritizationFeeLamports
  // ---------------------------------------------------------------------

  datatype PrioritizationFeeLamports =
    | AutoMultiplier(multiplier: u32)
    | JitoTipLamports(tipLamports: u64)
    | PriorityLevelWithMaxLamports(priorityLevel: PriorityLevel, maxLamports: u64, global: bool)
    | Auto
    | Lamports(lamports: u64)
    | Disabled

  /** `#[default]`: the variant that the sentinel `"auto"` decodes to. */
  function DefaultPrioritizationFee(): (fee: PrioritizationFeeLamports)
    ensures DecodePrioritizationFee(JStr("auto")) == Ok(fee)
  {
    PrioritizationFeeLamports.Auto
  }

  const PriorityLevelWithMaxLamportsFields: seq<string> := ["priorityLevel", "maxLamports", "global"]

  /** The struct payload of `priorityLevelWithMaxLamports`; `global` defaults to `false`. */
  function DecodePriorityLevelWithMaxLamports(j: Json): Decoded<PrioritizationFeeLamports> {
    var fields :- StructFields(j, PriorityLevelWithMaxLamportsFields, 2);
    var level :- Required(fields, "priorityLevel", DecodePriorityLevel);
    var maxLamports :- Required(fields, "maxLamports", DecodeU64);
    var global :- Defaulted(fields, "global", DecodeBool, false);
    Ok(PriorityLevelWithMaxLamports(level, maxLamports, global))
  }

  /** The externally tagged part: the three variants written as a one-member object. */
  function DecodeTaggedFee(j: Json): Decoded<PrioritizationFeeLamports> {
    var tag :- ExternalTag(j);
    match tag.variant
    case "autoMultiplier" =>
      var v :- VariantPayload(tag.payload);
      var m :- DecodeU32(v);
      Ok(AutoMultiplier(m))
    case "jitoTipLamports" =>
      var v :- VariantPayload(tag.payload);
      var l :- DecodeU64(v);
      Ok(JitoTipLamports(l))
    case "priorityLevelWithMaxLamports" =>
      var v :- VariantPayload(tag.payload);
      DecodePriorityLevelWithMaxLamports(v)
    case _ => Err(UnknownVariant(tag.variant))
  }

  /**
   * The derived decoder: the tagged variants first, then the untagged ones in
   * declaration order (`"auto"`, a bare `u64`, `"disabled"`); the first that
   * matches wins.
   */
  function DecodePrioritizationFee(j: Json): Decoded<PrioritizationFeeLamports> {
    var tagged := DecodeTaggedFee(j);
    if tagged.Ok? then tagged
    else if IsSentinel(j, "auto") then Ok(PrioritizationFeeLamports.Auto)
    else if DecodeU64(j).Ok? then Ok(Lamports(DecodeU64(j).value))
    else if IsSentinel(j, "disabled") then Ok(Disabled)
    else Err(NoVariantMatched)
  }

  /** The hand-written encoder: one canonical shape per variant. */
  function EncodePrioritizationFee(fee: PrioritizationFeeLamports): Json {
    match fee
    case AutoMultiplier(m) => JObj([("autoMultiplier", JNum(m))])
    case JitoTipLamports(l) => JObj([("jitoTipLamports", JNum(l))])
    case Auto => JStr("auto")
    case Lamports(l) => JNum(l)
    case Disabled => JStr("disabled")
    case PriorityLevelWithMaxLamports(level, maxLamports, global) =>
      JObj([("priorityLevelWithMaxLamports", JObj([
        ("priorityLevel", EncodePriorityLevel(level)),
        ("maxLamports", JNum(maxLamports)),
        ("global", JBool(global))]))])
  }

  /** The struct payload that the encoder writes decodes to the same three fields. */
  lemma PriorityLevelWithMaxLamportsPayloadRoundTrip(level: PriorityLevel, maxLamports: u64, global: bool)
    ensures DecodePriorityLevelWithMaxLamports(JObj([
              ("priorityLevel", EncodePriorityLevel(level)),
              ("maxLamports", JNum(maxLamports)),
              ("global", JBool(global))])) == Ok(PriorityLevelWithMaxLamports(level, maxLamports, global))
  {
    var ms := [("priorityLevel", EncodePriorityLevel(level)),
               ("maxLamports", JNum(maxLamports)),
               ("global", JBool(global))];
    var names := FieldSet(PriorityLevelWithMaxLamportsFields);
    assert PriorityLevelWithMaxLamportsFields[0] == "priorityLevel";
    assert PriorityLevelWithMaxLamportsFields[1] == "maxLamports";
    assert PriorityLevelWithMaxLamportsFields[2] == "global";
    assert NoRepeatedField(ms, names);
    FieldMapSpec(ms, names);
    var fields := FieldMap(ms, names).value;
    assert fields["priorityLevel"] == EncodePriorityLevel(level) by { assert ms[0].0 == "priorityLevel"; }
    assert fields["maxLamports"] == JNum(maxLamports) by { assert ms[1].0 == "maxLamports"; }
    assert fields["global"] == JBool(global) by { assert ms[2].0 == "global"; }
    PriorityLevelRoundTrip(level);
  }

  /** Every variant decodes back from its encoding. */
  lemma PrioritizationFeeRoundTrip(fee: PrioritizationFeeLamports)
    ensures DecodePrioritizationFee(EncodePrioritizationFee(fee)) == Ok(fee)
  {
    if fee.PriorityLevelWithMaxLamports? {
      PriorityLevelWithMaxLamportsPayloadRoundTrip(fee.priorityLevel, fee.maxLamports, fee.global);
    }
  }

  /** The four probes of the derived decoder, in the order it tries them. */
  datatype FeeProbe = TaggedProbe | AutoProbe | NumberProbe | DisabledProbe

  function MatchingProbes(j: Json): set<FeeProbe> {
    (if DecodeTaggedFee(j).Ok? then {TaggedProbe} else {})
    + (if IsSentinel(j, "auto") then {AutoProbe} else {})
    + (if DecodeU64(j).Ok? then {NumberProbe} else {})
    + (if IsSentinel(j, "disabled") then {DisabledProbe} else {})
  }

  /** The probe that accepts a variant's canonical encoding. */
  function ProbeOf(fee: PrioritizationFeeLamports): FeeProbe {
    match fee
    case AutoMultiplier(_) => TaggedProbe
    case JitoTipLamports(_) => TaggedProbe
    case PriorityLevelWithMaxLamports(_, _, _) => TaggedProbe
    case Auto => AutoProbe
    case Lamports(_) => NumberProbe
    case Disabled => DisabledProbe
  }

  /**
   * No JSON value is accepted by two probes, so the probe order never decides
   * between two readings, and decoding fails exactly when no probe matches.
   */
  lemma FeeProbesDisjoint(j: Json)
    ensures forall p, q :: p in MatchingProbes(j) && q in MatchingProbes(j) ==> p == q
    ensures DecodePrioritizationFee(j).Ok? <==> MatchingProbes(j) != {}
  {
    if DecodeTaggedFee(j).Ok? {
      assert TaggedProbe in MatchingProbes(j);
    } else if IsSentinel(j, "auto") {
      assert AutoProbe in MatchingProbes(j);
    } else if DecodeU64(j).Ok? {
      assert NumberProbe in MatchingProbes(j);
    } else if IsSentinel(j, "disabled") {
      assert DisabledProbe in MatchingProbes(j);
    }
  }

  /** Each encoding is taken by the probe of its own variant and by no other. */
  lemma EncodingTakesItsOwnProbe(fee: PrioritizationFeeLamports)
    ensures MatchingProbes(EncodePrioritizationFee(fee)) == {ProbeOf(fee)}
  {
    var j := EncodePrioritizationFee(fee);
    PrioritizationFeeRoundTrip(fee);
    FeeProbesDisjoint(j);
    assert ProbeOf(fee) in MatchingProbes(j);
  }

  /** The encoding is injective: distinct fees never share a wire shape. */
  lemma PrioritizationFeeEncodingInjective(a: PrioritizationFeeLamports, b: PrioritizationFeeLamports)
    ensures EncodePrioritizationFee(a) == EncodePrioritizationFee(b) <==> a == b
  {
    PrioritizationFeeRoundTrip(a);
    PrioritizationFeeRoundTrip(b);
  }

  /** Of all strings only `"auto"` and `"disabled"` decode, and case matters. */
  lemma FeeFromString(s: string)
    ensures DecodePrioritizationFee(JStr(s)) ==
              if s == "auto" then Ok(PrioritizationFeeLamports.Auto)
              else if s == "disabled" then Ok(Disabled)
              else Err(NoVariantMatched)
  {
  }

  /** A bare number is `Lamports` when it fits in a `u64`, and an error otherwise. */
  lemma FeeFromNumber(n: int)
    ensures DecodePrioritizationFee(JNum(n)) ==
              if 0 <= n <= U64_MAX then Ok(Lamports(n)) else Err(NoVariantMatched)
  {
  }

  /** `autoMultiplier` takes a `u32`, `jitoTipLamports` a `u64`; anything wider fails. */
  lemma FeeTaggedNumbers(n: int)
    ensures DecodePrioritizationFee(JObj([("autoMultiplier", JNum(n))])) ==
              if 0 <= n <= U32_MAX then Ok(AutoMultiplier(n)) else Err(NoVariantMatched)
    ensures DecodePrioritizationFee(JObj([("jitoTipLamports", JNum(n))])) ==
              if 0 <= n <= U64_MAX then Ok(JitoTipLamports(n)) else Err(NoVariantMatched)
  {
  }

  /** Values of no accepted shape: `null`, booleans, arrays, objects without exactly one member. */
  lemma FeeRejectsOtherShapes(j: Json)
    requires j.JNull? || j.JBool? || j.JArr? || (j.JObj? && |j.members| != 1)
    ensures DecodePrioritizationFee(j) == Err(NoVariantMatched)
  {
  }

  /** A one-member object whose key names no variant fails, whatever its value. */
  lemma FeeRejectsUnknownTags(k: string, v: Json)
    requires k !in {"autoMultiplier", "jitoTipLamports", "priorityLevelWithMaxLamports", "auto", "disabled"}
    ensures DecodePrioritizationFee(JObj([(k, v)])) == Err(NoVariantMatched)
  {
  }

  /** The payload of `priorityLevelWithMaxLamports` in object form, read member by member. */
  function PayloadFromMembers(ms: seq<(string, Json)>): Decoded<PrioritizationFeeLamports> {
    var level := RequiredMember(ms, "priorityLevel", DecodePriorityLevel);
    var maxLamports := RequiredMember(ms, "maxLamports", DecodeU64);
    var global := DefaultedMember(ms, "global", DecodeBool, false);
    if NoRepeatedField(ms, FieldSet(PriorityLevelWithMaxLamportsFields))
       && level.Ok? && maxLamports.Ok? && global.Ok?
    then Ok(PriorityLevelWithMaxLamports(level.value, maxLamports.value, global.value))
    else Err(NoVariantMatched)
  }

  lemma {:induction false} PayloadMembers(ms: seq<(string, Json)>)
    ensures DecodePriorityLevelWithMaxLamports(JObj(ms)).Ok? <==> PayloadFromMembers(ms).Ok?
    ensures PayloadFromMembers(ms).Ok? ==> DecodePriorityLevelWithMaxLamports(JObj(ms)) == PayloadFromMembers(ms)
  {
    var names := FieldSet(PriorityLevelWithMaxLamportsFields);
    assert PriorityLevelWithMaxLamportsFields[0] == "priorityLevel";
    assert PriorityLevelWithMaxLamportsFields[1] == "maxLamports";
    assert PriorityLevelWithMaxLamportsFields[2] == "global";
    FieldMapSpec(ms, names);
    if FieldMap(ms, names).Ok? {
      RequiredFromMembers(ms, names, "priorityLevel", DecodePriorityLevel);
      RequiredFromMembers(ms, names, "maxLamports", DecodeU64);
      DefaultedFromMembers(ms, names, "global", DecodeBool, false);
    }
  }

  /**
   * The object form of `priorityLevelWithMaxLamports`: both required fields
   * present and valid, `global` valid when present, no field repeated;
   * `global` is `false` when absent.
   */
  lemma PriorityLevelWithMaxLamportsMembers(ms: seq<(string, Json)>)
    ensures DecodePrioritizationFee(JObj([("priorityLevelWithMaxLamports", JObj(ms))])) == PayloadFromMembers(ms)
  {
    var j := JObj([("priorityLevelWithMaxLamports", JObj(ms))]);
    assert ExternalTag(j) == Ok(Tagged("priorityLevelWithMaxLamports", Some(JObj(ms))));
    assert DecodeTaggedFee(j) == DecodePriorityLevelWithMaxLamports(JObj(ms));
    assert !IsSentinel(j, "auto") && !IsSentinel(j, "disabled") && DecodeU64(j).Err?;
    PayloadMembers(ms);
  }

  /** Decoding a `priorityLevelWithMaxLamports` object without a `global` key gives `global == false`. */
  lemma GlobalDefaultsToFalse(ms: seq<(string, Json)>)
    requires "global" !in Keys(ms)
    requires DecodePrioritizationFee(JObj([("priorityLevelWithMaxLamports", JObj(ms))])).Ok?
    ensures DecodePrioritizationFee(JObj([("priorityLevelWithMaxLamports", JObj(ms))])).value.PriorityLevelWithMaxLamports?
    ensures !DecodePrioritizationFee(JObj([("priorityLevelWithMaxLamports", JObj(ms))])).value.global
  {
    PriorityLevelWithMaxLamportsMembers(ms);
  }

  /** The positional form of the payload: two elements, or three with `global`. */
  lemma PositionalPayload(level: PriorityLevel, maxLamports: u64, rest: seq<Json>)
    ensures DecodePrioritizationFee(JObj([("priorityLevelWithMaxLamports",
              JArr([EncodePriorityLevel(level), JNum(maxLamports)]))]))
            == Ok(PriorityLevelWithMaxLamports(level, maxLamports, false))
    ensures |rest| >= 2 ==>
            DecodePrioritizationFee(JObj([("priorityLevelWithMaxLamports",
              JArr([EncodePriorityLevel(level), JNum(maxLamports)] + rest))])) == Err(NoVariantMatched)
  {
    PriorityLevelRoundTrip(level);
    var names := PriorityLevelWithMaxLamportsFields;
    var items := [EncodePriorityLevel(level), JNum(maxLamports)];
    assert items[1..][1..] == [];
    assert names[0] == "priorityLevel" && names[1..][0] == "maxLamports";
    assert ZipFields(names[1..], items[1..]) == map["maxLamports" := items[1]];
    assert ZipFields(names, items) == map["priorityLevel" := items[0], "maxLamports" := items[1]];
  }

  // ---------------------------------------------------------------------
  // TransactionConfig
  // ---------------------------------------------------------------------

  datatype DynamicSlippageSettings = DynamicSlippageSettings(minBps: Option<u16>, maxBps: Option<u16>)

  const DynamicSlippageFields: seq<string> := ["minBps", "maxBps"]

  /** Both fields are `Option`s without a default: absent is `None`, but the positional form needs both. */
  function DecodeDynamicSlippage(j: Json): Decoded<DynamicSlippageSettings> {
    var fields :- StructFields(j, DynamicSlippageFields, 2);
    var minBps :- Defaulted(fields, "minBps", DecodeOptionalU16, None);
    var maxBps :- Defaulted(fields, "maxBps", DecodeOptionalU16, None);
    Ok(DynamicSlippageSettings(minBps, maxBps))
  }

  function EncodeOptionalU16(o: Option<u16>): Json {
    match o
    case None => JNull
    case Some(n) => JNum(n)
  }

  /** The derived encoder: both fields, `None` as `null`. */
  function EncodeDynamicSlippage(d: DynamicSlippageSettings): Json {
    JObj([("minBps", EncodeOptionalU16(d.minBps)), ("maxBps", EncodeOptionalU16(d.maxBps))])
  }

  lemma DynamicSlippageRoundTrip(d: DynamicSlippageSettings)
    ensures DecodeDynamicSlippage(EncodeDynamicSlippage(d)) == Ok(d)
  {
    var ms := [("minBps", EncodeOptionalU16(d.minBps)), ("maxBps", EncodeOptionalU16(d.maxBps))];
    var names := FieldSet(DynamicSlippageFields);
    assert DynamicSlippageFields[0] == "minBps" && DynamicSlippageFields[1] == "maxBps";
    assert NoRepeatedField(ms, names);
    FieldMapSpec(ms, names);
    assert ms[0].0 == "minBps" && ms[1].0 == "maxBps";
  }

  datatype TransactionConfig = TransactionConfig(
    wrapAndUnwrapSol: bool,
    allowOptimizedWrappedSolTokenAccount: bool,
    feeAccount: Option<Pubkey>,
    destinationTokenAccount: Option<Pubkey>,
    trackingAccount: Option<Pubkey>,
    computeUnitPriceMicroLamports: Option<ComputeUnitPriceMicroLamports>,
    prioritizationFeeLamports: Option<PrioritizationFeeLamports>,
    dynamicComputeUnitLimit: bool,
    asLegacyTransaction: bool,
    useSharedAccounts: Option<bool>,
    useTokenLedger: bool,
    skipUserAccountsRpcCalls: bool,
    keyedUiAccounts: Option<seq<KeyedUiAccount>>,
    programAuthorityId: Option<u8>,
    dynamicSlippage: Option<DynamicSlippageSettings>,
    blockhashSlotsToExpiry: Option<u8>,
    correctLastValidBlockHeight: bool)

  /** `TransactionConfig::default()`. */
  function DefaultTransactionConfig(): TransactionConfig {
    TransactionConfig(
      wrapAndUnwrapSol := true,
      allowOptimizedWrappedSolTokenAccount := false,
      feeAccount := None,
      destinationTokenAccount := None,
      trackingAccount := None,
      computeUnitPriceMicroLamports := None,
      prioritizationFeeLamports := None,
      dynamicComputeUnitLimit := false,
      asLegacyTransaction := false,
      useSharedAccounts := None,
      useTokenLedger := false,
      skipUserAccountsRpcCalls := false,
      keyedUiAccounts := None,
      programAuthorityId := None,
      dynamicSlippage := None,
      blockhashSlotsToExpiry := None,
      correctLastValidBlockHeight := false)
  }

  /** The wire names of the fields, in declaration order. */
  const TransactionConfigFields: seq<string> := [
    "wrapAndUnwrapSol", "allowOptimizedWrappedSolTokenAccount", "feeAccount",
    "destinationTokenAccount", "trackingAccount", "computeUnitPriceMicroLamports",
    "prioritizationFeeLamports", "dynamicComputeUnitLimit", "asLegacyTransaction",
    "useSharedAccounts", "useTokenLedger", "skipUserAccountsRpcCalls", "keyedUiAccounts",
    "programAuthorityId", "dynamicSlippage", "blockhashSlotsToExpiry",
    "correctLastValidBlockHeight"]

  function DecodeOptionalComputeUnitPrice(j: Json): Decoded<Option<ComputeUnitPriceMicroLamports>> {
    DecodeOptional(j, DecodeComputeUnitPrice)
  }

  function DecodeOptionalFee(j: Json): Decoded<Option<PrioritizationFeeLamports>> {
    DecodeOptional(j, DecodePrioritizationFee)
  }

  function DecodeOptionalDynamicSlippage(j: Json): Decoded<Option<DynamicSlippageSettings>> {
    DecodeOptional(j, DecodeDynamicSlippage)
  }

  /** `Option<Vec<KeyedUiAccount>>`: `null`, or an array of accounts. */
  function DecodeKeyedUiAccounts(j: Json, c: Codecs): Decoded<Option<seq<KeyedUiAccount>>> {
    match j
    case JNull => Ok(None)
    case JArr(items) => var accounts :- DecodeElements(items, c.decodeKeyedUiAccount); Ok(Some(accounts))
    case _ => Err(InvalidType)
  }

  function KeyedUiAccountsField(fields: map<string, Json>, c: Codecs): Decoded<Option<seq<KeyedUiAccount>>> {
    if "keyedUiAccounts" in fields then DecodeKeyedUiAccounts(fields["keyedUiAccounts"], c)
    else Ok(DefaultTransactionConfig().keyedUiAccounts)
  }

  /**
   * The derived decoder under the struct-level `#[serde(default)]`: every
   * field absent from the input takes its value from
   * `DefaultTransactionConfig()`.
   */
  function DecodeTransactionConfig(j: Json, c: Codecs): Decoded<TransactionConfig> {
    var fields :- StructFields(j, TransactionConfigFields, 0);
    ConfigFromFields(fields, c)
  }

  /**
   * Each field from its member's value, or from the default when absent, in
   * declaration order; read in two halves.
   */
  function ConfigFromFields(fields: map<string, Json>, c: Codecs): Decoded<TransactionConfig> {
    var first :- FirstConfigFields(fields, c);
    LastConfigFields(fields, c, first)
  }

  /** `wrapAndUnwrapSol` through `useSharedAccounts`, over the default. */
  function FirstConfigFields(fields: map<string, Json>, c: Codecs): Decoded<TransactionConfig> {
    var d := DefaultTransactionConfig();
    var wrapAndUnwrapSol :- Defaulted(fields, "wrapAndUnwrapSol", DecodeBool, d.wrapAndUnwrapSol);
    var allowOptimized :- Defaulted(fields, "allowOptimizedWrappedSolTokenAccount", DecodeBool,
                                    d.allowOptimizedWrappedSolTokenAccount);
    var feeAccount :- Defaulted(fields, "feeAccount", c.decodeOptionalPubkey, d.feeAccount);
    var destinationTokenAccount :- Defaulted(fields, "destinationTokenAccount", c.decodeOptionalPubkey,
                                             d.destinationTokenAccount);
    var trackingAccount :- Defaulted(fields, "trackingAccount", c.decodeOptionalPubkey, d.trackingAccount);
    var computeUnitPrice :- Defaulted(fields, "computeUnitPriceMicroLamports", DecodeOptionalComputeUnitPrice,
                                      d.computeUnitPriceMicroLamports);
    var prioritizationFee :- Defaulted(fields, "prioritizationFeeLamports", DecodeOptionalFee,
                                       d.prioritizationFeeLamports);
    var dynamicComputeUnitLimit :- Defaulted(fields, "dynamicComputeUnitLimit", DecodeBool,
                                             d.dynamicComputeUnitLimit);
    var asLegacyTransaction :- Defaulted(fields, "asLegacyTransaction", DecodeBool, d.asLegacyTransaction);
    var useSharedAccounts :- Defaulted(fields, "useSharedAccounts", DecodeOptionalBool, d.useSharedAccounts);
    Ok(d.(wrapAndUnwrapSol := wrapAndUnwrapSol,
          allowOptimizedWrappedSolTokenAccount := allowOptimized,
          feeAccount := feeAccount,
          destinationTokenAccount := destinationTokenAccount,
          trackingAccount := trackingAccount,
          computeUnitPriceMicroLamports := computeUnitPrice,
          prioritizationFeeLamports := prioritizationFee,
          dynamicComputeUnitLimit := dynamicComputeUnitLimit,
          asLegacyTransaction := asLegacyTransaction,
          useSharedAccounts := useSharedAccounts))
  }

  /** `useTokenLedger` through `correctLastValidBlockHeight`, over `cfg`. */
  function LastConfigFields(fields: map<string, Json>, c: Codecs, cfg: TransactionConfig): Decoded<TransactionConfig> {
    var d := DefaultTransactionConfig();
    var useTokenLedger :- Defaulted(fields, "useTokenLedger", DecodeBool, d.useTokenLedger);
    var skipUserAccountsRpcCalls :- Defaulted(fields, "skipUserAccountsRpcCalls", DecodeBool,
                                              d.skipUserAccountsRpcCalls);
    var keyedUiAccounts :- KeyedUiAccountsField(fields, c);
    var programAuthorityId :- Defaulted(fields, "programAuthorityId", DecodeOptionalU8, d.programAuthorityId);
    var dynamicSlippage :- Defaulted(fields, "dynamicSlippage", DecodeOptionalDynamicSlippage, d.dynamicSlippage);
    var blockhashSlotsToExpiry :- Defaulted(fields, "blockhashSlotsToExpiry", DecodeOptionalU8,
                                            d.blockhashSlotsToExpiry);
    var correctLastValidBlockHeight :- Defaulted(fields, "correctLastValidBlockHeight", DecodeBool,
                                                 d.correctLastValidBlockHeight);
    Ok(cfg.(useTokenLedger := useTokenLedger,
            skipUserAccountsRpcCalls := skipUserAccountsRpcCalls,
            keyedUiAccounts := keyedUiAccounts,
            programAuthorityId := programAuthorityId,
            dynamicSlippage := dynamicSlippage,
            blockhashSlotsToExpiry := blockhashSlotsToExpiry,
            correctLastValidBlockHeight := correctLastValidBlockHeight))
  }

  /**
   * Decoding `{}` (or the empty positional form `[]`) gives the default:
   * `wrapAndUnwrapSol` on, every other flag off, every option absent.
   */
  lemma DecodeEmptyIsDefault(c: Codecs)
    ensures DecodeTransactionConfig(JObj([]), c) == Ok(DefaultTransactionConfig())
    ensures DecodeTransactionConfig(JArr([]), c) == Ok(DefaultTransactionConfig())
    ensures var d := DefaultTransactionConfig();
            && d.wrapAndUnwrapSol
            && !d.allowOptimizedWrappedSolTokenAccount && !d.dynamicComputeUnitLimit
            && !d.asLegacyTransaction && !d.useTokenLedger && !d.skipUserAccountsRpcCalls
            && !d.correctLastValidBlockHeight
            && d.feeAccount.None? && d.destinationTokenAccount.None? && d.trackingAccount.None?
            && d.computeUnitPriceMicroLamports.None? && d.prioritizationFeeLamports.None?
            && d.useSharedAccounts.None? && d.keyedUiAccounts.None? && d.programAuthorityId.None?
            && d.dynamicSlippage.None? && d.blockhashSlotsToExpiry.None?
  {
  }

  /** `keyedUiAccounts` read straight from an object's members. */
  function KeyedUiAccountsMember(ms: seq<(string, Json)>, c: Codecs): Decoded<Option<seq<KeyedUiAccount>>> {
    match Lookup(ms, "keyedUiAccounts")
    case None => Ok(DefaultTransactionConfig().keyedUiAccounts)
    case Some(v) => DecodeKeyedUiAccounts(v, c)
  }

  /** Every field that occurs among the members decodes. */
  predicate PresentFieldsDecode(ms: seq<(string, Json)>, c: Codecs) {
    var d := DefaultTransactionConfig();
    && DefaultedMember(ms, "wrapAndUnwrapSol", DecodeBool, d.wrapAndUnwrapSol).Ok?
    && DefaultedMember(ms, "allowOptimizedWrappedSolTokenAccount", DecodeBool, d.allowOptimizedWrappedSolTokenAccount).Ok?
    && DefaultedMember(ms, "feeAccount", c.decodeOptionalPubkey, d.feeAccount).Ok?
    && DefaultedMember(ms, "destinationTokenAccount", c.decodeOptionalPubkey, d.destinationTokenAccount).Ok?
    && DefaultedMember(ms, "trackingAccount", c.decodeOptionalPubkey, d.trackingAccount).Ok?
    && DefaultedMember(ms, "computeUnitPriceMicroLamports", DecodeOptionalComputeUnitPrice, d.computeUnitPriceMicroLamports).Ok?
    && DefaultedMember(ms, "prioritizationFeeLamports", DecodeOptionalFee, d.prioritizationFeeLamports).Ok?
    && DefaultedMember(ms, "dynamicComputeUnitLimit", DecodeBool, d.dynamicComputeUnitLimit).Ok?
    && DefaultedMember(ms, "asLegacyTransaction", DecodeBool, d.asLegacyTransaction).Ok?
    && DefaultedMember(ms, "useSharedAccounts", DecodeOptionalBool, d.useSharedAccounts).Ok?
    && DefaultedMember(ms, "useTokenLedger", DecodeBool, d.useTokenLedger).Ok?
    && DefaultedMember(ms, "skipUserAccountsRpcCalls", DecodeBool, d.skipUserAccountsRpcCalls).Ok?
    && KeyedUiAccountsMember(ms, c).Ok?
    && DefaultedMember(ms, "programAuthorityId", DecodeOptionalU8, d.programAuthorityId).Ok?
    && DefaultedMember(ms, "dynamicSlippage", DecodeOptionalDynamicSlippage, d.dynamicSlippage).Ok?
    && DefaultedMember(ms, "blockhashSlotsToExpiry", DecodeOptionalU8, d.blockhashSlotsToExpiry).Ok?
    && DefaultedMember(ms, "correctLastValidBlockHeight", DecodeBool, d.correctLastValidBlockHeight).Ok?
  }

  lemma TransactionConfigFieldNames()
    ensures
            && "wrapAndUnwrapSol" in FieldSet(TransactionConfigFields)
            && "allowOptimizedWrappedSolTokenAccount" in FieldSet(TransactionConfigFields)
            && "feeAccount" in FieldSet(TransactionConfigFields)
            && "destinationTokenAccount" in FieldSet(TransactionConfigFields)
            && "trackingAccount" in FieldSet(TransactionConfigFields)
            && "computeUnitPriceMicroLamports" in FieldSet(TransactionConfigFields)
            && "prioritizationFeeLamports" in FieldSet(TransactionConfigFields)
            && "dynamicComputeUnitLimit" in FieldSet(TransactionConfigFields)
            && "asLegacyTransaction" in FieldSet(TransactionConfigFields)
            && "useSharedAccounts" in FieldSet(TransactionConfigFields)
            && "useTokenLedger" in FieldSet(TransactionConfigFields)
            && "skipUserAccountsRpcCalls" in FieldSet(TransactionConfigFields)
            && "keyedUiAccounts" in FieldSet(TransactionConfigFields)
            && "programAuthorityId" in FieldSet(TransactionConfigFields)
            && "dynamicSlippage" in FieldSet(TransactionConfigFields)
            && "blockhashSlotsToExpiry" in FieldSet(TransactionConfigFields)
            && "correctLastValidBlockHeight" in FieldSet(TransactionConfigFields)
  {
    assert TransactionConfigFields[0] == "wrapAndUnwrapSol";
    assert TransactionConfigFields[1] == "allowOptimizedWrappedSolTokenAccount";
    assert TransactionConfigFields[2] == "feeAccount";
    assert TransactionConfigFields[3] == "destinationTokenAccount";
    assert TransactionConfigFields[4] == "trackingAccount";
    assert TransactionConfigFields[5] == "computeUnitPriceMicroLamports";
    assert TransactionConfigFields[6] == "prioritizationFeeLamports";
    assert TransactionConfigFields[7] == "dynamicComputeUnitLimit";
    assert TransactionConfigFields[8] == "asLegacyTransaction";
    assert TransactionConfigFields[9] == "useSharedAccounts";
    assert TransactionConfigFields[10] == "useTokenLedger";
    assert TransactionConfigFields[11] == "skipUserAccountsRpcCalls";
    assert TransactionConfigFields[12] == "keyedUiAccounts";
    assert TransactionConfigFields[13] == "programAuthorityId";
    assert TransactionConfigFields[14] == "dynamicSlippage";
    assert TransactionConfigFields[15] == "blockhashSlotsToExpiry";
    assert TransactionConfigFields[16] == "correctLastValidBlockHeight";
  }

  /** Once no field repeats, reading a field from the field map is reading it from the members. */
  lemma MembersAgreeWithFields(ms: seq<(string, Json)>, c: Codecs)
    requires FieldMap(ms, FieldSet(TransactionConfigFields)).Ok?
    ensures var fields := FieldMap(ms, FieldSet(TransactionConfigFields)).value;
            var d := DefaultTransactionConfig();
            && Defaulted(fields, "wrapAndUnwrapSol", DecodeBool, d.wrapAndUnwrapSol) == DefaultedMember(ms, "wrapAndUnwrapSol", DecodeBool, d.wrapAndUnwrapSol)
            && Defaulted(fields, "allowOptimizedWrappedSolTokenAccount", DecodeBool, d.allowOptimizedWrappedSolTokenAccount) == DefaultedMember(ms, "allowOptimizedWrappedSolTokenAccount", DecodeBool, d.allowOptimizedWrappedSolTokenAccount)
            && Defaulted(fields, "feeAccount", c.decodeOptionalPubkey, d.feeAccount) == DefaultedMember(ms, "feeAccount", c.decodeOptionalPubkey, d.feeAccount)
            && Defaulted(fields, "destinationTokenAccount", c.decodeOptionalPubkey, d.destinationTokenAccount) == DefaultedMember(ms, "destinationTokenAccount", c.decodeOptionalPubkey, d.destinationTokenAccount)
            && Defaulted(fields, "trackingAccount", c.decodeOptionalPubkey, d.trackingAccount) == DefaultedMember(ms, "trackingAccount", c.decodeOptionalPubkey, d.trackingAccount)
            && Defaulted(fields, "computeUnitPriceMicroLamports", DecodeOptionalComputeUnitPrice, d.computeUnitPriceMicroLamports) == DefaultedMember(ms, "computeUnitPriceMicroLamports", DecodeOptionalComputeUnitPrice, d.computeUnitPriceMicroLamports)
            && Defaulted(fields, "prioritizationFeeLamports", DecodeOptionalFee, d.prioritizationFeeLamports) == DefaultedMember(ms, "prioritizationFeeLamports", DecodeOptionalFee, d.prioritizationFeeLamports)
            && Defaulted(fields, "dynamicComputeUnitLimit", DecodeBool, d.dynamicComputeUnitLimit) == DefaultedMember(ms, "dynamicComputeUnitLimit", DecodeBool, d.dynamicComputeUnitLimit)
            && Defaulted(fields, "asLegacyTransaction", DecodeBool, d.asLegacyTransaction) == DefaultedMember(ms, "asLegacyTransaction", DecodeBool, d.asLegacyTransaction)
            && Defaulted(fields, "useSharedAccounts", DecodeOptionalBool, d.useSharedAccounts) == DefaultedMember(ms, "useSharedAccounts", DecodeOptionalBool, d.useSharedAccounts)
            && Defaulted(fields, "useTokenLedger", DecodeBool, d.useTokenLedger) == DefaultedMember(ms, "useTokenLedger", DecodeBool, d.useTokenLedger)
            && Defaulted(fields, "skipUserAccountsRpcCalls", DecodeBool, d.skipUserAccountsRpcCalls) == DefaultedMember(ms, "skipUserAccountsRpcCalls", DecodeBool, d.skipUserAccountsRpcCalls)
            && KeyedUiAccountsField(fields, c) == KeyedUiAccountsMember(ms, c)
            && Defaulted(fields, "programAuthorityId", DecodeOptionalU8, d.programAuthorityId) == DefaultedMember(ms, "programAuthorityId", DecodeOptionalU8, d.programAuthorityId)
            && Defaulted(fields, "dynamicSlippage", DecodeOptionalDynamicSlippage, d.dynamicSlippage) == DefaultedMember(ms, "dynamicSlippage", DecodeOptionalDynamicSlippage, d.dynamicSlippage)
            && Defaulted(fields, "blockhashSlotsToExpiry", DecodeOptionalU8, d.blockhashSlotsToExpiry) == DefaultedMember(ms, "blockhashSlotsToExpiry", DecodeOptionalU8, d.blockhashSlotsToExpiry)
            && Defaulted(fields, "correctLastValidBlockHeight", DecodeBool, d.correctLastValidBlockHeight) == DefaultedMember(ms, "correctLastValidBlockHeight", DecodeBool, d.correctLastValidBlockHeight)
  {
    var names := FieldSet(TransactionConfigFields);
    var d := DefaultTransactionConfig();
    TransactionConfigFieldNames();
    DefaultedFromMembers(ms, names, "wrapAndUnwrapSol", DecodeBool, d.wrapAndUnwrapSol);
    DefaultedFromMembers(ms, names, "allowOptimizedWrappedSolTokenAccount", DecodeBool, d.allowOptimizedWrappedSolTokenAccount);
    DefaultedFromMembers(ms, names, "feeAccount", c.decodeOptionalPubkey, d.feeAccount);
    DefaultedFromMembers(ms, names, "destinationTokenAccount", c.decodeOptionalPubkey, d.destinationTokenAccount);
    DefaultedFromMembers(ms, names, "trackingAccount", c.decodeOptionalPubkey, d.trackingAccount);
    DefaultedFromMembers(ms, names, "computeUnitPriceMicroLamports", DecodeOptionalComputeUnitPrice, d.computeUnitPriceMicroLamports);
    DefaultedFromMembers(ms, names, "prioritizationFeeLamports", DecodeOptionalFee, d.prioritizationFeeLamports);
    DefaultedFromMembers(ms, names, "dynamicComputeUnitLimit", DecodeBool, d.dynamicComputeUnitLimit);
    DefaultedFromMembers(ms, names, "asLegacyTransaction", DecodeBool, d.asLegacyTransaction);
    DefaultedFromMembers(ms, names, "useSharedAccounts", DecodeOptionalBool, d.useSharedAccounts);
    DefaultedFromMembers(ms, names, "useTokenLedger", DecodeBool, d.useTokenLedger);
    DefaultedFromMembers(ms, names, "skipUserAccountsRpcCalls", DecodeBool, d.skipUserAccountsRpcCalls);
    FieldMapLookup(ms, names, "keyedUiAccounts");
    DefaultedFromMembers(ms, names, "programAuthorityId", DecodeOptionalU8, d.programAuthorityId);
    DefaultedFromMembers(ms, names, "dynamicSlippage", DecodeOptionalDynamicSlippage, d.dynamicSlippage);
    DefaultedFromMembers(ms, names, "blockhashSlotsToExpiry", DecodeOptionalU8, d.blockhashSlotsToExpiry);
    DefaultedFromMembers(ms, names, "correctLastValidBlockHeight", DecodeBool, d.correctLastValidBlockHeight);
  }

  /**
   * Default filling, member by member: an object decodes exactly when no
   * field occurs twice and every field that occurs decodes; then each field
   * holds the value decoded from its member, or the default's value when the
   * member is absent.
   */
  lemma DecodeFillsFromDefault(ms: seq<(string, Json)>, c: Codecs)
    ensures DecodeTransactionConfig(JObj(ms), c).Ok? <==>
              NoRepeatedField(ms, FieldSet(TransactionConfigFields)) && PresentFieldsDecode(ms, c)
    ensures DecodeTransactionConfig(JObj(ms), c).Ok? ==>
            var cfg := DecodeTransactionConfig(JObj(ms), c).value;
            var d := DefaultTransactionConfig();
            && DefaultedMember(ms, "wrapAndUnwrapSol", DecodeBool, d.wrapAndUnwrapSol) == Ok(cfg.wrapAndUnwrapSol)
            && DefaultedMember(ms, "allowOptimizedWrappedSolTokenAccount", DecodeBool, d.allowOptimizedWrappedSolTokenAccount) == Ok(cfg.allowOptimizedWrappedSolTokenAccount)
            && DefaultedMember(ms, "feeAccount", c.decodeOptionalPubkey, d.feeAccount) == Ok(cfg.feeAccount)
            && DefaultedMember(ms, "destinationTokenAccount", c.decodeOptionalPubkey, d.destinationTokenAccount) == Ok(cfg.destinationTokenAccount)
            && DefaultedMember(ms, "trackingAccount", c.decodeOptionalPubkey, d.trackingAccount) == Ok(cfg.trackingAccount)
            && DefaultedMember(ms, "computeUnitPriceMicroLamports", DecodeOptionalComputeUnitPrice, d.computeUnitPriceMicroLamports) == Ok(cfg.computeUnitPriceMicroLamports)
            && DefaultedMember(ms, "prioritizationFeeLamports", DecodeOptionalFee, d.prioritizationFeeLamports) == Ok(cfg.prioritizationFeeLamports)
            && DefaultedMember(ms, "dynamicComputeUnitLimit", DecodeBool, d.dynamicComputeUnitLimit) == Ok(cfg.dynamicComputeUnitLimit)
            && DefaultedMember(ms, "asLegacyTransaction", DecodeBool, d.asLegacyTransaction) == Ok(cfg.asLegacyTransaction)
            && DefaultedMember(ms, "useSharedAccounts", DecodeOptionalBool, d.useSharedAccounts) == Ok(cfg.useSharedAccounts)
            && DefaultedMember(ms, "useTokenLedger", DecodeBool, d.useTokenLedger) == Ok(cfg.useTokenLedger)
            && DefaultedMember(ms, "skipUserAccountsRpcCalls", DecodeBool, d.skipUserAccountsRpcCalls) == Ok(cfg.skipUserAccountsRpcCalls)
            && KeyedUiAccountsMember(ms, c) == Ok(cfg.keyedUiAccounts)
            && DefaultedMember(ms, "programAuthorityId", DecodeOptionalU8, d.programAuthorityId) == Ok(cfg.programAuthorityId)
            && DefaultedMember(ms, "dynamicSlippage", DecodeOptionalDynamicSlippage, d.dynamicSlippage) == Ok(cfg.dynamicSlippage)
            && DefaultedMember(ms, "blockhashSlotsToExpiry", DecodeOptionalU8, d.blockhashSlotsToExpiry) == Ok(cfg.blockhashSlotsToExpiry)
            && DefaultedMember(ms, "correctLastValidBlockHeight", DecodeBool, d.correctLastValidBlockHeight) == Ok(cfg.correctLastValidBlockHeight)
  {
    var names := FieldSet(TransactionConfigFields);
    FieldMapSpec(ms, names);
    if FieldMap(ms, names).Ok? {
      ConfigFromFieldsSpec(FieldMap(ms, names).value, c);
      MembersAgreeWithFields(ms, c);
    }
  }

  lemma ConfigFromFieldsSpec(fields: map<string, Json>, c: Codecs)
    ensures var d := DefaultTransactionConfig();
            ConfigFromFields(fields, c).Ok? <==>
              && Defaulted(fields, "wrapAndUnwrapSol", DecodeBool, d.wrapAndUnwrapSol).Ok?
              && Defaulted(fields, "allowOptimizedWrappedSolTokenAccount", DecodeBool, d.allowOptimizedWrappedSolTokenAccount).Ok?
              && Defaulted(fields, "feeAccount", c.decodeOptionalPubkey, d.feeAccount).Ok?
              && Defaulted(fields, "destinationTokenAccount", c.decodeOptionalPubkey, d.destinationTokenAccount).Ok?
              && Defaulted(fields, "trackingAccount", c.decodeOptionalPubkey, d.trackingAccount).Ok?
              && Defaulted(fields, "computeUnitPriceMicroLamports", DecodeOptionalComputeUnitPrice, d.computeUnitPriceMicroLamports).Ok?
              && Defaulted(fields, "prioritizationFeeLamports", DecodeOptionalFee, d.prioritizationFeeLamports).Ok?
              && Defaulted(fields, "dynamicComputeUnitLimit", DecodeBool, d.dynamicComputeUnitLimit).Ok?
              && Defaulted(fields, "asLegacyTransaction", DecodeBool, d.asLegacyTransaction).Ok?
              && Defaulted(fields, "useSharedAccounts", DecodeOptionalBool, d.useSharedAccounts).Ok?
              && Defaulted(fields, "useTokenLedger", DecodeBool, d.useTokenLedger).Ok?
              && Defaulted(fields, "skipUserAccountsRpcCalls", DecodeBool, d.skipUserAccountsRpcCalls).Ok?
              && KeyedUiAccountsField(fields, c).Ok?
              && Defaulted(fields, "programAuthorityId", DecodeOptionalU8, d.programAuthorityId).Ok?
              && Defaulted(fields, "dynamicSlippage", DecodeOptionalDynamicSlippage, d.dynamicSlippage).Ok?
              && Defaulted(fields, "blockhashSlotsToExpiry", DecodeOptionalU8, d.blockhashSlotsToExpiry).Ok?
              && Defaulted(fields, "correctLastValidBlockHeight", DecodeBool, d.correctLastValidBlockHeight).Ok?
    ensures ConfigFromFields(fields, c).Ok? ==>
            var cfg := ConfigFromFields(fields, c).value;
            var d := DefaultTransactionConfig();
            && Defaulted(fields, "wrapAndUnwrapSol", DecodeBool, d.wrapAndUnwrapSol) == Ok(cfg.wrapAndUnwrapSol)
            && Defaulted(fields, "allowOptimizedWrappedSolTokenAccount", DecodeBool, d.allowOptimizedWrappedSolTokenAccount) == Ok(cfg.allowOptimizedWrappedSolTokenAccount)
            && Defaulted(fields, "feeAccount", c.decodeOptionalPubkey, d.feeAccount) == Ok(cfg.feeAccount)
            && Defaulted(fields, "destinationTokenAccount", c.decodeOptionalPubkey, d.destinationTokenAccount) == Ok(cfg.destinationTokenAccount)
            && Defaulted(fields, "trackingAccount", c.decodeOptionalPubkey, d.trackingAccount) == Ok(cfg.trackingAccount)
            && Defaulted(fields, "computeUnitPriceMicroLamports", DecodeOptionalComputeUnitPrice, d.computeUnitPriceMicroLamports) == Ok(cfg.computeUnitPriceMicroLamports)
            && Defaulted(fields, "prioritizationFeeLamports", DecodeOptionalFee, d.prioritizationFeeLamports) == Ok(cfg.prioritizationFeeLamports)
            && Defaulted(fields, "dynamicComputeUnitLimit", DecodeBool, d.dynamicComputeUnitLimit) == Ok(cfg.dynamicComputeUnitLimit)
            && Defaulted(fields, "asLegacyTransaction", DecodeBool, d.asLegacyTransaction) == Ok(cfg.asLegacyTransaction)
            && Defaulted(fields, "useSharedAccounts", DecodeOptionalBool, d.useSharedAccounts) == Ok(cfg.useSharedAccounts)
            && Defaulted(fields, "useTokenLedger", DecodeBool, d.useTokenLedger) == Ok(cfg.useTokenLedger)
            && Defaulted(fields, "skipUserAccountsRpcCalls", DecodeBool, d.skipUserAccountsRpcCalls) == Ok(cfg.skipUserAccountsRpcCalls)
            && KeyedUiAccountsField(fields, c) == Ok(cfg.keyedUiAccounts)
            && Defaulted(fields, "programAuthorityId", DecodeOptionalU8, d.programAuthorityId) == Ok(cfg.programAuthorityId)
            && Defaulted(fields, "dynamicSlippage", DecodeOptionalDynamicSlippage, d.dynamicSlippage) == Ok(cfg.dynamicSlippage)
            && Defaulted(fields, "blockhashSlotsToExpiry", DecodeOptionalU8, d.blockhashSlotsToExpiry) == Ok(cfg.blockhashSlotsToExpiry)
            && Defaulted(fields, "correctLastValidBlockHeight", DecodeBool, d.correctLastValidBlockHeight) == Ok(cfg.correctLastValidBlockHeight)
  {
  }
}
