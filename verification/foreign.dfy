/**
 * Types and codecs the data layer uses but does not define. Their wire forms
 * belong to other crates (the base-58 `Pubkey` text, `rust_decimal`, `f64`,
 * the account decoder) or to the `serde_helpers` module, which is not part of
 * this model, so the model receives them as a record of functions.
 */
module Foreign {
  import opened Serde

  /** The 32 bytes of an account address. */
  type PubkeyBytes = s: seq<bv8> | |s| == 32 witness seq(32, _ => 0 as bv8)

  /** An account address. */
  datatype Pubkey = Pubkey(bytes: PubkeyBytes)

  /** `Pubkey::default()`: all 32 bytes zero. */
  function DefaultPubkey(): (p: Pubkey)
    ensures forall i :: 0 <= i < 32 ==> p.bytes[i] == 0
  {
    Pubkey(seq(32, _ => 0))
  }

  /** An arbitrary-precision decimal, `mantissa * 10^-scale`. */
  datatype Decimal = Decimal(mantissa: int, scale: nat)

  /** An IEEE 754 double, by its bit pattern; `0.0` is all bits zero. */
  datatype Float = Float(bits: bv64)

  /** Neither an infinity nor a NaN: the exponent bits are not all ones. */
  predicate Finite(f: Float) {
    f.bits & 0x7FF0_0000_0000_0000 != 0x7FF0_0000_0000_0000
  }

  /** The route plan of a quote, defined in a file that is not part of this model. */
  datatype RoutePlan = RoutePlan(steps: seq<Json>)

  /** An account state whose members are merged into the `KeyedUiAccount` object. */
  datatype UiAccount = UiAccount(members: seq<(string, Json)>)

  /** An account the caller supplies so that an AMM outside the market cache can be loaded. */
  datatype KeyedUiAccount = KeyedUiAccount(pubkey: string, uiAccount: UiAccount, params: Option<Json>)

  /** The codecs of the types above, and the `field_as_string` helpers. */
  datatype Codecs = Codecs(
    encodePubkey: Pubkey -> Json,                      // field_as_string on a Pubkey
    decodePubkey: Json -> Decoded<Pubkey>,
    decodeOptionalPubkey: Json -> Decoded<Option<Pubkey>>, // option_field_as_string on a Pubkey
    encodeAmount: u64 -> Json,                         // field_as_string on a u64
    decodeAmount: Json -> Decoded<u64>,
    encodeDecimal: Decimal -> Json,
    decodeDecimal: Json -> Decoded<Decimal>,
    encodeRoutePlan: RoutePlan -> Json,
    decodeRoutePlan: Json -> Decoded<RoutePlan>,
    encodeFloat: Float -> Json,
    decodeFloat: Json -> Decoded<Float>,
    decodeKeyedUiAccount: Json -> Decoded<KeyedUiAccount>)

  /** The `field_as_string` codec of a `u64` gives back what it wrote. */
  ghost predicate AmountRoundTrips(c: Codecs) {
    forall a: u64 :: c.decodeAmount(c.encodeAmount(a)) == Ok(a)
  }

  /**
   * Each foreign decoder gives back what its encoder wrote. For `f64` this
   * holds of finite values only: serde_json writes NaN and the infinities as
   * `null`, which an `f64` field does not accept.
   */
  ghost predicate RoundTrips(c: Codecs) {
    && (forall p :: c.decodePubkey(c.encodePubkey(p)) == Ok(p))
    && AmountRoundTrips(c)
    && (forall d :: c.decodeDecimal(c.encodeDecimal(d)) == Ok(d))
    && (forall rp :: c.decodeRoutePlan(c.encodeRoutePlan(rp)) == Ok(rp))
    && (forall f :: Finite(f) ==> c.decodeFloat(c.encodeFloat(f)) == Ok(f))
  }
}
