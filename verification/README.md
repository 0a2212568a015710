# Swap-API client data layer, in Dafny

This project models the data layer of a client for a decentralized-exchange swap API: the
quote request and response, and the configuration sent when a swap transaction is built.
Two Rust files make up the core:

- `transaction_config.rs` holds two unions used to pay for priority:
  - `ComputeUnitPriceMicroLamports`: a bare number or the sentinel `"auto"`.
  - `PrioritizationFeeLamports`: six variants with a hand-written encoder and a mixed
    tagged/untagged derived decoder.
- `transaction_config.rs` also holds `PriorityLevel`, `DynamicSlippageSettings`, and
  `TransactionConfig` with its default. That struct's decoder fills every absent field from
  the default.
- `quote.rs` holds `SwapMode` and its text parser, and the projection from `QuoteRequest` to
  `InternalQuoteRequest`. It also holds `PlatformFee` and `QuoteResponse`, whose fields are
  optional, defaulted or skipped on the wire.

JSON is a small datatype (`Serde.Json`). Numbers in it are unbounded integers, so values out
of range can be written and then rejected. The wire behaviour of serde's derived
implementations is written out as functions, as far as these types rely on it:

- `Serde.ExternalTag` reads externally tagged enums.
- `Serde.StructFields` reads structs, in object form and in positional array form.
  - In object form, unknown keys are ignored and a repeated field is an error.
  - In positional form, the array must hold at least the fields without a default and at
    most all of the fields.
- `Serde.Required` and `Serde.Defaulted` read a single field.
- `Option` fields read an absent field as `None`.

Types and codecs defined outside the two files come in as a `Foreign.Codecs` record of
functions. These are the `field_as_string` helpers, `Pubkey`, `Decimal`, `f64`, the route plan
and `KeyedUiAccount`. Lemmas that need them to round-trip say so: `Foreign.AmountRoundTrips`
for the string codec of `u64` amounts alone, `Foreign.RoundTrips` for all of them.

Files:

- `serde.dfy`: JSON and the derived-decoder rules.
- `foreign.dfy`: the foreign types and their codec record.
- `transaction_config.dfy`
- `quote.dfy`

Two points about the code as written:

- `ComputeUnitPriceMicroLamports::Auto` is meant to travel as `"auto"`.
  - Its decoder accepts only a `u64` or the text `"auto"`, through the `auto` helper
    (transaction_config.rs:13, 105-116).
  - The prioritization fee writes its own `Auto` as `"auto"` (transaction_config.rs:86).
  - The derived untagged encoder writes the unit variant as `null`. The model's encoder
    writes `null` too. See Findings.
- The conversion to `InternalQuoteRequest` copies `quote_type` (quote.rs:186). It drops only
  `quote_args`, `compute_unit_score`, `routing_constraints` and
  `token_category_based_intermediate_tokens`.

## Model

| member | source | states |
|---|---|---|
| Serde.DecodeUnsigned | jupiter-swap-api-client/src/transaction_config.rs:28-29 | A fixed-width unsigned field accepts exactly the JSON numbers from 0 to its maximum, and yields that number. |
| Serde.FieldMapSpec | jupiter-swap-api-client/src/transaction_config.rs:138-141 | A derived struct decoder reads an object's members without error exactly when no field occurs twice. It then holds exactly the fields that occur, each with its member's value. Unknown keys are ignored. |
| Serde.FieldMapLookup | jupiter-swap-api-client/src/transaction_config.rs:138-141 | Once no field repeats, a field is read exactly when some member carries it, and its value is that member's value. |
| Foreign.DefaultPubkey | jupiter-swap-api-client/src/quote.rs:60-66 | The default key in derived defaults has all its bytes zero. The type fixes a key at 32 bytes. |
| TransactionConfig.DecodeComputeUnitPrice | jupiter-swap-api-client/src/transaction_config.rs:8-15 | The untagged decoder: a `u64` first, then the `auto` helper. `ComputeUnitPriceDecodeCases` states what it accepts and yields. |
| TransactionConfig.IsSentinel | jupiter-swap-api-client/src/transaction_config.rs:105-129 | The `auto` and `disabled` helpers: a one-variant enum named by the word. `ComputeUnitPriceDecodeCases` and `FeeFromString` state which inputs it accepts. |
| TransactionConfig.EncodeComputeUnitPrice | jupiter-swap-api-client/src/transaction_config.rs:8-15 | The derived untagged encoder as written. `MicroLamportsRoundTrip`, `AutoComputeUnitPriceDoesNotRoundTrip` and `AutoInConfigReadsAsNone` state its effect. |
| TransactionConfig.EncodeComputeUnitPriceIntended | jupiter-swap-api-client/src/transaction_config.rs:86 | The encoder with `Auto` written as `"auto"`, like the fee's own `Auto`. `IntendedComputeUnitPriceRoundTrip` states that it round-trips. |
| TransactionConfig.ComputeUnitPriceDecodeCases | jupiter-swap-api-client/src/transaction_config.rs:8-15 | Decoding gives `MicroLamports(n)` exactly for the bare number `n` in `u64` range. It gives `Auto` exactly for `"auto"` (or `{"auto": null}`). Every other value is an error. |
| TransactionConfig.MicroLamportsRoundTrip | jupiter-swap-api-client/src/transaction_config.rs:8-15 | `MicroLamports(n)` encodes to the bare number `n` and decodes back to itself. |
| TransactionConfig.AutoComputeUnitPriceDoesNotRoundTrip | jupiter-swap-api-client/src/transaction_config.rs:8-15 | As written, `Auto` encodes to `null`, and decoding `null` fails. |
| TransactionConfig.AutoInConfigReadsAsNone | jupiter-swap-api-client/src/transaction_config.rs:161 | Inside a configuration the field is optional. So `Some(Auto)`, written as `null`, reads back as `None`: a configuration holding only that member decodes to the default, with the price unset. |
| TransactionConfig.IntendedComputeUnitPriceRoundTrip | jupiter-swap-api-client/src/transaction_config.rs:105-116 | When `Auto` is written as `"auto"`, every value decodes back from its encoding. |
| TransactionConfig.EncodePriorityLevel | jupiter-swap-api-client/src/transaction_config.rs:17-23 | A level as its camelCase name. `PriorityLevelRoundTrip` ties it to the decoder. |
| TransactionConfig.DecodePriorityLevel | jupiter-swap-api-client/src/transaction_config.rs:17-23 | The derived decoder of the unit-only enum. `PriorityLevelNames` characterises it. |
| TransactionConfig.PriorityLevelNames | jupiter-swap-api-client/src/transaction_config.rs:17-23 | A string decodes to a level exactly when it is that level's camelCase name (`medium`, `high`, `veryHigh`). Every other string is an error. |
| TransactionConfig.PriorityLevelRoundTrip | jupiter-swap-api-client/src/transaction_config.rs:17-23 | Every level decodes back from its encoding. |
| TransactionConfig.DecodeTaggedFee | jupiter-swap-api-client/src/transaction_config.rs:27-36 | The three externally tagged variants. `FeeTaggedNumbers`, `FeeRejectsUnknownTags` and `PriorityLevelWithMaxLamportsMembers` state what it accepts. |
| TransactionConfig.DecodePriorityLevelWithMaxLamports | jupiter-swap-api-client/src/transaction_config.rs:30-36 | The struct variant's payload, in object or positional form. `PayloadMembers` and `PositionalPayload` characterise it. |
| TransactionConfig.DecodePrioritizationFee | jupiter-swap-api-client/src/transaction_config.rs:25-44 | The tagged variants first, then the untagged ones in declaration order. `FeeProbesDisjoint`, `FeeFromString`, `FeeFromNumber` and `FeeRejectsOtherShapes` characterise it. |
| TransactionConfig.EncodePrioritizationFee | jupiter-swap-api-client/src/transaction_config.rs:46-103 | The hand-written encoder. `PrioritizationFeeRoundTrip`, `EncodingTakesItsOwnProbe` and `PrioritizationFeeEncodingInjective` state its contract. |
| TransactionConfig.DefaultPrioritizationFee | jupiter-swap-api-client/src/transaction_config.rs:37-39 | The default fee is the variant that `"auto"` decodes to. |
| TransactionConfig.PrioritizationFeeRoundTrip | jupiter-swap-api-client/src/transaction_config.rs:25-103 | Every fee decodes back from the hand-written encoding, for all six variants. |
| TransactionConfig.PriorityLevelWithMaxLamportsPayloadRoundTrip | jupiter-swap-api-client/src/transaction_config.rs:89-100 | The three-field payload that the encoder writes decodes to the same level, maximum and `global` flag. |
| TransactionConfig.FeeProbesDisjoint | jupiter-swap-api-client/src/transaction_config.rs:25-44 | No JSON value is accepted by two of the decoder's probes (tagged object, `"auto"`, number, `"disabled"`). Decoding succeeds exactly when one probe accepts. |
| TransactionConfig.EncodingTakesItsOwnProbe | jupiter-swap-api-client/src/transaction_config.rs:77-101 | Each variant's encoding is accepted by the probe of its own variant and by no other. |
| TransactionConfig.PrioritizationFeeEncodingInjective | jupiter-swap-api-client/src/transaction_config.rs:77-101 | Two fees have the same encoding exactly when they are equal: six distinct canonical shapes. |
| TransactionConfig.FeeFromString | jupiter-swap-api-client/src/transaction_config.rs:105-129 | Of all strings, only `"auto"` (giving `Auto`) and `"disabled"` (giving `Disabled`) decode, case-sensitively. Any other string fails. |
| TransactionConfig.FeeFromNumber | jupiter-swap-api-client/src/transaction_config.rs:40-41 | A bare number is `Lamports` when it is within `u64` range, and an error otherwise. |
| TransactionConfig.FeeTaggedNumbers | jupiter-swap-api-client/src/transaction_config.rs:28-29 | `autoMultiplier` accepts exactly the `u32` range and `jitoTipLamports` exactly the `u64` range. Wider numbers fail. |
| TransactionConfig.FeeRejectsOtherShapes | jupiter-swap-api-client/src/transaction_config.rs:25-44 | `null`, booleans, arrays, and objects that do not have exactly one member never decode. |
| TransactionConfig.FeeRejectsUnknownTags | jupiter-swap-api-client/src/transaction_config.rs:25-44 | A one-member object whose key names no tagged variant, and is not a sentinel, fails whatever its value. |
| TransactionConfig.PayloadMembers | jupiter-swap-api-client/src/transaction_config.rs:30-36 | The object form of the struct variant decodes exactly when both required fields are present and valid, `global` is valid if present, and no field repeats. The result is the member-by-member reading. |
| TransactionConfig.PriorityLevelWithMaxLamportsMembers | jupiter-swap-api-client/src/transaction_config.rs:30-36 | Decoding the tagged object `{"priorityLevelWithMaxLamports": {...}}` is the member-by-member reading of its payload. |
| TransactionConfig.GlobalDefaultsToFalse | jupiter-swap-api-client/src/transaction_config.rs:34-35 | A `priorityLevelWithMaxLamports` payload without a `global` key that decodes gives `global == false`. |
| TransactionConfig.PositionalPayload | jupiter-swap-api-client/src/transaction_config.rs:31-36 | The positional form with two elements decodes with `global == false`. A form with more than three elements fails. |
| TransactionConfig.EncodeDynamicSlippage | jupiter-swap-api-client/src/transaction_config.rs:131-136 | The derived encoder of both optional bounds. `DynamicSlippageRoundTrip` ties it to the decoder. |
| TransactionConfig.DecodeDynamicSlippage | jupiter-swap-api-client/src/transaction_config.rs:131-136 | The derived decoder. `DynamicSlippageRoundTrip` states that it reads back what the encoder wrote. |
| TransactionConfig.DynamicSlippageRoundTrip | jupiter-swap-api-client/src/transaction_config.rs:131-136 | Dynamic slippage settings decode back from their derived encoding, with `None` written as `null`. |
| TransactionConfig.DefaultTransactionConfig | jupiter-swap-api-client/src/transaction_config.rs:201-223 | The hand-written default. `DecodeEmptyIsDefault` states its values field by field. |
| TransactionConfig.DecodeTransactionConfig | jupiter-swap-api-client/src/transaction_config.rs:138-223 | The derived decoder under `#[serde(default)]`. `DecodeEmptyIsDefault`, `DecodeFillsFromDefault` and `AutoInConfigReadsAsNone` state its contract. |
| TransactionConfig.DecodeEmptyIsDefault | jupiter-swap-api-client/src/transaction_config.rs:140 | Decoding `{}` or `[]` gives the default. In the default `wrapAndUnwrapSol` is true, every other flag is false and every option is `None` (lines 201-222). |
| TransactionConfig.DecodeFillsFromDefault | jupiter-swap-api-client/src/transaction_config.rs:138-223 | An object decodes exactly when no field repeats and every present field decodes. Each field then holds its member's decoded value, or the default's value when the member is absent. |
| TransactionConfig.ConfigFromFieldsSpec | jupiter-swap-api-client/src/transaction_config.rs:140-198 | Reading the configuration from the field map succeeds exactly when every field reads. Each configuration field is then that field's reading. |
| TransactionConfig.MembersAgreeWithFields | jupiter-swap-api-client/src/transaction_config.rs:140-198 | When no field repeats, reading any configuration field from the field map is the same as reading it from the first member that carries it. |
| Quote.DefaultSwapMode | jupiter-swap-api-client/src/quote.rs:36-39 | The default mode is what the text `"ExactIn"` parses to. |
| Quote.SwapModeFromStr | jupiter-swap-api-client/src/quote.rs:43-53 | The error message is the input followed by `" is not a valid SwapMode"`. |
| Quote.SwapModeFromStrSpec | jupiter-swap-api-client/src/quote.rs:46-51 | Parsing succeeds exactly on `"ExactIn"` and `"ExactOut"`, and yields the mode of that name. |
| Quote.SwapModeRejectsOtherText | jupiter-swap-api-client/src/quote.rs:50 | Case variants such as `"exactin"` and `"EXACTOUT"`, `"Sideways"` and the empty string fail. `"Sideways"` fails with the message naming it. |
| Quote.EncodeSwapMode | jupiter-swap-api-client/src/quote.rs:36-41 | A mode as its variant name. `SwapModeRoundTrip` ties it to the decoder. |
| Quote.DecodeSwapMode | jupiter-swap-api-client/src/quote.rs:36-41 | The derived decoder of the unit-only enum. `DecodeSwapModeAgreesWithFromStr` characterises it against the text parser. |
| Quote.DecodeSwapModeAgreesWithFromStr | jupiter-swap-api-client/src/quote.rs:36-53 | On a JSON string the derived decoder accepts exactly what the text parser accepts, and yields the same mode. Otherwise it reports the unknown variant. |
| Quote.SwapModeRoundTrip | jupiter-swap-api-client/src/quote.rs:36-41 | Every mode decodes back from its encoding. |
| Quote.Project | jupiter-swap-api-client/src/quote.rs:166-190 | The `From` conversion, field by field. `ProjectionLosesOnlyExtras`, `ProjectionIsOnto` and `ProjectionForgetsExactlyExtras` state its contract. |
| Quote.ProjectionLosesOnlyExtras | jupiter-swap-api-client/src/quote.rs:166-190 | The internal request, together with the four dropped fields, rebuilds the original request. `Project` and `Embed` name every field, so each shared field is copied unchanged into the field of the same name. |
| Quote.ProjectionIsOnto | jupiter-swap-api-client/src/quote.rs:166-190 | Every internal request is the projection of a request, and the extra fields can be anything. |
| Quote.ProjectionForgetsExactlyExtras | jupiter-swap-api-client/src/quote.rs:103-113 | Two requests project to the same internal request exactly when they differ at most in `quoteArgs`, `computeUnitScore`, `routingConstraints` and `tokenCategoryBasedIntermediateTokens`. |
| Quote.ProjectDefault | jupiter-swap-api-client/src/quote.rs:60-190 | The default request projects to the default internal request. |
| Quote.ProjectExample | jupiter-swap-api-client/src/quote.rs:166-190 | A request for 1,000,000 units at 50 basis points, with extras set, projects to the default internal request with those two values. `swapMode` stays unset. |
| Quote.EncodePlatformFee | jupiter-swap-api-client/src/quote.rs:195-201 | The derived encoder, with `amount` as a string. `PlatformFeeRoundTrip` ties it to the decoder. |
| Quote.DecodePlatformFee | jupiter-swap-api-client/src/quote.rs:195-201 | The derived decoder with both fields required. `PlatformFeeRoundTrip` states that it reads back what the encoder wrote. |
| Quote.PlatformFeeRoundTrip | jupiter-swap-api-client/src/quote.rs:195-201 | Whenever the string codec of `u64` amounts round-trips, a platform fee decodes back from its encoding. No other foreign codec is involved. |
| Quote.EncodeQuoteResponse | jupiter-swap-api-client/src/quote.rs:203-230 | The derived encoder with two skipped `None` fields. `QuoteResponseKeys`, `EncodedKeysDistinct` and `QuoteResponseRoundTrip` state its contract. |
| Quote.DecodeQuoteResponse | jupiter-swap-api-client/src/quote.rs:203-230 | The derived decoder with `Option` and defaulted fields. `QuoteResponseRoundTrip`, `AbsentFieldsTakeDefaults`, `RequiredFieldsPresent` and `PositionalResponseLength` state its contract. |
| Quote.QuoteResponseKeys | jupiter-swap-api-client/src/quote.rs:219-222 | The encoder writes `computedAutoSlippage` and `usesQuoteMinimizingSlippage` exactly when they hold a value. Every other field is always written, and no other key. |
| Quote.MemberKeys | jupiter-swap-api-client/src/quote.rs:203-230 | The encoder writes the keys in declaration order, without the skipped `None` fields. |
| Quote.EncodedKeysDistinct | jupiter-swap-api-client/src/quote.rs:203-230 | The encoder never writes a key twice. |
| Quote.EncodedFieldMap | jupiter-swap-api-client/src/quote.rs:203-230 | Decoding an encoded response reads every member the encoder wrote, under its own key, and nothing else. |
| Quote.ResponseFromDecodedFields | jupiter-swap-api-client/src/quote.rs:203-230 | When each field reads to a response's value, with the defaults for absent fields, the decoder builds exactly that response. |
| Quote.QuoteResponseRoundTrip | jupiter-swap-api-client/src/quote.rs:203-230 | Under codecs that round-trip (the `f64` codec on finite values only), every response with a finite `timeTaken` decodes back from its encoding, whether or not its optional fields are present. |
| Quote.AbsentFieldsTakeDefaults | jupiter-swap-api-client/src/quote.rs:219-229 | In a decoded object, an absent `contextSlot` is 0 and an absent `timeTaken` is 0.0. An absent `computedAutoSlippage`, `usesQuoteMinimizingSlippage` or `platformFee` is `None`. |
| Quote.RequiredFieldsPresent | jupiter-swap-api-client/src/quote.rs:205-225 | An object decodes only when all seven leading fields and `priceImpactPct` and `routePlan` are present. |
| Quote.ResponseFromFieldsSpec | jupiter-swap-api-client/src/quote.rs:205-229 | Reading the response from a field map succeeds only when every field without a default is present. It gives the defaults for the absent defaulted and `Option` fields. |
| Quote.PositionalResponseLength | jupiter-swap-api-client/src/quote.rs:203-230 | The positional form fails with fewer than the twelve fields without a default, or with more than fourteen elements. |

## Left out

- Floating point: `f64` values (`time_taken`, `max_penalty_bps`) are opaque bit patterns behind a codec. JSON numbers with a fraction are not represented.
- `price_impact_pct` is an opaque decimal behind a codec. The arbitrary-precision decimal library is not part of this model.
- The `field_as_string` and `option_field_as_string` helpers are passed in as functions. Their module, `serde_helpers`, is not part of this model. So are base-58 `Pubkey` text and the route plan type, `RoutePlanWithMetadata`.
- `KeyedUiAccount`: its flattened `UiAccount` members and its opaque `params` come in through a decoder function. The flatten merge is not modelled.
- `SwapInfo` (quote.rs:13-34) is not modelled. It is only reachable through the route plan, which is outside the model.
- The derived encoders of `QuoteRequest`, `InternalQuoteRequest` and `TransactionConfig` are not modelled. The HTTP client that sends them is not part of this model, and only decoding of the configuration is in scope.
- QuoteResponseRoundTrip: a response whose `time_taken` is NaN or infinite does not round-trip. serde_json writes such a value as `null`, which an `f64` field rejects, so the lemma requires a finite `timeTaken`.
- RoundTrips: exact re-reading of a finite `f64` is assumed. serde_json guarantees it only with its `float_roundtrip` feature, and whether the client enables that is not part of this model.
- `quote_args` is a map that the model never inspects.
- `usize` is modelled as a 64-bit unsigned integer.
- Serde's generic deserializer machinery, and the exact text of its error messages, are not modelled. Only the accept/reject behaviour and the decoded values are.
- DecodeTransactionConfig: which error is reported when an input has several faults is not modelled. A repeated field is found before any value is decoded, whereas serde stops at the first fault in wire order. Whether decoding succeeds, and the decoded value, are exact.
- DecodeQuoteResponse: as for `DecodeTransactionConfig`, the identity of the error is not modelled when an input has several faults.
- DecodePrioritizationFee: the error is always `NoVariantMatched`, which stands for serde's single "data did not match any variant" error. The inner cause is not kept.

## Findings

| source | as written | input that shows it | evidently intended | confidence | as-written member | corrected member |
|---|---|---|---|---|---|---|
| jupiter-swap-api-client/src/transaction_config.rs:8-15 | The derived untagged `Serialize` writes the unit variant `Auto` as `null`. The decoder accepts only a `u64` or `"auto"` there. | `ComputeUnitPriceMicroLamports::Auto` on its own encodes to `null`, and decoding `null` fails. Inside a config the field is an `Option`, so `Some(Auto)` reads back as `None` and the requested automatic price is silently dropped (`TransactionConfig.AutoInConfigReadsAsNone`). | `Auto` is written as `"auto"` (`TransactionConfig.EncodeComputeUnitPriceIntended`), so that every value round-trips. | medium, not executed | TransactionConfig.AutoComputeUnitPriceDoesNotRoundTrip | TransactionConfig.IntendedComputeUnitPriceRoundTrip |
