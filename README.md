# CreditChain release-builder, VM wrapper, storage errors, version and indexer constants

This project models five small pieces of the CreditChain node software in Dafny and
proves properties of them.

- **Feature-flag requests of the release builder.** A `Features` request lists the flags a
  governance proposal enables and the flags it disables. The model covers:
  - `squash`, which folds a later request into an earlier one;
  - `is_empty`;
  - `has_modified`, which compares a request with the on-chain feature set;
  - reading the on-chain feature set back into a request;
  - the two conversions between the release builder's `FeatureFlag` enum and the on-chain one;
  - `generate_features_blob`, which writes flag numbers as a Move `vector[...]` literal,
    twenty to a line.
- **`execute_transaction` of the block executor's VM wrapper.** It turns the VM's result
  for one transaction into an `ExecutionStatus`:
  - speculative abort;
  - delayed-field invariant error;
  - skip-rest on reconfiguration;
  - success, guarded by an assertion that direct-write-set genesis transactions never get
    here;
  - abort.
- **The `CreditChainDbError` type of the storage interface.** The model covers its display
  texts, the conversions from foreign errors, and the two conversions to and from
  `StateViewError`.
- **`CreditChainVersion`.** It has a derived order and named release constants.
- **The indexer SDK's constants.** These are the coin's Move type string and the LBT
  metadata address, both raw and in hex.

Modules:
- `Common`: `u8`/`u64`, `Option`, decimal rendering, and the hash-set-to-list helper.
- `FeatureFlagEnum`: both flag enums and the conversions between them.
- `FeatureFlags`: `Features`, squash, `has_modified`, the code writer and the blob.
- `VmWrapper`, `StorageErrors`, `ChainVersion`, `IndexerConstants`.

Representation choices:
- **Fieldless enums.** Each is modelled by its variant index: a bounded integer type with
  one named constant per variant.
  - For the release builder's `FeatureFlag`, the index is the declaration position, which
    is its Rust discriminant.
  - The on-chain enum's declaration is not part of this model. Its variants are numbered
    in the order the reverse conversion lists them.
  - On-chain names that begin with an underscore (deprecated flags) drop the underscore.
- **The code writer.** It is a foreign component, modelled as the list of requests it
  receives: text, line break, indent, unindent. `Render` gives the text of the lines those
  requests produce, without the indentation.
- **Hash sets.** A Rust `HashSet` collected into a `Vec` becomes a list holding each
  element once, in an unspecified order.

## Model

| member | source | states |
|---|---|---|
| FeatureFlagEnum.ToOnChain | creditchain-move/creditchain-release-builder/src/components/feature_flags.rs:230-400 | the forward match, one arm per release-builder flag; what it promises is stated by `FromOnChainOfToOnChain`, `ToOnChainOfFromOnChain` and `ToOnChainBijective` |
| FeatureFlagEnum.FromOnChain | creditchain-move/creditchain-release-builder/src/components/feature_flags.rs:402-573 | the reverse match, one arm per on-chain flag and no wildcard; the same three lemmas state that it inverts `ToOnChain` |
| FeatureFlagEnum.AllFlags | creditchain-move/creditchain-release-builder/src/components/feature_flags.rs:51-152 | the flags in declaration order, which `FeatureFlag::iter()` yields: 97 of them, the flag at position `i` being the one with discriminant `i`; `AllFlagsEnumeratesEachOnce` adds that each flag appears exactly once |
| FeatureFlagEnum.FromOnChainOfToOnChain | creditchain-move/creditchain-release-builder/src/components/feature_flags.rs:230-573 | converting a release-builder flag to the on-chain flag and back gives the same flag |
| FeatureFlagEnum.ToOnChainOfFromOnChain | creditchain-move/creditchain-release-builder/src/components/feature_flags.rs:402-573 | every on-chain flag converts to a release-builder flag that converts back to it (the mapping is exhaustive and 1-1, as the comment on the reverse impl intends) |
| FeatureFlagEnum.ToOnChainBijective | creditchain-move/creditchain-release-builder/src/components/feature_flags.rs:230-573 | distinct flags map to distinct on-chain flags, and `ToOnChain(f) == g` exactly when `f` is the reverse conversion of `g` |
| FeatureFlagEnum.AllFlagsEnumeratesEachOnce | creditchain-move/creditchain-release-builder/src/components/feature_flags.rs:51-152 | `FeatureFlag::iter()` yields all 97 flags, each exactly once, each at its declaration position |
| FeatureFlags.SquashSets | creditchain-move/creditchain-release-builder/src/components/feature_flags.rs:30-44 | a flag the later request disables ends disabled (even if it also enables it); one it only enables ends enabled; unmentioned flags keep their place; no flag is lost; the lists overlap only on old overlaps the later request leaves alone |
| FeatureFlags.SquashAssociative | creditchain-move/creditchain-release-builder/src/components/feature_flags.rs:30-44 | squashing `a` then `b` equals squashing `a.squash(b)` in one step |
| FeatureFlags.SquashIdempotent | creditchain-move/creditchain-release-builder/src/components/feature_flags.rs:30-44 | squashing the same request twice equals squashing it once |
| FeatureFlags.SquashEmptyIsIdentity | creditchain-move/creditchain-release-builder/src/components/feature_flags.rs:23-48 | squashing a request that mentions no flag changes nothing |
| FeatureFlags.Features.Empty | creditchain-move/creditchain-release-builder/src/components/feature_flags.rs:23-28 | both lists are empty and `IsEmpty` holds |
| FeatureFlags.Features.Squash | creditchain-move/creditchain-release-builder/src/components/feature_flags.rs:30-44 | the new lists hold exactly the sets `SquashSets` gives for the old lists and `rhs`, each flag once |
| FeatureFlags.Features.IsEmpty | creditchain-move/creditchain-release-builder/src/components/feature_flags.rs:46-48 | true exactly when the request mentions no flag |
| FeatureFlags.Features.HasModified | creditchain-move/creditchain-release-builder/src/components/feature_flags.rs:575-586 | false exactly when every enabled flag is enabled on chain and every disabled flag is disabled on chain |
| FeatureFlags.Features.FromOnChain | creditchain-move/creditchain-release-builder/src/components/feature_flags.rs:588-601 | a flag is in `enabled` exactly when it is enabled on chain and in `disabled` exactly when not; both lists are in declaration order; the result is not modified with respect to that state |
| FeatureFlags.UnmodifiedIffSquashIsNoOp | creditchain-move/creditchain-release-builder/src/components/feature_flags.rs:575-601 | an unmodified request squashed into the on-chain state changes nothing; for a request that never both enables and disables one flag, the converse holds too |
| FeatureFlags.GenerateFeaturesBlob | creditchain-move/creditchain-release-builder/src/components/feature_flags.rs:154-170 | the writer receives the header, one separator and one `n,` item per element, and the footer, appended to what it held |
| FeatureFlags.ItemLayout | creditchain-move/creditchain-release-builder/src/components/feature_flags.rs:154-168 | the header and items render as `vector[` followed by the item lines, line `j` holding items `20j` to `20j+19` separated by spaces (an empty line for no items) |
| FeatureFlags.BlobLayout | creditchain-move/creditchain-release-builder/src/components/feature_flags.rs:154-170 | the whole blob renders as `vector[`, the item lines, and `]` on a line of its own |
| VmWrapper.IsDynamicChangeSetCapable | creditchain-move/creditchain-vm/src/block_executor/vm_wrapper.rs:113-123 | false for a valid genesis transaction with a `Direct` write set payload, and only for it; true for every invalid transaction |
| VmWrapper.ClassifyCode | creditchain-move/creditchain-vm/src/block_executor/vm_wrapper.rs:69-78 | the speculative-abort code maps to `SpeculativeExecutionAbortError` and the delayed-field invariant code to `DelayedFieldsCodeInvariantError`, each carrying the message or the empty string; every other code maps to nothing |
| VmWrapper.ExecuteTransaction | creditchain-move/creditchain-vm/src/block_executor/vm_wrapper.rs:43-111 | speculative-abort and invariant codes win in both branches; `SkipRest` exactly on restart, `Success` exactly on a capable transaction without restart, a panic exactly on a non-capable one, `Abort` exactly for other errors; outputs and errors are carried unchanged |
| VmWrapper.DiscardedOnlyLogged | creditchain-move/creditchain-vm/src/block_executor/vm_wrapper.rs:62-68 | the discarded flag of the VM output does not change the classification |
| StorageErrors.Display | storage/storage-interface/src/errors.rs:14-35 | the `#[error]` templates: a `NotFound` text starts with its message, every other string-carrying variant's text ends with its message; `TooManyRequestedDisplayInjective` shows the numeric template determines its numbers |
| StorageErrors.FromForeign | storage/storage-interface/src/errors.rs:38-66 | anyhow and parse-int errors become `Other`, bcs, recv and io errors their own variants; the message is the foreign error's text; `ParseIntError` is never produced |
| StorageErrors.ToStateViewError | storage/storage-interface/src/errors.rs:68-76 | `NotFound` and `Other` keep their message; every other variant becomes `Other` of its display text |
| StorageErrors.FromStateViewError | storage/storage-interface/src/errors.rs:78-86 | each state-view variant maps to the same-named storage variant with its message |
| StorageErrors.StorageRoundTrip | storage/storage-interface/src/errors.rs:68-86 | storage to state view and back is the identity exactly on `NotFound` and `Other` |
| StorageErrors.StateViewRoundTrip | storage/storage-interface/src/errors.rs:68-86 | state view to storage and back is the identity exactly when the error is not a bcs error, which comes back as `Other` of the display text |
| StorageErrors.TooManyRequestedDisplayInjective | storage/storage-interface/src/errors.rs:17-18 | the "too many items" message determines both numbers it reports |
| StorageErrors.CollapsedVariantsIndistinguishable | storage/storage-interface/src/errors.rs:68-76 | a `BcsError` and an `Other` holding its display text are different errors with the same state-view error |
| ChainVersion.Compare | types/src/on_chain_config/creditchain_version.rs:8-11 | the derived ordering compares `major`: equal exactly when the versions are equal |
| ChainVersion.CompareIsTotalOrder | types/src/on_chain_config/creditchain_version.rs:8-11 | the derived order is reflexive, total, antisymmetric and transitive |
| ChainVersion.KnownVersionsOrdered | types/src/on_chain_config/creditchain_version.rs:21-34 | versions 2, 3 and 4 are strictly increasing and the maximum known version is 4 |
| IndexerConstants.JoinSplit | ecosystem/indexer-processor-sdk/src/utils/constants.rs:9 | the helper that splits a type string on `::` drops no text: joining its parts back gives the string (that it cuts at every `::` is stated by the lemmas behind `CoinTypeParts`) |
| IndexerConstants.CoinTypeParts | ecosystem/indexer-processor-sdk/src/utils/constants.rs:9 | the coin type string names address `0x1`, module `creditchain_coin`, struct `CreditChainCoin` |
| IndexerConstants.LbtMetadataAddressRaw | ecosystem/indexer-processor-sdk/src/utils/constants.rs:11-15 | 32 bytes, all zero but the last, which is 10 |
| IndexerConstants.HexEncode | ecosystem/indexer-processor-sdk/src/utils/constants.rs:17-18 | two lowercase hex digits per byte, high nibble first |
| IndexerConstants.LbtMetadataAddressHex | ecosystem/indexer-processor-sdk/src/utils/constants.rs:17-18 | `0x`, sixty-two zeros, then `0a` |
| Common.ParseDecimalOfDecimal | storage/storage-interface/src/errors.rs:17-20 | the decimal text of a number reads back as that number |

## Left out

- The `fail_point!` hook at the start of `execute_transaction` is a test-only injection and is not modelled.
- Logging in `execute_transaction` is not modelled: the discard trace and the reconfiguration info message.
- `CreditChainVM::execute_single_transaction` is foreign and becomes an input, `VMResult`. The same holds for `should_restart_execution`, which becomes the output's `restartRequired` flag.
- `ExecutionStatus` variants the wrapper never produces are not modelled.
- The VM's `StatusCode` enum is reduced to its two special codes plus "any other code".
- The panic of the `assert!` in `execute_transaction` is modelled as a `Panicked` outcome carrying the assertion message.
- The on-chain `Features` bitmap and its `is_enabled` are not modelled. The on-chain state is a set of enabled on-chain flags, because `types`' `Features` is not part of this model.
- The on-chain enum's own discriminants, used by the `as u64` cast, are not modelled. `generate_features_blob` takes the numbers as given.
- `generate_feature_upgrade_proposal` and the governance-proposal text around the blob are not modelled.
- The indentation `CodeWriter` adds to each line is not modelled. `Render` drops it, and `indent`/`unindent` are only recorded. `CodeWriter` belongs to the Move compiler.
- Serde attributes and (de)serialization of `Features` and `FeatureFlag` are not modelled.
- `Lazy` initialisation of the indexer statics is not modelled. Each static is a method that builds its value once per call.
- `hex::encode` is modelled directly by `HexEncode`. The `hex` crate is not part of this model.
- The foreign error types of the storage errors are not modelled. `anyhow::Error`, `bcs::Error`, `RecvError`, `io::Error` and `ParseIntError` are each reduced to their display text.
- `OnChainConfig`'s identifiers for `CreditChainVersion` are not modelled. They are used only by the config loader.
- FeatureFlagEnum.ToOnChain: the arms of the forward match are listed by discriminant in blocks of twenty, not in the source's arm order. The mapping is the same.
