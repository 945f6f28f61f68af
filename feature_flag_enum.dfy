/** The two feature-flag enums of the release builder: its own `FeatureFlag`, the
    on-chain `FeatureFlag` it converts to and from, the two conversions between them,
    and the declaration order in which `FeatureFlag::iter()` lists the flags.

    Both enums are fieldless, so each is modelled by its variant index: a value of a
    bounded integer type with one named constant per variant. The release builder's
    index is the variant's position in its declaration (its Rust discriminant). The
    on-chain enum's declaration is not part of this model; its variants are numbered
    in the order the reverse conversion lists them, which is not claimed to be its
    discriminant. On-chain variant names that start with an underscore in the source
    (deprecated flags such as `_DEPRECATED_RECONFIGURE_WITH_DKG`) drop it here. */
module FeatureFlagEnum {
  import opened Common

  /** Number of variants in each of the two enums. */
  const FLAG_COUNT := 97

  /** The release builder's flags: a variant is its declaration position. */
  newtype FeatureFlag = i: int | 0 <= i < 97

  /** The on-chain flags, numbered in the order the reverse conversion lists them. */
  newtype OnChainFeatureFlag = i: int | 0 <= i < 97

  // The release builder's variants, in declaration order.
  const CodeDependencyCheck: FeatureFlag := 0
  const CollectAndDistributeGasFees: FeatureFlag := 1
  const TreatFriendAsPrivate: FeatureFlag := 2
  const Sha512AndRipeMd160Natives: FeatureFlag := 3
  const CreditChainStdChainIdNatives: FeatureFlag := 4
  const VMBinaryFormatV6: FeatureFlag := 5
  const MultiEd25519PkValidateV2Natives: FeatureFlag := 6
  const Blake2b256Native: FeatureFlag := 7
  const ResourceGroups: FeatureFlag := 8
  const MultisigAccounts: FeatureFlag := 9
  const DelegationPools: FeatureFlag := 10
  const CryptographyAlgebraNatives: FeatureFlag := 11
  const Bls12381Structures: FeatureFlag := 12
  const Ed25519PubkeyValidateReturnFalseWrongLength: FeatureFlag := 13
  const StructConstructors: FeatureFlag := 14
  const PeriodicalRewardRateReduction: FeatureFlag := 15
  const PartialGovernanceVoting: FeatureFlag := 16
  const SignatureCheckerV2: FeatureFlag := 17
  const StorageSlotMetadata: FeatureFlag := 18
  const ChargeInvariantViolation: FeatureFlag := 19
  const DelegationPoolPartialGovernanceVoting: FeatureFlag := 20
  const GasPayerEnabled: FeatureFlag := 21
  const CreditChainUniqueIdentifiers: FeatureFlag := 22
  const BulletproofsNatives: FeatureFlag := 23
  const SignerNativeFormatFix: FeatureFlag := 24
  const ModuleEvent: FeatureFlag := 25
  const EmitFeeStatement: FeatureFlag := 26
  const StorageDeletionRefund: FeatureFlag := 27
  const AggregatorV2Api: FeatureFlag := 28
  const SignatureCheckerV2ScriptFix: FeatureFlag := 29
  const SaferResourceGroups: FeatureFlag := 30
  const SaferMetadata: FeatureFlag := 31
  const SingleSenderAuthenticator: FeatureFlag := 32
  const SponsoredAutomaticAccountCreation: FeatureFlag := 33
  const FeePayerAccountOptional: FeatureFlag := 34
  const AggregatorV2DelayedFields: FeatureFlag := 35
  const ConcurrentTokenV2: FeatureFlag := 36
  const LimitMaxIdentifierLength: FeatureFlag := 37
  const OperatorBeneficiaryChange: FeatureFlag := 38
  const VMBinaryFormatV7: FeatureFlag := 39
  const ResourceGroupsSplitInVmChangeSet: FeatureFlag := 40
  const CommissionChangeDelegationPool: FeatureFlag := 41
  const Bn254Structures: FeatureFlag := 42
  const WebAuthnSignature: FeatureFlag := 43
  const ReconfigureWithDkg: FeatureFlag := 44
  const KeylessAccounts: FeatureFlag := 45
  const KeylessButZklessAccounts: FeatureFlag := 46
  const RemoveDetailedError: FeatureFlag := 47
  const JwkConsensus: FeatureFlag := 48
  const ConcurrentFungibleAssets: FeatureFlag := 49
  const RefundableBytes: FeatureFlag := 50
  const ObjectCodeDeployment: FeatureFlag := 51
  const MaxObjectNestingCheck: FeatureFlag := 52
  const KeylessAccountsWithPasskeys: FeatureFlag := 53
  const MultisigV2Enhancement: FeatureFlag := 54
  const DelegationPoolAllowlisting: FeatureFlag := 55
  const ModuleEventMigration: FeatureFlag := 56
  const RejectUnstableBytecode: FeatureFlag := 57
  const TransactionContextExtension: FeatureFlag := 58
  const CoinToFungibleAssetMigration: FeatureFlag := 59
  const PrimaryAPTFungibleStoreAtUserAddress: FeatureFlag := 60
  const ObjectNativeDerivedAddress: FeatureFlag := 61
  const DispatchableFungibleAsset: FeatureFlag := 62
  const NewAccountsDefaultToFaAptStore: FeatureFlag := 63
  const OperationsDefaultToFaAptStore: FeatureFlag := 64
  const AggregatorV2IsAtLeastApi: FeatureFlag := 65
  const ConcurrentFungibleBalance: FeatureFlag := 66
  const DefaultToConcurrentFungibleBalance: FeatureFlag := 67
  const LimitVMTypeSize: FeatureFlag := 68
  const AbortIfMultisigPayloadMismatch: FeatureFlag := 69
  const DisallowUserNative: FeatureFlag := 70
  const AllowSerializedScriptArgs: FeatureFlag := 71
  const UseCompatibilityCheckerV2: FeatureFlag := 72
  const EnableEnumTypes: FeatureFlag := 73
  const EnableResourceAccessControl: FeatureFlag := 74
  const RejectUnstableBytecodeForScript: FeatureFlag := 75
  const FederatedKeyless: FeatureFlag := 76
  const TransactionSimulationEnhancement: FeatureFlag := 77
  const CollectionOwner: FeatureFlag := 78
  const NativeMemoryOperations: FeatureFlag := 79
  const EnableLoaderV2: FeatureFlag := 80
  const DisallowInitModuleToPublishModules: FeatureFlag := 81
  const EnableCallTreeAndInstructionVMCache: FeatureFlag := 82
  const PermissionedSigner: FeatureFlag := 83
  const AccountAbstraction: FeatureFlag := 84
  const VMBinaryFormatV8: FeatureFlag := 85
  const BulletproofsBatchNatives: FeatureFlag := 86
  const DerivableAccountAbstraction: FeatureFlag := 87
  const EnableFunctionValues: FeatureFlag := 88
  const NewAccountsDefaultToFaStore: FeatureFlag := 89
  const DefaultAccountResource: FeatureFlag := 90
  const JwkConsensusPerKeyMode: FeatureFlag := 91
  const TransactionPayloadV2: FeatureFlag := 92
  const OrderlessTransactions: FeatureFlag := 93
  const EnableLazyLoading: FeatureFlag := 94
  const CalculateTransactionFeeForDistribution: FeatureFlag := 95
  const DistributeTransactionFee: FeatureFlag := 96

  // The on-chain variants this model knows of.
  const CODE_DEPENDENCY_CHECK: OnChainFeatureFlag := 0
  const DEPRECATED_COLLECT_AND_DISTRIBUTE_GAS_FEES: OnChainFeatureFlag := 1
  const TREAT_FRIEND_AS_PRIVATE: OnChainFeatureFlag := 2
  const SHA_512_AND_RIPEMD_160_NATIVES: OnChainFeatureFlag := 3
  const CREDITCHAIN_STD_CHAIN_ID_NATIVES: OnChainFeatureFlag := 4
  const VM_BINARY_FORMAT_V6: OnChainFeatureFlag := 5
  const VM_BINARY_FORMAT_V7: OnChainFeatureFlag := 6
  const VM_BINARY_FORMAT_V8: OnChainFeatureFlag := 7
  const MULTI_ED25519_PK_VALIDATE_V2_NATIVES: OnChainFeatureFlag := 8
  const BLAKE2B_256_NATIVE: OnChainFeatureFlag := 9
  const RESOURCE_GROUPS: OnChainFeatureFlag := 10
  const MULTISIG_ACCOUNTS: OnChainFeatureFlag := 11
  const DELEGATION_POOLS: OnChainFeatureFlag := 12
  const CRYPTOGRAPHY_ALGEBRA_NATIVES: OnChainFeatureFlag := 13
  const BLS12_381_STRUCTURES: OnChainFeatureFlag := 14
  const ED25519_PUBKEY_VALIDATE_RETURN_FALSE_WRONG_LENGTH: OnChainFeatureFlag := 15
  const STRUCT_CONSTRUCTORS: OnChainFeatureFlag := 16
  const PERIODICAL_REWARD_RATE_DECREASE: OnChainFeatureFlag := 17
  const PARTIAL_GOVERNANCE_VOTING: OnChainFeatureFlag := 18
  const SIGNATURE_CHECKER_V2: OnChainFeatureFlag := 19
  const STORAGE_SLOT_METADATA: OnChainFeatureFlag := 20
  const CHARGE_INVARIANT_VIOLATION: OnChainFeatureFlag := 21
  const DELEGATION_POOL_PARTIAL_GOVERNANCE_VOTING: OnChainFeatureFlag := 22
  const GAS_PAYER_ENABLED: OnChainFeatureFlag := 23
  const CREDITCHAIN_UNIQUE_IDENTIFIERS: OnChainFeatureFlag := 24
  const BULLETPROOFS_NATIVES: OnChainFeatureFlag := 25
  const SIGNER_NATIVE_FORMAT_FIX: OnChainFeatureFlag := 26
  const MODULE_EVENT: OnChainFeatureFlag := 27
  const EMIT_FEE_STATEMENT: OnChainFeatureFlag := 28
  const STORAGE_DELETION_REFUND: OnChainFeatureFlag := 29
  const AGGREGATOR_V2_API: OnChainFeatureFlag := 30
  const SIGNATURE_CHECKER_V2_SCRIPT_FIX: OnChainFeatureFlag := 31
  const SAFER_RESOURCE_GROUPS: OnChainFeatureFlag := 32
  const SAFER_METADATA: OnChainFeatureFlag := 33
  const SINGLE_SENDER_AUTHENTICATOR: OnChainFeatureFlag := 34
  const SPONSORED_AUTOMATIC_ACCOUNT_V1_CREATION: OnChainFeatureFlag := 35
  const FEE_PAYER_ACCOUNT_OPTIONAL: OnChainFeatureFlag := 36
  const AGGREGATOR_V2_DELAYED_FIELDS: OnChainFeatureFlag := 37
  const CONCURRENT_TOKEN_V2: OnChainFeatureFlag := 38
  const LIMIT_MAX_IDENTIFIER_LENGTH: OnChainFeatureFlag := 39
  const OPERATOR_BENEFICIARY_CHANGE: OnChainFeatureFlag := 40
  const RESOURCE_GROUPS_SPLIT_IN_VM_CHANGE_SET: OnChainFeatureFlag := 41
  const COMMISSION_CHANGE_DELEGATION_POOL: OnChainFeatureFlag := 42
  const BN254_STRUCTURES: OnChainFeatureFlag := 43
  const WEBAUTHN_SIGNATURE: OnChainFeatureFlag := 44
  const DEPRECATED_RECONFIGURE_WITH_DKG: OnChainFeatureFlag := 45
  const KEYLESS_ACCOUNTS: OnChainFeatureFlag := 46
  const KEYLESS_BUT_ZKLESS_ACCOUNTS: OnChainFeatureFlag := 47
  const DEPRECATED_REMOVE_DETAILED_ERROR_FROM_HASH: OnChainFeatureFlag := 48
  const JWK_CONSENSUS: OnChainFeatureFlag := 49
  const CONCURRENT_FUNGIBLE_ASSETS: OnChainFeatureFlag := 50
  const REFUNDABLE_BYTES: OnChainFeatureFlag := 51
  const OBJECT_CODE_DEPLOYMENT: OnChainFeatureFlag := 52
  const MAX_OBJECT_NESTING_CHECK: OnChainFeatureFlag := 53
  const KEYLESS_ACCOUNTS_WITH_PASSKEYS: OnChainFeatureFlag := 54
  const MULTISIG_V2_ENHANCEMENT: OnChainFeatureFlag := 55
  const DELEGATION_POOL_ALLOWLISTING: OnChainFeatureFlag := 56
  const MODULE_EVENT_MIGRATION: OnChainFeatureFlag := 57
  const REJECT_UNSTABLE_BYTECODE: OnChainFeatureFlag := 58
  const TRANSACTION_CONTEXT_EXTENSION: OnChainFeatureFlag := 59
  const COIN_TO_FUNGIBLE_ASSET_MIGRATION: OnChainFeatureFlag := 60
  const PRIMARY_LBT_FUNGIBLE_STORE_AT_USER_ADDRESS: OnChainFeatureFlag := 61
  const OBJECT_NATIVE_DERIVED_ADDRESS: OnChainFeatureFlag := 62
  const DISPATCHABLE_FUNGIBLE_ASSET: OnChainFeatureFlag := 63
  const NEW_ACCOUNTS_DEFAULT_TO_FA_LBT_STORE: OnChainFeatureFlag := 64
  const OPERATIONS_DEFAULT_TO_FA_LBT_STORE: OnChainFeatureFlag := 65
  const AGGREGATOR_V2_IS_AT_LEAST_API: OnChainFeatureFlag := 66
  const CONCURRENT_FUNGIBLE_BALANCE: OnChainFeatureFlag := 67
  const DEFAULT_TO_CONCURRENT_FUNGIBLE_BALANCE: OnChainFeatureFlag := 68
  const LIMIT_VM_TYPE_SIZE: OnChainFeatureFlag := 69
  const ABORT_IF_MULTISIG_PAYLOAD_MISMATCH: OnChainFeatureFlag := 70
  const DISALLOW_USER_NATIVES: OnChainFeatureFlag := 71
  const ALLOW_SERIALIZED_SCRIPT_ARGS: OnChainFeatureFlag := 72
  const USE_COMPATIBILITY_CHECKER_V2: OnChainFeatureFlag := 73
  const ENABLE_ENUM_TYPES: OnChainFeatureFlag := 74
  const ENABLE_RESOURCE_ACCESS_CONTROL: OnChainFeatureFlag := 75
  const REJECT_UNSTABLE_BYTECODE_FOR_SCRIPT: OnChainFeatureFlag := 76
  const FEDERATED_KEYLESS: OnChainFeatureFlag := 77
  const TRANSACTION_SIMULATION_ENHANCEMENT: OnChainFeatureFlag := 78
  const COLLECTION_OWNER: OnChainFeatureFlag := 79
  const NATIVE_MEMORY_OPERATIONS: OnChainFeatureFlag := 80
  const ENABLE_LOADER_V2: OnChainFeatureFlag := 81
  const DISALLOW_INIT_MODULE_TO_PUBLISH_MODULES: OnChainFeatureFlag := 82
  const ENABLE_CALL_TREE_AND_INSTRUCTION_VM_CACHE: OnChainFeatureFlag := 83
  const PERMISSIONED_SIGNER: OnChainFeatureFlag := 84
  const ACCOUNT_ABSTRACTION: OnChainFeatureFlag := 85
  const BULLETPROOFS_BATCH_NATIVES: OnChainFeatureFlag := 86
  const DERIVABLE_ACCOUNT_ABSTRACTION: OnChainFeatureFlag := 87
  const ENABLE_FUNCTION_VALUES: OnChainFeatureFlag := 88
  const NEW_ACCOUNTS_DEFAULT_TO_FA_STORE: OnChainFeatureFlag := 89
  const DEFAULT_ACCOUNT_RESOURCE: OnChainFeatureFlag := 90
  const JWK_CONSENSUS_PER_KEY_MODE: OnChainFeatureFlag := 91
  const TRANSACTION_PAYLOAD_V2: OnChainFeatureFlag := 92
  const ORDERLESS_TRANSACTIONS: OnChainFeatureFlag := 93
  const ENABLE_LAZY_LOADING: OnChainFeatureFlag := 94
  const CALCULATE_TRANSACTION_FEE_FOR_DISTRIBUTION: OnChainFeatureFlag := 95
  const DISTRIBUTE_TRANSACTION_FEE: OnChainFeatureFlag := 96

  /** `From<FeatureFlag> for CreditChainFeatureFlag`: an exhaustive match with one arm
      per release-builder variant. The arms are listed by discriminant, in blocks of
      twenty, so that the verifier only unfolds the block a flag falls in. */
  function ToOnChain(f: FeatureFlag): OnChainFeatureFlag
  {
    if f < 20 then ToOnChainBlock0(f) else
    if f < 40 then ToOnChainBlock1(f) else
    if f < 60 then ToOnChainBlock2(f) else
    if f < 80 then ToOnChainBlock3(f) else
    ToOnChainBlock4(f)
  }

  function ToOnChainBlock0(f: FeatureFlag): OnChainFeatureFlag
    requires 0 <= f < 20
  {
    if f == CodeDependencyCheck then CODE_DEPENDENCY_CHECK else
    if f == CollectAndDistributeGasFees then DEPRECATED_COLLECT_AND_DISTRIBUTE_GAS_FEES else
    if f == TreatFriendAsPrivate then TREAT_FRIEND_AS_PRIVATE else
    if f == Sha512AndRipeMd160Natives then SHA_512_AND_RIPEMD_160_NATIVES else
    if f == CreditChainStdChainIdNatives then CREDITCHAIN_STD_CHAIN_ID_NATIVES else
    if f == VMBinaryFormatV6 then VM_BINARY_FORMAT_V6 else
    if f == MultiEd25519PkValidateV2Natives then MULTI_ED25519_PK_VALIDATE_V2_NATIVES else
    if f == Blake2b256Native then BLAKE2B_256_NATIVE else
    if f == ResourceGroups then RESOURCE_GROUPS else
    if f == MultisigAccounts then MULTISIG_ACCOUNTS else
    if f == DelegationPools then DELEGATION_POOLS else
    if f == CryptographyAlgebraNatives then CRYPTOGRAPHY_ALGEBRA_NATIVES else
    if f == Bls12381Structures then BLS12_381_STRUCTURES else
    if f == Ed25519PubkeyValidateReturnFalseWrongLength then ED25519_PUBKEY_VALIDATE_RETURN_FALSE_WRONG_LENGTH else
    if f == StructConstructors then STRUCT_CONSTRUCTORS else
    if f == PeriodicalRewardRateReduction then PERIODICAL_REWARD_RATE_DECREASE else
    if f == PartialGovernanceVoting then PARTIAL_GOVERNANCE_VOTING else
    if f == SignatureCheckerV2 then SIGNATURE_CHECKER_V2 else
    if f == StorageSlotMetadata then STORAGE_SLOT_METADATA else
    CHARGE_INVARIANT_VIOLATION
  }

  function ToOnChainBlock1(f: FeatureFlag): OnChainFeatureFlag
    requires 20 <= f < 40
  {
    if f == DelegationPoolPartialGovernanceVoting then DELEGATION_POOL_PARTIAL_GOVERNANCE_VOTING else
    if f == GasPayerEnabled then GAS_PAYER_ENABLED else
    if f == CreditChainUniqueIdentifiers then CREDITCHAIN_UNIQUE_IDENTIFIERS else
    if f == BulletproofsNatives then BULLETPROOFS_NATIVES else
    if f == SignerNativeFormatFix then SIGNER_NATIVE_FORMAT_FIX else
    if f == ModuleEvent then MODULE_EVENT else
    if f == EmitFeeStatement then EMIT_FEE_STATEMENT else
    if f == StorageDeletionRefund then STORAGE_DELETION_REFUND else
    if f == AggregatorV2Api then AGGREGATOR_V2_API else
    if f == SignatureCheckerV2ScriptFix then SIGNATURE_CHECKER_V2_SCRIPT_FIX else
    if f == SaferResourceGroups then SAFER_RESOURCE_GROUPS else
    if f == SaferMetadata then SAFER_METADATA else
    if f == SingleSenderAuthenticator then SINGLE_SENDER_AUTHENTICATOR else
    if f == SponsoredAutomaticAccountCreation then SPONSORED_AUTOMATIC_ACCOUNT_V1_CREATION else
    if f == FeePayerAccountOptional then FEE_PAYER_ACCOUNT_OPTIONAL else
    if f == AggregatorV2DelayedFields then AGGREGATOR_V2_DELAYED_FIELDS else
    if f == ConcurrentTokenV2 then CONCURRENT_TOKEN_V2 else
    if f == LimitMaxIdentifierLength then LIMIT_MAX_IDENTIFIER_LENGTH else
    if f == OperatorBeneficiaryChange then OPERATOR_BENEFICIARY_CHANGE else
    VM_BINARY_FORMAT_V7
  }

  function ToOnChainBlock2(f: FeatureFlag): OnChainFeatureFlag
    requires 40 <= f < 60
  {
    if f == ResourceGroupsSplitInVmChangeSet then RESOURCE_GROUPS_SPLIT_IN_VM_CHANGE_SET else
    if f == CommissionChangeDelegationPool then COMMISSION_CHANGE_DELEGATION_POOL else
    if f == Bn254Structures then BN254_STRUCTURES else
    if f == WebAuthnSignature then WEBAUTHN_SIGNATURE else
    if f == ReconfigureWithDkg then DEPRECATED_RECONFIGURE_WITH_DKG else
    if f == KeylessAccounts then KEYLESS_ACCOUNTS else
    if f == KeylessButZklessAccounts then KEYLESS_BUT_ZKLESS_ACCOUNTS else
    if f == RemoveDetailedError then DEPRECATED_REMOVE_DETAILED_ERROR_FROM_HASH else
    if f == JwkConsensus then JWK_CONSENSUS else
    if f == ConcurrentFungibleAssets then CONCURRENT_FUNGIBLE_ASSETS else
    if f == RefundableBytes then REFUNDABLE_BYTES else
    if f == ObjectCodeDeployment then OBJECT_CODE_DEPLOYMENT else
    if f == MaxObjectNestingCheck then MAX_OBJECT_NESTING_CHECK else
    if f == KeylessAccountsWithPasskeys then KEYLESS_ACCOUNTS_WITH_PASSKEYS else
    if f == MultisigV2Enhancement then MULTISIG_V2_ENHANCEMENT else
    if f == DelegationPoolAllowlisting then DELEGATION_POOL_ALLOWLISTING else
    if f == ModuleEventMigration then MODULE_EVENT_MIGRATION else
    if f == RejectUnstableBytecode then REJECT_UNSTABLE_BYTECODE else
    if f == TransactionContextExtension then TRANSACTION_CONTEXT_EXTENSION else
    COIN_TO_FUNGIBLE_ASSET_MIGRATION
  }

  function ToOnChainBlock3(f: FeatureFlag): OnChainFeatureFlag
    requires 60 <= f < 80
  {
    if f == PrimaryAPTFungibleStoreAtUserAddress then PRIMARY_LBT_FUNGIBLE_STORE_AT_USER_ADDRESS else
    if f == ObjectNativeDerivedAddress then OBJECT_NATIVE_DERIVED_ADDRESS else
    if f == DispatchableFungibleAsset then DISPATCHABLE_FUNGIBLE_ASSET else
    if f == NewAccountsDefaultToFaAptStore then NEW_ACCOUNTS_DEFAULT_TO_FA_LBT_STORE else
    if f == OperationsDefaultToFaAptStore then OPERATIONS_DEFAULT_TO_FA_LBT_STORE else
    if f == AggregatorV2IsAtLeastApi then AGGREGATOR_V2_IS_AT_LEAST_API else
    if f == ConcurrentFungibleBalance then CONCURRENT_FUNGIBLE_BALANCE else
    if f == DefaultToConcurrentFungibleBalance then DEFAULT_TO_CONCURRENT_FUNGIBLE_BALANCE else
    if f == LimitVMTypeSize then LIMIT_VM_TYPE_SIZE else
    if f == AbortIfMultisigPayloadMismatch then ABORT_IF_MULTISIG_PAYLOAD_MISMATCH else
    if f == DisallowUserNative then DISALLOW_USER_NATIVES else
    if f == AllowSerializedScriptArgs then ALLOW_SERIALIZED_SCRIPT_ARGS else
    if f == UseCompatibilityCheckerV2 then USE_COMPATIBILITY_CHECKER_V2 else
    if f == EnableEnumTypes then ENABLE_ENUM_TYPES else
    if f == EnableResourceAccessControl then ENABLE_RESOURCE_ACCESS_CONTROL else
    if f == RejectUnstableBytecodeForScript then REJECT_UNSTABLE_BYTECODE_FOR_SCRIPT else
    if f == FederatedKeyless then FEDERATED_KEYLESS else
    if f == TransactionSimulationEnhancement then TRANSACTION_SIMULATION_ENHANCEMENT else
    if f == CollectionOwner then COLLECTION_OWNER else
    NATIVE_MEMORY_OPERATIONS
  }

  function ToOnChainBlock4(f: FeatureFlag): OnChainFeatureFlag
    requires 80 <= f
  {
    if f == EnableLoaderV2 then ENABLE_LOADER_V2 else
    if f == DisallowInitModuleToPublishModules then DISALLOW_INIT_MODULE_TO_PUBLISH_MODULES else
    if f == EnableCallTreeAndInstructionVMCache then ENABLE_CALL_TREE_AND_INSTRUCTION_VM_CACHE else
    if f == PermissionedSigner then PERMISSIONED_SIGNER else
    if f == AccountAbstraction then ACCOUNT_ABSTRACTION else
    if f == VMBinaryFormatV8 then VM_BINARY_FORMAT_V8 else
    if f == BulletproofsBatchNatives then BULLETPROOFS_BATCH_NATIVES else
    if f == DerivableAccountAbstraction then DERIVABLE_ACCOUNT_ABSTRACTION else
    if f == EnableFunctionValues then ENABLE_FUNCTION_VALUES else
    if f == NewAccountsDefaultToFaStore then NEW_ACCOUNTS_DEFAULT_TO_FA_STORE else
    if f == DefaultAccountResource then DEFAULT_ACCOUNT_RESOURCE else
    if f == JwkConsensusPerKeyMode then JWK_CONSENSUS_PER_KEY_MODE else
    if f == TransactionPayloadV2 then TRANSACTION_PAYLOAD_V2 else
    if f == OrderlessTransactions then ORDERLESS_TRANSACTIONS else
    if f == EnableLazyLoading then ENABLE_LAZY_LOADING else
    if f == CalculateTransactionFeeForDistribution then CALCULATE_TRANSACTION_FEE_FOR_DISTRIBUTION else
    DISTRIBUTE_TRANSACTION_FEE
  }

  /** `From<CreditChainFeatureFlag> for FeatureFlag`: the reverse match, one arm per
      on-chain variant. */
  function FromOnChain(g: OnChainFeatureFlag): FeatureFlag
  {
    if g == CODE_DEPENDENCY_CHECK then CodeDependencyCheck else
    if g == DEPRECATED_COLLECT_AND_DISTRIBUTE_GAS_FEES then CollectAndDistributeGasFees else
    if g == TREAT_FRIEND_AS_PRIVATE then TreatFriendAsPrivate else
    if g == SHA_512_AND_RIPEMD_160_NATIVES then Sha512AndRipeMd160Natives else
    if g == CREDITCHAIN_STD_CHAIN_ID_NATIVES then CreditChainStdChainIdNatives else
    if g == VM_BINARY_FORMAT_V6 then VMBinaryFormatV6 else
    if g == VM_BINARY_FORMAT_V7 then VMBinaryFormatV7 else
    if g == VM_BINARY_FORMAT_V8 then VMBinaryFormatV8 else
    if g == MULTI_ED25519_PK_VALIDATE_V2_NATIVES then MultiEd25519PkValidateV2Natives else
    if g == BLAKE2B_256_NATIVE then Blake2b256Native else
    if g == RESOURCE_GROUPS then ResourceGroups else
    if g == MULTISIG_ACCOUNTS then MultisigAccounts else
    if g == DELEGATION_POOLS then DelegationPools else
    if g == CRYPTOGRAPHY_ALGEBRA_NATIVES then CryptographyAlgebraNatives else
    if g == BLS12_381_STRUCTURES then Bls12381Structures else
    if g == ED25519_PUBKEY_VALIDATE_RETURN_FALSE_WRONG_LENGTH then Ed25519PubkeyValidateReturnFalseWrongLength else
    if g == STRUCT_CONSTRUCTORS then StructConstructors else
    if g == PERIODICAL_REWARD_RATE_DECREASE then PeriodicalRewardRateReduction else
    if g == PARTIAL_GOVERNANCE_VOTING then PartialGovernanceVoting else
    if g == SIGNATURE_CHECKER_V2 then SignatureCheckerV2 else
    if g == STORAGE_SLOT_METADATA then StorageSlotMetadata else
    if g == CHARGE_INVARIANT_VIOLATION then ChargeInvariantViolation else
    if g == DELEGATION_POOL_PARTIAL_GOVERNANCE_VOTING then DelegationPoolPartialGovernanceVoting else
    if g == GAS_PAYER_ENABLED then GasPayerEnabled else
    if g == CREDITCHAIN_UNIQUE_IDENTIFIERS then CreditChainUniqueIdentifiers else
    if g == BULLETPROOFS_NATIVES then BulletproofsNatives else
    if g == SIGNER_NATIVE_FORMAT_FIX then SignerNativeFormatFix else
    if g == MODULE_EVENT then ModuleEvent else
    if g == EMIT_FEE_STATEMENT then EmitFeeStatement else
    if g == STORAGE_DELETION_REFUND then StorageDeletionRefund else
    if g == AGGREGATOR_V2_API then AggregatorV2Api else
    if g == SIGNATURE_CHECKER_V2_SCRIPT_FIX then SignatureCheckerV2ScriptFix else
    if g == SAFER_RESOURCE_GROUPS then SaferResourceGroups else
    if g == SAFER_METADATA then SaferMetadata else
    if g == SINGLE_SENDER_AUTHENTICATOR then SingleSenderAuthenticator else
    if g == SPONSORED_AUTOMATIC_ACCOUNT_V1_CREATION then SponsoredAutomaticAccountCreation else
    if g == FEE_PAYER_ACCOUNT_OPTIONAL then FeePayerAccountOptional else
    if g == AGGREGATOR_V2_DELAYED_FIELDS then AggregatorV2DelayedFields else
    if g == CONCURRENT_TOKEN_V2 then ConcurrentTokenV2 else
    if g == LIMIT_MAX_IDENTIFIER_LENGTH then LimitMaxIdentifierLength else
    if g == OPERATOR_BENEFICIARY_CHANGE then OperatorBeneficiaryChange else
    if g == RESOURCE_GROUPS_SPLIT_IN_VM_CHANGE_SET then ResourceGroupsSplitInVmChangeSet else
    if g == COMMISSION_CHANGE_DELEGATION_POOL then CommissionChangeDelegationPool else
    if g == BN254_STRUCTURES then Bn254Structures else
    if g == WEBAUTHN_SIGNATURE then WebAuthnSignature else
    if g == DEPRECATED_RECONFIGURE_WITH_DKG then ReconfigureWithDkg else
    if g == KEYLESS_ACCOUNTS then KeylessAccounts else
    if g == KEYLESS_BUT_ZKLESS_ACCOUNTS then KeylessButZklessAccounts else
    if g == DEPRECATED_REMOVE_DETAILED_ERROR_FROM_HASH then RemoveDetailedError else
    if g == JWK_CONSENSUS then JwkConsensus else
    if g == CONCURRENT_FUNGIBLE_ASSETS then ConcurrentFungibleAssets else
    if g == REFUNDABLE_BYTES then RefundableBytes else
    if g == OBJECT_CODE_DEPLOYMENT then ObjectCodeDeployment else
    if g == MAX_OBJECT_NESTING_CHECK then MaxObjectNestingCheck else
    if g == KEYLESS_ACCOUNTS_WITH_PASSKEYS then KeylessAccountsWithPasskeys else
    if g == MULTISIG_V2_ENHANCEMENT then MultisigV2Enhancement else
    if g == DELEGATION_POOL_ALLOWLISTING then DelegationPoolAllowlisting else
    if g == MODULE_EVENT_MIGRATION then ModuleEventMigration else
    if g == REJECT_UNSTABLE_BYTECODE then RejectUnstableBytecode else
    if g == TRANSACTION_CONTEXT_EXTENSION then TransactionContextExtension else
    if g == COIN_TO_FUNGIBLE_ASSET_MIGRATION then CoinToFungibleAssetMigration else
    if g == PRIMARY_LBT_FUNGIBLE_STORE_AT_USER_ADDRESS then PrimaryAPTFungibleStoreAtUserAddress else
    if g == OBJECT_NATIVE_DERIVED_ADDRESS then ObjectNativeDerivedAddress else
    if g == DISPATCHABLE_FUNGIBLE_ASSET then DispatchableFungibleAsset else
    if g == NEW_ACCOUNTS_DEFAULT_TO_FA_LBT_STORE then NewAccountsDefaultToFaAptStore else
    if g == OPERATIONS_DEFAULT_TO_FA_LBT_STORE then OperationsDefaultToFaAptStore else
    if g == AGGREGATOR_V2_IS_AT_LEAST_API then AggregatorV2IsAtLeastApi else
    if g == CONCURRENT_FUNGIBLE_BALANCE then ConcurrentFungibleBalance else
    if g == DEFAULT_TO_CONCURRENT_FUNGIBLE_BALANCE then DefaultToConcurrentFungibleBalance else
    if g == LIMIT_VM_TYPE_SIZE then LimitVMTypeSize else
    if g == ABORT_IF_MULTISIG_PAYLOAD_MISMATCH then AbortIfMultisigPayloadMismatch else
    if g == DISALLOW_USER_NATIVES then DisallowUserNative else
    if g == ALLOW_SERIALIZED_SCRIPT_ARGS then AllowSerializedScriptArgs else
    if g == USE_COMPATIBILITY_CHECKER_V2 then UseCompatibilityCheckerV2 else
    if g == ENABLE_ENUM_TYPES then EnableEnumTypes else
    if g == ENABLE_RESOURCE_ACCESS_CONTROL then EnableResourceAccessControl else
    if g == REJECT_UNSTABLE_BYTECODE_FOR_SCRIPT then RejectUnstableBytecodeForScript else
    if g == FEDERATED_KEYLESS then FederatedKeyless else
    if g == TRANSACTION_SIMULATION_ENHANCEMENT then TransactionSimulationEnhancement else
    if g == COLLECTION_OWNER then CollectionOwner else
    if g == NATIVE_MEMORY_OPERATIONS then NativeMemoryOperations else
    if g == ENABLE_LOADER_V2 then EnableLoaderV2 else
    if g == DISALLOW_INIT_MODULE_TO_PUBLISH_MODULES then DisallowInitModuleToPublishModules else
    if g == ENABLE_CALL_TREE_AND_INSTRUCTION_VM_CACHE then EnableCallTreeAndInstructionVMCache else
    if g == PERMISSIONED_SIGNER then PermissionedSigner else
    if g == ACCOUNT_ABSTRACTION then AccountAbstraction else
    if g == BULLETPROOFS_BATCH_NATIVES then BulletproofsBatchNatives else
    if g == DERIVABLE_ACCOUNT_ABSTRACTION then DerivableAccountAbstraction else
    if g == ENABLE_FUNCTION_VALUES then EnableFunctionValues else
    if g == NEW_ACCOUNTS_DEFAULT_TO_FA_STORE then NewAccountsDefaultToFaStore else
    if g == DEFAULT_ACCOUNT_RESOURCE then DefaultAccountResource else
    if g == JWK_CONSENSUS_PER_KEY_MODE then JwkConsensusPerKeyMode else
    if g == TRANSACTION_PAYLOAD_V2 then TransactionPayloadV2 else
    if g == ORDERLESS_TRANSACTIONS then OrderlessTransactions else
    if g == ENABLE_LAZY_LOADING then EnableLazyLoading else
    if g == CALCULATE_TRANSACTION_FEE_FOR_DISTRIBUTION then CalculateTransactionFeeForDistribution else
    DistributeTransactionFee
  }

  /** Converting to the on-chain flag and back gives the flag itself. */
  lemma FromOnChainOfToOnChain(f: FeatureFlag)
    ensures FromOnChain(ToOnChain(f)) == f
  {
  }

  /** Converting an on-chain flag to the release builder's flag and back gives the
      on-chain flag itself: every on-chain flag has a release-builder counterpart. */
  lemma ToOnChainOfFromOnChain(g: OnChainFeatureFlag)
    ensures ToOnChain(FromOnChain(g)) == g
  {
  }

  /** The two conversions are a one-to-one correspondence: distinct flags map to
      distinct on-chain flags, and each on-chain flag is the image of exactly the flag
      the reverse conversion gives for it. */
  lemma ToOnChainBijective(f: FeatureFlag, f': FeatureFlag, g: OnChainFeatureFlag)
    ensures ToOnChain(f) == ToOnChain(f') <==> f == f'
    ensures ToOnChain(f) == g <==> f == FromOnChain(g)
  {
    FromOnChainOfToOnChain(f);
    FromOnChainOfToOnChain(f');
    ToOnChainOfFromOnChain(g);
  }

  /** The flags in the order `FeatureFlag::iter()` yields them: declaration order. */
  function AllFlags(): (flags: seq<FeatureFlag>)
    ensures |flags| == FLAG_COUNT
    ensures forall i :: 0 <= i < |flags| ==> flags[i] as int == i
  {
    seq(FLAG_COUNT, i requires 0 <= i < FLAG_COUNT => i as FeatureFlag)
  }

  /** `FeatureFlag::iter()` lists every flag exactly once, each at its own position. */
  lemma AllFlagsEnumeratesEachOnce(f: FeatureFlag)
    ensures |AllFlags()| == FLAG_COUNT
    ensures NoDuplicates(AllFlags())
    ensures AllFlags()[f as int] == f && f in AllFlags()
  {
    assert AllFlags()[f as int] == f;
  }
}
