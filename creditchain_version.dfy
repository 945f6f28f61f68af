/** The on-chain validator software version (`CreditChainVersion`) and the named
    release constants. Equality and ordering are derived from the single field `major`. */
module ChainVersion {
  import opened Common

  datatype CreditChainVersion = CreditChainVersion(major: u64)

  datatype Ordering = Less | Equal | Greater

  /** The derived `Ord::cmp`: fields compared in declaration order, here only `major`. */
  function Compare(a: CreditChainVersion, b: CreditChainVersion): (r: Ordering)
    ensures r == Equal <==> a == b
    ensures r == Less <==> a.major < b.major
    ensures r == Greater <==> b.major < a.major
  {
    if a.major < b.major then Less
    else if b.major < a.major then Greater
    else Equal
  }

  /** `a < b` under the derived `PartialOrd`. */
  predicate Lt(a: CreditChainVersion, b: CreditChainVersion)
  {
    Compare(a, b) == Less
  }

  /** `a <= b` under the derived `PartialOrd`. */
  predicate Le(a: CreditChainVersion, b: CreditChainVersion)
  {
    Compare(a, b) != Greater
  }

  /** Release 1.2: gates the EntryFunction payload type. */
  const CREDITCHAIN_VERSION_2: CreditChainVersion := CreditChainVersion(2)
  /** Release 1.3: gates multi-agent transactions. */
  const CREDITCHAIN_VERSION_3: CreditChainVersion := CreditChainVersion(3)
  /** Release 1.4: gates conflict-resistant sequence numbers. */
  const CREDITCHAIN_VERSION_4: CreditChainVersion := CreditChainVersion(4)
  /** The newest version this software knows. */
  const CREDITCHAIN_MAX_KNOWN_VERSION: CreditChainVersion := CREDITCHAIN_VERSION_4

  /** The derived comparison is a total order whose strict part is antisymmetric. */
  lemma CompareIsTotalOrder(a: CreditChainVersion, b: CreditChainVersion, c: CreditChainVersion)
    ensures Le(a, a)
    ensures Le(a, b) || Le(b, a)
    ensures Le(a, b) && Le(b, a) ==> a == b
    ensures Le(a, b) && Le(b, c) ==> Le(a, c)
    ensures Lt(a, b) <==> Le(a, b) && a != b
    ensures Compare(a, b) == Less <==> Compare(b, a) == Greater
  {
  }

  /** The named releases are strictly increasing, and the maximum known version bounds them all. */
  lemma KnownVersionsOrdered()
    ensures CREDITCHAIN_VERSION_2.major == 2 && CREDITCHAIN_VERSION_3.major == 3 && CREDITCHAIN_VERSION_4.major == 4
    ensures Lt(CREDITCHAIN_VERSION_2, CREDITCHAIN_VERSION_3) && Lt(CREDITCHAIN_VERSION_3, CREDITCHAIN_VERSION_4)
    ensures CREDITCHAIN_MAX_KNOWN_VERSION == CREDITCHAIN_VERSION_4
    ensures forall v :: v in [CREDITCHAIN_VERSION_2, CREDITCHAIN_VERSION_3, CREDITCHAIN_VERSION_4] ==>
      Le(v, CREDITCHAIN_MAX_KNOWN_VERSION)
  {
  }
}
