/** The error type of the storage interface (`CreditChainDbError`), its `Display`
    strings, the conversions into it from foreign error types, and the two
    conversions between it and the state view's error type (`StateViewError`). */
module StorageErrors {
  import opened Common

  /** `CreditChainDbError`, errors.rs:12-36. Every single-string variant keeps its string in `msg`. */
  datatype CreditChainDbError =
    | NotFound(msg: string)
    | TooManyRequested(requested: u64, max: u64)
    | MissingRootError(version: u64)
    | Other(msg: string)
    | RocksDbIncompleteResult(msg: string)
    | OtherRocksDbError(msg: string)
    | BcsError(msg: string)
    | IoError(msg: string)
    | RecvError(msg: string)
    | ParseIntError(msg: string)

  /** A `bcs::Error`; only its `Display` text is observable here. */
  datatype BcsFailure = BcsFailure(text: string)

  /** `StateViewError`: the three variants that the exhaustive match of errors.rs:80-84 names. */
  datatype StateViewError =
    | NotFound(msg: string)
    | Other(msg: string)
    | BcsError(err: BcsFailure)

  /** The foreign error types that convert into `CreditChainDbError`, each reduced to its `Display` text. */
  datatype ForeignError =
    | AnyhowError(text: string)
    | BcsSerializationError(text: string)
    | ChannelRecvError(text: string)
    | StdIoError(text: string)
    | StdParseIntError(text: string)

  /** The `#[error(...)]` templates of errors.rs:14-35. */
  function Display(e: CreditChainDbError): (text: string)
    // A `NotFound` text starts with the message it carries; every other string-carrying
    // variant ends with it.
    ensures e.NotFound? ==> |e.msg| < |text| && text[..|e.msg|] == e.msg
    ensures !e.NotFound? && !e.TooManyRequested? && !e.MissingRootError? ==>
      |e.msg| < |text| && text[|text| - |e.msg|..] == e.msg
  {
    match e
    case NotFound(m) => m + " not found."
    case TooManyRequested(n, max) =>
      "Too many items requested: at least " + Decimal(n as nat) + " requested, max is " + Decimal(max as nat)
    case MissingRootError(v) => "Missing state root node at version " + Decimal(v as nat) + ", probably pruned."
    case Other(m) => "CreditChainDB Other Error: " + m
    case RocksDbIncompleteResult(m) => "CreditChainDB RocksDb Error: " + m
    case OtherRocksDbError(m) => "CreditChainDB RocksDB Error: " + m
    case BcsError(m) => "CreditChainDB bcs Error: " + m
    case IoError(m) => "CreditChainDB IO Error: " + m
    case RecvError(m) => "CreditChainDB Recv Error: " + m
    case ParseIntError(m) => "CreditChainDB ParseInt Error: " + m
  }

  /** The five `From<...> for CreditChainDbError` impls of errors.rs:38-66. A parse-int
      error lands in `Other`, never in the `ParseIntError` variant. */
  function FromForeign(e: ForeignError): (r: CreditChainDbError)
    ensures r.Other? <==> (e.AnyhowError? || e.StdParseIntError?)
    ensures r.BcsError? <==> e.BcsSerializationError?
    ensures r.RecvError? <==> e.ChannelRecvError?
    ensures r.IoError? <==> e.StdIoError?
    ensures r.msg == e.text
    ensures !r.ParseIntError? && !r.NotFound?
  {
    match e
    case AnyhowError(t) => CreditChainDbError.Other(t)
    case BcsSerializationError(t) => CreditChainDbError.BcsError(t)
    case ChannelRecvError(t) => RecvError(t)
    case StdIoError(t) => IoError(t)
    case StdParseIntError(t) => CreditChainDbError.Other(t)
  }

  /** `From<CreditChainDbError> for StateViewError`, errors.rs:68-76: `NotFound` and
      `Other` keep their message; every other variant becomes `Other` of its display text. */
  function ToStateViewError(e: CreditChainDbError): (r: StateViewError)
    ensures r.NotFound? <==> e.NotFound?
    ensures !r.BcsError?
    ensures (e.NotFound? || e.Other?) ==> r.msg == e.msg
    ensures !(e.NotFound? || e.Other?) ==> r == StateViewError.Other(Display(e))
  {
    match e
    case NotFound(m) => StateViewError.NotFound(m)
    case Other(m) => StateViewError.Other(m)
    case _ => StateViewError.Other(Display(e))
  }

  /** `From<StateViewError> for CreditChainDbError`, errors.rs:78-86: total, and a
      `bcs` failure keeps only its `to_string()` text. */
  function FromStateViewError(s: StateViewError): (r: CreditChainDbError)
    ensures r.NotFound? <==> s.NotFound?
    ensures r.Other? <==> s.Other?
    ensures r.BcsError? <==> s.BcsError?
    ensures r.msg == (if s.BcsError? then s.err.text else s.msg)
  {
    match s
    case NotFound(m) => CreditChainDbError.NotFound(m)
    case Other(m) => CreditChainDbError.Other(m)
    case BcsError(b) => CreditChainDbError.BcsError(b.text)
  }

  /** Storage -> state view -> storage is the identity exactly on `NotFound` and `Other`. */
  lemma StorageRoundTrip(e: CreditChainDbError)
    ensures FromStateViewError(ToStateViewError(e)) == e <==> (e.NotFound? || e.Other?)
  {
  }

  /** State view -> storage -> state view is the identity exactly on `NotFound` and `Other`:
      a `bcs` failure comes back as `Other` of its storage display text. */
  lemma StateViewRoundTrip(s: StateViewError)
    ensures ToStateViewError(FromStateViewError(s)) == s <==> !s.BcsError?
    ensures s.BcsError? ==>
      ToStateViewError(FromStateViewError(s)) == StateViewError.Other("CreditChainDB bcs Error: " + s.err.text)
  {
  }

  lemma DigitAt(x: string, y: string, k: nat)
    requires forall i :: 0 <= i < |x| ==> IsDigit(x[i])
    requires k < |x|
    ensures IsDigit((x + y)[k])
  {
  }

  /** Two digit strings each followed by text that starts with a non-digit split the same way. */
  lemma DigitRunsAlign(x: string, y: string, x': string, y': string)
    requires forall i :: 0 <= i < |x| ==> IsDigit(x[i])
    requires forall i :: 0 <= i < |x'| ==> IsDigit(x'[i])
    requires |y| > 0 && !IsDigit(y[0]) && |y'| > 0 && !IsDigit(y'[0])
    requires x + y == x' + y'
    ensures x == x' && y == y'
  {
    if |x| < |x'| {
      DigitAt(x', y', |x|);
      assert false;
    } else if |x'| < |x| {
      DigitAt(x, y, |x'|);
      assert false;
    }
    assert x == (x + y)[..|x|];
    assert x' == (x' + y')[..|x|];
    assert y == (x + y)[|x|..];
    assert y' == (x' + y')[|x|..];
  }

  predicate AllDigits(s: string)
  {
    forall i :: 0 <= i < |s| ==> IsDigit(s[i])
  }

  lemma DropPrefix(p: string, x: string, y: string)
    requires p + x == p + y
    ensures x == y
  {
    assert x == (p + x)[|p|..];
    assert y == (p + y)[|p|..];
  }

  /** Text of the form `prefix + x + middle + y`, with digit strings `x`, `y` and a
      `middle` that starts with a non-digit, determines `x` and `y`. */
  lemma TemplateFieldsDetermined(prefix: string, middle: string, x: string, y: string, x': string, y': string)
    requires AllDigits(x) && AllDigits(x')
    requires |middle| > 0 && !IsDigit(middle[0])
    requires prefix + x + middle + y == prefix + x' + middle + y'
    ensures x == x' && y == y'
  {
    assert prefix + x + middle + y == prefix + (x + (middle + y));
    assert prefix + x' + middle + y' == prefix + (x' + (middle + y'));
    DropPrefix(prefix, x + (middle + y), x' + (middle + y'));
    DigitRunsAlign(x, middle + y, x', middle + y');
    DropPrefix(middle, y, y');
  }

  /** The "too many items" message determines both counts it reports. */
  lemma TooManyRequestedDisplayInjective(a: u64, b: u64, c: u64, d: u64)
    requires Display(TooManyRequested(a, b)) == Display(TooManyRequested(c, d))
    ensures a == c && b == d
  {
    var prefix, middle := "Too many items requested: at least ", " requested, max is ";
    var da, dc := Decimal(a as nat), Decimal(c as nat);
    assert AllDigits(da) && AllDigits(dc);
    TemplateFieldsDetermined(prefix, middle, da, Decimal(b as nat), dc, Decimal(d as nat));
    DecimalInjective(a as nat, c as nat);
    DecimalInjective(b as nat, d as nat);
  }

  /** The collapse is lossy: a `BcsError` and an `Other` carrying its display text look the same to the state view. */
  lemma CollapsedVariantsIndistinguishable(m: string)
    ensures ToStateViewError(CreditChainDbError.BcsError(m)) == ToStateViewError(CreditChainDbError.Other(Display(CreditChainDbError.BcsError(m))))
    ensures CreditChainDbError.BcsError(m) != CreditChainDbError.Other(Display(CreditChainDbError.BcsError(m)))
  {
  }
}
