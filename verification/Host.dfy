/**
 The parts of the Soroban host that the escrow contract relies on: integer widths, addresses,
 XDR encodings, authorisation, the ledger clock, SHA-256 and the token ledger.
 */
module Host {
  import opened Wrappers

  const U32_MAX: int := 0xFFFF_FFFF
  const U64_MAX: int := 0xFFFF_FFFF_FFFF_FFFF
  const I128_MAX: int := 0x7FFF_FFFF_FFFF_FFFF_FFFF_FFFF_FFFF_FFFF
  const TWO_TO_128: int := 0x1_0000_0000_0000_0000_0000_0000_0000_0000

  type U32 = n: int | 0 <= n <= U32_MAX
  type U64 = n: int | 0 <= n <= U64_MAX
  type I128 = n: int | -I128_MAX - 1 <= n <= I128_MAX

  type Byte = b: int | 0 <= b < 256
  type Bytes = seq<Byte>
  const ZERO_BYTES: seq<Byte> := seq(32, _ => 0)
  type Hash = h: seq<Byte> | |h| == 32 witness ZERO_BYTES

  /** The contract's error codes; HostTrap stands for a trap raised by the host itself. */
  datatype EscrowError =
    | AlreadyInitialized | NotInitialized | LeagueAlreadyExists | LeagueNotFound
    | LeagueNotAcceptingDeposits | AlreadyDeposited | AlreadySettled | InvalidAmount
    | PayoutExceedsDeposits | NotAuthorized | FeeExceedsMaxCap | InvalidPrizeDistribution
    | NoClaimablePrize | ContractPaused | AlreadyPaused | NotPaused | TimelockNotElapsed
    | NoDeposit | InvalidProof | InvalidMultisig | LeagueNotCancelled | AlreadyClaimed
    | InvalidFeeShare | HashMismatch | TimelockActive | ProposalNotFound | AlreadyApproved
    | ProposalExecuted | UpgradeNotProposed | InvalidFederationPeer
    | HostTrap

  datatype Result<+T> = Ok(value: T) | Err(error: EscrowError) {
    predicate IsFailure() { Err? }
    function PropagateFailure<U>(): Result<U> requires Err? { Err(error) }
    function Extract(): T requires Ok? { value }
  }

  /** The result of a check that yields no value. */
  datatype Check = Pass | Fail(error: EscrowError) {
    predicate IsFailure() { Fail? }
    function PropagateFailure<U>(): Result<U> requires Fail? { Err(error) }
    function Extract(): () requires Pass? { () }
  }

  function Need(condition: bool, error: EscrowError): Check {
    if condition then Pass else Fail(error)
  }

  /** Overflow checks are on in the release profile, so leaving the type's range traps. */
  function CheckedI128(n: int): Result<I128> {
    if -I128_MAX - 1 <= n <= I128_MAX then Ok(n) else Err(HostTrap)
  }

  function CheckedU32(n: int): Result<U32> {
    if 0 <= n <= U32_MAX then Ok(n) else Err(HostTrap)
  }

  /** Integer division as Rust does it, truncating toward zero. */
  function Quot(a: int, b: int): int
    requires b > 0
  {
    if a >= 0 then a / b else -((-a) / b)
  }

  // ---------- addresses and XDR ----------

  datatype Address = Account(key: Hash) | Contract(id: Hash)

  function Pow256(width: nat): nat {
    if width == 0 then 1 else 256 * Pow256(width - 1)
  }

  function BigEndian(n: nat, width: nat): (bytes: Bytes)
    ensures |bytes| == width
  {
    if width == 0 then [] else BigEndian(n / 256, width - 1) + [n % 256]
  }

  lemma {:induction false} BigEndianInjective(a: nat, b: nat, width: nat)
    requires a < Pow256(width) && b < Pow256(width)
    requires BigEndian(a, width) == BigEndian(b, width)
    ensures a == b
  {
    if width != 0 {
      var x, y := BigEndian(a, width), BigEndian(b, width);
      assert x[..width - 1] == BigEndian(a / 256, width - 1);
      assert y[..width - 1] == BigEndian(b / 256, width - 1);
      assert x[width - 1] == a % 256 && y[width - 1] == b % 256;
      BigEndianInjective(a / 256, b / 256, width - 1);
    }
  }

  function ValueOf(bytes: Bytes): nat {
    if bytes == [] then 0 else ValueOf(bytes[..|bytes| - 1]) * 256 + bytes[|bytes| - 1]
  }

  /** Most significant byte first. */
  lemma {:induction false} BigEndianValue(n: nat, width: nat)
    requires n < Pow256(width)
    ensures ValueOf(BigEndian(n, width)) == n
  {
    if width != 0 {
      var bytes := BigEndian(n, width);
      assert bytes[..width - 1] == BigEndian(n / 256, width - 1);
      BigEndianValue(n / 256, width - 1);
    }
  }

  /** An ScVal of type U64: a four-byte tag and eight bytes. */
  function XdrU64(n: U64): (bytes: Bytes)
    ensures |bytes| == 12
  {
    [0, 0, 0, 5] + BigEndian(n, 8)
  }

  /** An ScVal of type I128: a four-byte tag and sixteen bytes of two's complement. */
  function XdrI128(n: I128): (bytes: Bytes)
    ensures |bytes| == 20
  {
    [0, 0, 0, 10] + BigEndian(if n < 0 then n + TWO_TO_128 else n, 16)
  }

  /** An ScVal of type Address; accounts carry one more tag, the kind of public key. */
  function XdrAddress(a: Address): (bytes: Bytes)
    ensures |bytes| == if a.Account? then 44 else 40
  {
    match a
    case Account(key) => [0, 0, 0, 18] + [0, 0, 0, 0] + [0, 0, 0, 0] + key
    case Contract(id) => [0, 0, 0, 18] + [0, 0, 0, 1] + id
  }

  lemma Widths()
    ensures Pow256(8) == U64_MAX + 1 && Pow256(16) == TWO_TO_128
  {
    assert Pow256(4) == 0x1_0000_0000;
    assert Pow256(8) == 0x1_0000_0000_0000_0000;
    assert Pow256(12) == 0x1_0000_0000_0000_0000_0000_0000;
  }

  /** The tags of the numbers, and the numbers after them. */
  lemma XdrU64Meaning(n: U64)
    ensures XdrU64(n)[..4] == [0, 0, 0, 5] && ValueOf(XdrU64(n)[4..]) == n
  {
    Widths();
    BigEndianValue(n, 8);
    assert XdrU64(n)[4..] == BigEndian(n, 8);
    hide BigEndian, Pow256, ValueOf;
  }

  lemma XdrI128Meaning(m: I128)
    ensures XdrI128(m)[..4] == [0, 0, 0, 10]
    ensures ValueOf(XdrI128(m)[4..]) == m % 0x1_0000_0000_0000_0000_0000_0000_0000_0000
  {
    Widths();
    var u := if m < 0 then m + TWO_TO_128 else m;
    assert u == m % 0x1_0000_0000_0000_0000_0000_0000_0000_0000;
    BigEndianValue(u, 16);
    assert XdrI128(m)[4..] == BigEndian(u, 16);
    hide BigEndian, Pow256, ValueOf;
  }

  lemma XdrAddressLayout(key: Hash)
    ensures XdrAddress(Account(key)) == [0, 0, 0, 18, 0, 0, 0, 0, 0, 0, 0, 0] + key
    ensures XdrAddress(Contract(key)) == [0, 0, 0, 18, 0, 0, 0, 1] + key
  {}

  lemma XdrI128Injective(a: I128, b: I128)
    requires XdrI128(a) == XdrI128(b)
    ensures a == b
  {
    assert XdrI128(a)[4..] == BigEndian(if a < 0 then a + TWO_TO_128 else a, 16);
    assert XdrI128(b)[4..] == BigEndian(if b < 0 then b + TWO_TO_128 else b, 16);
    Widths();
    BigEndianInjective(if a < 0 then a + TWO_TO_128 else a, if b < 0 then b + TWO_TO_128 else b, 16);
  }

  /** An address encoding followed by anything determines both the address and the rest. */
  lemma XdrAddressPrefixFree(a: Address, b: Address, x: Bytes, y: Bytes)
    requires XdrAddress(a) + x == XdrAddress(b) + y
    ensures a == b && x == y
  {
    var u, v := XdrAddress(a) + x, XdrAddress(b) + y;
    assert a.Account? <==> u[7] == 0;
    assert b.Account? <==> v[7] == 0;
    if a.Account? {
      assert u[12..44] == a.key && v[12..44] == b.key;
      assert u[44..] == x && v[44..] == y;
    } else {
      assert u[8..40] == a.id && v[8..40] == b.id;
      assert u[40..] == x && v[40..] == y;
    }
  }

  // ---------- environment of one invocation ----------

  /** Fixed for the whole life of the contract: its own address and the host's SHA-256. */
  datatype Platform = Platform(self: Address, sha256: Bytes -> Hash)

  /** What one invocation sees: who signed it, the ledger clock, and the linked peers' answers. */
  datatype Env = Env(auth: set<Address>, time: U64, sequence: U32,
                     pausedPeers: set<Address>, refusingPeers: set<Address>)

  function RequireAuth(env: Env, who: Address): Check {
    Need(who in env.auth, HostTrap)
  }

  // ---------- token ledger ----------

  datatype Holding = Holding(asset: Address, owner: Address)
  type Ledger = map<Holding, nat>

  function Balance(ledger: Ledger, asset: Address, owner: Address): nat {
    if Holding(asset, owner) in ledger then ledger[Holding(asset, owner)] else 0
  }

  /** SEP-41 `transfer`: traps on a negative amount or an insufficient balance. */
  function Transfer(ledger: Ledger, asset: Address, from: Address, to: Address, amount: int): Result<Ledger> {
    if amount < 0 || Balance(ledger, asset, from) < amount then Err(HostTrap)
    else
      var debited := ledger[Holding(asset, from) := Balance(ledger, asset, from) - amount];
      Ok(debited[Holding(asset, to) := Balance(debited, asset, to) + amount])
  }
}
