/** Hash commitments: the settlement hash, and Merkle trees of prizes with sorted-pair branch proofs. */
module Commitments {
  import opened Wrappers
  import opened Host
  import opened Ordering

  datatype WinnerPayout = WinnerPayout(winner: Address, amount: I128)

  /** SHA-256 is treated as collision free only between the two finite sets of inputs that matter. */
  ghost predicate NoCollision(sha: Bytes -> Hash, xs: set<Bytes>, ys: set<Bytes>) {
    forall x, y :: x in xs && y in ys && sha(x) == sha(y) ==> x == y
  }

  // ---------- settlement hash ----------

  function PayoutBytes(p: WinnerPayout): Bytes {
    XdrAddress(p.winner) + XdrI128(p.amount)
  }

  function SettlementBytes(winners: seq<WinnerPayout>, fee: I128): Bytes {
    if winners == [] then XdrI128(fee) else PayoutBytes(winners[0]) + SettlementBytes(winners[1..], fee)
  }

  lemma PayoutPrefixFree(p: WinnerPayout, q: WinnerPayout, x: Bytes, y: Bytes)
    requires PayoutBytes(p) + x == PayoutBytes(q) + y
    ensures p == q && x == y
  {
    var u, v := XdrI128(p.amount), XdrI128(q.amount);
    assert PayoutBytes(p) + x == XdrAddress(p.winner) + (u + x);
    assert PayoutBytes(q) + y == XdrAddress(q.winner) + (v + y);
    XdrAddressPrefixFree(p.winner, q.winner, u + x, v + y);
    assert u == (u + x)[..20] && v == (v + y)[..20] && x == (u + x)[20..] && y == (v + y)[20..];
    XdrI128Injective(p.amount, q.amount);
  }

  lemma PayoutTag(p: WinnerPayout, x: Bytes, fee: I128)
    ensures PayoutBytes(p) + x != XdrI128(fee)
  {
    assert (PayoutBytes(p) + x)[3] == 18 && XdrI128(fee)[3] == 10;
  }

  /** The hashed bytes have one reading: the tag of a record tells a winner from the closing fee. */
  lemma {:induction false} SettlementBytesInjective(a: seq<WinnerPayout>, b: seq<WinnerPayout>, f: I128, g: I128)
    requires SettlementBytes(a, f) == SettlementBytes(b, g)
    ensures a == b && f == g
  {
    if a != [] && b != [] {
      PayoutPrefixFree(a[0], b[0], SettlementBytes(a[1..], f), SettlementBytes(b[1..], g));
      SettlementBytesInjective(a[1..], b[1..], f, g);
      assert a == [a[0]] + a[1..] && b == [b[0]] + b[1..];
    } else if a != [] {
      PayoutTag(a[0], SettlementBytes(a[1..], f), g);
    } else if b != [] {
      PayoutTag(b[0], SettlementBytes(b[1..], g), f);
    } else {
      XdrI128Injective(f, g);
    }
  }

  lemma SliceOfTail(first: Bytes, rest: Bytes, from: nat, size: nat)
    requires from + size <= |rest|
    ensures (first + rest)[|first| + from..|first| + from + size] == rest[from..from + size]
  {}

  /** What is hashed: each winner in order, address before amount, and the fee at the end. */
  lemma {:induction false} SettlementLayout(winners: seq<WinnerPayout>, fee: I128, i: nat) returns (start: nat)
    requires i < |winners|
    ensures var bytes, p := SettlementBytes(winners, fee), PayoutBytes(winners[i]);
            && start + |p| <= |bytes| - 20 && bytes[start..start + |p|] == p
            && bytes[|bytes| - 20..] == XdrI128(fee)
            && (i == 0 ==> start == 0)
    decreases i
  {
    var first, rest := PayoutBytes(winners[0]), SettlementBytes(winners[1..], fee);
    var p := PayoutBytes(winners[i]);
    assert SettlementBytes(winners, fee) == first + rest;
    FeeLast(winners, fee);
    FeeLast(winners[1..], fee);
    hide SettlementBytes, XdrAddress, XdrI128, PayoutBytes;
    if i == 0 {
      start := 0;
      assert (first + rest)[..|first|] == first;
    } else {
      var below := SettlementLayout(winners[1..], fee, i - 1);
      start := |first| + below;
      SliceOfTail(first, rest, below, |p|);
    }
  }

  lemma {:induction false} FeeLast(winners: seq<WinnerPayout>, fee: I128)
    ensures |SettlementBytes(winners, fee)| >= 20
    ensures var bytes := SettlementBytes(winners, fee); bytes[|bytes| - 20..] == XdrI128(fee)
  {
    hide XdrI128, XdrAddress;
    if winners != [] {
      FeeLast(winners[1..], fee);
      var bytes, rest := SettlementBytes(winners, fee), SettlementBytes(winners[1..], fee);
      assert bytes == PayoutBytes(winners[0]) + rest;
      assert bytes[|bytes| - 20..] == rest[|rest| - 20..];
    }
  }

  /** A settlement hash commits to every winner, every amount, their order and the fee. */
  lemma SettlementHashBinds(sha: Bytes -> Hash, a: seq<WinnerPayout>, f: I128, b: seq<WinnerPayout>, g: I128)
    requires NoCollision(sha, {SettlementBytes(a, f)}, {SettlementBytes(b, g)})
    ensures sha(SettlementBytes(a, f)) == sha(SettlementBytes(b, g)) <==> a == b && f == g
  {
    if sha(SettlementBytes(a, f)) == sha(SettlementBytes(b, g)) { SettlementBytesInjective(a, b, f, g); }
  }

  // ---------- Merkle trees ----------

  /** The off-chain tree of one league's prizes. */
  datatype Tree = Leaf(prize: WinnerPayout) | Node(left: Tree, right: Tree)

  ghost predicate Commits(t: Tree, p: WinnerPayout) {
    match t
    case Leaf(prize) => p == prize
    case Node(left, right) => Commits(left, p) || Commits(right, p)
  }

  function LeafBytes(league: U64, p: WinnerPayout): (bytes: Bytes)
    ensures |bytes| == if p.winner.Account? then 76 else 72
  {
    XdrU64(league) + XdrAddress(p.winner) + XdrI128(p.amount)
  }

  /** The league first, the amount last, the winner between. */
  lemma LeafLayout(league: U64, p: WinnerPayout)
    ensures var bytes := LeafBytes(league, p);
            && bytes[..12] == XdrU64(league) && bytes[12..|bytes| - 20] == XdrAddress(p.winner)
            && bytes[|bytes| - 20..] == XdrI128(p.amount)
  {
    hide XdrU64, XdrAddress, XdrI128;
  }

  /** `BytesN<32>` compares byte by byte, most significant first. */
  function PairBytes(a: Hash, b: Hash): (bytes: Bytes)
    ensures |bytes| == 64
    ensures SeqLe(bytes[..32], bytes[32..]) && (bytes == a + b || bytes == b + a)
  {
    SeqLeTotal(a, b);
    assert (a + b)[..32] == a && (a + b)[32..] == b && (b + a)[..32] == b && (b + a)[32..] == a;
    if SeqLe(a, b) then a + b else b + a
  }

  function Root(sha: Bytes -> Hash, league: U64, t: Tree): Hash {
    match t
    case Leaf(prize) => sha(LeafBytes(league, prize))
    case Node(left, right) => sha(PairBytes(Root(sha, league, left), Root(sha, league, right)))
  }

  /** The hash reached from `h` by walking up the branch. */
  function Climb(sha: Bytes -> Hash, h: Hash, branch: seq<Hash>): Hash
    decreases branch
  {
    if branch == [] then h else Climb(sha, sha(PairBytes(h, branch[0])), branch[1..])
  }

  function BranchRoot(sha: Bytes -> Hash, league: U64, p: WinnerPayout, branch: seq<Hash>): Hash {
    Climb(sha, sha(LeafBytes(league, p)), branch)
  }

  /** The verification loop of `claim_prize_merkle`. */
  method VerifyBranch(sha: Bytes -> Hash, league: U64, p: WinnerPayout, branch: seq<Hash>, root: Hash)
    returns (ok: bool)
    ensures ok <==> BranchRoot(sha, league, p, branch) == root
  {
    var current := sha(LeafBytes(league, p));
    for i := 0 to |branch|
      invariant Climb(sha, current, branch[i..]) == BranchRoot(sha, league, p, branch)
    {
      assert branch[i..][1..] == branch[i + 1..];
      current := sha(PairBytes(current, branch[i]));
    }
    ok := current == root;
  }

  lemma {:induction false} ClimbSnoc(sha: Bytes -> Hash, h: Hash, branch: seq<Hash>, last: Hash)
    ensures Climb(sha, h, branch + [last]) == sha(PairBytes(Climb(sha, h, branch), last))
    decreases branch
  {
    if branch != [] {
      assert (branch + [last])[1..] == branch[1..] + [last];
      ClimbSnoc(sha, sha(PairBytes(h, branch[0])), branch[1..], last);
    } else {
      assert branch + [last] == [last];
      assert [last][1..] == [];
    }
  }

  /** Everything hashed while building the tree. */
  ghost function TreeInputs(sha: Bytes -> Hash, league: U64, t: Tree): set<Bytes> {
    match t
    case Leaf(prize) => {LeafBytes(league, prize)}
    case Node(left, right) =>
      TreeInputs(sha, league, left) + TreeInputs(sha, league, right)
      + {PairBytes(Root(sha, league, left), Root(sha, league, right))}
  }

  /** Everything hashed while checking the claim. */
  ghost function ClaimInputs(sha: Bytes -> Hash, league: U64, p: WinnerPayout, branch: seq<Hash>): set<Bytes> {
    {LeafBytes(league, p)}
    + set i | 0 <= i < |branch| :: PairBytes(BranchRoot(sha, league, p, branch[..i]), branch[i])
  }

  lemma PairBytesCases(a: Hash, b: Hash, c: Hash, d: Hash)
    requires PairBytes(a, b) == PairBytes(c, d)
    ensures a == c || a == d
  {
    var x := PairBytes(a, b);
    assert a == x[..32] || a == x[32..];
    assert (c == x[..32] && d == x[32..]) || (d == x[..32] && c == x[32..]);
  }

  lemma LeafBytesInjective(league: U64, p: WinnerPayout, q: WinnerPayout)
    requires LeafBytes(league, p) == LeafBytes(league, q)
    ensures p == q
  {
    var x, y := LeafBytes(league, p), LeafBytes(league, q);
    var u, v := XdrI128(p.amount), XdrI128(q.amount);
    assert x[12..] == XdrAddress(p.winner) + u && y[12..] == XdrAddress(q.winner) + v;
    XdrAddressPrefixFree(p.winner, q.winner, u, v);
    XdrI128Injective(p.amount, q.amount);
  }

  /** The last input hashed for a tree; its length tells a leaf from a node. */
  ghost function TopInput(sha: Bytes -> Hash, league: U64, t: Tree): (bytes: Bytes)
    ensures sha(bytes) == Root(sha, league, t)
    ensures bytes in TreeInputs(sha, league, t)
    ensures |bytes| == 64 <==> t.Node?
  {
    match t
    case Leaf(prize) => LeafBytes(league, prize)
    case Node(left, right) => PairBytes(Root(sha, league, left), Root(sha, league, right))
  }

  /** A branch that verifies proves membership: walk down from the root along the branch. */
  lemma {:induction false} BranchSound(sha: Bytes -> Hash, league: U64, p: WinnerPayout, branch: seq<Hash>, t: Tree)
    requires BranchRoot(sha, league, p, branch) == Root(sha, league, t)
    requires NoCollision(sha, ClaimInputs(sha, league, p, branch), TreeInputs(sha, league, t))
    ensures Commits(t, p)
    decreases t
  {
    var inputs, top := ClaimInputs(sha, league, p, branch), TopInput(sha, league, t);
    assert LeafBytes(league, p) in inputs;
    if branch == [] {
      assert top == LeafBytes(league, p);
      LeafBytesInjective(league, p, t.prize);
    } else {
      var n := |branch| - 1;
      var below, last := branch[..n], branch[n];
      assert branch == below + [last];
      var h := BranchRoot(sha, league, p, below);
      ClimbSnoc(sha, sha(LeafBytes(league, p)), below, last);
      assert PairBytes(h, last) in inputs;
      assert top == PairBytes(h, last);
      PairBytesCases(h, last, Root(sha, league, t.left), Root(sha, league, t.right));
      ClaimInputsShrink(sha, league, p, branch);
      BranchSound(sha, league, p, below, if h == Root(sha, league, t.left) then t.left else t.right);
    }
  }

  lemma ClaimInputsShrink(sha: Bytes -> Hash, league: U64, p: WinnerPayout, branch: seq<Hash>)
    requires branch != []
    ensures ClaimInputs(sha, league, p, branch[..|branch| - 1]) <= ClaimInputs(sha, league, p, branch)
  {
    var below := branch[..|branch| - 1];
    forall i | 0 <= i < |below|
      ensures PairBytes(BranchRoot(sha, league, p, below[..i]), below[i]) in ClaimInputs(sha, league, p, branch)
    {
      assert below[..i] == branch[..i];
    }
  }

  /** Every committed prize has a branch that verifies. */
  lemma {:induction false} BranchComplete(sha: Bytes -> Hash, league: U64, p: WinnerPayout, t: Tree)
    returns (branch: seq<Hash>)
    requires Commits(t, p)
    ensures BranchRoot(sha, league, p, branch) == Root(sha, league, t)
    decreases t
  {
    match t
    case Leaf(_) => branch := [];
    case Node(left, right) =>
      var inLeft := Commits(left, p);
      var below := BranchComplete(sha, league, p, if inLeft then left else right);
      var sibling := Root(sha, league, if inLeft then right else left);
      branch := below + [sibling];
      ClimbSnoc(sha, sha(LeafBytes(league, p)), below, sibling);
      PairBytesCommute(Root(sha, league, left), Root(sha, league, right));
  }

  lemma PairBytesCommute(a: Hash, b: Hash)
    ensures PairBytes(a, b) == PairBytes(b, a)
  {
    SeqLeTotal(a, b);
  }

  /** Who is owed what by a tree, when no winner appears twice. */
  ghost function Entitlements(t: Tree): map<Address, int> {
    match t
    case Leaf(prize) => map[prize.winner := prize.amount]
    case Node(left, right) => Entitlements(left) + Entitlements(right)
  }

  ghost predicate DistinctWinners(t: Tree) {
    match t
    case Leaf(_) => true
    case Node(left, right) =>
      DistinctWinners(left) && DistinctWinners(right) && Entitlements(left).Keys !! Entitlements(right).Keys
  }

  lemma {:induction false} CommittedIsEntitled(t: Tree, p: WinnerPayout)
    requires DistinctWinners(t)
    ensures Commits(t, p) <==> p.winner in Entitlements(t) && Entitlements(t)[p.winner] == p.amount
  {
    if t.Node? {
      CommittedIsEntitled(t.left, p);
      CommittedIsEntitled(t.right, p);
    }
  }
}
