/** The lexicographic order on sequences of code units: hashes, JSON keys and Redis members are compared by it. */
module Ordering {

  predicate SeqLe(a: seq<int>, b: seq<int>) {
    a == [] || (b != [] && (a[0] < b[0] || (a[0] == b[0] && SeqLe(a[1..], b[1..]))))
  }

  lemma {:induction false} SeqLeTotal(a: seq<int>, b: seq<int>)
    ensures SeqLe(a, b) || SeqLe(b, a)
    ensures SeqLe(a, b) && SeqLe(b, a) ==> a == b
  {
    if a != [] && b != [] {
      SeqLeTotal(a[1..], b[1..]);
      assert a == [a[0]] + a[1..] && b == [b[0]] + b[1..];
    }
  }

  lemma {:induction false} SeqLeTransitive(a: seq<int>, b: seq<int>, c: seq<int>)
    requires SeqLe(a, b) && SeqLe(b, c)
    ensures SeqLe(a, c)
  {
    if a != [] && a[0] == b[0] && b[0] == c[0] { SeqLeTransitive(a[1..], b[1..], c[1..]); }
  }
}
