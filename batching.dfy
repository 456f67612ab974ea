/**
 * How insertObjectsToRealm (src/utilities.tsx) splits the objects 1..n into
 * write transactions: a transaction is begun before the loop and, whenever
 * `i % numObjectsPerUpload === 0`, committed and replaced by a new one just
 * before object i is created. These are the index partitions; the Dogs
 * themselves are attached in module Utilities.
 */
module Batching {

  /** A 1-based object position, the loop counter `i` of the source. */
  type Position = i: int | 1 <= i witness 1

  function Min(a: int, b: int): int {
    if a <= b then a else b
  }

  function Max(a: int, b: int): int {
    if a <= b then b else a
  }

  /**
   * The integer division facts used below: `x == q * b + r` with `0 <= r < b`
   * pins down `x / b` and `x % b`.
   */
  lemma DivModUnique(x: int, b: int, q: int, r: int)
    requires b > 0 && 0 <= r < b && x == q * b + r
    ensures x / b == q && x % b == r
  {
    var q', r' := x / b, x % b;
    assert x == q' * b + r' && 0 <= r' < b;
    if q' > q {
      assert q' * b >= (q + 1) * b by { MulMonotone(q + 1, q', b); }
    } else if q' < q {
      assert q * b >= (q' + 1) * b by { MulMonotone(q' + 1, q, b); }
    }
  }

  /** Dafny's Euclidean division on a positive divisor. */
  lemma DivModBasics(x: int, b: int)
    requires b > 0
    ensures x == (x / b) * b + x % b && 0 <= x % b < b
  {
  }

  lemma MulMonotone(s: int, t: int, b: int)
    requires s <= t && b >= 0
    ensures s * b <= t * b
  {
    assert t * b - s * b == (t - s) * b;
  }

  /**
   * The inclusive run lo, lo+1, ..., hi (empty when hi < lo).
   */
  function Interval(lo: Position, hi: int): (r: seq<Position>)
    ensures |r| == if lo <= hi then hi - lo + 1 else 0
    ensures forall k :: 0 <= k < |r| ==> r[k] == lo + k
    decreases hi - lo
  {
    if hi < lo then [] else Interval(lo, hi - 1) + [hi as Position]
  }

  /**
   * JavaScript's `i % b === 0` for a loop counter i >= 1. When b is 0 the
   * remainder is NaN and the comparison is false.
   */
  predicate StartsTransaction(i: Position, b: nat) {
    b != 0 && i % b == 0
  }

  /**
   * The transactions after the loop has created objects 1..n, in begin order;
   * the last one is still open. Position n begins a new transaction exactly
   * when StartsTransaction(n, b).
   */
  function Chunks(n: nat, b: nat): (cs: seq<seq<Position>>)
    ensures |cs| >= 1
  {
    if n == 0 then [[]]
    else
      var prev := Chunks(n - 1, b);
      if StartsTransaction(n, b) then prev + [[n]]
      else prev[..|prev| - 1] + [prev[|prev| - 1] + [n]]
  }

  /** Concatenation of the transactions, in order. */
  function Flatten(cs: seq<seq<Position>>): seq<Position> {
    if cs == [] then [] else Flatten(cs[..|cs| - 1]) + cs[|cs| - 1]
  }

  lemma FlattenAppend(cs: seq<seq<Position>>, c: seq<Position>)
    ensures Flatten(cs + [c]) == Flatten(cs) + c
  {
    assert (cs + [c])[..|cs|] == cs;
  }

  /**
   * Every object 1..n lands in exactly one transaction, and the transactions
   * hold them in creation order, whatever the chunk size.
   */
  lemma {:induction false} ChunksCoverInOrder(n: nat, b: nat)
    ensures Flatten(Chunks(n, b)) == Interval(1, n)
  {
    if n == 0 {
      assert Flatten([[]]) == Flatten([]) + [];
    } else {
      ChunksCoverInOrder(n - 1, b);
      var prev := Chunks(n - 1, b);
      var init, last := prev[..|prev| - 1], prev[|prev| - 1];
      assert prev == init + [last];
      FlattenAppend(init, last);
      if StartsTransaction(n, b) {
        FlattenAppend(prev, [n]);
      } else {
        FlattenAppend(init, last + [n]);
      }
    }
  }

  /** With chunk size 0 everything goes into the single transaction begun before the loop. */
  lemma {:induction false} ZeroChunkSizeIsOneTransaction(n: nat)
    ensures Chunks(n, 0) == [Interval(1, n)]
  {
    if n > 0 {
      ZeroChunkSizeIsOneTransaction(n - 1);
    }
  }

  /**
   * Transaction t (b >= 1) holds the positions from max(1, t*b) up to
   * min(n, t*b + b - 1): transaction 0 is begun before the loop and every
   * later one at a multiple of b.
   */
  function ClosedChunk(n: nat, b: nat, t: nat): seq<Position>
    requires b >= 1
  {
    var lo: Position := if t * b < 1 then 1 else t * b;
    Interval(lo, Min(n, t * b + b - 1))
  }

  /** A transaction that ends before position n is the same whether or not n has been created. */
  lemma ClosedChunkStable(n: nat, b: nat, t: nat)
    requires b >= 1 && n >= 1 && (t + 1) * b <= n
    ensures ClosedChunk(n - 1, b, t) == ClosedChunk(n, b, t)
  {
    assert (t + 1) * b == t * b + b;
  }

  /** The closed form of Chunks(n - 1, b), as the induction hypothesis. */
  ghost predicate IsClosedForm(n: nat, b: nat)
    requires b >= 1
  {
    |Chunks(n, b)| == n / b + 1 &&
    forall t :: 0 <= t < |Chunks(n, b)| ==> Chunks(n, b)[t] == ClosedChunk(n, b, t)
  }

  /** Transactions 0..q-1 are unaffected by creating position n when q * b <= n. */
  lemma EarlierChunksStable(n: nat, b: nat, q: nat)
    requires b >= 1 && n >= 1 && q * b <= n
    ensures forall t :: 0 <= t < q ==> ClosedChunk(n - 1, b, t) == ClosedChunk(n, b, t)
  {
    forall t | 0 <= t < q
      ensures ClosedChunk(n - 1, b, t) == ClosedChunk(n, b, t)
    {
      MulMonotone(t + 1, q, b);
      ClosedChunkStable(n, b, t);
    }
  }

  /** Step when b divides n: position n opens transaction n / b. */
  lemma ClosedFormStepDivisible(n: nat, b: nat, q: nat)
    requires b >= 1 && n >= 1 && n == q * b && IsClosedForm(n - 1, b)
    ensures IsClosedForm(n, b)
  {
    assert q >= 1;
    DivModUnique(n, b, q, 0);
    DivModUnique(n - 1, b, q - 1, b - 1);
    var prev := Chunks(n - 1, b);
    var cs := Chunks(n, b);
    assert cs == prev + [[n]];
    EarlierChunksStable(n, b, q);
    assert Interval(n, n) == Interval(n, n - 1) + [n];
    assert ClosedChunk(n, b, q) == Interval(n, Min(n, n + b - 1));
  }

  /** The open transaction q grows by position n when b does not divide n. */
  lemma OpenChunkGrows(n: nat, b: nat, q: nat, r: nat)
    requires b >= 1 && n >= 1 && n == q * b + r && 0 < r < b
    ensures ClosedChunk(n, b, q) == ClosedChunk(n - 1, b, q) + [n]
  {
    var lo: Position := if q * b < 1 then 1 else q * b;
    assert ClosedChunk(n - 1, b, q) == Interval(lo, n - 1);
    assert ClosedChunk(n, b, q) == Interval(lo, n);
  }

  /** Step when b does not divide n: position n joins the open transaction. */
  lemma ClosedFormStepOther(n: nat, b: nat, q: nat, r: nat)
    requires b >= 1 && n >= 1 && n == q * b + r && 0 < r < b && IsClosedForm(n - 1, b)
    ensures IsClosedForm(n, b)
  {
    DivModUnique(n, b, q, r);
    DivModUnique(n - 1, b, q, r - 1);
    var prev := Chunks(n - 1, b);
    var cs := Chunks(n, b);
    assert |prev| == q + 1;
    assert cs == prev[..q] + [prev[q] + [n]];
    EarlierChunksStable(n, b, q);
    OpenChunkGrows(n, b, q, r);
  }

  /**
   * The loop's partition equals the closed form: n / b + 1 transactions,
   * transaction t covering [max(1, t*b), min(n, t*b + b - 1)].
   */
  lemma {:induction false} ChunksClosedForm(n: nat, b: nat)
    requires b >= 1
    ensures IsClosedForm(n, b)
  {
    if n == 0 {
      assert ClosedChunk(0, b, 0) == Interval(1, Min(0, b - 1));
    } else {
      ChunksClosedForm(n - 1, b);
      var q, r := n / b, n % b;
      DivModBasics(n, b);
      if r == 0 {
        ClosedFormStepDivisible(n, b, q);
      } else {
        ClosedFormStepOther(n, b, q, r);
      }
    }
  }

  /** With b >= 1 the loop commits n / b + 1 transactions (the final commit included). */
  lemma CommitCount(n: nat, b: nat)
    requires b >= 1
    ensures |Chunks(n, b)| == n / b + 1
  {
    ChunksClosedForm(n, b);
  }

  /** The transaction begun before the loop holds 1..b-1, and nothing when b == 1. */
  lemma FirstTransaction(n: nat, b: nat)
    requires b >= 1
    ensures Chunks(n, b)[0] == Interval(1, Min(n, b - 1))
    ensures b == 1 ==> Chunks(n, b)[0] == []
  {
    ChunksClosedForm(n, b);
    assert Chunks(n, b)[0] == ClosedChunk(n, b, 0);
  }

  /** Every later transaction t is non-empty and starts at position t * b, a multiple of b. */
  lemma LaterTransactionStart(n: nat, b: nat, t: nat)
    requires b >= 1 && 1 <= t < |Chunks(n, b)|
    ensures Chunks(n, b)[t] != []
    ensures Chunks(n, b)[t][0] == t * b && Chunks(n, b)[t][0] % b == 0
  {
    ChunksClosedForm(n, b);
    var q := n / b;
    DivModBasics(n, b);
    MulMonotone(1, t, b);
    MulMonotone(t, q, b);
    assert Chunks(n, b)[t] == ClosedChunk(n, b, t) == Interval(t * b, Min(n, t * b + b - 1));
    DivModUnique(t * b, b, t, 0);
  }

  /** Position n, the last object created, is the final element of the last transaction. */
  lemma LastTransactionEndsAtN(n: nat, b: nat)
    requires n >= 1
    ensures var cs := Chunks(n, b); cs[|cs| - 1] != [] && cs[|cs| - 1][|cs[|cs| - 1]| - 1] == n
  {
    var prev := Chunks(n - 1, b);
    if StartsTransaction(n, b) {
      assert Chunks(n, b) == prev + [[n]];
    } else {
      assert Chunks(n, b) == prev[..|prev| - 1] + [prev[|prev| - 1] + [n]];
    }
  }

  /**
   * Fifty objects at ten per transaction give six commits, not five: the
   * first holds objects 1..9 and the last holds object 50 alone.
   */
  lemma FiftyObjectsTenPerTransaction()
    ensures |Chunks(50, 10)| == 6
    ensures |Chunks(50, 10)[0]| == 9 && Chunks(50, 10)[5] == [50]
  {
    ChunksClosedForm(50, 10);
    assert Chunks(50, 10)[5] == ClosedChunk(50, 10, 5);
    assert ClosedChunk(50, 10, 5) == Interval(50, 50);
    assert Interval(50, 50) == Interval(50, 49) + [50];
  }
}
