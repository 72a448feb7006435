/** The scanner's round-robin refresh of its candidates. */
module Scanner {
  import opened IntFacts

  function MinNat(a: nat, b: nat): nat {
    if a <= b then a else b
  }

  function BatchSize(budget: int, n: nat): nat {
    MinNat(if budget >= 1 then budget else 1, n)
  }

  /** The candidate indices of one batch. */
  function Batch(cursor: nat, size: nat, n: nat): seq<nat>
    requires n > 0
  {
    seq(size, i requires 0 <= i < size => (cursor % n + i) % n)
  }

  function Advance(cursor: nat, size: nat, n: nat): nat
    requires n > 0
  {
    (cursor % n + size) % n
  }

  /** The cursor after k batches. */
  function CursorAfter(cursor: nat, size: nat, n: nat, k: nat): nat
    requires n > 0
  {
    if k == 0 then cursor else Advance(CursorAfter(cursor, size, n, k - 1), size, n)
  }

  /** Offsets less than one turn apart land on different candidates. */
  lemma Apart(cursor: int, a: int, b: int, n: int)
    requires n > 0 && 0 <= a < b < n
    ensures (cursor + a) % n != (cursor + b) % n
  {
    ModAdd(cursor, a, n);
    ModAdd(cursor, b, n);
    ModOnce(cursor % n + a, n);
    ModOnce(cursor % n + b, n);
  }

  lemma BatchIndex(cursor: nat, size: nat, n: nat, i: nat)
    requires n > 0 && i < size
    ensures Batch(cursor, size, n)[i] == (cursor + i) % n
  {
    ModAdd(cursor, i, n);
  }

  /** No candidate is refreshed twice in one batch. */
  lemma BatchHasNoRepeats(cursor: nat, budget: int, n: nat)
    requires n > 0
    ensures var b := Batch(cursor, BatchSize(budget, n), n);
            && |b| == BatchSize(budget, n) && (forall i :: 0 <= i < |b| ==> b[i] < n)
            && forall i, j :: 0 <= i < j < |b| ==> b[i] != b[j]
  {
    var size := BatchSize(budget, n);
    var b := Batch(cursor, size, n);
    forall i, j | 0 <= i < j < size ensures b[i] != b[j] {
      BatchIndex(cursor, size, n, i);
      BatchIndex(cursor, size, n, j);
      Apart(cursor, i, j, n);
    }
  }

  /** k batches move the cursor by k times the batch size around the circle. */
  lemma {:induction false} CursorPosition(cursor: nat, size: nat, n: nat, k: nat)
    requires n > 0
    ensures CursorAfter(cursor, size, n, k) % n == (cursor + k * size) % n
  {
    if k > 0 {
      CursorPosition(cursor, size, n, k - 1);
      CursorStep(CursorAfter(cursor, size, n, k - 1), cursor + (k - 1) * size, size, n);
      assert (k - 1) * size + size == k * size;
    }
  }

  lemma CursorStep(at: nat, offset: nat, size: nat, n: nat)
    requires n > 0 && at % n == offset % n
    ensures Advance(at, size, n) % n == (offset + size) % n
  {
    ModAdd(offset, size, n);
    ModAdd(at % n + size, 0, n);
  }

  /** How far around the circle place i of call c lies. */
  function Offset(c: nat, size: nat, i: nat): nat {
    c * size + i
  }

  /** The index that call c refreshes at place i. */
  lemma IndexOfCall(cursor: nat, size: nat, n: nat, c: nat, i: nat)
    requires n > 0 && i < size
    ensures Batch(CursorAfter(cursor, size, n, c), size, n)[i] == (cursor + Offset(c, size, i)) % n
  {
    var at := CursorAfter(cursor, size, n, c);
    CursorPosition(cursor, size, n, c);
    BatchIndex(at, size, n, i);
    ModAdd(at, i, n);
    ModAdd(cursor + c * size, i, n);
  }

  /** Candidate x is in the batch of call c. */
  ghost predicate Refreshed(cursor: nat, size: nat, n: nat, c: nat, x: nat)
    requires n > 0
  {
    x in Batch(CursorAfter(cursor, size, n, c), size, n)
  }

  /** Some call among the first k refreshes candidate x. */
  ghost predicate Within(cursor: nat, size: nat, n: nat, k: nat, x: nat)
    requires n > 0
  {
    exists c: nat :: c < k && Refreshed(cursor, size, n, c, x)
  }

  /** For a stable candidate list, any k consecutive calls with k * size >= n refresh every
      candidate, from any cursor. */
  lemma RoundRobinCovers(cursor: nat, size: nat, n: nat, k: nat, x: nat)
    requires x < n && size > 0 && k * size >= n
    ensures Within(cursor, size, n, k, x)
  {
    var t := (x - cursor) % n;
    Returns(cursor, x, n);
    QuotientBelow(t, size, k);
    assert Offset(t / size, size, t % size) == t;
    hide Within, Offset;
    PlaceRefreshes(cursor, size, n, k, t / size, t % size);
  }

  lemma PlaceRefreshes(cursor: nat, size: nat, n: nat, k: nat, c: nat, i: nat)
    requires n > 0 && i < size && c < k
    ensures Within(cursor, size, n, k, (cursor + Offset(c, size, i)) % n)
  {
    hide Offset;
    IndexOfCall(cursor, size, n, c, i);
    assert Refreshed(cursor, size, n, c, (cursor + Offset(c, size, i)) % n);
  }

  lemma Returns(cursor: int, x: int, n: int)
    requires 0 <= x < n
    ensures (cursor + (x - cursor) % n) % n == x
  {
    ModAdd(x - cursor, cursor, n);
    ModOnce(x, n);
  }

  /** With fewer calls the candidate after the last batch is left out. */
  lemma CoverageNeedsCalls(cursor: nat, size: nat, n: nat, k: nat)
    requires n > 0 && k * size < n
    ensures !Within(cursor, size, n, k, (cursor + k * size) % n)
  {
    var x := (cursor + k * size) % n;
    forall c: nat | c < k ensures !Refreshed(cursor, size, n, c, x) {
      NotRefreshed(cursor, size, n, k, c);
    }
  }

  lemma NotRefreshed(cursor: nat, size: nat, n: nat, k: nat, c: nat)
    requires n > 0 && k * size < n && c < k
    ensures !Refreshed(cursor, size, n, c, (cursor + k * size) % n)
  {
    ProductGrows(c + 1, k, size);
    assert (c + 1) * size == c * size + size;
    forall i | 0 <= i < size
      ensures Batch(CursorAfter(cursor, size, n, c), size, n)[i] != (cursor + k * size) % n
    {
      IndexOfCall(cursor, size, n, c, i);
      Apart(cursor, c * size + i, k * size, n);
    }
  }

  /** k consecutive calls refresh every candidate exactly when k batches hold them all. */
  lemma CoversIff(cursor: nat, size: nat, n: nat, k: nat)
    requires n > 0 && size > 0
    ensures (forall x: nat :: x < n ==> Within(cursor, size, n, k, x)) <==> k * size >= n
  {
    if k * size >= n {
      forall x: nat | x < n ensures Within(cursor, size, n, k, x) {
        RoundRobinCovers(cursor, size, n, k, x);
      }
    } else {
      CoverageNeedsCalls(cursor, size, n, k);
      assert 0 <= (cursor + k * size) % n < n;
    }
  }

  class Scanner<T> {
    var cursor: nat
    const budget: int

    constructor (budget: int)
      ensures cursor == 0 && this.budget == budget
    {
      cursor, this.budget := 0, budget;
    }

    /** _scanner_refresh_batch. */
    method RefreshBatch(candidates: seq<T>) returns (batch: seq<T>)
      modifies this
      ensures candidates == [] ==> batch == [] && cursor == old(cursor)
      ensures candidates != [] ==>
                var n := |candidates|;
                var size := BatchSize(budget, n);
                && |batch| == size == (if budget < 1 then 1 else if budget < n then budget else n)
                && (forall i :: 0 <= i < size ==> Drawn(candidates, batch, old(cursor), size, i))
                && cursor == Advance(old(cursor), size, n) == (old(cursor) + size) % n
    {
      if candidates == [] {
        return [];
      }
      var n := |candidates|;
      var size := BatchSize(budget, n);
      var start := cursor % n;
      batch := seq(size, i requires 0 <= i < size => candidates[(start + i) % n]);
      forall i | 0 <= i < size ensures Drawn(candidates, batch, cursor, size, i) {
        BatchIndex(cursor, size, n, i);
      }
      ModAdd(cursor, size, n);
      cursor := (start + size) % n;
    }
  }

  /** The i-th candidate drawn is the one the batch names: i places after the cursor, round. */
  ghost predicate Drawn<T>(candidates: seq<T>, batch: seq<T>, cursor: nat, size: nat, i: nat)
    requires candidates != [] && i < size == |batch|
  {
    && Batch(cursor, size, |candidates|)[i] == (cursor + i) % |candidates|
    && batch[i] == candidates[(cursor + i) % |candidates|]
  }
}
