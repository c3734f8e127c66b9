/**
 * The history list of the calculator page: deleting by identifier keeps, in
 * order, the entries whose identifier differs from `id`.
 */
module HistoryList {
  import opened Evaluator

  /** The history without the entries whose identifier is `id`. */
  function WithoutId(h: seq<TestEntry>, id: string): (r: seq<TestEntry>)
    ensures |r| <= |h|
    ensures forall e :: e in r <==> e in h && e.id != id
  {
    if h == [] then []
    else if h[0].id == id then WithoutId(h[1..], id)
    else [h[0]] + WithoutId(h[1..], id)
  }

  /**
   * Filtering distributes over concatenation, so the kept entries stay in
   * their original order.
   */
  lemma {:induction false} WithoutIdConcat(a: seq<TestEntry>, b: seq<TestEntry>, id: string)
    ensures WithoutId(a + b, id) == WithoutId(a, id) + WithoutId(b, id)
  {
    if a != [] {
      assert (a + b)[1..] == a[1..] + b;
      WithoutIdConcat(a[1..], b, id);
      if a[0].id != id {
        assert [a[0]] + (WithoutId(a[1..], id) + WithoutId(b, id))
            == ([a[0]] + WithoutId(a[1..], id)) + WithoutId(b, id);
      }
    } else {
      assert a + b == b;
    }
  }

  /** Deleting an identifier that no entry carries leaves the history as it is. */
  lemma {:induction false} WithoutAbsentId(h: seq<TestEntry>, id: string)
    requires forall e :: e in h ==> e.id != id
    ensures WithoutId(h, id) == h
  {
    if h != [] {
      assert h[0] in h;
      WithoutAbsentId(h[1..], id);
    }
  }

  /** Deleting the same identifier twice is the same as deleting it once. */
  lemma WithoutIdIdempotent(h: seq<TestEntry>, id: string)
    ensures WithoutId(WithoutId(h, id), id) == WithoutId(h, id)
  {
    WithoutAbsentId(WithoutId(h, id), id);
  }

  /** How many entries carry `id`. */
  function CountId(h: seq<TestEntry>, id: string): (n: nat)
    ensures n <= |h|
  {
    if h == [] then 0 else (if h[0].id == id then 1 else 0) + CountId(h[1..], id)
  }

  /** Exactly the entries carrying `id` are removed: the others are all kept. */
  lemma {:induction false} WithoutIdLength(h: seq<TestEntry>, id: string)
    ensures |WithoutId(h, id)| == |h| - CountId(h, id)
  {
    if h != [] {
      WithoutIdLength(h[1..], id);
    }
  }
}
