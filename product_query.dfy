/**
 * What the pages ask of the product collection: select the documents a
 * filter admits, sort them by one key, skip some and keep at most a limit.
 * The document store itself is not modelled; these functions state what
 * its answer is.
 */
module ProductQuery {
  import opened Common
  import opened Types

  /** The sort keys the pages use. */
  datatype SortField = Featured | Price | Rating | CreatedAt | Id

  datatype Direction = Ascending | Descending

  /** A one-key sort order such as `{ price: 1 }` or `{ rating: -1 }`. */
  datatype Order = Order(field: SortField, dir: Direction)

  /**
   * The value a document has under a sort key. Product documents carry
   * `isFeatured`, not `featured`, so under `featured` every document has the
   * same (missing) key.
   */
  function Key(f: SortField, p: Product): real {
    match f
    case Featured => 0.0
    case Price => p.price
    case Rating => p.rating
    case CreatedAt => p.createdAt as real
    case Id => p.id as real
  }

  /** `a` may come before `b` under order `o`. */
  predicate Before(o: Order, a: Product, b: Product) {
    if o.dir == Ascending then Key(o.field, a) <= Key(o.field, b)
    else Key(o.field, a) >= Key(o.field, b)
  }

  ghost predicate SortedBy(o: Order, s: seq<Product>) {
    forall i, j :: 0 <= i < j < |s| ==> Before(o, s[i], s[j])
  }

  lemma {:induction false} PrependSorted(o: Order, h: Product, t: seq<Product>)
    requires SortedBy(o, t)
    requires forall y :: y in t ==> Before(o, h, y)
    ensures SortedBy(o, [h] + t)
  {
    var r := [h] + t;
    forall i, j | 0 <= i < j < |r| ensures Before(o, r[i], r[j]) {
      if i > 0 {
        assert r[i] == t[i - 1] && r[j] == t[j - 1];
      } else {
        assert r[j] in t;
      }
    }
  }

  /** Insert `x` into the sorted `s` before the first element it may precede. */
  function Insert(o: Order, x: Product, s: seq<Product>): (r: seq<Product>)
    requires SortedBy(o, s)
    ensures SortedBy(o, r)
    ensures multiset(r) == multiset(s) + multiset{x}
  {
    if s == [] then [x]
    else if Before(o, x, s[0]) then
      PrependSorted(o, x, s);
      [x] + s
    else
      assert s == [s[0]] + s[1..];
      var rest := Insert(o, x, s[1..]);
      assert forall y :: y in rest ==> y == x || y in s[1..] by {
        forall y | y in rest ensures y == x || y in s[1..] {
          assert y in multiset(rest);
        }
      }
      PrependSorted(o, s[0], rest);
      [s[0]] + rest
  }

  /**
   * The documents in the order `sort(o)` returns them: sorted by the key and
   * a permutation of the input. Documents with equal keys keep their input
   * order.
   */
  function Sort(o: Order, s: seq<Product>): (r: seq<Product>)
    ensures SortedBy(o, r)
    ensures multiset(r) == multiset(s)
  {
    if s == [] then []
    else
      assert s == [s[0]] + s[1..];
      Insert(o, s[0], Sort(o, s[1..]))
  }

  /** The documents `keep` admits, in collection order (`find(filter)`). */
  function Where(s: seq<Product>, keep: Product -> bool): (r: seq<Product>)
    ensures forall p :: p in r <==> p in s && keep(p)
    ensures multiset(r) <= multiset(s)
    ensures forall p :: multiset(r)[p] == if keep(p) then multiset(s)[p] else 0
  {
    if s == [] then []
    else
      assert s == [s[0]] + s[1..];
      if keep(s[0]) then [s[0]] + Where(s[1..], keep) else Where(s[1..], keep)
  }

  /** `.skip(skip).limit(limit)` on an already ordered result. */
  function Window(s: seq<Product>, skip: nat, limit: nat): (r: seq<Product>)
    ensures |r| <= limit && |r| <= |s|
    ensures skip < |s| ==> |r| == Min(limit, |s| - skip)
    ensures skip >= |s| ==> r == []
    ensures forall i :: 0 <= i < |r| ==> skip + i < |s| && r[i] == s[skip + i]
  {
    if skip >= |s| then [] else s[skip..skip + Min(limit, |s| - skip)]
  }

  /**
   * A page of a sorted result: every item comes from the input, the page is
   * itself sorted, and it holds at most `limit` items and at most as many as
   * the input.
   */
  lemma {:induction false} WindowOfSort(o: Order, s: seq<Product>, skip: nat, limit: nat)
    ensures var w := Window(Sort(o, s), skip, limit);
      && (forall p :: p in w ==> p in s)
      && SortedBy(o, w)
      && |w| <= Min(limit, |s|)
  {
    var sorted := Sort(o, s);
    var w := Window(sorted, skip, limit);
    assert |sorted| == |s| by { assert |multiset(sorted)| == |multiset(s)|; }
    forall p | p in w ensures p in s {
      var i :| 0 <= i < |w| && w[i] == p;
      assert p == sorted[skip + i];
      assert p in multiset(sorted);
    }
    forall i, j | 0 <= i < j < |w| ensures Before(o, w[i], w[j]) {
      assert w[i] == sorted[skip + i] && w[j] == sorted[skip + j];
    }
  }
}
