/** The document store the services run against, reduced to what they use:
    a keyed collection kept in insertion order, `find` with a filter, and
    `skip`/`limit` pagination. */
module Store {
  import opened Common

  /** No id occurs twice in `ids`. */
  predicate Distinct(ids: seq<Id>) {
    forall i, j | 0 <= i < j < |ids| :: ids[i] != ids[j]
  }

  /** `order` lists every key of `m` exactly once, in insertion order. The
      database promises no order for a `find` without a sort; the model
      assumes it returns documents in this order. */
  ghost predicate Indexed<V>(m: map<Id, V>, order: seq<Id>) {
    Distinct(order) && forall k :: k in m <==> k in order
  }

  /** The documents of `m`, in the order `order` gives. */
  function InOrder<V>(m: map<Id, V>, order: seq<Id>): (r: seq<V>)
    requires forall i | 0 <= i < |order| :: order[i] in m
    ensures |r| == |order|
    ensures forall i | 0 <= i < |order| :: r[i] == m[order[i]]
  {
    if order == [] then [] else [m[order[0]]] + InOrder(m, order[1..])
  }

  /** Inserting a document under a new key `id`, appended to the order, keeps
      the index sound and appends the document to the documents in order. */
  lemma Insert<V>(m: map<Id, V>, order: seq<Id>, id: Id, v: V)
    requires Indexed(m, order) && id !in m
    ensures Indexed(m[id := v], order + [id])
    ensures forall i | 0 <= i < |order| :: order[i] in m
    ensures InOrder(m[id := v], order + [id]) == InOrder(m, order) + [v]
  {
    var m', order' := m[id := v], order + [id];
    assert forall i | 0 <= i < |order| :: order'[i] == order[i] && order[i] in order;
    assert Distinct(order');
    assert forall k :: k in m' <==> k in order' by {
      forall k ensures k in m' <==> k in order' {
        assert k in order' <==> k in order || k == id;
      }
    }
    var lhs, rhs := InOrder(m', order'), InOrder(m, order) + [v];
    assert |lhs| == |rhs|;
    forall i | 0 <= i < |lhs| ensures lhs[i] == rhs[i] {
      if i < |order| {
        assert order'[i] == order[i] && order[i] != id;
      }
    }
  }

  /** `order` with `id` taken out and everything else kept in place. */
  function Without(order: seq<Id>, id: Id): (r: seq<Id>)
    ensures forall x :: x in r <==> x in order && x != id
    ensures Distinct(order) ==> Distinct(r)
  {
    if order == [] then []
    else
      var rest := Without(order[1..], id);
      assert Distinct(order) ==> Distinct(order[1..]) && order[0] !in order[1..] by {
        if Distinct(order) {
          forall i, j | 0 <= i < j < |order[1..]| ensures order[1..][i] != order[1..][j] {
            assert order[1..][i] == order[i + 1] && order[1..][j] == order[j + 1];
          }
        }
      }
      (if order[0] == id then [] else [order[0]]) + rest
  }

  /** The elements of `s` that satisfy `p`, in the order of `s`: what
      `find(filter)` returns before `skip` and `limit` are applied. */
  function Filter<T(!new)>(s: seq<T>, p: T -> bool): (r: seq<T>)
    ensures |r| <= |s|
    ensures forall x :: x in r <==> x in s && p(x)
  {
    if s == [] then [] else (if p(s[0]) then [s[0]] else []) + Filter(s[1..], p)
  }

  /** Filtering commutes with concatenation, so the matches keep the
      relative order they have in the collection. */
  lemma {:induction false} FilterAppend<T(!new)>(a: seq<T>, b: seq<T>, p: T -> bool)
    ensures Filter(a + b, p) == Filter(a, p) + Filter(b, p)
  {
    if a != [] {
      var head := if p(a[0]) then [a[0]] else [];
      assert (a + b)[0] == a[0];
      assert (a + b)[1..] == a[1..] + b;
      FilterAppend(a[1..], b, p);
      calc {
        Filter(a + b, p);
        head + Filter(a[1..] + b, p);
        head + (Filter(a[1..], p) + Filter(b, p));
        (head + Filter(a[1..], p)) + Filter(b, p);
        Filter(a, p) + Filter(b, p);
      }
    } else {
      assert a + b == b;
    }
  }

  /** Two filters that agree on every document select the same documents. */
  lemma {:induction false} FilterCongruent<T(!new)>(s: seq<T>, p: T -> bool, q: T -> bool)
    requires forall x :: p(x) == q(x)
    ensures Filter(s, p) == Filter(s, q)
  {
    if s != [] {
      FilterCongruent(s[1..], p, q);
    }
  }

  /** A filter that every element satisfies selects the whole sequence. */
  lemma {:induction false} FilterAll<T(!new)>(s: seq<T>, p: T -> bool)
    requires forall i | 0 <= i < |s| :: p(s[i])
    ensures Filter(s, p) == s
  {
    if s != [] {
      FilterAll(s[1..], p);
    }
  }

  /** A filter that no element satisfies selects nothing. */
  lemma {:induction false} FilterNone<T(!new)>(s: seq<T>, p: T -> bool)
    requires forall i | 0 <= i < |s| :: !p(s[i])
    ensures Filter(s, p) == []
  {
    if s != [] {
      FilterNone(s[1..], p);
    }
  }

  /** Filtering twice is filtering once by both conditions. */
  lemma {:induction false} FilterFilter<T(!new)>(s: seq<T>, p: T -> bool, q: T -> bool, both: T -> bool)
    requires forall x :: both(x) == (p(x) && q(x))
    ensures Filter(Filter(s, p), q) == Filter(s, both)
  {
    if s != [] {
      FilterFilter(s[1..], p, q, both);
      var once := Filter(s, p);
      if p(s[0]) {
        assert once == [s[0]] + Filter(s[1..], p);
        assert once[0] == s[0] && once[1..] == Filter(s[1..], p);
      } else {
        assert once == Filter(s[1..], p);
      }
    }
  }

  /** The number of documents to skip for a page: `(page - 1) * limit`. */
  function Skip(page: int, limit: int): int {
    (page - 1) * limit
  }

  /** `find(...).skip((page - 1) * limit).limit(limit)` over the matches `s`.
      Both arguments must be positive: the store reads `limit(0)` as "no
      limit" and rejects a negative skip, neither of which is modelled. */
  function Page<T>(s: seq<T>, page: int, limit: int): (r: seq<T>)
    requires page >= 1 && limit >= 1
    ensures Skip(page, limit) >= 0
    ensures |r| <= limit
    ensures |r| == if Skip(page, limit) >= |s| then 0 else Min(limit, |s| - Skip(page, limit))
    ensures forall k | 0 <= k < |r| :: r[k] == s[Skip(page, limit) + k]
  {
    var skip := Skip(page, limit);
    assert skip >= 0 by { NonNegativeProduct(page - 1, limit); }
    var lo := Min(skip, |s|);
    var hi := Min(skip + limit, |s|);
    s[lo..hi]
  }

  function Min(a: int, b: int): int {
    if a <= b then a else b
  }

  lemma NonNegativeProduct(a: int, b: int)
    requires a >= 0 && b >= 0
    ensures a * b >= 0
  {
  }

  /** Every match appears on exactly the page its position predicts: element
      `i` is item `i % limit` of page `i / limit + 1`. */
  lemma PageCovers<T>(s: seq<T>, limit: int, i: int)
    requires limit >= 1 && 0 <= i < |s|
    ensures i % limit < |Page(s, i / limit + 1, limit)|
    ensures Page(s, i / limit + 1, limit)[i % limit] == s[i]
  {
    var page := i / limit + 1;
    assert Skip(page, limit) == (i / limit) * limit;
    assert (i / limit) * limit + i % limit == i;
  }

  /** An element found on a page is one of the matches. */
  lemma PageWithin<T>(s: seq<T>, page: int, limit: int, x: T)
    requires page >= 1 && limit >= 1
    requires x in Page(s, page, limit)
    ensures x in s
  {
    var r := Page(s, page, limit);
    var k :| 0 <= k < |r| && r[k] == x;
    assert s[Skip(page, limit) + k] == x;
  }

  /** An upper bound on the length of every id in `ids`. */
  function MaxLength(ids: seq<Id>): (m: nat)
    ensures forall i | 0 <= i < |ids| :: |ids[i]| <= m
  {
    if ids == [] then 0
    else
      var rest := MaxLength(ids[1..]);
      if |ids[0]| > rest then |ids[0]| else rest
  }

  /** The id the store gives a new document: longer than every id already in
      use, hence distinct from all of them. */
  function FreshId(ids: seq<Id>): (r: Id)
    ensures r !in ids
  {
    seq(MaxLength(ids) + 1, _ => '0')
  }

  /** Removing key `id` from the map and the order removes, from the
      documents in order, exactly those that `keep` rejects. */
  lemma {:induction false} RemoveInOrder<V(!new)>(m: map<Id, V>, order: seq<Id>, id: Id, keep: V -> bool)
    requires forall i | 0 <= i < |order| :: order[i] in m
    requires forall k | k in m :: keep(m[k]) == (k != id)
    ensures forall i | 0 <= i < |Without(order, id)| :: Without(order, id)[i] in m - {id}
    ensures InOrder(m - {id}, Without(order, id)) == Filter(InOrder(m, order), keep)
  {
    var w := Without(order, id);
    assert forall i | 0 <= i < |w| :: w[i] in m - {id} by {
      forall i | 0 <= i < |w| ensures w[i] in m - {id} {
        assert w[i] in w;
      }
    }
    if order != [] {
      RemoveInOrder(m, order[1..], id, keep);
      var rest := Without(order[1..], id);
      var s := InOrder(m, order);
      assert s[0] == m[order[0]];
      assert s[1..] == InOrder(m, order[1..]);
      if order[0] == id {
        assert w == rest;
        assert !keep(s[0]);
      } else {
        assert w == [order[0]] + rest;
        assert keep(s[0]);
        assert w[1..] == rest;
      }
    }
  }
}
