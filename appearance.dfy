/** The order in which node ids first appear. The derivation loop reads each
    link's source, then its target (script.js:37-43), and a JavaScript `Map`
    keeps its keys in insertion order (script.js:60). */
module Appearance {
  import opened Links

  /** Every endpoint the links name, in the order the loop reads them. */
  function Endpoints(links: seq<Link>): (e: seq<Cell>)
    ensures |e| == 2 * |links|
    ensures forall i :: 0 <= i < |links| ==>
              e[2 * i] == links[i].source && e[2 * i + 1] == links[i].target
  {
    if links == [] then []
    else
      var n := |links| - 1;
      Endpoints(links[..n]) + [links[n].source, links[n].target]
  }

  /** The position of the first occurrence of `k` in `s`. */
  function FirstPos(s: seq<Cell>, k: Cell): (p: nat)
    requires k in s
    ensures p < |s| && s[p] == k && k !in s[..p]
  {
    if s[0] == k then 0 else 1 + FirstPos(s[1..], k)
  }

  predicate NoDuplicates(s: seq<Cell>) {
    forall i, j :: 0 <= i < j < |s| ==> s[i] != s[j]
  }

  /** Every key occurs in `seen`, and the keys are listed by increasing
      position of their first occurrence there. */
  predicate InSeenOrder(keys: seq<Cell>, seen: seq<Cell>) {
    && (forall k :: k in keys ==> k in seen)
    && forall p, q :: 0 <= p < q < |keys| ==> FirstPos(seen, keys[p]) < FirstPos(seen, keys[q])
  }

  /** `keys` lists each distinct element of `seen` exactly once, by order of
      first appearance. */
  predicate FirstAppearanceOrder(keys: seq<Cell>, seen: seq<Cell>) {
    && InSeenOrder(keys, seen)
    && (forall k :: k in seen ==> k in keys)
    && NoDuplicates(keys)
  }

  /** The keys after a `Map.set` of `k`: a new key goes last, an existing
      one keeps its place. */
  function Extend(keys: seq<Cell>, k: Cell): (r: seq<Cell>)
    ensures keys <= r && k in r && |r| <= |keys| + 1
  {
    if k in keys then keys else keys + [k]
  }

  /** Reading more elements does not move an earlier first occurrence. */
  lemma FirstPosPrefix(a: seq<Cell>, b: seq<Cell>, k: Cell)
    requires k in a
    ensures FirstPos(a + b, k) == FirstPos(a, k)
  {
    var p, q := FirstPos(a + b, k), FirstPos(a, k);
    assert (a + b)[q] == k;
  }

  /** Reading one more element moves no first occurrence already seen. */
  lemma FirstPositionsKept(seen: seq<Cell>, k: Cell)
    ensures forall x :: x in seen ==> FirstPos(seen + [k], x) == FirstPos(seen, x)
  {
    forall x | x in seen
      ensures FirstPos(seen + [k], x) == FirstPos(seen, x)
    {
      FirstPosPrefix(seen, [k], x);
    }
  }

  /** A key read for the first time goes last and keeps the order. */
  lemma AppendNewKeyKeepsOrder(keys: seq<Cell>, seen: seq<Cell>, k: Cell)
    requires FirstAppearanceOrder(keys, seen) && k !in seen
    ensures FirstAppearanceOrder(keys + [k], seen + [k])
  {
    var seen', keys' := seen + [k], keys + [k];
    FirstPositionsKept(seen, k);
    assert FirstPos(seen', k) == |seen| by {
      assert seen'[|seen|] == k;
      assert seen'[..|seen|] == seen;
    }
    forall p, q | 0 <= p < q < |keys'|
      ensures FirstPos(seen', keys'[p]) < FirstPos(seen', keys'[q])
    {
      assert keys'[p] == keys[p];
      if q < |keys| {
        assert keys'[q] == keys[q];
      }
    }
  }

  /** Inserting the next endpoint read keeps the keys in first-appearance
      order: this is one `if (!nodesMap.has(k)) nodesMap.set(k, ...)`. */
  lemma ExtendKeepsOrder(keys: seq<Cell>, seen: seq<Cell>, k: Cell)
    requires FirstAppearanceOrder(keys, seen)
    ensures FirstAppearanceOrder(Extend(keys, k), seen + [k])
  {
    if k in keys {
      FirstPositionsKept(seen, k);
    } else {
      AppendNewKeyKeepsOrder(keys, seen, k);
    }
  }

  /** A non-empty list has its head as a member. `SameKeysSameOrder` calls
      this where `a` is empty: a hint written there as an `assert` would sit
      in a branch whose facts already contradict each other. */
  lemma HasHeadUnlessEmpty(s: seq<Cell>)
    ensures s == [] || s[0] in s
  {
  }

  /** The first key is the one that appeared earliest. */
  lemma HeadIsEarliest(keys: seq<Cell>, seen: seq<Cell>, x: Cell)
    requires InSeenOrder(keys, seen) && x in keys
    ensures keys != [] && FirstPos(seen, keys[0]) <= FirstPos(seen, x)
  {
  }

  /** In a list in first-appearance order, the keys after the head are the
      keys other than the head. */
  lemma TailKeys(keys: seq<Cell>, seen: seq<Cell>, x: Cell)
    requires InSeenOrder(keys, seen) && keys != []
    ensures x in keys[1..] <==> x in keys && x != keys[0]
  {
  }

  /** Two lists of the same keys, both in order of first appearance in
      `seen`, are the same list. */
  lemma {:induction false} SameKeysSameOrder(a: seq<Cell>, b: seq<Cell>, seen: seq<Cell>)
    requires InSeenOrder(a, seen) && InSeenOrder(b, seen)
    requires forall k :: k in a <==> k in b
    ensures a == b
  {
    if a != [] {
      assert a[0] in b;
      HeadIsEarliest(b, seen, a[0]);
      assert b[0] in a;
      HeadIsEarliest(a, seen, b[0]);
      assert a[0] == seen[FirstPos(seen, a[0])] == b[0];
      forall k
        ensures k in a[1..] <==> k in b[1..]
      {
        TailKeys(a, seen, k);
        TailKeys(b, seen, k);
      }
      SameKeysSameOrder(a[1..], b[1..], seen);
      assert a == [a[0]] + a[1..] && b == [b[0]] + b[1..];
    } else {
      HasHeadUnlessEmpty(b);
    }
  }

  /** First-appearance order pins the list down: there is exactly one. */
  lemma FirstAppearanceOrderUnique(a: seq<Cell>, b: seq<Cell>, seen: seq<Cell>)
    requires FirstAppearanceOrder(a, seen) && FirstAppearanceOrder(b, seen)
    ensures a == b
  {
    SameKeysSameOrder(a, b, seen);
  }

  /** `k` is in `s`, at one position only. */
  predicate OccursOnce(s: seq<Cell>, k: Cell) {
    k in s && forall p, q :: 0 <= p < q < |s| && s[p] == k ==> s[q] != k
  }

  /** Every link's source and target is the id of exactly one entry of a
      list in first-appearance order. */
  lemma EndpointsResolveOnce(ids: seq<Cell>, links: seq<Link>, i: nat)
    requires FirstAppearanceOrder(ids, Endpoints(links)) && i < |links|
    ensures OccursOnce(ids, links[i].source) && OccursOnce(ids, links[i].target)
  {
    LinkEndpointsSeen(links, i);
    DistinctOccursOnce(ids, links[i].source);
    DistinctOccursOnce(ids, links[i].target);
  }

  lemma DistinctOccursOnce(s: seq<Cell>, k: Cell)
    requires NoDuplicates(s) && k in s
    ensures OccursOnce(s, k)
  {
  }

  lemma LinkEndpointsSeen(links: seq<Link>, i: nat)
    requires i < |links|
    ensures links[i].source in Endpoints(links) && links[i].target in Endpoints(links)
  {
  }

  /** A list without duplicates has as many elements as its set of elements. */
  lemma {:induction false} DistinctCount(s: seq<Cell>)
    requires NoDuplicates(s)
    ensures |set k | k in s| == |s|
  {
    if s != [] {
      var n := |s| - 1;
      DistinctCount(s[..n]);
      assert (set k | k in s) == (set k | k in s[..n]) + {s[n]} by {
        assert s == s[..n] + [s[n]];
      }
      assert s[n] !in s[..n];
    }
  }

  /** A list in first-appearance order has one entry per distinct element
      of `seen`. */
  lemma OrderCount(keys: seq<Cell>, seen: seq<Cell>)
    requires FirstAppearanceOrder(keys, seen)
    ensures |keys| == |set k | k in seen|
  {
    DistinctCount(keys);
    assert (set k | k in keys) == (set k | k in seen);
  }
}
