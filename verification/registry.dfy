/**
 * The observe-all registry (`this.allListeners`, a JavaScript `Set`,
 * index.js:19, 72-78) as a duplicate-free sequence: a `Set` iterates in
 * insertion order and holds each identity at most once.
 */
module Registry {

  /** The identity of a listener callback; the model only compares identities. */
  type ListenerId = nat

  predicate NoDuplicates(s: seq<ListenerId>)
  {
    forall i, j :: 0 <= i < j < |s| ==> s[i] != s[j]
  }

  /**
   * `Set.prototype.add`: an element already present leaves the set as it
   * was; a new one joins at the end of the iteration order.
   */
  function Add(s: seq<ListenerId>, x: ListenerId): (r: seq<ListenerId>)
    ensures NoDuplicates(s) ==> NoDuplicates(r)
    ensures forall y :: y in r <==> y in s || y == x
    ensures x in s ==> r == s
    ensures x !in s ==> |r| == |s| + 1 && r[..|s|] == s && r[|s|] == x
  {
    if x in s then s else s + [x]
  }

  /**
   * `Set.prototype.delete`: the element is gone, everything else stays;
   * deleting an absent element changes nothing.
   */
  function Remove(s: seq<ListenerId>, x: ListenerId): (r: seq<ListenerId>)
    ensures forall y :: y in r <==> y in s && y != x
    ensures NoDuplicates(s) ==> NoDuplicates(r)
    ensures x !in s ==> r == s
    decreases |s|
  {
    if s == [] then []
    else if s[0] == x then Remove(s[1..], x)
    else
      var rest := Remove(s[1..], x);
      assert NoDuplicates(s) ==> s[0] !in s[1..] && s[0] !in rest;
      [s[0]] + rest
  }

  /** Deleting one element keeps the relative order of all the others. */
  lemma {:induction false} RemoveKeepsOrder(a: seq<ListenerId>, x: ListenerId, b: seq<ListenerId>)
    requires x !in a && x !in b
    ensures Remove(a + [x] + b, x) == a + b
    decreases |a|
  {
    if a == [] {
      assert a + [x] + b == [x] + b;
      assert ([x] + b)[1..] == b;
    } else {
      assert (a + [x] + b)[0] == a[0];
      assert (a + [x] + b)[1..] == a[1..] + [x] + b;
      RemoveKeepsOrder(a[1..], x, b);
      assert a + b == [a[0]] + (a[1..] + b);
    }
  }

  /** Adding a new element and deleting it again restores the set, order included. */
  lemma AddThenRemove(s: seq<ListenerId>, x: ListenerId)
    requires x !in s
    ensures Remove(Add(s, x), x) == s
  {
    RemoveKeepsOrder(s, x, []);
    assert s + [x] + [] == s + [x];
    assert s + [] == s;
  }

  /** Adding twice is adding once. */
  lemma AddIdempotent(s: seq<ListenerId>, x: ListenerId)
    ensures Add(Add(s, x), x) == Add(s, x)
  {
  }
}
