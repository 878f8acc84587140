/**
 * Listener registries. A listener is foreign code, so it is modelled by an
 * opaque handle; a registry is the `ArrayList` of handles in registration
 * order. `add` appends, `remove(o)` drops the first element equal to `o`,
 * and a fire method hands one event to every registered listener in order.
 */
module Listeners {
  /** A registered listener object; equal handles stand for listeners that are `equals`. */
  datatype ListenerId = ListenerId(n: nat)

  /** `list.indexOf(x)`: the first position holding `x`, or -1. */
  function IndexOf<T(==)>(s: seq<T>, x: T): (i: int)
    ensures -1 <= i < |s|
    ensures i == -1 <==> x !in s
    ensures i >= 0 ==> s[i] == x && x !in s[..i]
  {
    if s == [] then -1
    else if s[0] == x then 0
    else
      var j := IndexOf(s[1..], x);
      if j == -1 then -1
      else
        assert s[..j + 1] == [s[0]] + s[1..][..j];
        j + 1
  }

  /** `list.remove(x)`: `indexOf`, then the element at that position taken out; unchanged when `x` is absent. */
  function RemoveFirst<T(==)>(s: seq<T>, x: T): (r: seq<T>)
    ensures x !in s ==> r == s
    ensures x in s ==> |r| == |s| - 1
    ensures x in s ==> exists i :: 0 <= i < |s| && s[i] == x && x !in s[..i] && r == s[..i] + s[i + 1..]
  {
    var i := IndexOf(s, x);
    if i < 0 then s else s[..i] + s[i + 1..]
  }

  /** Removing takes exactly one copy of `x` out of the registry when there is one, and nothing else. */
  lemma RemoveFirstCount<T>(s: seq<T>, x: T)
    ensures multiset(RemoveFirst(s, x)) == multiset(s) - multiset{x}
  {
    if x in s {
      MultisetRemoveAt(s, IndexOf(s, x));
    } else {
      assert multiset(s)[x] == 0;
    }
  }

  /** Taking out the element at `i` takes one copy of it out of the multiset. */
  lemma MultisetRemoveAt<T>(s: seq<T>, i: nat)
    requires i < |s|
    ensures multiset(s[..i] + s[i + 1..]) == multiset(s) - multiset{s[i]}
  {
    assert s == s[..i] + ([s[i]] + s[i + 1..]);
  }

  /** Adding a listener that was not registered and removing it again restores the registry. */
  lemma AddThenRemove<T>(s: seq<T>, x: T)
    requires x !in s
    ensures RemoveFirst(s + [x], x) == s
  {
    var i := IndexOf(s + [x], x);
    assert (s + [x])[..|s|] == s;
  }

  /** The calls one fire method makes: listener by listener, in registration order, the same event. */
  function Dispatch<E>(listeners: seq<ListenerId>, e: E): (r: seq<(ListenerId, E)>)
    ensures |r| == |listeners|
    ensures forall i :: 0 <= i < |r| ==> r[i] == (listeners[i], e)
  {
    if listeners == [] then [] else [(listeners[0], e)] + Dispatch(listeners[1..], e)
  }

  /** The for-each loop of a fire method. */
  method Notify<E>(listeners: seq<ListenerId>, e: E) returns (calls: seq<(ListenerId, E)>)
    ensures calls == Dispatch(listeners, e)
  {
    calls := [];
    for i := 0 to |listeners|
      invariant |calls| == i
      invariant forall k :: 0 <= k < i ==> calls[k] == (listeners[k], e)
    {
      calls := calls + [(listeners[i], e)];
    }
  }
}
