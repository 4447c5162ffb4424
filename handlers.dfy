/**
 * Handler lists with the semantics of a .NET multicast delegate: `+=`
 * appends a handler to the invocation list, `-=` removes the LAST
 * occurrence of that handler and leaves the list as it is when the handler
 * is not in it. Handlers are identified by opaque ids.
 */
module Handlers {

  /** Identity of a subscribed delegate. */
  type Handler = nat

  /** The invocation list after `-= h`. */
  function RemoveLast(hs: seq<Handler>, h: Handler): (r: seq<Handler>)
    ensures |r| == if h in hs then |hs| - 1 else |hs|
    ensures forall x :: x in r ==> x in hs
  {
    if hs == [] then []
    else if hs[|hs| - 1] == h then hs[..|hs| - 1]
    else RemoveLast(hs[..|hs| - 1], h) + [hs[|hs| - 1]]
  }

  /** Removing a handler that was never added changes nothing. */
  lemma {:induction false} RemoveLastAbsent(hs: seq<Handler>, h: Handler)
    requires h !in hs
    ensures RemoveLast(hs, h) == hs
  {
    if hs != [] {
      RemoveLastAbsent(hs[..|hs| - 1], h);
      assert hs == hs[..|hs| - 1] + [hs[|hs| - 1]];
    }
  }

  /** `-=` takes away exactly one copy of the handler, when there is one. */
  lemma {:induction false} RemoveLastMultiset(hs: seq<Handler>, h: Handler)
    ensures multiset(RemoveLast(hs, h)) == multiset(hs) - multiset{h}
  {
    if hs != [] {
      var init, last := hs[..|hs| - 1], hs[|hs| - 1];
      assert hs == init + [last];
      if last != h {
        RemoveLastMultiset(init, h);
      }
    }
  }

  /** The position of the last registration of `h`. */
  function LastIndex(hs: seq<Handler>, h: Handler): (k: nat)
    requires h in hs
    ensures k < |hs| && hs[k] == h && h !in hs[k + 1..]
  {
    if hs[|hs| - 1] == h then |hs| - 1
    else
      assert hs == hs[..|hs| - 1] + [hs[|hs| - 1]];
      LastIndex(hs[..|hs| - 1], h)
  }

  /** Removing at the last registration of `h` keeps the entries before and after it. */
  lemma {:induction false} RemoveLastAt(hs: seq<Handler>, h: Handler, k: nat)
    requires k < |hs| && hs[k] == h && h !in hs[k + 1..]
    ensures RemoveLast(hs, h) == hs[..k] + hs[k + 1..]
    decreases |hs|
  {
    var init, last := hs[..|hs| - 1], hs[|hs| - 1];
    if k == |hs| - 1 {
      assert hs[k + 1..] == [];
    } else {
      assert last in hs[k + 1..];
      assert init[k + 1..] + [last] == hs[k + 1..];
      RemoveLastAt(init, h, k);
      assert init[..k] == hs[..k];
    }
  }

  /**
   * `-=` removes the last occurrence of the handler and keeps every other
   * entry in its order.
   */
  lemma RemoveLastIsLast(hs: seq<Handler>, h: Handler)
    requires h in hs
    ensures exists k :: 0 <= k < |hs| && hs[k] == h && h !in hs[k + 1..]
                        && RemoveLast(hs, h) == hs[..k] + hs[k + 1..]
  {
    var k := LastIndex(hs, h);
    RemoveLastAt(hs, h, k);
  }

  /** `+= h` followed by `-= h` restores the invocation list. */
  lemma AddThenRemove(hs: seq<Handler>, h: Handler)
    ensures RemoveLast(hs + [h], h) == hs
  {
    assert (hs + [h])[..|hs|] == hs;
  }
}
