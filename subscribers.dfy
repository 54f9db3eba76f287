/**
 * The subscriber lists that the modulation sources (sample-and-hold,
 * chaos, LFO, multiply and value nodes) keep: pairs of a node and one of
 * its parameter indices, asked to re-run `updateParam` whenever the
 * source's value changes. Every such node class repeats the same
 * `addSubscriber`/`removeSubscriber`/`notifySubscribers` trio; the list
 * arithmetic they share is stated here once.
 *
 * `notifySubscribers` calls `node.updateParam(paramIndex)` on each
 * entry in list order; the model records those calls, oldest first, in a
 * log of subscriber entries instead of running them. Every subscriber is
 * a graph node, which always has `updateParam`, so the guard in front of
 * the call is taken to hold.
 */
module Subscribers {
  import opened Lists
  import D = DspNode

  datatype Subscriber = Subscriber(node: D.NodeId, paramIndex: nat)

  /** The test of `removeSubscriber`'s filter: `!(s.node === node && s.paramIndex === paramIndex)`. */
  function Unmatched(node: D.NodeId, paramIndex: nat): Subscriber -> bool {
    (s: Subscriber) => !(s.node == node && s.paramIndex == paramIndex)
  }

  /** `subscribers.filter(...)` as `removeSubscriber` writes it. */
  function Removed(subs: seq<Subscriber>, node: D.NodeId, paramIndex: nat): (r: seq<Subscriber>)
    ensures |r| <= |subs|
  {
    Filter(subs, Unmatched(node, paramIndex))
  }

  /**
   * `removeSubscriber(node, paramIndex)` drops exactly the pairs that
   * match, keeps every other pair as often as it occurred, and keeps
   * their order: removing from a concatenation removes from each part.
   */
  lemma RemovedExactly(subs: seq<Subscriber>, node: D.NodeId, paramIndex: nat, s: Subscriber)
    ensures s == Subscriber(node, paramIndex) ==> s !in Removed(subs, node, paramIndex)
    ensures s != Subscriber(node, paramIndex) ==>
      multiset(Removed(subs, node, paramIndex))[s] == multiset(subs)[s]
  {
    FilterCount(subs, Unmatched(node, paramIndex), s);
  }

  /** Removing keeps the relative order: it distributes over concatenation. */
  lemma RemovedKeepsOrder(a: seq<Subscriber>, b: seq<Subscriber>, node: D.NodeId, paramIndex: nat)
    ensures Removed(a + b, node, paramIndex) == Removed(a, node, paramIndex) + Removed(b, node, paramIndex)
  {
    FilterAppend(a, b, Unmatched(node, paramIndex));
  }

  /** Removing the same pair twice is removing it once. */
  lemma RemovedIdempotent(subs: seq<Subscriber>, node: D.NodeId, paramIndex: nat)
    ensures Removed(Removed(subs, node, paramIndex), node, paramIndex) == Removed(subs, node, paramIndex)
  {
    FilterIdempotent(subs, Unmatched(node, paramIndex));
  }

  /** Subscribing and then unsubscribing the same pair leaves the list as it was without that pair. */
  lemma AddThenRemove(subs: seq<Subscriber>, node: D.NodeId, paramIndex: nat)
    ensures Removed(subs + [Subscriber(node, paramIndex)], node, paramIndex) == Removed(subs, node, paramIndex)
  {
    var x := Subscriber(node, paramIndex);
    FilterAppend(subs, [x], Unmatched(node, paramIndex));
    assert Filter([x], Unmatched(node, paramIndex)) == Filter([], Unmatched(node, paramIndex)) + [];
  }
}
