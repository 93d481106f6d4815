/**
 * The channels Stop hands back to the pool: every live channel of the
 * dictionary, once each, in enumeration order.
 */
module Release {
  import opened AudioTypes
  import opened Seqs

  /** No two listeners share a channel. */
  ghost predicate IdsInjective(sub: map<ListenerId, Channel>) {
    forall l, k :: l in sub && k in sub && l != k ==> sub[l].id != sub[k].id
  }

  /**
   * The channels of the table belong to it alone: no two listeners share one,
   * none is in the pool, and each was handed out (is below the next fresh id).
   */
  ghost predicate OwnedBy(sub: map<ListenerId, Channel>, pool: seq<ChannelId>, next: ChannelId) {
    && IdsInjective(sub)
    && forall l :: l in sub ==> sub[l].id !in pool && sub[l].id < next
  }

  /** Ownership depends only on the ids the table holds. */
  lemma OwnedBySameIds(sub: map<ListenerId, Channel>, sub': map<ListenerId, Channel>, pool: seq<ChannelId>, next: ChannelId)
    requires OwnedBy(sub, pool, next)
    requires sub'.Keys == sub.Keys && forall l :: l in sub ==> sub'[l].id == sub[l].id
    ensures OwnedBy(sub', pool, next)
  {
  }

  /** Mapping a further listener to a channel that is neither held, pooled nor fresh keeps ownership. */
  lemma OwnedByInsert(sub: map<ListenerId, Channel>, pool: seq<ChannelId>, next: ChannelId, l: ListenerId, c: Channel)
    requires OwnedBy(sub, pool, next) && l !in sub
    requires c.id !in pool && c.id < next && forall k :: k in sub ==> sub[k].id != c.id
    ensures OwnedBy(sub[l := c], pool, next)
  {
  }

  /** Unmapping a listener and handing its channel back to the back of the pool keeps ownership. */
  lemma OwnedByRemove(sub: map<ListenerId, Channel>, pool: seq<ChannelId>, next: ChannelId, l: ListenerId, back: seq<ChannelId>)
    requires OwnedBy(sub, pool, next) && l in sub
    requires forall x :: x in back ==> x == sub[l].id
    ensures OwnedBy(sub - {l}, pool + back, next)
  {
    forall k | k in sub && k != l
      ensures sub[k].id !in pool + back
    {
      assert sub[k].id != sub[l].id;
    }
  }

  /** The ids of the live channels of the listeners in `order`, in that order. */
  function LiveIds(order: seq<ListenerId>, sub: map<ListenerId, Channel>): seq<ChannelId>
    requires forall l :: l in order ==> l in sub
  {
    if order == [] then []
    else
      var rest := LiveIds(order[..|order| - 1], sub);
      var c := sub[order[|order| - 1]];
      if c.alive then rest + [c.id] else rest
  }

  /** When every channel of `order` is live, Stop releases exactly one channel per listener. */
  lemma {:induction false} LiveIdsAllLive(order: seq<ListenerId>, sub: map<ListenerId, Channel>)
    requires forall l :: l in order ==> l in sub && sub[l].alive
    ensures |LiveIds(order, sub)| == |order|
  {
    if order != [] {
      LiveIdsAllLive(order[..|order| - 1], sub);
    }
  }

  /** An id is released exactly when it is the channel of a listener in `order` and that channel is live. */
  lemma {:induction false} LiveIdsMembership(order: seq<ListenerId>, sub: map<ListenerId, Channel>, x: ChannelId)
    requires forall l :: l in order ==> l in sub
    ensures x in LiveIds(order, sub) <==>
            exists j :: 0 <= j < |order| && sub[order[j]].alive && sub[order[j]].id == x
  {
    if order != [] {
      var n := |order| - 1;
      var front := order[..n];
      LiveIdsMembership(front, sub, x);
      if (exists j :: 0 <= j < |order| && sub[order[j]].alive && sub[order[j]].id == x) {
        var j :| 0 <= j < |order| && sub[order[j]].alive && sub[order[j]].id == x;
        if j < n {
          assert front[j] == order[j];
        }
      }
      if x in LiveIds(front, sub) {
        var j :| 0 <= j < |front| && sub[front[j]].alive && sub[front[j]].id == x;
        assert order[j] == front[j];
      }
    }
  }

  /** A duplicate-free order over channels no two listeners share releases no channel twice. */
  lemma {:induction false} LiveIdsDistinct(order: seq<ListenerId>, sub: map<ListenerId, Channel>)
    requires forall l :: l in order ==> l in sub
    requires Distinct(order) && IdsInjective(sub)
    ensures Distinct(LiveIds(order, sub))
  {
    if order != [] {
      var n := |order| - 1;
      var front := order[..n];
      assert Distinct(front) by {
        forall i, j | 0 <= i < j < |front| ensures front[i] != front[j] {
          assert front[i] == order[i] && front[j] == order[j];
        }
      }
      LiveIdsDistinct(front, sub);
      var c := sub[order[n]];
      if c.alive {
        LiveIdsMembership(front, sub, c.id);
        assert c.id !in LiveIds(front, sub);
      }
    }
  }

  /** Visiting one more listener appends its channel when it is live. */
  lemma LiveIdsStep(order: seq<ListenerId>, sub: map<ListenerId, Channel>, i: nat)
    requires i < |order| && forall l :: l in order ==> l in sub
    ensures sub[order[i]].alive ==> LiveIds(order[..i + 1], sub) == LiveIds(order[..i], sub) + [sub[order[i]].id]
    ensures !sub[order[i]].alive ==> LiveIds(order[..i + 1], sub) == LiveIds(order[..i], sub)
  {
    assert order[..i + 1][..i] == order[..i];
  }

  /**
   * While Stop walks the enumeration order, the channel it reaches is still
   * neither pooled nor released: the pool can take it back.
   */
  lemma NotYetReleased(order: seq<ListenerId>, sub: map<ListenerId, Channel>, pool: seq<ChannelId>, next: ChannelId, i: nat)
    requires Distinct(order) && (forall l :: l in order ==> l in sub) && OwnedBy(sub, pool, next) && i < |order|
    ensures sub[order[i]].id !in pool + LiveIds(order[..i], sub) && sub[order[i]].id < next
  {
    var c := sub[order[i]];
    LiveIdsMembership(order[..i], sub, c.id);
    assert forall j :: 0 <= j < i ==> order[..i][j] == order[j] && order[j] != order[i];
  }

  /** What is released depends only on which channel each listener holds and whether it is live. */
  lemma {:induction false} LiveIdsAgree(order: seq<ListenerId>, s1: map<ListenerId, Channel>, s2: map<ListenerId, Channel>)
    requires forall l :: l in order ==> l in s1 && l in s2 && s1[l].id == s2[l].id && s1[l].alive == s2[l].alive
    ensures LiveIds(order, s1) == LiveIds(order, s2)
  {
    if order != [] {
      LiveIdsAgree(order[..|order| - 1], s1, s2);
    }
  }

  /**
   * Stop returns each live channel of the table to the pool exactly once and
   * a destroyed one not at all.
   */
  lemma ReleasedOnce(order: seq<ListenerId>, sub: map<ListenerId, Channel>, l: ListenerId)
    requires forall k :: k in order <==> k in sub
    requires Distinct(order) && IdsInjective(sub)
    requires l in sub
    ensures multiset(LiveIds(order, sub))[sub[l].id] == if sub[l].alive then 1 else 0
  {
    LiveIdsDistinct(order, sub);
    DistinctCount(LiveIds(order, sub), sub[l].id);
    LiveIdsMembership(order, sub, sub[l].id);
  }

  /** A channel no listener holds is never released. */
  lemma UnheldNotReleased(order: seq<ListenerId>, sub: map<ListenerId, Channel>, x: ChannelId)
    requires forall k :: k in order <==> k in sub
    requires forall k :: k in sub ==> sub[k].id != x
    ensures x !in LiveIds(order, sub)
  {
    LiveIdsMembership(order, sub, x);
  }
}
