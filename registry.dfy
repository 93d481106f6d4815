/**
 * The part of MainMultiAudioListener a MultiAudioSource relies on: the
 * registry of virtual listeners (in registration order, with the volume of
 * each listener object) and the shared pool of free channels. Fresh
 * channels, for when the pool is empty, get ids that were never handed out.
 */
module Registry {
  import opened AudioTypes
  import opened Seqs

  class MainMultiAudioListener {
    var listeners: seq<ListenerId>
    var listenerVolume: map<ListenerId, real>
    var pool: seq<ChannelId>
    var nextId: ChannelId

    ghost predicate Valid()
      reads this
    {
      && Distinct(listeners)
      && (forall l :: l in listeners ==> l in listenerVolume)
      && Distinct(pool)
      && (forall c :: c in pool ==> c < nextId)
    }

    constructor ()
      ensures Valid()
      ensures listeners == [] && listenerVolume == map[] && pool == [] && nextId == 0
    {
      listeners := [];
      listenerVolume := map[];
      pool := [];
      nextId := 0;
    }

    /** GetAudioSourceFromPool: the channel at the front of the pool, or None when it is empty. */
    method GetAudioSourceFromPool() returns (c: Option<ChannelId>)
      requires Valid()
      modifies this`pool
      ensures Valid()
      ensures old(pool) == [] ==> c == None && pool == []
      ensures old(pool) != [] ==> c == Some(old(pool)[0]) && pool == old(pool)[1..]
    {
      if pool == [] {
        c := None;
      } else {
        c := Some(pool[0]);
        DistinctTail(pool);
        assert forall x :: x in pool[1..] ==> x in pool;
        pool := pool[1..];
      }
    }

    /** A channel for a new game object: an id never handed out before. */
    method NewChannel() returns (c: ChannelId)
      requires Valid()
      modifies this`nextId
      ensures Valid()
      ensures c == old(nextId) && nextId == old(nextId) + 1
    {
      c := nextId;
      nextId := nextId + 1;
    }

    /** EnquequeAudioSourceInPool: the channel goes to the back of the pool. */
    method EnqueueAudioSourceInPool(c: ChannelId)
      requires Valid() && c !in pool && c < nextId
      modifies this`pool
      ensures Valid()
      ensures pool == old(pool) + [c]
    {
      pool := pool + [c];
    }

    /** A virtual listener that is not registered (new, or re-enabled) registers with volume `volume`. */
    method AddVirtualListener(l: ListenerId, volume: real)
      requires Valid() && l !in listeners
      modifies this`listeners, this`listenerVolume
      ensures Valid()
      ensures listeners == old(listeners) + [l]
      ensures listenerVolume == old(listenerVolume)[l := volume]
    {
      listeners := listeners + [l];
      listenerVolume := listenerVolume[l := volume];
    }

    /** A virtual listener unregisters; its object, and so its volume, remains. */
    method RemoveVirtualListener(l: ListenerId)
      requires Valid()
      modifies this`listeners
      ensures Valid()
      ensures listeners == Without(old(listeners), l)
    {
      WithoutDistinct(listeners, l);
      listeners := Without(listeners, l);
    }
  }
}
