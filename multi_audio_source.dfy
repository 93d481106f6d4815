/**
 * MultiAudioSource: one logical sound emitter that plays through one
 * physical channel per virtual listener. The dictionary from listener to
 * channel is `subSources` (the channel record stored as the value), and
 * `order` is the order in which the dictionary enumerates its keys.
 */
module Source {
  import opened AudioTypes
  import opened Seqs
  import opened Culling
  import opened Release
  import opened Registry

  /** The playback state that the two flags `playing` and `paused` encode. */
  datatype PlaybackState = Stopped | Playing | Paused

  /** A walk that has rewritten `i` positions and finds the channel at `i` alive has not reached the first destroyed one. */
  lemma WalkReachesPosition(sub: map<ListenerId, Channel>, sub0: map<ListenerId, Channel>, os: seq<ListenerId>, i: nat,
                            volume: map<ListenerId, real>, w: ChannelWrite)
    requires (forall l :: l in os ==> l in sub0) && i <= FirstDead(os, sub0)
    requires Rewritten(sub, sub0, os, i, volume, w) && i < |os| && sub[os[i]].alive
    ensures i < FirstDead(os, sub0)
  {
    assert sub[os[i]] == sub0[os[i]];
  }

  /** A walk stops, at the end or at a destroyed channel, exactly at the first destroyed channel. */
  lemma WalkStopsAtFirstDead(sub: map<ListenerId, Channel>, sub0: map<ListenerId, Channel>, os: seq<ListenerId>, i: nat,
                             volume: map<ListenerId, real>, w: ChannelWrite)
    requires (forall l :: l in os ==> l in sub0) && i <= FirstDead(os, sub0)
    requires Rewritten(sub, sub0, os, i, volume, w) && (i == |os| || (i < |os| && !sub[os[i]].alive))
    ensures i == FirstDead(os, sub0)
  {
    if i < |os| {
      assert sub[os[i]] == sub0[os[i]];
    }
  }

  /**
   * The `foreach` over the dictionary: make the write `w` to every channel of
   * `sub`, in the enumeration order `os`. Touching a destroyed channel throws,
   * so the walk stops at the first one.
   */
  method WriteEach(sub: map<ListenerId, Channel>, os: seq<ListenerId>, volume: map<ListenerId, real>, w: ChannelWrite)
    returns (sub': map<ListenerId, Channel>, outcome: Outcome)
    requires Distinct(os) && (forall l :: l in os <==> l in sub) && (forall l :: l in sub ==> l in volume)
    ensures outcome == WalkOutcome(os, sub)
    ensures Rewritten(sub', sub, os, FirstDead(os, sub), volume, w)
  {
    ghost var k := FirstDead(os, sub);
    sub' := sub;
    var i := 0;
    while i < |os| && sub'[os[i]].alive
      invariant 0 <= i <= k
      invariant Rewritten(sub', sub, os, i, volume, w)
    {
      var l := os[i];
      WalkReachesPosition(sub', sub, os, i, volume, w);
      RewrittenStep(sub', sub, os, i, volume, w);
      sub' := sub'[l := Written(w, volume[l], sub'[l])];
      i := i + 1;
    }
    WalkStopsAtFirstDead(sub', sub, os, i, volume, w);
    outcome := if i < |os| then Failed(MissingReference) else Done;
  }

  /**
   * In a creation batch over `ls`, whether the channel at position `i` is
   * started: the hardware-channel flag after the first `i` creations, which
   * stays set while every started channel reports playing.
   */
  predicate BatchStarts(ls: seq<ListenerId>, granted: ListenerId -> bool, i: nat)
    requires i <= |ls|
  {
    i == 0 || (BatchStarts(ls, granted, i - 1) && granted(ls[i - 1]))
  }

  lemma BatchStartsStep(ls: seq<ListenerId>, granted: ListenerId -> bool, i: nat)
    requires i < |ls|
    ensures BatchStarts(ls, granted, i + 1) == (BatchStarts(ls, granted, i) && granted(ls[i]))
  {
  }

  /** The channel at position `i` is started exactly when every earlier channel of the batch reported playing. */
  lemma {:induction false} BatchStartsMeans(ls: seq<ListenerId>, granted: ListenerId -> bool, i: nat)
    requires i <= |ls|
    ensures BatchStarts(ls, granted, i) <==> forall j :: 0 <= j < i ==> granted(ls[j])
  {
    if i > 0 {
      BatchStartsMeans(ls, granted, i - 1);
    }
  }

  /**
   * Once a started channel of a batch reports that it is not playing, no
   * later channel of that batch is started.
   */
  lemma BatchStopsAfterRefusal(ls: seq<ListenerId>, granted: ListenerId -> bool, i: nat, k: nat)
    requires i < k <= |ls| && !granted(ls[i])
    ensures !BatchStarts(ls, granted, k)
  {
    BatchStartsMeans(ls, granted, k);
  }

  /**
   * The channel handed out at position `i` of a batch that begins with the pool
   * `pool` and next fresh id `next`: the pool front to back, then fresh ids.
   */
  function BatchChannel(pool: seq<ChannelId>, next: ChannelId, i: nat): ChannelId {
    if i < |pool| then pool[i] else next + (i - |pool|)
  }

  /** How many of `n` creations are served from a pool of `size` channels. */
  function Taken(size: nat, n: nat): nat {
    if n < size then n else size
  }

  /**
   * After `i` creations of a batch that began with the pool `pool` and next
   * fresh id `next`, the next channel handed out is the batch's channel `i`,
   * and handing it out leaves the pool and the fresh id as after `i + 1`
   * creations.
   */
  lemma BatchChannelShift(pool: seq<ChannelId>, next: ChannelId, i: nat)
    ensures var t := Taken(|pool|, i);
      var t' := Taken(|pool|, i + 1);
      && BatchChannel(pool[t..], next + (i - t), 0) == BatchChannel(pool, next, i)
      && (pool[t..] != [] ==> pool[t..][1..] == pool[t'..] && next + (i - t) == next + (i + 1 - t'))
      && (pool[t..] == [] ==> pool[t'..] == [] && next + (i - t) + 1 == next + (i + 1 - t'))
  {
  }

  /** The first `i` listeners of the batch `ls` hold the channels the batch created for them, in order. */
  ghost predicate BatchCreated(sub: map<ListenerId, Channel>, ls: seq<ListenerId>, i: nat, pool: seq<ChannelId>,
                               next: ChannelId, p: Props, volume: map<ListenerId, real>, granted: ListenerId -> bool)
    requires i <= |ls|
  {
    forall j {:trigger BatchChannel(pool, next, j)} :: 0 <= j < i ==>
      && ls[j] in sub && ls[j] in volume
      && sub[ls[j]] == NewSubAudioSource(BatchChannel(pool, next, j), p, volume[ls[j]], false, BatchStarts(ls, granted, j))
  }

  /**
   * One creation of the batch: listener `ls[i]` is not mapped yet, and mapping
   * it to the batch's channel `i` extends the created prefix by one.
   */
  lemma BatchAdvance(sub: map<ListenerId, Channel>, ls: seq<ListenerId>, i: nat, pool: seq<ChannelId>,
                     next: ChannelId, p: Props, volume: map<ListenerId, real>, granted: ListenerId -> bool)
    requires Distinct(ls) && i < |ls| && ls[i] in volume
    requires (forall l :: l in sub ==> l in ls[..i]) && BatchCreated(sub, ls, i, pool, next, p, volume, granted)
    ensures ls[i] !in sub && ls[..i + 1] == ls[..i] + [ls[i]]
    ensures BatchStarts(ls, granted, i + 1) == (BatchStarts(ls, granted, i) && granted(ls[i]))
    ensures BatchCreated(sub[ls[i] := NewSubAudioSource(BatchChannel(pool, next, i), p, volume[ls[i]], false,
                                                        BatchStarts(ls, granted, i))],
                         ls, i + 1, pool, next, p, volume, granted)
  {
    assert forall j :: 0 <= j < i ==> ls[j] != ls[i];
    assert ls[..i + 1] == ls[..i] + [ls[i]];
    BatchStartsStep(ls, granted, i);
    BatchCreatedStep(sub, ls, i, pool, next, p, volume, granted);
  }

  /** A completed batch mirrors the source: every channel was created in sync for its own listener. */
  lemma BatchCreatedMirrors(sub: map<ListenerId, Channel>, ls: seq<ListenerId>, pool: seq<ChannelId>,
                            next: ChannelId, p: Props, volume: map<ListenerId, real>, granted: ListenerId -> bool)
    requires (forall l :: l in sub ==> l in ls) && BatchCreated(sub, ls, |ls|, pool, next, p, volume, granted)
    ensures AllMirror(sub, p, volume)
  {
    forall l | l in sub
      ensures l in volume && Mirrors(sub[l], p, volume[l])
    {
      var j :| 0 <= j < |ls| && ls[j] == l;
      var channel := BatchChannel(pool, next, j);
      NewSubAudioSourceState(channel, p, volume[l], false, BatchStarts(ls, granted, j));
    }
  }

  lemma BatchCreatedStep(sub: map<ListenerId, Channel>, ls: seq<ListenerId>, i: nat, pool: seq<ChannelId>,
                         next: ChannelId, p: Props, volume: map<ListenerId, real>, granted: ListenerId -> bool)
    requires Distinct(ls) && i < |ls| && ls[i] in volume
    requires BatchCreated(sub, ls, i, pool, next, p, volume, granted)
    ensures BatchCreated(sub[ls[i] := NewSubAudioSource(BatchChannel(pool, next, i), p, volume[ls[i]], false,
                                                        BatchStarts(ls, granted, i))],
                         ls, i + 1, pool, next, p, volume, granted)
  {
    var sub' := sub[ls[i] := NewSubAudioSource(BatchChannel(pool, next, i), p, volume[ls[i]], false,
                                               BatchStarts(ls, granted, i))];
    forall j | 0 <= j < i + 1
      ensures ls[j] in sub' && ls[j] in volume
      ensures sub'[ls[j]] == NewSubAudioSource(BatchChannel(pool, next, j), p, volume[ls[j]], false, BatchStarts(ls, granted, j))
    {
      if j < i {
        var channel := BatchChannel(pool, next, j);  // names the hypothesis's trigger for position j
        assert ls[j] != ls[i] && ls[j] in sub;
      }
    }
  }

  /** Some channel of the listeners in `os` reports that it is playing (the `|=` of the tick, from the front). */
  predicate AnyPlaying(os: seq<ListenerId>, sub: map<ListenerId, Channel>, channelIsPlaying: ChannelId -> bool)
    requires forall l :: l in os ==> l in sub
  {
    if os == [] then false
    else AnyPlaying(os[..|os| - 1], sub, channelIsPlaying) || channelIsPlaying(sub[os[|os| - 1]].id)
  }

  /** Visiting one more channel adds its own report to the disjunction. */
  lemma AnyPlayingStep(os: seq<ListenerId>, sub: map<ListenerId, Channel>, channelIsPlaying: ChannelId -> bool, i: nat)
    requires i < |os| && forall l :: l in os ==> l in sub
    ensures AnyPlaying(os[..i + 1], sub, channelIsPlaying)
            == (AnyPlaying(os[..i], sub, channelIsPlaying) || channelIsPlaying(sub[os[i]].id))
  {
    assert os[..i + 1][..i] == os[..i];
  }

  /** The tick's flag is set exactly when some mapped channel of `os` reports playing. */
  lemma {:induction false} AnyPlayingMeans(os: seq<ListenerId>, sub: map<ListenerId, Channel>, channelIsPlaying: ChannelId -> bool)
    requires forall l :: l in os ==> l in sub
    ensures AnyPlaying(os, sub, channelIsPlaying) <==> exists j :: 0 <= j < |os| && channelIsPlaying(sub[os[j]].id)
  {
    if os != [] {
      var n := |os| - 1;
      AnyPlayingMeans(os[..n], sub, channelIsPlaying);
      if exists j :: 0 <= j < |os| && channelIsPlaying(sub[os[j]].id) {
        var j :| 0 <= j < |os| && channelIsPlaying(sub[os[j]].id);
        if j < n {
          assert os[..n][j] == os[j];
        }
      }
      if AnyPlaying(os[..n], sub, channelIsPlaying) {
        var j :| 0 <= j < n && channelIsPlaying(sub[os[..n][j]].id);
        assert os[j] == os[..n][j];
      }
    }
  }

  /**
   * The position in `os` of the first channel whose engine object was
   * destroyed, or `|os|` when every channel is live. A `foreach` over the
   * dictionary that touches each channel throws a MissingReferenceException
   * at that position.
   */
  function FirstDead(os: seq<ListenerId>, sub: map<ListenerId, Channel>): (k: nat)
    requires forall l :: l in os ==> l in sub
    ensures k <= |os|
    ensures forall j :: 0 <= j < k ==> sub[os[j]].alive
    ensures k < |os| ==> !sub[os[k]].alive
  {
    if os == [] then 0
    else if !sub[os[0]].alive then 0
    else 1 + FirstDead(os[1..], sub)
  }

  /** How a walk over the channels of `os` that touches each of them ends. */
  function WalkOutcome(os: seq<ListenerId>, sub: map<ListenerId, Channel>): Outcome
    requires forall l :: l in os ==> l in sub
  {
    if FirstDead(os, sub) == |os| then Done else Failed(MissingReference)
  }

  /** A walk over the channels completes exactly when none of them was destroyed. */
  lemma WalkCompletes(os: seq<ListenerId>, sub: map<ListenerId, Channel>)
    requires forall l :: l in os <==> l in sub
    ensures WalkOutcome(os, sub) == Done <==> forall l :: l in sub ==> sub[l].alive
  {
    if WalkOutcome(os, sub) == Done {
      forall l | l in sub ensures sub[l].alive {
        var j :| 0 <= j < |os| && os[j] == l;
      }
    }
  }

  /** A write of one of the settings a channel copies from its source. */
  datatype SettingWrite =
    | Clip(clip: AssetRef)
    | Output(output: AssetRef)
    | BypassEffects(flag: bool)
    | BypassListenerEffects(flag: bool)
    | BypassReverbZones(flag: bool)
    | Loop(loop: bool)
    | Priority(priority: int)
    | Pitch(pitch: real)
    | Spread(spread: real)
    | Rolloff(mode: RolloffMode)
    | MinDistance(distance: real)
    | MaxDistance(distance: real)

  /** The channel settings `cs` after the write `s`. */
  function Assigned(s: SettingWrite, cs: ChannelSettings): ChannelSettings {
    match s
    case Clip(x) => cs.(clip := x)
    case Output(x) => cs.(output := x)
    case BypassEffects(x) => cs.(bypassEffects := x)
    case BypassListenerEffects(x) => cs.(bypassListenerEffects := x)
    case BypassReverbZones(x) => cs.(bypassReverbZones := x)
    case Loop(x) => cs.(loop := x)
    case Priority(x) => cs.(priority := x)
    case Pitch(x) => cs.(pitch := x)
    case Spread(x) => cs.(spread := x)
    case Rolloff(x) => cs.(rolloffMode := x)
    case MinDistance(x) => cs.(minDistance := x)
    case MaxDistance(x) => cs.(maxDistance := x)
  }

  /** The source's properties `p` once the setter of `s` has stored its value. */
  function StoredSetting(s: SettingWrite, p: Props): Props {
    match s
    case Clip(x) => p.(clip := x)
    case Output(x) => p.(output := x)
    case BypassEffects(x) => p.(bypassEffects := x)
    case BypassListenerEffects(x) => p.(bypassListenerEffects := x)
    case BypassReverbZones(x) => p.(bypassReverbZone := x)
    case Loop(x) => p.(loop := x)
    case Priority(x) => p.(priority := x)
    case Pitch(x) => p.(pitch := x)
    case Spread(x) => p.(spread := x)
    case Rolloff(x) => p.(volumeRolloff := x)
    case MinDistance(x) => p.(minDistance := x)
    case MaxDistance(x) => p.(maxDistance := x)
  }

  /**
   * Writing a setting into the settings of `p` gives the settings of `p` with
   * that value stored, and storing it leaves the volume alone.
   */
  lemma AssignedMirrors(s: SettingWrite, p: Props)
    ensures Assigned(s, SettingsOf(p)) == SettingsOf(StoredSetting(s, p))
    ensures StoredSetting(s, p).volume == p.volume
  {
    match s {
      case Clip(x) =>
      case Output(x) =>
      case BypassEffects(x) =>
      case BypassListenerEffects(x) =>
      case BypassReverbZones(x) =>
      case Loop(x) =>
      case Priority(x) =>
      case Pitch(x) =>
      case Spread(x) =>
      case Rolloff(x) =>
      case MinDistance(x) =>
      case MaxDistance(x) =>
    }
  }

  /** A write the source makes to every one of its channels. */
  datatype ChannelWrite =
    | WriteSetting(setting: SettingWrite)
    | WriteMute(mute: bool)
    | WriteVolume(volume: real)
    | StartPlayback
    | PausePlayback
    | ResumePlayback
    | SyncAll(props: Props)
  {
    /** A write that stores no property: playback control, or a resync with the stored properties. */
    predicate StoresNothing() {
      StartPlayback? || PausePlayback? || ResumePlayback? || SyncAll?
    }
  }

  /** The channel `c`, of a listener with volume `lv`, after the write `w`. */
  function Written(w: ChannelWrite, lv: real, c: Channel): (r: Channel)
    ensures r.id == c.id && r.alive == c.alive
  {
    match w
    case WriteSetting(s) => c.(settings := Assigned(s, c.settings))
    case WriteMute(x) => c.(mute := x)
    case WriteVolume(x) => c.(volume := ScaledVolume(x, lv))
    case StartPlayback => PlayChannel(c)
    case PausePlayback => PauseChannel(c)
    case ResumePlayback => UnPauseChannel(c)
    case SyncAll(p) => SetAllValues(c, p)
  }

  /** The source's properties once the setter that makes the write `w` has stored its value in `p`. */
  function Stored(w: ChannelWrite, p: Props): (r: Props)
    ensures w.StoresNothing() ==> r == p
  {
    match w
    case WriteSetting(s) => StoredSetting(s, p)
    case WriteMute(x) => p.(mute := x)
    case WriteVolume(x) => p.(volume := x)
    case _ => p
  }

  /**
   * A write turns a channel that mirrors `p` into one that mirrors the stored
   * properties (a full sync only with the properties it mirrors already).
   */
  lemma WrittenMirrors(w: ChannelWrite, lv: real, c: Channel, p: Props)
    requires w.SyncAll? ==> w.props == p
    requires Mirrors(c, p, lv)
    ensures Mirrors(Written(w, lv, c), Stored(w, p), lv)
  {
    match w {
      case WriteSetting(s) => AssignedMirrors(s, p);
      case WriteMute(x) =>
      case WriteVolume(x) =>
      case StartPlayback =>
      case PausePlayback =>
      case ResumePlayback =>
      case SyncAll(q) =>
    }
  }

  /**
   * After a walk that wrote `w` to some channels of an in-sync table, the
   * table mirrors the stored properties if the walk reached every channel,
   * or if the write does not touch a mirrored property.
   */
  lemma WriteKeepsSync(sub: map<ListenerId, Channel>, sub0: map<ListenerId, Channel>, volume: map<ListenerId, real>,
                       w: ChannelWrite, p: Props, complete: bool)
    requires sub.Keys == sub0.Keys && (forall l :: l in sub0 ==> l in volume)
    requires w.SyncAll? ==> w.props == p
    requires forall l :: l in sub ==> sub[l] == Written(w, volume[l], sub0[l]) || (!complete && sub[l] == sub0[l])
    requires !complete ==> w.StoresNothing() || w.WriteMute?
    ensures AllMirror(sub0, p, volume) ==> AllMirror(sub, Stored(w, p), volume)
  {
    forall l | l in sub && sub[l].alive && AllMirror(sub0, p, volume)
      ensures Mirrors(sub[l], Stored(w, p), volume[l])
    {
      WrittenMirrors(w, volume[l], sub0[l], p);
    }
  }

  /** After a full sync of every channel, each carries the properties' settings and is rewound. */
  lemma SyncedSettings(sub: map<ListenerId, Channel>, sub0: map<ListenerId, Channel>, volume: map<ListenerId, real>, p: Props)
    requires sub.Keys == sub0.Keys && (forall l :: l in sub0 ==> l in volume)
    requires forall l :: l in sub ==> sub[l] == Written(SyncAll(p), volume[l], sub0[l])
    ensures forall l :: l in sub ==> sub[l].settings == SettingsOf(p) && sub[l].timeSamples == 0
  {
  }

  /**
   * The table `sub` is `sub0` with the channels at the first `k` positions of
   * `os` rewritten by `w` (given each listener's volume) and the others as
   * they were.
   */
  ghost predicate Rewritten(sub: map<ListenerId, Channel>, sub0: map<ListenerId, Channel>, os: seq<ListenerId>, k: nat,
                            volume: map<ListenerId, real>, w: ChannelWrite)
  {
    && sub.Keys == sub0.Keys
    && forall j :: 0 <= j < |os| ==>
         && os[j] in sub0 && os[j] in volume
         && sub[os[j]] == if j < k then Written(w, volume[os[j]], sub0[os[j]]) else sub0[os[j]]
  }

  /** Writing the channel at position `i` extends the rewritten prefix by one. */
  lemma RewrittenStep(sub: map<ListenerId, Channel>, sub0: map<ListenerId, Channel>, os: seq<ListenerId>, i: nat,
                      volume: map<ListenerId, real>, w: ChannelWrite)
    requires Distinct(os) && i < |os| && Rewritten(sub, sub0, os, i, volume, w)
    ensures Rewritten(sub[os[i] := Written(w, volume[os[i]], sub[os[i]])], sub0, os, i + 1, volume, w)
  {
  }

  /**
   * Read per key: every channel of a rewritten table is written or, when the
   * walk stopped early, as it was; either way it is the same channel.
   */
  lemma RewrittenByKey(sub: map<ListenerId, Channel>, sub0: map<ListenerId, Channel>, os: seq<ListenerId>, k: nat,
                       volume: map<ListenerId, real>, w: ChannelWrite, complete: bool)
    requires (forall l :: l in os <==> l in sub0) && Rewritten(sub, sub0, os, k, volume, w)
    requires complete ==> k == |os|
    ensures forall l :: l in sub ==> sub[l] == Written(w, volume[l], sub0[l]) || (!complete && sub[l] == sub0[l])
    ensures forall l :: l in sub ==> sub[l].id == sub0[l].id
  {
    forall l | l in sub
      ensures sub[l] == Written(w, volume[l], sub0[l]) || (!complete && sub[l] == sub0[l])
    {
      var j :| 0 <= j < |os| && os[j] == l;
    }
  }

  /**
   * What a walk that rewrote every position before the first destroyed channel
   * leaves behind: the same channels, each written or (after a throw) as it
   * was, and a table still in sync with the stored properties whenever the
   * walk completed or the write touches no mirrored setting.
   */
  lemma WalkEffects(sub: map<ListenerId, Channel>, sub0: map<ListenerId, Channel>, os: seq<ListenerId>,
                    volume: map<ListenerId, real>, w: ChannelWrite, p: Props, pool: seq<ChannelId>, next: ChannelId)
    requires (forall l :: l in os <==> l in sub0) && (forall l :: l in sub0 ==> l in volume)
    requires Rewritten(sub, sub0, os, FirstDead(os, sub0), volume, w)
    requires OwnedBy(sub0, pool, next) && (w.SyncAll? ==> w.props == p)
    ensures OwnedBy(sub, pool, next)
    ensures AllMirror(sub0, p, volume) && (WalkOutcome(os, sub0) == Done || w.WriteMute?)
            ==> AllMirror(sub, Stored(w, p), volume)
    ensures AllMirror(sub0, p, volume) && w.StoresNothing() ==> AllMirror(sub, p, volume)
  {
    var complete := WalkOutcome(os, sub0) == Done;
    WalkCompletes(os, sub0);
    RewrittenByKey(sub, sub0, os, FirstDead(os, sub0), volume, w, complete);
    OwnedBySameIds(sub0, sub, pool, next);
    if complete || w.StoresNothing() || w.WriteMute? {
      WriteKeepsSync(sub, sub0, volume, w, p, complete);
    }
  }

  /**
   * One iteration of the tick's loop, at position `i` of the enumeration
   * order `os`: the visited channel takes the source's mute flag, and when
   * culling it either becomes the new closest channel (muting the previous
   * one and resetting its own volume) or is muted.
   */
  method CullStep(sub: map<ListenerId, Channel>, os: seq<ListenerId>, i: nat, closest: int, distanceClosestAudio: real,
                  p: Props, only: bool, volume: map<ListenerId, real>, sqrDistance: ListenerId -> real,
                  ghost sub0: map<ListenerId, Channel>, ghost ds: seq<real>)
    returns (sub': map<ListenerId, Channel>, closest': int, distanceClosestAudio': real)
    requires Distinct(os) && i < |os| && ds == Distances(os, sqrDistance)
    requires forall l :: l in os ==> l in sub0 && l in volume
    requires closest == PrefixClosest(ds, i, only) && (0 <= closest ==> distanceClosestAudio == ds[closest])
    requires CulledPrefix(sub, sub0, os, i, closest, ds, p, only, volume)
    ensures closest' == PrefixClosest(ds, i + 1, only) && (0 <= closest' ==> distanceClosestAudio' == ds[closest'])
    ensures CulledPrefix(sub', sub0, os, i + 1, closest', ds, p, only, volume)
  {
    var l := os[i];
    sub' := sub[l := sub[l].(mute := p.mute)];
    closest', distanceClosestAudio' := closest, distanceClosestAudio;
    if only {
      var distance := sqrDistance(l);
      ClosestStep(ds, i, closest);
      if closest' == -1 || distance < distanceClosestAudio' {
        CullStepNearer(sub, sub0, os, i, closest, ds, p, volume);
        if closest' != -1 {
          var previous := os[closest'];
          sub' := sub'[previous := sub'[previous].(mute := true)];
        }
        closest' := i;
        sub' := sub'[l := sub'[l].(volume := ScaledVolume(p.volume, volume[l]))];
        distanceClosestAudio' := distance;
      } else {
        CullStepFarther(sub, sub0, os, i, closest, ds, p, volume);
        sub' := sub'[l := sub'[l].(mute := true)];
      }
    } else {
      CullStepPlain(sub, sub0, os, i, ds, p, volume);
    }
  }

  /**
   * The loop of the per-frame tick over the table `sub`, enumerated in the
   * order `os`: force every channel's mute to the source's and, when culling
   * is on, mute every channel but the first closest one, resetting the volume
   * of each closest-so-far channel; report whether any channel says it is
   * playing. The first write to a destroyed channel throws: the channels
   * before it stay culled against the closest one among them.
   */
  method CullSubAudioSources(sub: map<ListenerId, Channel>, os: seq<ListenerId>, p: Props, only: bool,
                             volume: map<ListenerId, real>, sqrDistance: ListenerId -> real,
                             channelIsPlaying: ChannelId -> bool)
    returns (culled: map<ListenerId, Channel>, isCurrentlyPlaying: bool, outcome: Outcome)
    requires Distinct(os) && (forall l :: l in os <==> l in sub) && (forall l :: l in os ==> l in volume)
    ensures outcome == WalkOutcome(os, sub)
    ensures var ds := Distances(os, sqrDistance);
      var k := FirstDead(os, sub);
      CulledPrefix(culled, sub, os, k, PrefixClosest(ds, k, only), ds, p, only, volume)
    ensures outcome == Done ==> CulledTable(culled, sub, os, Distances(os, sqrDistance), p, only, volume)
    ensures outcome == Done ==> isCurrentlyPlaying == AnyPlaying(os, sub, channelIsPlaying)
    ensures culled.Keys == sub.Keys && forall l :: l in sub ==> culled[l].id == sub[l].id
    ensures AllMirror(sub, p, volume) ==> AllMirror(culled, p, volume)
  {
    var closest: int := -1;
    var distanceClosestAudio: real := 0.0;
    isCurrentlyPlaying := false;
    culled := sub;
    ghost var ds := Distances(os, sqrDistance);
    ghost var k := FirstDead(os, sub);
    var i := 0;
    while i < |os| && culled[os[i]].alive
      invariant 0 <= i <= k
      invariant closest == PrefixClosest(ds, i, only) && (0 <= closest ==> distanceClosestAudio == ds[closest])
      invariant isCurrentlyPlaying == AnyPlaying(os[..i], sub, channelIsPlaying)
      invariant CulledPrefix(culled, sub, os, i, closest, ds, p, only, volume)
    {
      var l := os[i];
      culled, closest, distanceClosestAudio := CullStep(culled, os, i, closest, distanceClosestAudio, p, only, volume,
                                                        sqrDistance, sub, ds);
      AnyPlayingStep(os, sub, channelIsPlaying, i);
      isCurrentlyPlaying := isCurrentlyPlaying || channelIsPlaying(culled[l].id);
      i := i + 1;
    }
    if i < |os| {
      assert i == k;
      outcome := Failed(MissingReference);
    } else {
      outcome := Done;
      assert ds[..i] == ds && os[..i] == os;
      CulledPrefixComplete(culled, sub, os, closest, ds, p, only, volume);
    }
    CulledPrefixKeeps(culled, sub, os, i, closest, ds, p, only, volume);
  }

  class MultiAudioSource {
    const main: MainMultiAudioListener
    var props: Props
    var onlyPlayForClosestCamera: bool
    var subSources: map<ListenerId, Channel>
    var order: seq<ListenerId>
    var playing: bool
    var paused: bool
    var subscribed: bool

    /** `order` enumerates the dictionary's keys, each once, and each key is a listener object with a volume. */
    ghost predicate TableShape()
      reads this`order, this`subSources, main`listenerVolume
    {
      && Distinct(order)
      && (forall l :: l in order <==> l in subSources)
      && (forall l :: l in subSources ==> l in main.listenerVolume)
    }

    /**
     * The structure that holds in every state, also after an operation threw:
     * the table's channels belong to it alone, and the flags encode one of
     * the three playback states.
     */
    ghost predicate Valid()
      reads this, main
    {
      && main.Valid()
      && TableShape()
      && OwnedBy(subSources, main.pool, main.nextId)
      && (paused ==> playing)
      && subscribed == playing
      && (!playing ==> subSources == map[] && order == [])
    }

    /** Every live mapped channel mirrors the source's properties at its own listener's volume. */
    ghost predicate InSync()
      reads this`subSources, this`props, main`listenerVolume
    {
      AllMirror(subSources, props, main.listenerVolume)
    }

    /** While subscribed, the table has exactly one entry per registered listener. */
    ghost predicate TracksRegistry()
      reads this`subscribed, this`subSources, main`listeners
    {
      subscribed ==> forall l :: l in subSources <==> l in main.listeners
    }

    ghost function State(): PlaybackState
      reads this`playing, this`paused
    {
      if !playing then Stopped else if paused then Paused else Playing
    }

    constructor (main: MainMultiAudioListener)
      requires main.Valid()
      ensures Valid() && InSync() && TracksRegistry()
      ensures this.main == main && props == DEFAULT_PROPS && onlyPlayForClosestCamera
      ensures subSources == map[] && order == [] && State() == Stopped && !subscribed
    {
      this.main := main;
      props := DEFAULT_PROPS;
      onlyPlayForClosestCamera := true;
      subSources := map[];
      order := [];
      playing := false;
      paused := false;
      subscribed := false;
    }

    function IsPaused(): bool
      reads this
    {
      paused
    }

    function IsPlaying(): bool
      reads this
    {
      playing && !paused
    }

    /** The two queries read the state machine: playing means started and not paused. */
    lemma QueriesReadState()
      requires Valid()
      ensures IsPlaying() <==> State() == Playing
      ensures IsPaused() <==> State() == Paused
    {
    }

    /**
     * ForEachSubAudioSource: the walk `WriteEach` over the mapped channels in
     * enumeration order. `p` is the property set the table mirrored before
     * the write; the setters pass it as it was before they stored their value.
     */
    method ForEachSubAudioSource(w: ChannelWrite, ghost p: Props) returns (outcome: Outcome)
      requires Valid() && (w.SyncAll? ==> w.props == p)
      modifies this`subSources
      ensures Valid()
      ensures outcome == WalkOutcome(order, old(subSources))
      ensures Rewritten(subSources, old(subSources), order, FirstDead(order, old(subSources)), main.listenerVolume, w)
      ensures old(AllMirror(subSources, p, main.listenerVolume)) && (outcome == Done || w.WriteMute?)
              ==> AllMirror(subSources, Stored(w, p), main.listenerVolume)
      ensures old(AllMirror(subSources, p, main.listenerVolume)) && w.StoresNothing()
              ==> AllMirror(subSources, p, main.listenerVolume)
    {
      subSources, outcome := WriteEach(subSources, order, main.listenerVolume, w);
      WalkEffects(subSources, old(subSources), order, main.listenerVolume, w, p, main.pool, main.nextId);
    }

    // Property setters: store the value, then write it into every mapped
    // channel up to the first destroyed one.

    method SetAudioClip(value: AssetRef) returns (outcome: Outcome)
      requires Valid()
      modifies this`props, this`subSources
      ensures Valid()
      ensures props == old(props).(clip := value)
      ensures outcome == WalkOutcome(order, old(subSources))
      ensures Rewritten(subSources, old(subSources), order, FirstDead(order, old(subSources)), main.listenerVolume, WriteSetting(Clip(value)))
      ensures outcome == Done && old(InSync()) ==> InSync()
    {
      props := props.(clip := value);
      outcome := ForEachSubAudioSource(WriteSetting(Clip(value)), old(props));
    }

    method SetOutput(value: AssetRef) returns (outcome: Outcome)
      requires Valid()
      modifies this`props, this`subSources
      ensures Valid()
      ensures props == old(props).(output := value)
      ensures outcome == WalkOutcome(order, old(subSources))
      ensures Rewritten(subSources, old(subSources), order, FirstDead(order, old(subSources)), main.listenerVolume, WriteSetting(Output(value)))
      ensures outcome == Done && old(InSync()) ==> InSync()
    {
      props := props.(output := value);
      outcome := ForEachSubAudioSource(WriteSetting(Output(value)), old(props));
    }

    /** Mute is no mirrored setting (culling overrides it), so the table stays in sync even when the walk throws. */
    method SetMute(value: bool) returns (outcome: Outcome)
      requires Valid()
      modifies this`props, this`subSources
      ensures Valid()
      ensures props == old(props).(mute := value)
      ensures outcome == WalkOutcome(order, old(subSources))
      ensures Rewritten(subSources, old(subSources), order, FirstDead(order, old(subSources)), main.listenerVolume, WriteMute(value))
      ensures old(InSync()) ==> InSync()
    {
      props := props.(mute := value);
      outcome := ForEachSubAudioSource(WriteMute(value), old(props));
    }

    method SetBypassEffects(value: bool) returns (outcome: Outcome)
      requires Valid()
      modifies this`props, this`subSources
      ensures Valid()
      ensures props == old(props).(bypassEffects := value)
      ensures outcome == WalkOutcome(order, old(subSources))
      ensures Rewritten(subSources, old(subSources), order, FirstDead(order, old(subSources)), main.listenerVolume, WriteSetting(BypassEffects(value)))
      ensures outcome == Done && old(InSync()) ==> InSync()
    {
      props := props.(bypassEffects := value);
      outcome := ForEachSubAudioSource(WriteSetting(BypassEffects(value)), old(props));
    }

    method SetBypassListenerEffects(value: bool) returns (outcome: Outcome)
      requires Valid()
      modifies this`props, this`subSources
      ensures Valid()
      ensures props == old(props).(bypassListenerEffects := value)
      ensures outcome == WalkOutcome(order, old(subSources))
      ensures Rewritten(subSources, old(subSources), order, FirstDead(order, old(subSources)), main.listenerVolume, WriteSetting(BypassListenerEffects(value)))
      ensures outcome == Done && old(InSync()) ==> InSync()
    {
      props := props.(bypassListenerEffects := value);
      outcome := ForEachSubAudioSource(WriteSetting(BypassListenerEffects(value)), old(props));
    }

    method SetBypassReverbZone(value: bool) returns (outcome: Outcome)
      requires Valid()
      modifies this`props, this`subSources
      ensures Valid()
      ensures props == old(props).(bypassReverbZone := value)
      ensures outcome == WalkOutcome(order, old(subSources))
      ensures Rewritten(subSources, old(subSources), order, FirstDead(order, old(subSources)), main.listenerVolume, WriteSetting(BypassReverbZones(value)))
      ensures outcome == Done && old(InSync()) ==> InSync()
    {
      props := props.(bypassReverbZone := value);
      outcome := ForEachSubAudioSource(WriteSetting(BypassReverbZones(value)), old(props));
    }

    /** Play-on-awake is handled by the logical source alone; no channel sees it. */
    method SetPlayOnAwake(value: bool)
      requires Valid()
      modifies this`props
      ensures Valid()
      ensures props == old(props).(playOnAwake := value)
      ensures old(InSync()) ==> InSync()
    {
      props := props.(playOnAwake := value);
    }

    method SetLoop(value: bool) returns (outcome: Outcome)
      requires Valid()
      modifies this`props, this`subSources
      ensures Valid()
      ensures props == old(props).(loop := value)
      ensures outcome == WalkOutcome(order, old(subSources))
      ensures Rewritten(subSources, old(subSources), order, FirstDead(order, old(subSources)), main.listenerVolume, WriteSetting(Loop(value)))
      ensures outcome == Done && old(InSync()) ==> InSync()
    {
      props := props.(loop := value);
      outcome := ForEachSubAudioSource(WriteSetting(Loop(value)), old(props));
    }

    method SetPriority(value: int) returns (outcome: Outcome)
      requires Valid()
      modifies this`props, this`subSources
      ensures Valid()
      ensures props == old(props).(priority := value)
      ensures outcome == WalkOutcome(order, old(subSources))
      ensures Rewritten(subSources, old(subSources), order, FirstDead(order, old(subSources)), main.listenerVolume, WriteSetting(Priority(value)))
      ensures outcome == Done && old(InSync()) ==> InSync()
    {
      props := props.(priority := value);
      outcome := ForEachSubAudioSource(WriteSetting(Priority(value)), old(props));
    }

    /** A channel's volume is the source volume scaled by its own listener's volume. */
    method SetVolume(value: real) returns (outcome: Outcome)
      requires Valid()
      modifies this`props, this`subSources
      ensures Valid()
      ensures props == old(props).(volume := value)
      ensures outcome == WalkOutcome(order, old(subSources))
      ensures Rewritten(subSources, old(subSources), order, FirstDead(order, old(subSources)), main.listenerVolume, WriteVolume(value))
      ensures outcome == Done && old(InSync()) ==> InSync()
    {
      props := props.(volume := value);
      outcome := ForEachSubAudioSource(WriteVolume(value), old(props));
    }

    method SetPitch(value: real) returns (outcome: Outcome)
      requires Valid()
      modifies this`props, this`subSources
      ensures Valid()
      ensures props == old(props).(pitch := value)
      ensures outcome == WalkOutcome(order, old(subSources))
      ensures Rewritten(subSources, old(subSources), order, FirstDead(order, old(subSources)), main.listenerVolume, WriteSetting(Pitch(value)))
      ensures outcome == Done && old(InSync()) ==> InSync()
    {
      props := props.(pitch := value);
      outcome := ForEachSubAudioSource(WriteSetting(Pitch(value)), old(props));
    }

    method SetSpread(value: real) returns (outcome: Outcome)
      requires Valid()
      modifies this`props, this`subSources
      ensures Valid()
      ensures props == old(props).(spread := value)
      ensures outcome == WalkOutcome(order, old(subSources))
      ensures Rewritten(subSources, old(subSources), order, FirstDead(order, old(subSources)), main.listenerVolume, WriteSetting(Spread(value)))
      ensures outcome == Done && old(InSync()) ==> InSync()
    {
      props := props.(spread := value);
      outcome := ForEachSubAudioSource(WriteSetting(Spread(value)), old(props));
    }

    method SetVolumeRolloff(value: RolloffMode) returns (outcome: Outcome)
      requires Valid()
      modifies this`props, this`subSources
      ensures Valid()
      ensures props == old(props).(volumeRolloff := value)
      ensures outcome == WalkOutcome(order, old(subSources))
      ensures Rewritten(subSources, old(subSources), order, FirstDead(order, old(subSources)), main.listenerVolume, WriteSetting(Rolloff(value)))
      ensures outcome == Done && old(InSync()) ==> InSync()
    {
      props := props.(volumeRolloff := value);
      outcome := ForEachSubAudioSource(WriteSetting(Rolloff(value)), old(props));
    }

    method SetMinDistance(value: real) returns (outcome: Outcome)
      requires Valid()
      modifies this`props, this`subSources
      ensures Valid()
      ensures props == old(props).(minDistance := value)
      ensures outcome == WalkOutcome(order, old(subSources))
      ensures Rewritten(subSources, old(subSources), order, FirstDead(order, old(subSources)), main.listenerVolume, WriteSetting(MinDistance(value)))
      ensures outcome == Done && old(InSync()) ==> InSync()
    {
      props := props.(minDistance := value);
      outcome := ForEachSubAudioSource(WriteSetting(MinDistance(value)), old(props));
    }

    method SetMaxDistance(value: real) returns (outcome: Outcome)
      requires Valid()
      modifies this`props, this`subSources
      ensures Valid()
      ensures props == old(props).(maxDistance := value)
      ensures outcome == WalkOutcome(order, old(subSources))
      ensures Rewritten(subSources, old(subSources), order, FirstDead(order, old(subSources)), main.listenerVolume, WriteSetting(MaxDistance(value)))
      ensures outcome == Done && old(InSync()) ==> InSync()
    {
      props := props.(maxDistance := value);
      outcome := ForEachSubAudioSource(WriteSetting(MaxDistance(value)), old(props));
    }

    // Channel creation.

    /**
     * CreateAudioSource: take the front of the pool or a fresh channel, sync
     * it, pause it if the source is paused, start it if the source is playing
     * and the batch still has hardware channels; a started channel that does
     * not report playing (`granted` false) ends the batch's hardware channels.
     */
    method CreateAudioSource(hardwareChannelsLeft: bool, granted: bool) returns (c: Channel, channelsLeft: bool)
      requires Valid()
      modifies main`pool, main`nextId
      ensures Valid()
      ensures old(main.pool) != [] ==>
        c.id == old(main.pool)[0] && main.pool == old(main.pool)[1..] && main.nextId == old(main.nextId)
      ensures old(main.pool) == [] ==>
        c.id == old(main.nextId) && main.pool == [] && main.nextId == old(main.nextId) + 1
      ensures c == Prepared(Blank(c.id), props, paused, playing && hardwareChannelsLeft)
      ensures channelsLeft == (hardwareChannelsLeft && (!playing || granted))
      ensures c.id !in main.pool && c.id < main.nextId
      ensures forall l :: l in subSources ==> subSources[l].id != c.id
    {
      var pooled := main.GetAudioSourceFromPool();
      var id;
      if pooled.None? {
        id := main.NewChannel();
      } else {
        id := pooled.value;
        DistinctTail(old(main.pool));
        assert id == old(main.pool)[0] && id in old(main.pool);
        assert id !in main.pool && id < main.nextId;
      }
      c := Prepared(Blank(id), props, paused, playing && hardwareChannelsLeft);
      channelsLeft := hardwareChannelsLeft;
      // A started channel that does not report playing was culled by the platform.
      if playing && hardwareChannelsLeft && !granted {
        channelsLeft := false;
      }
    }

    /**
     * CreateSubAudioSource: create a channel and add it under `l` with the
     * volume scaled for `l`. When `l` is already a key, Dictionary.Add throws
     * after the channel was taken: it is then neither mapped nor pooled.
     */
    method CreateSubAudioSource(l: ListenerId, hardwareChannelsLeft: bool, granted: bool)
      returns (outcome: Outcome, channelsLeft: bool)
      requires Valid() && playing && l in main.listenerVolume
      modifies this`subSources, this`order, main`pool, main`nextId
      ensures Valid()
      ensures old(InSync()) ==> InSync()
      ensures old(main.pool) != [] ==> main.pool == old(main.pool)[1..] && main.nextId == old(main.nextId)
      ensures old(main.pool) == [] ==> main.pool == [] && main.nextId == old(main.nextId) + 1
      ensures channelsLeft == (hardwareChannelsLeft && granted)
      ensures l in old(subSources) ==>
        outcome == Failed(DuplicateListener) && subSources == old(subSources) && order == old(order)
      ensures l !in old(subSources) ==>
        && outcome == Done
        && order == old(order) + [l]
        && subSources == old(subSources)[l := NewSubAudioSource(BatchChannel(old(main.pool), old(main.nextId), 0),
                                                                props, main.listenerVolume[l], paused, hardwareChannelsLeft)]
    {
      var c;
      c, channelsLeft := CreateAudioSource(hardwareChannelsLeft, granted);
      if l in subSources {
        outcome := Failed(DuplicateListener);
      } else {
        var lv := main.listenerVolume[l];
        var entry := c.(volume := ScaledVolume(props.volume, lv));
        NewSubAudioSourceState(c.id, props, lv, paused, hardwareChannelsLeft);
        assert c.id == BatchChannel(old(main.pool), old(main.nextId), 0);
        assert entry == NewSubAudioSource(BatchChannel(old(main.pool), old(main.nextId), 0), props, lv, paused,
                                          hardwareChannelsLeft);
        OwnedByInsert(subSources, main.pool, main.nextId, l, entry);
        AllMirrorInsert(subSources, props, main.listenerVolume, l, entry);
        assert Distinct(order + [l]);
        subSources := subSources[l := entry];
        order := order + [l];
        outcome := Done;
      }
    }

    // Playback state machine.

    /**
     * The creation batch of Play from stopped: one channel per registered
     * listener, in registry order, threading the hardware-channel flag
     * through the batch.
     */
    method CreateAllSubAudioSources(granted: ListenerId -> bool)
      requires Valid() && playing && !paused && subSources == map[] && order == []
      modifies this`subSources, this`order, main`pool, main`nextId
      ensures Valid() && InSync()
      ensures order == main.listeners
      ensures main.pool == old(main.pool)[Taken(|old(main.pool)|, |order|)..]
      ensures main.nextId == old(main.nextId) + (|order| - Taken(|old(main.pool)|, |order|))
      ensures BatchCreated(subSources, order, |order|, old(main.pool), old(main.nextId), props, main.listenerVolume, granted)
    {
      var hardwareChannelsLeft := true;
      var listeners := main.listeners;
      ghost var pool0, next0 := main.pool, main.nextId;
      var i := 0;
      while i < |listeners|
        invariant 0 <= i <= |listeners| && listeners == main.listeners
        invariant Valid() && playing && !paused
        invariant order == listeners[..i]
        invariant main.pool == pool0[Taken(|pool0|, i)..]
        invariant main.nextId == next0 + (i - Taken(|pool0|, i))
        invariant hardwareChannelsLeft == BatchStarts(listeners, granted, i)
        invariant BatchCreated(subSources, listeners, i, pool0, next0, props, main.listenerVolume, granted)
      {
        hardwareChannelsLeft := CreateBatchEntry(listeners, i, pool0, next0, granted, hardwareChannelsLeft);
        i := i + 1;
      }
      assert listeners[..i] == listeners;
      BatchCreatedMirrors(subSources, listeners, pool0, next0, props, main.listenerVolume, granted);
    }

    /** One creation of the batch: the listener at position `i` gets the batch's channel `i`. */
    method CreateBatchEntry(listeners: seq<ListenerId>, i: nat, ghost pool0: seq<ChannelId>, ghost next0: ChannelId,
                            granted: ListenerId -> bool, hardwareChannelsLeft: bool)
      returns (channelsLeft: bool)
      requires Valid() && playing && !paused && listeners == main.listeners && i < |listeners|
      requires order == listeners[..i]
      requires main.pool == pool0[Taken(|pool0|, i)..]
      requires main.nextId == next0 + (i - Taken(|pool0|, i))
      requires hardwareChannelsLeft == BatchStarts(listeners, granted, i)
      requires BatchCreated(subSources, listeners, i, pool0, next0, props, main.listenerVolume, granted)
      modifies this`subSources, this`order, main`pool, main`nextId
      ensures Valid()
      ensures order == listeners[..i + 1]
      ensures main.pool == pool0[Taken(|pool0|, i + 1)..]
      ensures main.nextId == next0 + (i + 1 - Taken(|pool0|, i + 1))
      ensures channelsLeft == BatchStarts(listeners, granted, i + 1)
      ensures BatchCreated(subSources, listeners, i + 1, pool0, next0, props, main.listenerVolume, granted)
    {
      var l := listeners[i];
      BatchAdvance(subSources, listeners, i, pool0, next0, props, main.listenerVolume, granted);
      BatchChannelShift(pool0, next0, i);
      ghost var entry := NewSubAudioSource(BatchChannel(pool0, next0, i), props, main.listenerVolume[l], false,
                                           BatchStarts(listeners, granted, i));
      assert entry == NewSubAudioSource(BatchChannel(main.pool, main.nextId, 0), props, main.listenerVolume[l],
                                        paused, hardwareChannelsLeft);
      var outcome;
      outcome, channelsLeft := CreateSubAudioSource(l, hardwareChannelsLeft, granted(l));
    }

    /** The stopped branch of Play: mark the source playing, subscribe, and create the batch. */
    method StartFromStopped(granted: ListenerId -> bool)
      requires Valid() && !playing
      modifies this`playing, this`paused, this`subscribed, this`subSources, this`order, main`pool, main`nextId
      ensures Valid() && InSync() && TracksRegistry()
      ensures State() == Playing && subscribed
      ensures order == main.listeners
      ensures main.pool == old(main.pool)[Taken(|old(main.pool)|, |order|)..]
      ensures main.nextId == old(main.nextId) + (|order| - Taken(|old(main.pool)|, |order|))
      ensures BatchCreated(subSources, order, |order|, old(main.pool), old(main.nextId), props, main.listenerVolume, granted)
    {
      playing := true;
      paused := false;
      subscribed := true;
      CreateAllSubAudioSources(granted);
    }

    /** Clears the paused flag of a playing source. */
    method ClearPaused()
      requires Valid() && playing
      modifies this`paused
      ensures Valid() && State() == Playing
    {
      paused := false;
    }

    /**
     * The playing-or-paused branch of Play: start every mapped channel again,
     * then clear the paused flag. A throwing walk leaves before the flag is
     * cleared.
     */
    method RestartSubAudioSources() returns (outcome: Outcome)
      requires Valid() && playing
      modifies this`paused, this`subSources
      ensures Valid() && playing
      ensures old(InSync()) ==> InSync()
      ensures old(TracksRegistry()) ==> TracksRegistry()
      ensures outcome == WalkOutcome(order, old(subSources))
      ensures paused == (old(paused) && outcome != Done)
      ensures Rewritten(subSources, old(subSources), order, FirstDead(order, old(subSources)), main.listenerVolume, StartPlayback)
    {
      outcome := ForEachSubAudioSource(StartPlayback, props);
      if outcome == Done {
        ClearPaused();
      }
    }

    /**
     * From stopped: subscribe and create the batch of channels. While playing
     * or paused: start every mapped channel again, and only once that walk is
     * through, clear the paused flag.
     */
    method Play(granted: ListenerId -> bool) returns (outcome: Outcome)
      requires Valid()
      modifies this`playing, this`paused, this`subscribed, this`subSources, this`order, main`pool, main`nextId
      ensures Valid() && playing && subscribed
      ensures old(InSync()) ==> InSync()
      ensures outcome == Done ==> State() == Playing
      ensures old(playing) ==>
        && outcome == WalkOutcome(old(order), old(subSources))
        && paused == (old(paused) && outcome != Done)
        && order == old(order) && main.pool == old(main.pool) && main.nextId == old(main.nextId)
        && Rewritten(subSources, old(subSources), order, FirstDead(old(order), old(subSources)), main.listenerVolume, StartPlayback)
      ensures !old(playing) ==>
        && outcome == Done && InSync()
        && order == main.listeners
        && main.pool == old(main.pool)[Taken(|old(main.pool)|, |order|)..]
        && main.nextId == old(main.nextId) + (|order| - Taken(|old(main.pool)|, |order|))
        && BatchCreated(subSources, order, |order|, old(main.pool), old(main.nextId), props, main.listenerVolume, granted)
      ensures !old(playing) || old(TracksRegistry()) ==> TracksRegistry()
    {
      if !playing {
        StartFromStopped(granted);
        outcome := Done;
      } else {
        outcome := RestartSubAudioSources();
      }
    }

    /** The `foreach` of Stop: hand every live mapped channel back to the pool, in enumeration order. */
    method ReleaseSubAudioSources()
      requires main.Valid() && Distinct(order) && (forall l :: l in order ==> l in subSources)
      requires OwnedBy(subSources, main.pool, main.nextId)
      modifies main`pool
      ensures main.Valid()
      ensures main.pool == old(main.pool) + LiveIds(order, subSources)
    {
      var i := 0;
      while i < |order|
        invariant 0 <= i <= |order|
        invariant main.Valid()
        invariant main.pool == old(main.pool) + LiveIds(order[..i], subSources)
      {
        var c := subSources[order[i]];
        LiveIdsStep(order, subSources, i);
        if c.alive {
          NotYetReleased(order, subSources, old(main.pool), main.nextId, i);
          assert old(main.pool) + LiveIds(order[..i + 1], subSources)
              == old(main.pool) + LiveIds(order[..i], subSources) + [c.id];
          main.EnqueueAudioSourceInPool(c.id);
        }
        i := i + 1;
      }
      assert order[..i] == order;
    }

    /**
     * Does nothing unless playing. Otherwise unsubscribes, returns every live
     * mapped channel to the pool in enumeration order (a destroyed one is
     * skipped by the null check), and empties the table.
     */
    method Stop()
      requires Valid()
      modifies this`playing, this`paused, this`subscribed, this`subSources, this`order, main`pool
      ensures Valid() && InSync() && TracksRegistry()
      ensures State() == Stopped && !subscribed && subSources == map[] && order == []
      ensures main.pool == old(main.pool) + LiveIds(old(order), old(subSources))
    {
      if !playing {
        return;
      }
      paused := false;
      playing := false;
      subscribed := false;
      ReleaseSubAudioSources();
      subSources := map[];
      order := [];
    }

    /**
     * Acts only when playing and not paused: sets the paused flag, then pauses
     * every mapped channel up to the first destroyed one.
     */
    method Pause() returns (outcome: Outcome)
      requires Valid()
      modifies this`paused, this`subSources
      ensures Valid()
      ensures old(InSync()) ==> InSync()
      ensures old(State()) == Playing ==>
        && State() == Paused
        && outcome == WalkOutcome(order, old(subSources))
        && Rewritten(subSources, old(subSources), order, FirstDead(order, old(subSources)), main.listenerVolume, PausePlayback)
      ensures old(State()) != Playing ==> outcome == Done && paused == old(paused) && subSources == old(subSources)
    {
      if !playing || paused {
        return Done;
      }
      paused := true;
      outcome := ForEachSubAudioSource(PausePlayback, props);
    }

    /**
     * Acts only when paused: clears the paused flag, then resumes every mapped
     * channel up to the first destroyed one.
     */
    method UnPause() returns (outcome: Outcome)
      requires Valid()
      modifies this`paused, this`subSources
      ensures Valid()
      ensures old(InSync()) ==> InSync()
      ensures old(State()) == Paused ==>
        && State() == Playing
        && outcome == WalkOutcome(order, old(subSources))
        && Rewritten(subSources, old(subSources), order, FirstDead(order, old(subSources)), main.listenerVolume, ResumePlayback)
      ensures old(State()) != Paused ==> outcome == Done && paused == old(paused) && subSources == old(subSources)
    {
      if !paused {
        return Done;
      }
      paused := false;
      outcome := ForEachSubAudioSource(ResumePlayback, props);
    }

    /**
     * The loop of a tick: cull the mapped channels in enumeration order and
     * install the culled table, reporting whether any channel is playing.
     */
    method CullTick(sqrDistance: ListenerId -> real, channelIsPlaying: ChannelId -> bool)
      returns (outcome: Outcome, isCurrentlyPlaying: bool)
      requires Valid()
      modifies this`subSources
      ensures Valid()
      ensures old(InSync()) ==> InSync()
      ensures outcome == WalkOutcome(order, old(subSources))
      ensures var ds := Distances(order, sqrDistance);
        var k := FirstDead(order, old(subSources));
        CulledPrefix(subSources, old(subSources), order, k, PrefixClosest(ds, k, onlyPlayForClosestCamera), ds, props,
                     onlyPlayForClosestCamera, main.listenerVolume)
      ensures outcome == Done ==>
        CulledTable(subSources, old(subSources), old(order), Distances(old(order), sqrDistance), props,
                    onlyPlayForClosestCamera, main.listenerVolume)
      ensures outcome == Done ==> isCurrentlyPlaying == AnyPlaying(old(order), old(subSources), channelIsPlaying)
    {
      var culled;
      culled, isCurrentlyPlaying, outcome := CullSubAudioSources(subSources, order, props, onlyPlayForClosestCamera,
                                                                 main.listenerVolume, sqrDistance, channelIsPlaying);
      OwnedBySameIds(subSources, culled, main.pool, main.nextId);
      subSources := culled;
    }

    /**
     * The per-frame tick, while playing or paused: cull the channels, then
     * stop when no channel reports playing and the source is not paused. A
     * destroyed channel makes the tick throw where the loop reaches it, before
     * the auto-stop.
     */
    method LateUpdate(sqrDistance: ListenerId -> real, channelIsPlaying: ChannelId -> bool) returns (outcome: Outcome)
      requires Valid()
      modifies this`playing, this`paused, this`subscribed, this`subSources, this`order, main`pool
      ensures Valid()
      ensures old(InSync()) ==> InSync()
      ensures !old(playing || paused) ==>
        outcome == Done && State() == Stopped && subSources == old(subSources) && main.pool == old(main.pool)
      ensures old(playing || paused) ==> outcome == WalkOutcome(old(order), old(subSources))
      ensures old(playing || paused) && outcome != Done ==>
        && State() == old(State()) && order == old(order) && main.pool == old(main.pool)
        && var ds := Distances(order, sqrDistance);
           var k := FirstDead(order, old(subSources));
           CulledPrefix(subSources, old(subSources), order, k, PrefixClosest(ds, k, onlyPlayForClosestCamera), ds, props,
                        onlyPlayForClosestCamera, main.listenerVolume)
      ensures old(playing || paused) && outcome == Done && (old(paused) || AnyPlaying(old(order), old(subSources), channelIsPlaying)) ==>
        && State() == old(State()) && order == old(order) && main.pool == old(main.pool)
        && CulledTable(subSources, old(subSources), old(order), Distances(old(order), sqrDistance), props,
                       onlyPlayForClosestCamera, main.listenerVolume)
      ensures old(playing || paused) && outcome == Done && !old(paused) && !AnyPlaying(old(order), old(subSources), channelIsPlaying) ==>
        && State() == Stopped && subSources == map[] && order == []
        && main.pool == old(main.pool) + LiveIds(old(order), old(subSources))
    {
      if playing || paused {
        var isCurrentlyPlaying;
        outcome, isCurrentlyPlaying := CullTick(sqrDistance, channelIsPlaying);
        ghost var ticked := subSources;
        if outcome == Done && !isCurrentlyPlaying && !paused {
          Stop();
          LiveIdsAgree(old(order), ticked, old(subSources));
        }
      } else {
        outcome := Done;
      }
    }

    /** The listener-added callback: a single-channel batch that starts with hardware channels available. */
    method VirtualAudioListenerAdded(l: ListenerId, granted: bool) returns (outcome: Outcome)
      requires Valid() && subscribed && l in main.listenerVolume
      modifies this`subSources, this`order, main`pool, main`nextId
      ensures Valid()
      ensures old(InSync()) ==> InSync()
      ensures old(main.pool) != [] ==> main.pool == old(main.pool)[1..] && main.nextId == old(main.nextId)
      ensures old(main.pool) == [] ==> main.pool == [] && main.nextId == old(main.nextId) + 1
      ensures l in old(subSources) ==>
        outcome == Failed(DuplicateListener) && subSources == old(subSources) && order == old(order)
      ensures l !in old(subSources) ==>
        && outcome == Done
        && order == old(order) + [l]
        && subSources.Keys == old(subSources).Keys + {l}
        && (forall k :: k in old(subSources) ==> subSources[k] == old(subSources)[k])
        && subSources[l] == NewSubAudioSource(BatchChannel(old(main.pool), old(main.nextId), 0), props,
                                              main.listenerVolume[l], paused, true)
      ensures l in main.listeners && (forall k :: k in old(subSources) <==> k in main.listeners && k != l) ==>
        TracksRegistry()
    {
      var hardwareChannelsLeft := true;
      outcome, hardwareChannelsLeft := CreateSubAudioSource(l, hardwareChannelsLeft, granted);
    }

    /**
     * The listener-removed callback: take out exactly that key and return its
     * channel to the pool if live. A missing key makes the indexer throw first.
     */
    method VirtualAudioListenerRemoved(l: ListenerId) returns (outcome: Outcome)
      requires Valid() && subscribed
      modifies this`subSources, this`order, main`pool
      ensures Valid()
      ensures old(InSync()) ==> InSync()
      ensures l !in old(subSources) ==>
        outcome == Failed(ListenerNotFound) && subSources == old(subSources) && order == old(order)
        && main.pool == old(main.pool)
      ensures l in old(subSources) ==>
        && outcome == Done
        && subSources == old(subSources) - {l}
        && order == Without(old(order), l)
        && main.pool == old(main.pool) + (if old(subSources)[l].alive then [old(subSources)[l].id] else [])
      ensures l !in main.listeners && (forall k :: k in old(subSources) <==> k in main.listeners || k == l) ==>
        TracksRegistry()
    {
      if l !in subSources {
        return Failed(ListenerNotFound);
      }
      var audioSource := subSources[l];
      ghost var back := if audioSource.alive then [audioSource.id] else [];
      OwnedByRemove(subSources, main.pool, main.nextId, l, back);
      AllMirrorRemove(subSources, props, main.listenerVolume, l);
      WithoutDistinct(order, l);
      subSources := subSources - {l};
      order := Without(order, l);
      assert TableShape();
      if audioSource.alive {
        main.EnqueueAudioSourceInPool(audioSource.id);
      }
      assert main.pool == old(main.pool) + back;
      outcome := Done;
    }

    /**
     * The engine destroys the game object of `l`'s channel. The null checks of
     * Stop and of the listener-removed callback then skip it; every other
     * access to it throws.
     */
    method SubAudioSourceDestroyed(l: ListenerId)
      requires Valid()
      modifies this`subSources
      ensures Valid()
      ensures old(InSync()) ==> InSync()
      ensures l in old(subSources) ==> subSources == old(subSources)[l := old(subSources)[l].(alive := false)]
      ensures l !in old(subSources) ==> subSources == old(subSources)
    {
      if l in subSources {
        subSources := subSources[l := subSources[l].(alive := false)];
      }
    }

    /**
     * Full resync of every mapped channel, up to the first destroyed one. The
     * resync does not touch volumes, so it restores every copied setting but
     * not a drifted volume.
     */
    method RefreshAllPropertiesAudioSources() returns (outcome: Outcome)
      requires Valid()
      modifies this`subSources
      ensures Valid()
      ensures old(InSync()) ==> InSync()
      ensures outcome == WalkOutcome(order, old(subSources))
      ensures Rewritten(subSources, old(subSources), order, FirstDead(order, old(subSources)), main.listenerVolume, SyncAll(props))
      ensures outcome == Done ==>
        forall l :: l in subSources ==> subSources[l].settings == SettingsOf(props) && subSources[l].timeSamples == 0
    {
      var p := props;
      outcome := ForEachSubAudioSource(SyncAll(p), p);
      if outcome == Done {
        RewrittenByKey(subSources, old(subSources), order, |order|, main.listenerVolume, SyncAll(p), true);
        SyncedSettings(subSources, old(subSources), main.listenerVolume, p);
      }
    }

    // Engine hooks.

    method OnEnable(granted: ListenerId -> bool) returns (outcome: Outcome)
      requires Valid()
      modifies this`playing, this`paused, this`subscribed, this`subSources, this`order, main`pool, main`nextId
      ensures Valid()
      ensures old(InSync()) ==> InSync()
      ensures props.playOnAwake ==> playing && subscribed && (outcome == Done ==> State() == Playing)
      ensures props.playOnAwake && old(playing) ==>
        && outcome == WalkOutcome(old(order), old(subSources))
        && paused == (old(paused) && outcome != Done)
        && order == old(order) && main.pool == old(main.pool) && main.nextId == old(main.nextId)
        && Rewritten(subSources, old(subSources), order, FirstDead(order, old(subSources)), main.listenerVolume, StartPlayback)
      ensures props.playOnAwake && !old(playing) ==>
        && outcome == Done && InSync()
        && order == main.listeners
        && main.pool == old(main.pool)[Taken(|old(main.pool)|, |order|)..]
        && main.nextId == old(main.nextId) + (|order| - Taken(|old(main.pool)|, |order|))
        && BatchCreated(subSources, order, |order|, old(main.pool), old(main.nextId), props, main.listenerVolume, granted)
      ensures !props.playOnAwake ==>
        && outcome == Done && playing == old(playing) && paused == old(paused) && subscribed == old(subscribed)
        && subSources == old(subSources) && order == old(order)
        && main.pool == old(main.pool) && main.nextId == old(main.nextId)
    {
      if props.playOnAwake {
        outcome := Play(granted);
      } else {
        outcome := Done;
      }
    }

    method OnDisable()
      requires Valid()
      modifies this`playing, this`paused, this`subscribed, this`subSources, this`order, main`pool
      ensures Valid() && InSync() && State() == Stopped && subSources == map[]
      ensures main.pool == old(main.pool) + LiveIds(old(order), old(subSources))
    {
      Stop();
    }

    method OnDestroy()
      requires Valid()
      modifies this`playing, this`paused, this`subscribed, this`subSources, this`order, main`pool
      ensures Valid() && InSync() && State() == Stopped && subSources == map[]
      ensures main.pool == old(main.pool) + LiveIds(old(order), old(subSources))
    {
      if playing {
        Stop();
      }
    }
  }

  /** Stop twice has the effect of one Stop: nothing is released a second time. */
  method StopTwice(s: MultiAudioSource)
    requires s.Valid()
    modifies s`playing, s`paused, s`subscribed, s`subSources, s`order, s.main`pool
    ensures s.Valid() && s.State() == Stopped && s.subSources == map[] && s.order == []
    ensures s.main.pool == old(s.main.pool) + LiveIds(old(s.order), old(s.subSources))
  {
    s.Stop();
    s.Stop();
  }

  /**
   * The engine destroys the only channel of a playing source, and the next
   * tick throws at that channel before it can reach the auto-stop: the source
   * keeps playing and keeps its table.
   */
  method DestroyedChannelTick(s: MultiAudioSource, l: ListenerId, sqrDistance: ListenerId -> real,
                              channelIsPlaying: ChannelId -> bool) returns (outcome: Outcome)
    requires s.Valid() && s.State() == Playing && s.order == [l]
    modifies s`playing, s`paused, s`subscribed, s`subSources, s`order, s.main`pool
    ensures outcome == Failed(MissingReference)
    ensures s.State() == Playing && s.order == [l] && s.subSources.Keys == {l} && !s.subSources[l].alive
    ensures s.main.pool == old(s.main.pool)
  {
    s.SubAudioSourceDestroyed(l);
    outcome := s.LateUpdate(sqrDistance, channelIsPlaying);
  }

  /**
   * A virtual listener registers with the main listener, which then raises
   * its listener-added event; a subscribed source handles it. The table keeps
   * tracking the registry.
   */
  method RegisterListener(s: MultiAudioSource, l: ListenerId, volume: real, granted: bool) returns (outcome: Outcome)
    requires s.Valid() && s.TracksRegistry() && l !in s.main.listeners
    modifies s.main, s`subSources, s`order
    ensures s.Valid() && s.TracksRegistry() && outcome == Done
    ensures old(s.InSync()) ==> s.InSync()
    ensures s.main.listeners == old(s.main.listeners) + [l]
    ensures s.subscribed ==> s.subSources.Keys == old(s.subSources).Keys + {l}
    ensures !s.subscribed ==> s.subSources == old(s.subSources)
  {
    assert l !in s.subSources;
    s.main.AddVirtualListener(l, volume);
    if s.subscribed {
      outcome := s.VirtualAudioListenerAdded(l, granted);
    } else {
      outcome := Done;
    }
  }

  /**
   * A virtual listener unregisters, and the main listener raises its
   * listener-removed event; a subscribed source handles it. The table keeps
   * tracking the registry.
   */
  method UnregisterListener(s: MultiAudioSource, l: ListenerId) returns (outcome: Outcome)
    requires s.Valid() && s.TracksRegistry() && l in s.main.listeners
    modifies s.main, s`subSources, s`order
    ensures s.Valid() && s.TracksRegistry() && outcome == Done
    ensures old(s.InSync()) ==> s.InSync()
    ensures s.main.listeners == Without(old(s.main.listeners), l)
    ensures s.subscribed ==> s.subSources.Keys == old(s.subSources).Keys - {l}
    ensures !s.subscribed ==> s.subSources == old(s.subSources)
  {
    s.main.RemoveVirtualListener(l);
    if s.subscribed {
      outcome := s.VirtualAudioListenerRemoved(l);
    } else {
      outcome := Done;
    }
  }
}
