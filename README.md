# MultiAudioSource, modelled in Dafny

`MultiAudioSource` is the component of MultiAudioListener (a Unity add-on for
split-screen games) that makes one logical sound emitter play through one
physical `AudioSource` per virtual listener. This project models its core:

- **Playback state machine.** The two flags `_isPlaying` and `_isPaused` and the
  operations `Play`, `Stop`, `Pause` and `UnPause`, each with its guard. Also the
  queries `IsPlaying` and `IsPaused`, and the engine hooks `OnEnable`,
  `OnDisable` and `OnDestroy`.
- **Sub-channel table.** The dictionary `_subAudioSources` from virtual listener
  to channel. It is filled by `Play` and by the listener-added callback, and
  emptied by the listener-removed callback and by `Stop`. Every channel that
  leaves the table goes back to the shared pool of `MainMultiAudioListener`.
- **Property synchroniser.** The fifteen property setters,
  `SetAllValuesAudioSource` and `RefreshAllPropertiesAudioSources`, and the
  channel creation in `CreateAudioSource`/`CreateSubAudioSource`. Creation
  includes the hardware-channel flag that is threaded through a creation batch.
- **Per-frame tick.** `LateUpdate`: force every channel's mute to the source's,
  keep only the first strictly closest channel audible, and stop when no
  channel reports playing.
- **Relocation dead zone.** The decision rule of
  `MoveSubAudioSourceToNeededLocation`.

Layout:

| file | module | contents |
|---|---|---|
| `seqs.dfy` | `Seqs` | duplicate-free sequences, removal of one element |
| `audio_types.dfy` | `AudioTypes` | listener and channel ids, the source's `Props`, the channel record, full sync and channel preparation |
| `registry.dfy` | `Registry` | the part of `MainMultiAudioListener` the source uses: listener registry with per-listener volume, FIFO pool of free channels, fresh ids |
| `release.dfy` | `Release` | channel ownership, and the channels `Stop` hands back |
| `culling.dfy` | `Culling` | closest-listener culling over the squared distances in enumeration order |
| `relocation.dfy` | `Relocation` | the relocation dead-zone rule on 3-vectors |
| `multi_audio_source.dfy` | `Source` | the class `MultiAudioSource` and its operations |

Abstractions:

- Listeners and channels are `nat` ids.
- The dictionary is a `map<ListenerId, Channel>` together with `order`, the
  order in which it enumerates its keys. A key is appended on insertion and
  dropped on removal.
- A channel whose engine object was destroyed has its `alive` flag false.
  - Two places null-check the channel and skip such a channel: the release
    loop of `Stop` and the listener-removed callback.
  - Every other access throws a `MissingReferenceException`. In the model this
    is the outcome `Failed(MissingReference)`.
  - A `foreach` that touches every channel therefore stops at the first
    destroyed channel in enumeration order. `FirstDead` gives that position
    and `WalkOutcome` gives how the walk ends.
  - The channels before that position are rewritten (`Rewritten`, or
    `CulledPrefix` for the tick) and the rest are left as they were.
  - The statements after the loop do not run. For example, `Play` on a
    playing or paused source clears the paused flag only after the walk that
    restarts the channels (MultiAudioListener/MultiAudioSource.cs:332-338).
    If that walk throws, the flag stays as it was.
- Every operation that can throw returns an `Outcome`, either `Done` or
  `Failed(fault)`. The faults are a missing reference, a duplicate key in
  `Dictionary.Add`, and a missing key for the dictionary indexer.
- The engine's answers are inputs:
  - `granted(l)`: whether the channel for `l` reports `isPlaying` right after
    `Play()`;
  - `channelIsPlaying(c)`: whether channel `c` reports `isPlaying` during a
    tick;
  - `sqrDistance(l)`: the squared distance from listener `l` to the emitter.
- The structural class invariant `Valid()` holds in every state, also after an
  operation threw. It has these parts:
  - `order` lists exactly the keys, each once, and every key has a listener
    volume.
  - No two listeners share a channel.
  - No mapped channel is in the pool, and every mapped channel was handed out
    (its id is below the next fresh id).
  - Paused implies playing.
  - The source is subscribed to listener events exactly while playing.
  - A stopped source has an empty table.
- `InSync()` is the synchronisation invariant. Every live mapped channel
  mirrors the source's copied settings, and its volume is the source volume
  times its listener's volume. Each operation states when it keeps `InSync()`.
  A setter whose walk throws leaves the channels after the destroyed one
  holding the old value, so it keeps `InSync()` only when its walk completes.
- `TracksRegistry()` says that while subscribed, the table's keys are exactly
  the registered listeners.

Behaviours of the code worth noting:

- A channel created by the listener-added callback while the source is paused
  is first paused and then started, because `_isPlaying` is still true
  (MultiAudioListener/MultiAudioSource.cs:499-504).
- `RefreshAllPropertiesAudioSources` rewinds every channel to sample 0, since
  `SetAllValuesAudioSource` sets `timeSamples = 0`
  (MultiAudioListener/MultiAudioSource.cs:533).
- The rolloff modes are the engine's three: Logarithmic, Linear and Custom.
- When two listeners are equally close, the first one in enumeration order
  keeps its sound, because the comparison is strict
  (MultiAudioListener/MultiAudioSource.cs:411).

## Model

| member | source | states |
|---|---|---|
| `AudioTypes.SetAllValuesSyncs` | MultiAudioListener/MultiAudioSource.cs:530-548 | a full sync copies every mirrored property (clip, output, loop, bypass flags, pitch, priority, spread, rolloff, min/max distance), sets mute to the source's, rewinds to sample 0, turns native play-on-awake off, sets dynamic velocity update, and leaves identity, liveness, volume and playback state alone |
| `AudioTypes.NewSubAudioSourceState` | MultiAudioListener/MultiAudioSource.cs:449-517 | a newly created channel mirrors the source, has volume = source volume × listener volume, spatial blend 1, Doppler and reverb-zone mix 0, mute = source mute, sample 0; it is started exactly when the batch still had hardware channels, and is left paused only when paused and not started |
| `AudioTypes.AllMirrorInsert` | MultiAudioListener/MultiAudioSource.cs:449-452 | adding a channel that mirrors the source for its listener keeps the whole table in sync |
| `AudioTypes.AllMirrorRemove` | MultiAudioListener/MultiAudioSource.cs:438-441 | removing a key keeps the rest of the table in sync |
| `Relocation.Relocated` | MultiAudioListener/MultiAudioSource.cs:459-473 | with no main listener the channel stays put; otherwise it moves exactly onto its target when the correction's squared length exceeds 1, and stays put inside the dead zone |
| `Relocation.RelocatedWithinDeadZone` | MultiAudioListener/MultiAudioSource.cs:468-472 | with a main listener, after relocation the channel is within one unit of its target |
| `Relocation.RelocatedIdempotent` | MultiAudioListener/MultiAudioSource.cs:468-472 | relocating a second time towards the same target does nothing |
| `Registry.MainMultiAudioListener.GetAudioSourceFromPool` | MultiAudioListener/MultiAudioSource.cs:477 | the pool hands out its front channel, or nothing when empty |
| `Registry.MainMultiAudioListener.NewChannel` | MultiAudioListener/MultiAudioSource.cs:479-483 | a channel made for a new game object has an id never handed out before |
| `Registry.MainMultiAudioListener.EnqueueAudioSourceInPool` | MultiAudioListener/MultiAudioSource.cs:358 | a released channel, not already pooled, goes to the back of the pool |
| `Release.OwnedBySameIds` | MultiAudioListener/MultiAudioSource.cs:401-425 | rewriting channels without changing their ids keeps every channel owned by exactly one listener |
| `Release.OwnedByInsert` | MultiAudioListener/MultiAudioSource.cs:449-452 | mapping a new listener to a channel that is neither held, pooled nor unissued keeps every channel owned by one listener |
| `Release.OwnedByRemove` | MultiAudioListener/MultiAudioSource.cs:438-447 | unmapping a listener and pooling its channel (if live) keeps every channel either pooled or owned by exactly one listener |
| `Release.LiveIdsMembership` | MultiAudioListener/MultiAudioSource.cs:354-360 | Stop releases a channel exactly when it is the live (non-null) channel of some mapped listener |
| `Release.LiveIdsDistinct` | MultiAudioListener/MultiAudioSource.cs:354-360 | Stop releases no channel twice |
| `Release.LiveIdsAgree` | MultiAudioListener/MultiAudioSource.cs:354-360 | the channels Stop releases depend only on the ids and liveness of the mapped channels, so a tick before Stop does not change them |
| `Release.LiveIdsAllLive` | MultiAudioListener/MultiAudioSource.cs:354-360 | when no mapped channel is destroyed, Stop releases exactly one channel per listener, so the pool grows by the table's size |
| `Release.ReleasedOnce` | MultiAudioListener/MultiAudioSource.cs:354-360 | each live mapped channel is released exactly once, a destroyed one never |
| `Release.UnheldNotReleased` | MultiAudioListener/MultiAudioSource.cs:354-360 | a channel no listener holds is never released |
| `Culling.FirstMin` | MultiAudioListener/MultiAudioSource.cs:409-419 | the closest channel: at most as far as every channel and strictly closer than every earlier one |
| `Culling.FirstMinUnique` | MultiAudioListener/MultiAudioSource.cs:411 | the two properties of the closest channel determine it uniquely (first-seen wins ties) |
| `Culling.ClosestStep` | MultiAudioListener/MultiAudioSource.cs:411-419 | one visit takes over as closest exactly when strictly nearer than the closest so far, and then the closest of the visited prefix is correct |
| `Culling.RecordIffNearer` | MultiAudioListener/MultiAudioSource.cs:411 | a channel becomes the closest so far exactly when it is strictly nearer than the closest before it |
| `Culling.CulledMuteAfterTick` | MultiAudioListener/MultiAudioSource.cs:403-421 | the reference definition `Culled` of a channel after a tick gives it the source's mute when it is the first closest channel (or for all when culling is off), and true otherwise |
| `Culling.CullStepPlain` | MultiAudioListener/MultiAudioSource.cs:403-407 | without culling, visiting a channel only sets its mute to the source's and extends the culled prefix by one |
| `Culling.CullStepNearer` | MultiAudioListener/MultiAudioSource.cs:411-418 | visiting a new closest channel mutes the previous closest one, gives the visited one the source's mute and the scaled volume, and extends the culled prefix by one |
| `Culling.CullStepFarther` | MultiAudioListener/MultiAudioSource.cs:419-420 | visiting a channel that is not nearer mutes it, leaves the closest one alone and extends the culled prefix by one |
| `Culling.CulledPrefixComplete` | MultiAudioListener/MultiAudioSource.cs:401-422 | once every position is visited against the first closest channel, each channel is exactly as `Culled` says |
| `Culling.ExactlyOneAudible` | MultiAudioListener/MultiAudioSource.cs:401-422 | with culling on and the source unmuted, exactly one channel is audible after a tick: the first closest one |
| `Culling.AudibleIsClosest` | MultiAudioListener/MultiAudioSource.cs:409-419 | the audible channel is at least as close as every other and strictly closer than every earlier one |
| `Culling.MutedSourceStaysMuted` | MultiAudioListener/MultiAudioSource.cs:403-404 | a muted source has every channel muted after a tick, whichever is closest |
| `Culling.NoCullingMirrorsMute` | MultiAudioListener/MultiAudioSource.cs:403-407 | with culling off every channel's mute is the source's |
| `Culling.CulledByKeepsMirror` | MultiAudioListener/MultiAudioSource.cs:403-421 | culling a channel changes only its mute and volume, and a channel that mirrors the source keeps its volume and stays mirrored |
| `Culling.CulledKeepsMirror` | MultiAudioListener/MultiAudioSource.cs:403-421 | the same for a channel after a whole tick |
| `Culling.CulledPrefixKeeps` | MultiAudioListener/MultiAudioSource.cs:401-425 | a tick, finished or cut short by a destroyed channel, keeps the keys, every channel's identity and liveness, and the table in sync |
| `Culling.ClosestOfThree` | MultiAudioListener/MultiAudioSource.cs:409-421 | listeners at squared distances 10, 5 and 20: only the second channel stays audible |
| `Source.FirstDead` | MultiAudioListener/MultiAudioSource.cs:49-52 | the first destroyed channel in enumeration order: every earlier one is live, the one there is destroyed, or it is the end |
| `Source.WalkCompletes` | MultiAudioListener/MultiAudioSource.cs:49-52 | a `foreach` that touches every channel completes exactly when no mapped channel is destroyed |
| `Source.WriteEach` | MultiAudioListener/MultiAudioSource.cs:49-52 | the `foreach` of a setter, `Play`, `Pause`, `UnPause` or a refresh: it fails with a missing reference exactly when some channel is destroyed, and the channels before the first destroyed one are written while the rest stay as they were |
| `Source.AssignedMirrors` | MultiAudioListener/MultiAudioSource.cs:43-261 | writing a setting into a channel that copies the source's settings gives the settings of the source with the value stored |
| `Source.WrittenMirrors` | MultiAudioListener/MultiAudioSource.cs:43-261 | a write turns a channel that mirrors the source into one that mirrors the source with the value stored, and keeps its identity and liveness |
| `Source.WriteKeepsSync` | MultiAudioListener/MultiAudioSource.cs:43-261 | after a walk, the table mirrors the stored properties if the walk reached every channel, or if the write stores no mirrored property (playback control, full sync, mute) |
| `Source.SyncedSettings` | MultiAudioListener/MultiAudioSource.cs:522-528 | after a completed full sync every channel carries the source's settings and is rewound to sample 0 |
| `Source.RewrittenByKey` | MultiAudioListener/MultiAudioSource.cs:49-52 | per key: each channel of a walked table is written, or untouched when the walk stopped early, and keeps its id |
| `Source.WalkEffects` | MultiAudioListener/MultiAudioSource.cs:49-52 | a walk keeps every channel owned by one listener, and keeps the table in sync with the stored properties as `WriteKeepsSync` says |
| `Source.MultiAudioSource.ForEachSubAudioSource` | MultiAudioListener/MultiAudioSource.cs:49-52 | the walk over the class's own table: the structural invariant holds afterwards, the outcome and the rewritten prefix are as `WriteEach` says, and the sync invariant is kept as `WalkEffects` says |
| `Source.MultiAudioSource.SetAudioClip` | MultiAudioListener/MultiAudioSource.cs:43-54 | stores the clip and writes it into each mapped channel in enumeration order; at the first destroyed channel it fails with a missing reference, and the channels from there on keep the old value; a completed walk keeps the table in sync with the new properties |
| `Source.MultiAudioSource.SetOutput` | MultiAudioListener/MultiAudioSource.cs:58-69 | stores the mixer output and writes it into each mapped channel in enumeration order; at the first destroyed channel it fails with a missing reference, and the channels from there on keep the old value; a completed walk keeps the table in sync with the new properties |
| `Source.MultiAudioSource.SetBypassEffects` | MultiAudioListener/MultiAudioSource.cs:88-99 | stores the flag and writes it into each mapped channel in enumeration order; at the first destroyed channel it fails with a missing reference, and the channels from there on keep the old value; a completed walk keeps the table in sync with the new properties |
| `Source.MultiAudioSource.SetBypassListenerEffects` | MultiAudioListener/MultiAudioSource.cs:103-114 | stores the flag and writes it into each mapped channel in enumeration order; at the first destroyed channel it fails with a missing reference, and the channels from there on keep the old value; a completed walk keeps the table in sync with the new properties |
| `Source.MultiAudioSource.SetBypassReverbZone` | MultiAudioListener/MultiAudioSource.cs:118-129 | stores the flag (as the channel's bypass-reverb-zones) and writes it into each mapped channel in enumeration order; at the first destroyed channel it fails with a missing reference, and the channels from there on keep the old value; a completed walk keeps the table in sync with the new properties |
| `Source.MultiAudioSource.SetLoop` | MultiAudioListener/MultiAudioSource.cs:145-156 | stores loop and writes it into each mapped channel in enumeration order; at the first destroyed channel it fails with a missing reference, and the channels from there on keep the old value; a completed walk keeps the table in sync with the new properties |
| `Source.MultiAudioSource.SetPriority` | MultiAudioListener/MultiAudioSource.cs:160-171 | stores the priority and writes it into each mapped channel in enumeration order; at the first destroyed channel it fails with a missing reference, and the channels from there on keep the old value; a completed walk keeps the table in sync with the new properties |
| `Source.MultiAudioSource.SetPitch` | MultiAudioListener/MultiAudioSource.cs:190-201 | stores the pitch and writes it into each mapped channel in enumeration order; at the first destroyed channel it fails with a missing reference, and the channels from there on keep the old value; a completed walk keeps the table in sync with the new properties |
| `Source.MultiAudioSource.SetSpread` | MultiAudioListener/MultiAudioSource.cs:205-216 | stores the spread and writes it into each mapped channel in enumeration order; at the first destroyed channel it fails with a missing reference, and the channels from there on keep the old value; a completed walk keeps the table in sync with the new properties |
| `Source.MultiAudioSource.SetVolumeRolloff` | MultiAudioListener/MultiAudioSource.cs:220-231 | stores the rolloff mode and writes it into each mapped channel in enumeration order; at the first destroyed channel it fails with a missing reference, and the channels from there on keep the old value; a completed walk keeps the table in sync with the new properties |
| `Source.MultiAudioSource.SetMinDistance` | MultiAudioListener/MultiAudioSource.cs:235-246 | stores the minimum distance and writes it into each mapped channel in enumeration order; at the first destroyed channel it fails with a missing reference, and the channels from there on keep the old value; a completed walk keeps the table in sync with the new properties |
| `Source.MultiAudioSource.SetMaxDistance` | MultiAudioListener/MultiAudioSource.cs:250-261 | stores the maximum distance and writes it into each mapped channel in enumeration order; at the first destroyed channel it fails with a missing reference, and the channels from there on keep the old value; a completed walk keeps the table in sync with the new properties |
| `Source.MultiAudioSource.SetMute` | MultiAudioListener/MultiAudioSource.cs:73-84 | stores mute and writes it into each mapped channel up to the first destroyed one, where it fails with a missing reference; the table stays in sync either way, since culling owns the mute flag |
| `Source.MultiAudioSource.SetVolume` | MultiAudioListener/MultiAudioSource.cs:175-186 | stores the volume and sets each mapped channel's volume to it times that channel's listener volume, up to the first destroyed one, where it fails with a missing reference; a completed walk keeps the table in sync |
| `Source.MultiAudioSource.SetPlayOnAwake` | MultiAudioListener/MultiAudioSource.cs:133-141 | stores the flag only; no channel sees it |
| `Source.MultiAudioSource.constructor` | MultiAudioListener/MultiAudioSource.cs:41-275 | a new source starts Stopped, unsubscribed, with an empty table, culling for the closest camera on, and the serialized property defaults |
| `Source.MultiAudioSource.QueriesReadState` | MultiAudioListener/MultiAudioSource.cs:277-285 | `IsPlaying` holds exactly in the Playing state (started and not paused), `IsPaused` exactly in Paused |
| `Source.MultiAudioSource.CreateAudioSource` | MultiAudioListener/MultiAudioSource.cs:475-517 | takes the pool's front channel or a fresh one; syncs it, pauses it if paused, starts it iff playing and hardware channels are left, forces 3D set-up; clears the batch flag iff a started channel does not report playing; the channel is owned by nobody else |
| `Source.MultiAudioSource.CreateSubAudioSource` | MultiAudioListener/MultiAudioSource.cs:449-457 | adds exactly one new key, at the end of the enumeration order, with the prepared channel at scaled volume, keeping the table in sync; a key already present fails like `Dictionary.Add` after the channel was taken |
| `Source.BatchStartsMeans` | MultiAudioListener/MultiAudioSource.cs:321-328 | in a creation batch a channel is started exactly when every earlier channel of the batch reported playing |
| `Source.BatchStopsAfterRefusal` | MultiAudioListener/MultiAudioSource.cs:502-510 | once a started channel reports not playing, no later channel of the batch is started |
| `Source.BatchAdvance` | MultiAudioListener/MultiAudioSource.cs:324-327 | one creation of the batch maps a listener not yet mapped to the batch's next channel and extends the created prefix by one |
| `Source.BatchCreatedMirrors` | MultiAudioListener/MultiAudioSource.cs:321-328 | a completed creation batch mirrors the source for every listener |
| `Source.MultiAudioSource.CreateBatchEntry` | MultiAudioListener/MultiAudioSource.cs:326 | one iteration of the creation loop: the listener at position `i` gets the batch's channel `i` (pool front to back, then fresh ids), started as the hardware flag says |
| `Source.MultiAudioSource.CreateAllSubAudioSources` | MultiAudioListener/MultiAudioSource.cs:321-328 | one entry per registered listener in registry order, channel `i` being the `i`-th of pool-then-fresh, started iff every earlier one reported playing; the table ends in sync |
| `Source.MultiAudioSource.StartFromStopped` | MultiAudioListener/MultiAudioSource.cs:313-329 | from stopped: becomes playing and subscribed and creates the batch; the table ends in sync and tracking the registry |
| `Source.MultiAudioSource.ClearPaused` | MultiAudioListener/MultiAudioSource.cs:338 | clearing the paused flag of a playing source leaves it in the Playing state |
| `Source.MultiAudioSource.RestartSubAudioSources` | MultiAudioListener/MultiAudioSource.cs:330-338 | already playing or paused: starts each mapped channel up to the first destroyed one; the paused flag is cleared exactly when that walk completes; keys, order and pool are unchanged |
| `Source.MultiAudioSource.Play` | MultiAudioListener/MultiAudioSource.cs:311-339 | from stopped: subscribes and creates one channel per registered listener, in sync; already playing or paused: the restart walk with its outcome; either way playing and subscribed, and in the Playing state whenever no exception was thrown |
| `Source.MultiAudioSource.ReleaseSubAudioSources` | MultiAudioListener/MultiAudioSource.cs:353-360 | appends to the pool every live mapped channel, in enumeration order, skipping the destroyed ones |
| `Source.MultiAudioSource.Stop` | MultiAudioListener/MultiAudioSource.cs:344-362 | no-op when not playing; otherwise unsubscribes, pools every live channel once, empties the table and clears both flags |
| `Source.StopTwice` | MultiAudioListener/MultiAudioSource.cs:344-362 | Stop followed by Stop has the effect of one Stop: nothing is released a second time |
| `Source.MultiAudioSource.Pause` | MultiAudioListener/MultiAudioSource.cs:367-376 | acts only when playing and not paused: sets the paused flag first, then pauses each mapped channel up to the first destroyed one, failing there; otherwise nothing changes |
| `Source.MultiAudioSource.UnPause` | MultiAudioListener/MultiAudioSource.cs:381-390 | acts only when paused: clears the paused flag first, then unpauses each mapped channel up to the first destroyed one, failing there; otherwise nothing changes |
| `Source.AnyPlayingMeans` | MultiAudioListener/MultiAudioSource.cs:424 | the tick's playing flag is set exactly when some mapped channel reports playing |
| `Source.CullStep` | MultiAudioListener/MultiAudioSource.cs:403-422 | one loop iteration of the tick keeps the closest-so-far index equal to the first minimum of the visited distances and extends the culled prefix by one channel |
| `Source.CullSubAudioSources` | MultiAudioListener/MultiAudioSource.cs:397-425 | the tick's loop culls each channel up to the first destroyed one and fails there; when it completes, every channel is as `Culled` says and the flag says whether any channel reports playing; keys, ids and sync are kept either way |
| `Source.MultiAudioSource.CullTick` | MultiAudioListener/MultiAudioSource.cs:397-425 | the same loop over the class's table, keeping the structural and sync invariants |
| `Source.MultiAudioSource.LateUpdate` | MultiAudioListener/MultiAudioSource.cs:392-430 | idle unless playing or paused; otherwise culls the channels, failing at the first destroyed one before the auto-stop; when the loop completes and no channel reports playing and the source is not paused, stops and pools every live channel, and otherwise keeps the culled table |
| `Source.DestroyedChannelTick` | MultiAudioListener/MultiAudioSource.cs:401-428 | a playing source whose only channel was destroyed: the next tick fails with a missing reference at that channel and never reaches the auto-stop, so the source stays playing with its table and the pool unchanged |
| `Source.MultiAudioSource.VirtualAudioListenerAdded` | MultiAudioListener/MultiAudioSource.cs:432-436 | a one-channel batch with the hardware flag set: exactly one new key, all other entries untouched, a duplicate key fails; keeps the keys equal to the registry |
| `Source.MultiAudioSource.VirtualAudioListenerRemoved` | MultiAudioListener/MultiAudioSource.cs:438-447 | deletes exactly that key and pools its channel if live (the null check), all other entries untouched; a missing key fails like the indexer; keeps the keys equal to the registry |
| `Source.MultiAudioSource.SubAudioSourceDestroyed` | MultiAudioListener/MultiAudioSource.cs:443 | the engine destroys a channel's object: the channel is marked destroyed and nothing else changes; the null checks skip it from then on and every other access throws |
| `Source.MultiAudioSource.RefreshAllPropertiesAudioSources` | MultiAudioListener/MultiAudioSource.cs:522-528 | a full sync of each mapped channel up to the first destroyed one, failing there; when it completes every channel carries the source's settings and is rewound, and the table stays in sync either way |
| `Source.MultiAudioSource.OnEnable` | MultiAudioListener/MultiAudioSource.cs:287-293 | with play-on-awake set it is `Play` with `Play`'s whole contract; otherwise nothing changes |
| `Source.MultiAudioSource.OnDisable` | MultiAudioListener/MultiAudioSource.cs:295-298 | stops the source |
| `Source.MultiAudioSource.OnDestroy` | MultiAudioListener/MultiAudioSource.cs:300-306 | stops the source if it is playing, releasing every live channel |
| `Source.RegisterListener` | MultiAudioListener/MultiAudioSource.cs:432-436 | a listener registers and a subscribed source handles the added event: the table gains exactly that key and keeps tracking the registry |
| `Source.UnregisterListener` | MultiAudioListener/MultiAudioSource.cs:438-447 | a listener unregisters and a subscribed source handles the removed event: the table loses exactly that key and keeps tracking the registry |

## Left out

- Unity object plumbing is not modelled (MultiAudioListener/MultiAudioSource.cs:481-494). This covers `GameObject` creation, `AddComponent`, naming, `hideFlags` and parenting. A fresh channel is a new id.
- The model covers one source against the registry and the pool. Each source's ownership invariant speaks only of its own table; that no two sources sharing one `MainMultiAudioListener` hold the same channel is not stated.
- The C# events of `MainMultiAudioListener` are not modelled. Subscription is the flag `subscribed`, and the callbacks are methods that require it. `RegisterListener` and `UnregisterListener` raise them by hand.
- `MainMultiAudioListener` is not part of this model. Its pool is assumed to be a queue (front out, back in), and its registry a duplicate-free sequence with a volume per listener object.
- A channel that comes out of the pool is assumed stopped, not paused and not destroyed (`Blank`). A pooled channel that the engine destroyed, or that still plays, is not modelled.
- A listener's volume is assumed fixed while the listener is mapped. A change to it would leave that channel's volume out of sync until the next write of the source volume or the next tick that picks it as closest.
- A listener object destroyed by the engine is not modelled. Only channels can be destroyed.
- An exception ends the operation that raised it and nothing more. How a caller or the engine reacts to it is not modelled. In particular a destroyed channel makes `LateUpdate` throw again on every frame.
- Audio playback and the platform's voice culling are not modelled. What `isPlaying` reports is an input.
- Floating-point semantics are not modelled. Volume, pitch, spread, distances and positions are reals. The `Range` attributes are editor hints and are not enforced.
- `Source.MultiAudioSource.LateUpdate`: does not move channels. Channel records carry no position. The relocation rule is stated separately in `Relocation.Relocated` on positions given as input. The transform maths behind the target point (`InverseTransformPoint`, `TransformPoint`) is engine geometry and is left out.
- `Relocation.Relocated`: treats `Transform.Translate(distance)` as adding `distance` to the world position. `Translate` moves along the channel's own axes, so this holds only for a channel that is neither rotated nor under a rotated parent. The source never rotates its channels. Under the hierarchy-showing build option the channel is parented to the main listener, and a rotated main listener would move it elsewhere.
- `Source.MultiAudioSource.CreateSubAudioSource`: does not position the new channel, for the same reason.
- The dictionary's enumeration order is modelled as insertion order with removed keys dropped. The .NET `Dictionary` reuses freed slots, so after a removal followed by an insertion its real order may differ. The ownership and culling results hold for any duplicate-free order.
- The property getters are not modelled. They only return the stored field.
- `velocityUpdateMode` is a flag on the channel settings (always dynamic). The engine enum is not modelled.
- A listener-added event for a listener already in the table fails. In the source, `Dictionary.Add` throws after the channel was taken from the pool, so that channel is neither mapped nor pooled. The model records this outcome but does not claim the channel is returned.
