/**
 * Values shared by the model of MultiAudioSource: identities of virtual
 * listeners and of physical channels, the properties a logical source
 * carries, and the record of one physical channel (an engine AudioSource
 * that the source has taken from the pool or created).
 */
module AudioTypes {

  /** A VirtualMultiAudioListener, by identity. */
  type ListenerId = nat

  /** A physical channel (an engine AudioSource), by identity. */
  type ChannelId = nat

  datatype Option<T> = None | Some(value: T)

  /** A reference to an engine asset (an AudioClip or an AudioMixerGroup); None is a null reference. */
  type AssetRef = Option<nat>

  /** The engine's AudioRolloffMode. */
  datatype RolloffMode = Logarithmic | Linear | Custom

  /** The exception an operation of the source raises. */
  datatype Fault =
    | DuplicateListener   // Dictionary.Add with a key that is already present
    | ListenerNotFound    // the dictionary indexer with a key that is absent
    | MissingReference    // a member access on a channel whose engine object was destroyed

  datatype Outcome = Done | Failed(fault: Fault)

  /** The serialized properties of a MultiAudioSource. */
  datatype Props = Props(
    clip: AssetRef,
    output: AssetRef,
    mute: bool,
    bypassEffects: bool,
    bypassListenerEffects: bool,
    bypassReverbZone: bool,
    playOnAwake: bool,
    loop: bool,
    priority: int,
    volume: real,
    pitch: real,
    spread: real,
    volumeRolloff: RolloffMode,
    minDistance: real,
    maxDistance: real)

  /** The volume a channel plays at: the source volume scaled by its listener's volume. */
  function ScaledVolume(volume: real, listenerVolume: real): real {
    volume * listenerVolume
  }

  /** The values a new MultiAudioSource is serialized with. */
  const DEFAULT_PROPS: Props :=
    Props(None, None, false, true, true, true, false, false, 128, 1.0, 1.0, 0.0, Logarithmic, 1.0, 500.0)

  /**
   * The properties SetAllValuesAudioSource copies from the source onto a
   * channel, with the two it fixes (velocity update dynamic, no native
   * play-on-awake).
   */
  datatype ChannelSettings = ChannelSettings(
    clip: AssetRef,
    output: AssetRef,
    loop: bool,
    bypassEffects: bool,
    bypassListenerEffects: bool,
    bypassReverbZones: bool,
    pitch: real,
    priority: int,
    spread: real,
    rolloffMode: RolloffMode,
    minDistance: real,
    maxDistance: real,
    velocityUpdateDynamic: bool,
    playOnAwake: bool)

  /** The settings a channel of a source with properties `p` carries. */
  function SettingsOf(p: Props): ChannelSettings {
    ChannelSettings(p.clip, p.output, p.loop, p.bypassEffects, p.bypassListenerEffects, p.bypassReverbZone,
                    p.pitch, p.priority, p.spread, p.volumeRolloff, p.minDistance, p.maxDistance, true, false)
  }

  /**
   * The state of one physical channel. `started` and `paused` record the
   * Play/Pause/UnPause calls made on it; `alive` is false once the engine
   * has destroyed the object, when the source's null checks see it as null.
   */
  datatype Channel = Channel(
    id: ChannelId,
    settings: ChannelSettings,
    timeSamples: int,
    mute: bool,
    volume: real,
    spatialBlend: real,
    dopplerLevel: real,
    reverbZoneMix: real,
    started: bool,
    paused: bool,
    alive: bool)

  /**
   * A channel as it comes out of the pool or out of a new game object:
   * stopped, not paused, alive, with the component's own defaults in every
   * other field (each of which creation overwrites).
   */
  function Blank(id: ChannelId): Channel {
    Channel(id, ChannelSettings(None, None, false, false, false, false, 1.0, 128, 0.0, Logarithmic, 1.0, 500.0, false, true),
            0, false, 1.0, 0.0, 1.0, 1.0, false, false, true)
  }

  /** AudioSource.Play on a channel. */
  function PlayChannel(c: Channel): Channel {
    c.(started := true, paused := false)
  }

  /** AudioSource.Pause on a channel. */
  function PauseChannel(c: Channel): Channel {
    c.(paused := true)
  }

  /** AudioSource.UnPause on a channel. */
  function UnPauseChannel(c: Channel): Channel {
    c.(paused := false)
  }

  /** SetAllValuesAudioSource: copy every synchronised property of `p` onto `c` and rewind it. */
  function SetAllValues(c: Channel, p: Props): Channel {
    c.(settings := SettingsOf(p), timeSamples := 0, mute := p.mute)
  }

  /**
   * CreateAudioSource after the channel `base` was obtained: full sync, pause
   * it if the source is paused, start it if `start`, then force full 3D with
   * no Doppler and no reverb-zone mix.
   */
  function Prepared(base: Channel, p: Props, paused: bool, start: bool): Channel {
    var synced := SetAllValues(base, p);
    var held := if paused then PauseChannel(synced) else synced;
    var launched := if start then PlayChannel(held) else held;
    launched.(spatialBlend := 1.0, dopplerLevel := 0.0, reverbZoneMix := 0.0)
  }

  /** CreateSubAudioSource: the prepared channel with its volume scaled by the listener's volume `lv`. */
  function NewSubAudioSource(id: ChannelId, p: Props, lv: real, paused: bool, start: bool): Channel {
    Prepared(Blank(id), p, paused, start).(volume := ScaledVolume(p.volume, lv))
  }

  /**
   * A mapped channel is in sync with its source for a listener of volume
   * `lv`: the copied settings, the scaled volume, and the fixed 3D set-up.
   * Mute is not part of it: culling overrides it on purpose.
   */
  predicate Mirrors(c: Channel, p: Props, lv: real) {
    && c.settings == SettingsOf(p)
    && c.volume == ScaledVolume(p.volume, lv)
    && c.spatialBlend == 1.0
    && c.dopplerLevel == 0.0
    && c.reverbZoneMix == 0.0
  }

  /**
   * Every live channel of the table mirrors the source for its own listener's
   * volume (a destroyed channel can no longer be written).
   */
  ghost predicate AllMirror(sub: map<ListenerId, Channel>, p: Props, volume: map<ListenerId, real>) {
    forall l :: l in sub && sub[l].alive ==> l in volume && Mirrors(sub[l], p, volume[l])
  }

  lemma AllMirrorInsert(sub: map<ListenerId, Channel>, p: Props, volume: map<ListenerId, real>, l: ListenerId, c: Channel)
    requires l in volume && Mirrors(c, p, volume[l])
    ensures AllMirror(sub, p, volume) ==> AllMirror(sub[l := c], p, volume)
  {
  }

  lemma AllMirrorRemove(sub: map<ListenerId, Channel>, p: Props, volume: map<ListenerId, real>, l: ListenerId)
    ensures AllMirror(sub, p, volume) ==> AllMirror(sub - {l}, p, volume)
  {
  }

  /** A full resync copies every property, rewinds the channel and leaves identity, volume and playback alone. */
  lemma SetAllValuesSyncs(c: Channel, p: Props)
    ensures SetAllValues(c, p).settings == SettingsOf(p)
    ensures SetAllValues(c, p).mute == p.mute && SetAllValues(c, p).timeSamples == 0
    ensures var r := SetAllValues(c, p);
      r.id == c.id && r.volume == c.volume && r.started == c.started && r.paused == c.paused
      && r.alive == c.alive && r.spatialBlend == c.spatialBlend && r.dopplerLevel == c.dopplerLevel
      && r.reverbZoneMix == c.reverbZoneMix
  {
  }

  /**
   * A newly created sub audio source mirrors the source, is muted exactly
   * when the source is, starts at sample 0, is started exactly when `start`,
   * and stays paused only when it was paused and not started afterwards.
   */
  lemma NewSubAudioSourceState(id: ChannelId, p: Props, lv: real, paused: bool, start: bool)
    ensures var c := NewSubAudioSource(id, p, lv, paused, start);
      && Mirrors(c, p, lv)
      && c.spatialBlend == 1.0 && c.dopplerLevel == 0.0 && c.reverbZoneMix == 0.0
      && c.volume == ScaledVolume(p.volume, lv)
      && c.settings == SettingsOf(p) && !c.settings.playOnAwake && c.settings.velocityUpdateDynamic
      && c.mute == p.mute && c.timeSamples == 0
      && c.id == id && c.alive
      && c.started == start
      && c.paused == (paused && !start)
  {
  }
}
