/**
 * Closest-listener culling, stated on the sequence of squared distances of
 * the mapped listeners in the dictionary's enumeration order: the first
 * channel at strictly minimal distance keeps the source's mute flag, every
 * other one is muted, and each channel that was the closest so far when it
 * was visited has its volume reset.
 */
module Culling {
  import opened AudioTypes
  import opened Seqs

  /** The index of the first element of `ds` that no element is below. */
  function FirstMin(ds: seq<real>): (k: nat)
    requires |ds| > 0
    ensures k < |ds|
    ensures forall j :: 0 <= j < |ds| ==> ds[k] <= ds[j]
    ensures forall j :: 0 <= j < k ==> ds[k] < ds[j]
  {
    if |ds| == 1 then 0
    else
      var k := FirstMin(ds[..|ds| - 1]);
      if ds[|ds| - 1] < ds[k] then |ds| - 1 else k
  }

  /** The two properties of FirstMin pin it down: no other index has both. */
  lemma FirstMinUnique(ds: seq<real>, k: nat)
    requires k < |ds|
    requires forall j :: 0 <= j < |ds| ==> ds[k] <= ds[j]
    requires forall j :: 0 <= j < k ==> ds[k] < ds[j]
    ensures k == FirstMin(ds)
  {
  }

  /** Visiting one more distance moves the closest index to it exactly when it is strictly nearer. */
  lemma FirstMinStep(ds: seq<real>, i: nat)
    requires 0 < i < |ds|
    ensures FirstMin(ds[..i + 1]) == if ds[i] < ds[FirstMin(ds[..i])] then i else FirstMin(ds[..i])
  {
    assert ds[..i + 1][..i] == ds[..i];
  }

  /** Position `i` was the closest so far when it was visited: strictly below every earlier distance. */
  predicate IsRecord(ds: seq<real>, i: nat)
    requires i < |ds|
  {
    forall j :: 0 <= j < i ==> ds[i] < ds[j]
  }

  /**
   * One step of the tick's search for the closest channel: coming from the
   * first closest of `ds[..i]` (or from none when i is 0), position `i` takes
   * over exactly when it is strictly nearer, which is when it is a
   * closest-so-far position, and the result is the first closest of `ds[..i + 1]`.
   */
  lemma ClosestStep(ds: seq<real>, i: nat, closest: int)
    requires i < |ds|
    requires if i == 0 then closest == -1 else 0 <= closest < i && closest == FirstMin(ds[..i])
    ensures var nearer := closest == -1 || ds[i] < ds[closest];
      && (nearer <==> IsRecord(ds, i))
      && FirstMin(ds[..i + 1]) == if nearer then i else closest
  {
    if 0 < i {
      RecordIffNearer(ds, i);
      FirstMinStep(ds, i);
    } else {
      assert FirstMin(ds[..1]) == 0;
    }
  }

  /** The squared distances of the listeners in `order`. */
  function Distances(order: seq<ListenerId>, sqrDistance: ListenerId -> real): seq<real> {
    seq(|order|, i requires 0 <= i < |order| => sqrDistance(order[i]))
  }

  /**
   * The mute flag of the channel at position `j` once the tick has settled on
   * the index `closest`: muted unless it is that one, or the source's own
   * flag when culling is off.
   */
  function CulledMute(closest: int, j: nat, mute: bool, onlyClosest: bool): bool {
    if onlyClosest && j != closest then true else mute
  }

  /** The mute flag of the channel at position `i` after a whole tick. */
  function CullMute(ds: seq<real>, i: nat, mute: bool, onlyClosest: bool): bool
    requires i < |ds|
  {
    CulledMute(FirstMin(ds), i, mute, onlyClosest)
  }

  /**
   * The closest index the tick holds after visiting the first `k` positions:
   * none (-1) before the first visit or when culling is off.
   */
  function PrefixClosest(ds: seq<real>, k: nat, onlyClosest: bool): int
    requires k <= |ds|
  {
    if !onlyClosest || k == 0 then -1 else FirstMin(ds[..k])
  }

  /**
   * The channel `c` at position `j` once the tick has settled on the index
   * `closest`: muted unless it is that one (or culling is off, when it takes
   * the source's mute flag), and, while culling, its volume reset to the
   * source volume times the listener volume `lv` when `record` says it was
   * a closest-so-far channel.
   */
  function CulledBy(c: Channel, closest: int, j: nat, record: bool, p: Props, onlyClosest: bool, lv: real): Channel {
    c.(mute := CulledMute(closest, j, p.mute, onlyClosest),
       volume := if onlyClosest && record then ScaledVolume(p.volume, lv) else c.volume)
  }

  /** The channel `c` at position `i` of the distances `ds` after a tick. */
  function Culled(c: Channel, ds: seq<real>, i: nat, p: Props, onlyClosest: bool, lv: real): Channel
    requires i < |ds|
  {
    CulledBy(c, FirstMin(ds), i, IsRecord(ds, i), p, onlyClosest, lv)
  }

  /**
   * After a tick a channel is muted unless it is the first closest one (or
   * culling is off), when it carries the source's mute flag.
   */
  lemma CulledMuteAfterTick(c: Channel, ds: seq<real>, i: nat, p: Props, onlyClosest: bool, lv: real)
    requires i < |ds|
    ensures Culled(c, ds, i, p, onlyClosest, lv).mute == (if onlyClosest && i != FirstMin(ds) then true else p.mute)
    ensures Culled(c, ds, i, p, onlyClosest, lv).mute == CullMute(ds, i, p.mute, onlyClosest)
  {
  }

  /** A tick visits position `i` as a closest-so-far exactly when it is strictly nearer than the closest before it. */
  lemma RecordIffNearer(ds: seq<real>, i: nat)
    requires 0 < i < |ds|
    ensures IsRecord(ds, i) <==> ds[i] < ds[FirstMin(ds[..i])]
  {
    assert forall j :: 0 <= j < i ==> ds[..i][j] == ds[j];
  }

  /**
   * Part way through a tick: the channels of `order[..i]` have been culled
   * against the index `closest`, the others are as they were in `sub0`.
   */
  ghost predicate CulledPrefix(sub: map<ListenerId, Channel>, sub0: map<ListenerId, Channel>, order: seq<ListenerId>,
                               i: nat, closest: int, ds: seq<real>, p: Props, onlyClosest: bool,
                               volume: map<ListenerId, real>)
    requires i <= |order| == |ds|
    requires forall l :: l in order ==> l in sub0 && l in volume
  {
    && sub.Keys == sub0.Keys
    && forall j :: 0 <= j < |order| ==>
         sub[order[j]] == if j < i then CulledBy(sub0[order[j]], closest, j, IsRecord(ds, j), p, onlyClosest, volume[order[j]])
                          else sub0[order[j]]
  }

  /** The table `sub` is `sub0` after a whole tick: the same listeners, each with its culled channel. */
  ghost predicate CulledTable(sub: map<ListenerId, Channel>, sub0: map<ListenerId, Channel>, order: seq<ListenerId>,
                              ds: seq<real>, p: Props, onlyClosest: bool, volume: map<ListenerId, real>)
    requires |order| == |ds| && forall l :: l in order ==> l in sub0 && l in volume
  {
    && sub.Keys == sub0.Keys
    && forall i :: 0 <= i < |order| ==> sub[order[i]] == Culled(sub0[order[i]], ds, i, p, onlyClosest, volume[order[i]])
  }

  /** Once every position is visited against the first closest one, the table is the culled one. */
  lemma CulledPrefixComplete(sub: map<ListenerId, Channel>, sub0: map<ListenerId, Channel>, order: seq<ListenerId>,
                             closest: int, ds: seq<real>, p: Props, onlyClosest: bool, volume: map<ListenerId, real>)
    requires |order| == |ds| && forall l :: l in order ==> l in sub0 && l in volume
    requires CulledPrefix(sub, sub0, order, |order|, closest, ds, p, onlyClosest, volume)
    requires onlyClosest && 0 < |ds| ==> closest == FirstMin(ds)
    ensures CulledTable(sub, sub0, order, ds, p, onlyClosest, volume)
  {
  }

  /** Without culling, a step only rewrites the visited channel's mute flag. */
  lemma CullStepPlain(sub: map<ListenerId, Channel>, sub0: map<ListenerId, Channel>, order: seq<ListenerId>, i: nat,
                      ds: seq<real>, p: Props, volume: map<ListenerId, real>)
    requires Distinct(order) && i < |order| == |ds| && forall l :: l in order ==> l in sub0 && l in volume
    requires CulledPrefix(sub, sub0, order, i, -1, ds, p, false, volume)
    ensures CulledPrefix(sub[order[i] := sub[order[i]].(mute := p.mute)], sub0, order, i + 1, -1, ds, p, false, volume)
  {
  }

  /**
   * A step that reaches a closest-so-far channel: mute the previous closest
   * one, and give the visited one the source's mute flag and reset volume.
   */
  lemma CullStepNearer(sub: map<ListenerId, Channel>, sub0: map<ListenerId, Channel>, order: seq<ListenerId>, i: nat,
                       closest: int, ds: seq<real>, p: Props, volume: map<ListenerId, real>)
    requires Distinct(order) && i < |order| == |ds| && forall l :: l in order ==> l in sub0 && l in volume
    requires CulledPrefix(sub, sub0, order, i, closest, ds, p, true, volume)
    requires IsRecord(ds, i) && (closest == -1 || 0 <= closest < i)
    ensures var l := order[i];
      var m := sub[l := sub[l].(mute := p.mute)];
      var m' := if closest == -1 then m else m[order[closest] := m[order[closest]].(mute := true)];
      CulledPrefix(m'[l := m'[l].(volume := ScaledVolume(p.volume, volume[l]))], sub0, order, i + 1, i, ds, p, true, volume)
  {
  }

  /** A step that reaches a farther channel mutes it and leaves the closest one alone. */
  lemma CullStepFarther(sub: map<ListenerId, Channel>, sub0: map<ListenerId, Channel>, order: seq<ListenerId>, i: nat,
                        closest: int, ds: seq<real>, p: Props, volume: map<ListenerId, real>)
    requires Distinct(order) && i < |order| == |ds| && forall l :: l in order ==> l in sub0 && l in volume
    requires CulledPrefix(sub, sub0, order, i, closest, ds, p, true, volume)
    requires !IsRecord(ds, i) && 0 <= closest < i
    ensures var l := order[i];
      var m := sub[l := sub[l].(mute := p.mute)];
      CulledPrefix(m[l := m[l].(mute := true)], sub0, order, i + 1, closest, ds, p, true, volume)
  {
  }

  /** Without culling, every channel carries the source's mute flag. */
  lemma NoCullingMirrorsMute(ds: seq<real>, i: nat, mute: bool)
    requires i < |ds|
    ensures CullMute(ds, i, mute, false) == mute
  {
  }

  /** A muted source stays fully muted, whichever listener is closest. */
  lemma MutedSourceStaysMuted(ds: seq<real>, i: nat, onlyClosest: bool)
    requires i < |ds|
    ensures CullMute(ds, i, true, onlyClosest)
  {
  }

  /** The channels a tick leaves unmuted. */
  function Audible(ds: seq<real>, mute: bool, onlyClosest: bool): set<nat> {
    set i: nat | i < |ds| && !CullMute(ds, i, mute, onlyClosest)
  }

  /**
   * With culling on and the source not muted, exactly one channel is audible
   * after a tick: the first one at minimal distance.
   */
  lemma ExactlyOneAudible(ds: seq<real>)
    requires |ds| > 0
    ensures Audible(ds, false, true) == {FirstMin(ds)}
    ensures |Audible(ds, false, true)| == 1
  {
    var k := FirstMin(ds);
    forall i: nat | i in Audible(ds, false, true) ensures i == k {
    }
    assert k in Audible(ds, false, true);
  }

  /** The only audible channel is at least as close as every other and strictly closer than every earlier one. */
  lemma AudibleIsClosest(ds: seq<real>, i: nat)
    requires i < |ds| && !CullMute(ds, i, false, true)
    ensures forall j :: 0 <= j < |ds| ==> ds[i] <= ds[j]
    ensures forall j :: 0 <= j < i ==> ds[i] < ds[j]
  {
  }

  /**
   * Culling a channel, against any closest index, changes only its mute flag
   * and its volume, and a mirrored channel keeps its volume and stays mirrored.
   */
  lemma CulledByKeepsMirror(c: Channel, closest: int, j: nat, record: bool, p: Props, onlyClosest: bool, lv: real)
    ensures var r := CulledBy(c, closest, j, record, p, onlyClosest, lv);
      && r == c.(mute := r.mute, volume := r.volume)
      && (Mirrors(c, p, lv) ==> Mirrors(r, p, lv) && r.volume == c.volume)
  {
  }

  /** The channel at position `i` after a whole tick: only mute and volume change, and a mirrored one stays mirrored. */
  lemma CulledKeepsMirror(c: Channel, ds: seq<real>, i: nat, p: Props, onlyClosest: bool, lv: real)
    requires i < |ds| && Mirrors(c, p, lv)
    ensures var r := Culled(c, ds, i, p, onlyClosest, lv);
      Mirrors(r, p, lv) && r.id == c.id && r.alive == c.alive && r.volume == c.volume
      && r.started == c.started && r.paused == c.paused
  {
    CulledByKeepsMirror(c, FirstMin(ds), i, IsRecord(ds, i), p, onlyClosest, lv);
  }

  /**
   * A tick, finished or cut short after `i` positions, keeps every channel's
   * identity and liveness, and keeps every live channel mirroring the source.
   */
  lemma CulledPrefixKeeps(sub: map<ListenerId, Channel>, sub0: map<ListenerId, Channel>, os: seq<ListenerId>, i: nat,
                          closest: int, ds: seq<real>, p: Props, onlyClosest: bool, volume: map<ListenerId, real>)
    requires i <= |os| == |ds| && (forall l :: l in os <==> l in sub0) && (forall l :: l in os ==> l in volume)
    requires CulledPrefix(sub, sub0, os, i, closest, ds, p, onlyClosest, volume)
    ensures AllMirror(sub0, p, volume) ==> AllMirror(sub, p, volume)
    ensures sub.Keys == sub0.Keys
    ensures forall l :: l in sub0 ==> sub[l].id == sub0[l].id && sub[l].alive == sub0[l].alive
  {
    forall l | l in sub0
      ensures sub[l].id == sub0[l].id && sub[l].alive == sub0[l].alive
      ensures sub[l].alive && Mirrors(sub0[l], p, volume[l]) ==> Mirrors(sub[l], p, volume[l])
    {
      var j :| 0 <= j < |os| && os[j] == l;
      if j < i {
        CulledByKeepsMirror(sub0[l], closest, j, IsRecord(ds, j), p, onlyClosest, volume[l]);
      }
    }
  }

  /** Listeners at squared distances 10, 5 and 20: only the second channel stays audible. */
  lemma ClosestOfThree()
    ensures Audible([10.0, 5.0, 20.0], false, true) == {1}
  {
    ExactlyOneAudible([10.0, 5.0, 20.0]);
    FirstMinUnique([10.0, 5.0, 20.0], 1);
  }
}
