/** Local media as both clients see it: a stream holds the `enabled` flags of its audio tracks and
    of its video tracks, and the mute and camera toggles flip a flag and write it into every track
    of one kind. */
module MediaTracks {
  /** A media stream. `stopped` records that `stop()` was called on its tracks. */
  class MediaStream {
    const audio: array<bool>
    const video: array<bool>
    var stopped: bool

    /** `getAudioTracks()` and `getVideoTracks()` are disjoint lists. */
    ghost predicate Valid()
      reads this
    {
      audio != video
    }

    constructor (audioEnabled: seq<bool>, videoEnabled: seq<bool>)
      ensures Valid() && fresh(audio) && fresh(video) && !stopped
      ensures audio[..] == audioEnabled && video[..] == videoEnabled
    {
      audio := new bool[|audioEnabled|](i requires 0 <= i < |audioEnabled| => audioEnabled[i]);
      video := new bool[|videoEnabled|](i requires 0 <= i < |videoEnabled| => videoEnabled[i]);
      stopped := false;
    }
  }

  /** How a toggle writes its new flag into the tracks: as it is, or negated. */
  datatype Polarity = SameAsFlag | OppositeOfFlag

  function Level(flag: bool, p: Polarity): bool {
    if p == SameAsFlag then flag else !flag
  }

  /** A flag together with the `enabled` flags of the tracks it governs. */
  datatype Toggle = Toggle(flag: bool, tracks: seq<bool>)

  /** Every track agrees with the flag. */
  predicate InStep(t: Toggle, p: Polarity) {
    forall i :: 0 <= i < |t.tracks| ==> t.tracks[i] == Level(t.flag, p)
  }

  /** The toggle rule of both clients: without a track of the kind nothing changes; otherwise the
      flag flips and every track gets the new flag's level. */
  function Toggled(t: Toggle, p: Polarity): (r: Toggle)
    ensures |r.tracks| == |t.tracks|
    ensures |t.tracks| == 0 ==> r == t
    ensures |t.tracks| > 0 ==> r.flag == !t.flag && InStep(r, p)
  {
    if |t.tracks| == 0 then t else Toggle(!t.flag, seq(|t.tracks|, _ => Level(!t.flag, p)))
  }

  /** Two toggles give the flag back, and from then on the tracks agree with it. */
  lemma ToggleTwice(t: Toggle, p: Polarity)
    ensures Toggled(Toggled(t, p), p).flag == t.flag
    ensures |t.tracks| > 0 ==> InStep(Toggled(Toggled(t, p), p), p)
  {
  }

  /** A toggle keeps tracks that agree with their flag in agreement. */
  lemma ToggleKeepsInStep(t: Toggle, p: Polarity)
    requires InStep(t, p)
    ensures InStep(Toggled(t, p), p)
  {
  }

  /** `tracks.forEach(track => track.enabled = v)`. */
  method SetAll(a: array<bool>, v: bool)
    modifies a
    ensures forall i :: 0 <= i < a.Length ==> a[i] == v
  {
    for i := 0 to a.Length
      invariant forall k :: 0 <= k < i ==> a[k] == v
    {
      a[i] := v;
    }
  }

  /** The toggle on a stream's track array, proved against `Toggled`. */
  method ToggleTracks(flag: bool, a: array<bool>, p: Polarity) returns (flag': bool)
    modifies a
    ensures Toggle(flag', a[..]) == Toggled(Toggle(flag, old(a[..])), p)
  {
    flag' := flag;
    if a.Length > 0 {
      flag' := !flag;
      SetAll(a, Level(flag', p));
    }
    assert a[..] == Toggled(Toggle(flag, old(a[..])), p).tracks;
  }
}
