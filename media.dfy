/**
 * What the players use of an HTML audio element: its playback position, its
 * volume and whether it is paused. Decoding, buffering and the media clock are
 * outside the model; their effects arrive as events.
 */
module Media {

  datatype Track = Track(position: real, volume: real, paused: bool)
  {
    /** The element accepts only volumes in [0, 1] and non-negative positions. */
    predicate Valid() {
      position >= 0.0 && 0.0 <= volume <= 1.0
    }

    /** `play()`. */
    function Play(): Track { this.(paused := false) }

    /** `pause()`. */
    function Pause(): Track { this.(paused := true) }

    /** `currentTime = 0`. */
    function Rewind(): Track { this.(position := 0.0) }

    /** `volume = v`. */
    function WithVolume(v: real): Track { this.(volume := v) }

    /** Playback has reached `p` (what a `timeupdate` event reports). */
    function At(p: real): Track { this.(position := p) }

    /**
     * A new `src` runs the element's load algorithm: back to the start and
     * paused; the volume is kept.
     */
    function Reload(): Track { this.(position := 0.0, paused := true) }
  }

  /** An element as the browser creates it: at the start, full volume, paused. */
  const NewTrack := Track(0.0, 1.0, true)

  /** A slider value `v` in 0..100 as an element volume, `v / 100`. */
  function SliderVolume(v: int): (r: real)
    requires 0 <= v <= 100
    ensures 0.0 <= r <= 1.0
    ensures r * 100.0 == v as real
  {
    v as real / 100.0
  }
}
