/**
 * The meditation page: three fixed sessions and a single-track player with
 * play/pause, reset and a volume slider. The page always renders its
 * `<audio>` element, so the player always has a track.
 */
module MeditationPage {
  import opened Text
  import opened Media
  import opened Clock

  datatype Session = Session(id: string, title: string, duration: nat, description: string, audioUrl: string)

  /** The shared placeholder recording of all three sessions. */
  const PlaceholderAudio := "/placeholder-audio.mp3"

  const Breathing := Session("breathing", "Respiración Consciente", 300,
    "Una sesión suave de respiración guiada para calmar la mente", PlaceholderAudio)
  const Nature := Session("nature", "Conexión con la Naturaleza", 600,
    "Visualización guiada en un jardín sereno", PlaceholderAudio)
  const Stress := Session("stress", "Liberación del Estrés", 480,
    "Técnicas para soltar tensiones y encontrar paz", PlaceholderAudio)

  /** `meditationSessions`, in display order. */
  const Sessions := [Breathing, Nature, Stress]

  lemma SessionClocks()
    ensures FormatTime(Breathing.duration as real) == "5:00"
    ensures FormatTime(Nature.duration as real) == "10:00"
    ensures FormatTime(Stress.duration as real) == "8:00"
  {
    FloorIs(300.0 / 60.0, 5);
    FloorIs(JsRemainder(300.0, 60.0), 0);
    FormatTimeOf(300.0, 5, 0);
    FloorIs(600.0 / 60.0, 10);
    FloorIs(JsRemainder(600.0, 60.0), 0);
    FormatTimeOf(600.0, 10, 0);
    FloorIs(480.0 / 60.0, 8);
    FloorIs(JsRemainder(480.0, 60.0), 0);
    FormatTimeOf(480.0, 8, 0);
    assert DecimalString(10) == DecimalString(1) + [DigitChar(0)];
  }

  /**
   * The progress-bar width of the page, `currentTime / duration * 100`, which
   * needs no guard: every session has a positive duration.
   */
  function SessionProgress(currentTime: real, session: Session): (w: real)
    requires session in Sessions
    ensures session.duration > 0
    ensures w * session.duration as real == currentTime * 100.0
    ensures 0.0 <= currentTime <= session.duration as real ==> 0.0 <= w <= 100.0
  {
    ProgressPercent(currentTime, session.duration as real)
  }

  /** The player of the page. */
  class Player {
    var selected: Session
    var isPlaying: bool
    var currentTime: real
    var volume: int
    var element: Track

    predicate Valid()
      reads this
    {
      && selected in Sessions
      && 0 <= volume <= 100
      && currentTime >= 0.0
      && element.Valid()
    }

    /** The play button shows "pause" exactly while the element plays. */
    predicate Synced()
      reads this
    {
      isPlaying == !element.paused
    }

    /** The first session selected, not playing, slider at 80, a fresh element. */
    constructor ()
      ensures Valid() && Synced()
      ensures selected == Breathing && !isPlaying && currentTime == 0.0 && volume == 80
      ensures element == NewTrack
    {
      selected := Breathing;
      isPlaying := false;
      currentTime := 0.0;
      volume := 80;
      element := NewTrack;
    }

    /** The play/pause button: the element follows the flipped flag. */
    method TogglePlayPause()
      requires Valid()
      modifies this`isPlaying, this`element
      ensures Valid()
      ensures isPlaying == !old(isPlaying)
      ensures element == if isPlaying then old(element).Play() else old(element).Pause()
      ensures old(Synced()) ==> Synced()
    {
      if isPlaying {
        element := element.Pause();
      } else {
        element := element.Play();
      }
      isPlaying := !isPlaying;
    }

    /**
     * `resetAudio` as the page has it: back to the start and `isPlaying`
     * cleared, but the element is not paused, so a playing session plays on
     * behind a "play" button.
     */
    method ResetAudioAsWritten()
      requires Valid()
      modifies this`isPlaying, this`currentTime, this`element
      ensures Valid()
      ensures !isPlaying && currentTime == 0.0
      ensures element == old(element).Rewind()
      ensures old(isPlaying) && old(Synced()) ==> !Synced()
    {
      element := element.Rewind();
      currentTime := 0.0;
      isPlaying := false;
    }

    /** `resetAudio` with the element paused as well: back to the start, stopped. */
    method ResetAudio()
      requires Valid()
      modifies this`isPlaying, this`currentTime, this`element
      ensures Valid() && Synced()
      ensures !isPlaying && currentTime == 0.0
      ensures element == old(element).Pause().Rewind()
    {
      element := element.Pause().Rewind();
      currentTime := 0.0;
      isPlaying := false;
    }

    /**
     * A click on a session card: the session is selected and the player reset
     * with the page's `resetAudio`, so a playing element plays on from the
     * start behind a "play" button. All sessions share one recording, so the
     * element's source does not change and the element is not reloaded.
     */
    method SelectSession(session: Session)
      requires Valid()
      requires session in Sessions
      modifies this`selected, this`isPlaying, this`currentTime, this`element
      ensures Valid()
      ensures selected == session
      ensures !isPlaying && currentTime == 0.0
      ensures element == old(element).Rewind()
      ensures old(isPlaying) && old(Synced()) ==> !Synced()
    {
      if session.audioUrl != selected.audioUrl {
        element := element.Reload();
      }
      selected := session;
      ResetAudioAsWritten();
    }

    /** A click on a session card with the corrected `ResetAudio`: selected, at the start, stopped. */
    method SelectSessionCorrected(session: Session)
      requires Valid()
      requires session in Sessions
      modifies this`selected, this`isPlaying, this`currentTime, this`element
      ensures Valid() && Synced()
      ensures selected == session
      ensures !isPlaying && currentTime == 0.0
      ensures element == old(element).Pause().Rewind()
    {
      if session.audioUrl != selected.audioUrl {
        element := element.Reload();
      }
      selected := session;
      ResetAudio();
    }

    /** The volume slider: the element at `v / 100`. */
    method SetVolume(v: int)
      requires Valid()
      requires 0 <= v <= 100
      modifies this`volume, this`element
      ensures Valid()
      ensures volume == v
      ensures element == old(element).WithVolume(SliderVolume(v))
      ensures old(Synced()) ==> Synced()
    {
      volume := v;
      element := element.WithVolume(SliderVolume(v));
    }

    /** `timeupdate`: the element has reached `position`; the clock shows it. */
    method TimeUpdate(position: real)
      requires Valid()
      requires position >= 0.0
      modifies this`currentTime, this`element
      ensures Valid()
      ensures currentTime == position
      ensures element == old(element).At(position)
      ensures old(Synced()) ==> Synced()
    {
      element := element.At(position);
      currentTime := position;
    }

    /** `ended`: the element stops at its end and the flag is cleared. */
    method Ended()
      requires Valid()
      modifies this`isPlaying, this`element
      ensures Valid() && Synced()
      ensures !isPlaying
      ensures element == old(element).Pause()
    {
      element := element.Pause();
      isPlaying := false;
    }
  }

  /**
   * Play, then reset with the page's `resetAudio`: the button offers "play"
   * while the recording is still sounding.
   */
  method ResetWhilePlaying() returns (isPlaying: bool, sounding: bool)
    ensures !isPlaying && sounding
  {
    var player := new Player();
    player.TogglePlayPause();
    player.ResetAudioAsWritten();
    isPlaying := player.isPlaying;
    sounding := !player.element.paused;
  }

  /** Play, then reset with the corrected `ResetAudio`: nothing sounds and the button offers "play". */
  method ResetWhilePlayingCorrected() returns (isPlaying: bool, sounding: bool)
    ensures !isPlaying && !sounding
  {
    var player := new Player();
    player.TogglePlayPause();
    player.ResetAudio();
    isPlaying := player.isPlaying;
    sounding := !player.element.paused;
  }

  /**
   * Play, then pick another session card: the page shows the new session as
   * stopped while the recording still sounds.
   */
  method SelectWhilePlaying() returns (isPlaying: bool, sounding: bool)
    ensures !isPlaying && sounding
  {
    var player := new Player();
    player.TogglePlayPause();
    player.SelectSession(Nature);
    isPlaying := player.isPlaying;
    sounding := !player.element.paused;
  }

  /** Play, then pick another card with the corrected reset: nothing sounds. */
  method SelectWhilePlayingCorrected() returns (isPlaying: bool, sounding: bool)
    ensures !isPlaying && !sounding
  {
    var player := new Player();
    player.TogglePlayPause();
    player.SelectSessionCorrected(Nature);
    isPlaying := player.isPlaying;
    sounding := !player.element.paused;
  }
}
