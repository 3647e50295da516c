/**
 * The session dialog: a narration track and a looping background track played
 * together, with the background "ducked" to 30% of the slider level once the
 * narration is there. The React effects become explicit events (the dialog
 * opens, closes, starts loading, or loading resolves); the click and slider
 * handlers and the narration element's events are methods of `Controller`.
 */
module AudioModal {
  import opened Wrappers
  import opened Text
  import opened Media
  import opened Clock

  // ---------------------------------------------------------------------------
  // The two tables
  // ---------------------------------------------------------------------------

  /** An entry of the dialog's plant table. */
  datatype ModalPlant = ModalPlant(name: string, image: string, personality: string, backgroundAudio: string)

  /** `plants[id]`: the dialog knows bamboo, lotus, ceibo and cactus (and no pine). */
  function ModalPlants(id: string): Option<ModalPlant>
  {
    if id == "bamboo" then
      Some(ModalPlant("Bambú Resiliente", "/bamboo-forest-zen.jpg", "Flexible y adaptable",
        "https://hebbkx1anhila5yf.public.blob.vercel-storage.com/Bamb_Resiliente_2025-09-13T185553-TVF8bJeugzyl2lp1ppadoMpSWE4UBA.mp3"))
    else if id == "lotus" then
      Some(ModalPlant("Loto Purificador", "/lotus-tranquil-water.jpg", "Puro y renovador",
        "https://hebbkx1anhila5yf.public.blob.vercel-storage.com/Loto_Sereno_2025-09-13T190200-wrnxL1jLIssLaoQ3LckGLMZP8TASWD.mp3"))
    else if id == "ceibo" then
      Some(ModalPlant("Ceibo Renaciente", "/ceibo-red-flower.jpg", "Apasionado y resiliente",
        "https://hebbkx1anhila5yf.public.blob.vercel-storage.com/Races_del_Ceibo_2025-09-13T193715-QVXVQTYGZVtHxqQMNSgpfEUFKTYGQa.mp3"))
    else if id == "cactus" then
      Some(ModalPlant("Cactus Resistente", "/desert-cactus-bloom.jpg", "Sobrio y resistente",
        "https://hebbkx1anhila5yf.public.blob.vercel-storage.com/Espritu_del_Cactus_2025-09-13T192044-F1qscUn3CoNa1viCXHfS7aQuv5B9Wq.mp3"))
    else None
  }

  /** `currentPlant`: `null` for no selection and for an id the table lacks. */
  function CurrentPlant(selectedPlant: Option<string>): Option<ModalPlant>
  {
    if Truthy(selectedPlant) then ModalPlants(selectedPlant.value) else None
  }

  /**
   * `characteristicLabels[id]`, with `undefined` (an id the table lacks) as the
   * empty string that `join` makes of it.
   */
  function Label(id: string): string
  {
    if id == "stressed" then "Estresado/a"
    else if id == "sad" then "Triste"
    else if id == "anxious" then "Ansioso/a"
    else if id == "tired" then "Cansado/a"
    else if id == "angry" then "Enojado/a"
    else if id == "confused" then "Confundido/a"
    else if id == "gratitud" then "Gratitud"
    else if id == "compasion" then "Compasión"
    else if id == "alegria" then "Alegría"
    else if id == "esperanza" then "Esperanza"
    else ""
  }

  /** The labels of the selected ids, in selection order. */
  function Labels(ids: seq<string>): (r: seq<string>)
    ensures |r| == |ids|
    ensures forall i :: 0 <= i < |ids| ==> r[i] == Label(ids[i])
  {
    seq(|ids|, i requires 0 <= i < |ids| => Label(ids[i]))
  }

  const NameSeparator := ", "

  /** `characteristicNames`: the labels joined with ", ". */
  function CharacteristicNames(ids: seq<string>): string
  {
    Join(Labels(ids), NameSeparator)
  }

  /**
   * The "Adaptado para:" line shows exactly when `characteristicNames` is not
   * empty: with two or more ids (the separator alone is enough), or with one
   * id the label table knows.
   */
  lemma {:induction false} AdaptedLineShown(ids: seq<string>)
    ensures CharacteristicNames(ids) != ""
        <==> |ids| >= 2 || (|ids| == 1 && Label(ids[0]) != "")
  {
    var parts := Labels(ids);
    if |ids| >= 2 {
      JoinLength(parts, NameSeparator);
      assert |CharacteristicNames(ids)| >= |NameSeparator|;
    } else if |ids| == 1 {
      assert CharacteristicNames(ids) == parts[0];
    }
  }

  /**
   * The avatar page's ids "gratitude", "compassion", "joy" and "hope" are not
   * the keys of the label table ("gratitud", "compasion", "alegria",
   * "esperanza"): they render as empty names, and a pair with one of them
   * shows a dangling separator.
   */
  lemma AvatarIdsWithoutLabel()
    ensures Label("gratitude") == "" && Label("compassion") == "" && Label("joy") == "" && Label("hope") == ""
    ensures CharacteristicNames(["sad", "joy"]) == "Triste, "
    ensures CharacteristicNames(["hope"]) == ""
  {
    assert Labels(["sad", "joy"]) == ["Triste", ""];
    assert Labels(["sad", "joy"])[1..] == [""];
    assert Labels(["hope"]) == [""];
  }

  // ---------------------------------------------------------------------------
  // What the dialog shows
  // ---------------------------------------------------------------------------

  datatype Panel = LoadingPanel | ErrorPanel | ControlsPanel

  /**
   * The panel of the dialog body. The three conditions of the markup are
   * `isLoading`, `(error || hasError) && !isLoading` and
   * `!isLoading && !error && !hasError`; exactly one of them holds.
   */
  function VisiblePanel(isLoading: bool, error: Option<string>, hasError: bool): (p: Panel)
    ensures p == LoadingPanel <==> isLoading
    ensures p == ErrorPanel <==> (Truthy(error) || hasError) && !isLoading
    ensures p == ControlsPanel <==> !isLoading && !Truthy(error) && !hasError
  {
    if isLoading then LoadingPanel
    else if Truthy(error) || hasError then ErrorPanel
    else ControlsPanel
  }

  /** The progress-bar width: `currentTime / duration * 100` percent, or 0 before the duration is known. */
  function ProgressWidth(currentTime: real, duration: real): (w: real)
    ensures duration > 0.0 ==> w * duration == currentTime * 100.0
    ensures duration <= 0.0 ==> w == 0.0
    ensures 0.0 <= currentTime <= duration ==> 0.0 <= w <= 100.0
  {
    if duration > 0.0 then ProgressPercent(currentTime, duration) else 0.0
  }

  /**
   * The background volume for slider value `v`: the slider level while the
   * session is being generated, 30% of it afterwards.
   */
  function BackgroundLevel(v: int, loading: bool): (r: real)
    requires 0 <= v <= 100
    ensures 0.0 <= r <= 1.0
    ensures loading ==> r * 100.0 == v as real
    ensures !loading ==> r * 1000.0 == 3.0 * v as real
  {
    if loading then SliderVolume(v) else SliderVolume(v) * 0.3
  }

  /** At the initial slider value 80 the background plays at 0.8 while loading and 0.24 after. */
  lemma DefaultLevels()
    ensures BackgroundLevel(80, true) == 0.8
    ensures BackgroundLevel(80, false) == 0.24
  {
  }

  // ---------------------------------------------------------------------------
  // The controller
  // ---------------------------------------------------------------------------

  /**
   * One mounted dialog for one selected plant. `narration` is the `<audio>`
   * element rendered while `audioUrl` is truthy; `background` the looping one
   * rendered while the plant is in the table.
   */
  class Controller {
    const error: Option<string>
    const hasBackground: bool
    var isOpen: bool
    var isLoading: bool
    var audioUrl: Option<string>
    var isPlaying: bool
    var currentTime: real
    var duration: real
    var volume: int
    var hasError: bool
    var narration: Option<Track>
    var background: Option<Track>

    /**
     * Which elements exist, and `isPlaying` never claims a silent narration:
     * while it is set both tracks play.
     */
    predicate Valid()
      reads this
    {
      && 0 <= volume <= 100
      && currentTime >= 0.0 && duration >= 0.0
      && (narration.Some? <==> Truthy(audioUrl))
      && (background.Some? <==> hasBackground)
      && (narration.Some? ==> narration.value.Valid())
      && (background.Some? ==> background.value.Valid())
      && (isPlaying ==> narration.Some? && !narration.value.paused)
      && (isPlaying && background.Some? ==> !background.value.paused)
    }

    /** The background is at the level the ducking rule gives for the slider and the phase. */
    predicate Ducked()
      reads this
      requires 0 <= volume <= 100
    {
      background.Some? ==> background.value.volume == BackgroundLevel(volume, isLoading)
    }

    /** The panel this state shows. */
    function Panel(): (p: Panel)
      reads this
      ensures p == ControlsPanel <==> !isLoading && !Truthy(error) && !hasError
    {
      VisiblePanel(isLoading, error, hasError)
    }

    /** The dialog mounts closed, idle, without a session, at slider value 80. */
    constructor (selectedPlant: Option<string>, error: Option<string>)
      ensures Valid()
      ensures hasBackground <==> CurrentPlant(selectedPlant).Some?
      ensures this.error == error
      ensures !isOpen && !isLoading && audioUrl.None? && !isPlaying && !hasError
      ensures currentTime == 0.0 && duration == 0.0 && volume == 80
      ensures background.Some? ==> background.value == NewTrack
    {
      this.error := error;
      hasBackground := CurrentPlant(selectedPlant).Some?;
      isOpen := false;
      isLoading := false;
      audioUrl := None;
      isPlaying := false;
      currentTime := 0.0;
      duration := 0.0;
      volume := 80;
      hasError := false;
      narration := None;
      background := if CurrentPlant(selectedPlant).Some? then Some(NewTrack) else None;
    }

    /** `isOpen` becomes true: a previous playback error is forgotten. */
    method Open()
      requires Valid()
      modifies this`isOpen, this`hasError
      ensures Valid()
      ensures isOpen
      ensures hasError == (old(isOpen) && old(hasError))
    {
      if !isOpen {
        isOpen := true;
        hasError := false;
      }
    }

    /**
     * `isOpen` becomes false: not playing, the clock at 0, and both tracks
     * paused and rewound; their volumes are kept.
     */
    method Close()
      requires Valid()
      modifies this`isOpen, this`isPlaying, this`currentTime, this`narration, this`background
      ensures Valid()
      ensures !isOpen
      ensures old(isOpen) ==> !isPlaying && currentTime == 0.0
      ensures old(isOpen) && narration.Some? ==> narration.value == old(narration.value).Pause().Rewind()
      ensures old(isOpen) && background.Some? ==> background.value == old(background.value).Pause().Rewind()
      ensures narration.Some? == old(narration.Some?) && background.Some? == old(background.Some?)
      ensures !old(isOpen) ==> isPlaying == old(isPlaying) && currentTime == old(currentTime)
                               && narration == old(narration) && background == old(background)
    {
      if isOpen {
        isOpen := false;
        isPlaying := false;
        currentTime := 0.0;
        if narration.Some? {
          narration := Some(narration.value.Pause().Rewind());
        }
        if background.Some? {
          background := Some(background.value.Pause().Rewind());
        }
      }
    }

    /**
     * `isLoading` becomes true: the background starts at the slider level
     * while the session is generated.
     */
    method StartLoading()
      requires Valid()
      modifies this`isLoading, this`background
      ensures Valid()
      ensures isLoading
      ensures !old(isLoading) ==> Ducked()
      ensures !old(isLoading) && background.Some? ==>
                background.value == old(background.value).WithVolume(SliderVolume(volume)).Play()
      ensures old(isLoading) ==> background == old(background)
      ensures background.Some? == old(background.Some?)
    {
      if !isLoading {
        isLoading := true;
        if background.Some? {
          background := Some(background.value.WithVolume(SliderVolume(volume)).Play());
        }
      }
    }

    /**
     * Loading ends with `outcome`: `Some(url)` when a session arrived (a blob
     * URL, never empty), `None` when it failed and the URL stays as it was. A
     * new URL gives a new narration element (volume 1) or reloads the existing
     * one; then, when there is a narration, it plays, `isPlaying` is set and
     * the background is ducked to 30% and plays.
     */
    method Resolve(outcome: Option<string>)
      requires Valid()
      requires outcome.Some? ==> outcome.value != ""
      modifies this`isLoading, this`audioUrl, this`isPlaying, this`narration, this`background
      ensures Valid()
      ensures !isLoading
      ensures audioUrl == (if outcome.Some? then outcome else old(audioUrl))
      ensures var reacts := old(isLoading) || audioUrl != old(audioUrl);
              && (reacts && narration.Some? ==> isPlaying && !narration.value.paused && Ducked())
              && (reacts && background.Some? && narration.Some? ==>
                    background.value == old(background.value).WithVolume(BackgroundLevel(volume, false)).Play())
              && (!(reacts && narration.Some?) ==> isPlaying == old(isPlaying) && background == old(background))
      ensures !(old(isLoading) || audioUrl != old(audioUrl)) ==> narration == old(narration)
      ensures audioUrl != old(audioUrl) ==> narration.Some? && narration.value.position == 0.0
      ensures audioUrl != old(audioUrl) && old(narration).None? ==> narration.value.volume == NewTrack.volume
      ensures audioUrl != old(audioUrl) && old(narration).Some? ==> narration.value.volume == old(narration.value.volume)
      ensures audioUrl == old(audioUrl) && old(narration).Some? ==>
                narration.value.volume == old(narration.value.volume) && narration.value.position == old(narration.value.position)
      ensures background.Some? == old(background.Some?)
    {
      var reacts := isLoading;
      isLoading := false;
      if outcome.Some? && outcome != audioUrl {
        reacts := true;
        narration := if narration.Some? then Some(narration.value.Reload()) else Some(NewTrack);
        audioUrl := outcome;
      }
      if reacts && narration.Some? {
        narration := Some(narration.value.Play());
        isPlaying := true;
        if background.Some? {
          background := Some(background.value.WithVolume(BackgroundLevel(volume, false)).Play());
        }
      }
    }

    /** The play/pause button: nothing without a narration; otherwise both tracks follow the flipped flag. */
    method TogglePlayPause()
      requires Valid()
      modifies this`isPlaying, this`narration, this`background
      ensures Valid()
      ensures old(narration).None? ==> isPlaying == old(isPlaying) && narration == old(narration) && background == old(background)
      ensures old(narration).Some? ==> isPlaying == !old(isPlaying)
      ensures old(narration).Some? ==> narration.value == (if isPlaying then old(narration.value).Play() else old(narration.value).Pause())
      ensures old(narration).Some? && background.Some? ==>
                background.value == (if isPlaying then old(background.value).Play() else old(background.value).Pause())
      ensures narration.Some? == old(narration.Some?) && background.Some? == old(background.Some?)
    {
      if narration.None? {
        return;
      }
      if isPlaying {
        narration := Some(narration.value.Pause());
        if background.Some? {
          background := Some(background.value.Pause());
        }
      } else {
        narration := Some(narration.value.Play());
        if background.Some? {
          background := Some(background.value.Play());
        }
      }
      isPlaying := !isPlaying;
    }

    /** The restart button: both tracks from the start, playing; volumes unchanged. */
    method Restart()
      requires Valid()
      modifies this`isPlaying, this`currentTime, this`narration, this`background
      ensures Valid()
      ensures old(narration).None? ==> isPlaying == old(isPlaying) && currentTime == old(currentTime)
                                       && narration == old(narration) && background == old(background)
      ensures old(narration).Some? ==> isPlaying && currentTime == 0.0
      ensures old(narration).Some? ==> narration.value == old(narration.value).Rewind().Play()
      ensures old(narration).Some? && background.Some? ==> background.value == old(background.value).Rewind().Play()
      ensures narration.Some? == old(narration.Some?) && background.Some? == old(background.Some?)
    {
      if narration.None? {
        return;
      }
      narration := Some(narration.value.Rewind());
      currentTime := 0.0;
      isPlaying := true;
      narration := Some(narration.value.Play());
      if background.Some? {
        background := Some(background.value.Rewind().Play());
      }
    }

    /**
     * The volume slider: the narration at `v / 100`, the background at the
     * ducking level for the current phase.
     */
    method SetVolume(v: int)
      requires Valid()
      requires 0 <= v <= 100
      modifies this`volume, this`narration, this`background
      ensures Valid()
      ensures volume == v
      ensures Ducked()
      ensures narration.Some? ==> narration.value == old(narration.value).WithVolume(SliderVolume(v))
      ensures background.Some? ==> background.value == old(background.value).WithVolume(BackgroundLevel(v, isLoading))
      ensures narration.Some? == old(narration.Some?) && background.Some? == old(background.Some?)
    {
      volume := v;
      if narration.Some? {
        narration := Some(narration.value.WithVolume(SliderVolume(v)));
      }
      if background.Some? {
        background := Some(background.value.WithVolume(BackgroundLevel(v, isLoading)));
      }
    }

    /** `timeupdate`: the narration has reached `position`; the clock shows it. */
    method TimeUpdate(position: real)
      requires Valid()
      requires narration.Some? && position >= 0.0
      modifies this`currentTime, this`narration
      ensures Valid()
      ensures currentTime == position
      ensures narration == Some(old(narration.value).At(position))
    {
      narration := Some(narration.value.At(position));
      currentTime := position;
    }

    /** `loadedmetadata`: the narration's length is known. */
    method LoadedMetadata(length: real)
      requires Valid()
      requires narration.Some? && length >= 0.0
      modifies this`duration
      ensures Valid()
      ensures duration == length
    {
      duration := length;
    }

    /**
     * `ended`: the narration stops at its end and `isPlaying` is cleared; the
     * background loops on.
     */
    method Ended()
      requires Valid()
      requires narration.Some?
      modifies this`isPlaying, this`narration
      ensures Valid()
      ensures !isPlaying
      ensures narration == Some(old(narration.value).Pause())
    {
      narration := Some(narration.value.Pause());
      isPlaying := false;
    }

    /** `error` on the narration element: the error panel replaces the controls. */
    method MediaError()
      requires Valid()
      requires narration.Some?
      modifies this`hasError, this`isPlaying
      ensures Valid()
      ensures hasError && !isPlaying
      ensures Panel() != ControlsPanel
    {
      hasError := true;
      isPlaying := false;
    }
  }

  /**
   * A failed generation after an earlier session in the same dialog. The page
   * ends loading and closes the dialog in one update, so the effect at the end
   * of loading replays the old narration and the close effect then stops and
   * rewinds both tracks: nothing is heard, and the background is left at the
   * ducked level of the earlier session.
   */
  method FailedGenerationAfterSession() returns (isPlaying: bool, narrationPaused: bool,
                                                 backgroundPaused: bool, backgroundVolume: real)
    ensures !isPlaying && narrationPaused && backgroundPaused
    ensures backgroundVolume == BackgroundLevel(80, false) == 0.24
  {
    var dialog := new Controller(Some("bamboo"), None);
    dialog.Open();
    dialog.StartLoading();
    dialog.Resolve(Some("blob:1"));
    dialog.Close();
    dialog.Open();
    dialog.StartLoading();
    dialog.Resolve(None);
    dialog.Close();
    isPlaying := dialog.isPlaying;
    narrationPaused := dialog.narration.value.paused;
    backgroundPaused := dialog.background.value.paused;
    backgroundVolume := dialog.background.value.volume;
  }

  /**
   * A failed first generation: there is no narration, and the close effect
   * stops and rewinds the background, which keeps the loading level.
   */
  method FailedFirstGeneration() returns (hasNarration: bool, backgroundPaused: bool,
                                          backgroundPosition: real, backgroundVolume: real)
    ensures !hasNarration && backgroundPaused && backgroundPosition == 0.0
    ensures backgroundVolume == BackgroundLevel(80, true) == 0.8
  {
    var dialog := new Controller(Some("bamboo"), None);
    dialog.Open();
    dialog.StartLoading();
    dialog.Resolve(None);
    dialog.Close();
    hasNarration := dialog.narration.Some?;
    backgroundPaused := dialog.background.value.paused;
    backgroundPosition := dialog.background.value.position;
    backgroundVolume := dialog.background.value.volume;
  }
}
