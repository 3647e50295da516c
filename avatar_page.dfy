/**
 * The avatar page: a plant is picked, up to two characteristics are toggled
 * on and off, and the start button validates the choice, opens the session
 * dialog and posts the request. The fetch itself is outside the model; its
 * result arrives as the outcome passed to `Page.Settle`.
 */
module AvatarPage {
  import opened Wrappers
  import opened GenerateAudio

  /** The plant ids the page offers. */
  const PlantIds := ["bamboo", "lotus", "ceibo", "cactus"]

  /** The characteristic ids the page offers. */
  const CharacteristicIds :=
    ["stressed", "sad", "anxious", "tired", "angry", "confused", "gratitude", "compassion", "joy", "hope"]

  /** The most characteristics a selection holds. */
  const MaxSelected := 2

  // ---------------------------------------------------------------------------
  // toggleCharacteristic
  // ---------------------------------------------------------------------------

  predicate NoDup(s: seq<string>)
  {
    forall i, j :: 0 <= i < j < |s| ==> s[i] != s[j]
  }

  /** A selection as the page keeps it: at most two ids, none twice. */
  predicate Selection(s: seq<string>)
  {
    |s| <= MaxSelected && NoDup(s)
  }

  /** `s.filter((c) => c !== x)`. */
  function RemoveAll(s: seq<string>, x: string): (r: seq<string>)
    ensures x !in r
    ensures forall y :: y != x ==> (y in r <==> y in s)
    ensures |r| <= |s|
    ensures x in s ==> |r| < |s|
  {
    if s == [] then []
    else
      var rest := RemoveAll(s[1..], x);
      assert forall y :: y in s <==> y == s[0] || y in s[1..];
      if s[0] == x then rest else [s[0]] + rest
  }

  /** Filtering keeps a list without repeats without repeats. */
  lemma {:induction false} RemoveAllNoDup(s: seq<string>, x: string)
    requires NoDup(s)
    ensures NoDup(RemoveAll(s, x))
  {
    if s != [] {
      var rest := s[1..];
      assert NoDup(rest);
      RemoveAllNoDup(rest, x);
      if s[0] != x {
        assert s[0] !in rest;
        var r := [s[0]] + RemoveAll(rest, x);
        forall i, j | 0 <= i < j < |r|
          ensures r[i] != r[j]
        {
          if i == 0 {
            assert r[j] in RemoveAll(rest, x);
          }
        }
      }
    }
  }

  /** Filtering out an id that is not there changes nothing. */
  lemma {:induction false} RemoveAbsent(s: seq<string>, x: string)
    requires x !in s
    ensures RemoveAll(s, x) == s
  {
    if s != [] {
      assert x !in s[1..];
      RemoveAbsent(s[1..], x);
    }
  }

  /** Filtering out the id at `i` of a list without repeats cuts exactly that place. */
  lemma {:induction false} RemoveAllAt(s: seq<string>, i: nat)
    requires NoDup(s) && i < |s|
    ensures RemoveAll(s, s[i]) == s[..i] + s[i + 1..]
  {
    if i == 0 {
      assert s[0] !in s[1..];
      RemoveAbsent(s[1..], s[0]);
    } else {
      var rest := s[1..];
      assert rest[i - 1] == s[i];
      assert NoDup(rest);
      RemoveAllAt(rest, i - 1);
      assert s[0] != s[i];
      assert [s[0]] + (rest[..i - 1] + rest[i..]) == s[..i] + s[i + 1..];
    }
  }

  /**
   * `toggleCharacteristic(id)`: a selected id is filtered out, an unselected
   * one is appended while fewer than two are selected, and otherwise the
   * selection stays as it was.
   */
  function Toggle(prev: seq<string>, id: string): (r: seq<string>)
    ensures id in prev ==> id !in r && |r| < |prev| && forall y :: y != id ==> (y in r <==> y in prev)
    ensures id !in prev && |prev| < MaxSelected ==> r == prev + [id]
    ensures id !in prev && |prev| >= MaxSelected ==> r == prev
  {
    if id in prev then RemoveAll(prev, id)
    else if |prev| < MaxSelected then prev + [id]
    else prev
  }

  /** Deselecting keeps the other ids in their order: the id's one place is cut out. */
  lemma ToggleRemovesInPlace(prev: seq<string>, i: nat)
    requires Selection(prev) && i < |prev|
    ensures Toggle(prev, prev[i]) == prev[..i] + prev[i + 1..]
  {
    RemoveAllAt(prev, i);
  }

  /** Every toggle keeps a selection a selection. */
  lemma TogglePreservesSelection(prev: seq<string>, id: string)
    requires Selection(prev)
    ensures Selection(Toggle(prev, id))
  {
    if id in prev {
      RemoveAllNoDup(prev, id);
    } else if id !in prev && |prev| < MaxSelected {
      var r := prev + [id];
      forall i, j | 0 <= i < j < |r|
        ensures r[i] != r[j]
      {
        if j == |prev| {
          assert r[i] == prev[i];
        }
      }
    }
  }

  /** The selection after the clicks `clicks`, starting from none. */
  function AfterClicks(clicks: seq<string>): seq<string>
  {
    if clicks == [] then [] else Toggle(AfterClicks(clicks[..|clicks| - 1]), clicks[|clicks| - 1])
  }

  /** Whatever the user clicks, the selection holds at most two ids and none twice. */
  lemma {:induction false} ClicksKeepSelection(clicks: seq<string>)
    ensures Selection(AfterClicks(clicks))
  {
    if clicks != [] {
      ClicksKeepSelection(clicks[..|clicks| - 1]);
      TogglePreservesSelection(AfterClicks(clicks[..|clicks| - 1]), clicks[|clicks| - 1]);
    }
  }

  /** Toggling an id on and off again restores the selection. */
  lemma ToggleTwice(prev: seq<string>, id: string)
    requires id !in prev && |prev| < MaxSelected
    ensures Toggle(Toggle(prev, id), id) == prev
  {
    var on := prev + [id];
    assert on[|prev|] == id;
    assert NoDup(on);
    RemoveAllAt(on, |prev|);
    assert on[..|prev|] == prev;
  }

  /** `disabled` of a characteristic button. */
  predicate Disabled(selected: seq<string>, id: string)
  {
    |selected| >= MaxSelected && id !in selected
  }

  /** A button is disabled exactly when a click on it would change nothing. */
  lemma DisabledExactlyWhenNoEffect(selected: seq<string>, id: string)
    ensures Disabled(selected, id) <==> Toggle(selected, id) == selected
  {
    if id !in selected && |selected| < MaxSelected {
      assert |Toggle(selected, id)| == |selected| + 1;
    }
  }

  // ---------------------------------------------------------------------------
  // Gating and the start handler
  // ---------------------------------------------------------------------------

  /** `canProceed`: a plant and at least one characteristic. */
  predicate CanProceed(plant: Option<string>, selected: seq<string>)
  {
    Truthy(plant) && |selected| > 0
  }

  /** A request the page is willing to send passes the endpoint's validation. */
  lemma SentRequestsAreValid(plant: Option<string>, selected: seq<string>)
    requires CanProceed(plant, selected)
    ensures ValidRequest(plant, Some(selected))
  {
  }

  /** The page offers one plant the endpoint's table does not have: "ceibo". */
  lemma OfferedPlantsAgainstEndpoint()
    ensures forall id :: id in PlantIds ==> (PlantPrompts(id).None? <==> id == "ceibo")
  {
  }

  /** Four of the characteristics the page offers have no instruction at the endpoint. */
  lemma OfferedCharacteristicsAgainstEndpoint()
    ensures forall id :: id in CharacteristicIds ==>
              (CharacteristicPrompts(id).None? <==> id in ["gratitude", "compassion", "joy", "hope"])
  {
  }

  /** The page's state. The error toasts' three-second timers are left out. */
  class Page {
    var selectedPlant: Option<string>
    var selectedCharacteristics: seq<string>
    var isGenerating: bool
    var showModal: bool
    var generatedAudioUrl: Option<string>
    var showPlantError: bool
    var showCharacteristicError: bool

    predicate Valid()
      reads this
    {
      Selection(selectedCharacteristics)
    }

    constructor ()
      ensures Valid()
      ensures selectedPlant.None? && selectedCharacteristics == [] && generatedAudioUrl.None?
      ensures !isGenerating && !showModal && !showPlantError && !showCharacteristicError
    {
      selectedPlant := None;
      selectedCharacteristics := [];
      isGenerating := false;
      showModal := false;
      generatedAudioUrl := None;
      showPlantError := false;
      showCharacteristicError := false;
    }

    /** A click on a plant card. */
    method SelectPlant(id: string)
      requires Valid()
      modifies this`selectedPlant
      ensures Valid()
      ensures selectedPlant == Some(id)
    {
      selectedPlant := Some(id);
    }

    /** A click on a characteristic button. */
    method ToggleCharacteristic(id: string)
      requires Valid()
      modifies this`selectedCharacteristics
      ensures Valid()
      ensures selectedCharacteristics == Toggle(old(selectedCharacteristics), id)
    {
      TogglePreservesSelection(selectedCharacteristics, id);
      selectedCharacteristics := Toggle(selectedCharacteristics, id);
    }

    /**
     * `handleStartMeditation` up to the fetch: the plant is checked first and
     * only its toast is raised; then the characteristics, with only theirs;
     * otherwise the page starts generating, opens the dialog and returns the
     * body it posts.
     */
    method StartMeditation() returns (request: Option<RequestBody>)
      requires Valid()
      modifies this`showPlantError, this`showCharacteristicError, this`isGenerating, this`showModal
      ensures Valid()
      ensures request.Some? <==> CanProceed(selectedPlant, selectedCharacteristics)
      ensures !Truthy(selectedPlant) ==>
                showPlantError && showCharacteristicError == old(showCharacteristicError)
                && isGenerating == old(isGenerating) && showModal == old(showModal)
      ensures Truthy(selectedPlant) && selectedCharacteristics == [] ==>
                showCharacteristicError && showPlantError == old(showPlantError)
                && isGenerating == old(isGenerating) && showModal == old(showModal)
      ensures request.Some? ==>
                isGenerating && showModal
                && showPlantError == old(showPlantError) && showCharacteristicError == old(showCharacteristicError)
                && request.value == Body(selectedPlant, Some(selectedCharacteristics))
                && ValidRequest(request.value.plant, request.value.characteristics)
    {
      if !Truthy(selectedPlant) {
        showPlantError := true;
        return None;
      }
      if |selectedCharacteristics| == 0 {
        showCharacteristicError := true;
        return None;
      }
      isGenerating := true;
      showModal := true;
      request := Some(Body(selectedPlant, Some(selectedCharacteristics)));
    }

    /**
     * The fetch settles: `Some(url)` is the object URL of the received audio,
     * `None` a failed request. Generating ends either way; a failure closes
     * the dialog and keeps the previous URL.
     */
    method Settle(outcome: Option<string>)
      requires Valid()
      modifies this`generatedAudioUrl, this`showModal, this`isGenerating
      ensures Valid()
      ensures !isGenerating
      ensures outcome.Some? ==> generatedAudioUrl == outcome && showModal == old(showModal)
      ensures outcome.None? ==> generatedAudioUrl == old(generatedAudioUrl) && !showModal
    {
      if outcome.Some? {
        generatedAudioUrl := outcome;
      } else {
        showModal := false;
      }
      isGenerating := false;
    }

    /** The dialog's `onClose`. */
    method CloseModal()
      requires Valid()
      modifies this`showModal
      ensures Valid()
      ensures !showModal
    {
      showModal := false;
    }
  }
}
