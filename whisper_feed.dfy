/** The whisper feed (RoomWhisper/Views/WhisperFeedView.swift): which whispers
    are listed, the mood chips that narrow the list, and the heart button. */
module WhisperFeed {
  import opened Collections
  import opened Models
  import opened Text
  import opened App

  /** The feed's three filters as one condition on a whisper: the chosen
      building, the chosen mood, and the search text, each only when set. */
  predicate WhisperMatches(w: Whisper, selectedBuilding: Option<Building>, moodFilter: Option<Mood>, searchText: string) {
    && (selectedBuilding.Some? ==> w.buildingId == selectedBuilding.value.id)
    && (moodFilter.Some? ==> w.mood == moodFilter.value)
    && (searchText != [] ==> ContainsIgnoringCase(w.content, searchText))
  }

  /** `filteredWhispers`: the building filter, then the mood filter, then the
      search filter, each applied only when it is set. A whisper is listed
      exactly when it is in the list and passes every active filter; with no
      filter active the whole list is shown. */
  function FilteredWhispers(whispers: seq<Whisper>, selectedBuilding: Option<Building>,
                            moodFilter: Option<Mood>, searchText: string): (r: seq<Whisper>)
    ensures |r| <= |whispers|
    ensures forall w :: w in r ==> w in whispers && WhisperMatches(w, selectedBuilding, moodFilter, searchText)
    ensures forall w :: w in whispers && WhisperMatches(w, selectedBuilding, moodFilter, searchText) ==> w in r
    ensures selectedBuilding.None? && moodFilter.None? && searchText == [] ==> r == whispers
  {
    var byBuilding :=
      if selectedBuilding.Some? then Filter(whispers, (w: Whisper) => w.buildingId == selectedBuilding.value.id)
      else whispers;
    var byMood :=
      if moodFilter.Some? then Filter(byBuilding, (w: Whisper) => w.mood == moodFilter.value)
      else byBuilding;
    if searchText != [] then Filter(byMood, (w: Whisper) => ContainsIgnoringCase(w.content, searchText))
    else byMood
  }

  /** The feed keeps the list's order: what survives from an earlier part of
      the list is shown before what survives from a later part. */
  lemma FilteredWhispersKeepsOrder(a: seq<Whisper>, b: seq<Whisper>, selectedBuilding: Option<Building>,
                                   moodFilter: Option<Mood>, searchText: string)
    ensures FilteredWhispers(a + b, selectedBuilding, moodFilter, searchText)
         == FilteredWhispers(a, selectedBuilding, moodFilter, searchText)
          + FilteredWhispers(b, selectedBuilding, moodFilter, searchText)
  {
    var byBuildingA, byBuildingB := a, b;
    if selectedBuilding.Some? {
      var p := (w: Whisper) => w.buildingId == selectedBuilding.value.id;
      FilterAppend(a, b, p);
      byBuildingA, byBuildingB := Filter(a, p), Filter(b, p);
    }
    var byMoodA, byMoodB := byBuildingA, byBuildingB;
    if moodFilter.Some? {
      var p := (w: Whisper) => w.mood == moodFilter.value;
      FilterAppend(byBuildingA, byBuildingB, p);
      byMoodA, byMoodB := Filter(byBuildingA, p), Filter(byBuildingB, p);
    }
    if searchText != [] {
      FilterAppend(byMoodA, byMoodB, (w: Whisper) => ContainsIgnoringCase(w.content, searchText));
    }
  }

  /** Searching is blind to the case of the query's letters. */
  lemma FilteredWhispersIgnoreQueryCase(whispers: seq<Whisper>, selectedBuilding: Option<Building>,
                                        moodFilter: Option<Mood>, q1: string, q2: string)
    requires Fold(q1) == Fold(q2)
    ensures FilteredWhispers(whispers, selectedBuilding, moodFilter, q1)
         == FilteredWhispers(whispers, selectedBuilding, moodFilter, q2)
  {
    assert |q1| == |Fold(q1)| == |Fold(q2)| == |q2|;
    var byBuilding :=
      if selectedBuilding.Some? then Filter(whispers, (w: Whisper) => w.buildingId == selectedBuilding.value.id)
      else whispers;
    var byMood :=
      if moodFilter.Some? then Filter(byBuilding, (w: Whisper) => w.mood == moodFilter.value)
      else byBuilding;
    FilterSamePredicate(byMood, (w: Whisper) => ContainsIgnoringCase(w.content, q1),
                        (w: Whisper) => ContainsIgnoringCase(w.content, q2));
  }

  /** The feed screen's own state: the mood chip selection and the search
      text; the building filter and the whispers live in the shared state. */
  class WhisperFeedView {
    const appState: AppState
    var selectedMoodFilter: Option<Mood>
    var searchText: string

    constructor (appState: AppState)
      ensures this.appState == appState && selectedMoodFilter == None && searchText == []
    {
      this.appState := appState;
      selectedMoodFilter := None;
      searchText := [];
    }

    /** What the feed lists right now. */
    function Feed(): seq<Whisper>
      reads this, appState
    {
      FilteredWhispers(appState.whispers, appState.selectedBuilding, selectedMoodFilter, searchText)
    }

    /** The "All" chip clears the mood filter. */
    method TapAllMoods()
      modifies this`selectedMoodFilter
      ensures selectedMoodFilter == None
    {
      selectedMoodFilter := None;
    }

    /** A mood chip selects its mood, or clears the filter when its mood was
        the one selected. */
    method TapMood(mood: Mood)
      modifies this`selectedMoodFilter
      ensures selectedMoodFilter == ToggledSelection(old(selectedMoodFilter), mood)
    {
      selectedMoodFilter := if selectedMoodFilter == Some(mood) then None else Some(mood);
    }

    /** The heart on a listed whisper toggles the like of the first whisper
        with its id, which always exists because the card came from the list. */
    method TapLike(w: Whisper)
      modifies appState`whispers
      ensures appState.whispers == ToggleLikeIn(old(appState.whispers), w.id)
      ensures w in old(Feed()) ==> FirstIndex(old(appState.whispers), WhisperId, w.id).Some?
    {
      if w in Feed() {
        FirstIndexFindsMember(appState.whispers, WhisperId, w);
      }
      appState.ToggleLike(w.id);
    }
  }
}
