/** The composer (RoomWhisper/Views/CreatePostView.swift): the character
    budget, the "Post" button's guard, the tag editor, the poll option editor,
    and what `createPost` adds to the shared state. */
module CreatePost {
  import opened Collections
  import opened Models
  import opened Text
  import opened App

  // ---------------------------------------------------------------- Budget and guard

  const MaxCharacters: int := 280

  /** `remainingCharacters`: what is left of the 280-character budget; it goes
      negative once the message is too long. */
  function RemainingCharacters(content: string): (r: int)
    ensures r + |content| == MaxCharacters
    ensures r >= 0 <==> |content| <= MaxCharacters
  {
    MaxCharacters - |content|
  }

  /** `canPost` as written: a non-empty message within the budget, and a
      building. It looks at the message whichever mode the composer is in. */
  predicate CanPost(content: string, targetBuilding: Option<Building>) {
    content != [] && RemainingCharacters(content) >= 0 && targetBuilding.Some?
  }

  /** The guard admits exactly the messages of 1 to 280 characters. */
  lemma CanPostMeans(content: string, targetBuilding: Option<Building>)
    ensures CanPost(content, targetBuilding) <==> 1 <= |content| <= MaxCharacters && targetBuilding.Some?
  {
  }

  // ---------------------------------------------------------------- Tags

  const MaxTags: nat := 5

  /** What the tag editor keeps true: at most five tags, all different, each
      non-empty and already trimmed. */
  predicate TagsValid(tags: seq<string>) {
    && |tags| <= MaxTags
    && NoDuplicates(tags)
    && forall t :: t in tags ==> t != [] && Trim(t) == t
  }

  /** `addTag`'s condition: the trimmed entry is non-empty, new, and there is
      room for it. */
  predicate CanAddTag(tags: seq<string>, newTag: string) {
    Trim(newTag) != [] && Trim(newTag) !in tags && |tags| < MaxTags
  }

  /** An entry made of whitespace only is never added. */
  lemma BlankTagRejected(tags: seq<string>, newTag: string)
    requires AllWhitespace(newTag)
    ensures !CanAddTag(tags, newTag)
  {
  }

  /** Adding an accepted entry keeps the tags valid. */
  lemma AddTagKeepsTagsValid(tags: seq<string>, newTag: string)
    requires TagsValid(tags) && CanAddTag(tags, newTag)
    ensures TagsValid(tags + [Trim(newTag)])
  {
  }

  /** The test `removeTag` applies to each tag: keep what differs from `tag`. */
  function DiffersFrom(tag: string): string -> bool {
    x => x != tag
  }

  /** Removing a tag keeps the order of the tags that stay: what survives from
      an earlier run of tags is listed before what survives from a later one. */
  lemma RemoveTagKeepsOrder(a: seq<string>, b: seq<string>, tag: string)
    ensures Filter(a + b, DiffersFrom(tag)) == Filter(a, DiffersFrom(tag)) + Filter(b, DiffersFrom(tag))
  {
    FilterAppend(a, b, DiffersFrom(tag));
  }

  // ---------------------------------------------------------------- Polls

  const MinOptions: nat := 2
  const MaxOptions: nat := 6

  predicate IsNonEmpty(s: string) {
    s != []
  }

  /** The options that make it into the poll: the non-empty ones, in order. */
  function FilledOptions(options: seq<string>): (r: seq<string>)
    ensures |r| <= |options|
    ensures forall x :: x in r ==> x in options && x != []
    ensures forall x :: x in options && x != [] ==> x in r
  {
    Filter(options, IsNonEmpty)
  }

  /** Seconds in a day. */
  const Day: int := 86400

  /** The poll `createPost` builds: the non-empty options, a zero count for
      each, the author shown as "Anonymous" or "User", and seven days to run. */
  function CreatedPoll(id: string, building: Building, question: string, options: seq<string>,
                       anonymous: bool, now: Date): (p: Poll)
    ensures p.id == id && p.buildingId == building.id && p.question == question && !p.hasVoted
    ensures p.options == FilledOptions(options)
    ensures PollWellFormed(p) && TotalVotes(p) == 0
    ensures forall j :: 0 <= j < |p.votes| ==> p.votes[j] == 0
    ensures p.createdBy == if anonymous then "Anonymous" else "User"
    ensures !IsExpired(p, now + 7 * Day) && IsExpired(p, now + 7 * Day + 1)
  {
    var filled := FilledOptions(options);
    SumZeros(|filled|);
    NewPoll(id, building.id, question, filled, Zeros(|filled|),
            if anonymous then "Anonymous" else "User", now + Day * 7)
  }

  /** The whisper `createPost` builds: no likes or replies yet, and a delivery
      date exactly when it is a future whisper. */
  function CreatedWhisper(id: string, building: Building, content: string, mood: Mood, tags: seq<string>,
                          isFutureWhisper: bool, deliveryDate: Date, now: Date): (w: Whisper)
    ensures w.id == id && w.buildingId == building.id && w.content == content && w.mood == mood
    ensures w.timestamp == now && w.likes == 0 && w.replies == 0 && !w.isLiked && LikeConsistent(w)
    ensures w.tags == tags && w.isFutureWhisper == isFutureWhisper
    ensures w.deliveryDate == if isFutureWhisper then Some(deliveryDate) else None
  {
    Whisper(id, building.id, content, mood, now, 0, 0, false, tags, isFutureWhisper,
            if isFutureWhisper then Some(deliveryDate) else None)
  }

  /** The tab shown after posting: the whisper feed in anonymous mode, the
      official zone otherwise. */
  function TabAfterPosting(anonymous: bool): (t: Tab)
    ensures anonymous <==> t == Whispers
    ensures !anonymous <==> t == Verified
  {
    if anonymous then Whispers else Verified
  }

  // ---------------------------------------------------------------- Corrected guard

  /** What the poll composer evidently needs before "Post Poll" is enabled: a
      question and at least two filled-in options. */
  predicate PollReady(question: string, options: seq<string>) {
    question != [] && |FilledOptions(options)| >= MinOptions
  }

  /** The corrected button guard: the poll's own fields in poll mode, the
      message guard otherwise. */
  predicate PostEnabled(isCreatingPoll: bool, content: string, question: string, options: seq<string>,
                        targetBuilding: Option<Building>) {
    if isCreatingPoll then PollReady(question, options) && targetBuilding.Some?
    else CanPost(content, targetBuilding)
  }

  /** With the corrected guard, a posted poll always has a question and between
      two and six options, whatever the hidden message field holds; a whisper
      is guarded exactly as before. */
  lemma PostEnabledPollIsComplete(content: string, question: string, options: seq<string>,
                                  targetBuilding: Option<Building>, id: string, anonymous: bool, now: Date)
    requires |options| <= MaxOptions
    requires PostEnabled(true, content, question, options, targetBuilding)
    ensures var p := CreatedPoll(id, targetBuilding.value, question, options, anonymous, now);
      p.question != [] && MinOptions <= |p.options| <= MaxOptions
    ensures PostEnabled(true, content, question, options, targetBuilding)
         == PostEnabled(true, [], question, options, targetBuilding)
  {
  }

  /** As written, the guard blocks a complete poll when the message field is
      empty ... */
  lemma CanPostBlocksCompletePoll(b: Building)
    ensures PollReady("Lunch spot?", ["Dining hall", "Food trucks"])
    ensures !CanPost([], Some(b))
  {
  }

  /** ... and lets through a poll with no question and no options when it is not. */
  lemma CanPostAdmitsEmptyPoll(b: Building, id: string, anonymous: bool, now: Date)
    ensures CanPost("hi", Some(b))
    ensures var p := CreatedPoll(id, b, [], ["", ""], anonymous, now);
      p.question == [] && p.options == [] && p.votes == []
  {
  }

  // ---------------------------------------------------------------- The composer

  /** The composer's own state; the tag field and the option fields are shown
      by sub-views that edit these through bindings. */
  class CreatePostView {
    const appState: AppState
    var postContent: string
    var selectedMood: Mood
    var tags: seq<string>
    var isFutureWhisper: bool
    var deliveryDate: Date
    var targetBuilding: Option<Building>
    var isCreatingPoll: bool
    var pollQuestion: string
    var pollOptions: seq<string>

    /** The editors' invariant: valid tags and two to six option fields. */
    predicate Valid()
      reads this
    {
      TagsValid(tags) && MinOptions <= |pollOptions| <= MaxOptions
    }

    /** An empty composer: happy mood, no tags, delivery thirty days ahead, no
        building, whisper mode, two empty option fields. */
    constructor (appState: AppState, now: Date)
      ensures Valid()
      ensures this.appState == appState && postContent == [] && selectedMood == Happy && tags == []
      ensures !isFutureWhisper && deliveryDate == now + 30 * Day && targetBuilding == None
      ensures !isCreatingPoll && pollQuestion == [] && pollOptions == ["", ""]
    {
      this.appState := appState;
      postContent := [];
      selectedMood := Happy;
      tags := [];
      isFutureWhisper := false;
      deliveryDate := now + Day * 30;
      targetBuilding := None;
      isCreatingPoll := false;
      pollQuestion := [];
      pollOptions := ["", ""];
    }

    /** The tag chip's remove button: every copy of the tag goes, the others
        stay in order. */
    method RemoveTag(tag: string)
      requires Valid()
      modifies this`tags
      ensures Valid()
      ensures tags == Filter(old(tags), DiffersFrom(tag))
      ensures forall x :: x in tags ==> x in old(tags) && x != tag
      ensures forall x :: x in old(tags) && x != tag ==> x in tags
    {
      FilterNoDuplicates(tags, DiffersFrom(tag));
      tags := Filter(tags, DiffersFrom(tag));
    }

    /** "Add Option": a new empty field, only while there are fewer than six. */
    method AddOption()
      requires Valid()
      modifies this`pollOptions
      ensures Valid()
      ensures |old(pollOptions)| < MaxOptions ==> pollOptions == old(pollOptions) + [""]
      ensures |old(pollOptions)| >= MaxOptions ==> pollOptions == old(pollOptions)
    {
      if |pollOptions| < MaxOptions {
        pollOptions := pollOptions + [""];
      }
    }

    /** The minus button of one option field, shown only while there are more
        than two fields. */
    method RemoveOption(index: nat)
      requires Valid() && index < |pollOptions|
      modifies this`pollOptions
      ensures Valid()
      ensures |old(pollOptions)| > MinOptions ==> pollOptions == old(pollOptions[..index] + pollOptions[index + 1..])
      ensures |old(pollOptions)| <= MinOptions ==> pollOptions == old(pollOptions)
    {
      if |pollOptions| > MinOptions {
        pollOptions := pollOptions[..index] + pollOptions[index + 1..];
      }
    }

    /** `createPost`: without a building nothing happens. Otherwise a poll is
        appended to the polls or a whisper put in front of the whispers, and
        the tab switches to where the post can be seen. */
    method CreatePost(id: string, now: Date)
      modifies appState`polls, appState`whispers, appState`selectedTab
      ensures targetBuilding.None? ==>
        appState.polls == old(appState.polls) && appState.whispers == old(appState.whispers)
        && appState.selectedTab == old(appState.selectedTab)
      ensures targetBuilding.Some? && isCreatingPoll ==>
        appState.polls == old(appState.polls)
          + [CreatedPoll(id, targetBuilding.value, pollQuestion, pollOptions, old(appState.isAnonymousMode), now)]
        && appState.whispers == old(appState.whispers)
      ensures targetBuilding.Some? && !isCreatingPoll ==>
        appState.whispers ==
          [CreatedWhisper(id, targetBuilding.value, postContent, selectedMood, tags, isFutureWhisper, deliveryDate, now)]
          + old(appState.whispers)
        && appState.polls == old(appState.polls)
      ensures targetBuilding.Some? ==> appState.selectedTab == TabAfterPosting(old(appState.isAnonymousMode))
    {
      if targetBuilding.None? {
        return;
      }
      var building := targetBuilding.value;
      if isCreatingPoll {
        var poll := CreatedPoll(id, building, pollQuestion, pollOptions, appState.isAnonymousMode, now);
        appState.polls := appState.polls + [poll];
      } else {
        var whisper := CreatedWhisper(id, building, postContent, selectedMood, tags, isFutureWhisper, deliveryDate, now);
        appState.AddWhisper(whisper);
      }
      if appState.isAnonymousMode {
        appState.selectedTab := Whispers;
      } else {
        appState.selectedTab := Verified;
      }
    }

    /** The "Post" button behind the corrected guard: it posts only when
        `PostEnabled` holds, so a poll always leaves with a question and at
        least two options; what it posts is exactly what `CreatePost` adds. */
    method TapPost(id: string, now: Date)
      requires Valid()
      modifies appState`polls, appState`whispers, appState`selectedTab
      ensures !PostEnabled(isCreatingPoll, postContent, pollQuestion, pollOptions, targetBuilding) ==>
        appState.polls == old(appState.polls) && appState.whispers == old(appState.whispers)
        && appState.selectedTab == old(appState.selectedTab)
      ensures PostEnabled(isCreatingPoll, postContent, pollQuestion, pollOptions, targetBuilding) && isCreatingPoll ==>
        |appState.polls| == |old(appState.polls)| + 1
        && var p := appState.polls[|appState.polls| - 1];
           p.question != [] && MinOptions <= |p.options| <= MaxOptions && TotalVotes(p) == 0
      ensures PostEnabled(isCreatingPoll, postContent, pollQuestion, pollOptions, targetBuilding) && isCreatingPoll ==>
        appState.polls == old(appState.polls)
          + [CreatedPoll(id, targetBuilding.value, pollQuestion, pollOptions, old(appState.isAnonymousMode), now)]
        && appState.whispers == old(appState.whispers)
      ensures PostEnabled(isCreatingPoll, postContent, pollQuestion, pollOptions, targetBuilding) && !isCreatingPoll ==>
        appState.whispers ==
          [CreatedWhisper(id, targetBuilding.value, postContent, selectedMood, tags, isFutureWhisper, deliveryDate, now)]
          + old(appState.whispers)
        && appState.polls == old(appState.polls)
      ensures PostEnabled(isCreatingPoll, postContent, pollQuestion, pollOptions, targetBuilding) ==>
        appState.selectedTab == TabAfterPosting(old(appState.isAnonymousMode))
    {
      if PostEnabled(isCreatingPoll, postContent, pollQuestion, pollOptions, targetBuilding) {
        CreatePost(id, now);
      }
    }
  }

  /** The tag editor of the whisper form: its own entry field, and the
      composer's tags through a binding. */
  class PostCreationView {
    const form: CreatePostView
    var newTag: string

    constructor (form: CreatePostView)
      ensures this.form == form && newTag == []
    {
      this.form := form;
      newTag := [];
    }

    /** `addTag`: the trimmed entry is appended and the field cleared when it
        is non-empty, new and there is room; otherwise nothing changes. */
    method AddTag()
      requires form.Valid()
      modifies this`newTag, form`tags
      ensures form.Valid()
      ensures CanAddTag(old(form.tags), old(newTag)) ==>
        form.tags == old(form.tags) + [Trim(old(newTag))] && newTag == []
      ensures !CanAddTag(old(form.tags), old(newTag)) ==>
        form.tags == old(form.tags) && newTag == old(newTag)
    {
      var trimmedTag := Trim(newTag);
      if trimmedTag != [] && trimmedTag !in form.tags && |form.tags| < MaxTags {
        AddTagKeepsTagsValid(form.tags, newTag);
        form.tags := form.tags + [trimmedTag];
        newTag := [];
      }
    }
  }
}
