/** The official zone (RoomWhisper/Views/VerifiedZoneView.swift): the filtered
    and ordered list of verified posts, the active polls and their cards, the
    truncated post preview, and the sheet that creates an official post. */
module VerifiedZone {
  import opened Collections
  import opened Models
  import opened Text
  import opened App

  // ---------------------------------------------------------------- Filtering

  /** The zone's three filters as one condition on a post: the chosen
      building, the chosen category, and the search text matched against the
      title or the content, each only when set. */
  predicate PostMatches(p: VerifiedPost, selectedBuilding: Option<Building>,
                        selectedCategory: Option<Category>, searchText: string) {
    && (selectedBuilding.Some? ==> p.buildingId == selectedBuilding.value.id)
    && (selectedCategory.Some? ==> p.category == selectedCategory.value)
    && (searchText != [] ==> ContainsIgnoringCase(p.title, searchText) || ContainsIgnoringCase(p.content, searchText))
  }

  /** The three filters of `filteredPosts`, in the order the view applies them. */
  function MatchingPosts(posts: seq<VerifiedPost>, selectedBuilding: Option<Building>,
                         selectedCategory: Option<Category>, searchText: string): (r: seq<VerifiedPost>)
    ensures forall x :: multiset(r)[x] == if PostMatches(x, selectedBuilding, selectedCategory, searchText)
                                         then multiset(posts)[x] else 0
  {
    var pB := (p: VerifiedPost) => selectedBuilding.Some? ==> p.buildingId == selectedBuilding.value.id;
    var pC := (p: VerifiedPost) => selectedCategory.Some? ==> p.category == selectedCategory.value;
    var pS := (p: VerifiedPost) => ContainsIgnoringCase(p.title, searchText) || ContainsIgnoringCase(p.content, searchText);
    var byBuilding := if selectedBuilding.Some? then Filter(posts, pB) else posts;
    var byCategory := if selectedCategory.Some? then Filter(byBuilding, pC) else byBuilding;
    var bySearch := if searchText != [] then Filter(byCategory, pS) else byCategory;
    assert forall x :: multiset(bySearch)[x] == if PostMatches(x, selectedBuilding, selectedCategory, searchText)
                                               then multiset(posts)[x] else 0 by {
      forall x ensures multiset(bySearch)[x] == if PostMatches(x, selectedBuilding, selectedCategory, searchText)
                                               then multiset(posts)[x] else 0 {
        if selectedBuilding.Some? { FilterCount(posts, pB, x); }
        if selectedCategory.Some? { FilterCount(byBuilding, pC, x); }
        if searchText != [] { FilterCount(byCategory, pS, x); }
      }
    }
    bySearch
  }

  // ---------------------------------------------------------------- Ordering

  /** The comparator handed to `sorted(by:)`: a pinned post goes before an
      unpinned one, and otherwise the newer post goes first. */
  predicate ComesBefore(a: VerifiedPost, b: VerifiedPost) {
    if a.isPinned && !b.isPinned then true
    else if !a.isPinned && b.isPinned then false
    else a.timestamp > b.timestamp
  }

  /** The comparator is a strict weak ordering, which is what `sorted(by:)`
      demands of it: no post comes before itself, two posts are never each
      before the other, both "comes before" and "comes neither before nor
      after" are transitive. */
  lemma ComesBeforeIsStrictWeakOrder(a: VerifiedPost, b: VerifiedPost, c: VerifiedPost)
    ensures !ComesBefore(a, a)
    ensures ComesBefore(a, b) ==> !ComesBefore(b, a)
    ensures ComesBefore(a, b) && ComesBefore(b, c) ==> ComesBefore(a, c)
    ensures !ComesBefore(a, b) && !ComesBefore(b, a) && !ComesBefore(b, c) && !ComesBefore(c, b) ==>
      !ComesBefore(a, c) && !ComesBefore(c, a)
  {
  }

  /** Sorted by that comparator: no post is listed after one it should precede. */
  predicate SortedForDisplay(s: seq<VerifiedPost>) {
    forall i, j :: 0 <= i < j < |s| ==> !ComesBefore(s[j], s[i])
  }

  /** Being sorted means exactly: every pinned post is listed before every
      unpinned one, and within each group timestamps never increase (posts
      with equal timestamps may come in either order). */
  lemma SortedForDisplayMeans(s: seq<VerifiedPost>)
    ensures SortedForDisplay(s) <==>
      && (forall i, j :: 0 <= i < j < |s| && s[j].isPinned ==> s[i].isPinned)
      && (forall i, j :: 0 <= i < j < |s| && s[i].isPinned == s[j].isPinned ==> s[i].timestamp >= s[j].timestamp)
  {
  }

  /** Places one post into a sorted list, ahead of the first post it does not
      have to follow. */
  function InsertPost(p: VerifiedPost, s: seq<VerifiedPost>): (r: seq<VerifiedPost>)
    ensures multiset(r) == multiset(s) + multiset{p}
  {
    if s == [] then [p]
    else if !ComesBefore(s[0], p) then [p] + s
    else
      assert s == [s[0]] + s[1..];
      [s[0]] + InsertPost(p, s[1..])
  }

  /** The tail of a sorted list is sorted. */
  lemma SortedTail(s: seq<VerifiedPost>)
    requires s != [] && SortedForDisplay(s)
    ensures SortedForDisplay(s[1..])
  {
  }

  /** A sorted list stays sorted under a new head that no element must precede. */
  lemma SortedCons(h: VerifiedPost, s: seq<VerifiedPost>)
    requires SortedForDisplay(s)
    requires forall e :: e in s ==> !ComesBefore(e, h)
    ensures SortedForDisplay([h] + s)
  {
  }

  /** No post of a sorted list has to precede its head: the comparator's
      "does not come before" is transitive. */
  lemma NothingBeforeHead(p: VerifiedPost, s: seq<VerifiedPost>)
    requires s != [] && SortedForDisplay(s) && !ComesBefore(s[0], p)
    ensures forall e :: e in s ==> !ComesBefore(e, p)
  {
  }

  lemma {:induction false} InsertPostSorted(p: VerifiedPost, s: seq<VerifiedPost>)
    requires SortedForDisplay(s)
    ensures SortedForDisplay(InsertPost(p, s))
  {
    if s == [] {
    } else if !ComesBefore(s[0], p) {
      NothingBeforeHead(p, s);
      SortedCons(p, s);
    } else {
      var tail := s[1..];
      SortedTail(s);
      InsertPostSorted(p, tail);
      var rest := InsertPost(p, tail);
      forall e | e in rest ensures !ComesBefore(e, s[0]) {
        assert e in multiset(rest);
        if e != p {
          assert e in multiset(tail);
          var k :| 0 <= k < |tail| && tail[k] == e;
          assert tail[k] == s[k + 1];
        }
      }
      SortedCons(s[0], rest);
    }
  }

  /** `sorted(by:)` with the zone's comparator, as an insertion sort: the
      result is a rearrangement of the input in display order. */
  function SortPosts(s: seq<VerifiedPost>): (r: seq<VerifiedPost>)
    ensures multiset(r) == multiset(s)
    ensures SortedForDisplay(r)
  {
    if s == [] then []
    else
      var rest := SortPosts(s[1..]);
      InsertPostSorted(s[0], rest);
      assert s == [s[0]] + s[1..];
      InsertPost(s[0], rest)
  }

  /** `filteredPosts`: the matching posts, pinned first and newest first. */
  function FilteredPosts(posts: seq<VerifiedPost>, selectedBuilding: Option<Building>,
                         selectedCategory: Option<Category>, searchText: string): (r: seq<VerifiedPost>)
    ensures SortedForDisplay(r)
    ensures forall x :: multiset(r)[x] == if PostMatches(x, selectedBuilding, selectedCategory, searchText)
                                         then multiset(posts)[x] else 0
  {
    SortPosts(MatchingPosts(posts, selectedBuilding, selectedCategory, searchText))
  }

  /** A post is listed exactly when it is in the list and passes every active
      filter; pinned posts lead, and each group runs from newest to oldest. */
  lemma FilteredPostsListing(posts: seq<VerifiedPost>, selectedBuilding: Option<Building>,
                             selectedCategory: Option<Category>, searchText: string)
    ensures var r := FilteredPosts(posts, selectedBuilding, selectedCategory, searchText);
      && (forall x :: x in r <==> x in posts && PostMatches(x, selectedBuilding, selectedCategory, searchText))
      && (forall i, j :: 0 <= i < j < |r| && r[j].isPinned ==> r[i].isPinned)
      && (forall i, j :: 0 <= i < j < |r| && r[i].isPinned == r[j].isPinned ==> r[i].timestamp >= r[j].timestamp)
  {
  }

  // ---------------------------------------------------------------- Polls

  /** The polls handed to the "Active Polls" section: those not yet expired. */
  function ActivePolls(polls: seq<Poll>, now: Date): (r: seq<Poll>)
    ensures forall p :: p in r ==> p in polls && !IsExpired(p, now)
    ensures forall p :: p in polls && !IsExpired(p, now) ==> p in r
  {
    Filter(polls, (p: Poll) => !IsExpired(p, now))
  }

  /** The active polls keep the order of the poll list. */
  lemma ActivePollsKeepOrder(a: seq<Poll>, b: seq<Poll>, now: Date)
    ensures ActivePolls(a + b, now) == ActivePolls(a, now) + ActivePolls(b, now)
  {
    FilterAppend(a, b, (p: Poll) => !IsExpired(p, now));
  }

  /** `PollOptionView.percentage`: an option's share of the votes, and 0 when
      there are no votes to share, rather than a division by zero. */
  function Percentage(votes: int, totalVotes: int): (r: real)
    ensures totalVotes <= 0 ==> r == 0.0
    ensures totalVotes > 0 ==> r * (totalVotes as real) == votes as real
    ensures totalVotes > 0 && 0 <= votes <= totalVotes ==> 0.0 <= r <= 1.0
  {
    if totalVotes > 0 then votes as real / totalVotes as real else 0.0
  }

  /** The shares shown for a poll's options, added up. */
  function SumOfShares(votes: seq<int>, totalVotes: int): real {
    if votes == [] then 0.0
    else SumOfShares(votes[..|votes| - 1], totalVotes) + Percentage(votes[|votes| - 1], totalVotes)
  }

  /** With at least one vote cast, the options' shares add up to one whole. */
  lemma {:induction false} SharesAddUp(votes: seq<int>, totalVotes: int)
    requires totalVotes > 0
    ensures SumOfShares(votes, totalVotes) * (totalVotes as real) == Sum(votes) as real
  {
    if votes != [] {
      var init := votes[..|votes| - 1];
      SharesAddUp(init, totalVotes);
      var t := totalVotes as real;
      var last := Percentage(votes[|votes| - 1], totalVotes);
      calc {
        SumOfShares(votes, totalVotes) * t;
        (SumOfShares(init, totalVotes) + last) * t;
        SumOfShares(init, totalVotes) * t + last * t;
        Sum(init) as real + votes[|votes| - 1] as real;
      }
    }
  }

  lemma PollSharesSumToOne(p: Poll)
    requires TotalVotes(p) > 0
    ensures SumOfShares(p.votes, TotalVotes(p)) == 1.0
  {
    var shares := SumOfShares(p.votes, TotalVotes(p));
    var total := TotalVotes(p) as real;
    SharesAddUp(p.votes, TotalVotes(p));
    assert shares * total == Sum(p.votes) as real;
    assert Sum(p.votes) as real == total;
    UnitFactor(shares, total);
  }

  /** A factor that leaves a positive number unchanged is one. */
  lemma UnitFactor(x: real, t: real)
    requires t > 0.0 && x * t == t
    ensures x == 1.0
  {
  }

  /** A poll card: remembers the option tapped on it and forwards the vote. */
  class PollCard {
    const poll: Poll
    const appState: AppState
    var selectedOption: Option<nat>

    constructor (poll: Poll, appState: AppState)
      ensures this.poll == poll && this.appState == appState && selectedOption == None
    {
      this.poll := poll;
      this.appState := appState;
      selectedOption := None;
    }

    /** Tapping an option votes only while the card's poll says nobody has
        voted; the vote goes to the shared state by the poll's id. */
    method TapOption(index: nat)
      requires index < |poll.options|
      requires !poll.hasVoted ==> CanVote(appState.polls, poll.id, index)
      modifies this`selectedOption, appState`polls
      ensures poll.hasVoted ==> selectedOption == old(selectedOption) && appState.polls == old(appState.polls)
      ensures !poll.hasVoted ==> selectedOption == Some(index)
      ensures !poll.hasVoted ==> appState.polls == VoteInPolls(old(appState.polls), poll.id, index)
    {
      if !poll.hasVoted {
        selectedOption := Some(index);
        appState.VoteInPoll(poll.id, index);
      }
    }
  }

  // ---------------------------------------------------------------- Post card

  /** Posts longer than this are cut down in the card until expanded. */
  const PreviewLength: nat := 200

  /** `displayContent`: the whole text when it is short or the card is
      expanded, otherwise its first 200 characters and an ellipsis. */
  function DisplayContent(content: string, showingFullContent: bool): (r: string)
    ensures showingFullContent || |content| <= PreviewLength ==> r == content
    ensures !showingFullContent && |content| > PreviewLength ==>
      |r| == PreviewLength + 3 && r[..PreviewLength] == content[..PreviewLength] && r[PreviewLength..] == "..."
  {
    if showingFullContent || !(|content| > PreviewLength) then content
    else content[..PreviewLength] + "..."
  }

  /** What a collapsed card shows never runs past 203 characters and always
      starts with the same text as the post. */
  lemma DisplayContentPreview(content: string)
    ensures |DisplayContent(content, false)| <= PreviewLength + 3
    ensures var n := if |content| < PreviewLength then |content| else PreviewLength;
      DisplayContent(content, false)[..n] == content[..n]
  {
  }

  // ---------------------------------------------------------------- Screen state

  /** The zone screen's own state: the category chip selection and the search
      text; the building filter and the posts live in the shared state. */
  class VerifiedZoneView {
    const appState: AppState
    var selectedCategory: Option<Category>
    var searchText: string

    constructor (appState: AppState)
      ensures this.appState == appState && selectedCategory == None && searchText == []
    {
      this.appState := appState;
      selectedCategory := None;
      searchText := [];
    }

    /** The "All" chip clears the category filter. */
    method TapAllCategories()
      modifies this`selectedCategory
      ensures selectedCategory == None
    {
      selectedCategory := None;
    }

    /** A category chip selects its category, or clears the filter when its
        category was the one selected. */
    method TapCategory(category: Category)
      modifies this`selectedCategory
      ensures selectedCategory == ToggledSelection(old(selectedCategory), category)
    {
      selectedCategory := if selectedCategory == Some(category) then None else Some(category);
    }
  }

  // ---------------------------------------------------------------- New official post

  /** The "Post" button is enabled with a title, some content and a building. */
  predicate CanPostOfficial(title: string, content: string, targetBuilding: Option<Building>) {
    title != [] && content != [] && targetBuilding.Some?
  }

  /** The post the sheet creates; the author is a fixed placeholder. */
  function OfficialPost(id: string, building: Building, title: string, content: string,
                        isPinned: bool, category: Category, now: Date): (p: VerifiedPost)
    ensures p.id == id && p.buildingId == building.id && p.title == title && p.content == content
    ensures p.authorName == "Staff Member" && p.authorRole == "Administrator" == RoleTitle(Admin)
    ensures p.timestamp == now && p.isPinned == isPinned && p.category == category && p.attachments == []
  {
    NewVerifiedPost(id, building.id, title, content, "Staff Member", "Administrator", now, isPinned, category)
  }

  /** The sheet that writes an official post. */
  class CreateVerifiedPostView {
    const appState: AppState
    var title: string
    var content: string
    var selectedCategory: Category
    var isPinned: bool
    var targetBuilding: Option<Building>

    constructor (appState: AppState)
      ensures this.appState == appState && title == [] && content == []
      ensures selectedCategory == Announcement && !isPinned && targetBuilding == None
    {
      this.appState := appState;
      title := [];
      content := [];
      selectedCategory := Announcement;
      isPinned := false;
      targetBuilding := None;
    }

    /** `createPost`: with a building chosen, the new post goes in front of
        the verified posts; without one nothing happens. */
    method CreatePost(id: string, now: Date)
      modifies appState`verifiedPosts
      ensures targetBuilding.None? ==> appState.verifiedPosts == old(appState.verifiedPosts)
      ensures targetBuilding.Some? ==>
        appState.verifiedPosts ==
          [OfficialPost(id, targetBuilding.value, title, content, isPinned, selectedCategory, now)] + old(appState.verifiedPosts)
    {
      if targetBuilding.None? {
        return;
      }
      var post := OfficialPost(id, targetBuilding.value, title, content, isPinned, selectedCategory, now);
      appState.verifiedPosts := [post] + appState.verifiedPosts;
    }

    /** The "Post" button, enabled only by `CanPostOfficial`: an official post
        always leaves with a title, some content and a building, and it is
        exactly the form's `OfficialPost`, first in the list. */
    method TapPost(id: string, now: Date)
      modifies appState`verifiedPosts
      ensures !CanPostOfficial(title, content, targetBuilding) ==> appState.verifiedPosts == old(appState.verifiedPosts)
      ensures CanPostOfficial(title, content, targetBuilding) ==>
        && |appState.verifiedPosts| == |old(appState.verifiedPosts)| + 1
        && appState.verifiedPosts[1..] == old(appState.verifiedPosts)
        && appState.verifiedPosts[0].title != [] && appState.verifiedPosts[0].content != []
        && appState.verifiedPosts[0].buildingId == targetBuilding.value.id
      ensures CanPostOfficial(title, content, targetBuilding) ==>
        appState.verifiedPosts ==
          [OfficialPost(id, targetBuilding.value, title, content, isPinned, selectedCategory, now)] + old(appState.verifiedPosts)
    {
      if CanPostOfficial(title, content, targetBuilding) {
        CreatePost(id, now);
      }
    }
  }
}
