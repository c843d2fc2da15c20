# RoomWhisper data layer in Dafny

RoomWhisper is a SwiftUI campus app. People post anonymous "whispers" tied to a
campus building. Staff post official ("verified") notices. Residents vote in
building polls. Underneath the views sits a small in-memory data layer. This
project models that layer and the list, string and integer rules that the views
apply to it, and proves what those rules promise.

- `collections.dfy` (`Collections`): the Swift library operations the code
  relies on:
  - `filter`, modelled as `Filter`;
  - `firstIndex(where:)`, modelled as `FirstIndex`, with the loop `FindFirst`;
  - `reduce(0, +)`, modelled as `Sum`;
  - the "tap again to clear" chip toggle.
- `text.dfy` (`Text`): `trimmingCharacters(in: .whitespacesAndNewlines)` and
  a case-folded "contains", used for searching.
- `models.dfy` (`Models`, from `Models.swift`): the records, their default
  field values, `totalVotes`, `isExpired`, and the enum-to-string mappings.
- `app_state.dfy` (`App`, from `AppState.swift`): the shared `AppState`
  class. Its list fields are changed in place by `addWhisper`, `toggleLike`
  and `voteInPoll`. Each method is proved equal to a function on the old
  list, and the properties are proved about those functions.
- `whisper_feed.dfy` (`WhisperFeed`, from `WhisperFeedView.swift`): the
  filtered feed, the mood chips and the heart button.
- `verified_zone.dfy` (`VerifiedZone`, from `VerifiedZoneView.swift`): the
  filtered and sorted official posts, the active polls, the vote gate on a
  poll card, the percentage guard, the truncated preview, and the
  official-post sheet.
- `create_post.dfy` (`CreatePost`, from `CreatePostView.swift`): the
  character budget, the post guard, the tag editor, the poll option editor,
  and what `createPost` adds to the shared state.

Modelling choices:
- A `Date` is an integer number of seconds, and "now" is a parameter.
- Identifiers that the app draws from `UUID()` are parameters.
- Strings are sequences of Unicode scalars.

## Model

| member | source | states |
|---|---|---|
| Collections.Filter | RoomWhisper/Views/WhisperFeedView.swift:14-24 | A filtered list is no longer than the input; it holds exactly the input's elements that pass the test |
| Collections.FilterAppend | RoomWhisper/Views/WhisperFeedView.swift:14-24 | Filtering keeps order: filtering a concatenation is the concatenation of the filtered parts |
| Collections.FilterCount | RoomWhisper/Views/VerifiedZoneView.swift:13-28 | Each passing element keeps its multiplicity; each failing element has none |
| Collections.FilterNoDuplicates | RoomWhisper/Views/CreatePostView.swift:436-438 | Filtering a duplicate-free list yields a duplicate-free list |
| Collections.FirstIndex | RoomWhisper/Models/AppState.swift:105 | The index found is the first whose key matches; there is no index exactly when no element matches |
| Collections.FindFirst | RoomWhisper/Models/AppState.swift:105 | The linear search returns exactly that first matching index, or none |
| Collections.FirstIndexFindsMember | RoomWhisper/Views/WhisperFeedView.swift:72-75 | The lookup by an element's own key always finds an index |
| Collections.Sum | RoomWhisper/Models/Models.swift:184 | `reduce(0, +)` as a left fold; no contract of its own. SumAppend, SumIncrement and SumBoundsEntries state its properties |
| Collections.Zeros | RoomWhisper/Views/CreatePostView.swift:99 | `Array(repeating: 0, count: n)`: exactly n entries, every one 0 (SumZeros: they add up to 0) |
| Collections.SumIncrement | RoomWhisper/Models/AppState.swift:113 | Adding one to one entry adds one to the sum |
| Collections.SumBoundsEntries | RoomWhisper/Models/Models.swift:183-185 | With non-negative entries the sum is non-negative and bounds every entry |
| Collections.ToggledSelection | RoomWhisper/Views/WhisperFeedView.swift:149 | A chip tap clears the selection exactly when its value was selected; otherwise it selects that value |
| Collections.ToggledSelectionTwice | RoomWhisper/Views/WhisperFeedView.swift:149 | Two taps on a chip restore the selection exactly when it was empty or that chip's value |
| Text.TrimStart | RoomWhisper/Views/CreatePostView.swift:352 | The result is a suffix that starts with a non-whitespace character; every character dropped is whitespace |
| Text.TrimEnd | RoomWhisper/Views/CreatePostView.swift:352 | The result is a prefix that ends with a non-whitespace character; every character dropped is whitespace |
| Text.Trim | RoomWhisper/Views/CreatePostView.swift:352 | Defined as TrimStart then TrimEnd; no contract of its own. TrimSplits and TrimEnds fix the result uniquely, and TrimIdempotent and TrimEmpty state the rest |
| Text.TrimSplits | RoomWhisper/Views/CreatePostView.swift:352 | The trimmed text sits inside the input with only whitespace before and after it |
| Text.TrimEnds | RoomWhisper/Views/CreatePostView.swift:352 | The trimmed text neither starts nor ends with whitespace |
| Text.TrimIdempotent | RoomWhisper/Views/CreatePostView.swift:352 | Trimming twice equals trimming once |
| Text.TrimEmpty | RoomWhisper/Views/CreatePostView.swift:352-353 | A text trims to empty exactly when it is all whitespace |
| Text.Fold | RoomWhisper/Views/WhisperFeedView.swift:24 | Folding keeps the length and lowers each ASCII capital in place |
| Text.IsInfixAt | RoomWhisper/Views/WhisperFeedView.swift:24 | The recursive search finds a needle exactly when it occurs at some position |
| Text.ContainsIgnoringCase | RoomWhisper/Views/WhisperFeedView.swift:24 | Defined as an occurrence of the folded query in the folded text; no contract of its own. ContainsVerbatim and ContainsIgnoresQueryCase state its properties, and IsInfixAt gives the positional meaning |
| Text.ContainsVerbatim | RoomWhisper/Views/WhisperFeedView.swift:24 | A verbatim occurrence is found by the case-insensitive search |
| Text.ContainsIgnoresQueryCase | RoomWhisper/Views/WhisperFeedView.swift:24 | Queries that differ only in letter case match alike |
| Models.RoleTitle | RoomWhisper/Models/Models.swift:14-20 | Every role has a non-empty raw title |
| Models.RoleTitlesDistinct | RoomWhisper/Models/Models.swift:14-20 | All five roles are listed once, in declaration order, and no two share a raw title, as a String-backed enum requires |
| Models.NewBuilding | RoomWhisper/Models/Models.swift:38-46 | The initialiser's description and image URL default to nil |
| Models.MoodEmoji | RoomWhisper/Models/Models.swift:90-97 | The raw values exactly as the file holds them; no contract of its own. MoodEmojiIsMisread says what they are, and MoodMappingsInjective that they are distinct |
| Models.MoodSymbol | RoomWhisper/Models/Models.swift:90-97 | The emoji each raw value evidently stands for: one scalar outside the Basic Multilingual Plane |
| Models.Utf8FourBytes | RoomWhisper/Models/Models.swift:90-97 | The four UTF-8 bytes of such a scalar: a lead byte 0xF0 to 0xF4, three continuation bytes, and the scalar recovered from their payload bits |
| Models.MoodEmojiIsMisread | RoomWhisper/Models/Models.swift:90-97 | Each raw value is its emoji's UTF-8 bytes read back as Windows-1252 text: three or four characters, never the emoji |
| Models.MoodSymbolsDistinct | RoomWhisper/Models/Models.swift:90-97 | The intended emoji tell the eight moods apart |
| Models.MoodColor | RoomWhisper/Models/Models.swift:99-110 | Mood's `color`; no contract of its own. MoodMappingsInjective: no two moods share a colour |
| Models.MoodName | RoomWhisper/Models/Models.swift:112-123 | Mood's `name`; no contract of its own. MoodMappingsInjective: no two moods share a name |
| Models.MoodMappingsInjective | RoomWhisper/Models/Models.swift:89-123 | All 8 moods are listed once; name, raw value and colour each tell moods apart |
| Models.NewWhisper | RoomWhisper/Models/Models.swift:76-87 | A fresh whisper is not liked, has no tags, is not a future whisper and has no delivery date |
| Models.CategoryTitle | RoomWhisper/Models/Models.swift:141-146 | Category's raw value; no contract of its own. CategoryMappings: no two categories share a title |
| Models.CategoryColor | RoomWhisper/Models/Models.swift:148-157 | Category's `color`; no contract of its own. CategoryMappings: only Safety and Emergency share a colour |
| Models.CategoryIcon | RoomWhisper/Models/Models.swift:159-168 | Category's `icon`; no contract of its own. CategoryMappings: no two categories share an icon |
| Models.CategoryMappings | RoomWhisper/Models/Models.swift:140-168 | All 6 categories are listed; titles and icons are injective; Safety and Emergency share "red", the only colour clash |
| Models.NewVerifiedPost | RoomWhisper/Models/Models.swift:128-138 | A fresh official post has no attachments |
| Models.NewPoll | RoomWhisper/Models/Models.swift:173-181 | A fresh poll has not been voted on |
| Models.TotalVotes | RoomWhisper/Models/Models.swift:183-185 | The sum of the vote counts; no contract of its own. TotalVotesBounds, and VoteInPolls for the +1 per vote, state its properties |
| Models.TotalVotesBounds | RoomWhisper/Models/Models.swift:183-185 | A poll with no votes totals 0; with non-negative counts the total is non-negative and bounds every count |
| Models.IsExpired | RoomWhisper/Models/Models.swift:187-189 | Strictly after expiresAt; still open at the instant itself. Defined by the comparison; ExpiryBoundary states the boundary |
| Models.ExpiryBoundary | RoomWhisper/Models/Models.swift:187-189 | A poll is open at expiresAt and expired from the next second on; once expired it stays expired |
| Models.NewMemoryEntry | RoomWhisper/Models/Models.swift:193-203 | A fresh memory entry is archived |
| Models.NewFutureWhisper | RoomWhisper/Models/Models.swift:206-214 | A fresh future whisper is not delivered |
| App.LikeToggled | RoomWhisper/Models/AppState.swift:106-107 | The like flag flips; the count moves by one towards the new flag; nothing else changes |
| App.ToggleLikeIn | RoomWhisper/Models/AppState.swift:104-109 | Only the first whisper with the id is toggled, every other whisper stays the same, and an unknown id changes nothing |
| App.ToggleLikeTwice | RoomWhisper/Models/AppState.swift:104-109 | Two toggles of the same id restore the list exactly, counts and flags included |
| App.ToggleLikeKeepsLikesConsistent | RoomWhisper/Models/AppState.swift:106-107 | When every count is non-negative and at least 1 while liked, toggling keeps it so |
| App.VoteInPolls | RoomWhisper/Models/AppState.swift:111-115 | The first poll with the id gains exactly one vote for the option, and its total rises by one; every other count, field and poll is unchanged; an unknown id changes nothing |
| App.VoteKeepsPollsWellFormed | RoomWhisper/Models/AppState.swift:113 | Voting keeps vote vectors as long as the options and non-negative |
| App.VotedTimes | RoomWhisper/Models/AppState.swift:111-115 | Voting n times adds n to the option and to the total; `hasVoted` is never set |
| App.AppState.constructor | RoomWhisper/Models/AppState.swift:8-19 | The initial state: campus tab, no building, nobody signed in, anonymous mode, and the given lists |
| App.AppState.AddWhisper | RoomWhisper/Models/AppState.swift:100-102 | The whisper goes first and every older whisper moves back one place |
| App.AppState.ToggleLike | RoomWhisper/Models/AppState.swift:104-109 | The in-place update equals `ToggleLikeIn` on the old list and keeps like counts consistent |
| App.AppState.VoteInPoll | RoomWhisper/Models/AppState.swift:111-115 | The in-place update equals `VoteInPolls` on the old list |
| WhisperFeed.FilteredWhispers | RoomWhisper/Views/WhisperFeedView.swift:9-28 | A whisper is listed exactly when it is in the list and matches the selected building, the mood and the search; with no filter set the whole list is shown |
| WhisperFeed.FilteredWhispersKeepsOrder | RoomWhisper/Views/WhisperFeedView.swift:9-28 | The feed keeps the list's relative order |
| WhisperFeed.FilteredWhispersIgnoreQueryCase | RoomWhisper/Views/WhisperFeedView.swift:23-25 | The feed does not depend on the letter case of the query |
| WhisperFeed.WhisperFeedView.Feed | RoomWhisper/Views/WhisperFeedView.swift:9-28 | The view's `filteredWhispers` on its current state; no contract of its own. FilteredWhispers states what it lists |
| WhisperFeed.WhisperFeedView.constructor | RoomWhisper/Views/WhisperFeedView.swift:5-7 | The feed starts with no mood filter and an empty search |
| WhisperFeed.WhisperFeedView.TapAllMoods | RoomWhisper/Views/WhisperFeedView.swift:135 | "All" clears the mood filter |
| WhisperFeed.WhisperFeedView.TapMood | RoomWhisper/Views/WhisperFeedView.swift:149 | A mood chip toggles the mood filter as `ToggledSelection` says |
| WhisperFeed.WhisperFeedView.TapLike | RoomWhisper/Views/WhisperFeedView.swift:72-75 | The heart toggles the whisper by its id; a whisper shown in the feed is always found |
| VerifiedZone.MatchingPosts | RoomWhisper/Views/VerifiedZoneView.swift:9-28 | Each post that matches the building, the category and the search (title or content) keeps its multiplicity; every other post is dropped |
| VerifiedZone.ComesBefore | RoomWhisper/Views/VerifiedZoneView.swift:31-39 | The comparator: pinned before unpinned, otherwise the newer first; no contract of its own. ComesBeforeIsStrictWeakOrder and SortedForDisplayMeans state its properties |
| VerifiedZone.ComesBeforeIsStrictWeakOrder | RoomWhisper/Views/VerifiedZoneView.swift:31-39 | The comparator is a strict weak ordering, as `sorted(by:)` requires: irreflexive, asymmetric, transitive, with transitive incomparability |
| VerifiedZone.SortedForDisplayMeans | RoomWhisper/Views/VerifiedZoneView.swift:31-39 | Sorted by the comparator means pinned posts come before unpinned ones, and timestamps never rise within a group |
| VerifiedZone.InsertPost | RoomWhisper/Views/VerifiedZoneView.swift:31-39 | Inserting adds exactly the one post |
| VerifiedZone.InsertPostSorted | RoomWhisper/Views/VerifiedZoneView.swift:31-39 | Inserting into a sorted list keeps it sorted |
| VerifiedZone.SortPosts | RoomWhisper/Views/VerifiedZoneView.swift:31-39 | The sort returns a permutation of its input, sorted by the comparator |
| VerifiedZone.FilteredPosts | RoomWhisper/Views/VerifiedZoneView.swift:9-40 | The listing is sorted, and each post's multiplicity equals its count among the matching posts |
| VerifiedZone.FilteredPostsListing | RoomWhisper/Views/VerifiedZoneView.swift:9-40 | A post is listed exactly when it exists and matches; pinned posts come first; each group runs newest first |
| VerifiedZone.ActivePolls | RoomWhisper/Views/VerifiedZoneView.swift:89 | The section shows exactly the polls that have not expired |
| VerifiedZone.ActivePollsKeepOrder | RoomWhisper/Views/VerifiedZoneView.swift:89 | Active polls keep the list's order |
| VerifiedZone.Percentage | RoomWhisper/Views/VerifiedZoneView.swift:269-272 | The share is 0 when there are no votes; otherwise share times total equals the option's votes, and, when 0 <= votes <= total, the share lies between 0 and 1 |
| VerifiedZone.SharesAddUp | RoomWhisper/Views/VerifiedZoneView.swift:269-272 | With votes cast, the summed shares times the total equal the summed votes |
| VerifiedZone.PollSharesSumToOne | RoomWhisper/Views/VerifiedZoneView.swift:269-272 | With votes cast, a poll's shares add up to 1 |
| VerifiedZone.PollCard.constructor | RoomWhisper/Views/VerifiedZoneView.swift:190-193 | A card starts with no option selected |
| VerifiedZone.PollCard.TapOption | RoomWhisper/Views/VerifiedZoneView.swift:232-236 | A tap votes through `voteInPoll` and marks the option only while the poll is not voted; otherwise nothing changes |
| VerifiedZone.DisplayContent | RoomWhisper/Views/VerifiedZoneView.swift:319-329 | Short or expanded content is shown whole; otherwise the first 200 characters followed by "..." |
| VerifiedZone.DisplayContentPreview | RoomWhisper/Views/VerifiedZoneView.swift:319-329 | A collapsed preview is at most 203 characters and starts like the post |
| VerifiedZone.VerifiedZoneView.constructor | RoomWhisper/Views/VerifiedZoneView.swift:5-7 | The zone starts with no category and an empty search |
| VerifiedZone.VerifiedZoneView.TapAllCategories | RoomWhisper/Views/VerifiedZoneView.swift:115 | "All" clears the category filter |
| VerifiedZone.VerifiedZoneView.TapCategory | RoomWhisper/Views/VerifiedZoneView.swift:124 | A category chip toggles the category filter as `ToggledSelection` says |
| VerifiedZone.OfficialPost | RoomWhisper/Views/VerifiedZoneView.swift:540-550 | The new post carries the form's fields, the fixed author "Staff Member" and role "Administrator" (the admin role's raw title), and no attachments |
| VerifiedZone.CreateVerifiedPostView.constructor | RoomWhisper/Views/VerifiedZoneView.swift:441-445 | The sheet starts empty, as an unpinned announcement with no building |
| VerifiedZone.CreateVerifiedPostView.CreatePost | RoomWhisper/Views/VerifiedZoneView.swift:537-554 | With a building, the post goes in front of the official posts; without one nothing changes |
| VerifiedZone.CanPostOfficial | RoomWhisper/Views/VerifiedZoneView.swift:448-450 | A title, some content and a building; no contract of its own. CreateVerifiedPostView.TapPost states what the enabled and disabled button do |
| VerifiedZone.CreateVerifiedPostView.TapPost | RoomWhisper/Views/VerifiedZoneView.swift:448-450 | The enabled button puts exactly the form's OfficialPost (its title, content, building, category and pin flag, "Staff Member", "Administrator", timestamp now) in front of the posts, which then has a title, content and the chosen building; the disabled button changes nothing |
| CreatePost.RemainingCharacters | RoomWhisper/Views/CreatePostView.swift:19-23 | The remaining count plus the message length is 280; it is non-negative exactly within the budget |
| CreatePost.CanPost | RoomWhisper/Views/CreatePostView.swift:25-27 | A non-empty message within the budget and a building; no contract of its own. CanPostMeans states it exactly, and the two finding lemmas show its poll-mode gap |
| CreatePost.CanPostMeans | RoomWhisper/Views/CreatePostView.swift:25-27 | The guard holds exactly for messages of 1 to 280 characters with a building chosen |
| CreatePost.BlankTagRejected | RoomWhisper/Views/CreatePostView.swift:352-353 | A whitespace-only entry is never added |
| CreatePost.AddTagKeepsTagsValid | RoomWhisper/Views/CreatePostView.swift:351-357 | An accepted entry keeps the tags at most 5, distinct, non-empty and trimmed |
| CreatePost.RemoveTagKeepsOrder | RoomWhisper/Views/CreatePostView.swift:436-438 | Removing a tag keeps the others in order |
| CreatePost.FilledOptions | RoomWhisper/Views/CreatePostView.swift:98 | A poll gets exactly the non-empty option fields |
| CreatePost.CreatedPoll | RoomWhisper/Views/CreatePostView.swift:94-102 | A new poll has one zero count per filled option, a total of 0, is not voted, names "Anonymous" or "User", and expires after seven days |
| CreatePost.CreatedWhisper | RoomWhisper/Views/CreatePostView.swift:105-116 | A new whisper has no likes or replies, is not liked, and has a delivery date exactly when it is a future whisper |
| CreatePost.TabAfterPosting | RoomWhisper/Views/CreatePostView.swift:121-125 | After posting, anonymous mode shows the whispers tab and named mode shows the verified tab |
| CreatePost.CanPostBlocksCompletePoll | RoomWhisper/Views/CreatePostView.swift:25-27 | As written, a complete poll cannot be posted while the hidden message field is empty |
| CreatePost.CanPostAdmitsEmptyPoll | RoomWhisper/Views/CreatePostView.swift:25-27 | As written, a poll with no question and no options passes the guard when the message field is filled |
| CreatePost.PostEnabledPollIsComplete | RoomWhisper/Views/CreatePostView.swift:76-79 | Under the corrected guard, a posted poll has a question and two to six options, whatever the message field holds |
| CreatePost.CreatePostView.constructor | RoomWhisper/Views/CreatePostView.swift:7-17 | An empty composer: happy mood, delivery 30 days ahead, whisper mode, two empty option fields |
| CreatePost.CreatePostView.RemoveTag | RoomWhisper/Views/CreatePostView.swift:436-438 | Every copy of the tag goes, the rest stay in order, and the tags stay valid |
| CreatePost.CreatePostView.AddOption | RoomWhisper/Views/CreatePostView.swift:382-385 | An empty field is appended only below six fields, keeping two to six |
| CreatePost.CreatePostView.RemoveOption | RoomWhisper/Views/CreatePostView.swift:396-397 | A field is removed only above two fields, keeping two to six |
| CreatePost.CreatePostView.CreatePost | RoomWhisper/Views/CreatePostView.swift:90-128 | With a building, either the poll is appended to the polls or the whisper goes first, and the tab switches; without one nothing changes |
| CreatePost.CreatePostView.TapPost | RoomWhisper/Views/CreatePostView.swift:76-79 | Behind the corrected guard: in poll mode exactly CreatedPoll is appended after the old polls, with a question, two to six options and no votes, and the whispers are kept; in whisper mode exactly CreatedWhisper goes in front of the old whispers and the polls are kept; either way the tab switches as TabAfterPosting says; a disabled button changes nothing |
| CreatePost.PostCreationView.constructor | RoomWhisper/Views/CreatePostView.swift:282 | The tag entry field starts empty |
| CreatePost.PostCreationView.AddTag | RoomWhisper/Views/CreatePostView.swift:351-357 | An accepted entry is appended trimmed and the field cleared; otherwise the tags and the field are unchanged; tags stay valid |

## Left out

- Layout, styling, animation, sheets and navigation are not modelled: they are presentation only. This covers every `body`, `ContentView`, `RoomWhisperApp`, the colour extension, `ProfileView`, `ReplyView` and the memory-layer sheet.
- `LocationManager` is not part of this model. It is device location I/O with geodesic floating-point distances and asynchronous callbacks.
- `CampusMapView` is not part of this model. It is MapKit rendering.
- The `Building` Codable encoder and decoder are not modelled: they wrap Foundation's coders and `Double` coordinates.
- Coordinates are `real`s rather than `Double`s.
- `Date()` and `UUID()` become parameters (`now`, `id`). The sample data seeded by `loadSampleData` becomes the constructor's arguments.
- `localizedCaseInsensitiveContains` is modelled as an occurrence after folding ASCII capitals to lower case. Locale rules, non-ASCII case folding and diacritic handling are not modelled.
- `String.count` counts grapheme clusters. The model counts Unicode scalars. The two differ for emoji sequences and combining marks, which affects the 280 budget and the 200-character preview.
- Swift `Int` is 64-bit and traps on overflow. The model's integers are unbounded, so an overflowing like or vote count is not modelled.
- Percentage: the model keeps the zero guard and the exact quotient as a `real`. Double rounding, the `Int(percentage * 100)` label and the bar width are not modelled.
- VerifiedZone.SortPosts: `sorted(by:)` is modelled by an insertion sort. Only what any correct sort guarantees is claimed: a permutation that respects the comparator. The order of posts with equal pin state and equal timestamp is deliberately not claimed.
- The polls section is shown whenever the poll list is non-empty, even if none is active. The model covers only the list the section receives.
- CreatePost.PostCreationView.AddTag: the duplicate test compares tags as sequences of scalars. Swift's `String ==` uses Unicode canonical equivalence, so `tags.contains` rejects an entry such as "cafe\u{301}" when "caf\u{E9}" is already a tag, while the model appends it.
- CreatePost.CreatePostView.RemoveTag: removal uses scalar equality, not canonical equivalence, so a tag canonically equivalent to the tapped one but spelled with different scalars is kept, where `removeAll { $0 == tag }` removes it. TagsValid's "all different" means different scalar sequences for the same reason.
- Text fields, toggles and pickers write the composer's variables directly through bindings. These are plain assignments and are not modelled as methods. This includes the unused `newTag` variable of the composer.
- `dismiss()` after posting is a presentation effect and is not modelled.
- App.AppState.VoteInPoll: `voteInPoll` traps on an option index outside the poll's votes. The model does not model the trap; it makes a valid index a precondition (`CanVote`). PollCard.TapOption inherits this precondition. The card forwards its vote through the closure at RoomWhisper/Views/VerifiedZoneView.swift:180-182.

## Findings

| source | as written | input that shows it | evidently intended | confidence | as-written member | corrected member |
|---|---|---|---|---|---|---|
| RoomWhisper/Views/CreatePostView.swift:25-27 | In poll mode, "Post Poll" is enabled by `canPost`, which tests the whisper message field. That field is hidden in poll mode; the guard ignores the question and the options. | The question "Lunch spot?" with two filled options and an empty message: the button is disabled. An empty question with options `["", ""]` and the message "hi": a poll with no question and no options is posted. | In poll mode the guard should require a question and at least two filled options (and a building). | medium, not executed | CreatePost.CanPostBlocksCompletePoll, CreatePost.CanPostAdmitsEmptyPoll | CreatePost.PostEnabledPollIsComplete, CreatePost.CreatePostView.TapPost |
| RoomWhisper/Models/Models.swift:90-97 | The eight mood raw values are not emoji. Each is the UTF-8 encoding of an emoji decoded as Windows-1252 text; for `.grateful` the undefined byte 0x8F is lost, leaving three characters. The chips and cards show these raw values (RoomWhisper/Views/WhisperFeedView.swift:151, :181, :323), while the sample content at RoomWhisper/Models/AppState.swift:52 holds a proper emoji. | `Mood.happy.rawValue` is U+00F0 U+0178 U+02DC U+0160, shown as a four-character chip label. | `.happy` is the single scalar U+1F60A, and likewise for the other moods. | high, not executed | Models.MoodEmojiIsMisread | Models.MoodSymbol, Models.MoodSymbolsDistinct |
