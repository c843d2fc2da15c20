/** The app's entities (RoomWhisper/Models/Models.swift): plain values with
    a few derived properties and enum-to-string mappings.
    A `Date` is a number of seconds on a single clock; "now" is always passed in. */
module Models {
  import opened Collections

  type Date = int

  // ---------------------------------------------------------------- User

  datatype UserRole = Student | ResidentAdvisor | Faculty | Staff | Admin

  /** The cases in declaration order (`UserRole.allCases`). */
  const AllRoles: seq<UserRole> := [Student, ResidentAdvisor, Faculty, Staff, Admin]

  /** The role's raw value, as shown to people. */
  function RoleTitle(role: UserRole): (t: string)
    ensures t != []
  {
    match role
    case Student => "Student"
    case ResidentAdvisor => "Resident Advisor"
    case Faculty => "Faculty"
    case Staff => "Staff"
    case Admin => "Administrator"
  }

  /** Every role is listed once, and no two roles share a raw title, so a
      title read back names exactly one role. */
  lemma RoleTitlesDistinct()
    ensures |AllRoles| == 5 && forall r: UserRole :: r in AllRoles
    ensures forall i, j :: 0 <= i < j < |AllRoles| ==> AllRoles[i] != AllRoles[j]
    ensures forall a: UserRole, b: UserRole :: RoleTitle(a) == RoleTitle(b) ==> a == b
  {
    forall r: UserRole ensures r in AllRoles {
      match r
      case Student => assert AllRoles[0] == r;
      case ResidentAdvisor => assert AllRoles[1] == r;
      case Faculty => assert AllRoles[2] == r;
      case Staff => assert AllRoles[3] == r;
      case Admin => assert AllRoles[4] == r;
    }
  }

  datatype User = User(
    id: string,
    username: string,
    email: string,
    isVerified: bool,
    role: Option<UserRole>,
    joinedDate: Date,
    favoriteBuildings: seq<string>)

  // ---------------------------------------------------------------- Building

  datatype Coordinate = Coordinate(latitude: real, longitude: real)

  datatype Building = Building(
    id: string,
    name: string,
    coordinate: Coordinate,
    activeUsers: int,
    whisperCount: int,
    description: Option<string>,
    imageURL: Option<string>)

  /** The memberwise initialiser, whose optional fields default to nil. */
  function NewBuilding(id: string, name: string, coordinate: Coordinate, activeUsers: int, whisperCount: int): (b: Building)
    ensures b.id == id && b.name == name && b.coordinate == coordinate
    ensures b.activeUsers == activeUsers && b.whisperCount == whisperCount
    ensures b.description == None && b.imageURL == None
  {
    Building(id, name, coordinate, activeUsers, whisperCount, None, None)
  }

  // ---------------------------------------------------------------- Whisper

  datatype Mood = Happy | Excited | Chill | Focused | Tired | Confused | Stressed | Grateful

  /** The cases in declaration order (`Mood.allCases`), the order of the mood chips. */
  const AllMoods: seq<Mood> := [Happy, Excited, Chill, Focused, Tired, Confused, Stressed, Grateful]

  /** The raw value as the file holds it. Each is the UTF-8 encoding of an
      emoji read back as Windows-1252 text (see MoodEmojiIsMisread), so the
      chips and cards show three or four Latin characters, not the emoji. */
  function MoodEmoji(m: Mood): string {
    match m
    case Happy => "\U{F0}\U{178}\U{2DC}\U{160}"
    case Excited => "\U{F0}\U{178}\U{17D}\U{2030}"
    case Chill => "\U{F0}\U{178}\U{2DC}\U{17D}"
    case Focused => "\U{F0}\U{178}\U{201C}\U{161}"
    case Tired => "\U{F0}\U{178}\U{2DC}\U{B4}"
    case Confused => "\U{F0}\U{178}\U{A4}\U{201D}"
    case Stressed => "\U{F0}\U{178}\U{2DC}\U{B0}"
    case Grateful => "\U{F0}\U{178}\U{2122}"
  }

  /** The emoji each mood evidently stands for: one scalar outside the Basic
      Multilingual Plane. */
  function MoodSymbol(m: Mood): (e: string)
    ensures |e| == 1 && 0x10000 <= e[0] as int < 0x110000
  {
    match m
    case Happy => "\U{1F60A}"
    case Excited => "\U{1F389}"
    case Chill => "\U{1F60E}"
    case Focused => "\U{1F4DA}"
    case Tired => "\U{1F634}"
    case Confused => "\U{1F914}"
    case Stressed => "\U{1F630}"
    case Grateful => "\U{1F64F}"
  }

  /** The four UTF-8 bytes of a scalar outside the Basic Multilingual Plane. */
  function Utf8FourBytes(c: int): (b: seq<int>)
    requires 0x10000 <= c < 0x110000
    ensures |b| == 4 && 0xF0 <= b[0] <= 0xF4
    ensures forall k :: 1 <= k < 4 ==> 0x80 <= b[k] < 0xC0
    ensures (b[0] - 0xF0) * 0x40000 + (b[1] - 0x80) * 0x1000 + (b[2] - 0x80) * 0x40 + (b[3] - 0x80) == c
  {
    [0xF0 + c / 0x40000, 0x80 + c / 0x1000 % 0x40, 0x80 + c / 0x40 % 0x40, 0x80 + c % 0x40]
  }

  /** Windows-1252 on the bytes 0x80 to 0x9F, where it departs from Latin-1;
      the five bytes it leaves undefined read as nothing. */
  function Cp1252High(b: int): string {
    match b
    case 0x80 => "\U{20AC}"
    case 0x81 => ""
    case 0x82 => "\U{201A}"
    case 0x83 => "\U{192}"
    case 0x84 => "\U{201E}"
    case 0x85 => "\U{2026}"
    case 0x86 => "\U{2020}"
    case 0x87 => "\U{2021}"
    case 0x88 => "\U{2C6}"
    case 0x89 => "\U{2030}"
    case 0x8A => "\U{160}"
    case 0x8B => "\U{2039}"
    case 0x8C => "\U{152}"
    case 0x8D => ""
    case 0x8E => "\U{17D}"
    case 0x8F => ""
    case 0x90 => ""
    case 0x91 => "\U{2018}"
    case 0x92 => "\U{2019}"
    case 0x93 => "\U{201C}"
    case 0x94 => "\U{201D}"
    case 0x95 => "\U{2022}"
    case 0x96 => "\U{2013}"
    case 0x97 => "\U{2014}"
    case 0x98 => "\U{2DC}"
    case 0x99 => "\U{2122}"
    case 0x9A => "\U{161}"
    case 0x9B => "\U{203A}"
    case 0x9C => "\U{153}"
    case 0x9D => ""
    case 0x9E => "\U{17E}"
    case 0x9F => "\U{178}"
    case _ => ""
  }

  /** One byte read as Windows-1252: Latin-1 outside 0x80 to 0x9F, nothing for
      an undefined byte. */
  function ByteAsCp1252(b: int): (s: string)
    requires 0 <= b < 0x100
    ensures |s| <= 1
  {
    if 0x80 <= b < 0xA0 then Cp1252High(b) else [b as char]
  }

  /** An encoded emoji's four bytes read as Windows-1252 text. */
  function MisreadAsCp1252(b: seq<int>): (s: string)
    requires |b| == 4 && forall k :: 0 <= k < 4 ==> 0 <= b[k] < 0x100
    ensures |s| <= 4
  {
    ByteAsCp1252(b[0]) + ByteAsCp1252(b[1]) + ByteAsCp1252(b[2]) + ByteAsCp1252(b[3])
  }

  /** The UTF-8 bytes of each mood's emoji, as `Utf8FourBytes` computes them
      (MoodBytesEncodeSymbol). */
  function MoodBytes(m: Mood): seq<int> {
    match m
    case Happy => [0xF0, 0x9F, 0x98, 0x8A]
    case Excited => [0xF0, 0x9F, 0x8E, 0x89]
    case Chill => [0xF0, 0x9F, 0x98, 0x8E]
    case Focused => [0xF0, 0x9F, 0x93, 0x9A]
    case Tired => [0xF0, 0x9F, 0x98, 0xB4]
    case Confused => [0xF0, 0x9F, 0xA4, 0x94]
    case Stressed => [0xF0, 0x9F, 0x98, 0xB0]
    case Grateful => [0xF0, 0x9F, 0x99, 0x8F]
  }

  /** Those bytes are the encoding of the mood's intended emoji. */
  lemma MoodBytesEncodeSymbol(m: Mood)
    ensures Utf8FourBytes(MoodSymbol(m)[0] as int) == MoodBytes(m)
  {
  }

  /** Each raw value is exactly its mood's emoji, encoded in UTF-8 and read back
      as Windows-1252: never the emoji itself, and never a single character. */
  lemma MoodEmojiIsMisread(m: Mood)
    ensures MoodEmoji(m) == MisreadAsCp1252(Utf8FourBytes(MoodSymbol(m)[0] as int))
    ensures MoodEmoji(m) != MoodSymbol(m) && 3 <= |MoodEmoji(m)| <= 4
  {
    MoodBytesEncodeSymbol(m);
  }

  /** The intended emoji tell the moods apart. */
  lemma MoodSymbolsDistinct()
    ensures forall a: Mood, b: Mood :: MoodSymbol(a) == MoodSymbol(b) ==> a == b
  {
  }

  function MoodColor(m: Mood): string {
    match m
    case Happy => "yellow"
    case Excited => "orange"
    case Chill => "blue"
    case Focused => "green"
    case Tired => "purple"
    case Confused => "gray"
    case Stressed => "red"
    case Grateful => "pink"
  }

  function MoodName(m: Mood): string {
    match m
    case Happy => "Happy"
    case Excited => "Excited"
    case Chill => "Chill"
    case Focused => "Focused"
    case Tired => "Tired"
    case Confused => "Confused"
    case Stressed => "Stressed"
    case Grateful => "Grateful"
  }

  /** Every mood is listed once, and no two moods share a name, an emoji or a colour. */
  lemma MoodMappingsInjective()
    ensures |AllMoods| == 8 && forall m: Mood :: m in AllMoods
    ensures forall i, j :: 0 <= i < j < |AllMoods| ==> AllMoods[i] != AllMoods[j]
    ensures forall a: Mood, b: Mood :: MoodName(a) == MoodName(b) ==> a == b
    ensures forall a: Mood, b: Mood :: MoodEmoji(a) == MoodEmoji(b) ==> a == b
    ensures forall a: Mood, b: Mood :: MoodColor(a) == MoodColor(b) ==> a == b
  {
    forall m: Mood ensures m in AllMoods {
      match m
      case Happy => assert AllMoods[0] == m;
      case Excited => assert AllMoods[1] == m;
      case Chill => assert AllMoods[2] == m;
      case Focused => assert AllMoods[3] == m;
      case Tired => assert AllMoods[4] == m;
      case Confused => assert AllMoods[5] == m;
      case Stressed => assert AllMoods[6] == m;
      case Grateful => assert AllMoods[7] == m;
    }
  }

  datatype Whisper = Whisper(
    id: string,
    buildingId: string,
    content: string,
    mood: Mood,
    timestamp: Date,
    likes: int,
    replies: int,
    isLiked: bool,
    tags: seq<string>,
    isFutureWhisper: bool,
    deliveryDate: Option<Date>)

  /** The memberwise initialiser with its defaults: not liked, no tags, not a
      future whisper, no delivery date. */
  function NewWhisper(id: string, buildingId: string, content: string, mood: Mood,
                      timestamp: Date, likes: int, replies: int): (w: Whisper)
    ensures w.id == id && w.buildingId == buildingId && w.content == content && w.mood == mood
    ensures w.timestamp == timestamp && w.likes == likes && w.replies == replies
    ensures !w.isLiked && w.tags == [] && !w.isFutureWhisper && w.deliveryDate == None
  {
    Whisper(id, buildingId, content, mood, timestamp, likes, replies, false, [], false, None)
  }

  function WhisperId(w: Whisper): string { w.id }

  // ---------------------------------------------------------------- Verified post

  datatype Category = Announcement | Safety | Maintenance | Event | Academic | Emergency

  const AllCategories: seq<Category> := [Announcement, Safety, Maintenance, Event, Academic, Emergency]

  /** The raw value, used as the chip and badge title. */
  function CategoryTitle(c: Category): string {
    match c
    case Announcement => "Announcement"
    case Safety => "Safety"
    case Maintenance => "Maintenance"
    case Event => "Event"
    case Academic => "Academic"
    case Emergency => "Emergency"
  }

  function CategoryColor(c: Category): string {
    match c
    case Announcement => "blue"
    case Safety => "red"
    case Maintenance => "orange"
    case Event => "purple"
    case Academic => "green"
    case Emergency => "red"
  }

  /** The SF Symbol shown for each category. */
  function CategoryIcon(c: Category): string {
    match c
    case Announcement => "megaphone.fill"
    case Safety => "shield.fill"
    case Maintenance => "wrench.fill"
    case Event => "calendar.badge.plus"
    case Academic => "book.fill"
    case Emergency => "exclamationmark.triangle.fill"
  }

  /** Titles and icons tell the six categories apart; colours do not: safety
      and emergency are both red, and that is the only clash. */
  lemma CategoryMappings()
    ensures |AllCategories| == 6 && forall c: Category :: c in AllCategories
    ensures forall a: Category, b: Category :: CategoryTitle(a) == CategoryTitle(b) ==> a == b
    ensures forall a: Category, b: Category :: CategoryIcon(a) == CategoryIcon(b) ==> a == b
    ensures CategoryColor(Safety) == CategoryColor(Emergency) == "red"
    ensures forall a: Category, b: Category :: a != b && CategoryColor(a) == CategoryColor(b)
              ==> {a, b} == {Safety, Emergency}
  {
    forall c: Category ensures c in AllCategories {
      match c
      case Announcement => assert AllCategories[0] == c;
      case Safety => assert AllCategories[1] == c;
      case Maintenance => assert AllCategories[2] == c;
      case Event => assert AllCategories[3] == c;
      case Academic => assert AllCategories[4] == c;
      case Emergency => assert AllCategories[5] == c;
    }
  }

  datatype VerifiedPost = VerifiedPost(
    id: string,
    buildingId: string,
    title: string,
    content: string,
    authorName: string,
    authorRole: string,
    timestamp: Date,
    isPinned: bool,
    category: Category,
    attachments: seq<string>)

  /** The memberwise initialiser: no attachments by default. */
  function NewVerifiedPost(id: string, buildingId: string, title: string, content: string,
                           authorName: string, authorRole: string, timestamp: Date,
                           isPinned: bool, category: Category): (p: VerifiedPost)
    ensures p.id == id && p.buildingId == buildingId && p.title == title && p.content == content
    ensures p.authorName == authorName && p.authorRole == authorRole && p.timestamp == timestamp
    ensures p.isPinned == isPinned && p.category == category && p.attachments == []
  {
    VerifiedPost(id, buildingId, title, content, authorName, authorRole, timestamp, isPinned, category, [])
  }

  // ---------------------------------------------------------------- Poll

  datatype Poll = Poll(
    id: string,
    buildingId: string,
    question: string,
    options: seq<string>,
    votes: seq<int>,
    createdBy: string,
    expiresAt: Date,
    hasVoted: bool)

  /** The memberwise initialiser: nobody has voted yet. */
  function NewPoll(id: string, buildingId: string, question: string, options: seq<string>,
                   votes: seq<int>, createdBy: string, expiresAt: Date): (p: Poll)
    ensures p.id == id && p.buildingId == buildingId && p.question == question
    ensures p.options == options && p.votes == votes && p.createdBy == createdBy
    ensures p.expiresAt == expiresAt && !p.hasVoted
  {
    Poll(id, buildingId, question, options, votes, createdBy, expiresAt, false)
  }

  function PollId(p: Poll): string { p.id }

  /** `totalVotes`: the votes of all options added up (`votes.reduce(0, +)`). */
  function TotalVotes(p: Poll): int {
    Sum(p.votes)
  }

  /** A poll without options has no votes; with non-negative counts the total
      is non-negative and no option has more votes than the total. */
  lemma TotalVotesBounds(p: Poll)
    ensures p.votes == [] ==> TotalVotes(p) == 0
    ensures (forall j :: 0 <= j < |p.votes| ==> p.votes[j] >= 0) ==>
              TotalVotes(p) >= 0 && forall j :: 0 <= j < |p.votes| ==> p.votes[j] <= TotalVotes(p)
  {
    if forall j :: 0 <= j < |p.votes| ==> p.votes[j] >= 0 {
      SumBoundsEntries(p.votes);
    }
  }

  /** `isExpired`: strictly past the expiry instant; at the instant itself the
      poll is still open. */
  predicate IsExpired(p: Poll, now: Date) {
    now > p.expiresAt
  }

  /** A poll is still open at its expiry instant and closed from the next
      moment on; once closed it never reopens. */
  lemma ExpiryBoundary(p: Poll, now: Date, later: Date)
    ensures !IsExpired(p, p.expiresAt) && IsExpired(p, p.expiresAt + 1)
    ensures IsExpired(p, now) <==> now >= p.expiresAt + 1
    ensures IsExpired(p, now) && now <= later ==> IsExpired(p, later)
  {
  }

  // ---------------------------------------------------------------- Archive

  datatype MemoryEntry = MemoryEntry(
    id: string,
    buildingId: string,
    content: string,
    timestamp: Date,
    likes: int,
    mood: Mood,
    isArchived: bool,
    semester: string,
    academicYear: string)

  /** The memberwise initialiser: an entry is archived by default. */
  function NewMemoryEntry(id: string, buildingId: string, content: string, timestamp: Date,
                          likes: int, mood: Mood, semester: string, academicYear: string): (e: MemoryEntry)
    ensures e.id == id && e.buildingId == buildingId && e.content == content
    ensures e.timestamp == timestamp && e.likes == likes && e.mood == mood
    ensures e.semester == semester && e.academicYear == academicYear && e.isArchived
  {
    MemoryEntry(id, buildingId, content, timestamp, likes, mood, true, semester, academicYear)
  }

  datatype FutureWhisper = FutureWhisper(
    id: string,
    buildingId: string,
    content: string,
    createdAt: Date,
    deliveryDate: Date,
    targetAudience: string,
    isDelivered: bool)

  /** The memberwise initialiser: not yet delivered. */
  function NewFutureWhisper(id: string, buildingId: string, content: string, createdAt: Date,
                            deliveryDate: Date, targetAudience: string): (f: FutureWhisper)
    ensures f.id == id && f.buildingId == buildingId && f.content == content
    ensures f.createdAt == createdAt && f.deliveryDate == deliveryDate
    ensures f.targetAudience == targetAudience && !f.isDelivered
  {
    FutureWhisper(id, buildingId, content, createdAt, deliveryDate, targetAudience, false)
  }
}
