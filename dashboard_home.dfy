/** The dashboard's overview page: the time-of-day greeting with the user's
    first name, the four statistic cards, the five most recent documents
    with their status badges and relative upload times, and the shortcuts
    into the tools. */
module DashboardHome {
  import opened Shared
  import opened Text
  import opened SampleData
  import opened Session
  import AuthContext
  import Documents
  import Sidebar

  // ---------------------------------------------------------------------------
  // Greeting
  // ---------------------------------------------------------------------------

  datatype Greeting = GoodMorning | GoodAfternoon | GoodEvening

  /** getGreeting for the local hour (0 to 23). */
  function GreetingFor(hour: int): Greeting
  {
    if hour < 12 then GoodMorning
    else if hour < 17 then GoodAfternoon
    else GoodEvening
  }

  /** Morning runs to noon, afternoon to five, evening after; a later hour
      never gets an earlier greeting. */
  lemma GreetingBands(hour: int, later: int)
    requires hour <= later
    ensures GreetingFor(hour) == GoodMorning <==> hour < 12
    ensures GreetingFor(hour) == GoodAfternoon <==> 12 <= hour < 17
    ensures GreetingFor(hour) == GoodEvening <==> 17 <= hour
    ensures GreetingFor(later) == GoodMorning ==> GreetingFor(hour) == GoodMorning
    ensures GreetingFor(hour) == GoodEvening ==> GreetingFor(later) == GoodEvening
  {
  }

  /** name.split(' ')[0]: the text before the first space. */
  function FirstName(name: string): (r: string)
    ensures |r| <= |name| && r == name[..|r|]
    ensures ' ' !in r
    ensures |r| < |name| ==> name[|r|] == ' '
  {
    var parts := Split(name, ' ');
    assert parts[0] in parts;
    AuthContext.SplitFirst(name, ' ');
    parts[0]
  }

  /** user?.name.split(' ')[0]: nothing without a user. */
  function GreetedName(user: Option<User>): Option<string>
  {
    if user.Some? then Some(FirstName(user.value.name)) else None
  }

  /** After a login whose address has a non-empty, space-free local part,
      the greeting names the capitalised first dot-separated segment. */
  lemma GreetsFirstSegment(email: string, now: string)
    requires AuthContext.LocalPart(email) != "" && ' ' !in AuthContext.LocalPart(email)
    ensures var seg := Split(AuthContext.LocalPart(email), '.')[0];
      var shown := GreetedName(Some(AuthContext.LoginRecord(email, now)));
      shown.Some? && |shown.value| == |seg|
      && (seg != [] ==> shown.value[0] == UpperChar(seg[0]) && shown.value[1..] == seg[1..])
  {
    AuthContext.DerivedNameWords(email);
  }

  // ---------------------------------------------------------------------------
  // Recent documents
  // ---------------------------------------------------------------------------

  /** getStatusBadge, given the status and the risk count. */
  function HomeBadge(status: DocStatus, riskCount: int): Documents.Badge
  {
    if status == Pending then Documents.Queued
    else if riskCount > 0 then Documents.RisksBadge(riskCount)
    else Documents.AnalyzedBadge
  }

  /** The overview and the documents page badge every document alike. */
  lemma SameBadge(d: Document)
    ensures HomeBadge(d.status, d.riskCount) == Documents.StatusBadge(d)
  {
  }

  /** sampleDocuments.slice(0, 5). */
  function RecentDocuments(docs: seq<Document>): (r: seq<Document>)
  {
    if |docs| <= 5 then docs else docs[..5]
  }

  /** At most five documents are listed, the first ones, in order; all five
      fixture documents fit. */
  lemma RecentSpec(docs: seq<Document>)
    ensures |RecentDocuments(docs)| == (if |docs| < 5 then |docs| else 5)
    ensures RecentDocuments(docs) == docs[..|RecentDocuments(docs)|]
    ensures RecentDocuments(SampleDocuments) == SampleDocuments
  {
  }

  const HourMs: int := 1000 * 60 * 60

  datatype Ago = JustNow | HoursAgo(hours: int) | Yesterday | DaysAgo(days: int)

  /** formatDate on the overview, given the milliseconds since the upload. */
  function RelativeTime(elapsedMs: int): Ago
  {
    var hours := elapsedMs / HourMs;
    var days := elapsedMs / Documents.DayMs;
    if hours < 1 then JustNow
    else if hours < 24 then HoursAgo(hours)
    else if days == 1 then Yesterday
    else DaysAgo(days)
  }

  /** The buckets in milliseconds: less than an hour (or a future time) is
      "just now", then whole hours up to a day, then yesterday for the second
      day, and whole days from two days on. */
  lemma RelativeTimeBuckets(ms: int)
    ensures RelativeTime(ms) == JustNow <==> ms < HourMs
    ensures RelativeTime(ms).HoursAgo? <==> HourMs <= ms < 24 * HourMs
    ensures RelativeTime(ms).HoursAgo? ==>
      1 <= RelativeTime(ms).hours < 24 && RelativeTime(ms).hours * HourMs <= ms < (RelativeTime(ms).hours + 1) * HourMs
    ensures RelativeTime(ms) == Yesterday <==> 24 * HourMs <= ms < 48 * HourMs
    ensures RelativeTime(ms).DaysAgo? ==>
      RelativeTime(ms).days >= 2 && RelativeTime(ms).days * Documents.DayMs <= ms < (RelativeTime(ms).days + 1) * Documents.DayMs
  {
    var h := ms / HourMs;
    var d := ms / Documents.DayMs;
    assert h * HourMs <= ms < (h + 1) * HourMs;
    assert d * Documents.DayMs <= ms < (d + 1) * Documents.DayMs;
    assert Documents.DayMs == 24 * HourMs;
    if ms < HourMs {
      assert h < 1;
    }
    if h >= 24 {
      assert d >= 1;
    }
    if 24 * HourMs <= ms < 48 * HourMs {
      assert d == 1;
    }
  }

  /** The overview and the documents page agree on "Yesterday", and the
      overview's "just now" and "hours ago" fall on the documents page's
      "Today" for anything not in the future. */
  lemma AgreesWithDocuments(ms: int, uploadedAt: string)
    ensures RelativeTime(ms) == Yesterday <==> Documents.FormatDate(ms, uploadedAt) == Documents.Yesterday
    ensures 0 <= ms && (RelativeTime(ms) == JustNow || RelativeTime(ms).HoursAgo?) ==>
      Documents.FormatDate(ms, uploadedAt) == Documents.Today
  {
    RelativeTimeBuckets(ms);
    Documents.FormatDateBuckets(ms, uploadedAt);
  }

  // ---------------------------------------------------------------------------
  // Statistic cards
  // ---------------------------------------------------------------------------

  /** A card: caption, value, the change it prints and its arrow. */
  datatype StatCard = StatCard(caption: string, value: int, change: int, up: bool)

  function Abs(x: int): nat
  {
    if x < 0 then -x else x
  }

  /** The four cards; the risks card is given the magnitude of its change
      and points down. */
  function StatCards(s: DashboardStats): seq<StatCard>
  {
    [ StatCard("Documents Analyzed", s.documentsAnalyzed, s.documentsChange, true),
      StatCard("Queries Processed", s.queriesProcessed, s.queriesChange, true),
      StatCard("Entities Extracted", s.entitiesExtracted, s.entitiesChange, true),
      StatCard("Risks Found", s.risksFound, Abs(s.risksChange), false) ]
  }

  /** The percentage a card prints: Math.abs of its change. */
  function ShownPercent(c: StatCard): nat
  {
    Abs(c.change)
  }

  /** Every card prints the size of its change; only the risks card points
      down, and it prints the size of the risks change whatever its sign. */
  lemma StatCardsSpec(s: DashboardStats)
    ensures |StatCards(s)| == 4
    ensures forall i :: 0 <= i < 3 ==> StatCards(s)[i].up
    ensures !StatCards(s)[3].up && ShownPercent(StatCards(s)[3]) == Abs(s.risksChange)
    ensures ShownPercent(StatCards(s)[0]) == Abs(s.documentsChange)
    ensures StatCards(s)[3].value == s.risksFound
  {
  }

  /** With the fixture the cards print 12%, 8%, 23% and 5%, the last with a
      down arrow for the fall of 5. */
  lemma FixtureCards()
    ensures var cs := StatCards(Stats);
      ShownPercent(cs[0]) == 12 && ShownPercent(cs[1]) == 8 && ShownPercent(cs[2]) == 23
      && ShownPercent(cs[3]) == 5 && !cs[3].up && Stats.risksChange < 0
  {
  }

  // ---------------------------------------------------------------------------
  // Shortcuts
  // ---------------------------------------------------------------------------

  /** Where the overview's buttons and rows lead: the upload button, each
      recent document and the analyzer tile go to the analyzer; "view all"
      to the documents page; the other tiles to their tools. */
  const ShortcutTargets: seq<string> := [
    "/dashboard/analyzer", "/dashboard/documents", "/dashboard/reasoning",
    "/dashboard/knowledge-graph", "/dashboard/risk-detection"]

  /** Every shortcut leads to a page the sidebar links to. */
  lemma ShortcutsAreLinks()
    ensures forall t :: t in ShortcutTargets ==> exists i :: 0 <= i < |Sidebar.SubNames| && t == Sidebar.SubPath(Sidebar.SubNames[i])
  {
    assert ShortcutTargets[0] == Sidebar.SubPath(Sidebar.SubNames[0]);
    assert ShortcutTargets[1] == Sidebar.SubPath(Sidebar.SubNames[4]);
    assert ShortcutTargets[2] == Sidebar.SubPath(Sidebar.SubNames[1]);
    assert ShortcutTargets[3] == Sidebar.SubPath(Sidebar.SubNames[2]);
    assert ShortcutTargets[4] == Sidebar.SubPath(Sidebar.SubNames[3]);
  }

  /** On the page a shortcut opens, the sidebar lights that page's own link
      and only that one. */
  lemma ShortcutsLightLinks(t: string)
    requires t in ShortcutTargets
    ensures exists i :: 0 <= i < |Sidebar.SubNames| && t == Sidebar.SubPath(Sidebar.SubNames[i]) && Sidebar.IsActive(t, Sidebar.Links[i + 1])
    ensures forall j :: 0 <= j < |Sidebar.SubNames| && Sidebar.IsActive(t, Sidebar.Links[j + 1]) ==> t == Sidebar.SubPath(Sidebar.SubNames[j])
    ensures !Sidebar.IsActive(t, Sidebar.Links[0])
  {
    ShortcutsAreLinks();
    var i :| 0 <= i < |Sidebar.SubNames| && t == Sidebar.SubPath(Sidebar.SubNames[i]);
    Sidebar.OneActiveLink(i, i);
    forall j | 0 <= j < |Sidebar.SubNames| && Sidebar.IsActive(t, Sidebar.Links[j + 1])
      ensures t == Sidebar.SubPath(Sidebar.SubNames[j])
    {
      Sidebar.OneActiveLink(i, j);
    }
  }
}
