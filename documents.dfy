/** The documents page: search and type filter, a sort by recency or name,
    row selection with a select-all checkbox, the status badge, the type
    label and the relative upload date. */
module Documents {
  import opened Shared
  import opened Text
  import opened Seqs
  import opened SampleData

  // ---------------------------------------------------------------------------
  // Filtering and sorting
  // ---------------------------------------------------------------------------

  /** The lowercased name contains the lowercased search term, and the type
      filter is "all" or the document's type. */
  predicate DocMatches(d: Document, search: string, filterType: string)
  {
    Contains(Lower(d.name), Lower(search)) && (filterType == "all" || TypeName(d.kind) == filterType)
  }

  /** The sort's comparator as an order: for "recent" the later upload comes
      first, for "name" the smaller name, and any other key orders nothing.
      Upload times are ISO strings of one fixed width, so their text order is
      their time order. */
  function Before(sortBy: string): (Document, Document) -> bool
  {
    if sortBy == "recent" then (a: Document, b: Document) => LexLess(b.uploadedAt, a.uploadedAt)
    else if sortBy == "name" then (a: Document, b: Document) => LexLess(a.name, b.name)
    else (a: Document, b: Document) => false
  }

  /** filteredDocs: the matching documents, sorted. */
  function FilteredDocs(docs: seq<Document>, search: string, filterType: string, sortBy: string): seq<Document>
  {
    SortBy(Filter(docs, (d: Document) => DocMatches(d, search, filterType)), Before(sortBy))
  }

  lemma LexLessAsymmetric(a: string, b: string)
    ensures LexLess(a, b) ==> !LexLess(b, a)
  {
    if LexLess(a, b) && LexLess(b, a) {
      LexLessTransitive(a, b, a);
      LexLessIrreflexive(a);
    }
  }

  /** "Not less than" is transitive for a total strict order. */
  lemma LexNotLessTransitive(a: string, b: string, c: string)
    ensures !LexLess(a, b) && !LexLess(b, c) ==> !LexLess(a, c)
  {
    if !LexLess(a, b) && !LexLess(b, c) && LexLess(a, c) {
      LexLessTotal(a, b);
      LexLessTotal(b, c);
      if a != b {
        LexLessTransitive(b, a, c);
        if b != c {
          LexLessTransitive(c, b, c);
          LexLessIrreflexive(c);
        }
      } else {
        LexLessAsymmetric(b, c);
      }
    }
  }

  /** Every sort key gives a strict weak order, so the sort is well defined. */
  lemma BeforeIsOrder(sortBy: string)
    ensures StrictWeakOrder(Before(sortBy))
  {
    var lt := Before(sortBy);
    if sortBy == "recent" {
      forall a: Document, b: Document ensures lt(a, b) ==> !lt(b, a) {
        LexLessAsymmetric(b.uploadedAt, a.uploadedAt);
      }
      forall a: Document, b: Document, c: Document ensures !lt(a, b) && !lt(b, c) ==> !lt(a, c) {
        LexNotLessTransitive(c.uploadedAt, b.uploadedAt, a.uploadedAt);
      }
    } else if sortBy == "name" {
      forall a: Document, b: Document ensures lt(a, b) ==> !lt(b, a) {
        LexLessAsymmetric(a.name, b.name);
      }
      forall a: Document, b: Document, c: Document ensures !lt(a, b) && !lt(b, c) ==> !lt(a, c) {
        LexNotLessTransitive(a.name, b.name, c.name);
      }
    }
  }

  /** The list holds exactly the matching documents, as often as the input
      does; by "recent" the later upload never follows an earlier one, by
      "name" a smaller name never follows a larger one, and any other key
      keeps the input order. */
  lemma FilteredDocsSpec(docs: seq<Document>, search: string, filterType: string, sortBy: string)
    ensures var r := FilteredDocs(docs, search, filterType, sortBy);
      && (forall d :: d in r <==> d in docs && DocMatches(d, search, filterType))
      && multiset(r) == multiset(Filter(docs, (d: Document) => DocMatches(d, search, filterType)))
      && |r| <= |docs|
      && (sortBy == "recent" ==> forall i, j :: 0 <= i < j < |r| ==> !LexLess(r[i].uploadedAt, r[j].uploadedAt))
      && (sortBy == "name" ==> forall i, j :: 0 <= i < j < |r| ==> !LexLess(r[j].name, r[i].name))
      && (sortBy != "recent" && sortBy != "name" ==> r == Filter(docs, (d: Document) => DocMatches(d, search, filterType)))
  {
    var kept := Filter(docs, (d: Document) => DocMatches(d, search, filterType));
    var r := SortBy(kept, Before(sortBy));
    assert multiset(r) == multiset(kept);
    assert |r| == |multiset(r)| == |kept|;
    forall d ensures d in r <==> d in kept {
      assert d in r <==> d in multiset(r);
      assert d in kept <==> d in multiset(kept);
    }
    BeforeIsOrder(sortBy);
    SortBySorted(kept, Before(sortBy));
    if sortBy != "recent" && sortBy != "name" {
      SortByUnordered(kept, Before(sortBy));
    }
  }

  // ---------------------------------------------------------------------------
  // Labels
  // ---------------------------------------------------------------------------

  datatype Badge = Queued | RisksBadge(count: int) | AnalyzedBadge

  /** The status badge: queued while pending, otherwise the risk count when
      there are risks, otherwise analysed. */
  function StatusBadge(d: Document): (b: Badge)
    ensures b == Queued <==> d.status == Pending
    ensures b.RisksBadge? <==> d.status != Pending && d.riskCount > 0
    ensures b.RisksBadge? ==> b.count == d.riskCount
  {
    if d.status == Pending then Queued
    else if d.riskCount > 0 then RisksBadge(d.riskCount)
    else AnalyzedBadge
  }

  function BadgeText(b: Badge): string
  {
    match b
    case Queued => "Queued"
    case RisksBadge(n) => IntToString(n) + " Risks"
    case AnalyzedBadge => "Analyzed"
  }

  /** getTypeLabel: the type with its first character uppercased. */
  function TypeLabel(t: string): string
  {
    Capitalize(t)
  }

  /** The type labels the filter offers for the fixture's types. */
  lemma TypeLabels()
    ensures TypeLabel(TypeName(Sale)) == "Sale"
    ensures TypeLabel(TypeName(Lease)) == "Lease"
    ensures forall t :: |TypeLabel(TypeName(t))| == |TypeName(t)|
  {
    assert "sale"[1..] == "ale";
    assert "lease"[1..] == "ease";
  }

  const DayMs: int := 1000 * 60 * 60 * 24

  datatype DateLabel = Today | Yesterday | DaysAgo(days: int) | CalendarDate(date: string)

  /** Whole days elapsed, rounded down (Math.floor; Dafny's division by a
      positive divisor rounds down as well). */
  function ElapsedDays(elapsedMs: int): int
  {
    elapsedMs / DayMs
  }

  /** formatDate, given the milliseconds between the upload and now. The
      calendar date is produced by the locale formatter, outside the model,
      and carries the upload date through. */
  function FormatDate(elapsedMs: int, uploadedAt: string): DateLabel
  {
    var days := ElapsedDays(elapsedMs);
    if days == 0 then Today
    else if days == 1 then Yesterday
    else if days < 7 then DaysAgo(days)
    else CalendarDate(uploadedAt)
  }

  function DateText(l: DateLabel): string
  {
    match l
    case Today => "Today"
    case Yesterday => "Yesterday"
    case DaysAgo(n) => IntToString(n) + " days ago"
    case CalendarDate(d) => d
  }

  /** The buckets in milliseconds: under a day is today, under two days
      yesterday, under a week "n days ago", and from a week on the calendar
      date. An upload in the future falls in "n days ago" with n negative. */
  lemma FormatDateBuckets(ms: int, uploadedAt: string)
    ensures FormatDate(ms, uploadedAt) == Today <==> 0 <= ms < DayMs
    ensures FormatDate(ms, uploadedAt) == Yesterday <==> DayMs <= ms < 2 * DayMs
    ensures FormatDate(ms, uploadedAt).DaysAgo? <==> ms < 0 || 2 * DayMs <= ms < 7 * DayMs
    ensures FormatDate(ms, uploadedAt).CalendarDate? <==> 7 * DayMs <= ms
    ensures FormatDate(ms, uploadedAt).DaysAgo? ==>
      FormatDate(ms, uploadedAt).days * DayMs <= ms < (FormatDate(ms, uploadedAt).days + 1) * DayMs
  {
    var d := ms / DayMs;
    assert d * DayMs <= ms < (d + 1) * DayMs;
    if ms < 0 {
      assert d < 0;
    }
    if d <= 1 && ms >= 0 {
      assert d >= 0;
    }
    if d >= 7 {
      assert ms >= 7 * DayMs;
    }
    if ms >= 7 * DayMs {
      assert d >= 7;
    }
    if 2 * DayMs <= ms < 7 * DayMs {
      assert 2 <= d < 7;
    }
  }

  // ---------------------------------------------------------------------------
  // Selection
  // ---------------------------------------------------------------------------

  function ListedIds(listed: seq<Document>): set<string>
  {
    set d | d in listed :: d.id
  }

  /** toggleSelect: the id's membership flips. */
  function Toggle(selected: set<string>, id: string): set<string>
  {
    if id in selected then selected - {id} else selected + {id}
  }

  /** selectAll as written: the selection's size is compared with the number
      of listed rows. */
  function SelectAllAsWritten(selected: set<string>, listed: seq<Document>): set<string>
  {
    if |selected| == |listed| then {} else ListedIds(listed)
  }

  /** The header checkbox as written. */
  predicate HeaderCheckedAsWritten(selected: set<string>, listed: seq<Document>)
  {
    |selected| == |listed| && |listed| > 0
  }

  /** Every listed row is selected. */
  predicate AllListedSelected(selected: set<string>, listed: seq<Document>)
  {
    ListedIds(listed) <= selected
  }

  /** selectAll as intended: clear when every listed row is selected,
      otherwise select exactly the listed rows. */
  function SelectAll(selected: set<string>, listed: seq<Document>): set<string>
  {
    if AllListedSelected(selected, listed) then {} else ListedIds(listed)
  }

  /** The header checkbox as intended. */
  predicate HeaderChecked(selected: set<string>, listed: seq<Document>)
  {
    AllListedSelected(selected, listed) && |listed| > 0
  }

  /** A toggle changes only the given id, and toggling twice restores the
      selection. */
  lemma ToggleOnly(selected: set<string>, id: string, other: string)
    ensures id in Toggle(selected, id) <==> id !in selected
    ensures other != id ==> (other in Toggle(selected, id) <==> other in selected)
    ensures Toggle(Toggle(selected, id), id) == selected
  {
  }

  /** The rule as written: equal size clears, anything else selects exactly
      the listed ids; the header is checked exactly for equal, non-zero size. */
  lemma SelectAllAsWrittenRule(selected: set<string>, listed: seq<Document>)
    ensures |selected| == |listed| ==> SelectAllAsWritten(selected, listed) == {}
    ensures |selected| != |listed| ==> forall id :: id in SelectAllAsWritten(selected, listed) <==> exists d :: d in listed && d.id == id
  {
  }

  /** The size test is fooled by a selection left over from another search:
      with doc_001 selected and only doc_002 listed, the header shows checked
      and select-all clears the selection instead of selecting doc_002. */
  lemma SelectAllAsWrittenMisfires()
    ensures var listed := [SampleDocuments[1]];
      && HeaderCheckedAsWritten({"doc_001"}, listed)
      && !AllListedSelected({"doc_001"}, listed)
      && SelectAllAsWritten({"doc_001"}, listed) == {}
      && SelectAll({"doc_001"}, listed) == {"doc_002"}
  {
    var listed := [SampleDocuments[1]];
    assert ListedIds(listed) == {"doc_002"};
    assert "doc_002" != "doc_001" by {
      assert "doc_002"[6] != "doc_001"[6];
    }
  }

  /** With the intended rule, select-all on a non-empty list that is not all
      selected checks the header, and on one that is all selected clears the
      selection. */
  lemma SelectAllChecksHeader(selected: set<string>, listed: seq<Document>)
    requires |listed| > 0
    ensures !HeaderChecked(selected, listed) ==> HeaderChecked(SelectAll(selected, listed), listed)
    ensures HeaderChecked(selected, listed) ==> SelectAll(selected, listed) == {}
    ensures SelectAll(selected, listed) == {} || SelectAll(selected, listed) == ListedIds(listed)
  {
    assert listed[0] in listed;
  }

  /** The two rules agree whenever the selection holds only listed rows and
      the listed ids are distinct, which is how a selection made on one
      search looks. */
  lemma SelectAllAgrees(selected: set<string>, listed: seq<Document>)
    requires selected <= ListedIds(listed)
    requires Distinct(DocumentIds(listed))
    ensures SelectAllAsWritten(selected, listed) == SelectAll(selected, listed)
    ensures HeaderCheckedAsWritten(selected, listed) == HeaderChecked(selected, listed)
  {
    ListedIdsSize(listed);
    if |selected| == |listed| {
      SubsetSameSize(selected, ListedIds(listed));
    } else {
      assert selected != ListedIds(listed);
    }
  }

  lemma SubsetSameSize(a: set<string>, b: set<string>)
    requires a <= b && |a| == |b|
    ensures a == b
  {
    if a != b {
      assert exists x :: x in b && x !in a;
      var x :| x in b && x !in a;
      assert a <= b - {x};
      assert |b - {x}| == |b| - 1;
      SubsetSize(a, b - {x});
    }
  }

  lemma SubsetSize(a: set<string>, b: set<string>)
    requires a <= b
    ensures |a| <= |b|
  {
    assert b == a + (b - a);
  }

  /** Dropping the first row keeps the ids distinct, and the first row's id
      is not among the rest. */
  lemma DistinctSplit(listed: seq<Document>)
    requires listed != [] && Distinct(DocumentIds(listed))
    ensures Distinct(DocumentIds(listed[1..]))
    ensures listed[0].id !in ListedIds(listed[1..])
  {
    var rest := listed[1..];
    forall i, j | 0 <= i < j < |rest| ensures DocumentIds(rest)[i] != DocumentIds(rest)[j] {
      assert DocumentIds(listed)[i + 1] != DocumentIds(listed)[j + 1];
    }
    forall d | d in rest ensures d.id != listed[0].id {
      var k :| 0 <= k < |rest| && rest[k] == d;
      assert DocumentIds(listed)[0] != DocumentIds(listed)[k + 1];
    }
  }

  /** The ids of the rows are the first row's id and those of the rest. */
  lemma ListedIdsCons(listed: seq<Document>)
    requires listed != []
    ensures ListedIds(listed) == ListedIds(listed[1..]) + {listed[0].id}
  {
    assert listed == [listed[0]] + listed[1..];
  }

  /** Distinct ids: one selectable id per row. */
  lemma {:induction false} ListedIdsSize(listed: seq<Document>)
    requires Distinct(DocumentIds(listed))
    ensures |ListedIds(listed)| == |listed|
  {
    if listed != [] {
      DistinctSplit(listed);
      ListedIdsSize(listed[1..]);
      ListedIdsCons(listed);
    }
  }

  // ---------------------------------------------------------------------------
  // The page
  // ---------------------------------------------------------------------------

  /** The list and grid layouts. */
  datatype ViewMode = ListView | GridView

  /** The page's state. */
  datatype DocsState = DocsState(
    searchTerm: string,
    viewMode: ViewMode,
    selected: set<string>,
    sortBy: string,
    filterType: string,
    effects: seq<Effect>)

  const InitialDocsState: DocsState := DocsState("", ListView, {}, "recent", "all", [])

  /** "Upload New", "View Analysis" in either layout, and the empty state's
      button all open the analyzer. */
  const ToAnalyzer: Effect := NavigateTo("/dashboard/analyzer")

  /** The select-all checkbox is the list's header cell; the grid has no
      header, so select-all is offered in the list layout only. */
  predicate SelectAllOffered(v: ViewMode)
  {
    v == ListView
  }

  class DocumentsView {
    const docs: seq<Document>
    var searchTerm: string
    var viewMode: ViewMode
    var selected: set<string>
    var sortBy: string
    var filterType: string
    var effects: seq<Effect>

    function State(): DocsState
      reads this
    {
      DocsState(searchTerm, viewMode, selected, sortBy, filterType, effects)
    }

    /** The page lists the fixture documents. */
    constructor()
      ensures docs == SampleDocuments
      ensures State() == InitialDocsState
    {
      docs := SampleDocuments;
      searchTerm, viewMode, selected, sortBy, filterType, effects := "", ListView, {}, "recent", "all", [];
    }

    function Listed(): seq<Document>
      reads this
    {
      FilteredDocs(docs, searchTerm, filterType, sortBy)
    }

    /** A row's checkbox in the list, or a click on a card in the grid. */
    method ToggleSelect(id: string)
      modifies this
      ensures State() == old(State()).(selected := Toggle(old(selected), id))
    {
      var next := selected;
      if id in next {
        next := next - {id};
      } else {
        next := next + {id};
      }
      selected := next;
    }

    /** The select-all checkbox, with the intended rule. */
    method SelectAllClick()
      requires SelectAllOffered(viewMode)
      modifies this
      ensures State() == old(State()).(selected := SelectAll(old(selected), old(Listed())))
    {
      var listed := Listed();
      if ListedIds(listed) <= selected {
        selected := {};
      } else {
        selected := ListedIds(listed);
      }
    }

    method SetSearch(term: string)
      modifies this
      ensures State() == old(State()).(searchTerm := term)
    {
      searchTerm := term;
    }

    method SetFilterType(t: string)
      modifies this
      ensures State() == old(State()).(filterType := t)
    {
      filterType := t;
    }

    method SetSortBy(key: string)
      modifies this
      ensures State() == old(State()).(sortBy := key)
    {
      sortBy := key;
    }

    /** The list and grid buttons; the selection survives the switch. */
    method SetViewMode(v: ViewMode)
      modifies this
      ensures State() == old(State()).(viewMode := v)
    {
      viewMode := v;
    }

    /** Any of the buttons that open the analyzer. */
    method OpenAnalyzer()
      modifies this
      ensures State() == old(State()).(effects := old(effects) + [ToAnalyzer])
    {
      effects := effects + [ToAnalyzer];
    }
  }
}
