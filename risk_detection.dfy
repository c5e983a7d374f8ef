/** The risk detection page: a document picker guarding a simulated
    analysis, score bands for the overall and per-category scores, the risk
    list sorted by priority and split into open high, medium and low groups,
    per-category open-issue counts, resolving a risk and expanding one card. */
module RiskDetection {
  import opened Shared
  import opened Text
  import opened Seqs
  import opened SampleData

  // ---------------------------------------------------------------------------
  // Scores
  // ---------------------------------------------------------------------------

  /** The colour family a score is shown in. */
  datatype Tone = Success | Warning | Destructive

  /** How serious a tone is: success 0, warning 1, destructive 2. */
  function Severity(t: Tone): nat
  {
    match t
    case Success => 0
    case Warning => 1
    case Destructive => 2
  }

  /** The score bands shared by getRiskLevelColor, getRiskLevelBg and
      getOverallStatus. */
  function ScoreTone(score: int): Tone
  {
    if score >= 80 then Success
    else if score >= 60 then Warning
    else Destructive
  }

  function ColorClass(score: int): string
  {
    match ScoreTone(score)
    case Success => "text-success"
    case Warning => "text-warning"
    case Destructive => "text-destructive"
  }

  function BgClass(score: int): string
  {
    match ScoreTone(score)
    case Success => "bg-success/10"
    case Warning => "bg-warning/10"
    case Destructive => "bg-destructive/10"
  }

  datatype OverallStatus = OverallStatus(caption: string, tone: Tone)

  function GetOverallStatus(score: int): OverallStatus
  {
    if score >= 80 then OverallStatus("LOW RISK", Success)
    else if score >= 60 then OverallStatus("MODERATE RISK", Warning)
    else OverallStatus("HIGH RISK", Destructive)
  }

  /** The fixed overall score of the results view. */
  const OverallScore: int := 65

  /** The category table's scores. */
  function CategoryScore(c: Category): int
  {
    match c
    case Compliance => 75
    case Financial => 60
    case Title => 85
    case Party => 90
    case Legal => 55
    case Fraud => 95
  }

  /** A higher score is never shown as more serious, the three bands meet at
      80 and 60, and the overall status agrees with the colour of its score:
      "LOW RISK" exactly in the success band, "HIGH RISK" exactly in the
      destructive one. */
  lemma ScoreBands(score: int, higher: int)
    requires score <= higher
    ensures Severity(ScoreTone(higher)) <= Severity(ScoreTone(score))
    ensures ScoreTone(score) == Success <==> score >= 80
    ensures ScoreTone(score) == Destructive <==> score < 60
    ensures GetOverallStatus(score).tone == ScoreTone(score)
    ensures GetOverallStatus(score).caption == "LOW RISK" <==> ScoreTone(score) == Success
    ensures GetOverallStatus(score).caption == "HIGH RISK" <==> ScoreTone(score) == Destructive
    ensures ColorClass(score) == "text-success" <==> BgClass(score) == "bg-success/10"
  {
    assert "LOW RISK"[0] != "MODERATE RISK"[0] && "LOW RISK"[0] != "HIGH RISK"[0];
    assert "HIGH RISK"[0] != "MODERATE RISK"[0];
    assert "text-success"[5] != "text-warning"[5] && "text-success"[5] != "text-destructive"[5];
    assert "bg-success/10"[3] != "bg-warning/10"[3] && "bg-success/10"[3] != "bg-destructive/10"[3];
  }

  /** The fixed scores: the overall 65 reads "MODERATE RISK", and among the
      categories title, party and fraud are in the success band, compliance
      and financial in the warning band and legal in the destructive band. */
  lemma FixtureScores()
    ensures GetOverallStatus(OverallScore).caption == "MODERATE RISK"
    ensures forall c :: ScoreTone(CategoryScore(c)) == Destructive <==> c == Legal
    ensures forall c :: ScoreTone(CategoryScore(c)) == Success <==> c in {Title, Party, Fraud}
  {
  }

  // ---------------------------------------------------------------------------
  // The risk list
  // ---------------------------------------------------------------------------

  /** priorityOrder. */
  function Rank(p: Priority): nat
  {
    match p
    case High => 0
    case Medium => 1
    case Low => 2
  }

  /** The sort comparator: the lower rank comes first. */
  predicate PriorityBefore(a: RiskItem, b: RiskItem)
  {
    Rank(a.priority) < Rank(b.priority)
  }

  /** sortedRisks: a copy sorted by priority. */
  function SortRisks(risks: seq<RiskItem>): seq<RiskItem>
  {
    SortBy(risks, PriorityBefore)
  }

  function HasPriority(p: Priority): RiskItem -> bool
  {
    (r: RiskItem) => r.priority == p
  }

  function IsOpenWith(p: Priority): RiskItem -> bool
  {
    (r: RiskItem) => r.priority == p && !r.resolved
  }

  function IsOpen(): RiskItem -> bool
  {
    (r: RiskItem) => !r.resolved
  }

  function WithPriority(risks: seq<RiskItem>, p: Priority): seq<RiskItem>
  {
    Filter(risks, HasPriority(p))
  }

  /** highRisks, mediumRisks and lowRisks: the open risks of one priority,
      taken from the sorted list. */
  function OpenGroup(risks: seq<RiskItem>, p: Priority): seq<RiskItem>
  {
    Filter(SortRisks(risks), IsOpenWith(p))
  }

  /** The header count: every open risk. */
  function OpenRisks(risks: seq<RiskItem>): seq<RiskItem>
  {
    Filter(risks, IsOpen())
  }

  /** A risk goes after the risks ranked before it and ahead of the rest. */
  lemma InsertBetween(x: RiskItem, a: seq<RiskItem>, b: seq<RiskItem>)
    requires forall y :: y in a ==> Rank(y.priority) < Rank(x.priority)
    requires forall y :: y in b ==> Rank(y.priority) >= Rank(x.priority)
    ensures Insert(x, a + b, PriorityBefore) == a + ([x] + b)
  {
    assert forall i :: 0 <= i < |a| ==> a[i] in a;
    InsertPast(x, a, b, PriorityBefore);
    assert b == [] || b[0] in b;
  }

  /** Adding a risk in front adds it in front of its own group only. */
  lemma WithPriorityCons(x: RiskItem, t: seq<RiskItem>, p: Priority)
    ensures WithPriority([x] + t, p) == if x.priority == p then [x] + WithPriority(t, p) else WithPriority(t, p)
  {
    assert ([x] + t)[1..] == t;
  }

  /** Inserting a risk into a list grouped by priority puts it at the front
      of its own group. */
  lemma InsertGrouped(x: RiskItem, h: seq<RiskItem>, m: seq<RiskItem>, l: seq<RiskItem>)
    requires forall y :: y in h ==> y.priority == High
    requires forall y :: y in m ==> y.priority == Medium
    requires forall y :: y in l ==> y.priority == Low
    ensures x.priority == High ==> Insert(x, h + m + l, PriorityBefore) == [x] + h + m + l
    ensures x.priority == Medium ==> Insert(x, h + m + l, PriorityBefore) == h + ([x] + m) + l
    ensures x.priority == Low ==> Insert(x, h + m + l, PriorityBefore) == h + m + ([x] + l)
  {
    if x.priority == High {
      InsertFirst(x, h + m + l);
    } else if x.priority == Medium {
      InsertMedium(x, h, m, l);
    } else {
      InsertBetween(x, h + m, l);
    }
  }

  lemma InsertFirst(x: RiskItem, s: seq<RiskItem>)
    requires x.priority == High
    ensures Insert(x, s, PriorityBefore) == [x] + s
  {
  }

  lemma InsertMedium(x: RiskItem, h: seq<RiskItem>, m: seq<RiskItem>, l: seq<RiskItem>)
    requires x.priority == Medium
    requires forall y :: y in h ==> y.priority == High
    requires forall y :: y in m + l ==> y.priority != High
    ensures Insert(x, h + m + l, PriorityBefore) == h + ([x] + m) + l
  {
    InsertBetween(x, h, m + l);
    assert h + m + l == h + (m + l);
    assert h + ([x] + (m + l)) == h + ([x] + m) + l;
  }

  lemma InsertIntoGroups(x: RiskItem, t: seq<RiskItem>)
    ensures Insert(x, WithPriority(t, High) + WithPriority(t, Medium) + WithPriority(t, Low), PriorityBefore)
         == WithPriority([x] + t, High) + WithPriority([x] + t, Medium) + WithPriority([x] + t, Low)
  {
    WithPriorityCons(x, t, High);
    WithPriorityCons(x, t, Medium);
    WithPriorityCons(x, t, Low);
    InsertGrouped(x, WithPriority(t, High), WithPriority(t, Medium), WithPriority(t, Low));
    if x.priority == High {
      assert [x] + WithPriority(t, High) + WithPriority(t, Medium) + WithPriority(t, Low)
          == ([x] + WithPriority(t, High)) + WithPriority(t, Medium) + WithPriority(t, Low);
    }
  }

  /** The sort is stable: it yields the high risks, then the medium, then the
      low, each group in its original order. */
  lemma {:induction false} SortRisksGroups(risks: seq<RiskItem>)
    ensures SortRisks(risks) == WithPriority(risks, High) + WithPriority(risks, Medium) + WithPriority(risks, Low)
  {
    if risks != [] {
      SortRisksGroups(risks[1..]);
      InsertIntoGroups(risks[0], risks[1..]);
      assert [risks[0]] + risks[1..] == risks;
    }
  }

  /** Every element of a filtered-out group is dropped. */
  lemma FilterNone(s: seq<RiskItem>, q: RiskItem -> bool)
    requires forall x :: x in s ==> !q(x)
    ensures Filter(s, q) == []
  {
  }

  /** Filtering three runs filters each run. */
  lemma FilterThree(h: seq<RiskItem>, m: seq<RiskItem>, l: seq<RiskItem>, q: RiskItem -> bool)
    ensures Filter(h + m + l, q) == Filter(h, q) + Filter(m, q) + Filter(l, q)
  {
    FilterAppend(h + m, l, q);
    FilterAppend(h, m, q);
  }

  /** No open risk of one priority is found among the risks of another. */
  lemma OtherGroupDropped(risks: seq<RiskItem>, p: Priority, other: Priority)
    requires other != p
    ensures Filter(WithPriority(risks, other), IsOpenWith(p)) == []
  {
    FilterNone(WithPriority(risks, other), IsOpenWith(p));
  }

  /** Among the risks of one priority, the open ones are the open risks of
      that priority in the whole list. */
  lemma OwnGroupOpen(risks: seq<RiskItem>, p: Priority)
    ensures Filter(WithPriority(risks, p), IsOpenWith(p)) == Filter(risks, IsOpenWith(p))
  {
    FilterFilter(risks, HasPriority(p), IsOpenWith(p), IsOpenWith(p));
  }

  /** A displayed group is filtered from the high, the medium and the low
      risks in turn. */
  lemma OpenGroupSplit(risks: seq<RiskItem>, p: Priority)
    ensures OpenGroup(risks, p) == Filter(WithPriority(risks, High), IsOpenWith(p))
      + Filter(WithPriority(risks, Medium), IsOpenWith(p)) + Filter(WithPriority(risks, Low), IsOpenWith(p))
  {
    SortRisksGroups(risks);
    FilterThree(WithPriority(risks, High), WithPriority(risks, Medium), WithPriority(risks, Low), IsOpenWith(p));
  }

  /** The group of one priority keeps only its own run of the sorted list. */
  lemma OpenGroupOwnRun(risks: seq<RiskItem>, p: Priority, o1: Priority, o2: Priority)
    requires p != o1 && p != o2 && o1 != o2
    ensures OpenGroup(risks, p) == Filter(WithPriority(risks, p), IsOpenWith(p))
  {
    OpenGroupSplit(risks, p);
    OtherGroupDropped(risks, p, o1);
    OtherGroupDropped(risks, p, o2);
    var f := Filter(WithPriority(risks, p), IsOpenWith(p));
    if p == High {
      assert f + [] + [] == f;
    } else if p == Medium {
      assert [] + f + [] == f;
    } else {
      assert [] + [] + f == f;
    }
  }

  /** Each displayed group holds the open risks of its priority in their
      original order, whatever order the list had. */
  lemma OpenGroupOrder(risks: seq<RiskItem>, p: Priority)
    ensures OpenGroup(risks, p) == Filter(risks, IsOpenWith(p))
  {
    OwnGroupOpen(risks, p);
    match p
    case High => OpenGroupOwnRun(risks, p, Medium, Low);
    case Medium => OpenGroupOwnRun(risks, p, High, Low);
    case Low => OpenGroupOwnRun(risks, p, High, Medium);
  }

  /** The three groups hold exactly the open risks: each open risk is in
      the group of its priority, and the group sizes add up to the count in
      the list's header. */
  lemma {:induction false} OpenGroupsPartition(risks: seq<RiskItem>)
    ensures |OpenGroup(risks, High)| + |OpenGroup(risks, Medium)| + |OpenGroup(risks, Low)| == |OpenRisks(risks)|
    ensures forall x, p :: x in OpenGroup(risks, p) <==> x in risks && x.priority == p && !x.resolved
  {
    OpenGroupOrder(risks, High);
    OpenGroupOrder(risks, Medium);
    OpenGroupOrder(risks, Low);
    OpenCounts(risks);
    forall x, p ensures x in OpenGroup(risks, p) <==> x in risks && x.priority == p && !x.resolved {
      OpenGroupOrder(risks, p);
    }
  }

  lemma {:induction false} OpenCounts(s: seq<RiskItem>)
    ensures |Filter(s, IsOpenWith(High))| + |Filter(s, IsOpenWith(Medium))| + |Filter(s, IsOpenWith(Low))|
         == |Filter(s, IsOpen())|
  {
    if s != [] {
      OpenCounts(s[1..]);
    }
  }

  /** handleResolve: the risk with the id is marked resolved. */
  function Resolve(risks: seq<RiskItem>, id: string): (r: seq<RiskItem>)
    ensures |r| == |risks|
  {
    seq(|risks|, i requires 0 <= i < |risks| => if risks[i].id == id then risks[i].(resolved := true) else risks[i])
  }

  /** Resolving marks the risks with the id resolved and changes nothing
      else; doing it again changes nothing; an unknown id changes nothing. */
  lemma ResolveEffect(risks: seq<RiskItem>, id: string)
    ensures var r := Resolve(risks, id);
      forall i :: 0 <= i < |risks| ==>
        r[i].resolved == (risks[i].resolved || risks[i].id == id)
        && r[i].(resolved := risks[i].resolved) == risks[i]
    ensures Resolve(Resolve(risks, id), id) == Resolve(risks, id)
    ensures (forall x :: x in risks ==> x.id != id) ==> Resolve(risks, id) == risks
  {
    if forall x :: x in risks ==> x.id != id {
      assert forall i :: 0 <= i < |risks| ==> risks[i] in risks;
    }
  }

  /** A risk still open after resolving was open before and has another id. */
  lemma ResolvedOpenKept(risks: seq<RiskItem>, id: string)
    ensures forall x :: x in Resolve(risks, id) && !x.resolved ==> x.id != id && x in risks
  {
    var r := Resolve(risks, id);
    forall x | x in r && !x.resolved ensures x.id != id && x in risks {
      var i :| 0 <= i < |r| && r[i] == x;
      assert r[i] == risks[i];
    }
  }

  /** After resolving, no group shows the risk, and no group gains one. */
  lemma ResolveLeavesGroups(risks: seq<RiskItem>, id: string, p: Priority)
    ensures forall x :: x in OpenGroup(Resolve(risks, id), p) ==> x.id != id && x in OpenGroup(risks, p)
  {
    var r := Resolve(risks, id);
    OpenGroupOrder(risks, p);
    OpenGroupOrder(r, p);
    ResolvedOpenKept(risks, id);
  }

  // ---------------------------------------------------------------------------
  // Category issue counts
  // ---------------------------------------------------------------------------

  function IsOpenIn(c: Category): RiskItem -> bool
  {
    (r: RiskItem) => r.category == c && !r.resolved
  }

  /** categoryRisks.length: the open risks of one category. */
  function CategoryIssues(risks: seq<RiskItem>, c: Category): nat
  {
    |Filter(risks, IsOpenIn(c))|
  }

  /** "n issue" or "n issues". */
  function IssueText(n: nat): string
  {
    NatToString(n) + " issue" + (if n > 1 then "s" else "")
  }

  /** Every open risk is counted under exactly one category. */
  lemma {:induction false} CategoryCountsPartition(s: seq<RiskItem>)
    ensures CategoryIssues(s, Compliance) + CategoryIssues(s, Financial) + CategoryIssues(s, Title)
          + CategoryIssues(s, Party) + CategoryIssues(s, Legal) + CategoryIssues(s, Fraud)
         == |OpenRisks(s)|
  {
    if s != [] {
      CategoryCountsPartition(s[1..]);
    }
  }

  // ---------------------------------------------------------------------------
  // The page
  // ---------------------------------------------------------------------------

  const NoDocumentSelected: Effect :=
    Toast("No document selected", "Please select a document to analyze.", true)
  const RiskResolved: Effect :=
    Toast("Risk marked as resolved", "The risk item has been marked as resolved.", false)

  /** The documents the picker offers: the analysed ones. */
  function Analyzable(docs: seq<Document>): seq<Document>
  {
    Filter(docs, (d: Document) => d.status == Analyzed)
  }

  datatype Page = Page(
    selectedDocument: string,
    isAnalyzing: bool,
    showResults: bool,
    risks: seq<RiskItem>,
    expanded: Option<string>,
    effects: seq<Effect>)

  const InitialPage: Page := Page("", false, false, SampleRiskItems, None, [])

  /** handleAnalyze up to the simulated wait. */
  function Analyze(pg: Page): Page
  {
    if pg.selectedDocument == "" then pg.(effects := pg.effects + [NoDocumentSelected])
    else pg.(isAnalyzing := true)
  }

  /** handleAnalyze after the wait. */
  function FinishAnalysis(pg: Page): Page
  {
    pg.(isAnalyzing := false, showResults := true)
  }

  function ResolveRisk(pg: Page, id: string): Page
  {
    pg.(risks := Resolve(pg.risks, id), effects := pg.effects + [RiskResolved])
  }

  /** A card's header or close button: open it, or close it when it is the
      open one. */
  function ToggleCard(pg: Page, id: string): Page
  {
    pg.(expanded := if pg.expanded == Some(id) then None else Some(id))
  }

  /** Without a document the analysis does not start: a destructive
      notification is issued and nothing else changes, so the results stay
      as they were. With one it starts silently, changing nothing else, and
      when it ends the results are shown and nothing else has changed. */
  lemma AnalyzeGuard(pg: Page)
    ensures pg.selectedDocument == "" <==> Analyze(pg).effects == pg.effects + [NoDocumentSelected]
    ensures pg.selectedDocument == "" ==>
      Analyze(pg) == pg.(effects := pg.effects + [NoDocumentSelected]) && NoDocumentSelected.destructive
    ensures pg.selectedDocument != "" ==>
      Analyze(pg).isAnalyzing && Analyze(pg).(isAnalyzing := pg.isAnalyzing) == pg
    ensures pg.selectedDocument != "" ==>
      var done := FinishAnalysis(Analyze(pg));
      done.showResults && !done.isAnalyzing && done.(isAnalyzing := pg.isAnalyzing, showResults := pg.showResults) == pg
  {
    if pg.selectedDocument != "" {
      assert |Analyze(pg).effects| == |pg.effects|;
    }
  }

  /** At most one card is open: toggling the open card closes it, toggling
      another switches to it, and toggling twice restores. */
  lemma ToggleCardOne(pg: Page, id: string, other: string)
    ensures ToggleCard(pg, id).expanded == Some(id) <==> pg.expanded != Some(id)
    ensures other != id ==> ToggleCard(ToggleCard(pg, other), id).expanded == Some(id)
    ensures ToggleCard(ToggleCard(pg, id), id) == pg || (pg.expanded.Some? && pg.expanded != Some(id))
  {
  }

  /** The picker never offers a document still queued, such as doc_005. */
  lemma QueuedNotOffered()
    ensures forall d :: d in Analyzable(SampleDocuments) ==> d.status == Analyzed
    ensures SampleDocuments[4] !in Analyzable(SampleDocuments)
  {
  }

  class RiskView {
    var selectedDocument: string
    var isAnalyzing: bool
    var showResults: bool
    var risks: seq<RiskItem>
    var expanded: Option<string>
    var effects: seq<Effect>

    function State(): Page
      reads this
    {
      Page(selectedDocument, isAnalyzing, showResults, risks, expanded, effects)
    }

    constructor()
      ensures State() == InitialPage
    {
      selectedDocument, isAnalyzing, showResults := "", false, false;
      risks, expanded, effects := SampleRiskItems, None, [];
    }

    method SelectDocument(id: string)
      modifies this
      ensures State() == old(State()).(selectedDocument := id)
    {
      selectedDocument := id;
    }

    /** The run button is disabled while the analysis runs. */
    method HandleAnalyze() returns (started: bool)
      requires !isAnalyzing
      modifies this
      ensures started <==> old(selectedDocument) != ""
      ensures State() == Analyze(old(State()))
    {
      if selectedDocument == "" {
        effects := effects + [NoDocumentSelected];
        return false;
      }
      isAnalyzing := true;
      started := true;
    }

    method AnalysisFinished()
      requires isAnalyzing
      modifies this
      ensures State() == FinishAnalysis(old(State()))
    {
      isAnalyzing := false;
      showResults := true;
    }

    method HandleResolve(id: string)
      modifies this
      ensures State() == ResolveRisk(old(State()), id)
    {
      var next: seq<RiskItem> := [];
      var i := 0;
      while i < |risks|
        invariant 0 <= i <= |risks|
        invariant next == Resolve(risks, id)[..i]
      {
        var r := risks[i];
        next := next + [if r.id == id then r.(resolved := true) else r];
        i := i + 1;
      }
      risks := next;
      effects := effects + [RiskResolved];
    }

    method HandleToggle(id: string)
      modifies this
      ensures State() == ToggleCard(old(State()), id)
    {
      if expanded == Some(id) {
        expanded := None;
      } else {
        expanded := Some(id);
      }
    }

    /** "Analyze another": back to the picker, with the risks as they are. */
    method AnalyzeAnother()
      modifies this
      ensures State() == old(State()).(showResults := false)
    {
      showResults := false;
    }
  }
}
