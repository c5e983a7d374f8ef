/** The demo's fixture data (documents, chat history, knowledge-graph nodes and
    edges, risk items, the extracted deed, suggested questions and dashboard
    statistics) and the integrity facts the views rely on. */
module SampleData {
  import opened Shared

  // ---------------------------------------------------------------------------
  // Record types
  // ---------------------------------------------------------------------------

  datatype DocType = Sale | Gift | Mortgage | Partition | Lease
  datatype DocStatus = Analyzed | Pending | Failed
  datatype Level = LowLevel | MediumLevel | HighLevel

  datatype Document = Document(
    id: string,
    name: string,
    kind: DocType,
    uploadedAt: string,
    status: DocStatus,
    riskLevel: Level,
    riskCount: int,
    pages: nat,
    size: string)

  /** The string a document's type has in the data ('sale', 'gift', ...). */
  function TypeName(t: DocType): string
  {
    match t
    case Sale => "sale"
    case Gift => "gift"
    case Mortgage => "mortgage"
    case Partition => "partition"
    case Lease => "lease"
  }

  datatype Role = UserRole | AssistantRole

  datatype ChatMessage = ChatMessage(
    id: string,
    role: Role,
    content: string,
    timestamp: string,
    citations: Option<seq<string>>)

  datatype NodeType = Person | Property | DocumentNode | Organization | Location

  datatype GraphNode = GraphNode(id: string, caption: string, kind: NodeType, data: map<string, string>)

  datatype EdgeType = Owns | TransferredTo | LocatedIn | References | MortgagedTo

  datatype GraphEdge = GraphEdge(id: string, fromId: string, toId: string, kind: EdgeType, caption: string)

  datatype Priority = High | Medium | Low
  datatype Category = Compliance | Financial | Title | Party | Legal | Fraud

  datatype RiskItem = RiskItem(
    id: string,
    title: string,
    description: string,
    recommendation: string,
    priority: Priority,
    category: Category,
    resolved: bool)

  datatype DocumentInfo = DocumentInfo(
    kind: string,
    date: string,
    registry: string,
    code: string,
    pages: nat,
    confidence: int)

  datatype Signatory = Signatory(name: string, nic: string, address: string)

  datatype DeedData = DeedData(
    info: DocumentInfo,
    vendor: Signatory,
    vendee: Signatory,
    planNumber: string,
    lotNumbers: string,
    extent: string,
    assessmentNo: string,
    boundaries: map<string, string>,
    administrative: map<string, string>,
    consideration: string,
    priorDeeds: seq<string>,
    summary: string)

  datatype DashboardStats = DashboardStats(
    documentsAnalyzed: int, documentsChange: int,
    queriesProcessed: int, queriesChange: int,
    entitiesExtracted: int, entitiesChange: int,
    risksFound: int, risksChange: int)

  // ---------------------------------------------------------------------------
  // Fixtures
  // ---------------------------------------------------------------------------

  const SampleDocuments: seq<Document> := [
    Document("doc_001", "Sale_Deed_Colombo_2024.pdf", Sale, "2024-03-15T10:30:00", Analyzed, LowLevel, 0, 8, "2.3 MB"),
    Document("doc_002", "Gift_Deed_Gampaha.pdf", Gift, "2024-03-14T14:20:00", Analyzed, LowLevel, 0, 5, "1.8 MB"),
    Document("doc_003", "Mortgage_Bond_Kandy.pdf", Mortgage, "2024-03-13T09:15:00", Analyzed, MediumLevel, 2, 12, "3.1 MB"),
    Document("doc_004", "Partition_Deed_Matara.pdf", Partition, "2024-03-12T16:45:00", Analyzed, LowLevel, 0, 15, "4.2 MB"),
    Document("doc_005", "Lease_Agreement_Jaffna.pdf", Lease, "2024-03-11T11:00:00", Pending, LowLevel, 0, 6, "1.5 MB")
  ]

  const SampleChatMessages: seq<ChatMessage> := [
    ChatMessage(
      "msg_001",
      AssistantRole,
      "Hello! I'm your Sri Lankan Property Law Assistant. I can help you with questions about:\n\n"
      + "• Property transfers & sale deeds\n• Prescription & adverse possession\n"
      + "• Title registration (Bim Saviya)\n• Partition of co-owned land\n• Mortgages & leases\n\n"
      + "How can I assist you today?",
      "2024-03-15T10:00:00",
      None)
  ]

  const SampleGraphNodes: seq<GraphNode> := [
    GraphNode("1", "Kamal Silva", Person, map["nic" := "812345678V", "address" := "45, Galle Road, Colombo 03"]),
    GraphNode("2", "Nimal Perera", Person, map["nic" := "901234567V", "address" := "78, Main Street, Nugegoda"]),
    GraphNode("3", "Lot 1 & 2A, Plan 1234", Property, map["extent" := "0A-2R-15.5P", "assessment" := "123/A"]),
    GraphNode("4", "Deed A 1234/2024", DocumentNode, map["type" := "Sale Transfer", "date" := "2024-03-15"]),
    GraphNode("5", "Colombo", Location, map["district" := "Colombo", "province" := "Western"]),
    GraphNode("6", "Deed B 5678/2015", DocumentNode, map["type" := "Sale Transfer", "date" := "2015-06-20"]),
    GraphNode("7", "Sunil Fernando", Person, map["nic" := "751234567V", "address" := "12, Temple Road, Gampaha"]),
    GraphNode("8", "Bank of Ceylon", Organization, map["branch" := "Colombo Main", "type" := "Bank"])
  ]

  const SampleGraphEdges: seq<GraphEdge> := [
    GraphEdge("e1", "1", "3", Owns, "owned (until 2024)"),
    GraphEdge("e2", "1", "2", TransferredTo, "sold to"),
    GraphEdge("e3", "2", "3", Owns, "owns (current)"),
    GraphEdge("e4", "4", "3", References, "documents"),
    GraphEdge("e5", "3", "5", LocatedIn, "located in"),
    GraphEdge("e6", "6", "4", References, "prior deed"),
    GraphEdge("e7", "7", "1", TransferredTo, "sold to (2015)"),
    GraphEdge("e8", "3", "8", MortgagedTo, "mortgaged (2018-2023)")
  ]

  const SampleRiskItems: seq<RiskItem> := [
    RiskItem(
      "risk_001", "Registration Deadline Risk",
      "The deed was executed on March 15, 2024 but registration date is not confirmed. Under the Registration of Documents Ordinance, deeds must be registered within 3 months.",
      "Verify registration status immediately and ensure registration is completed before the deadline.",
      High, Compliance, false),
    RiskItem(
      "risk_002", "Missing Witness Information",
      "Only one witness signature clearly identified. The Prevention of Frauds Ordinance requires two witnesses for valid execution.",
      "Verify second witness details in the original document and ensure proper attestation.",
      High, Legal, false),
    RiskItem(
      "risk_003", "Consideration Amount Verification",
      "The stated consideration (LKR 5,500,000) appears below market value for properties in Colombo 03 area based on current valuations.",
      "Verify if stamp duty was calculated correctly and consider obtaining an independent valuation.",
      Medium, Financial, false),
    RiskItem(
      "risk_004", "Prior Deed Chain Note",
      "Prior deeds B 5678/2015 and C 9012/2010 are referenced. Full chain verification recommended for complete title search.",
      "Conduct a comprehensive title search to verify the complete chain of ownership.",
      Low, Title, false),
    RiskItem(
      "risk_005", "Boundary Description Clarity",
      "Western boundary described as \"Canal reservation\" requires confirmation of exact demarcation and any government restrictions.",
      "Verify boundary with Survey Department records and check for any canal reservation regulations.",
      Medium, Legal, false),
    RiskItem(
      "risk_006", "No Encumbrance Certificate",
      "No encumbrance certificate referenced in the document. This is standard practice for property transfers.",
      "Obtain and verify a recent No Encumbrance Certificate from the Land Registry.",
      Medium, Compliance, false)
  ]

  const ExtractedDeedData: DeedData := DeedData(
    DocumentInfo("Sale Transfer Deed", "March 15, 2024", "Colombo", "A 1234/2024", 8, 94),
    Signatory("Kamal Bandara Silva", "812345678V", "45, Galle Road, Colombo 03"),
    Signatory("Nimal Jayawardena Perera", "901234567V", "78, Main Street, Nugegoda"),
    "1234/2020",
    "1, 2A",
    "0A-2R-15.5P",
    "123/A",
    map["north" := "Galle Road", "east" := "Lot 3 of Plan 1234/2020",
        "south" := "Land belonging to Siriwardena", "west" := "Canal reservation"],
    map["district" := "Colombo", "province" := "Western",
        "dsDivision" := "Thimbirigasyaya", "registry" := "Colombo Land Registry"],
    "LKR 5,500,000",
    ["B 5678/2015", "C 9012/2010"],
    "This is a Sale Transfer Deed executed on March 15, 2024, transferring property located in Colombo District "
    + "from Kamal Bandara Silva to Nimal Jayawardena Perera for a consideration of LKR 5,500,000.\n\n"
    + "The property comprises Lots 1 and 2A of Plan No. 1234/2020, with an extent of 0A-2R-15.5P, "
    + "bounded by Galle Road to the North and Canal reservation to the West.\n\n"
    + "Key Legal Points:\n• Transfer complies with Prevention of Frauds Ordinance\n"
    + "• Prior deed chain verified (B 5678/2015, C 9012/2010)\n• No encumbrances noted")

  const SuggestedQuestions: seq<string> := [
    "How many years for prescriptive title?",
    "Can foreigners own land in Sri Lanka?",
    "What is Bim Saviya?",
    "Can co-owners compel partition?",
    "What are stamp duty rates?",
    "How to register a deed?"
  ]

  const Stats: DashboardStats := DashboardStats(24, 12, 18, 8, 156, 23, 3, -5)

  // ---------------------------------------------------------------------------
  // Integrity of the fixtures
  // ---------------------------------------------------------------------------

  predicate Distinct(ids: seq<string>)
  {
    forall i, j :: 0 <= i < j < |ids| ==> ids[i] != ids[j]
  }

  function NodeIds(nodes: seq<GraphNode>): (ids: seq<string>)
    ensures |ids| == |nodes| && forall i :: 0 <= i < |nodes| ==> ids[i] == nodes[i].id
  {
    seq(|nodes|, i requires 0 <= i < |nodes| => nodes[i].id)
  }

  function EdgeIds(edges: seq<GraphEdge>): (ids: seq<string>)
    ensures |ids| == |edges| && forall i :: 0 <= i < |edges| ==> ids[i] == edges[i].id
  {
    seq(|edges|, i requires 0 <= i < |edges| => edges[i].id)
  }

  function DocumentIds(docs: seq<Document>): (ids: seq<string>)
    ensures |ids| == |docs| && forall i :: 0 <= i < |docs| ==> ids[i] == docs[i].id
  {
    seq(|docs|, i requires 0 <= i < |docs| => docs[i].id)
  }

  function RiskIds(risks: seq<RiskItem>): (ids: seq<string>)
    ensures |ids| == |risks| && forall i :: 0 <= i < |risks| ==> ids[i] == risks[i].id
  {
    seq(|risks|, i requires 0 <= i < |risks| => risks[i].id)
  }

  /** Every edge's endpoints name nodes of the node list. */
  predicate EdgesClosed(nodes: seq<GraphNode>, edges: seq<GraphEdge>)
  {
    forall e :: e in edges ==> e.fromId in NodeIds(nodes) && e.toId in NodeIds(nodes)
  }

  /** The node ids are "1" to "8", in order. */
  lemma FixtureNodeIds()
    ensures NodeIds(SampleGraphNodes) == ["1", "2", "3", "4", "5", "6", "7", "8"]
  {
  }

  /** The fixture edges join nodes "1" to "8". */
  lemma FixtureEdgeEnds()
    ensures forall e :: e in SampleGraphEdges ==>
      e.fromId in ["1", "2", "3", "4", "5", "6", "7", "8"] && e.toId in ["1", "2", "3", "4", "5", "6", "7", "8"]
  {
  }

  /** Edges whose ends are among the node ids are closed over the nodes. */
  lemma EdgesClosedByIds(nodes: seq<GraphNode>, edges: seq<GraphEdge>, ids: seq<string>)
    requires NodeIds(nodes) == ids
    requires forall e :: e in edges ==> e.fromId in ids && e.toId in ids
    ensures EdgesClosed(nodes, edges)
  {
  }

  lemma FixtureEdgesClosed()
    ensures EdgesClosed(SampleGraphNodes, SampleGraphEdges)
  {
    FixtureNodeIds();
    FixtureEdgeEnds();
    EdgesClosedByIds(SampleGraphNodes, SampleGraphEdges, ["1", "2", "3", "4", "5", "6", "7", "8"]);
  }

  /** The edge ids are "e1" to "e8", in order. */
  lemma FixtureEdgeIds()
    ensures EdgeIds(SampleGraphEdges) == ["e1", "e2", "e3", "e4", "e5", "e6", "e7", "e8"]
  {
  }

  /** The document ids are "doc_001" to "doc_005", in order. */
  lemma FixtureDocumentIds()
    ensures DocumentIds(SampleDocuments) == ["doc_001", "doc_002", "doc_003", "doc_004", "doc_005"]
  {
  }

  /** The risk ids are "risk_001" to "risk_006", in order. */
  lemma FixtureRiskIds()
    ensures RiskIds(SampleRiskItems) == ["risk_001", "risk_002", "risk_003", "risk_004", "risk_005", "risk_006"]
  {
  }

  /** The id lists of the fixtures hold no repeats. */
  lemma FixtureIdListsDistinct()
    ensures Distinct(["1", "2", "3", "4", "5", "6", "7", "8"])
    ensures Distinct(["e1", "e2", "e3", "e4", "e5", "e6", "e7", "e8"])
    ensures Distinct(["doc_001", "doc_002", "doc_003", "doc_004", "doc_005"])
    ensures Distinct(["risk_001", "risk_002", "risk_003", "risk_004", "risk_005", "risk_006"])
  {
  }

  lemma FixtureIdsDistinct()
    ensures Distinct(NodeIds(SampleGraphNodes))
    ensures Distinct(EdgeIds(SampleGraphEdges))
    ensures Distinct(DocumentIds(SampleDocuments))
    ensures Distinct(RiskIds(SampleRiskItems))
  {
    FixtureIdListsDistinct();
    FixtureNodeIds();
    FixtureEdgeIds();
    FixtureDocumentIds();
    FixtureRiskIds();
  }

  lemma FixtureRisksOpen()
    ensures forall r :: r in SampleRiskItems ==> !r.resolved
  {
  }

  /** doc_005 is the only document still queued, and none has failed. */
  lemma FixtureStatuses()
    ensures forall d :: d in SampleDocuments && d.status == Pending ==> d.id == "doc_005"
    ensures SampleDocuments[4].id == "doc_005" && SampleDocuments[4].status == Pending
    ensures forall d :: d in SampleDocuments ==> d.status != Failed
  {
  }

  lemma FixtureDeedConfidence()
    ensures ExtractedDeedData.info.confidence == 94
    ensures 0 <= ExtractedDeedData.info.confidence <= 100
  {
  }

  lemma FixtureChatHistory()
    ensures |SampleChatMessages| == 1 && SampleChatMessages[0].role == AssistantRole
  {
  }
}
