# LegalVision dashboard — a Dafny model

LegalVision is a React front end for analysing Sri Lankan property deeds. It
is a demonstration. Every "analysis" is a timer, every answer is a fixed
fixture, and sign-in accepts any credentials. This project models the
behaviour behind its pages, one Dafny module per source file:

- the mock session store, which derives a display name from the email
  address and keeps the user record in browser storage (`AuthContext`, with
  the record's JSON text in `Session`);
- the sign-in form (`Login`);
- the dashboard frame, which gates on loading and authentication
  (`DashboardLayout`);
- the top bar (`Header`) and the navigation (`Sidebar`);
- the overview page (`DashboardHome`);
- the document analyzer's upload-and-process timeline (`DocumentAnalyzer`);
- the knowledge graph's filtering and neighbourhood queries
  (`KnowledgeGraph`);
- the document library's search, sort, badges, dates and selection
  (`Documents`);
- the risk report: scores, priority sort, groups and resolving
  (`RiskDetection`);
- the IRAC chat and its line formatter (`LegalReasoning`);
- the fixture data (`SampleData`).

`Shared`, `Text` and `Seqs` hold the helpers: an option type, the effect
log, ASCII string functions, filtering, and a stable insertion sort.

Components that change state step by step are classes. The pages with
several fields (the sign-in form, the analyzer, the graph, the document
library, the risk report and the chat) expose a snapshot datatype through a
`State()` function. Their methods are specified by pure transition functions
over that snapshot, or by updating one of its fields, and the page's promises
are proved as lemmas about those functions. The smaller classes
(`Header.HeaderBar`, `DashboardLayout.Layout`, `AuthContext.LocalStorage` and
`AuthContext.AuthProvider`) state each of their fields directly. Notifications
and navigation calls are appended to an `effects` (or `toasts`) log.
Clocks, timers and the window width are parameters or explicit `Tick`
calls.

## Model

| member | source | states |
|---|---|---|
| Session.DecodeEncode | src/contexts/AuthContext.tsx:29-31 | the text stored for a user record parses back to that same record |
| AuthContext.LocalPart | src/contexts/AuthContext.tsx:43 | the text before the first '@': a prefix of the address that contains no '@', followed by '@' when it is shorter than the address |
| AuthContext.CapitalizeAll | src/contexts/AuthContext.tsx:43-44 | each dot-separated segment is capitalised, one output per segment, in order |
| AuthContext.DerivedName | src/contexts/AuthContext.tsx:43-45 | the derived name is never empty; it is the fallback "Arun Perera" exactly when the joined segments are empty or already equal that name |
| AuthContext.JoinedNameEmpty | src/contexts/AuthContext.tsx:43-45 | the joined segments are empty exactly when the local part is empty, so the fallback is used for an address with nothing before '@' |
| AuthContext.DerivedNameWords | src/contexts/AuthContext.tsx:43-45 | for a non-empty local part without spaces, the name splits into one word per dot-separated segment; each word is its segment with the first letter uppercased |
| AuthContext.DerivedNameFallbackExample | src/contexts/AuthContext.tsx:45 | "@example.com" gets the fallback name |
| AuthContext.SplitPartsFree | src/contexts/AuthContext.tsx:43 | a character absent from the text is absent from every piece of its split |
| AuthContext.Restore | src/contexts/AuthContext.tsx:29-31 | nothing stored or an empty string means no session; otherwise the stored text either parses to a user or is malformed, in which case JSON.parse throws |
| AuthContext.RestoreAfterLogin | src/contexts/AuthContext.tsx:29-33 | a stored record is restored as the same user, and an empty store means no session |
| AuthContext.LoginThenStartUp | src/contexts/AuthContext.tsx:53 | whatever else the store holds, the store login leaves behind restores the user that login set |
| AuthContext.LocalStorage.GetItem | src/contexts/AuthContext.tsx:29 | returns the value under the key, or nothing |
| AuthContext.LocalStorage.SetItem | src/contexts/AuthContext.tsx:53 | the key maps to the new value and every other key keeps its value |
| AuthContext.LocalStorage.RemoveItem | src/contexts/AuthContext.tsx:59 | the key is gone and every other key keeps its value |
| AuthContext.AuthProvider.Initialize | src/contexts/AuthContext.tsx:27-34 | a stored record becomes the user and loading ends; with nothing stored, loading just ends; a malformed record throws before loading ends |
| AuthContext.AuthProvider.Login | src/contexts/AuthContext.tsx:36-56 | any credentials succeed: the derived record is stored under "legalvision_user" and becomes the user |
| AuthContext.AuthProvider.Logout | src/contexts/AuthContext.tsx:58-61 | the stored record is removed and the user cleared |
| Login.SubmitGuard | src/pages/Login.tsx:33-42 | an empty email or password stops the submission with a destructive "Missing credentials" notification and does not set loading; otherwise loading starts and nothing is issued yet |
| Login.WhitespacePasses | src/pages/Login.tsx:33 | only emptiness is checked: any non-empty all-white-space email and password reach login and start loading with no notification, although both trim to empty |
| Login.SettleOutcomes | src/pages/Login.tsx:44-61 | loading always ends; the welcome notification and navigation to the dashboard happen exactly on success; the failure notification happens exactly when login throws |
| Login.PasswordToggle | src/pages/Login.tsx:143-151 | the eye button flips the field between "text" and "password", and pressing it twice restores it |
| Login.LoginPage.SetEmail | src/pages/Login.tsx:131 | the email field takes the typed value and nothing else changes |
| Login.LoginPage.SetPassword | src/pages/Login.tsx:146 | the password field takes the typed value and nothing else changes |
| Login.LoginPage.TogglePassword | src/pages/Login.tsx:151 | the show-password flag flips and nothing else changes |
| Login.LoginPage.HandleSubmit | src/pages/Login.tsx:30-42 | reports whether login is called and moves the form by the submission rule |
| Login.LoginPage.HandleOutcome | src/pages/Login.tsx:45-61 | moves the form by the settle rule |
| Login.LoginPage.SignIn | src/pages/Login.tsx:30-62 | with both fields filled, the user is signed in, the derived record is stored under "legalvision_user" with every other key kept, the welcome and navigation effects are logged and loading is over; otherwise only the missing-credentials notification is logged and the store is untouched; the typed fields, the password toggle and the session's loading flag never change |
| DashboardLayout.GateOutcomes | src/components/layout/DashboardLayout.tsx:13-28 | loading shows the spinner; otherwise an anonymous visitor is redirected to /login; the shell renders exactly for a loaded, signed-in session |
| DashboardLayout.Layout.MenuClick | src/components/layout/DashboardLayout.tsx:30 | the menu button opens the sidebar and leaves the collapsed flag unchanged |
| DashboardLayout.Layout.Close | src/components/layout/DashboardLayout.tsx:36 | closing hides the sidebar and leaves the collapsed flag unchanged |
| DashboardLayout.Layout.ToggleCollapse | src/components/layout/DashboardLayout.tsx:37 | the collapse control flips the collapsed flag only |
| Header.FirstCharsOfWords | src/components/layout/Header.tsx:31 | joining the first characters of the split words gives one character per non-empty word, that word's first character |
| Header.InitialsSpec | src/components/layout/Header.tsx:30-32 | the initials are the uppercased first letters of the first two non-empty words, and there are at most two |
| Header.Fallbacks | src/components/layout/Header.tsx:85-89 | without a user the bar shows "U", "User" and "Role"; a user's own non-empty name and role are shown as they are |
| Header.LoginRoleShown | src/components/layout/Header.tsx:89 | after login the role "Legal Analyst" is shown, never the fallback |
| Header.HeaderBar.FocusSearch | src/components/layout/Header.tsx:61 | focusing the search box sets the focus flag and logs nothing |
| Header.HeaderBar.BlurSearch | src/components/layout/Header.tsx:62 | leaving the search box clears the focus flag and logs nothing |
| Header.HeaderBar.OpenSettings | src/components/layout/Header.tsx:100-104 | both the Profile and Settings entries navigate to /dashboard/settings |
| Header.HeaderBar.HandleLogout | src/components/layout/Header.tsx:25-28 | after logout no user and no stored record remain while every other stored key is kept, the session's loading flag and the search focus are unchanged, the bar logs only the navigation to /login, and the frame no longer renders the shell |
| Header.HeaderBar.MenuClick | src/components/layout/Header.tsx:42 | the menu button opens the sidebar |
| Sidebar.Items | src/components/layout/Sidebar.tsx:25-54 | a link belongs to the flattened list exactly when it belongs to some group |
| Sidebar.ItemPaths | src/components/layout/Sidebar.tsx:25-54 | the groups draw the exact dashboard link, then one prefix link per sub-page, in order |
| Sidebar.NamesSeparated | src/components/layout/Sidebar.tsx:35-52 | no two sub-page paths share their first two characters after "/dashboard/" |
| Sidebar.SubPathStartsWith | src/components/layout/Sidebar.tsx:64 | one sub-page path starts with another exactly when its name starts with the other's name |
| Sidebar.OneActiveLink | src/components/layout/Sidebar.tsx:60-65 | on a sub-page's own path exactly that page's link is active, and the dashboard link is not |
| Sidebar.HomeActive | src/components/layout/Sidebar.tsx:60-65 | on /dashboard only the dashboard link is active |
| Sidebar.DeepLinks | src/components/layout/Sidebar.tsx:60-65 | below a sub-page the sub-page's link stays active and the exact dashboard link stays off |
| Sidebar.HeadingOrDivider | src/components/layout/Sidebar.tsx:94-103 | a group with a section shows its heading when expanded and a divider when collapsed, never both; a group without a section shows neither |
| Sidebar.LinkClickCloses | src/components/layout/Sidebar.tsx:108 | a link click closes the drawer below 1024 pixels and leaves it alone otherwise |
| DashboardHome.GreetingBands | src/pages/dashboard/DashboardHome.tsx:51-56 | morning before 12, afternoon from 12 to before 17, evening from 17; a later hour never gets an earlier greeting |
| DashboardHome.FirstName | src/pages/dashboard/DashboardHome.tsx:87 | the greeted name is the prefix of the user's name up to the first space |
| DashboardHome.GreetsFirstSegment | src/pages/dashboard/DashboardHome.tsx:87 | after login, the greeting names the first dot-separated segment of the address, capitalised |
| DashboardHome.SameBadge | src/pages/dashboard/DashboardHome.tsx:58-66 | the overview badges a document exactly as the documents page does |
| DashboardHome.RecentSpec | src/pages/dashboard/DashboardHome.tsx:144 | at most five documents are listed, the first ones, in order; all five fixture documents fit |
| DashboardHome.RelativeTimeBuckets | src/pages/dashboard/DashboardHome.tsx:68-79 | the millisecond range of each bucket: just now under an hour or in the future, whole hours up to a day, yesterday for the second day, then whole days |
| DashboardHome.AgreesWithDocuments | src/pages/dashboard/DashboardHome.tsx:68-79 | the overview and the documents page agree on "Yesterday"; a past time under a day is "Today" on the documents page |
| DashboardHome.StatCardsSpec | src/pages/dashboard/DashboardHome.tsx:100-128 | four cards; the first three point up; the risks card points down and shows the magnitude of its change |
| DashboardHome.FixtureCards | src/pages/dashboard/DashboardHome.tsx:100-128 | with the fixture the cards show 12%, 8%, 23% and 5%, the last with a down arrow for a fall |
| DashboardHome.ShortcutsAreLinks | src/pages/dashboard/DashboardHome.tsx:93-208 | every overview button leads to a page that the sidebar links to |
| DashboardHome.ShortcutsLightLinks | src/pages/dashboard/DashboardHome.tsx:93-208 | on the page a shortcut opens, the sidebar lights that page's own link, no other sub-page link, and not the dashboard link |
| DocumentAnalyzer.InitialValid | src/pages/dashboard/DocumentAnalyzer.tsx:18-28 | the page mounts in the upload pane with four pending steps in the fixed order |
| DocumentAnalyzer.SubmitValid | src/pages/dashboard/DocumentAnalyzer.tsx:56-64 | choosing a file records it, starts processing at progress 0 with every step pending, and keeps the invariant |
| DocumentAnalyzer.FireValid | src/pages/dashboard/DocumentAnalyzer.tsx:66-107 | every timer callback can run and keeps the invariant: progress stays between 0 and 100 in steps of 10, steps complete in order, and processing and complete never hold together |
| DocumentAnalyzer.FireMonotone | src/pages/dashboard/DocumentAnalyzer.tsx:66-107 | no callback lowers the progress or moves a step's status backwards, and completion is never undone |
| DocumentAnalyzer.FireStepTransitions | src/pages/dashboard/DocumentAnalyzer.tsx:82-98 | a step only moves from pending to processing or from processing to complete |
| DocumentAnalyzer.FireNotifies | src/pages/dashboard/DocumentAnalyzer.tsx:93-101 | exactly the callback that completes the analysis issues "Analysis Complete", and every step is then complete |
| DocumentAnalyzer.ResetValid | src/pages/dashboard/DocumentAnalyzer.tsx:117-128 | reset from the results restores the upload pane: no file, progress 0, four pending steps |
| DocumentAnalyzer.ViewsExclusive | src/pages/dashboard/DocumentAnalyzer.tsx:148-256 | exactly one of the upload, processing and results panes shows; while processing, either the upload bar or the step list shows |
| DocumentAnalyzer.FireNAdd | src/pages/dashboard/DocumentAnalyzer.tsx:66-107 | running m callbacks and then n equals running m + n |
| DocumentAnalyzer.Ramp | src/pages/dashboard/DocumentAnalyzer.tsx:66-75 | each upload tick adds 10 percent until 100 |
| DocumentAnalyzer.StepRound | src/pages/dashboard/DocumentAnalyzer.tsx:82-101 | two callbacks finish the current step and start the next, or complete the analysis after the last |
| DocumentAnalyzer.StepsRun | src/pages/dashboard/DocumentAnalyzer.tsx:78-104 | the remaining steps run to completion with a single notification |
| DocumentAnalyzer.CompleteRun | src/pages/dashboard/DocumentAnalyzer.tsx:56-107 | 19 callbacks after a file is chosen, the analysis is complete with every step done and one "Analysis Complete" notification |
| DocumentAnalyzer.Analyzer.HandleFile | src/pages/dashboard/DocumentAnalyzer.tsx:56-64 | the object moves by the submit rule and keeps its invariant |
| DocumentAnalyzer.Analyzer.Tick | src/pages/dashboard/DocumentAnalyzer.tsx:66-107 | the step array is updated in place, and the object moves by the callback rule |
| DocumentAnalyzer.Analyzer.ResetUpload | src/pages/dashboard/DocumentAnalyzer.tsx:117-128 | the object moves by the reset rule |
| DocumentAnalyzer.Analyzer.HandleCopy | src/pages/dashboard/DocumentAnalyzer.tsx:109-115 | copying issues "Copied!" and changes nothing else |
| KnowledgeGraph.FilteredNodes | src/pages/dashboard/KnowledgeGraph.tsx:40-46 | a node is shown exactly when its type is enabled and its lowercased label contains the lowercased search term, in list order |
| KnowledgeGraph.FilteredEdges | src/pages/dashboard/KnowledgeGraph.tsx:48-53 | an edge is kept exactly when both of its ends are kept nodes |
| KnowledgeGraph.RelatedEdges | src/pages/dashboard/KnowledgeGraph.tsx:67-69 | the edges with the node at either end, in order |
| KnowledgeGraph.RelatedIds | src/pages/dashboard/KnowledgeGraph.tsx:73 | the ids at the other end of the related edges |
| KnowledgeGraph.RelatedNodes | src/pages/dashboard/KnowledgeGraph.tsx:71-75 | a node is related exactly when some edge joins it to the given node, in node-list order |
| KnowledgeGraph.TruncateLabel | src/pages/dashboard/KnowledgeGraph.tsx:252 | a label of at most 15 characters is kept; a longer one is cut to its first 15 and marked with "..." |
| KnowledgeGraph.InitialShowsAll | src/pages/dashboard/KnowledgeGraph.tsx:29-46 | with every type enabled and an empty search, every node is shown |
| KnowledgeGraph.FilteredEdgesClosed | src/pages/dashboard/KnowledgeGraph.tsx:48-53 | no drawn edge dangles |
| KnowledgeGraph.DroppedNodeDropsEdges | src/pages/dashboard/KnowledgeGraph.tsx:48-53 | with distinct ids, an edge touching a hidden node is hidden |
| KnowledgeGraph.RelatedNodesOnce | src/pages/dashboard/KnowledgeGraph.tsx:71-75 | each neighbour is listed once, however many edges lead to it |
| KnowledgeGraph.TruncateIdempotent | src/pages/dashboard/KnowledgeGraph.tsx:252 | a truncated label truncates to itself and has at most 18 characters |
| KnowledgeGraph.PositionsCoverFixture | src/pages/dashboard/KnowledgeGraph.tsx:56-65 | the positioned ids are exactly the fixture's node ids, so every edge end has a position |
| KnowledgeGraph.IdSetIds | src/pages/dashboard/KnowledgeGraph.tsx:49 | the id set holds exactly the listed ids |
| KnowledgeGraph.ClickToggles | src/pages/dashboard/KnowledgeGraph.tsx:209-215 | a click clears the selection exactly when the clicked node is the selected one; otherwise it selects that node |
| KnowledgeGraph.SetFilterOnly | src/pages/dashboard/KnowledgeGraph.tsx:142 | a checkbox enables its own type exactly when checked and changes no other type |
| KnowledgeGraph.ZoomBounds | src/pages/dashboard/KnowledgeGraph.tsx:117-124 | zoom stays between 0.5 and 2 and moves in the direction pressed until the bound |
| KnowledgeGraph.FindNode | src/pages/dashboard/KnowledgeGraph.tsx:328-330 | the first node with the id, or nothing exactly when no node has it |
| KnowledgeGraph.RelatedRowNeighbour | src/pages/dashboard/KnowledgeGraph.tsx:327-335 | the node a related-connection row shows is one of the selected node's neighbours |
| KnowledgeGraph.GraphView.ClickNode | src/pages/dashboard/KnowledgeGraph.tsx:215 | the selection moves by the click rule; the search, zoom, filter panel and enabled types are unchanged |
| KnowledgeGraph.GraphView.ClickRelated | src/pages/dashboard/KnowledgeGraph.tsx:335 | a related-connection row selects the node at the edge's other end, without toggling, and changes nothing else |
| KnowledgeGraph.GraphView.CloseDetails | src/pages/dashboard/KnowledgeGraph.tsx:305 | the close button clears the selection and changes nothing else |
| KnowledgeGraph.GraphView.CheckFilter | src/pages/dashboard/KnowledgeGraph.tsx:142 | the enabled types move by the checkbox rule; the selection, search, zoom and filter panel are unchanged |
| KnowledgeGraph.GraphView.SetSearch | src/pages/dashboard/KnowledgeGraph.tsx:101 | the search term takes the typed value and nothing else changes |
| KnowledgeGraph.GraphView.ToggleFilters | src/pages/dashboard/KnowledgeGraph.tsx:108 | the filter panel flips between shown and hidden and nothing else changes |
| KnowledgeGraph.GraphView.ZoomInClick | src/pages/dashboard/KnowledgeGraph.tsx:117 | zoom moves by the zoom-in rule and nothing else changes |
| KnowledgeGraph.GraphView.ZoomOutClick | src/pages/dashboard/KnowledgeGraph.tsx:124 | zoom moves by the zoom-out rule and nothing else changes |
| Documents.BeforeIsOrder | src/pages/dashboard/Documents.tsx:38-46 | each sort key's comparison is a strict weak order |
| Documents.FilteredDocsSpec | src/pages/dashboard/Documents.tsx:32-46 | the list is a permutation of the documents whose name matches the search and whose type matches the filter; "recent" lists newest first, "name" lists ascending, any other key keeps list order |
| Documents.StatusBadge | src/pages/dashboard/Documents.tsx:66-74 | "Queued" exactly for pending documents; the risk count exactly for other documents with risks; "Analyzed" otherwise |
| Documents.TypeLabels | src/pages/dashboard/Documents.tsx:76-78 | a type is shown with its first letter capitalised and its length unchanged |
| Documents.FormatDateBuckets | src/pages/dashboard/Documents.tsx:80-94 | the millisecond range of each label: today, yesterday, "n days ago" (including any future time), then the calendar date from seven days |
| Documents.ToggleOnly | src/pages/dashboard/Documents.tsx:48-56 | toggling flips the clicked id only, and toggling twice restores the selection |
| Documents.SelectAllAsWrittenRule | src/pages/dashboard/Documents.tsx:58-64 | as written: equal sizes clear the selection; otherwise every listed id is selected |
| Documents.SelectAllAsWrittenMisfires | src/pages/dashboard/Documents.tsx:58-64 | a selection of one hidden document, with one other document listed, shows the header as checked and select-all clears it |
| Documents.SelectAllChecksHeader | src/pages/dashboard/Documents.tsx:183 | corrected: select-all checks an unchecked header and clears a checked one |
| Documents.SelectAllAgrees | src/pages/dashboard/Documents.tsx:58-64 | when the selection lies within the listed ids and ids are distinct, the written and corrected rules agree |
| Documents.DocumentsView.ToggleSelect | src/pages/dashboard/Documents.tsx:48-56 | a row checkbox or a grid card click moves the selection by the toggle rule, and nothing else changes |
| Documents.DocumentsView.SelectAllClick | src/pages/dashboard/Documents.tsx:58-64 | the selection moves by the corrected select-all rule over the listed documents, and nothing else changes |
| Documents.DocumentsView.SetSearch | src/pages/dashboard/Documents.tsx:121 | the search term takes the typed value and nothing else changes |
| Documents.DocumentsView.SetFilterType | src/pages/dashboard/Documents.tsx:126 | the type filter takes the chosen value and nothing else changes |
| Documents.DocumentsView.SetSortBy | src/pages/dashboard/Documents.tsx:141 | the sort key takes the chosen value and nothing else changes |
| Documents.DocumentsView.SetViewMode | src/pages/dashboard/Documents.tsx:153-164 | the list/grid switch sets the layout and nothing else changes |
| Documents.DocumentsView.OpenAnalyzer | src/pages/dashboard/Documents.tsx:106 | "Upload New", the row and card "View" menu entries and the empty-state button navigate to /dashboard/analyzer and change nothing else |
| RiskDetection.ScoreBands | src/pages/dashboard/RiskDetection.tsx:49-65 | success from 80, destructive below 60; a higher score is never more severe; the overall label and the colour classes agree with the tone |
| RiskDetection.FixtureScores | src/pages/dashboard/RiskDetection.tsx:11-18 | the overall score 65 is "MODERATE RISK"; only Legal is destructive; Title, Party and Fraud are success |
| RiskDetection.SortRisksGroups | src/pages/dashboard/RiskDetection.tsx:87-91 | the stable sort lists the high risks, then the medium ones, then the low ones, each group in list order |
| RiskDetection.InsertGrouped | src/pages/dashboard/RiskDetection.tsx:89-91 | inserting a risk into grouped risks places it at the front of its own group |
| RiskDetection.InsertBetween | src/pages/dashboard/RiskDetection.tsx:89-91 | a risk is inserted after every higher-priority risk and before the rest |
| RiskDetection.InsertIntoGroups | src/pages/dashboard/RiskDetection.tsx:89-91 | inserting the head of a list into its tail's groups gives the groups of the whole list |
| RiskDetection.OpenGroupOrder | src/pages/dashboard/RiskDetection.tsx:93-95 | each open group taken from the sorted list is the list's open risks of that priority, in list order |
| RiskDetection.OpenGroupsPartition | src/pages/dashboard/RiskDetection.tsx:93-95 | the three groups partition the open risks: the sizes add up, and a risk is in a group exactly when it is open with that priority |
| RiskDetection.OpenCounts | src/pages/dashboard/RiskDetection.tsx:93-95 | the open risks of the three priorities add up to all open risks |
| RiskDetection.Resolve | src/pages/dashboard/RiskDetection.tsx:78-80 | resolving keeps the number of risks |
| RiskDetection.ResolveEffect | src/pages/dashboard/RiskDetection.tsx:78-80 | exactly the risks with the id become resolved, nothing else changes; it is idempotent, and an unknown id changes nothing |
| RiskDetection.ResolveLeavesGroups | src/pages/dashboard/RiskDetection.tsx:78-95 | after resolving, the id has left every open group and no risk joins one |
| RiskDetection.CategoryCountsPartition | src/pages/dashboard/RiskDetection.tsx:202-233 | the per-category issue counts add up to the "Identified Risks" count |
| RiskDetection.AnalyzeGuard | src/pages/dashboard/RiskDetection.tsx:30-47 | with no document selected, the page is unchanged except for one destructive notification; otherwise analysis starts with nothing else changed, and its end stops analysing and shows the results, again with nothing else changed |
| RiskDetection.ToggleCardOne | src/pages/dashboard/RiskDetection.tsx:252 | a card opens exactly when it was not the open one; opening one closes any other |
| RiskDetection.QueuedNotOffered | src/pages/dashboard/RiskDetection.tsx:127 | only analysed documents are offered; the queued fixture document is not |
| RiskDetection.RiskView.SelectDocument | src/pages/dashboard/RiskDetection.tsx:122 | the picker sets the selected document and nothing else changes |
| RiskDetection.RiskView.HandleAnalyze | src/pages/dashboard/RiskDetection.tsx:30-47 | reports whether analysis started, and moves the page by the analyze rule |
| RiskDetection.RiskView.AnalysisFinished | src/pages/dashboard/RiskDetection.tsx:44-46 | the timer's end moves the page by the finish rule |
| RiskDetection.RiskView.HandleResolve | src/pages/dashboard/RiskDetection.tsx:77-85 | the risk list is rebuilt in a loop and the page moves by the resolve rule, which also logs "Risk marked as resolved" |
| RiskDetection.RiskView.HandleToggle | src/pages/dashboard/RiskDetection.tsx:252 | the page moves by the card rule |
| RiskDetection.RiskView.AnalyzeAnother | src/pages/dashboard/RiskDetection.tsx:235 | the results are hidden and the risks, selection and notifications are kept |
| LegalReasoning.SendSpec | src/pages/dashboard/LegalReasoning.tsx:52-63 | blank input changes nothing; otherwise the trimmed question is appended, the input cleared, the indicator shown and one reply awaited |
| LegalReasoning.ReplySpec | src/pages/dashboard/LegalReasoning.tsx:66-88 | a reply appends one assistant message with the five citations, hides the indicator and settles one awaited reply |
| LegalReasoning.QuestionAndAnswer | src/pages/dashboard/LegalReasoning.tsx:52-88 | from a quiet chat, a question and its reply add exactly those two messages and hide the suggestions |
| LegalReasoning.IndicatorHiddenEarly | src/pages/dashboard/LegalReasoning.tsx:297-302 | Enter while a reply is awaited sends a second question, and the first reply hides the indicator although the second reply is still to come |
| LegalReasoning.ClearRestores | src/pages/dashboard/LegalReasoning.tsx:103-109 | clearing restores the greeting and the suggestions and leaves the input and the awaited replies alone |
| LegalReasoning.SuggestionsOffered | src/pages/dashboard/LegalReasoning.tsx:267-271 | the first four of the six suggested questions are offered |
| LegalReasoning.DigitRun | src/pages/dashboard/LegalReasoning.tsx:123 | the length of the longest run of digits at the start |
| LegalReasoning.NumberedItemMeaning | src/pages/dashboard/LegalReasoning.tsx:123 | a line matches ^\d+\. exactly when a non-empty run of leading digits is followed by a full stop |
| LegalReasoning.FormatMessage | src/pages/dashboard/LegalReasoning.tsx:111-138 | one block per line of the text |
| LegalReasoning.FormatMessageBlocks | src/pages/dashboard/LegalReasoning.tsx:111-138 | the message splits into newline-free lines that join back to it, one block per line; block i is a break exactly when line i is all white space, an item or paragraph shows line i as it is, and a heading of four or more characters re-wraps in "**" to line i |
| LegalReasoning.HeadingRoundTrip | src/pages/dashboard/LegalReasoning.tsx:116-121 | a line wrapped in "**" is a heading of its inner text, and a heading of four or more characters re-wraps to its line |
| LegalReasoning.ItemLines | src/pages/dashboard/LegalReasoning.tsx:123-129 | "- " lines and numbered lines are list items shown as they are |
| LegalReasoning.ItemLinesExactly | src/pages/dashboard/LegalReasoning.tsx:116-129 | a block is a list item exactly when its line starts with "- " or with a non-empty run of digits and a full stop, and the item keeps the line whole |
| LegalReasoning.BreakLines | src/pages/dashboard/LegalReasoning.tsx:130-132 | a line is a break exactly when it is all white space |
| LegalReasoning.IndentedDashLine | src/pages/dashboard/LegalReasoning.tsx:123 | an indented "- " line is a plain paragraph, not an item |
| LegalReasoning.Chat.SetInput | src/pages/dashboard/LegalReasoning.tsx:296 | the input takes the typed text and nothing else changes |
| LegalReasoning.Chat.HandleSuggestedQuestion | src/pages/dashboard/LegalReasoning.tsx:91-93 | a suggested question fills the input and nothing else changes |
| LegalReasoning.Chat.HandleSend | src/pages/dashboard/LegalReasoning.tsx:52-64 | reports whether a question was sent, and moves the chat by the send rule |
| LegalReasoning.Chat.HandleReply | src/pages/dashboard/LegalReasoning.tsx:66-88 | the chat moves by the reply rule |
| LegalReasoning.Chat.HandleClearChat | src/pages/dashboard/LegalReasoning.tsx:103-109 | the chat moves by the clear rule |
| LegalReasoning.Chat.HandleCopy | src/pages/dashboard/LegalReasoning.tsx:95-101 | copying logs "Copied!" and changes nothing else |
| SampleData.FixtureNodeIds | src/data/sampleData.ts:123-132 | the graph nodes carry the ids "1" to "8" in order |
| SampleData.FixtureEdgesClosed | src/data/sampleData.ts:134-143 | every fixture edge joins two fixture nodes |
| SampleData.FixtureIdsDistinct | src/data/sampleData.ts:48-200 | node, edge, document and risk ids are each distinct |
| SampleData.FixtureRisksOpen | src/data/sampleData.ts:145-200 | every fixture risk starts unresolved |
| SampleData.FixtureStatuses | src/data/sampleData.ts:48-104 | only doc_005 is pending, and no fixture document has failed |
| SampleData.FixtureDeedConfidence | src/data/sampleData.ts:202-251 | the extracted deed's confidence is 94, within 0 to 100 |
| SampleData.FixtureChatHistory | src/data/sampleData.ts:106-121 | the chat starts with a single assistant greeting |

## Left out

- Rendering, styling, icons, the weekly chart data and the risk legend are not modelled; only the state and the values the pages compute are.
- Real time is not modelled. Timers are explicit callbacks (`DocumentAnalyzer.Analyzer.Tick`, `HandleReply`, `AnalysisFinished`). The clock is a parameter: the ISO timestamp, the epoch milliseconds in message ids, the hour for the greeting, and the elapsed milliseconds for dates. The 800 ms, 1500 ms and 2000 ms delays are not modelled.
- Aliasing of the processing steps is not modelled. The step callbacks mutate the step objects that the state also holds, and the drop handler is memoised once, so it keeps the first render's step objects. A second analysis started by drag-and-drop would therefore start from the first run's already completed objects. In the model, every run starts from four pending steps.
- DocumentAnalyzer.Analyzer.ResetUpload: requires the results view, where the reset button lives and no timer is pending, so no timer cancellation is modelled.
- Login and AuthProvider are separate steps; React's batching and any interleaving of renders with the awaited call are not modelled.
- JSON text of the stored user is modelled only for records in the layout JSON.stringify writes. Other valid JSON (extra white space, reordered keys) is treated as malformed.
- Strings are ASCII: case mapping, white space for trim and the lexicographic order cover ASCII only.
- localeCompare and comparing Date values are modelled as lexicographic order on the name and on the fixed-width ISO timestamp.
- toLocaleDateString is not modelled: the calendar-date label keeps the stored upload time.
- Zoom is modelled in integer tenths (10 = 1.0), without floating-point rounding of repeated steps of 0.2.
- Clipboard writes are not modelled; copying only logs its notification.
- The "remember me" checkbox, the drag-hover flag and the search box in the top bar hold state that nothing reads. They are not modelled, apart from the search box's focus flag.
- Documents.DocumentsView.SelectAllClick: requires the list layout, because the header checkbox exists only there.
- Documents.DocumentsView.SelectAllClick: applies the corrected select-all rule (`Documents.SelectAll`), not the size comparison the page runs. The rule as written is `Documents.SelectAllAsWritten`, and the two differ on the input in "## Findings". `Documents.SelectAllAgrees` shows they coincide whenever the selection lies within the listed documents and their ids are distinct.
- NavLink's own active flag is not modelled; `Sidebar.IsActive` is the page's own rule.
- RiskDetection.Resolve: its own contract states only the length; what it does to each risk is in `RiskDetection.ResolveEffect`.
- The risk page's "Upload New Document" button (src/pages/dashboard/RiskDetection.tsx:138-140) has no handler. The Settings, Help, History, App and Logo files are not part of this model.
- Worked examples of derived names for concrete addresses are not included, apart from the fallback for "@example.com". The general statements are `AuthContext.DerivedNameWords` and `AuthContext.JoinedNameEmpty`.

## Findings

| source | as written | input that shows it | evidently intended | confidence | as-written member | corrected member |
|---|---|---|---|---|---|---|
| src/pages/dashboard/Documents.tsx:58-64 and :183 | select-all and the header checkbox compare the number of selected ids with the number of listed documents | select doc_001, then search so that only doc_002 is listed: the header shows as checked, and select-all clears the selection instead of selecting doc_002 | select-all clears exactly when every listed document is selected, and selects every listed document otherwise | not executed | Documents.SelectAllAsWrittenMisfires | Documents.SelectAllChecksHeader |
