/** The legal reasoning chat: sending a trimmed question, the canned
    issue-rule-application-conclusion reply that arrives after a delay,
    clearing the conversation, suggested questions, and the line-by-line
    formatting of message text into headings, list items, breaks and
    paragraphs. */
module LegalReasoning {
  import opened Shared
  import opened Text
  import opened SampleData

  // ---------------------------------------------------------------------------
  // The canned reply
  // ---------------------------------------------------------------------------

  const IracCitations: seq<string> := [
    "Prevention of Frauds Ordinance (Cap. 70), Section 2",
    "Registration of Documents Ordinance (Cap. 117)",
    "Notaries Ordinance (Cap. 49)",
    "Stamp Duty Act No. 43 of 1982",
    "De Silva v. Perera [1985] 1 SLR 145"
  ]

  /** One section of the reply: a bold heading line, then its text. */
  function ReplySection(i: nat): string
  {
    if i == 0 then
      "**Issue**\n"
      + "What formalities must be observed for a valid transfer of immovable property in Sri Lanka?"
    else if i == 1 then
      "**Rule**\n"
      + "Under Section 2 of the Prevention of Frauds Ordinance (Cap. 70), no sale, purchase, transfer, or assignment of land "
      + "shall be of force or avail in law unless it is in writing, signed by the party making the same or by some person "
      + "lawfully authorized by him, in the presence of a licensed Notary Public and two or more witnesses."
    else if i == 2 then
      "**Application**\n"
      + "The transfer must comply with the following requirements:\n\n"
      + "1. **Written Form**: The deed must be in writing - oral agreements for land transfers are not enforceable.\n\n"
      + "2. **Notarial Attestation**: The deed must be attested by a Notary Public duly licensed to practice in the area where the land is situated.\n\n"
      + "3. **Signatures**: The deed must be signed by:\n"
      + "   - The transferor (vendor/donor)\n"
      + "   - Two or more witnesses who are present at the time of signing\n"
      + "   - The Notary Public\n\n"
      + "4. **Registration**: Under the Registration of Documents Ordinance (Cap. 117), the deed must be registered at the appropriate Land Registry within 3 months of execution.\n\n"
      + "5. **Stamp Duty**: Proper stamp duty must be paid as per the Stamp Duty Act."
    else
      "**Conclusion**\n"
      + "A sale deed is valid only if it strictly complies with all statutory formalities prescribed under the Prevention of "
      + "Frauds Ordinance and related legislation. Non-compliance renders the transfer void and unenforceable."
  }

  /** The reply text: the four sections, separated by blank lines. */
  function ReplyContent(): string
  {
    Join(seq(4, i requires 0 <= i < 4 => ReplySection(i)), "\n\n")
  }

  const ChatCleared: Effect := Toast("Chat cleared", "Conversation has been reset.", false)
  const Copied: Effect := Toast("Copied!", "Response copied to clipboard.", false)

  /** Messages take their id from the clock: "msg_" and Date.now(). */
  function MessageId(now: int): string
  {
    "msg_" + IntToString(now)
  }

  function UserMessage(content: string, now: int, iso: string): ChatMessage
  {
    ChatMessage(MessageId(now), UserRole, content, iso, None)
  }

  /** The reply's id is one past the clock reading taken when it arrives. */
  function AssistantReply(now: int, iso: string): ChatMessage
  {
    ChatMessage(MessageId(now + 1), AssistantRole, ReplyContent(), iso, Some(IracCitations))
  }

  // ---------------------------------------------------------------------------
  // The conversation
  // ---------------------------------------------------------------------------

  /** The page's state; `pending` counts replies whose delay has not run out
      yet. */
  datatype Conversation = Conversation(
    messages: seq<ChatMessage>,
    input: string,
    isTyping: bool,
    pending: nat,
    effects: seq<Effect>)

  const InitialConversation: Conversation := Conversation(SampleChatMessages, "", false, 0, [])

  /** handleSend up to the delay. Enter in the text box calls it even while
      a reply is on its way; only the send button is disabled then. */
  function Send(c: Conversation, now: int, iso: string): Conversation
  {
    var text := Trim(c.input);
    if text == "" then c
    else c.(messages := c.messages + [UserMessage(text, now, iso)], input := "", isTyping := true, pending := c.pending + 1)
  }

  /** handleSend after the delay. */
  function ReplyArrives(c: Conversation, now: int, iso: string): Conversation
    requires c.pending > 0
  {
    c.(isTyping := false, pending := c.pending - 1, messages := c.messages + [AssistantReply(now, iso)])
  }

  function ClearChat(c: Conversation): Conversation
  {
    c.(messages := SampleChatMessages, effects := c.effects + [ChatCleared])
  }

  /** The send button is enabled. */
  predicate CanSend(c: Conversation)
  {
    Trim(c.input) != "" && !c.isTyping
  }

  /** The suggestions show while the conversation holds at most the greeting. */
  predicate SuggestionsShown(c: Conversation)
  {
    |c.messages| <= 1
  }

  function Suggestions(): seq<string>
  {
    SuggestedQuestions[..4]
  }

  /** A whitespace-only input sends nothing. Otherwise exactly one user
      message is appended, holding the input without its surrounding
      whitespace (never empty, never starting or ending with whitespace);
      the input is cleared and the typing indicator shows. */
  lemma SendSpec(c: Conversation, now: int, iso: string)
    ensures AllSpace(c.input) ==> Send(c, now, iso) == c
    ensures !AllSpace(c.input) ==>
      var text := Trim(c.input);
      && Send(c, now, iso) == c.(messages := c.messages + [UserMessage(text, now, iso)], input := "",
                                  isTyping := true, pending := c.pending + 1)
      && text != "" && !IsSpace(text[0]) && !IsSpace(text[|text| - 1])
  {
    TrimEmptyIffAllSpace(c.input);
    TrimmedEnds(c.input);
  }

  lemma TrimmedEnds(s: string)
    ensures var t := Trim(s); t != [] ==> !IsSpace(t[0]) && !IsSpace(t[|t| - 1])
  {
    var u := TrimStart(s);
    var t := TrimEnd(u);
    if t != [] {
      assert t[0] == u[0];
    }
  }

  /** The reply adds one assistant message with the five citations after
      the existing ones; when no other reply is outstanding the indicator
      goes away for good. */
  lemma ReplySpec(c: Conversation, now: int, iso: string)
    requires c.pending > 0
    ensures var c' := ReplyArrives(c, now, iso);
      && c'.messages[..|c.messages|] == c.messages
      && |c'.messages| == |c.messages| + 1
      && c'.messages[|c.messages|].role == AssistantRole
      && c'.messages[|c.messages|].citations == Some(IracCitations)
      && |IracCitations| == 5
      && !c'.isTyping
      && (c'.pending == 0 <==> c.pending == 1)
  {
    assert (c.messages + [AssistantReply(now, iso)])[..|c.messages|] == c.messages;
  }

  /** Sending an input that trims to the text t. */
  lemma SendTrimmed(c: Conversation, t: string, now: int, iso: string)
    requires Trim(c.input) == t && t != ""
    ensures Send(c, now, iso) == c.(messages := c.messages + [UserMessage(t, now, iso)], input := "", isTyping := true, pending := c.pending + 1)
  {
  }

  /** A question and its reply, for an input that trims to text t. */
  lemma SendThenReply(c: Conversation, t: string, now: int, later: int, iso: string, iso': string)
    requires c.pending == 0 && Trim(c.input) == t && t != ""
    ensures Send(c, now, iso) == c.(messages := c.messages + [UserMessage(t, now, iso)], input := "", isTyping := true, pending := 1)
    ensures ReplyArrives(Send(c, now, iso), later, iso').messages == c.messages + [UserMessage(t, now, iso), AssistantReply(later, iso')]
  {
    SendTrimmed(c, t, now, iso);
    AppendTwo(c.messages, UserMessage(t, now, iso), AssistantReply(later, iso'));
  }

  lemma AppendTwo(ms: seq<ChatMessage>, u: ChatMessage, r: ChatMessage)
    ensures ms + [u] + [r] == ms + [u, r]
  {
  }

  /** From a quiet conversation, a question and its reply add exactly the
      question and the reply, and hide the suggestions. */
  lemma QuestionAndAnswer(c: Conversation, now: int, later: int, iso: string, iso': string)
    requires c.pending == 0 && !AllSpace(c.input)
    ensures Send(c, now, iso).pending == 1
    ensures var c' := ReplyArrives(Send(c, now, iso), later, iso');
      && c'.messages == c.messages + [UserMessage(Trim(c.input), now, iso), AssistantReply(later, iso')]
      && c'.pending == 0 && !c'.isTyping && c'.input == ""
      && !SuggestionsShown(c')
  {
    TrimEmptyIffAllSpace(c.input);
    SendThenReply(c, Trim(c.input), now, later, iso, iso');
  }

  /** Enter pressed while a reply is on its way sends a second question;
      the first reply then hides the typing indicator although the second
      reply has not arrived. */
  lemma IndicatorHiddenEarly(c: Conversation, second: string, now: int, iso: string)
    requires c.pending == 0 && !AllSpace(c.input) && !AllSpace(second)
    ensures var c1 := Send(c, now, iso);
      var c2 := Send(c1.(input := second), now, iso);
      && c1.isTyping && !CanSend(c1)
      && c2.pending == 2
      && !ReplyArrives(c2, now, iso).isTyping && ReplyArrives(c2, now, iso).pending == 1
  {
    TrimEmptyIffAllSpace(c.input);
    TrimEmptyIffAllSpace(second);
  }

  /** Clearing restores the greeting and the suggestions; replies still on
      their way arrive afterwards. */
  lemma ClearRestores(c: Conversation)
    ensures ClearChat(c).messages == InitialConversation.messages
    ensures SuggestionsShown(ClearChat(c))
    ensures ClearChat(c).pending == c.pending && ClearChat(c).input == c.input
  {
    FixtureChatHistory();
  }

  /** Four of the six suggested questions are offered, in their order. */
  lemma SuggestionsOffered()
    ensures |Suggestions()| == 4 && |SuggestedQuestions| == 6
    ensures forall i :: 0 <= i < 4 ==> Suggestions()[i] == SuggestedQuestions[i]
  {
  }

  // ---------------------------------------------------------------------------
  // Formatting message text
  // ---------------------------------------------------------------------------

  datatype Block = Heading(text: string) | Item(line: string) | Break | Paragraph(line: string)

  /** The number of decimal digits s starts with. */
  function DigitRun(s: string): (k: nat)
    ensures k <= |s|
    ensures forall i :: 0 <= i < k ==> IsDigit(s[i])
    ensures k < |s| ==> !IsDigit(s[k])
  {
    if s != [] && IsDigit(s[0]) then 1 + DigitRun(s[1..]) else 0
  }

  /** /^\d+\./ matches: one or more digits, then a full stop. */
  predicate NumberedItem(s: string)
  {
    var k := DigitRun(s);
    0 < k < |s| && s[k] == '.'
  }

  /** The regular expression's meaning, stated directly: some non-empty run
      of digits at the start is followed by a full stop. */
  lemma NumberedItemMeaning(s: string)
    ensures NumberedItem(s) <==>
      exists k :: 0 < k < |s| && s[k] == '.' && forall i :: 0 <= i < k ==> IsDigit(s[i])
  {
    if exists k :: 0 < k < |s| && s[k] == '.' && forall i :: 0 <= i < k ==> IsDigit(s[i]) {
      var k :| 0 < k < |s| && s[k] == '.' && forall i :: 0 <= i < k ==> IsDigit(s[i]);
    }
  }

  /** line.slice(2, -2): empty when the line has fewer than four characters. */
  function Inner(line: string): string
  {
    if |line| >= 4 then line[2..|line| - 2] else ""
  }

  /** One line of formatMessage; the tests are tried in this order. */
  function FormatLine(line: string): Block
  {
    if StartsWith(line, "**") && EndsWith(line, "**") then Heading(Inner(line))
    else if StartsWith(line, "- ") || NumberedItem(line) then Item(line)
    else if Trim(line) == "" then Break
    else Paragraph(line)
  }

  /** formatMessage: the text split at line breaks, one block per line. */
  function FormatMessage(content: string): (r: seq<Block>)
    ensures |r| == Occurrences(content, '\n') + 1
  {
    var lines := Split(content, '\n');
    seq(|lines|, i requires 0 <= i < |lines| => FormatLine(lines[i]))
  }

  /** Bold text alone on a line is a heading with the text, and a heading's
      text put back between the markers gives a line of four or more
      characters that is read back as the same heading. */
  lemma HeadingRoundTrip(t: string, line: string)
    ensures FormatLine("**" + t + "**") == Heading(t)
    ensures FormatLine(line).Heading? && |line| >= 4 ==> "**" + FormatLine(line).text + "**" == line
    ensures FormatLine(line).Heading? && |line| < 4 ==> FormatLine(line).text == ""
  {
    var s := "**" + t + "**";
    assert s[..2] == "**";
    assert s[|s| - 2..] == "**";
    assert s[2..|s| - 2] == t;
    if FormatLine(line).Heading? && |line| >= 4 {
      assert line == line[..2] + line[2..|line| - 2] + line[|line| - 2..];
    }
  }

  /** A line starting with "- ", or with digits and a full stop, is a list
      item and kept whole. */
  lemma ItemLines(t: string, digits: string)
    requires digits != [] && forall i :: 0 <= i < |digits| ==> IsDigit(digits[i])
    ensures FormatLine("- " + t) == Item("- " + t)
    ensures FormatLine(digits + "." + t) == Item(digits + "." + t)
  {
    var s := "- " + t;
    assert s[..2] == "- ";
    var n := digits + "." + t;
    assert n[0] == digits[0];
    assert n[..|digits|] == digits;
    assert n[|digits|] == '.';
    NumberedItemMeaning(n);
  }

  /** The converse of ItemLines: a block is a list item exactly when its line
      starts with "- " or with digits and a full stop, and it keeps the line
      whole. Such a line never starts with "**", so the heading test cannot
      take it first. */
  lemma ItemLinesExactly(line: string)
    ensures FormatLine(line).Item? <==>
      StartsWith(line, "- ") || exists k :: 0 < k < |line| && line[k] == '.' && forall i :: 0 <= i < k ==> IsDigit(line[i])
    ensures FormatLine(line).Item? ==> FormatLine(line).line == line
  {
    NumberedItemMeaning(line);
    if StartsWith(line, "- ") || NumberedItem(line) {
      assert line[0] == '-' || IsDigit(line[0]) by {
        if StartsWith(line, "- ") {
          assert line[..2][0] == line[0];
        }
      }
      if |line| >= 2 {
        assert line[..2][0] == line[0];
      }
      assert !StartsWith(line, "**");
    }
  }

  /** A line is a break exactly when it is whitespace only. */
  lemma BreakLines(line: string)
    ensures FormatLine(line) == Break <==> AllSpace(line)
  {
    TrimEmptyIffAllSpace(line);
    if AllSpace(line) && line != [] {
      BlankStartUnmarked(line);
    }
  }

  /** A line that starts with white space is neither bold nor a list item. */
  lemma BlankStartUnmarked(line: string)
    requires line != [] && IsSpace(line[0])
    ensures !StartsWith(line, "**") && !StartsWith(line, "- ") && !NumberedItem(line)
  {
    assert DigitRun(line) == 0;
    if |line| >= 2 {
      assert line[..2][0] == line[0];
    }
  }

  /** An indented "- " line is a paragraph, not a list item. */
  lemma IndentedDashLine(t: string)
    requires !AllSpace(t)
    ensures FormatLine("   - " + t).Paragraph?
  {
    var s := "   - " + t;
    assert s[0] == ' ';
    BlankStartUnmarked(s);
    NotAllSpaceAfter("   - ", t);
    TrimEmptyIffAllSpace(s);
  }

  /** Text that is not all whitespace keeps any prefix from being so. */
  lemma NotAllSpaceAfter(a: string, t: string)
    requires !AllSpace(t)
    ensures !AllSpace(a + t)
  {
    var i :| 0 <= i < |t| && !IsSpace(t[i]);
    assert (a + t)[|a| + i] == t[i];
  }

  /** A whole message: the lines rejoin to the message and hold no line
      break; block i is a break exactly when line i is white space only,
      items and paragraphs show line i as written, and a heading's text put
      back between the markers is line i (for lines of four or more
      characters). */
  lemma FormatMessageBlocks(content: string)
    ensures var lines := Split(content, '\n');
      var blocks := FormatMessage(content);
      && Join(lines, "\n") == content
      && |blocks| == |lines|
      && forall i :: 0 <= i < |lines| ==>
        && '\n' !in lines[i]
        && (blocks[i] == Break <==> AllSpace(lines[i]))
        && ((blocks[i].Item? || blocks[i].Paragraph?) ==> blocks[i].line == lines[i])
        && (blocks[i].Heading? && |lines[i]| >= 4 ==> "**" + blocks[i].text + "**" == lines[i])
  {
    var lines := Split(content, '\n');
    forall i | 0 <= i < |lines|
      ensures '\n' !in lines[i]
      ensures FormatLine(lines[i]) == Break <==> AllSpace(lines[i])
      ensures FormatLine(lines[i]).Heading? && |lines[i]| >= 4 ==> "**" + FormatLine(lines[i]).text + "**" == lines[i]
    {
      assert lines[i] in lines;
      BreakLines(lines[i]);
      HeadingRoundTrip("", lines[i]);
    }
  }

  // ---------------------------------------------------------------------------
  // The page
  // ---------------------------------------------------------------------------

  class Chat {
    var messages: seq<ChatMessage>
    var input: string
    var isTyping: bool
    var pending: nat
    var effects: seq<Effect>

    function State(): Conversation
      reads this
    {
      Conversation(messages, input, isTyping, pending, effects)
    }

    constructor()
      ensures State() == InitialConversation
    {
      messages, input, isTyping, pending, effects := SampleChatMessages, "", false, 0, [];
    }

    method SetInput(text: string)
      modifies this
      ensures State() == old(State()).(input := text)
    {
      input := text;
    }

    /** A suggested question fills the input. */
    method HandleSuggestedQuestion(question: string)
      modifies this
      ensures State() == old(State()).(input := question)
    {
      input := question;
    }

    /** handleSend, from the button or from Enter, up to the delay. */
    method HandleSend(now: int, iso: string) returns (sent: bool)
      modifies this
      ensures sent <==> !AllSpace(old(input))
      ensures State() == Send(old(State()), now, iso)
    {
      var text := Trim(input);
      TrimEmptyIffAllSpace(input);
      if text == "" {
        return false;
      }
      messages := messages + [UserMessage(text, now, iso)];
      input := "";
      isTyping := true;
      pending := pending + 1;
      sent := true;
    }

    method HandleReply(now: int, iso: string)
      requires pending > 0
      modifies this
      ensures State() == ReplyArrives(old(State()), now, iso)
    {
      var reply := AssistantReply(now, iso);
      messages, isTyping, pending := messages + [reply], false, pending - 1;
    }

    method HandleClearChat()
      modifies this
      ensures State() == ClearChat(old(State()))
    {
      messages := SampleChatMessages;
      effects := effects + [ChatCleared];
    }

    /** The clipboard write is outside the model; the notification is not. */
    method HandleCopy(content: string)
      modifies this
      ensures State() == old(State()).(effects := old(effects) + [Copied])
    {
      effects := effects + [Copied];
    }
  }
}
