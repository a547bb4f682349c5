/** The chat widget of app/components/Chatbot.tsx: its message log with the
    transient typing placeholder, the open/closed and loading flags, the
    sticky hand-off to the lead-capture form, and the lead form's fields and
    feedback. Each asynchronous handler is split into the synchronous part
    that runs up to the request and the completion that applies its outcome. */
module Chatbot {
  import opened Options
  import opened JsText

  const TriggerPhrase: string := "**Ready to discuss your project? Please share your contact information (email/phone) and a brief overview of your needs. We'll connect with you promptly for a tailored discussion.**"
  const Greeting: string := "Hi! I'm here to help you learn more about my work and experience. What would you like to know?"
  const TypingDots: string := "\U{2022}\U{2022}\U{2022}"

  const WorkerNotConfigured: string := "Cloudflare Worker URL is not configured."
  const NoBotResponse: string := "Failed to get response from bot."
  const ChatErrorPrefix: string := "Oops! I couldn't get a response. Error: "
  const TryAgain: string := "Please try again."

  const BackendNotConfigured: string := "Render Backend URL is not configured. Please check your .env.local file."
  const LeadNotSent: string := "Failed to send your information."
  const LeadErrorPrefix: string := "Failed to send details: "
  const LeadReceived: string := "Awesome! We've received your details and will be in touch soon for a tailored discussion."

  datatype Role = User | Assistant

  /** One chat bubble; `typing` marks the transient "•••" indicator. */
  datatype Message = Message(role: Role, content: string, typing: bool)

  const TypingIndicator: Message := Message(Assistant, TypingDots, true)
  const GreetingMessage: Message := Message(Assistant, Greeting, false)

  /** The messages the completion handlers filter away. */
  predicate IsPlaceholder(m: Message) {
    m.role == Assistant && m.typing
  }

  /** The string fields of a JSON response body that the two handlers read:
      `response` on success, `error` (chat) or `message` (lead) on failure.
      A missing `error` or `message` is the empty string (both are falsy). */
  datatype ReplyBody = ReplyBody(response: string, error: string, message: string)

  /** What one `fetch` yielded: a response with its `ok` flag and its body,
      or an error thrown by the request or by the body's parsing. */
  datatype FetchResult = Responded(ok: bool, body: ReplyBody) | Thrown(message: string)

  /** The result of one request as the handlers' `try` block sees it. */
  datatype Outcome = Success(text: string) | Failure(message: string)

  /** JavaScript's `||` on two strings: the first unless it is empty. */
  function OrElse(x: string, fallback: string): (r: string)
    ensures r != "" <== fallback != ""
    ensures x != "" ==> r == x
    ensures x == "" ==> r == fallback
  {
    if x == "" then fallback else x
  }

  // ---------------------------------------------------------------------
  // Pure helpers over the message log

  function PlaceholderCount(ms: seq<Message>): nat {
    if ms == [] then 0
    else PlaceholderCount(ms[..|ms| - 1]) + (if IsPlaceholder(ms[|ms| - 1]) then 1 else 0)
  }

  /** The log with every typing indicator removed and the other messages
      kept in order. */
  function WithoutPlaceholders(ms: seq<Message>): (r: seq<Message>)
    ensures |r| + PlaceholderCount(ms) == |ms|
    ensures forall i :: 0 <= i < |r| ==> !IsPlaceholder(r[i])
    ensures forall m :: m in r <==> m in ms && !IsPlaceholder(m)
  {
    if ms == [] then []
    else
      var init := ms[..|ms| - 1];
      assert ms == init + [ms[|ms| - 1]];
      WithoutPlaceholders(init) + (if IsPlaceholder(ms[|ms| - 1]) then [] else [ms[|ms| - 1]])
  }

  lemma {:induction false} PlaceholderCountAppend(a: seq<Message>, b: seq<Message>)
    ensures PlaceholderCount(a + b) == PlaceholderCount(a) + PlaceholderCount(b)
  {
    if b != [] {
      assert (a + b)[..|a + b| - 1] == a + b[..|b| - 1];
      PlaceholderCountAppend(a, b[..|b| - 1]);
    } else {
      assert a + b == a;
    }
  }

  /** The count is zero exactly when no message is a placeholder. */
  lemma {:induction false} PlaceholderCountZeroIff(ms: seq<Message>)
    ensures PlaceholderCount(ms) == 0 <==> forall i :: 0 <= i < |ms| ==> !IsPlaceholder(ms[i])
  {
    if ms != [] {
      var init := ms[..|ms| - 1];
      PlaceholderCountZeroIff(init);
      if PlaceholderCount(ms) == 0 {
        forall i | 0 <= i < |ms| ensures !IsPlaceholder(ms[i]) {
          if i < |ms| - 1 { assert ms[i] == init[i]; }
        }
      } else if !IsPlaceholder(ms[|ms| - 1]) {
        var j :| 0 <= j < |init| && IsPlaceholder(init[j]);
        assert ms[j] == init[j];
      }
    }
  }

  /** Filtering keeps order: it distributes over concatenation. */
  lemma {:induction false} WithoutPlaceholdersAppend(a: seq<Message>, b: seq<Message>)
    ensures WithoutPlaceholders(a + b) == WithoutPlaceholders(a) + WithoutPlaceholders(b)
  {
    if b == [] {
      assert a + b == a;
    } else {
      assert (a + b)[..|a + b| - 1] == a + b[..|b| - 1];
      WithoutPlaceholdersAppend(a, b[..|b| - 1]);
    }
  }

  /** A log without placeholders is left as it is by the filter. */
  lemma {:induction false} WithoutPlaceholdersNoop(ms: seq<Message>)
    requires PlaceholderCount(ms) == 0
    ensures WithoutPlaceholders(ms) == ms
  {
    if ms != [] {
      var init := ms[..|ms| - 1];
      WithoutPlaceholdersNoop(init);
      assert ms == init + [ms[|ms| - 1]];
    }
  }

  /** While a reply is awaited the log is the earlier messages followed by
      the single placeholder; the filter then yields exactly those earlier
      messages, in order. */
  lemma DropTrailingPlaceholder(ms: seq<Message>)
    requires |ms| > 0 && PlaceholderCount(ms) == 1 && IsPlaceholder(ms[|ms| - 1])
    ensures PlaceholderCount(ms[..|ms| - 1]) == 0
    ensures WithoutPlaceholders(ms) == ms[..|ms| - 1]
  {
    WithoutPlaceholdersNoop(ms[..|ms| - 1]);
  }

  /** Appending a user message and the indicator to a log with no
      indicator leaves exactly one, in last place. */
  lemma AwaitingAfterSubmit(ms: seq<Message>, text: string)
    requires PlaceholderCount(ms) == 0
    ensures PlaceholderCount(ms + [Message(User, text, false)] + [TypingIndicator]) == 1
  {
    var u := Message(User, text, false);
    PlaceholderCountAppend(ms + [u], [TypingIndicator]);
    PlaceholderCountAppend(ms, [u]);
    assert [u][..0] == [];
    assert [TypingIndicator][..0] == [];
  }

  /** The log while a reply is awaited (`loading`) ends with the one typing
      indicator it holds; otherwise it holds none. */
  predicate AwaitingShape(ms: seq<Message>, loading: bool) {
    && PlaceholderCount(ms) == (if loading then 1 else 0)
    && (loading ==> |ms| > 0 && IsPlaceholder(ms[|ms| - 1]))
  }

  /** Under that shape an indicator is visible exactly while loading, and
      there is never more than one. */
  lemma IndicatorIffLoading(ms: seq<Message>, loading: bool)
    requires AwaitingShape(ms, loading)
    ensures (exists i :: 0 <= i < |ms| && IsPlaceholder(ms[i])) <==> loading
    ensures forall i, j :: 0 <= i < j < |ms| && IsPlaceholder(ms[i]) ==> !IsPlaceholder(ms[j])
  {
    PlaceholderCountZeroIff(ms);
    if loading {
      DropTrailingPlaceholder(ms);
      var init := ms[..|ms| - 1];
      PlaceholderCountZeroIff(init);
      forall i | 0 <= i < |ms| - 1 ensures !IsPlaceholder(ms[i]) {
        assert ms[i] == init[i];
      }
    }
  }

  /** Which message `handleContactFormSubmit` looks for: the last user
      message, or the last assistant message that is not the indicator. */
  datatype Pick = UserQuery | BotResponse

  predicate Picks(p: Pick, m: Message) {
    match p
    case UserQuery => m.role == User
    case BotResponse => m.role == Assistant && !m.typing
  }

  /** `ms[i]` is the last message that `p` picks. */
  predicate LastPicked(ms: seq<Message>, p: Pick, i: int) {
    0 <= i < |ms| && Picks(p, ms[i]) && forall j :: i < j < |ms| ==> !Picks(p, ms[j])
  }

  /** The content of the last message that `p` picks, or the empty string
      when there is none. */
  function LastContent(ms: seq<Message>, p: Pick): (r: string)
    ensures (forall i :: 0 <= i < |ms| ==> !Picks(p, ms[i])) ==> r == ""
    ensures forall i :: LastPicked(ms, p, i) ==> r == ms[i].content
  {
    if ms == [] then ""
    else if Picks(p, ms[|ms| - 1]) then ms[|ms| - 1].content
    else
      var init := ms[..|ms| - 1];
      assert forall i :: 0 <= i < |init| ==> init[i] == ms[i];
      LastContent(init, p)
  }

  /** Removing typing indicators does not change what the lead form reads. */
  lemma {:induction false} LastContentIgnoresPlaceholders(ms: seq<Message>, p: Pick)
    ensures LastContent(WithoutPlaceholders(ms), p) == LastContent(ms, p)
  {
    if ms != [] {
      var init := ms[..|ms| - 1];
      var last := ms[|ms| - 1];
      LastContentIgnoresPlaceholders(init, p);
      assert LastContent(WithoutPlaceholders(init), p) == LastContent(init, p);
      if IsPlaceholder(last) {
        assert WithoutPlaceholders(ms) == WithoutPlaceholders(init);
        assert LastContent(ms, p) == LastContent(init, p);
      } else {
        var w := WithoutPlaceholders(init) + [last];
        assert WithoutPlaceholders(ms) == w;
        assert w[..|w| - 1] == WithoutPlaceholders(init);
        if Picks(p, last) {
          assert LastContent(w, p) == last.content;
        } else {
          assert LastContent(w, p) == LastContent(WithoutPlaceholders(init), p);
          assert LastContent(ms, p) == LastContent(init, p);
        }
      }
    }
  }

  // ---------------------------------------------------------------------
  // Outcomes of the two requests and the texts shown for them

  /** The chat request (Chatbot.tsx lines 99-115): a missing worker URL fails
      before any request; a non-`ok` response fails with its `error` field or
      a fixed text; an `ok` response succeeds with its `response` field. */
  function InferenceOutcome(workerConfigured: bool, fetched: FetchResult): (o: Outcome)
    ensures !workerConfigured ==> o == Failure(WorkerNotConfigured)
    ensures o.Success? <==> workerConfigured && fetched.Responded? && fetched.ok
    ensures o.Success? ==> o.text == fetched.body.response
    ensures workerConfigured && fetched.Responded? && !fetched.ok ==>
      o == Failure(if fetched.body.error == "" then NoBotResponse else fetched.body.error)
    ensures workerConfigured && fetched.Thrown? ==> o == Failure(fetched.message)
  {
    if !workerConfigured then Failure(WorkerNotConfigured)
    else match fetched
      case Thrown(m) => Failure(m)
      case Responded(ok, body) =>
        if ok then Success(body.response) else Failure(OrElse(body.error, NoBotResponse))
  }

  /** The lead request (lines 156-177): the same shape, except that the
      client reads the error body's `message` field, and success carries no
      text. */
  function LeadOutcome(backendConfigured: bool, fetched: FetchResult): (o: Outcome)
    ensures !backendConfigured ==> o == Failure(BackendNotConfigured)
    ensures o.Success? <==> backendConfigured && fetched.Responded? && fetched.ok
    ensures backendConfigured && fetched.Responded? && !fetched.ok ==>
      o == Failure(if fetched.body.message == "" then LeadNotSent else fetched.body.message)
    ensures backendConfigured && fetched.Thrown? ==> o == Failure(fetched.message)
  {
    if !backendConfigured then Failure(BackendNotConfigured)
    else match fetched
      case Thrown(m) => Failure(m)
      case Responded(ok, body) =>
        if ok then Success("") else Failure(OrElse(body.message, LeadNotSent))
  }

  /** A failing lead backend that explains itself in an `error` field, and
      not in `message`, is not heard: the form shows only the fixed fallback. */
  lemma ErrorFieldIgnoredByLead(error: string)
    ensures LeadOutcome(true, Responded(false, ReplyBody("", error, ""))) == Failure(LeadNotSent)
    ensures LeadFailureText(LeadOutcome(true, Responded(false, ReplyBody("", error, ""))).message)
      == LeadErrorPrefix + LeadNotSent
  {
  }

  /** The assistant bubble added for a failed chat request: the apology
      prefix, then the error message or, when it is empty, a fixed hint. */
  function FailureReply(message: string): (r: string)
    ensures |r| > |ChatErrorPrefix| && r[..|ChatErrorPrefix|] == ChatErrorPrefix
    ensures r[|ChatErrorPrefix|..] == if message == "" then TryAgain else message
  {
    ChatErrorPrefix + OrElse(message, TryAgain)
  }

  /** The inline error of a failed lead submission, read the same way. */
  function LeadFailureText(message: string): (r: string)
    ensures |r| > |LeadErrorPrefix| && r[..|LeadErrorPrefix|] == LeadErrorPrefix
    ensures r[|LeadErrorPrefix|..] == if message == "" then TryAgain else message
  {
    LeadErrorPrefix + OrElse(message, TryAgain)
  }

  function ReplyText(o: Outcome): string {
    match o
    case Success(text) => text
    case Failure(message) => FailureReply(message)
  }

  /** Whether a completed chat request opens the lead form. */
  predicate Triggers(o: Outcome) {
    o.Success? && Contains(o.text, TriggerPhrase)
  }

  /** A reply that quotes the phrase anywhere, with any text around it,
      opens the lead form. */
  lemma TriggerAnywhere(before: string, after: string)
    ensures Triggers(Success(before + TriggerPhrase + after))
  {
    var s := before + TriggerPhrase + after;
    assert s[|before|..|before| + |TriggerPhrase|] == TriggerPhrase;
    assert OccursAt(s, TriggerPhrase, |before|);
  }

  // ---------------------------------------------------------------------
  // The component

  /** The body of the lead request (line 165-171). */
  datatype LeadRequest = LeadRequest(name: string, email: string, project: string, userQuery: string, botResponse: string)

  /** The lead form's part of the component state. */
  datatype LeadForm = LeadForm(name: string, email: string, overview: string,
                               sending: bool, success: Option<string>, error: Option<string>)

  datatype LeadField = ContactName | ContactEmail | ProjectOverview

  class Widget {
    var isChatOpen: bool
    var chatMessages: seq<Message>
    var currentMessage: string
    var isLoading: bool
    var showContactForm: bool
    var contactName: string
    var contactEmail: string
    var projectOverview: string
    var formSending: bool
    var formSuccess: Option<string>
    var formError: Option<string>
    var hasChatOpenedBefore: bool

    /** The typing indicator is present, once and last, exactly while a
        reply is awaited; nothing precedes the first opening; lead feedback
        is clear while a lead is in flight. */
    ghost predicate Valid()
      reads this
    {
      && (isChatOpen ==> hasChatOpenedBefore)
      && (!hasChatOpenedBefore ==> chatMessages == [] && !isLoading)
      && AwaitingShape(chatMessages, isLoading)
      && (formSending ==> showContactForm && formSuccess == None && formError == None)
    }

    function Lead(): LeadForm
      reads this
    {
      LeadForm(contactName, contactEmail, projectOverview, formSending, formSuccess, formError)
    }

    constructor ()
      ensures Valid()
      ensures !isChatOpen && chatMessages == [] && currentMessage == "" && !isLoading
      ensures !showContactForm && !hasChatOpenedBefore
      ensures Lead() == LeadForm("", "", "", false, None, None)
    {
      isChatOpen, chatMessages, currentMessage, isLoading := false, [], "", false;
      showContactForm, hasChatOpenedBefore := false, false;
      contactName, contactEmail, projectOverview := "", "", "";
      formSending, formSuccess, formError := false, None, None;
    }

    /** The open button (line 198) followed by the greeting effect (lines
        55-62): the first opening replaces the log by the greeting. */
    method Open()
      requires Valid()
      modifies this
      ensures Valid() && isChatOpen && hasChatOpenedBefore
      ensures chatMessages == if old(hasChatOpenedBefore) then old(chatMessages) else [GreetingMessage]
      ensures currentMessage == old(currentMessage) && isLoading == old(isLoading)
      ensures showContactForm == old(showContactForm) && Lead() == old(Lead())
    {
      isChatOpen := true;
      if !hasChatOpenedBefore {
        chatMessages := [GreetingMessage];
        hasChatOpenedBefore := true;
      }
    }

    /** The close button (line 243). */
    method Close()
      requires Valid()
      modifies this`isChatOpen
      ensures Valid() && !isChatOpen
    {
      isChatOpen := false;
    }

    /** The document `mousedown` listener (lines 65-82): a press outside the
        open widget closes it; anything else leaves the state alone. */
    method PointerDown(insideWidget: bool)
      requires Valid()
      modifies this`isChatOpen
      ensures Valid()
      ensures isChatOpen == (old(isChatOpen) && insideWidget)
    {
      if isChatOpen && !insideWidget {
        isChatOpen := false;
      }
    }

    /** The chat input's `onChange`. */
    method EditMessage(text: string)
      requires Valid()
      modifies this`currentMessage
      ensures Valid()
      ensures currentMessage == text
    {
      currentMessage := text;
    }

    /** The lead inputs' `onChange` handlers. */
    method EditLead(field: LeadField, value: string)
      requires Valid()
      modifies this`contactName, this`contactEmail, this`projectOverview
      ensures Valid()
      ensures contactName == if field == ContactName then value else old(contactName)
      ensures contactEmail == if field == ContactEmail then value else old(contactEmail)
      ensures projectOverview == if field == ProjectOverview then value else old(projectOverview)
    {
      match field
      case ContactName => contactName := value;
      case ContactEmail => contactEmail := value;
      case ProjectOverview => projectOverview := value;
    }

    /** `handleChatSubmit` up to the request (lines 84-96). An input that is
        blank after trimming, or a reply still awaited, makes it do nothing;
        otherwise it clears the input, appends the untrimmed text as a user
        message and then the typing indicator, and returns the text to send. */
    method BeginChatSubmit() returns (sent: Option<string>)
      requires Valid() && isChatOpen
      modifies this
      ensures Valid()
      ensures old(isLoading) ==> sent == None
      ensures AllWhitespace(old(currentMessage)) || old(isLoading) ==> sent == None && unchanged(this)
      ensures !(AllWhitespace(old(currentMessage)) || old(isLoading)) ==>
          && sent == Some(old(currentMessage))
          && currentMessage == ""
          && chatMessages == old(chatMessages) + [Message(User, old(currentMessage), false), TypingIndicator]
          && isLoading
      ensures isChatOpen == old(isChatOpen) && hasChatOpenedBefore == old(hasChatOpenedBefore)
      ensures showContactForm == old(showContactForm) && Lead() == old(Lead())
    {
      if AllWhitespace(currentMessage) || isLoading {
        return None;
      }
      var userMessageContent := currentMessage;
      AwaitingAfterSubmit(chatMessages, userMessageContent);
      currentMessage := "";
      chatMessages := chatMessages + [Message(User, userMessageContent, false)];
      isLoading := true;
      chatMessages := chatMessages + [TypingIndicator];
      assert chatMessages == old(chatMessages) + [Message(User, userMessageContent, false), TypingIndicator];
      assert chatMessages[|chatMessages| - 1] == TypingIndicator;
      sent := Some(userMessageContent);
    }

    /** The rest of `handleChatSubmit` (lines 117-142): both outcomes drop
        every typing indicator and append one assistant message; a reply
        quoting the trigger phrase also opens the lead form and clears its
        feedback. Loading ends either way. */
    method CompleteChatSubmit(outcome: Outcome)
      requires Valid() && isLoading
      modifies this
      ensures Valid() && !isLoading
      ensures chatMessages == WithoutPlaceholders(old(chatMessages)) + [Message(Assistant, ReplyText(outcome), false)]
      ensures chatMessages == old(chatMessages)[..|old(chatMessages)| - 1] + [Message(Assistant, ReplyText(outcome), false)]
      ensures showContactForm == (old(showContactForm) || Triggers(outcome))
      ensures formSuccess == (if Triggers(outcome) then None else old(formSuccess))
      ensures formError == (if Triggers(outcome) then None else old(formError))
      ensures isChatOpen == old(isChatOpen) && currentMessage == old(currentMessage)
      ensures hasChatOpenedBefore == old(hasChatOpenedBefore)
      ensures contactName == old(contactName) && contactEmail == old(contactEmail)
      ensures projectOverview == old(projectOverview) && formSending == old(formSending)
    {
      DropTrailingPlaceholder(chatMessages);
      var reply := Message(Assistant, ReplyText(outcome), false);
      chatMessages := WithoutPlaceholders(chatMessages);
      chatMessages := chatMessages + [reply];
      PlaceholderCountAppend(chatMessages[..|chatMessages| - 1], [reply]);
      assert chatMessages[..|chatMessages| - 1] + [reply] == chatMessages;
      if Triggers(outcome) {
        showContactForm := true;
        formSuccess := None;
        formError := None;
      }
      isLoading := false;
    }

    /** `handleContactFormSubmit` up to the request (lines 146-171): marks the
        form as sending, clears its feedback, and builds the request from the
        fields and the last user and assistant messages. The fields are
        non-empty because the inputs are `required`. */
    method BeginLeadSubmit() returns (request: LeadRequest)
      requires Valid() && showContactForm
      requires contactName != "" && contactEmail != "" && projectOverview != ""
      modifies this`formSending, this`formSuccess, this`formError
      ensures Valid() && formSending && formSuccess == None && formError == None
      ensures request == LeadRequest(contactName, contactEmail, projectOverview,
                                     LastContent(chatMessages, UserQuery), LastContent(chatMessages, BotResponse))
    {
      formSending := true;
      formError := None;
      formSuccess := None;
      var lastUserQuery := LastContent(chatMessages, UserQuery);
      var lastBotResponse := LastContent(chatMessages, BotResponse);
      request := LeadRequest(contactName, contactEmail, projectOverview, lastUserQuery, lastBotResponse);
    }

    /** The rest of `handleContactFormSubmit` (lines 174-188): success shows
        the confirmation and empties the three fields; failure shows the
        error and keeps them for another try. Sending ends either way. */
    method CompleteLeadSubmit(outcome: Outcome)
      requires Valid() && formSending
      modifies this`contactName, this`contactEmail, this`projectOverview, this`formSending,
               this`formSuccess, this`formError
      ensures Valid() && !formSending
      ensures outcome.Success? ==>
        && formSuccess == Some(LeadReceived) && formError == None
        && contactName == "" && contactEmail == "" && projectOverview == ""
      ensures outcome.Failure? ==>
        && formError == Some(LeadFailureText(outcome.message)) && formSuccess == None
        && contactName == old(contactName) && contactEmail == old(contactEmail)
        && projectOverview == old(projectOverview)
    {
      if outcome.Success? {
        formSuccess := Some(LeadReceived);
        contactName := "";
        contactEmail := "";
        projectOverview := "";
      } else {
        formError := Some(LeadFailureText(outcome.message));
      }
      formSending := false;
    }
  }

  /** A session as a client sees it, from the component's contracts alone. */
  method BudgetQuestionScenario(reply: string)
    requires !Contains(reply, TriggerPhrase)
  {
    var w := new Widget();
    w.Open();
    assert w.chatMessages == [GreetingMessage];
    w.EditMessage("budget?");
    assert !AllWhitespace("budget?") by { assert !IsWhitespace("budget?"[0]); }
    var sent := w.BeginChatSubmit();
    assert sent == Some("budget?");
    assert w.chatMessages[2] == TypingIndicator && w.isLoading;
    w.CompleteChatSubmit(Success(reply));
    assert w.chatMessages == [GreetingMessage, Message(User, "budget?", false), Message(Assistant, reply, false)];
    assert !w.isLoading && !w.showContactForm;
    w.Close();
    w.Open();
    assert |w.chatMessages| == 3;
  }
}
