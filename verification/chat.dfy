/**
 * The order intake funnel of the chat assistant (components/ChatAgent.tsx).
 *
 * The component's state becomes the fields of a `ChatSession`; each handler
 * becomes a method. The conversational gateway and the code generator are
 * outside the model: what they answer is a parameter (`ChatOutcome`,
 * `GenerationOutcome`), and a ghost log records what they were asked.
 * `handleSend` awaits the gateway, so it is split at that point into
 * `BeginSend` and `FinishSend`; `HandleSend` runs the two back to back.
 */
module Chat {
  import opened Optional
  import opened Strings
  import opened Types
  import opened Store

  /** The assistant's opening message, written in pieces so that its characters can be inspected piece by piece. */
  const Greeting: string :=
    "مرحباً بك! " + "أنا مساعد " + "محمد " + "العثماني " + "الذكي. " + "سأقوم " + "بتسجيل طلبك " +
    "في قاعدة " + "البيانات " + "ليراجعه " + "محمد " + "شخصياً."

  /** What the assistant says when the conversational call fails. */
  const ErrorText: string := "حدث خطأ غير متوقع."

  /** The customer name of every order the assistant saves ("new customer via the bot"). */
  const BotCustomerName: string := "عميل جديد عبر الروبوت"

  /** The price recorded when none can be read off the conversation ("to be determined later"). */
  const PriceTbd: string := "سيحدد لاحقاً"

  /** What the assistant says once the order is saved. */
  const ConfirmationText: string :=
    "✅ تم حفظ " + "متطلباتك " + "في النظام. " + "المشرف " + "(محمد العثماني) " + "تلقى " + "إشعاراً " + "بطلبك. " +
    "يرجى " + "الدفع " + "للبدء."

  /** The word "dollar", the second price signal besides `$`. */
  const DollarWord: string := "دولار"

  /**
   * How the conversational call settled: a reply with its citations, or a
   * rejected promise. The backend catches its own errors and answers with an
   * apology as an ordinary reply, so a backend failure is a `Replied`;
   * `Rejected` is the component's catch branch, which that backend never
   * reaches.
   */
  datatype ChatOutcome = Replied(text: string, sources: seq<Source>) | Rejected

  /** What the code generator produced: the markup, or a failure. */
  datatype GenerationOutcome = Code(html: string) | GenerationFailed

  /** A request sent to the assistant backend. */
  datatype GatewayCall = Converse(prompt: string, history: seq<ChatMessage>) | Generate(requirements: string)

  function GreetingMessage(): ChatMessage {
    ChatMessage(Assistant, Greeting, None)
  }

  function ConfirmationMessage(): ChatMessage {
    ChatMessage(Assistant, ConfirmationText, None)
  }

  /** The guard of `handleSend`: the text does not trim to nothing and no reply is awaited. */
  method SendAccepted(text: string, loading: bool) returns (r: bool)
    ensures r <==> !IsBlank(text) && !loading
  {
    TrimEmptyIffBlank(text);
    r := !(Trim(text) == [] || loading);
  }

  /** `customPrompt || input`: an absent or empty prompt falls back to the typed input. */
  function UserText(customPrompt: Option<string>, input: string): (r: string)
    ensures customPrompt.None? || customPrompt.value == "" ==> r == input
    ensures r == input || (customPrompt.Some? && r == customPrompt.value && r != "")
  {
    if customPrompt.Some? && customPrompt.value != "" then customPrompt.value else input
  }

  /** `text.includes('$') || text.includes('دولار')`. */
  predicate SignalsPrice(text: string) {
    Includes(text, "$") || Includes(text, DollarWord)
  }

  /** The message appended once the conversational call settles. */
  function ReplyMessage(outcome: ChatOutcome): ChatMessage {
    match outcome
    case Replied(text, sources) => ChatMessage(Assistant, text, Some(sources))
    case Rejected => ChatMessage(Assistant, ErrorText, None)
  }

  /** The conversation after one accepted send: the user's turn, then the reply or the error text. */
  function SendTranscript(msgs: seq<ChatMessage>, text: string, outcome: ChatOutcome): (r: seq<ChatMessage>)
    ensures |r| == |msgs| + 2 && r[..|msgs|] == msgs
    ensures r[|msgs|].role == User && r[|msgs|].content == text
    ensures r[|msgs| + 1].role == Assistant
    ensures r[|msgs| + 1].content == if outcome.Replied? then outcome.text else ErrorText
  {
    msgs + [ChatMessage(User, text, None), ReplyMessage(outcome)]
  }

  /** The step after a reply: only a price-signalling reply in the idle step moves, and only to agreement. */
  function StepAfterReply(step: AppStep, outcome: ChatOutcome): (r: AppStep)
    ensures r == step || r == Agreement
    ensures r != step <==> step == Idle && outcome.Replied? && SignalsPrice(outcome.text)
  {
    if outcome.Replied? && SignalsPrice(outcome.text) && step == Idle then Agreement else step
  }

  /** `messages.filter(m => m.role === 'user').map(m => m.content)`. */
  function UserContents(msgs: seq<ChatMessage>): (r: seq<string>)
    ensures |r| <= |msgs|
  {
    if msgs == [] then []
    else (if msgs[0].role == User then [msgs[0].content] else []) + UserContents(msgs[1..])
  }

  /** The requirements saved with the order: the user's turns joined by `" | "`. */
  function OrderRequirements(msgs: seq<ChatMessage>): (r: string)
    ensures UserContents(msgs) == [] ==> r == ""
    ensures |UserContents(msgs)| == 1 ==> r == UserContents(msgs)[0]
  {
    Join(UserContents(msgs), " | ")
  }

  /** The requirements handed to the code generator: the user's turns joined by a space. */
  function GenerationRequirements(msgs: seq<ChatMessage>): (r: string)
    ensures UserContents(msgs) == [] ==> r == ""
    ensures |UserContents(msgs)| == 1 ==> r == UserContents(msgs)[0]
  {
    Join(UserContents(msgs), " ")
  }

  /** `messages.find(m => m.content.includes('$'))`, as an index. */
  function FirstDollarMessage(msgs: seq<ChatMessage>): (r: Option<nat>)
    ensures r.Some? ==> r.value < |msgs| && Includes(msgs[r.value].content, "$")
    ensures r.Some? ==> forall j :: 0 <= j < r.value ==> !Includes(msgs[j].content, "$")
    ensures r.None? ==> forall j :: 0 <= j < |msgs| ==> !Includes(msgs[j].content, "$")
  {
    if msgs == [] then None
    else if Includes(msgs[0].content, "$") then Some(0)
    else
      match FirstDollarMessage(msgs[1..])
      case None => None
      case Some(k) => Some(k + 1)
  }

  /**
   * The price saved with the order: the first `$` amount of the first message,
   * of either role, that contains a `$`; "to be determined" when there is no
   * such message or no amount in it.
   */
  function Price(msgs: seq<ChatMessage>): (r: string)
    ensures r == PriceTbd || (|r| >= 2 && r[0] == '$' && forall i :: 1 <= i < |r| ==> IsDigit(r[i]))
    ensures r == PriceTbd <==>
      FirstDollarMessage(msgs).None? || MatchDollarAmount(msgs[FirstDollarMessage(msgs).value].content).None?
  {
    match FirstDollarMessage(msgs)
    case None => PriceTbd
    case Some(i) =>
      match MatchDollarAmount(msgs[i].content)
      case None => PriceTbd
      case Some(amount) =>
        assert amount[0] == '$' && PriceTbd[0] != '$';
        amount
  }

  /** The argument `confirmAgreementAndSaveToDB` hands to `saveOrder`. */
  function BotOrderDraft(msgs: seq<ChatMessage>): (r: OrderDraft)
    ensures r.customerName == BotCustomerName && r.htmlContent.None?
    ensures r.requirements == OrderRequirements(msgs)
    ensures r.price.Some?
    ensures r.price.value == PriceTbd <==>
      FirstDollarMessage(msgs).None? || MatchDollarAmount(msgs[FirstDollarMessage(msgs).value].content).None?
  {
    OrderDraft(BotCustomerName, OrderRequirements(msgs), Some(Price(msgs)), None)
  }

  /** The payment panel, with its pay button, is rendered only in this step. */
  predicate PaymentOffered(step: AppStep)
    ensures PaymentOffered(step) ==> step != Idle && step != Complete
  {
    step == Payment
  }

  /**
   * The agreement panel, with its confirm button, is rendered only in this
   * step; the two panels are never on screen together.
   */
  predicate ConfirmOffered(step: AppStep)
    ensures ConfirmOffered(step) ==> !PaymentOffered(step) && step != Idle && step != Complete
  {
    step == Agreement
  }

  /** The moves the handlers make between steps. */
  predicate Edge(a: AppStep, b: AppStep) {
    (a == Idle && b == Agreement)
    || (a == Agreement && b == NotifyingAdmin)
    || (a == NotifyingAdmin && b == Payment)
    || (a == Payment && b == Generating)
    || (a == Generating && (b == Complete || b == Idle))
  }

  /** A run of steps that starts idle and makes only handler moves. */
  predicate FunnelPath(v: seq<AppStep>) {
    |v| >= 1 && v[0] == Idle && forall k :: 0 < k < |v| ==> Edge(v[k - 1], v[k])
  }

  /** A run extended by one handler move from its last step is still a run. */
  lemma FunnelPathExtend(v: seq<AppStep>, next: AppStep)
    requires FunnelPath(v) && Edge(v[|v| - 1], next)
    ensures FunnelPath(v + [next]) && (v + [next])[|v|] == next
  {
    var w := v + [next];
    forall k | 0 < k < |w| ensures Edge(w[k - 1], w[k]) {
      if k < |v| {
        assert w[k - 1] == v[k - 1] && w[k] == v[k];
      }
    }
  }

  /** The steps a session rests in between handlers; the other two last only while a call is awaited. */
  predicate Resting(s: AppStep) {
    s == Idle || s == Agreement || s == Payment || s == Complete
  }

  class ChatSession {
    var messages: seq<ChatMessage>
    var input: string
    var isLoading: bool
    var step: AppStep
    var currentOrderId: Option<string>
    var generatedHtml: string
    /** Every step entered so far, the initial one first. */
    ghost var visited: seq<AppStep>
    /** Every request sent to the assistant backend, oldest first. */
    ghost var calls: seq<GatewayCall>

    ghost predicate Valid()
      reads this
    {
      FunnelPath(visited) && step == visited[|visited| - 1] && Resting(step)
      && (step == Payment ==> currentOrderId.Some?)
      && (currentOrderId.Some? ==> currentOrderId.value != "")
    }

    /** The initial state: the greeting, an empty input, the idle step, no order. */
    constructor ()
      ensures Valid()
      ensures messages == [GreetingMessage()] && input == "" && !isLoading
      ensures step == Idle && currentOrderId == None && generatedHtml == ""
      ensures visited == [Idle] && calls == []
    {
      messages := [GreetingMessage()];
      input := "";
      isLoading := false;
      step := Idle;
      currentOrderId := None;
      generatedHtml := "";
      visited := [Idle];
      calls := [];
    }

    /** `setStep(next)` along one of the handler moves, recording the step entered. */
    method MoveTo(next: AppStep)
      requires FunnelPath(visited) && step == visited[|visited| - 1] && Edge(step, next)
      modifies this`step, this`visited
      ensures step == next && visited == old(visited) + [next]
      ensures FunnelPath(visited) && step == visited[|visited| - 1]
    {
      step := next;
      visited := visited + [next];
      assert visited[..|visited| - 1] == old(visited);
    }

    /** The input box's `onChange`. */
    method SetInput(value: string)
      requires Valid()
      modifies this`input
      ensures Valid() && input == value
    {
      input := value;
    }

    /**
     * The part of `handleSend` before the await: the guard, then the user's
     * turn is appended, the input cleared and the call sent with the
     * conversation as it stood before the turn.
     */
    method BeginSend(customPrompt: Option<string>) returns (accepted: bool)
      requires Valid()
      modifies this`input, this`calls, this`messages, this`isLoading
      ensures Valid()
      ensures var text := UserText(customPrompt, old(input));
        accepted == (!IsBlank(text) && !old(isLoading))
      ensures var text := UserText(customPrompt, old(input));
        accepted ==>
          messages == old(messages) + [ChatMessage(User, text, None)] && input == "" && isLoading
          && calls == old(calls) + [Converse(text, old(messages))]
      ensures !accepted ==>
        messages == old(messages) && input == old(input) && isLoading == old(isLoading) && calls == old(calls)
      ensures step == old(step) && visited == old(visited)
      ensures currentOrderId == old(currentOrderId) && generatedHtml == old(generatedHtml)
    {
      var text := UserText(customPrompt, input);
      accepted := SendAccepted(text, isLoading);
      if accepted {
        input := "";
        calls := calls + [Converse(text, messages)];
        messages := messages + [ChatMessage(User, text, None)];
        isLoading := true;
      }
    }

    /** The part of `handleSend` after the await: the reply or the error text, the step check, loading off. */
    method FinishSend(outcome: ChatOutcome)
      requires Valid()
      modifies this
      ensures Valid()
      ensures messages == old(messages) + [ReplyMessage(outcome)]
      ensures step == StepAfterReply(old(step), outcome)
      ensures visited == if step == old(step) then old(visited) else old(visited) + [step]
      ensures !isLoading
      ensures input == old(input) && currentOrderId == old(currentOrderId)
      ensures generatedHtml == old(generatedHtml) && calls == old(calls)
    {
      messages := messages + [ReplyMessage(outcome)];
      var next := StepAfterReply(step, outcome);
      if next != step {
        MoveTo(next);
      }
      isLoading := false;
    }

    /**
     * `handleSend` as one step: a blank message or a send while loading
     * changes nothing; otherwise exactly the user's turn and one reply are
     * appended, the input is cleared and loading ends.
     */
    method HandleSend(customPrompt: Option<string>, outcome: ChatOutcome)
      requires Valid()
      modifies this
      ensures Valid()
      ensures var text := UserText(customPrompt, old(input));
        if IsBlank(text) || old(isLoading) then
          messages == old(messages) && step == old(step) && input == old(input)
          && isLoading == old(isLoading) && calls == old(calls)
        else
          messages == SendTranscript(old(messages), text, outcome)
          && step == StepAfterReply(old(step), outcome)
          && input == "" && !isLoading
          && calls == old(calls) + [Converse(text, old(messages))]
      ensures currentOrderId == old(currentOrderId) && generatedHtml == old(generatedHtml)
    {
      var accepted := BeginSend(customPrompt);
      if accepted {
        FinishSend(outcome);
      }
    }

    /**
     * `confirmAgreementAndSaveToDB`, reachable only from the agreement panel:
     * saves one pending order built from the conversation, remembers its id,
     * moves through notifying-admin to payment and appends the confirmation.
     */
    method ConfirmAgreementAndSaveToDB(db: DatabaseService, timestamp: nat, date: string)
      requires Valid() && ConfirmOffered(step)
      modifies this, db
      ensures Valid()
      ensures var o := NewOrder(BotOrderDraft(old(messages)), timestamp, date);
        db.storedOrders == Some([o] + old(db.GetOrders())) && currentOrderId == Some(o.id)
      ensures db.storedProjects == old(db.storedProjects) && db.events == old(db.events) + [OrdersUpdated]
      ensures step == Payment && visited == old(visited) + [NotifyingAdmin, Payment]
      ensures messages == old(messages) + [ConfirmationMessage()]
      ensures input == old(input) && isLoading == old(isLoading)
      ensures generatedHtml == old(generatedHtml) && calls == old(calls)
    {
      var draft := BotOrderDraft(messages);
      MoveTo(NotifyingAdmin);
      var newOrder := db.SaveOrder(draft, timestamp, date);
      currentOrderId := Some(newOrder.id);
      MoveTo(Payment);
      messages := messages + [ConfirmationMessage()];
    }

    /**
     * `handlePaymentAndGenerate`, reachable only from the payment panel: asks
     * for the site with the user's turns joined by spaces; on success keeps
     * the markup, attaches it to the current order and completes; on failure
     * goes back to idle and leaves the store alone.
     */
    method HandlePaymentAndGenerate(db: DatabaseService, outcome: GenerationOutcome)
      requires Valid() && PaymentOffered(step)
      modifies this, db
      ensures Valid()
      ensures calls == old(calls) + [Generate(GenerationRequirements(old(messages)))]
      ensures visited == old(visited) + [Generating, step]
      ensures outcome.Code? ==>
        step == Complete && generatedHtml == outcome.html
        && db.storedOrders == Some(WithContent(old(db.GetOrders()), old(currentOrderId).value, outcome.html))
        && db.storedProjects == old(db.storedProjects) && db.events == old(db.events) + [OrdersUpdated]
      ensures outcome.GenerationFailed? ==>
        step == Idle && generatedHtml == old(generatedHtml)
        && db.storedOrders == old(db.storedOrders) && db.storedProjects == old(db.storedProjects)
        && db.events == old(db.events)
      ensures messages == old(messages) && input == old(input) && isLoading == old(isLoading)
      ensures currentOrderId == old(currentOrderId)
    {
      var requirements := GenerationRequirements(messages);
      FunnelPathExtend(visited, Generating);
      var run := visited + [Generating];
      var next := if outcome.Code? then Complete else Idle;
      FunnelPathExtend(run, next);
      calls := calls + [Generate(requirements)];
      if outcome.Code? {
        generatedHtml := outcome.html;
        if currentOrderId.Some? && currentOrderId.value != "" {
          db.UpdateOrderContent(currentOrderId.value, outcome.html);
        }
      }
      step := next;
      visited := run + [next];
    }
  }

  // Lemmas

  /** Collecting the user's turns distributes over concatenation. */
  lemma {:induction false} UserContentsAppend(a: seq<ChatMessage>, b: seq<ChatMessage>)
    ensures UserContents(a + b) == UserContents(a) + UserContents(b)
  {
    if a == [] {
      assert a + b == b;
    } else {
      var head := if a[0].role == User then [a[0].content] else [];
      assert (a + b)[0] == a[0];
      assert (a + b)[1..] == a[1..] + b;
      UserContentsAppend(a[1..], b);
      calc {
        UserContents(a + b);
        head + UserContents(a[1..] + b);
        head + (UserContents(a[1..]) + UserContents(b));
        (head + UserContents(a[1..])) + UserContents(b);
      }
    }
  }

  /** The user's turns are exactly the contents of the user's messages. */
  lemma {:induction false} UserContentsMembers(msgs: seq<ChatMessage>)
    ensures forall i :: 0 <= i < |msgs| && msgs[i].role == User ==> msgs[i].content in UserContents(msgs)
    ensures forall k :: 0 <= k < |UserContents(msgs)| ==>
      exists i :: 0 <= i < |msgs| && msgs[i].role == User && msgs[i].content == UserContents(msgs)[k]
  {
    if msgs != [] {
      UserContentsMembers(msgs[1..]);
      var head := if msgs[0].role == User then [msgs[0].content] else [];
      var r := UserContents(msgs);
      var tail := UserContents(msgs[1..]);
      assert r == head + tail;
      forall i | 0 <= i < |msgs| && msgs[i].role == User ensures msgs[i].content in r {
        if i > 0 {
          assert msgs[1..][i - 1] == msgs[i];
          assert msgs[i].content in tail;
        }
      }
      forall k | 0 <= k < |r|
        ensures exists i :: 0 <= i < |msgs| && msgs[i].role == User && msgs[i].content == r[k]
      {
        if k < |head| {
          assert msgs[0].role == User && msgs[0].content == r[k];
        } else {
          assert r[k] == tail[k - |head|];
          var j :| 0 <= j < |msgs[1..]| && msgs[1..][j].role == User && msgs[1..][j].content == tail[k - |head|];
          assert msgs[j + 1] == msgs[1..][j];
          assert msgs[j + 1].role == User && msgs[j + 1].content == r[k];
        }
      }
    } else {
      assert UserContents(msgs) == [];
    }
  }

  /** A send adds exactly the user's text to the requirements, at the end. */
  lemma SendAddsOneRequirement(msgs: seq<ChatMessage>, text: string, outcome: ChatOutcome)
    ensures UserContents(SendTranscript(msgs, text, outcome)) == UserContents(msgs) + [text]
  {
    var user := ChatMessage(User, text, None);
    UserContentsAppend(msgs, [user, ReplyMessage(outcome)]);
    assert [user, ReplyMessage(outcome)][1..] == [ReplyMessage(outcome)];
    assert [ReplyMessage(outcome)][1..] == [];
  }

  /** Assistant messages, such as the confirmation, never become requirements. */
  lemma AssistantAddsNoRequirement(msgs: seq<ChatMessage>, m: ChatMessage)
    requires m.role == Assistant
    ensures UserContents(msgs + [m]) == UserContents(msgs)
  {
    UserContentsAppend(msgs, [m]);
    assert [m][1..] == [];
  }

  /**
   * The saved order and the generator see the same turns, joined differently:
   * the saved text is two characters longer per separator, and the two agree
   * when the user spoke once.
   */
  lemma RequirementsDifferBySeparators(msgs: seq<ChatMessage>)
    requires UserContents(msgs) != []
    ensures |OrderRequirements(msgs)| == |GenerationRequirements(msgs)| + 2 * (|UserContents(msgs)| - 1)
    ensures |UserContents(msgs)| == 1 ==> OrderRequirements(msgs) == GenerationRequirements(msgs)
  {
    JoinLength(UserContents(msgs), " | ");
    JoinLength(UserContents(msgs), " ");
  }

  /** A price signal is a `$` character or an occurrence of the word "dollar". */
  lemma SignalsPriceIff(text: string)
    ensures SignalsPrice(text) <==> '$' in text || exists i :: OccursAt(text, DollarWord, i)
  {
    IncludesChar(text, '$');
    IncludesIff(text, DollarWord);
  }

  /** Once some message contains a `$`, later messages no longer change the price. */
  lemma {:induction false} FirstDollarMessageStable(msgs: seq<ChatMessage>, more: seq<ChatMessage>)
    requires FirstDollarMessage(msgs).Some?
    ensures FirstDollarMessage(msgs + more) == FirstDollarMessage(msgs)
  {
    if !Includes(msgs[0].content, "$") {
      assert (msgs + more)[1..] == msgs[1..] + more;
      FirstDollarMessageStable(msgs[1..], more);
    }
  }

  /** The first message with a `$` fixes the price, even when it holds no amount and a later one does. */
  lemma PriceFixedByFirstDollarMessage(msgs: seq<ChatMessage>, more: seq<ChatMessage>)
    requires FirstDollarMessage(msgs).Some?
    ensures Price(msgs + more) == Price(msgs)
  {
    FirstDollarMessageStable(msgs, more);
    var i := FirstDollarMessage(msgs).value;
    assert (msgs + more)[i] == msgs[i];
  }

  /** A priced price is the first amount of the first message containing a `$`, found where the pattern first matches. */
  lemma PriceOccursInMessage(msgs: seq<ChatMessage>)
    requires Price(msgs) != PriceTbd
    ensures FirstDollarMessage(msgs).Some?
    ensures var c := msgs[FirstDollarMessage(msgs).value].content;
      MatchDollarAmount(c) == Some(Price(msgs)) && OccursAt(c, Price(msgs), FirstDollarToken(c).value)
  {
    var c := msgs[FirstDollarMessage(msgs).value].content;
    MatchDollarAmountOccurs(c);
  }

  /** Only a step entered from the handlers can occur on a run: never the information-gathering step. */
  lemma NeverGathering(v: seq<AppStep>)
    requires FunnelPath(v)
    ensures GatheringInfo !in v
  {
    forall k | 0 <= k < |v| ensures v[k] != GatheringInfo {
      if k > 0 {
        assert Edge(v[k - 1], v[k]);
      }
    }
  }

  /** A run reaches completion only through agreement, notifying the admin, payment and generation, in that order. */
  lemma CompleteOnlyAfterPayment(v: seq<AppStep>, k: nat)
    requires FunnelPath(v) && k < |v| && v[k] == Complete
    ensures k >= 4 && v[k - 4..k + 1] == [Agreement, NotifyingAdmin, Payment, Generating, Complete]
  {
    assert k > 0 && Edge(v[k - 1], v[k]);
    assert k - 1 > 0 && Edge(v[k - 2], v[k - 1]);
    assert k - 2 > 0 && Edge(v[k - 3], v[k - 2]);
    assert k - 3 > 0 && Edge(v[k - 4], v[k - 3]);
  }

  // Scenarios

  /** The greeting holds no `$`, so it never supplies the price. */
  lemma GreetingHasNoDollar()
    ensures !Includes(Greeting, "$")
  {
    GreetingLacksDollarSign();
    IncludesChar(Greeting, '$');
  }

  lemma GreetingLacksDollarSign()
    ensures '$' !in Greeting
  {
    assert '$' !in "مرحباً بك! ";
    assert '$' !in "أنا مساعد ";
    assert '$' !in "محمد ";
    assert '$' !in "العثماني ";
    assert '$' !in "الذكي. ";
    assert '$' !in "سأقوم ";
    assert '$' !in "بتسجيل طلبك ";
    assert '$' !in "في قاعدة ";
    assert '$' !in "البيانات ";
    assert '$' !in "ليراجعه ";
    assert '$' !in "محمد ";
    assert '$' !in "شخصياً.";
  }

  /** The index the function finds is the only one that is first with a `$`. */
  lemma FirstDollarMessageAt(msgs: seq<ChatMessage>, k: nat)
    requires k < |msgs| && Includes(msgs[k].content, "$")
    requires forall j :: 0 <= j < k ==> !Includes(msgs[j].content, "$")
    ensures FirstDollarMessage(msgs) == Some(k)
  {
  }

  /**
   * A first turn without a `$`, answered by a reply whose amount is `amount`:
   * the reply moves an idle session to agreement, and the order built from
   * the conversation has that one turn as requirements and `amount` as price.
   */
  lemma QuotedFirstTurn(request: string, quote: string, amount: string)
    requires !Includes(request, "$") && Includes(quote, "$") && MatchDollarAmount(quote) == Some(amount)
    ensures var msgs := SendTranscript([GreetingMessage()], request, Replied(quote, []));
      StepAfterReply(Idle, Replied(quote, [])) == Agreement
      && OrderRequirements(msgs) == request && Price(msgs) == amount
  {
    var msgs := SendTranscript([GreetingMessage()], request, Replied(quote, []));
    GreetingHasNoDollar();
    assert msgs[0] == GreetingMessage();
    FirstDollarMessageAt(msgs, 2);
    SendAddsOneRequirement([GreetingMessage()], request, Replied(quote, []));
    assert UserContents([GreetingMessage()]) == [];
  }

  /**
   * The funnel end to end on a fresh store: a first turn without a price, a
   * reply quoting an amount, confirmation and a successful generation. The
   * saved order carries that turn and that amount, and generation marks it
   * generated with the markup attached.
   */
  method HappyPath(request: string, quote: string, amount: string, timestamp: nat, date: string, html: string)
    returns (finalStep: AppStep, order: SiteOrder, orderCount: nat)
    requires !IsBlank(request) && !Includes(request, "$")
    requires Includes(quote, "$") && MatchDollarAmount(quote) == Some(amount)
    ensures finalStep == Complete && orderCount == 1
    ensures order.id == OrderId(timestamp) && order.customerName == BotCustomerName
    ensures order.requirements == request && order.price == Some(amount)
    ensures order.status == Generated && order.htmlContent == Some(html)
  {
    var db := new DatabaseService([], None, None);
    var session := new ChatSession();
    session.SetInput(request);
    session.HandleSend(None, Replied(quote, []));
    QuotedFirstTurn(request, quote, amount);
    var msgs := session.messages;
    assert msgs == SendTranscript([GreetingMessage()], request, Replied(quote, []));
    assert session.step == Agreement;
    session.ConfirmAgreementAndSaveToDB(db, timestamp, date);
    var saved := NewOrder(BotOrderDraft(msgs), timestamp, date);
    assert db.GetOrders() == [saved] && session.currentOrderId == Some(saved.id);
    session.HandlePaymentAndGenerate(db, Code(html));
    finalStep := session.step;
    var orders := db.GetOrders();
    WithContentPointwise([saved], saved.id, html);
    assert orders == WithContent([saved], saved.id, html);
    orderCount := |orders|;
    order := orders[0];
  }

  /** The request of the first scenario is not blank and holds no `$`. */
  lemma ScenarioRequest()
    ensures !IsBlank("أريد متجر إلكتروني") && !Includes("أريد متجر إلكتروني", "$")
  {
    var request := "أريد " + "متجر " + "إلكتروني";
    assert request == "أريد متجر إلكتروني";
    assert !IsWhitespace(request[0]);
    assert '$' !in "أريد ";
    assert '$' !in "متجر ";
    assert '$' !in "إلكتروني";
    IncludesChar(request, '$');
  }

  /** The reply of the first scenario holds a `$`, and its amount is $500. */
  lemma ScenarioQuote()
    ensures Includes("$500 فقط", "$") && MatchDollarAmount("$500 فقط") == Some("$500")
  {
    var quote := "$500 فقط";
    assert quote[0] == '$' && IsDigit(quote[1]);
    IncludesChar(quote, '$');
    assert FirstDollarToken(quote) == Some(0);
    assert quote[1..] == "500" + " فقط";
    DigitRunStopsAtNonDigit("500", " فقط");
    assert MatchDollarAmount(quote) == Some("$" + "500");
    assert "$" + "500" == "$500";
  }

  /**
   * A reply that says "dollar" without a `$` still moves an idle session to
   * agreement, but the order then gets the "to be determined" price; a
   * failed generation afterwards sends the session back to idle and leaves
   * that order pending, without markup.
   */
  method FailedGeneration(request: string, reply: string, timestamp: nat, date: string)
    returns (finalStep: AppStep, order: SiteOrder, orderCount: nat)
    requires !IsBlank(request) && !Includes(request, "$")
    requires !Includes(reply, "$") && Includes(reply, DollarWord)
    ensures finalStep == Idle && orderCount == 1
    ensures order.id == OrderId(timestamp) && order.requirements == request
    ensures order.price == Some(PriceTbd)
    ensures order.status == Pending && order.htmlContent == None
  {
    var db := new DatabaseService([], None, None);
    var session := new ChatSession();
    session.HandleSend(Some(request), Replied(reply, []));
    var msgs := session.messages;
    GreetingHasNoDollar();
    assert FirstDollarMessage(msgs) == None;
    SendAddsOneRequirement([GreetingMessage()], request, Replied(reply, []));
    assert UserContents([GreetingMessage()]) == [];
    session.ConfirmAgreementAndSaveToDB(db, timestamp, date);
    session.HandlePaymentAndGenerate(db, GenerationFailed);
    finalStep := session.step;
    var orders := db.GetOrders();
    orderCount := |orders|;
    order := orders[0];
  }
}
