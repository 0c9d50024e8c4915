/** The chat panel: a transcript, a draft and a loading flag, driving the
    service's module-level chat session. A send is modelled as one atomic
    step from the click to the settled call: while the call is pending the
    panel's input and button are disabled. Leaving the panel and sending from
    a fresh one while a call is still pending is not modelled. */
module ChatBotComponent {
  import opened Wrappers
  import opened Types
  import opened JsText
  import opened GeminiService

  const ERROR_NOTICE := "Sorry, I encountered an error connecting to the AI."

  /** The component's three state hooks. */
  datatype ChatView = ChatView(messages: seq<ChatMessage>, input: string, isLoading: bool)

  /** The view together with the service's `chatSession`, which belongs to the
      module and outlives the component. */
  datatype ChatState = ChatState(view: ChatView, session: Option<ChatSession>)

  /** The model entry a settled call adds: the service's reply, or the fixed
      notice when the call threw. Never empty. */
  function BotText(outcome: Outcome<SendResponse>): (t: string)
    ensures t != ""
    ensures outcome.Returned? ==> t == ReplyText(outcome.value.text)
    ensures outcome.Threw? ==> t == ERROR_NOTICE
  {
    if outcome.Returned? then ReplyText(outcome.value.text) else ERROR_NOTICE
  }

  /** `handleSend`, from the click to the settled call, with `outcome`
      standing for how the SDK's `sendMessage` settled. */
  function Send(st: ChatState, outcome: Outcome<SendResponse>): (r: ChatState)
    // a blank draft (empty or whitespace only) changes nothing and calls nothing
    ensures Blank(st.view.input) ==> r == st
    // otherwise the draft as typed and then the reply are appended, the draft
    // is cleared, loading is over, and the service was given the transcript
    // as it stood before this turn
    ensures !Blank(st.view.input) ==>
      r.view == ChatView(st.view.messages + [ChatMessage(User, st.view.input), ChatMessage(Model, BotText(outcome))], "", false)
      && r.session == SendMessage(st.session, st.view.input, st.view.messages, outcome).after
  {
    if Blank(st.view.input) then st
    else
      var call := SendMessage(st.session, st.view.input, st.view.messages, outcome);
      var botText := if call.reply.Success? then call.reply.value else ERROR_NOTICE;
      ChatState(
        ChatView(st.view.messages + [ChatMessage(User, st.view.input), ChatMessage(Model, botText)], "", false),
        call.after)
  }

  /** A send of a non-blank draft, spelled out field by field. */
  lemma SendAppendsExchange(st: ChatState, outcome: Outcome<SendResponse>)
    requires !Blank(st.view.input)
    ensures var call := SendMessage(st.session, st.view.input, st.view.messages, outcome);
      Send(st, outcome) == ChatState(
        ChatView(st.view.messages + [ChatMessage(User, st.view.input),
                                     ChatMessage(Model, if call.reply.Success? then call.reply.value else ERROR_NOTICE)], "", false),
        call.after)
  {
  }

  /** The send button's enable rule: `!(isLoading || !input.trim())`. It is
      enabled exactly when the panel is idle and the draft holds a character
      that is not whitespace. */
  predicate SendEnabled(v: ChatView)
    ensures SendEnabled(v) <==> !v.isLoading && exists i :: 0 <= i < |v.input| && !IsWhitespace(v.input[i])
  {
    !v.isLoading && Trim(v.input) != []
  }

  /** The button is enabled exactly when clicking it would change something:
      when idle, a blank draft is the only thing `handleSend` ignores. */
  lemma ButtonMatchesGuard(st: ChatState, outcome: Outcome<SendResponse>)
    requires !st.view.isLoading
    ensures SendEnabled(st.view) <==> Send(st, outcome) != st
  {
    if SendEnabled(st.view) {
      assert |Send(st, outcome).view.messages| != |st.view.messages|;
    }
  }

  /** A well-formed transcript: exchanges of a non-blank user draft
      followed by a non-empty model entry. */
  predicate Alternating(messages: seq<ChatMessage>)
    decreases |messages|
  {
    messages == []
    || (|messages| >= 2
        && messages[0].role == User && !Blank(messages[0].text)
        && messages[1].role == Model && messages[1].text != ""
        && Alternating(messages[2..]))
  }

  /** Two well-formed transcripts in a row form one. */
  lemma {:induction false} AlternatingAppend(a: seq<ChatMessage>, b: seq<ChatMessage>)
    requires Alternating(a) && Alternating(b)
    ensures Alternating(a + b)
    decreases |a|
  {
    if a == [] {
      assert a + b == b;
    } else {
      AlternatingAppend(a[2..], b);
      assert (a + b)[2..] == a[2..] + b;
    }
  }

  /** The texts of the user entries, in order. */
  function UserTexts(messages: seq<ChatMessage>): seq<string> {
    if messages == [] then []
    else (if messages[0].role == User then [messages[0].text] else []) + UserTexts(messages[1..])
  }

  /** One thing the user does: type a draft, then send it. */
  datatype Turn = Turn(draft: string, outcome: Outcome<SendResponse>)

  /** The drafts of a run of turns, in order. */
  function Drafts(turns: seq<Turn>): (d: seq<string>)
    ensures |d| == |turns|
    ensures forall k :: 0 <= k < |turns| ==> d[k] == turns[k].draft
  {
    if turns == [] then [] else [turns[0].draft] + Drafts(turns[1..])
  }

  predicate NoBlankDrafts(turns: seq<Turn>) {
    forall k :: 0 <= k < |turns| ==> !Blank(turns[k].draft)
  }

  /** A turn: the draft typed into the input, then sent. */
  function Step(st: ChatState, t: Turn): ChatState {
    Send(st.(view := st.view.(input := t.draft)), t.outcome)
  }

  /** A sequence of turns, one after the other. */
  function Converse(st: ChatState, turns: seq<Turn>): ChatState
    decreases |turns|
  {
    if turns == [] then st else Converse(Step(st, turns[0]), turns[1..])
  }

  /** The entries a run of turns adds: each draft followed by its reply or
      the notice. With no blank draft they form a well-formed transcript. */
  function Exchanges(turns: seq<Turn>): (r: seq<ChatMessage>)
    ensures |r| == 2 * |turns|
    ensures NoBlankDrafts(turns) ==> Alternating(r)
  {
    if turns == [] then []
    else
      var rest := Exchanges(turns[1..]);
      var r := [ChatMessage(User, turns[0].draft), ChatMessage(Model, BotText(turns[0].outcome))] + rest;
      assert r[2..] == rest;
      assert NoBlankDrafts(turns) ==> NoBlankDrafts(turns[1..]) by {
        assert forall k :: 1 <= k < |turns| ==> turns[1..][k - 1] == turns[k];
      }
      r
  }

  /** The user entries of the exchanges are the drafts, in the order sent. */
  lemma {:induction false} ExchangesUserTexts(turns: seq<Turn>)
    ensures UserTexts(Exchanges(turns)) == Drafts(turns)
  {
    if turns != [] {
      var e := Exchanges(turns);
      ExchangesUserTexts(turns[1..]);
      assert e[1..][1..] == Exchanges(turns[1..]);
      assert UserTexts(e[1..]) == UserTexts(Exchanges(turns[1..]));
    }
  }

  /** A turn with a non-blank draft appends its exchange, and a session is
      left exactly when its call succeeded. */
  lemma StepAppendsExchange(st: ChatState, t: Turn)
    requires !Blank(t.draft)
    ensures Step(st, t).view.messages == st.view.messages + [ChatMessage(User, t.draft), ChatMessage(Model, BotText(t.outcome))]
    ensures Step(st, t).session.Some? <==> t.outcome.Returned?
  {
    var typed := st.(view := st.view.(input := t.draft));
    assert Step(st, t).session == SendMessage(typed.session, typed.view.input, typed.view.messages, t.outcome).after;
  }

  /** Running turns with non-blank drafts appends their exchanges, in order,
      and touches nothing already in the transcript. */
  lemma {:induction false} ConverseAppends(st: ChatState, turns: seq<Turn>)
    requires NoBlankDrafts(turns)
    ensures Converse(st, turns).view.messages == st.view.messages + Exchanges(turns)
    decreases |turns|
  {
    if turns != [] {
      var t := turns[0];
      var st1 := Step(st, t);
      var pair := [ChatMessage(User, t.draft), ChatMessage(Model, BotText(t.outcome))];
      StepAppendsExchange(st, t);
      assert NoBlankDrafts(turns[1..]) by {
        assert forall k :: 1 <= k < |turns| ==> turns[1..][k - 1] == turns[k];
      }
      ConverseAppends(st1, turns[1..]);
      assert Converse(st, turns) == Converse(st1, turns[1..]);
      assert Exchanges(turns) == pair + Exchanges(turns[1..]);
      AppendAssoc(st.view.messages, pair, Exchanges(turns[1..]));
    }
  }

  lemma AppendAssoc<T>(a: seq<T>, b: seq<T>, c: seq<T>)
    ensures a + b + c == a + (b + c)
  {
  }

  /** A conversation from a fresh panel: after N turns with non-blank drafts
      the transcript is 2N well-formed entries whose user entries are the
      drafts in the order they were sent. */
  lemma ConversationTranscript(session: Option<ChatSession>, turns: seq<Turn>)
    requires NoBlankDrafts(turns)
    ensures var m := Converse(ChatState(ChatView([], "", false), session), turns).view.messages;
      Alternating(m) && |m| == 2 * |turns| && UserTexts(m) == Drafts(turns)
  {
    ConverseAppends(ChatState(ChatView([], "", false), session), turns);
    ExchangesUserTexts(turns);
    assert [] + Exchanges(turns) == Exchanges(turns);
  }

  /** Turns keep any well-formed transcript well formed. */
  lemma ConversationKeepsAlternating(st: ChatState, turns: seq<Turn>)
    requires Alternating(st.view.messages) && NoBlankDrafts(turns)
    ensures Alternating(Converse(st, turns).view.messages)
  {
    ConverseAppends(st, turns);
    AlternatingAppend(st.view.messages, Exchanges(turns));
  }

  /** Running turns one more at the end is running the last one after the
      others. */
  lemma {:induction false} ConverseSnoc(st: ChatState, turns: seq<Turn>, t: Turn)
    ensures Converse(st, turns + [t]) == Step(Converse(st, turns), t)
    decreases |turns|
  {
    if turns == [] {
      assert turns + [t] == [t];
      assert Converse(st, [t]) == Converse(Step(st, t), []);
    } else {
      assert (turns + [t])[0] == turns[0];
      assert (turns + [t])[1..] == turns[1..] + [t];
      ConverseSnoc(Step(st, turns[0]), turns[1..], t);
    }
  }

  /** After a run of turns, a session is left exactly when the last turn's
      call succeeded, whatever happened before. */
  lemma SessionAfterTurns(st: ChatState, turns: seq<Turn>)
    requires NoBlankDrafts(turns)
    requires turns != []
    ensures Converse(st, turns).session.Some? <==> turns[|turns| - 1].outcome.Returned?
  {
    var init := turns[..|turns| - 1];
    var last := turns[|turns| - 1];
    assert turns == init + [last];
    ConverseSnoc(st, init, last);
    StepAppendsExchange(Converse(st, init), last);
  }

  /** After a failed turn, the next send opens a new session seeded with the
      transcript as the user sees it: the earlier entries, the failed draft
      and the error notice, in that order. */
  lemma FailureReseedsWithNotice(st: ChatState, failed: string, reason: string, next: string, outcome: Outcome<SendResponse>)
    requires !Blank(failed)
    ensures var st1 := Send(st.(view := st.view.(input := failed)), Threw(reason));
      var seed := st.view.messages + [ChatMessage(User, failed), ChatMessage(Model, ERROR_NOTICE)];
      st1.session == None
      && st1.view.messages == seed
      && SendMessage(st1.session, next, st1.view.messages, outcome).target == NewSession(seed)
      && TranscriptOf(NewSession(seed).history) == seed
  {
    var seed := st.view.messages + [ChatMessage(User, failed), ChatMessage(Model, ERROR_NOTICE)];
    SeedHistoryRoundTrip(seed);
  }

  /** A chat panel mounted over the service. */
  class ChatBot {
    var messages: seq<ChatMessage>
    var input: string
    var isLoading: bool
    /** The service module; its session survives a remount of the panel. */
    const service: ChatService

    /** Mounting: an empty transcript and draft, whatever session the
        service still holds. */
    constructor (service: ChatService)
      ensures this.service == service
      ensures messages == [] && input == "" && !isLoading
    {
      this.service := service;
      messages := [];
      input := "";
      isLoading := false;
    }

    function State(): ChatState
      reads this, service
    {
      ChatState(ChatView(messages, input, isLoading), service.chatSession)
    }

    /** The input's `onChange`. */
    method SetInput(text: string)
      modifies this
      ensures State() == old(State()).(view := old(State()).view.(input := text))
    {
      input := text;
    }

    method HandleSend(outcome: Outcome<SendResponse>)
      modifies this, service
      ensures State() == Send(old(State()), outcome)
    {
      if Blank(input) {
        return;
      }
      SendAppendsExchange(State(), outcome);
      var draft := input;
      var history := messages;
      messages := messages + [ChatMessage(User, draft)];
      input := "";
      isLoading := true;
      var reply := service.SendMessageToChat(draft, history, outcome);
      var botText := if reply.Success? then reply.value else ERROR_NOTICE;
      AppendAssoc(history, [ChatMessage(User, draft)], [ChatMessage(Model, botText)]);
      messages := messages + [ChatMessage(Model, botText)];
      isLoading := false;
    }

    /** `handleKeyDown`: Enter without Shift sends; any other key does nothing
        here (typing reaches the draft through `SetInput`). */
    method HandleKeyDown(key: string, shiftKey: bool, outcome: Outcome<SendResponse>)
      modifies this, service
      ensures key == "Enter" && !shiftKey ==> State() == Send(old(State()), outcome)
      ensures !(key == "Enter" && !shiftKey) ==> State() == old(State())
    {
      if key == "Enter" && !shiftKey {
        HandleSend(outcome);
      }
    }
  }
}
