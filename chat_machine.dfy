/**
  The preview conversation as a state machine over values: the component's
  chat state, and one transition per handler. Each handler runs as one atomic
  step; the network call between issuing a request and its completion is the
  only place where other steps can come in.
 */
module ChatMachine {
  import opened Optional
  import opened JsString
  import opened ChatConfig
  import opened Transcript
  import opened Features
  import opened Welcome
  import opened Payload
  import opened Replies

  datatype ChatState = ChatState(
    config: Config,
    chatHistory: seq<Entry>,
    userInput: string,
    showPreview: bool,
    isGenerating: bool)

  /** The state after one step, and the completion request it issued, if any. */
  datatype Step = Step(state: ChatState, request: Option<Payload>)

  /** The state the component mounts with: default configuration, nothing typed, no transcript, nothing in flight. */
  function Start(apiKey: string): (s: ChatState)
    ensures s.config == DefaultConfig(apiKey)
    ensures s.config.apiKey == apiKey && s.config.features == []
    ensures s.chatHistory == [] && s.userInput == "" && !s.showPreview && !s.isGenerating
  {
    ChatState(DefaultConfig(apiKey), [], "", false, false)
  }

  /** `handleFeatureToggle`. */
  function ToggleFeature(s: ChatState, id: FeatureId): (r: ChatState)
    ensures id in r.config.features <==> id !in s.config.features
    ensures forall x :: x != id ==> (x in r.config.features <==> x in s.config.features)
    ensures r == s.(config := s.config.(features := r.config.features))
  {
    s.(config := s.config.(features := Toggle(s.config.features, id)))
  }

  /** `initializeChat`: the transcript restarts from the welcome message and the preview opens. */
  function Initialize(s: ChatState): (r: ChatState)
    ensures r.chatHistory == [Entry(Bot, WelcomeMessage(s.config))] && r.showPreview
    ensures Greeting(s.config.tone) <= r.chatHistory[0].text
    ensures r == s.(chatHistory := r.chatHistory, showPreview := true)
  {
    s.(chatHistory := [Entry(Bot, WelcomeMessage(s.config))], showPreview := true)
  }

  /**
    The synchronous part of `handleAIResponse`: without an API key, one bot
    entry saying so; otherwise the in-flight flag goes up and the request is
    issued. `captured` is the transcript the handler closed over, which does
    not yet hold the user's new entry.
   */
  function Respond(s: ChatState, userMessage: string, captured: seq<Entry>): (r: Step)
    ensures r.request.Some? <==> !IsBlank(s.config.apiKey)
    ensures r.request.None? ==> r.state.chatHistory == s.chatHistory + [Entry(Bot, MissingKeyText)]
    ensures r.request.Some? ==> r.state.isGenerating && r.state.chatHistory == s.chatHistory
    ensures r.request.Some? ==> |r.request.value.messages| == |captured| + 2
    ensures r.request.Some? ==> r.request.value == BuildPayload(s.config, captured, userMessage)
    ensures r.request.None? ==> r.state == s.(chatHistory := s.chatHistory + [Entry(Bot, MissingKeyText)])
    ensures r.state.config == s.config && r.state.userInput == s.userInput && r.state.showPreview == s.showPreview
  {
    if IsBlank(s.config.apiKey) then
      Step(s.(chatHistory := s.chatHistory + [Entry(Bot, MissingKeyText)]), None)
    else
      Step(s.(isGenerating := true), Some(BuildPayload(s.config, captured, userMessage)))
  }

  /** The rest of `handleAIResponse`, once the call has completed one way or another. */
  function Complete(s: ChatState, o: Outcome): (r: ChatState)
    ensures s.chatHistory < r.chatHistory && |r.chatHistory| == |s.chatHistory| + 1
    ensures r.chatHistory[|s.chatHistory|] == Entry(Bot, ReplyText(o)) && !r.isGenerating
    ensures r == s.(chatHistory := r.chatHistory, isGenerating := false)
  {
    s.(chatHistory := s.chatHistory + [Entry(Bot, ReplyText(o))], isGenerating := false)
  }

  /** `handleSendMessage`. */
  function Send(s: ChatState): (r: Step)
    ensures r.request.Some? ==> !IsBlank(s.userInput) && !s.isGenerating && r.state.isGenerating
    ensures s.chatHistory <= r.state.chatHistory && r.state.config == s.config
  {
    if IsBlank(s.userInput) || s.isGenerating then Step(s, None)
    else
      var appended := s.(chatHistory := s.chatHistory + [Entry(User, s.userInput)]);
      var step := Respond(appended, s.userInput, s.chatHistory);
      Step(step.state.(userInput := ""), step.request)
  }

  /** A send changes nothing, and issues nothing, exactly when the input is blank or a call is in flight. */
  lemma SendGuard(s: ChatState)
    ensures Send(s).state == s <==> IsBlank(s.userInput) || s.isGenerating
    ensures (IsBlank(s.userInput) || s.isGenerating) ==> Send(s).request == None
  {
    if !(IsBlank(s.userInput) || s.isGenerating) {
      assert |Send(s).state.chatHistory| > |s.chatHistory|;
    }
  }

  /**
    An accepted send appends exactly one user entry with the input as typed
    (not trimmed) and clears the input. Without an API key it then appends
    exactly one bot entry saying so and issues nothing, leaving the in-flight
    flag down; with a key it raises the flag and issues one request.
   */
  lemma SendAccepted(s: ChatState)
    requires !IsBlank(s.userInput) && !s.isGenerating
    ensures var t := Send(s).state;
      t.config == s.config && t.showPreview == s.showPreview && t.userInput == ""
      && |t.chatHistory| > |s.chatHistory| && t.chatHistory[..|s.chatHistory| + 1] == s.chatHistory + [Entry(User, s.userInput)]
    ensures IsBlank(s.config.apiKey) ==>
      Send(s).request == None && !Send(s).state.isGenerating
      && Send(s).state.chatHistory == s.chatHistory + [Entry(User, s.userInput), Entry(Bot, MissingKeyText)]
    ensures !IsBlank(s.config.apiKey) ==>
      Send(s).request.Some? && Send(s).state.isGenerating
      && Send(s).state.chatHistory == s.chatHistory + [Entry(User, s.userInput)]
  {
    var t := Send(s).state;
    if IsBlank(s.config.apiKey) {
      assert t.chatHistory == s.chatHistory + [Entry(User, s.userInput)] + [Entry(Bot, MissingKeyText)];
    }
  }

  /** A send that issues a request passed both guards, found a key, and left only the user entry behind. */
  lemma SendIssued(s: ChatState)
    requires Send(s).request.Some?
    ensures !IsBlank(s.userInput) && !s.isGenerating && !IsBlank(s.config.apiKey)
    ensures Send(s).state == s.(chatHistory := s.chatHistory + [Entry(User, s.userInput)], userInput := "", isGenerating := true)
  {
  }

  /** Mapping a transcript with one more entry maps that entry last. */
  lemma {:induction false} HistoryMessagesSnoc(h: seq<Entry>, e: Entry)
    ensures HistoryMessages(h + [e]) == HistoryMessages(h) + [ToMessage(e)]
  {
    if h != [] {
      assert (h + [e])[1..] == h[1..] + [e];
      HistoryMessagesSnoc(h[1..], e);
      assert HistoryMessages(h + [e]) == [ToMessage(h[0])] + (HistoryMessages(h[1..]) + [ToMessage(e)]);
    } else {
      assert h + [e] == [e];
    }
  }

  /**
    The request a send issues is the system directive followed by the updated
    transcript, mapped entry by entry: the new user message appears once, as
    the last message, because the handler reads the transcript it captured
    before the user entry was appended.
   */
  lemma SendRequestMirrorsTranscript(s: ChatState)
    requires Send(s).request.Some?
    ensures var p := Send(s).request.value;
      p.messages == [Message(SystemRole, SystemDirective(s.config))] + HistoryMessages(Send(s).state.chatHistory)
      && p.messages[|p.messages| - 1] == Message(UserRole, s.userInput)
      && |p.messages| == |Send(s).state.chatHistory| + 1
  {
    var p := Send(s).request.value;
    var e := Entry(User, s.userInput);
    SendIssued(s);
    HistoryMessagesSnoc(s.chatHistory, e);
    assert p.messages == [Message(SystemRole, SystemDirective(s.config))] + HistoryMessages(s.chatHistory) + [ToMessage(e)];
  }

  /** While a request is in flight, a second send issues nothing and changes nothing, whatever is typed. */
  lemma InFlightGuard(s: ChatState, typed: string)
    requires Send(s).request.Some?
    ensures var t := Send(s).state.(userInput := typed);
      Send(t).request == None && Send(t).state == t
  {
  }

  /**
    A completion, success or error, appends exactly one bot entry and lowers
    the in-flight flag, so after a send and its completion the transcript has
    grown by the user's entry and the reply, and a new send can go out.
   */
  lemma SendThenComplete(s: ChatState, o: Outcome)
    requires Send(s).request.Some?
    ensures var t := Complete(Send(s).state, o);
      t.chatHistory == s.chatHistory + [Entry(User, s.userInput), Entry(Bot, ReplyText(o))]
      && !t.isGenerating && t.userInput == "" && t.config == s.config
  {
    SendIssued(s);
    var sent := Send(s).state;
    assert sent.chatHistory == s.chatHistory + [Entry(User, s.userInput)];
    assert Complete(sent, o).chatHistory == sent.chatHistory + [Entry(Bot, ReplyText(o))];
  }

  /** Sends and completions only ever append to the transcript. */
  lemma TranscriptAppendOnly(s: ChatState, o: Outcome)
    ensures s.chatHistory <= Send(s).state.chatHistory
    ensures s.chatHistory <= Complete(s, o).chatHistory
  {
    if !(IsBlank(s.userInput) || s.isGenerating) {
      SendAccepted(s);
    }
  }

  /** Starting the preview leaves exactly one bot entry, the welcome message, and shows the preview. */
  lemma InitializeSeedsWelcome(s: ChatState)
    ensures |Initialize(s).chatHistory| == 1
    ensures Initialize(s).chatHistory[0].sender == Bot
    ensures Initialize(s).chatHistory[0].text == WelcomeMessage(s.config)
    ensures Initialize(s).showPreview && Initialize(s).isGenerating == s.isGenerating
  {
  }

  /**
    Restarting the preview while a request is in flight does not cancel it:
    its late reply lands in the fresh transcript, right after the welcome.
   */
  lemma LateReplyAfterRestart(s: ChatState, o: Outcome)
    requires Send(s).request.Some?
    ensures Complete(Initialize(Send(s).state), o).chatHistory
      == [Entry(Bot, WelcomeMessage(s.config)), Entry(Bot, ReplyText(o))]
  {
    SendIssued(s);
  }
}
