/**
  The chatbot generator component's conversation state, held in fields that
  its handlers update in place. Each method is specified by a transition in
  ChatMachine, where its properties are proved: HandleFeatureToggle by
  ToggleFeature, InitializeChat by Initialize, HandleAIResponse by Respond,
  CompleteResponse by Complete and HandleSendMessage by Send.
 */
module Conversation {
  import opened Optional
  import opened JsString
  import opened ChatConfig
  import opened Transcript
  import opened Features
  import opened Welcome
  import opened Payload
  import opened Replies
  import opened ChatMachine

  class ChatSession {
    var config: Config
    var chatHistory: seq<Entry>
    var userInput: string
    var showPreview: bool
    var isGenerating: bool

    /** The component's state as a value. */
    function State(): ChatState
      reads this
    {
      ChatState(config, chatHistory, userInput, showPreview, isGenerating)
    }

    /** The state the component mounts with; the API key comes from the build environment. */
    constructor (apiKey: string)
      ensures State() == Start(apiKey)
    {
      config := DefaultConfig(apiKey);
      chatHistory := [];
      userInput := "";
      showPreview := false;
      isGenerating := false;
    }

    method HandleFeatureToggle(featureId: FeatureId)
      modifies this
      ensures State() == ToggleFeature(old(State()), featureId)
    {
      config := config.(features := Toggle(config.features, featureId));
    }

    method InitializeChat()
      modifies this
      ensures State() == Initialize(old(State()))
    {
      var welcomeMsg := WelcomeMessage(config);
      chatHistory := [Entry(Bot, welcomeMsg)];
      showPreview := true;
    }

    /** The synchronous part of `handleAIResponse`; `captured` is the transcript its closure saw. */
    method HandleAIResponse(userMessage: string, captured: seq<Entry>) returns (request: Option<Payload>)
      modifies this
      ensures Step(State(), request) == Respond(old(State()), userMessage, captured)
    {
      if IsBlank(config.apiKey) {
        chatHistory := chatHistory + [Entry(Bot, MissingKeyText)];
        return None;
      }
      isGenerating := true;
      request := Some(BuildPayload(config, captured, userMessage));
    }

    /** The part of `handleAIResponse` that runs once the call has completed. */
    method CompleteResponse(outcome: Outcome)
      modifies this
      ensures State() == Complete(old(State()), outcome)
    {
      chatHistory := chatHistory + [Entry(Bot, ReplyText(outcome))];
      isGenerating := false;
    }

    method HandleSendMessage() returns (request: Option<Payload>)
      modifies this
      ensures Step(State(), request) == Send(old(State()))
    {
      ghost var before := State();
      if IsBlank(userInput) || isGenerating {
        return None;
      }
      var message := userInput;
      var captured := chatHistory;
      chatHistory := chatHistory + [Entry(User, message)];
      ghost var appended := State();
      request := HandleAIResponse(message, captured);
      ghost var responded := Respond(appended, message, captured);
      userInput := "";
      assert Send(before) == Step(responded.state.(userInput := ""), responded.request);
    }
  }

  /**
    A session in the order a user drives it: the preview starts, a message
    goes out, a second one is refused while the first is in flight, and the
    rate-limit error comes back as one bot entry.
   */
  method RateLimitedSession()
  {
    var session := new ChatSession("gsk-demo");
    session.InitializeChat();
    session.userInput := "Hi";
    var first := session.HandleSendMessage();
    assert !IsBlank("gsk-demo") by { assert "gsk-demo"[0] == 'g' && !IsJsWhitespace('g'); }
    assert !IsBlank("Hi") by { assert "Hi"[0] == 'H' && !IsJsWhitespace('H'); }
    assert first.Some? && session.isGenerating;
    session.userInput := "Anyone there?";
    var second := session.HandleSendMessage();
    assert second == None;
    session.CompleteResponse(HttpError(429, "rate limited"));
    RateLimitedScenario();
    assert session.chatHistory[|session.chatHistory| - 1] == Entry(Bot, "⚠️ Error: API 429: rate limited");
    assert |session.chatHistory| == 3 && !session.isGenerating;
  }
}
