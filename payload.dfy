/**
  The request body of one chat-completion call: a system directive built from
  the configuration, the prior transcript as role/content pairs, and the new
  user message last.
 */
module Payload {
  import opened JsString
  import opened ChatConfig
  import opened Transcript

  datatype Role = SystemRole | UserRole | AssistantRole

  function RoleName(r: Role): string {
    match r
    case SystemRole => "system"
    case UserRole => "user"
    case AssistantRole => "assistant"
  }

  datatype Message = Message(role: Role, content: string)

  /** The sampling temperature is a fixed 0.7; its value plays no part in the model. */
  datatype Temperature = DefaultTemperature

  datatype Payload = Payload(model: string, messages: seq<Message>, maxTokens: nat, temperature: Temperature)

  const ModelId := "llama-3.1-8b-instant"
  const MaxTokens: nat := 100
  const EmojiClause := " Use friendly emojis."
  const LengthRule := " Keep responses short (1-2 sentences)."

  predicate EndsWith(s: string, suffix: string) {
    |suffix| <= |s| && s[|s| - |suffix|..] == suffix
  }

  function NamedClause(c: Config): string {
    "named \"" + OrDefault(c.chatbotName, "Assistant") + "\""
  }

  function CompanyClause(c: Config): string {
    "Company: " + OrDefault(c.companyName, "this company") + "."
  }

  function WebsiteClause(c: Config): string {
    "Website: " + OrDefault(c.websiteUrl, "N/A") + "."
  }

  function ToneClause(c: Config): string {
    "Tone: " + ToneName(c.tone) + "."
  }

  /** The directive template as its pieces, with the defaults for empty fields filled in. */
  function DirectiveParts(c: Config): seq<string> {
    ["You are a ", PurposeName(c.purpose), " chatbot ", NamedClause(c),
     " for a ", WebsiteTypeName(c.websiteType), " website. ", CompanyClause(c),
     " ", WebsiteClause(c), " ", ToneClause(c), LengthRule]
    + (if c.tone == Friendly then [EmojiClause] else [])
  }

  /** The system directive of the preview. */
  function SystemDirective(c: Config): (r: string)
    ensures "You are a " <= r
    ensures EndsWith(r, if c.tone == Friendly then EmojiClause else LengthRule)
  {
    JoinEndsWithLast(DirectiveParts(c));
    Join(DirectiveParts(c))
  }

  /**
    The directive opens with the purpose, and names the bot ("Assistant" when
    unnamed), the website type, the company ("this company" when unnamed), the
    website ("N/A" when none), the tone and the length rule, each right after
    the template pieces before it.
   */
  lemma DirectiveFields(c: Config)
    ensures OccursAt(PurposeName(c.purpose), SystemDirective(c), |"You are a "|)
    ensures OccursAt(WebsiteTypeName(c.websiteType), SystemDirective(c), |Join(DirectiveParts(c)[..5])|)
    ensures OccursAt(LengthRule, SystemDirective(c), |Join(DirectiveParts(c)[..12])|)
    ensures OccursAt(NamedClause(c), SystemDirective(c), |Join(DirectiveParts(c)[..3])|)
    ensures OccursAt(CompanyClause(c), SystemDirective(c), |Join(DirectiveParts(c)[..7])|)
    ensures OccursAt(WebsiteClause(c), SystemDirective(c), |Join(DirectiveParts(c)[..9])|)
    ensures OccursAt(ToneClause(c), SystemDirective(c), |Join(DirectiveParts(c)[..11])|)
  {
    DirectiveHead(c);
    DirectiveClauses(c);
  }

  /** The purpose, the bot's name and the website type, in the directive's first sentence. */
  lemma DirectiveHead(c: Config)
    ensures OccursAt(PurposeName(c.purpose), SystemDirective(c), |"You are a "|)
    ensures OccursAt(WebsiteTypeName(c.websiteType), SystemDirective(c), |Join(DirectiveParts(c)[..5])|)
    ensures OccursAt(NamedClause(c), SystemDirective(c), |Join(DirectiveParts(c)[..3])|)
  {
    DirectivePurpose(c);
    var parts := DirectiveParts(c);
    JoinPartOccurs(parts, 3);
    JoinPartOccurs(parts, 5);
  }

  /** The purpose comes right after "You are a ". */
  lemma DirectivePurpose(c: Config)
    ensures OccursAt(PurposeName(c.purpose), SystemDirective(c), |"You are a "|)
  {
    var parts := DirectiveParts(c);
    var rest := Join(parts[2..]);
    assert Join(parts[1..]) == PurposeName(c.purpose) + rest;
    assert Join(parts) == "You are a " + PurposeName(c.purpose) + rest;
    OccursBetween("You are a ", PurposeName(c.purpose), rest);
  }

  /** The company, website, tone and length clauses that follow the first sentence. */
  lemma DirectiveClauses(c: Config)
    ensures OccursAt(LengthRule, SystemDirective(c), |Join(DirectiveParts(c)[..12])|)
    ensures OccursAt(CompanyClause(c), SystemDirective(c), |Join(DirectiveParts(c)[..7])|)
    ensures OccursAt(WebsiteClause(c), SystemDirective(c), |Join(DirectiveParts(c)[..9])|)
    ensures OccursAt(ToneClause(c), SystemDirective(c), |Join(DirectiveParts(c)[..11])|)
  {
    var parts := DirectiveParts(c);
    JoinPartOccurs(parts, 7);
    JoinPartOccurs(parts, 9);
    JoinPartOccurs(parts, 11);
    JoinPartOccurs(parts, 12);
  }

  /** The emoji clause closes the directive exactly when the tone is friendly. */
  lemma DirectiveEmojiClause(c: Config)
    ensures EndsWith(SystemDirective(c), EmojiClause) <==> c.tone == Friendly
  {
    var parts := DirectiveParts(c);
    var r := SystemDirective(c);
    JoinEndsWithLast(parts);
    if c.tone != Friendly {
      assert parts[|parts| - 1] == LengthRule;
      assert r[|r| - 2] == LengthRule[|LengthRule| - 2] == ')';
      assert EmojiClause[|EmojiClause| - 2] == 's';
    }
  }

  /**
    The whole directive for a professional support bot on a business site with
    no name, company or URL entered: every clause, in template order.
   */
  lemma DirectiveScenario(c: Config)
    requires c.purpose == Support && c.websiteType == Business && c.tone == Professional
    requires c.chatbotName == "" && c.companyName == "" && c.websiteUrl == ""
    ensures SystemDirective(c) ==
      "You are a support chatbot " + "named \"Assistant\" for a business website. "
      + "Company: this company." + " Website: N/A." + " Tone: professional."
      + " Keep responses short (1-2 sentences)."
  {
    var p1 := ["You are a ", "support", " chatbot "];
    var p2 := ["named \"Assistant\"", " for a ", "business", " website. "];
    var p3 := ["Company: this company.", " ", "Website: N/A.", " ", "Tone: professional."];
    var p4 := [LengthRule];
    ScenarioClauses(c);
    assert DirectiveParts(c) == p1 + p2 + p3 + p4;
    JoinConcat(p1 + p2 + p3, p4);
    JoinConcat(p1 + p2, p3);
    JoinConcat(p1, p2);
    ScenarioGroups();
  }

  lemma ScenarioClauses(c: Config)
    requires c.tone == Professional && c.chatbotName == "" && c.companyName == "" && c.websiteUrl == ""
    ensures NamedClause(c) == "named \"Assistant\""
    ensures CompanyClause(c) == "Company: this company."
    ensures WebsiteClause(c) == "Website: N/A."
    ensures ToneClause(c) == "Tone: professional."
  {
  }

  lemma ScenarioGroups()
    ensures Join(["You are a ", "support", " chatbot "]) == "You are a support chatbot "
    ensures Join(["named \"Assistant\"", " for a ", "business", " website. "]) == "named \"Assistant\" for a business website. "
    ensures Join(["Company: this company.", " ", "Website: N/A.", " ", "Tone: professional."])
      == "Company: this company." + " Website: N/A." + " Tone: professional."
    ensures Join([LengthRule]) == LengthRule
  {
    OpeningGroup();
    NamedGroup();
    ClauseGroup();
    assert Join([LengthRule]) == LengthRule + Join([]);
  }

  lemma OpeningGroup()
    ensures Join(["You are a ", "support", " chatbot "]) == "You are a support chatbot "
  {
    var g := ["You are a ", "support", " chatbot "];
    assert Join(g[2..]) == " chatbot " + Join([]);
    assert Join(g[1..]) == "support" + " chatbot ";
    assert Join(g) == "You are a " + "support chatbot ";
  }

  lemma NamedGroup()
    ensures Join(["named \"Assistant\"", " for a ", "business", " website. "]) == "named \"Assistant\" for a business website. "
  {
    var g := ["named \"Assistant\"", " for a ", "business", " website. "];
    assert Join(g[3..]) == " website. " + Join([]);
    assert Join(g[2..]) == "business" + " website. ";
    assert Join(g[1..]) == " for a " + "business website. ";
    assert Join(g) == "named \"Assistant\"" + " for a business website. ";
  }

  lemma ClauseGroup()
    ensures Join(["Company: this company.", " ", "Website: N/A.", " ", "Tone: professional."])
      == "Company: this company." + " Website: N/A." + " Tone: professional."
  {
    var g := ["Company: this company.", " ", "Website: N/A.", " ", "Tone: professional."];
    assert Join(g[4..]) == "Tone: professional." + Join([]);
    assert Join(g[3..]) == " " + "Tone: professional.";
    assert Join(g[2..]) == "Website: N/A." + " Tone: professional.";
    assert Join(g[1..]) == " Website: N/A." + " Tone: professional.";
  }

  /** The transcript-to-request mapping: user entries become "user" messages, everything else "assistant". */
  function ToMessage(e: Entry): (m: Message)
    ensures m.role != SystemRole && ToEntry(m) == e
  {
    Message(if e.sender == User then UserRole else AssistantRole, e.text)
  }

  /** The inverse mapping, used to state that nothing of the transcript is lost. */
  function ToEntry(m: Message): Entry {
    Entry(if m.role == UserRole then User else Bot, m.content)
  }

  /** `chatHistory.map(...)`: one message per entry, in order. */
  function HistoryMessages(h: seq<Entry>): (r: seq<Message>)
    ensures |r| == |h|
    ensures forall i :: 0 <= i < |h| ==>
      r[i].content == h[i].text && r[i].role != SystemRole && (r[i].role == UserRole <==> h[i].sender == User)
  {
    if h == [] then [] else [ToMessage(h[0])] + HistoryMessages(h[1..])
  }

  function Entries(ms: seq<Message>): seq<Entry> {
    if ms == [] then [] else [ToEntry(ms[0])] + Entries(ms[1..])
  }

  /** On the wire, a transcript message's role is "user" for a user entry and "assistant" for any other. */
  lemma HistoryRoleNames(h: seq<Entry>)
    ensures forall i :: 0 <= i < |h| ==>
      RoleName(HistoryMessages(h)[i].role) == (if h[i].sender == User then "user" else "assistant")
  {
    forall i | 0 <= i < |h|
      ensures RoleName(HistoryMessages(h)[i].role) == (if h[i].sender == User then "user" else "assistant")
    {
      assert HistoryMessages(h)[i].role != SystemRole;
    }
  }

  /** Mapping the transcript to messages loses nothing: mapping back gives the transcript. */
  lemma {:induction false} HistoryRoundTrip(h: seq<Entry>)
    ensures Entries(HistoryMessages(h)) == h
  {
    if h != [] {
      HistoryRoundTrip(h[1..]);
      var ms := HistoryMessages(h);
      assert ms[1..] == HistoryMessages(h[1..]);
      assert ToEntry(ms[0]) == h[0];
    }
  }

  /** The `messages` list: system directive first, the transcript in order, the new user message last. */
  function BuildMessages(c: Config, history: seq<Entry>, userMessage: string): (r: seq<Message>)
    ensures |r| == |history| + 2
    ensures r[0] == Message(SystemRole, SystemDirective(c))
    ensures r[|r| - 1] == Message(UserRole, userMessage)
    ensures forall i :: 0 <= i < |history| ==>
      r[i + 1].content == history[i].text && r[i + 1].role != SystemRole
      && (r[i + 1].role == UserRole <==> history[i].sender == User)
    ensures Entries(r[1..|r| - 1]) == history
  {
    var mapped := HistoryMessages(history);
    var r := [Message(SystemRole, SystemDirective(c))] + mapped + [Message(UserRole, userMessage)];
    assert r[1..|r| - 1] == mapped;
    HistoryRoundTrip(history);
    r
  }

  function BuildPayload(c: Config, history: seq<Entry>, userMessage: string): (p: Payload)
    ensures p.model == ModelId && p.maxTokens == 100 && p.temperature == DefaultTemperature
    ensures p.messages == BuildMessages(c, history, userMessage)
  {
    Payload(ModelId, BuildMessages(c, history, userMessage), MaxTokens, DefaultTemperature)
  }

  /** Only purpose, website type, tone and the three named text fields shape the directive. */
  lemma SystemDirectiveIgnoresOtherFields(c1: Config, c2: Config)
    requires c1.purpose == c2.purpose && c1.websiteType == c2.websiteType && c1.tone == c2.tone
    requires c1.chatbotName == c2.chatbotName && c1.companyName == c2.companyName && c1.websiteUrl == c2.websiteUrl
    ensures SystemDirective(c1) == SystemDirective(c2)
  {
  }
}
