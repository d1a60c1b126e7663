/** The welcome message that seeds a preview transcript. */
module Welcome {
  import opened JsString
  import opened ChatConfig

  const FriendlyGreeting := "👋 Hi there!"
  const PlainGreeting := "Hello!"

  function Greeting(t: Tone): string {
    if t == Friendly then FriendlyGreeting else PlainGreeting
  }

  /** The company name shown in the leads template: "our site" when none was entered. */
  function CompanyShown(companyName: string): string {
    OrDefault(companyName, "our site")
  }

  const SupportText := " I'm here to help you. What can I assist you with today?"
  const LeadsOpening := " Welcome to "
  const LeadsClosing := "! I'd love to learn how we can help you."
  const FaqText := " Have questions? I'm here to help! Feel free to ask me anything."

  /** `generateWelcomeMessage`: a greeting chosen by tone, then a text chosen by purpose. */
  function WelcomeMessage(c: Config): (r: string)
    ensures Greeting(c.tone) <= r && |r| > |Greeting(c.tone)|
  {
    var greeting := Greeting(c.tone);
    match c.purpose
    case Support => greeting + SupportText
    case Leads => greeting + LeadsOpening + CompanyShown(c.companyName) + LeadsClosing
    case Faq => greeting + FaqText
  }

  /** The message opens with the wave greeting exactly when the tone is friendly, and with "Hello!" otherwise. */
  lemma WelcomeGreeting(c: Config)
    ensures FriendlyGreeting <= WelcomeMessage(c) <==> c.tone == Friendly
    ensures PlainGreeting <= WelcomeMessage(c) <==> c.tone == Professional
  {
    var r := WelcomeMessage(c);
    assert Greeting(c.tone) <= r;
    assert r[0] == Greeting(c.tone)[0];
    assert FriendlyGreeting[0] != PlainGreeting[0];
  }

  /** For lead generation the company name, or "our site", is embedded verbatim right after "Welcome to ". */
  lemma WelcomeEmbedsCompany(c: Config)
    requires c.purpose == Leads
    ensures OccursAt(CompanyShown(c.companyName), WelcomeMessage(c), |Greeting(c.tone)| + |LeadsOpening|)
    ensures c.companyName != "" ==> Occurs(c.companyName, WelcomeMessage(c))
  {
    OccursBetween(Greeting(c.tone) + LeadsOpening, CompanyShown(c.companyName), LeadsClosing);
  }

  /**
    The message depends on the tone, the purpose and, for lead generation
    only, the company name shown: with the injectivity below, there are
    exactly six messages for a given company name.
   */
  lemma WelcomeDependsOnlyOn(c1: Config, c2: Config)
    requires c1.tone == c2.tone && c1.purpose == c2.purpose
    requires c1.purpose == Leads ==> CompanyShown(c1.companyName) == CompanyShown(c2.companyName)
    ensures WelcomeMessage(c1) == WelcomeMessage(c2)
  {
  }

  /** Different tones or purposes never give the same message. */
  lemma WelcomeIdentifiesTemplate(c1: Config, c2: Config)
    requires WelcomeMessage(c1) == WelcomeMessage(c2)
    ensures c1.tone == c2.tone && c1.purpose == c2.purpose
  {
    WelcomeGreeting(c1);
    WelcomeGreeting(c2);
    PurposeTell(c1);
    PurposeTell(c2);
  }

  /** The last two characters tell the purpose apart: "y?" for support, "u." for leads, "g." for the FAQ. */
  lemma PurposeTell(c: Config)
    ensures |WelcomeMessage(c)| >= 2
    ensures WelcomeMessage(c)[|WelcomeMessage(c)| - 2..] ==
      match c.purpose case Support => "y?" case Leads => "u." case Faq => "g."
  {
    var r := WelcomeMessage(c);
    var tail := match c.purpose case Support => SupportText case Leads => LeadsClosing case Faq => FaqText;
    assert r == r[..|r| - |tail|] + tail;
    assert r[|r| - 2..] == tail[|tail| - 2..];
  }

  lemma SupportFriendlyScenario(c: Config)
    requires c.purpose == Support && c.tone == Friendly && c.companyName == "Acme" && c.chatbotName == "Alex"
    ensures WelcomeMessage(c) == "👋 Hi there!" + " I'm here to help you. What can I assist you with today?"
  {
  }

  lemma LeadsProfessionalScenario(c: Config)
    requires c.purpose == Leads && c.tone == Professional && c.companyName == "Acme"
    ensures WelcomeMessage(c) == "Hello!" + " Welcome to " + "Acme" + "! I'd love to learn how we can help you."
  {
  }
}
