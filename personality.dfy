/** The chatbot personality: a role from a website-type by purpose table, and a tone modifier. */
module Personality {
  import opened ChatConfig

  datatype Personality = Personality(role: string, tone: string)

  /** The 3 by 3 role table, indexed by website type, then purpose: each cell ends in a full stop. */
  function RoleDescription(w: WebsiteType, p: Purpose): (r: string)
    ensures |r| > 0 && r[|r| - 1] == '.'
  {
    match w
    case Portfolio =>
      (match p
       case Support => "I help visitors learn about my owner's work and connect with them."
       case Leads => "I help potential clients get in touch and schedule consultations."
       case Faq => "I answer questions about services, experience, and availability.")
    case Ecommerce =>
      (match p
       case Support => "I assist customers with orders, shipping, and product questions."
       case Leads => "I help new customers discover products and special offers."
       case Faq => "I provide information about products, policies, and store details.")
    case Business =>
      (match p
       case Support => "I help clients with inquiries and support requests."
       case Leads => "I qualify leads and schedule meetings with the sales team."
       case Faq => "I answer common questions about our services and company.")
  }

  /** The tone table: each entry ends in a full stop. */
  function ToneModifier(t: Tone): (r: string)
    ensures |r| > 0 && r[|r| - 1] == '.'
  {
    match t
    case Friendly => "I communicate in a warm, approachable way with emojis when appropriate."
    case Professional => "I maintain a polished, business-appropriate tone."
  }

  /**
    `generateChatbotPersonality`: the role can be read back to the website
    type and purpose it was chosen by, and the tone text tells the tone.
   */
  function GenerateChatbotPersonality(c: Config): (r: Personality)
    ensures |r.role| >= 2 && RoleCell(r.role) == (c.websiteType, c.purpose)
    ensures r.tone == ToneModifier(Friendly) <==> c.tone == Friendly
  {
    RoleCellInvertsTable(c.websiteType, c.purpose);
    Personality(RoleDescription(c.websiteType, c.purpose), ToneModifier(c.tone))
  }

  /** Only website type, purpose and tone matter: no other configuration field affects the personality. */
  lemma PersonalityDependsOnlyOnSelectors(c1: Config, c2: Config)
    ensures c1.websiteType == c2.websiteType && c1.purpose == c2.purpose
            ==> GenerateChatbotPersonality(c1).role == GenerateChatbotPersonality(c2).role
    ensures c1.tone == c2.tone
            ==> GenerateChatbotPersonality(c1).tone == GenerateChatbotPersonality(c2).tone
  {
  }

  /**
    Reads website type and purpose back from a role text, by its length and
    its next-to-last character; it is a left inverse of the table, so no two
    cells share a text.
   */
  function RoleCell(role: string): (WebsiteType, Purpose)
    requires |role| >= 2
  {
    var tell := role[|role| - 2];
    if |role| == 66 then (if tell == 'm' then (Portfolio, Support) else (Ecommerce, Faq))
    else if |role| == 65 then (Portfolio, Leads)
    else if |role| == 64 then (if tell == 'y' then (Portfolio, Faq) else (Ecommerce, Support))
    else if |role| == 58 then (if tell == 's' then (Ecommerce, Leads) else (Business, Leads))
    else if |role| == 51 then (Business, Support)
    else (Business, Faq)
  }

  lemma PortfolioRowInverse(p: Purpose)
    ensures |RoleDescription(Portfolio, p)| >= 2 && RoleCell(RoleDescription(Portfolio, p)) == (Portfolio, p)
  {
    match p { case Support => case Leads => case Faq => }
  }

  lemma EcommerceRowInverse(p: Purpose)
    ensures |RoleDescription(Ecommerce, p)| >= 2 && RoleCell(RoleDescription(Ecommerce, p)) == (Ecommerce, p)
  {
    match p { case Support => case Leads => case Faq => }
  }

  lemma BusinessRowInverse(p: Purpose)
    ensures |RoleDescription(Business, p)| >= 2 && RoleCell(RoleDescription(Business, p)) == (Business, p)
  {
    match p { case Support => case Leads => case Faq => }
  }

  lemma RoleCellInvertsTable(w: WebsiteType, p: Purpose)
    ensures |RoleDescription(w, p)| >= 2 && RoleCell(RoleDescription(w, p)) == (w, p)
  {
    match w {
      case Portfolio => PortfolioRowInverse(p);
      case Ecommerce => EcommerceRowInverse(p);
      case Business => BusinessRowInverse(p);
    }
  }

  /** Every cell of the table is different, so the role determines website type and purpose, and the tone text the tone. */
  lemma PersonalityIdentifiesSelectors(c1: Config, c2: Config)
    ensures GenerateChatbotPersonality(c1).role == GenerateChatbotPersonality(c2).role
            ==> c1.websiteType == c2.websiteType && c1.purpose == c2.purpose
    ensures GenerateChatbotPersonality(c1).tone == GenerateChatbotPersonality(c2).tone
            ==> c1.tone == c2.tone
  {
    RoleCellInvertsTable(c1.websiteType, c1.purpose);
    RoleCellInvertsTable(c2.websiteType, c2.purpose);
    assert |ToneModifier(Friendly)| != |ToneModifier(Professional)|;
  }
}
