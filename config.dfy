/**
  The generator's configuration object. Website type, purpose and tone are
  only ever set from fixed option lists, so they are enumerations here; the
  names are the option values the component interpolates into its texts.
 */
module ChatConfig {

  datatype WebsiteType = Portfolio | Ecommerce | Business
  datatype Purpose = Support | Leads | Faq
  datatype Tone = Friendly | Professional

  function WebsiteTypeName(w: WebsiteType): string {
    match w
    case Portfolio => "portfolio"
    case Ecommerce => "ecommerce"
    case Business => "business"
  }

  function PurposeName(p: Purpose): string {
    match p
    case Support => "support"
    case Leads => "leads"
    case Faq => "faq"
  }

  function ToneName(t: Tone): string {
    match t
    case Friendly => "friendly"
    case Professional => "professional"
  }

  /** A feature flag identifier, such as "appointment" or "liveChat". */
  type FeatureId = string

  /** The feature catalog offered as checkboxes. */
  const FeatureCatalog: seq<FeatureId> := ["appointment", "faq", "leadCapture", "productInfo", "liveChat"]

  datatype Config = Config(
    websiteType: WebsiteType,
    purpose: Purpose,
    tone: Tone,
    companyName: string,
    chatbotName: string,
    websiteUrl: string,
    industry: string,
    primaryColor: string,
    features: seq<FeatureId>,
    apiKey: string)

  /** The configuration a session starts with; the key comes from the build environment. */
  function DefaultConfig(apiKey: string): (c: Config)
    ensures c.websiteType == Portfolio && c.purpose == Support && c.tone == Friendly
    ensures c.primaryColor == "#007bff"
    ensures c.features == [] && c.apiKey == apiKey
    ensures c.companyName == c.chatbotName == c.websiteUrl == c.industry == ""
  {
    Config(Portfolio, Support, Friendly, "", "", "", "", "#007bff", [], apiKey)
  }
}
