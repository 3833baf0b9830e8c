/**
 * Aqua AI, the chat assistant (`src/components/AIAssistant.tsx`): a keyword
 * intent router over the lower-cased input, a fixed reply for each intent, and
 * the append-only transcript the chat window shows.
 */
module AIAssistant {
  import opened Wrappers
  import opened Text

  // ---------------------------------------------------------------------------
  // Replies

  const Greeting: string :=
    "Hello! I'm Aqua AI, your digital water guardian. I can help you understand pollution metrics, draft complaint messages, explain safety measures, and answer questions about water quality. How can I assist you today?"

  const PollutionLevelReply: string :=
    "Based on recent data, pollution levels vary across regions. I can see from our latest reports that areas with high plastic density (70+) require immediate attention. Would you like me to analyze a specific location? Just provide the coordinates or location name."

  /** The placeholders the complaint template leaves for the user to fill in. */
  const LocationSlot: string := "[Location]"
  const AuthoritySlot: string := "[Authority Name]"
  const DateSlot: string := "[Date]"
  const NameSlot: string := "[Your Name]"

  const ComplaintOpening: string := "Here's a template you can use:\n\nSubject: Urgent: Pollution Report at "
  const ComplaintSalutation: string := "\n\nDear "
  const ComplaintIncident: string := ",\n\nI am writing to report a pollution incident observed at [Location, Coordinates]. On "
  const ComplaintBody: string :=
    ", I noticed [describe what you saw - plastic accumulation, oil spill, sewage discharge, etc.].\n\nThis poses a serious risk to [water quality/marine life/public health]. I have documented the incident with photographs and submitted a report through AquaSentinel (Report ID: [if available]).\n\nI kindly request immediate investigation and appropriate action to address this issue.\n\nThank you for your attention to this matter.\n\nSincerely,\n"
  const ComplaintClosing: string := "\n\nWould you like me to customize this for a specific organization?"

  /** The complaint e-mail template, placeholders and all. */
  const ComplaintReply: string :=
    ComplaintOpening + LocationSlot + ComplaintSalutation + AuthoritySlot + ComplaintIncident
    + DateSlot + ComplaintBody + NameSlot + ComplaintClosing

  const SafetyReply: string :=
    "For personal safety around polluted water:\n\n1. Avoid direct contact with visibly contaminated water\n2. Use certified water filters for drinking water\n3. Wash hands thoroughly if contact occurs\n4. Keep children and pets away from polluted areas\n5. Report any suspicious discharge immediately\n\nFor specific guidance based on pollution type (chemical, oil, sewage, plastic), which would you like to know more about?"

  const MetricsReply: string :=
    "Let me explain our key metrics:\n\n\U{2022} Plastic Density Index (0-100): Measures plastic particle concentration. 0-30 is Low, 30-50 is Moderate, 50-70 is High, 70+ is Critical.\n\n\U{2022} Water Clarity: Visual assessment - Clear (minimal contamination), Moderate (visible particles), Poor (significant pollution).\n\n\U{2022} Microplastic Count: Particles per cubic meter of water.\n\n\U{2022} Pollution Trend: Rising (getting worse), Stable (unchanged), Declining (improving).\n\nWhich metric would you like more details about?"

  const ReportingReply: string :=
    "To submit a pollution report:\n\n1. Go to the Community Reporting Hub\n2. Your GPS location will auto-populate (or manually enter coordinates)\n3. Select pollution category (Plastic, Chemical, Oil, Sewage)\n4. Describe what you observed\n5. Estimate plastic density and water clarity\n6. Submit (anonymous reporting is available)\n\nYour report helps authorities respond faster and builds our community database. Every report matters!"

  const PredictionReply: string :=
    "Our AI prediction system analyzes:\n\n\U{2022} Weather patterns (rainfall increases plastic runoff)\n\U{2022} Waste hotspot proximity\n\U{2022} Historical pollution trends\n\U{2022} Seasonal factors\n\nCheck the AI Insights section for risk forecasts in different regions. We update predictions daily based on new data. Would you like me to explain a specific prediction?"

  /** The capability summary returned when no rule fires. */
  const FallbackReply: string :=
    "I'm here to help you understand pollution data and take action. I can:\n\n\U{2022} Summarize pollution reports for any location\n\U{2022} Explain complex metrics in simple terms\n\U{2022} Draft complaint messages to authorities\n\U{2022} Suggest personal safety actions\n\U{2022} Guide you through using AquaSentinel features\n\nWhat would you like to know more about?"

  /** The four suggestion buttons shown under a fresh transcript. */
  const QuickActions: seq<string> := [
    "Explain my area's pollution level",
    "Draft a complaint email",
    "What safety measures should I take?",
    "How do I read the metrics?"
  ]

  // ---------------------------------------------------------------------------
  // The rule table

  datatype Intent = PollutionLevel | Complaint | Safety | Metrics | Reporting | Prediction

  /** A rule fires when the text contains all (`AllOf`) or any (`AnyOf`) of its keywords. */
  datatype Trigger = AllOf(keywords: seq<string>) | AnyOf(keywords: seq<string>)

  datatype Rule = Rule(trigger: Trigger, intent: Intent)

  /** The if-chain of `generateResponse`, as an ordered table: earlier rows win. */
  const Rules: seq<Rule> := [
    Rule(AllOf(["pollution", "level"]), PollutionLevel),
    Rule(AnyOf(["complaint", "email"]), Complaint),
    Rule(AnyOf(["safety", "protection"]), Safety),
    Rule(AnyOf(["metric", "read"]), Metrics),
    Rule(AnyOf(["report", "submit"]), Reporting),
    Rule(AnyOf(["predict", "forecast"]), Prediction)
  ]

  predicate Fires(t: Trigger, text: string)
  {
    match t
    case AllOf(ks) => forall k | k in ks :: Contains(text, k)
    case AnyOf(ks) => exists k | k in ks :: Contains(text, k)
  }

  /** The index of the first rule that fires on `text`, if any. */
  function FirstMatch(rules: seq<Rule>, text: string): (r: Option<nat>)
    ensures r.Some? ==> r.value < |rules| && Fires(rules[r.value].trigger, text)
    ensures r.Some? ==> forall j :: 0 <= j < r.value ==> !Fires(rules[j].trigger, text)
    ensures r.None? <==> forall j :: 0 <= j < |rules| ==> !Fires(rules[j].trigger, text)
  {
    if rules == [] then None
    else if Fires(rules[0].trigger, text) then Some(0)
    else
      match FirstMatch(rules[1..], text)
      case None => None
      case Some(k) => Some(k + 1)
  }

  /** The intent selected for an already lower-cased message. */
  function Classify(lower: string): Option<Intent>
  {
    match FirstMatch(Rules, lower)
    case None => None
    case Some(k) => Some(Rules[k].intent)
  }

  function Reply(intent: Option<Intent>): (r: string)
  {
    match intent
    case None => FallbackReply
    case Some(PollutionLevel) => PollutionLevelReply
    case Some(Complaint) => ComplaintReply
    case Some(Safety) => SafetyReply
    case Some(Metrics) => MetricsReply
    case Some(Reporting) => ReportingReply
    case Some(Prediction) => PredictionReply
  }

  /** `generateResponse`: lower-case the message, pick the first rule that fires, answer with its reply. */
  function GenerateResponse(userMessage: string): (r: string)
    ensures |r| > 0
    ensures r == FallbackReply <==> FirstMatch(Rules, ToLower(userMessage)).None?
  {
    RepliesDistinct();
    Reply(Classify(ToLower(userMessage)))
  }

  /** The seven replies are pairwise different: no two have the same length. */
  lemma RepliesDistinct()
    ensures forall a: Option<Intent>, b: Option<Intent> :: Reply(a) == Reply(b) ==> a == b
  {
    assert |PollutionLevelReply| == 262;
    assert |ComplaintReply| == 707;
    assert |SafetyReply| == 412;
    assert |MetricsReply| == 494;
    assert |ReportingReply| == 425;
    assert |PredictionReply| == 336;
    assert |FallbackReply| == 325;
  }

  /** The source's if-chain, written out as it stands: a reference for the table. */
  function ChainIntent(lower: string): Option<Intent>
  {
    if Contains(lower, "pollution") && Contains(lower, "level") then Some(PollutionLevel)
    else if Contains(lower, "complaint") || Contains(lower, "email") then Some(Complaint)
    else if Contains(lower, "safety") || Contains(lower, "protection") then Some(Safety)
    else if Contains(lower, "metric") || Contains(lower, "read") then Some(Metrics)
    else if Contains(lower, "report") || Contains(lower, "submit") then Some(Reporting)
    else if Contains(lower, "predict") || Contains(lower, "forecast") then Some(Prediction)
    else None
  }

  /** Row `i` of the table fires exactly when the `i`-th test of the if-chain succeeds. */
  lemma RuleRows(lower: string)
    ensures Fires(Rules[0].trigger, lower) <==> Contains(lower, "pollution") && Contains(lower, "level")
    ensures Fires(Rules[1].trigger, lower) <==> Contains(lower, "complaint") || Contains(lower, "email")
    ensures Fires(Rules[2].trigger, lower) <==> Contains(lower, "safety") || Contains(lower, "protection")
    ensures Fires(Rules[3].trigger, lower) <==> Contains(lower, "metric") || Contains(lower, "read")
    ensures Fires(Rules[4].trigger, lower) <==> Contains(lower, "report") || Contains(lower, "submit")
    ensures Fires(Rules[5].trigger, lower) <==> Contains(lower, "predict") || Contains(lower, "forecast")
  {
    AllOfPair(lower, "pollution", "level");
    AnyOfPair(lower, "complaint", "email");
    AnyOfPair(lower, "safety", "protection");
    AnyOfPair(lower, "metric", "read");
    AnyOfPair(lower, "report", "submit");
    AnyOfPair(lower, "predict", "forecast");
  }

  lemma AllOfPair(text: string, a: string, b: string)
    ensures Fires(AllOf([a, b]), text) <==> Contains(text, a) && Contains(text, b)
  {
    assert forall k :: k in [a, b] <==> k == a || k == b;
  }

  lemma AnyOfPair(text: string, a: string, b: string)
    ensures Fires(AnyOf([a, b]), text) <==> Contains(text, a) || Contains(text, b)
  {
    assert a in [a, b] && b in [a, b];
  }

  /** The rule table selects exactly what the if-chain selects, for every text. */
  lemma ClassifyIsChain(lower: string)
    ensures Classify(lower) == ChainIntent(lower)
  {
    RuleRows(lower);
    var m := FirstMatch(Rules, lower);
    if m.Some? {
      assert m.value < 6;
    }
  }

  // ---------------------------------------------------------------------------
  // What `generateResponse` promises

  /** Which reply each message gets: the first test of the chain that succeeds on the lower-cased text decides. */
  lemma ResponseSelection(userMessage: string)
    ensures var t := ToLower(userMessage);
      && (GenerateResponse(userMessage) == PollutionLevelReply <==>
            Contains(t, "pollution") && Contains(t, "level"))
      && (GenerateResponse(userMessage) == ComplaintReply <==>
            !(Contains(t, "pollution") && Contains(t, "level"))
            && (Contains(t, "complaint") || Contains(t, "email")))
      && (GenerateResponse(userMessage) == SafetyReply <==>
            !(Contains(t, "pollution") && Contains(t, "level"))
            && !Contains(t, "complaint") && !Contains(t, "email")
            && (Contains(t, "safety") || Contains(t, "protection")))
      && (GenerateResponse(userMessage) == MetricsReply <==>
            !(Contains(t, "pollution") && Contains(t, "level"))
            && !Contains(t, "complaint") && !Contains(t, "email")
            && !Contains(t, "safety") && !Contains(t, "protection")
            && (Contains(t, "metric") || Contains(t, "read")))
      && (GenerateResponse(userMessage) == ReportingReply <==>
            !(Contains(t, "pollution") && Contains(t, "level"))
            && !Contains(t, "complaint") && !Contains(t, "email")
            && !Contains(t, "safety") && !Contains(t, "protection")
            && !Contains(t, "metric") && !Contains(t, "read")
            && (Contains(t, "report") || Contains(t, "submit")))
      && (GenerateResponse(userMessage) == PredictionReply <==>
            !(Contains(t, "pollution") && Contains(t, "level"))
            && !Contains(t, "complaint") && !Contains(t, "email")
            && !Contains(t, "safety") && !Contains(t, "protection")
            && !Contains(t, "metric") && !Contains(t, "read")
            && !Contains(t, "report") && !Contains(t, "submit")
            && (Contains(t, "predict") || Contains(t, "forecast")))
  {
    var t := ToLower(userMessage);
    ClassifyIsChain(t);
    ReplyOf(userMessage, Some(PollutionLevel));
    ReplyOf(userMessage, Some(Complaint));
    ReplyOf(userMessage, Some(Safety));
    ReplyOf(userMessage, Some(Metrics));
    ReplyOf(userMessage, Some(Reporting));
    ReplyOf(userMessage, Some(Prediction));
  }

  /** A message gets the reply of intent `i` exactly when the router selects `i`. */
  lemma ReplyOf(userMessage: string, i: Option<Intent>)
    ensures GenerateResponse(userMessage) == Reply(i) <==> Classify(ToLower(userMessage)) == i
  {
    var c := Classify(ToLower(userMessage));
    if c != i {
      RepliesDistinct();
      assert Reply(c) != Reply(i);
    }
  }

  /**
   * The capability summary comes back exactly when no rule fires: the pair
   * "pollution"/"level" is not both present and none of the ten other keywords is.
   * One of "pollution" or "level" on its own therefore still falls back.
   */
  lemma FallbackIff(userMessage: string)
    ensures var t := ToLower(userMessage);
      GenerateResponse(userMessage) == FallbackReply <==>
        !(Contains(t, "pollution") && Contains(t, "level"))
        && !Contains(t, "complaint") && !Contains(t, "email")
        && !Contains(t, "safety") && !Contains(t, "protection")
        && !Contains(t, "metric") && !Contains(t, "read")
        && !Contains(t, "report") && !Contains(t, "submit")
        && !Contains(t, "predict") && !Contains(t, "forecast")
  {
    ClassifyIsChain(ToLower(userMessage));
    ReplyOf(userMessage, None);
  }

  /** Matching ignores case: a message and its lower-cased form get the same reply. */
  lemma CaseInsensitive(userMessage: string)
    ensures GenerateResponse(ToLower(userMessage)) == GenerateResponse(userMessage)
  {
    ToLowerIdempotent(userMessage);
  }

  /** The complaint reply keeps its four placeholders verbatim; nothing fills them in. */
  lemma ComplaintPlaceholdersUnfilled()
    ensures Contains(ComplaintReply, LocationSlot)
    ensures Contains(ComplaintReply, AuthoritySlot)
    ensures Contains(ComplaintReply, DateSlot)
    ensures Contains(ComplaintReply, NameSlot)
  {
    var p1 := ComplaintOpening + LocationSlot;
    var p2 := p1 + ComplaintSalutation + AuthoritySlot;
    var p3 := p2 + ComplaintIncident + DateSlot;
    var p4 := p3 + ComplaintBody + NameSlot;
    assert ComplaintReply == p4 + ComplaintClosing;
    EndsWith(ComplaintOpening, LocationSlot);
    EndsWith(p1 + ComplaintSalutation, AuthoritySlot);
    EndsWith(p2 + ComplaintIncident, DateSlot);
    EndsWith(p3 + ComplaintBody, NameSlot);
    KeepsOccurrence(p1, ComplaintSalutation, LocationSlot);
    KeepsOccurrence(p1 + ComplaintSalutation, AuthoritySlot, LocationSlot);
    KeepsOccurrence(p2, ComplaintIncident, LocationSlot);
    KeepsOccurrence(p2, ComplaintIncident, AuthoritySlot);
    KeepsOccurrence(p2 + ComplaintIncident, DateSlot, LocationSlot);
    KeepsOccurrence(p2 + ComplaintIncident, DateSlot, AuthoritySlot);
    KeepsOccurrence(p3, ComplaintBody, LocationSlot);
    KeepsOccurrence(p3, ComplaintBody, AuthoritySlot);
    KeepsOccurrence(p3, ComplaintBody, DateSlot);
    KeepsOccurrence(p3 + ComplaintBody, NameSlot, LocationSlot);
    KeepsOccurrence(p3 + ComplaintBody, NameSlot, AuthoritySlot);
    KeepsOccurrence(p3 + ComplaintBody, NameSlot, DateSlot);
    KeepsOccurrence(p4, ComplaintClosing, LocationSlot);
    KeepsOccurrence(p4, ComplaintClosing, AuthoritySlot);
    KeepsOccurrence(p4, ComplaintClosing, DateSlot);
    KeepsOccurrence(p4, ComplaintClosing, NameSlot);
  }

  lemma KeepsOccurrence(a: string, b: string, p: string)
    requires Contains(a, p)
    ensures Contains(a + b, p)
  {
    ContainsExtend(a, b, p);
  }

  lemma EndsWith(a: string, p: string)
    ensures Contains(a + p, p)
  {
    ContainsSelf(p);
    ContainsExtend(a, p, p);
  }

  // ---------------------------------------------------------------------------
  // Worked examples

  /** "POLLUTION LEVEL" lower-cases to "pollution level". */
  lemma LowerCasesPollutionLevel()
    ensures ToLower("POLLUTION LEVEL") == "pollution level"
    ensures ToLower("pollution level") == "pollution level"
  {
    ToLowerBy("POLLUTION LEVEL", "pollution level");
    ToLowerBy("pollution level", "pollution level");
  }

  /** Both words of the first rule present: it selects the pollution-level rule. */
  lemma PollutionLevelPairExample()
    ensures Classify("pollution level") == Some(PollutionLevel)
  {
    ContainsAt("pollution level", "pollution", 0);
    ContainsAt("pollution level", "level", 10);
    ClassifyIsChain("pollution level");
  }

  /** "POLLUTION LEVEL" and "pollution level" both get the pollution-level reply. */
  lemma UpperCaseExample()
    ensures GenerateResponse("POLLUTION LEVEL") == PollutionLevelReply
    ensures GenerateResponse("pollution level") == PollutionLevelReply
  {
    LowerCasesPollutionLevel();
    PollutionLevelPairExample();
  }

  /**
   * Earlier rules shadow later ones: "report the pollution level" holds a
   * keyword of the reporting rule but selects the pollution-level rule.
   */
  lemma PollutionLevelShadowsReporting()
    ensures Contains("report the pollution level", "report")
    ensures Classify("report the pollution level") == Some(PollutionLevel)
  {
    ContainsAt("report the pollution level", "pollution", 11);
    ContainsAt("report the pollution level", "level", 21);
    ContainsAt("report the pollution level", "report", 0);
    ClassifyIsChain("report the pollution level");
  }

  /**
   * Earlier rules shadow later ones: "submit a complaint" holds a keyword of
   * the reporting rule but selects the complaint rule.
   */
  lemma ComplaintShadowsReporting()
    ensures Contains("submit a complaint", "submit")
    ensures Classify("submit a complaint") == Some(Complaint)
  {
    SubmitAComplaintLacksLevel();
    SubmitAComplaintHasComplaint();
    SubmitAComplaintHasSubmit();
    ClassifyIsChain("submit a complaint");
  }

  lemma SubmitAComplaintLacksLevel()
    ensures !Contains("submit a complaint", "level")
  {
    MissingCharacter("submit a complaint", "level", 2);
  }

  lemma SubmitAComplaintHasComplaint()
    ensures Contains("submit a complaint", "complaint")
  {
    ContainsAt("submit a complaint", "complaint", 9);
  }

  lemma SubmitAComplaintHasSubmit()
    ensures Contains("submit a complaint", "submit")
  {
    ContainsAt("submit a complaint", "submit", 0);
  }

  /** "already" holds neither "pollution", "complaint" nor "email". */
  lemma AlreadyMissesEarlyRules()
    ensures !Contains("already", "pollution") && !Contains("already", "complaint")
    ensures !Contains("already", "email")
  {
    MissingCharacter("already", "pollution", 0);
    MissingCharacter("already", "complaint", 0);
    MissingCharacter("already", "email", 1);
  }
  /** "already" holds neither "safety", "protection" nor "metric". */
  lemma AlreadyMissesSafetyAndMetric()
    ensures !Contains("already", "safety") && !Contains("already", "protection")
    ensures !Contains("already", "metric")
  {
    MissingCharacter("already", "safety", 0);
    MissingCharacter("already", "protection", 0);
    MissingCharacter("already", "metric", 0);
  }
  /** Keywords are matched as substrings, not words: "already" contains "read" and selects the metrics rule. */
  lemma SubstringExample()
    ensures Classify("already") == Some(Metrics)
  {
    AlreadyMissesEarlyRules();
    AlreadyMissesSafetyAndMetric();
    ContainsAt("already", "read", 2);
    ClassifyIsChain("already");
  }

  /** No keyword of the first rule occurs in "asdkjhasd". */
  lemma GibberishMissesFirstRule()
    ensures !Contains("asdkjhasd", "pollution") && !Contains("asdkjhasd", "level")
  {
    MissingCharacter("asdkjhasd", "pollution", 0);
    MissingCharacter("asdkjhasd", "level", 0);
  }
  /** No keyword of the second rule occurs in "asdkjhasd". */
  lemma GibberishMissesSecondRule()
    ensures !Contains("asdkjhasd", "complaint") && !Contains("asdkjhasd", "email")
  {
    MissingCharacter("asdkjhasd", "complaint", 0);
    MissingCharacter("asdkjhasd", "email", 0);
  }
  /** No keyword of the third and fourth rules occurs in "asdkjhasd". */
  lemma GibberishMissesMiddleRules()
    ensures !Contains("asdkjhasd", "safety") && !Contains("asdkjhasd", "protection")
    ensures !Contains("asdkjhasd", "metric") && !Contains("asdkjhasd", "read")
  {
    MissingCharacter("asdkjhasd", "safety", 2);
    MissingCharacter("asdkjhasd", "protection", 0);
    MissingCharacter("asdkjhasd", "metric", 0);
    MissingCharacter("asdkjhasd", "read", 0);
  }
  /** No keyword of the last two rules occurs in "asdkjhasd". */
  lemma GibberishMissesLateRules()
    ensures !Contains("asdkjhasd", "report") && !Contains("asdkjhasd", "submit")
    ensures !Contains("asdkjhasd", "predict") && !Contains("asdkjhasd", "forecast")
  {
    MissingCharacter("asdkjhasd", "report", 0);
    MissingCharacter("asdkjhasd", "submit", 1);
    MissingCharacter("asdkjhasd", "predict", 0);
    MissingCharacter("asdkjhasd", "forecast", 0);
  }
  /** No keyword of the first two rules occurs in "pollution", apart from the word itself. */
  lemma PollutionMissesEarlyRules()
    ensures !Contains("pollution", "level") && !Contains("pollution", "complaint")
    ensures !Contains("pollution", "email")
  {
    MissingCharacter("pollution", "level", 1);
    MissingCharacter("pollution", "complaint", 0);
    MissingCharacter("pollution", "email", 0);
  }
  /** No keyword of the third and fourth rules occurs in "pollution", apart from the word itself. */
  lemma PollutionMissesMiddleRules()
    ensures !Contains("pollution", "safety") && !Contains("pollution", "protection")
    ensures !Contains("pollution", "metric") && !Contains("pollution", "read")
  {
    MissingCharacter("pollution", "safety", 0);
    MissingCharacter("pollution", "protection", 1);
    MissingCharacter("pollution", "metric", 0);
    MissingCharacter("pollution", "read", 0);
  }
  /** No keyword of the last two rules occurs in "pollution", apart from the word itself. */
  lemma PollutionMissesLateRules()
    ensures !Contains("pollution", "report") && !Contains("pollution", "submit")
    ensures !Contains("pollution", "predict") && !Contains("pollution", "forecast")
  {
    MissingCharacter("pollution", "report", 0);
    MissingCharacter("pollution", "submit", 0);
    MissingCharacter("pollution", "predict", 1);
    MissingCharacter("pollution", "forecast", 0);
  }
  /** No keyword of the first two rules occurs in "level", apart from the word itself. */
  lemma LevelMissesEarlyRules()
    ensures !Contains("level", "pollution") && !Contains("level", "complaint")
    ensures !Contains("level", "email")
  {
    MissingCharacter("level", "pollution", 0);
    MissingCharacter("level", "complaint", 0);
    MissingCharacter("level", "email", 1);
  }
  /** No keyword of the third and fourth rules occurs in "level", apart from the word itself. */
  lemma LevelMissesMiddleRules()
    ensures !Contains("level", "safety") && !Contains("level", "protection")
    ensures !Contains("level", "metric") && !Contains("level", "read")
  {
    MissingCharacter("level", "safety", 0);
    MissingCharacter("level", "protection", 0);
    MissingCharacter("level", "metric", 0);
    MissingCharacter("level", "read", 0);
  }
  /** No keyword of the last two rules occurs in "level", apart from the word itself. */
  lemma LevelMissesLateRules()
    ensures !Contains("level", "report") && !Contains("level", "submit")
    ensures !Contains("level", "predict") && !Contains("level", "forecast")
  {
    MissingCharacter("level", "report", 0);
    MissingCharacter("level", "submit", 0);
    MissingCharacter("level", "predict", 0);
    MissingCharacter("level", "forecast", 0);
  }
  /** Gibberish selects no rule. */
  lemma GibberishFallsBack()
    ensures Classify("asdkjhasd") == None
  {
    GibberishMissesFirstRule();
    GibberishMissesSecondRule();
    GibberishMissesMiddleRules();
    GibberishMissesLateRules();
    ClassifyIsChain("asdkjhasd");
  }

  /** The empty text selects no rule. */
  lemma EmptyFallsBack()
    ensures Classify("") == None
  {
    ClassifyIsChain("");
  }

  /** "pollution" without "level" selects no rule. */
  lemma PollutionAloneFallsBack()
    ensures Classify("pollution") == None
  {
    PollutionMissesEarlyRules();
    PollutionMissesMiddleRules();
    PollutionMissesLateRules();
    ClassifyIsChain("pollution");
  }

  /** "level" without "pollution" selects no rule. */
  lemma LevelAloneFallsBack()
    ensures Classify("level") == None
  {
    LevelMissesEarlyRules();
    LevelMissesMiddleRules();
    LevelMissesLateRules();
    ClassifyIsChain("level");
  }

  // ---------------------------------------------------------------------------
  // The chat window

  datatype Role = User | Assistant

  datatype Message = Message(role: Role, content: string)

  /** The contents of the turns of `ms` spoken by `role`, in transcript order. */
  function Said(ms: seq<Message>, role: Role): (r: seq<string>)
    ensures |r| <= |ms|
  {
    if ms == [] then []
    else Said(ms[..|ms| - 1], role) + (if ms[|ms| - 1].role == role then [ms[|ms| - 1].content] else [])
  }

  lemma SaidAppend(ms: seq<Message>, m: Message, role: Role)
    ensures Said(ms + [m], role) == Said(ms, role) + (if m.role == role then [m.content] else [])
  {
    assert (ms + [m])[..|ms|] == ms;
  }

  /** The turns of two transcripts laid end to end. */
  lemma {:induction false} SaidConcat(a: seq<Message>, b: seq<Message>, role: Role)
    ensures Said(a + b, role) == Said(a, role) + Said(b, role)
    decreases |b|
  {
    if b == [] {
      assert a + b == a;
    } else {
      var b' := b[..|b| - 1];
      assert (a + b)[..|a + b| - 1] == a + b';
      SaidConcat(a, b', role);
    }
  }

  /**
   * A transcript `ms` with replies `pending` still to come: it opens with the
   * greeting; every user turn holds non-blank text; the i-th assistant turn
   * after the greeting is the reply to the i-th user turn, and the user turns
   * still unanswered are exactly the pending ones. Where each reply stands
   * relative to later user turns is not part of the invariant; the methods
   * below state the exact transcript they build. `respond` is the reply
   * function; the chat window uses `GenerateResponse`.
   */
  ghost predicate Consistent(ms: seq<Message>, pending: seq<string>, respond: string -> string)
  {
    |ms| >= 1 && ms[0] == Message(Assistant, Greeting)
    && (forall i :: 0 <= i < |Said(ms, User)| ==> !IsBlank(Said(ms, User)[i]))
    && |Said(ms[1..], Assistant)| + |pending| == |Said(ms, User)|
    && Said(ms, User)[|Said(ms[1..], Assistant)|..] == pending
    && (forall i :: 0 <= i < |Said(ms[1..], Assistant)| ==>
          Said(ms[1..], Assistant)[i] == respond(Said(ms, User)[i]))
  }

  lemma GreetingConsistent(respond: string -> string)
    ensures Consistent([Message(Assistant, Greeting)], [], respond)
  {
    var ms := [Message(Assistant, Greeting)];
    assert ms[1..] == [];
    assert ms[..0] == [];
  }

  /** Appending a non-blank user turn and scheduling its reply keeps the transcript consistent. */
  lemma ConsistentAfterSend(ms: seq<Message>, pending: seq<string>, text: string, respond: string -> string)
    requires Consistent(ms, pending, respond) && !IsBlank(text)
    ensures Consistent(ms + [Message(User, text)], pending + [text], respond)
  {
    var m := Message(User, text);
    var asked := Said(ms, User);
    var answered := Said(ms[1..], Assistant);
    SaidAppend(ms, m, User);
    SaidAppend(ms[1..], m, Assistant);
    assert (ms + [m])[1..] == ms[1..] + [m];
    assert Said(ms + [m], User) == asked + [text];
    assert Said((ms + [m])[1..], Assistant) == answered;
    assert (asked + [text])[|answered|..] == asked[|answered|..] + [text];
  }

  /** Appending the reply to the oldest pending input keeps the transcript consistent. */
  lemma ConsistentAfterReply(ms: seq<Message>, pending: seq<string>, respond: string -> string)
    requires Consistent(ms, pending, respond) && pending != []
    ensures Consistent(ms + [Message(Assistant, respond(pending[0]))], pending[1..], respond)
  {
    var m := Message(Assistant, respond(pending[0]));
    var asked := Said(ms, User);
    var answered := Said(ms[1..], Assistant);
    assert asked[|answered|] == pending[0];
    SaidAppend(ms, m, User);
    SaidAppend(ms[1..], m, Assistant);
    assert (ms + [m])[1..] == ms[1..] + [m];
    var answered' := answered + [m.content];
    assert Said(ms + [m], User) == asked;
    assert Said((ms + [m])[1..], Assistant) == answered';
    forall i | 0 <= i < |answered'|
      ensures answered'[i] == respond(asked[i])
    {
      if i < |answered| {
        assert answered'[i] == answered[i];
      }
    }
    assert asked[|answered| + 1..] == asked[|answered|..][1..];
  }

  /**
   * The quick actions are shown under the lone greeting, which in a consistent
   * transcript is exactly while the user has sent nothing.
   */
  lemma QuickActionsUntilFirstSend(ms: seq<Message>, pending: seq<string>, respond: string -> string)
    requires Consistent(ms, pending, respond)
    ensures |ms| == 1 <==> |Said(ms, User)| == 0
  {
    assert ms[0].role == Assistant;
    assert |Said(ms[1..], Assistant)| <= |Said(ms, User)|;
    LoneGreetingIff(ms);
  }

  /** A transcript opening with the greeting and holding no more replies than questions. */
  lemma LoneGreetingIff(ms: seq<Message>)
    requires ms != [] && ms[0].role == Assistant
    requires |Said(ms[1..], Assistant)| <= |Said(ms, User)|
    ensures |ms| == 1 <==> Said(ms, User) == []
  {
    SaidAfterGreeting(ms);
    if Said(ms, User) == [] {
      SaidEmpty(ms[1..]);
    }
  }

  /** A turn spoken by the assistant first adds nothing to the user's turns. */
  lemma SaidAfterGreeting(ms: seq<Message>)
    requires ms != [] && ms[0].role == Assistant
    ensures Said(ms, User) == Said(ms[1..], User)
  {
    assert ms == [ms[0]] + ms[1..];
    assert [ms[0]][..0] == [];
    SaidConcat([ms[0]], ms[1..], User);
  }

  /** A transcript in which neither side said anything is empty. */
  lemma SaidEmpty(ms: seq<Message>)
    requires Said(ms, User) == [] && Said(ms, Assistant) == []
    ensures ms == []
  {
  }

  /**
   * The state of the chat window. `pending` holds, oldest first, the inputs whose
   * delayed reply has been scheduled but has not yet been appended; all delays are
   * equal, so the replies arrive in the order they were scheduled.
   */
  class ChatSession {
    var isOpen: bool
    var messages: seq<Message>
    var inputMessage: string
    var isTyping: bool
    var pending: seq<string>

    /** The transcript and the scheduled replies agree, and the typing indicator is only on while a reply is pending. */
    ghost predicate Valid()
      reads this
    {
      Consistent(messages, pending, GenerateResponse) && (isTyping ==> pending != [])
    }

    /** The quick-action buttons are shown only under the lone greeting. */
    predicate ShowsQuickActions()
      reads this
    {
      |messages| == 1
    }

    constructor()
      ensures Valid()
      ensures !isOpen && messages == [Message(Assistant, Greeting)]
      ensures inputMessage == "" && !isTyping && pending == []
      ensures ShowsQuickActions()
    {
      isOpen := false;
      messages := [Message(Assistant, Greeting)];
      inputMessage := "";
      isTyping := false;
      pending := [];
      new;
      GreetingConsistent(GenerateResponse);
    }

    /** The launcher button opens and closes the window; the transcript is kept. */
    method ToggleOpen()
      modifies this
      ensures isOpen == !old(isOpen)
      ensures messages == old(messages) && inputMessage == old(inputMessage)
      ensures isTyping == old(isTyping) && pending == old(pending)
    {
      isOpen := !isOpen;
    }

    /** Typing into the input box. */
    method SetInput(text: string)
      modifies this
      ensures inputMessage == text
      ensures isOpen == old(isOpen) && messages == old(messages)
      ensures isTyping == old(isTyping) && pending == old(pending)
    {
      inputMessage := text;
    }

    /**
     * `handleSendMessage`: blank input is ignored; otherwise the raw input is
     * appended as a user turn, the box is cleared, the typing indicator is
     * switched on and a reply to that input is scheduled.
     */
    method SendMessage()
      requires Valid()
      modifies this
      ensures Valid()
      ensures isOpen == old(isOpen)
      ensures IsBlank(old(inputMessage)) ==>
        messages == old(messages) && inputMessage == old(inputMessage)
        && isTyping == old(isTyping) && pending == old(pending)
      ensures !IsBlank(old(inputMessage)) ==>
        messages == old(messages) + [Message(User, old(inputMessage))] && inputMessage == ""
        && isTyping && pending == old(pending) + [old(inputMessage)]
      ensures !IsBlank(old(inputMessage)) ==> !ShowsQuickActions()
    {
      TrimEmptyIffBlank(inputMessage);
      if Trim(inputMessage) == "" {
        return;
      }
      ConsistentAfterSend(messages, pending, inputMessage, GenerateResponse);
      messages := messages + [Message(User, inputMessage)];
      pending := pending + [inputMessage];
      inputMessage := "";
      isTyping := true;
    }

    /**
     * The delayed half of `handleSendMessage`: the oldest scheduled reply is
     * appended as an assistant turn answering that input, and the typing
     * indicator is switched off.
     */
    method ReplyTimerFires()
      requires Valid() && pending != []
      modifies this
      ensures Valid()
      ensures messages == old(messages) + [Message(Assistant, GenerateResponse(old(pending)[0]))]
      ensures pending == old(pending)[1..] && !isTyping
      ensures isOpen == old(isOpen) && inputMessage == old(inputMessage)
    {
      ConsistentAfterReply(messages, pending, GenerateResponse);
      messages := messages + [Message(Assistant, GenerateResponse(pending[0]))];
      pending := pending[1..];
      isTyping := false;
    }

    /**
     * With no reply outstanding, sending non-blank input and waiting for the
     * delay appends exactly one user turn holding the raw input followed by one
     * assistant turn holding `GenerateResponse` of it.
     */
    method SendAndAwaitReply()
      requires Valid() && pending == []
      modifies this
      ensures Valid() && pending == [] && isOpen == old(isOpen)
      ensures IsBlank(old(inputMessage)) ==>
        messages == old(messages) && inputMessage == old(inputMessage) && isTyping == old(isTyping)
      ensures !IsBlank(old(inputMessage)) ==>
        messages == old(messages) + [Message(User, old(inputMessage)),
                                     Message(Assistant, GenerateResponse(old(inputMessage)))]
        && inputMessage == "" && !isTyping
    {
      SendMessage();
      if pending != [] {
        ReplyTimerFires();
      }
    }

    /**
     * `handleQuickAction` as written: the action is put in the input box, but
     * the send that follows reads the input as it stood before the click, and
     * of the two queued updates to the box the later one wins.
     */
    method QuickActionAsWritten(action: string)
      requires Valid()
      modifies this
      ensures Valid()
      ensures isOpen == old(isOpen)
      ensures IsBlank(old(inputMessage)) ==>
        messages == old(messages) && pending == old(pending) && inputMessage == action
        && isTyping == old(isTyping)
      ensures !IsBlank(old(inputMessage)) ==>
        messages == old(messages) + [Message(User, old(inputMessage))]
        && pending == old(pending) + [old(inputMessage)] && inputMessage == "" && isTyping
    {
      var typed := inputMessage;
      SendMessage();
      TrimEmptyIffBlank(typed);
      inputMessage := if Trim(typed) == "" then action else "";
    }

    /** A quick action as intended: the action itself is sent as the user's turn. */
    method QuickAction(action: string)
      requires Valid() && !IsBlank(action)
      modifies this
      ensures Valid()
      ensures isOpen == old(isOpen)
      ensures messages == old(messages) + [Message(User, action)]
      ensures pending == old(pending) + [action] && inputMessage == "" && isTyping
    {
      SetInput(action);
      SendMessage();
    }
  }

  /** No quick action is blank, so each of them would be sent if it reached the send. */
  lemma QuickActionsNotBlank()
    ensures forall i | 0 <= i < |QuickActions| :: !IsBlank(QuickActions[i])
  {
    forall i | 0 <= i < |QuickActions|
      ensures !IsBlank(QuickActions[i])
    {
      NotBlankAt(QuickActions[i], 0);
    }
  }

  /** As written, clicking the first quick action in a fresh chat appends nothing to the transcript. */
  method FreshQuickActionAsWritten() returns (transcript: seq<Message>)
    ensures transcript == [Message(Assistant, Greeting)]
  {
    var chat := new ChatSession();
    chat.QuickActionAsWritten(QuickActions[0]);
    transcript := chat.messages;
  }

  /** As intended, the same click appends the action as the user's turn. */
  method FreshQuickAction() returns (transcript: seq<Message>)
    ensures transcript == [Message(Assistant, Greeting), Message(User, QuickActions[0])]
  {
    var action := QuickActions[0];
    NotBlankAt(action, 0);
    var chat := new ChatSession();
    chat.QuickAction(action);
    transcript := chat.messages;
  }
}
