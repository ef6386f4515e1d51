/**
 * The buyer personalities the voice agent can play and the system prompt it
 * is given: a fixed table of six personalities, lookups into it, and the
 * prompt assembled from a personality and a product's extracted lists.
 */
module Personality {
  import opened Common
  import opened Store

  /** The voice platform's stop-speaking plan of a personality. */
  datatype StopSpeakingPlan = StopSpeakingPlan(numWords: nat, voiceSeconds: real, backoffSeconds: real)

  datatype Personality = Personality(
    labelText: string,
    description: string,
    systemPromptSection: string,
    interruptionWordThreshold: nat,
    ramblingRedirectPhrases: seq<string>,
    stopSpeakingPlan: StopSpeakingPlan)

  /** What the personalities listing shows of a personality. */
  datatype Summary = Summary(labelText: string, description: string)

  // ---------------------------------------------------------------------------
  // The table

  /** The six personalities. */
  datatype Kind =
    | SkepticalBuyer | AnalyticalDecisionMaker | BusyExecutive
    | FriendlyNonCommittal | TechnicalExpert | PriceFocusedNegotiator

  /** The personalities in the table's order. */
  const Kinds: seq<Kind> :=
    [SkepticalBuyer, AnalyticalDecisionMaker, BusyExecutive, FriendlyNonCommittal, TechnicalExpert, PriceFocusedNegotiator]

  /** The key of a personality in the table. */
  function Key(k: Kind): string
  {
    match k
    case SkepticalBuyer => "skeptical_buyer"
    case AnalyticalDecisionMaker => "analytical_decision_maker"
    case BusyExecutive => "busy_executive"
    case FriendlyNonCommittal => "friendly_non_committal"
    case TechnicalExpert => "technical_expert"
    case PriceFocusedNegotiator => "price_focused_negotiator"
  }

  /** The label shown for a personality. */
  function Label(k: Kind): string
  {
    match k
    case SkepticalBuyer => "Skeptical Buyer"
    case AnalyticalDecisionMaker => "Analytical Decision-Maker"
    case BusyExecutive => "Busy Executive"
    case FriendlyNonCommittal => "Friendly but Non-Committal"
    case TechnicalExpert => "Technical Expert"
    case PriceFocusedNegotiator => "Price-Focused Negotiator"
  }

  /** The one-line description of a personality. */
  function Description(k: Kind): string
  {
    match k
    case SkepticalBuyer =>
      "Challenges every claim, demands proof, "
      + "pushes back hard"
    case AnalyticalDecisionMaker =>
      "Wants data, ROI numbers, detailed "
      + "comparisons"
    case BusyExecutive =>
      "Impatient, wants the bottom line fast, "
      + "hates rambling"
    case FriendlyNonCommittal =>
      "Agreeable but avoids decisions, tests "
      + "if user can close"
    case TechnicalExpert =>
      "Deep domain knowledge, tests "
      + "terminology accuracy"
    case PriceFocusedNegotiator =>
      "Everything is too expensive, wants "
      + "discounts, value justification"
  }

  /** The behaviour section a personality contributes to the system prompt. */
  function Section(k: Kind): string
  {
    match k
    case SkepticalBuyer =>
      "You are a SKEPTICAL BUYER prospect. "
      + "Your behavior rules:\n- Question every "
      + "claim the salesperson makes. Ask \"How "
      + "do you know that?\" and \"Can you prove "
      + "it?\"\n- Push back on vague statements. "
      + "Demand specifics, case studies, and "
      + "data.\n- Express doubt frequently: \"I've "
      + "heard that before from other "
      + "vendors...\" or \"That sounds too good to "
      + "be true.\"\n- If the salesperson uses "
      + "buzzwords without substance, call them "
      + "out directly.\n- You are NOT hostile, "
      + "but you are very hard to convince. You "
      + "need overwhelming evidence.\n- If they "
      + "give a strong, specific, "
      + "evidence-backed answer, acknowledge it "
      + "grudgingly."
    case AnalyticalDecisionMaker =>
      "You are an ANALYTICAL DECISION-MAKER "
      + "prospect. Your behavior rules:\n- You "
      + "make decisions based on data, not "
      + "emotions. Ask for ROI figures, "
      + "percentages, and benchmarks.\n- Compare "
      + "everything to alternatives: \"How does "
      + "that compare to [competitor approach]?\"\n"
      + "- Ask follow-up questions that dig "
      + "deeper into methodology and "
      + "measurement.\n- You appreciate "
      + "thoroughness but NOT rambling. You want "
      + "dense, information-rich answers.\n- If "
      + "they give numbers, probe the "
      + "methodology. If they don't give "
      + "numbers, ask for them.\n- You are "
      + "patient with detailed answers but "
      + "impatient with vague ones."
    case BusyExecutive =>
      "You are a BUSY EXECUTIVE prospect. Your "
      + "behavior rules:\n- You have very little "
      + "time and zero patience for rambling. "
      + "Get to the point or lose me.\n- "
      + "Interrupt AGGRESSIVELY if the answer "
      + "goes longer than 15-20 seconds.\n- Ask "
      + "direct questions: \"What's the bottom "
      + "line?\" \"Why should I care?\" \"Give me "
      + "this in one sentence.\"\n- If they "
      + "ramble, cut them off with \"I don't have "
      + "time for this\" or \"Shorter. Give me the "
      + "headline.\"\n- You respect confidence and "
      + "brevity. A crisp 10-second answer "
      + "impresses you more than a 60-second "
      + "one.\n- You are testing whether this "
      + "person respects your time."
    case FriendlyNonCommittal =>
      "You are a FRIENDLY BUT NON-COMMITTAL "
      + "prospect. Your behavior rules:\n- Be "
      + "warm, agreeable, and encouraging: \"That "
      + "sounds great!\" \"Oh interesting!\" \"I "
      + "like that.\"\n- But NEVER commit. Deflect "
      + "with \"Let me think about it\" \"I'd need "
      + "to check with my team\" \"Maybe next "
      + "quarter.\"\n- Test whether the "
      + "salesperson can identify buying signals "
      + "vs. politeness.\n- If they try to close, "
      + "gently sidestep: \"I really appreciate "
      + "this, I just need a bit more time.\"\n- "
      + "You ramble yourself sometimes to eat up "
      + "their time \U{2014} test if they can control "
      + "the conversation.\n- The salesperson "
      + "should push past your agreeableness to "
      + "get a real commitment."
    case TechnicalExpert =>
      "You are a TECHNICAL EXPERT prospect. "
      + "Your behavior rules:\n- You have deep "
      + "domain expertise. Use technical "
      + "terminology and expect the salesperson "
      + "to keep up.\n- Test their knowledge: ask "
      + "about implementation details, "
      + "architecture, integrations, edge cases.\n"
      + "- If they misuse a technical term, "
      + "correct them immediately and note it.\n- "
      + "Ask \"how\" questions: \"How does that "
      + "actually work under the hood?\" \"How "
      + "does it handle X edge case?\"\n- You "
      + "respect technical depth. Surface-level "
      + "answers will make you lose confidence "
      + "in them.\n- If they admit they don't "
      + "know something, you respect honesty \U{2014} "
      + "but they should know the fundamentals."
    case PriceFocusedNegotiator =>
      "You are a PRICE-FOCUSED NEGOTIATOR "
      + "prospect. Your behavior rules:\n- Your "
      + "primary concern is cost. Everything is "
      + "too expensive. Always push for "
      + "discounts.\n- Challenge value at every "
      + "turn: \"Why is this worth that price?\" "
      + "\"Your competitor does it for half.\"\n- "
      + "Ask about hidden costs, implementation "
      + "costs, and total cost of ownership.\n- "
      + "If they justify the price well, counter "
      + "with \"But in this economy...\" or \"My "
      + "budget is fixed.\"\n- Test whether they "
      + "hold their price with confidence or "
      + "immediately cave and offer discounts.\n- "
      + "You respect a salesperson who can "
      + "defend their pricing with clear value "
      + "articulation."
  }

  /** The number of words after which a personality interrupts a rambling answer. */
  function Threshold(k: Kind): nat
  {
    match k
    case SkepticalBuyer => 50
    case AnalyticalDecisionMaker => 80
    case BusyExecutive => 30
    case FriendlyNonCommittal => 70
    case TechnicalExpert => 60
    case PriceFocusedNegotiator => 45
  }

  /** How many phrases a personality interrupts a rambling answer with. */
  function PhraseCount(k: Kind): nat
  {
    match k
    case SkepticalBuyer => 3
    case AnalyticalDecisionMaker => 3
    case BusyExecutive => 4
    case FriendlyNonCommittal => 3
    case TechnicalExpert => 3
    case PriceFocusedNegotiator => 3
  }

  /** The `i`-th phrase a personality interrupts a rambling answer with. */
  function Phrase(k: Kind, i: nat): string
    requires i < PhraseCount(k)
  {
    match k
    case SkepticalBuyer =>
      if i == 0 then
        "Hold on \U{2014} you're giving me a lot of "
        + "fluff. What's the actual evidence?"
      else if i == 1 then
        "Let me stop you. I need specifics, not "
        + "a sales pitch."
      else
        "You're losing me. Can you back that up "
        + "with a real number or case study?"
    case AnalyticalDecisionMaker =>
      if i == 0 then
        "That's qualitative. Do you have "
        + "quantitative data to support that?"
      else if i == 1 then
        "You're being descriptive but I need the "
        + "numbers. What's the actual ROI?"
      else
        "Let me redirect \U{2014} how does this compare "
        + "on a measurable basis?"
    case BusyExecutive =>
      if i == 0 then
        "Stop. I need that in one sentence."
      else if i == 1 then
        "You're rambling. What's the bottom line?"
      else if i == 2 then
        "I have three minutes. Get to the point."
      else
        "Shorter. Tell me why I should care in "
        + "ten words or less."
    case FriendlyNonCommittal =>
      if i == 0 then
        "Oh that's a lot of info! I love it but "
        + "I'll need to digest all that."
      else if i == 1 then
        "Ha, you're really thorough! Maybe just "
        + "hit me with the highlights?"
      else
        "That's all great \U{2014} but in simpler "
        + "terms, what should I remember?"
    case TechnicalExpert =>
      if i == 0 then
        "You're going broad. I need you to go "
        + "deep on the technical implementation."
      else if i == 1 then
        "That's marketing language. How does it "
        + "actually work?"
      else
        "Let me ask more specifically \U{2014} skip the "
        + "overview and tell me the mechanism."
    case PriceFocusedNegotiator =>
      if i == 0 then
        "You're talking features but I need to "
        + "know the price justification."
      else if i == 1 then
        "All of that sounds expensive. Give me "
        + "the cost-benefit in plain terms."
      else
        "Stop selling me on features. Tell me "
        + "why the price is what it is."
  }

  /** The phrases a personality interrupts a rambling answer with, in order. */
  function Phrases(k: Kind): (r: seq<string>)
    ensures |r| == PhraseCount(k)
  {
    seq(PhraseCount(k), i requires 0 <= i < PhraseCount(k) => Phrase(k, i))
  }


  /** A personality's stop-speaking plan for the voice platform. */
  function Plan(k: Kind): StopSpeakingPlan
  {
    match k
    case SkepticalBuyer => StopSpeakingPlan(3, 0.2, 0.8)
    case AnalyticalDecisionMaker => StopSpeakingPlan(4, 0.3, 1.0)
    case BusyExecutive => StopSpeakingPlan(2, 0.15, 0.5)
    case FriendlyNonCommittal => StopSpeakingPlan(5, 0.3, 1.2)
    case TechnicalExpert => StopSpeakingPlan(4, 0.25, 0.8)
    case PriceFocusedNegotiator => StopSpeakingPlan(3, 0.2, 0.8)
  }

  /** The table entry of a personality. */
  function Entry(k: Kind): (p: Personality)
    ensures p.labelText == Label(k) && p.description == Description(k) && p.systemPromptSection == Section(k)
    ensures p.interruptionWordThreshold == Threshold(k) && p.ramblingRedirectPhrases == Phrases(k)
    ensures p.stopSpeakingPlan == Plan(k)
  {
    Personality(Label(k), Description(k), Section(k), Threshold(k), Phrases(k), Plan(k))
  }

  /** The table's keys, in the table's order. */
  const Keys: seq<string> := [
    "skeptical_buyer", "analytical_decision_maker", "busy_executive",
    "friendly_non_committal", "technical_expert", "price_focused_negotiator"]

  /** The personality a key names, if any. */
  function KindOf(key: string): (r: Option<Kind>)
    ensures r.Some? <==> key in Keys
    ensures r.Some? ==> Key(r.value) == key
  {
    if key == "skeptical_buyer" then Some(SkepticalBuyer)
    else if key == "analytical_decision_maker" then Some(AnalyticalDecisionMaker)
    else if key == "busy_executive" then Some(BusyExecutive)
    else if key == "friendly_non_committal" then Some(FriendlyNonCommittal)
    else if key == "technical_expert" then Some(TechnicalExpert)
    else if key == "price_focused_negotiator" then Some(PriceFocusedNegotiator)
    else None
  }

  /** `Keys` lists the key of every personality, in table order, each once. */
  lemma KeysInOrder()
    ensures |Kinds| == |Keys| == 6
    ensures forall i :: 0 <= i < |Keys| ==> Keys[i] == Key(Kinds[i])
    ensures forall i, j :: 0 <= i < j < |Keys| ==> Keys[i] != Keys[j]
  {
  }

  /** Every personality is in the table under its own key. */
  lemma KeyNamesKind(k: Kind)
    ensures k in Kinds && Key(k) in Keys
    ensures KindOf(Key(k)) == Some(k)
  {
    match k
    case SkepticalBuyer =>
    case AnalyticalDecisionMaker =>
    case BusyExecutive =>
    case FriendlyNonCommittal =>
    case TechnicalExpert =>
    case PriceFocusedNegotiator =>
  }

  /** Every personality interrupts after a positive number of words and has a phrase to interrupt with. */
  lemma EntryShape(k: Kind)
    ensures Threshold(k) > 0
    ensures |Phrases(k)| >= 3
  {
    match k
    case SkepticalBuyer =>
    case AnalyticalDecisionMaker =>
    case BusyExecutive =>
    case FriendlyNonCommittal =>
    case TechnicalExpert =>
    case PriceFocusedNegotiator =>
  }

  /** The source's `get_personality`: the entry of a known key, nothing for any other. */
  function GetPersonality(key: string): (r: Option<Personality>)
    ensures r.Some? <==> key in Keys
    ensures r.Some? ==> r.value == Entry(KindOf(key).value)
  {
    match KindOf(key)
    case None => None
    case Some(k) => Some(Entry(k))
  }

  /** The source's `get_all_personalities`: every key, in table order, with only its label and description. */
  function AllPersonalities(): (r: seq<(string, Summary)>)
    ensures |r| == |Kinds|
    ensures forall i :: 0 <= i < |r| ==> r[i] == (Key(Kinds[i]), Summary(Label(Kinds[i]), Description(Kinds[i])))
  {
    seq(|Kinds|, i requires 0 <= i < |Kinds| => (Key(Kinds[i]), Summary(Label(Kinds[i]), Description(Kinds[i]))))
  }

  /** The listing names every key of the table once, in order, with that key's label and description. */
  lemma ListingMatchesLookup(i: nat)
    requires i < |AllPersonalities()|
    ensures AllPersonalities()[i].0 == Keys[i]
    ensures GetPersonality(Keys[i]).Some?
    ensures AllPersonalities()[i].1 == Summary(GetPersonality(Keys[i]).value.labelText, GetPersonality(Keys[i]).value.description)
  {
    KeysInOrder();
    KeyNamesKind(Kinds[i]);
  }

  // ---------------------------------------------------------------------------
  // The system prompt

  /** The fixed stretches of the prompt template, in template order. */
  datatype Gap = Opening | ProductContext | KeyTermsHeading | ObjectionsHeading | Approach | Interrupt | Closing

  /** The text of each fixed stretch; the threshold sits between "more than ~" and " words". */
  function Fixed(g: Gap): string
  {
    match g
    case Opening =>
      "You are a realistic sales prospect in a "
      + "training simulation. Your job is to "
      + "TEST the salesperson's knowledge of "
      + "their product and evaluate their pitch "
      + "quality.\n\n"
    case ProductContext =>
      "\n\nPRODUCT CONTEXT (the product the "
      + "salesperson is pitching):\nUSPs: "
    case KeyTermsHeading =>
      "\n\nKey Terms they should know: "
    case ObjectionsHeading =>
      "\n\nLikely Objections to raise: "
    case Approach =>
      "\n\nYOUR CONVERSATION APPROACH:\n1. Start "
      + "by asking the salesperson to pitch you "
      + "on the product. Let them give an "
      + "opening pitch.\n2. After their pitch, "
      + "ask probing questions about specific "
      + "USPs \U{2014} one at a time.\n3. Raise "
      + "objections from the list above and "
      + "evaluate how they handle them.\n4. Test "
      + "their knowledge of key terms by using "
      + "them in questions or asking them to "
      + "explain concepts.\n5. Throughout, "
      + "evaluate their conciseness, confidence, "
      + "and accuracy.\n\nRAMBLING DETECTION \U{2014} "
      + "THIS IS CRITICAL:\n- If the salesperson "
      + "speaks for "
    case Interrupt =>
      " without making a clear point, "
      + "INTERRUPT them.\n- Use one of these "
      + "interruption phrases:\n"
    case Closing =>
      "\n- After interrupting, tell them to be "
      + "more concise and re-ask your question.\n"
      + "- Track how often they ramble. Frequent "
      + "ramblers should be told directly: \"You "
      + "need to tighten up your answers.\"\n\n"
      + "SCORING INSTRUCTIONS:\nAfter EACH answer "
      + "the salesperson gives, you MUST call "
      + "the score_response tool with your "
      + "assessment. Score every exchange \U{2014} do "
      + "not skip any. The scores should be "
      + "critical and honest. Do not inflate "
      + "scores to be nice.\n\nAfter you have "
      + "asked at least 6-8 questions covering "
      + "USPs, objections, and terminology, wrap "
      + "up the conversation naturally and "
      + "provide a brief verbal summary of their "
      + "performance before ending the call."
  }

  function UspLine(u: Usp): string
  {
    "\n- " + GetOr(u.title, "USP") + ": " + GetOr(u.description, "")
  }

  function TermLine(t: KeyTerm): string
  {
    "\n- " + GetOr(t.term, "") + ": " + GetOr(t.definition, "")
  }

  function ObjectionLine(o: Objection): string
  {
    "\n- \"" + GetOr(o.objection, "") + "\""
  }

  function UspLines(usps: seq<Usp>): seq<string>
  {
    seq(|usps|, i requires 0 <= i < |usps| => UspLine(usps[i]))
  }

  function TermLines(terms: seq<KeyTerm>): seq<string>
  {
    seq(|terms|, i requires 0 <= i < |terms| => TermLine(terms[i]))
  }

  function ObjectionLines(objections: seq<Objection>): seq<string>
  {
    seq(|objections|, i requires 0 <= i < |objections| => ObjectionLine(objections[i]))
  }

  /** One `- "phrase"` line per redirect phrase, joined by newlines. */
  function RedirectBlock(phrases: seq<string>): string
  {
    Join("\n", seq(|phrases|, i requires 0 <= i < |phrases| => "- \"" + phrases[i] + "\""))
  }

  /** The prompt for a personality, around its inserted parts. */
  function PromptFor(p: Personality, usps: string, terms: string, objections: string): string
  {
    Fixed(Opening) + p.systemPromptSection + Fixed(ProductContext) + usps + Fixed(KeyTermsHeading) + terms
    + Fixed(ObjectionsHeading) + objections + Fixed(Approach) + "more than ~" + NatToString(p.interruptionWordThreshold)
    + " words" + Fixed(Interrupt) + RedirectBlock(p.ramblingRedirectPhrases) + Fixed(Closing)
  }

  /** The prompt the source builds; an unknown personality is the `KeyError` it raises. */
  function SystemPrompt(personalityType: string, usps: seq<Usp>, terms: seq<KeyTerm>, objections: seq<Objection>): Option<string>
  {
    match GetPersonality(personalityType)
    case None => None
    case Some(p) => Some(PromptFor(p, Concat(UspLines(usps)), Concat(TermLines(terms)), Concat(ObjectionLines(objections))))
  }

  /** The source's `build_system_prompt`, with its three accumulating loops. */
  method BuildSystemPrompt(personalityType: string, usps: seq<Usp>, terms: seq<KeyTerm>, objections: seq<Objection>)
    returns (r: Option<string>)
    ensures r == SystemPrompt(personalityType, usps, terms, objections)
  {
    var found := GetPersonality(personalityType);
    if found.None? {
      return None;
    }
    var personality := found.value;
    var uspsText := UspsText(usps);
    var termsText := TermsText(terms);
    var objectionsText := ObjectionsText(objections);
    var threshold := personality.interruptionWordThreshold;
    var redirectPhrases := RedirectBlock(personality.ramblingRedirectPhrases);
    r := Some(Fixed(Opening) + personality.systemPromptSection + Fixed(ProductContext) + uspsText + Fixed(KeyTermsHeading) + termsText
              + Fixed(ObjectionsHeading) + objectionsText + Fixed(Approach) + "more than ~" + NatToString(threshold)
              + " words" + Fixed(Interrupt) + redirectPhrases + Fixed(Closing));
  }

  method UspsText(usps: seq<Usp>) returns (text: string)
    ensures text == Concat(UspLines(usps))
  {
    text := "";
    for i := 0 to |usps|
      invariant text == Concat(UspLines(usps[..i]))
    {
      assert UspLines(usps[..i + 1]) == UspLines(usps[..i]) + [UspLine(usps[i])];
      text := text + UspLine(usps[i]);
    }
    assert usps[..|usps|] == usps;
  }

  method TermsText(terms: seq<KeyTerm>) returns (text: string)
    ensures text == Concat(TermLines(terms))
  {
    text := "";
    for i := 0 to |terms|
      invariant text == Concat(TermLines(terms[..i]))
    {
      assert TermLines(terms[..i + 1]) == TermLines(terms[..i]) + [TermLine(terms[i])];
      text := text + TermLine(terms[i]);
    }
    assert terms[..|terms|] == terms;
  }

  method ObjectionsText(objections: seq<Objection>) returns (text: string)
    ensures text == Concat(ObjectionLines(objections))
  {
    text := "";
    for i := 0 to |objections|
      invariant text == Concat(ObjectionLines(objections[..i]))
    {
      assert ObjectionLines(objections[..i + 1]) == ObjectionLines(objections[..i]) + [ObjectionLine(objections[i])];
      text := text + ObjectionLine(objections[i]);
    }
    assert objections[..|objections|] == objections;
  }

  /** `t` occurs in `s` at position `i`. */
  predicate OccursAt(s: string, t: string, i: nat)
  {
    i + |t| <= |s| && s[i..i + |t|] == t
  }

  /** In a concatenation of fifteen parts, the first two open it and parts ten to twelve sit right after the first nine. */
  lemma PiecesOccur(
    p0: string, p1: string, p2: string, p3: string, p4: string, p5: string, p6: string, p7: string,
    p8: string, p9: string, p10: string, p11: string, p12: string, p13: string, p14: string)
    ensures var r := p0 + p1 + p2 + p3 + p4 + p5 + p6 + p7 + p8 + p9 + p10 + p11 + p12 + p13 + p14;
      OccursAt(r, p0 + p1, 0)
      && OccursAt(r, p9 + p10 + p11, |p0 + p1 + p2 + p3 + p4 + p5 + p6 + p7 + p8|)
  {
    var head := p0 + p1;
    var before := p0 + p1 + p2 + p3 + p4 + p5 + p6 + p7 + p8;
    var needle := p9 + p10 + p11;
    var rest := p12 + p13 + p14;
    var r := p0 + p1 + p2 + p3 + p4 + p5 + p6 + p7 + p8 + p9 + p10 + p11 + p12 + p13 + p14;
    assert r == head + (p2 + p3 + p4 + p5 + p6 + p7 + p8 + needle + rest);
    assert r[..|head|] == head;
    assert r == before + needle + rest;
    assert r[|before|..|before| + |needle|] == needle;
  }

  /**
   * A prompt starts with the fixed opening followed by the personality's
   * behaviour section, and states the personality's interruption threshold
   * as "more than ~<threshold> words".
   */
  lemma PromptEmbedsPersonality(p: Personality, usps: string, terms: string, objections: string)
    ensures var r := PromptFor(p, usps, terms, objections);
      OccursAt(r, Fixed(Opening) + p.systemPromptSection, 0)
      && exists i :: OccursAt(r, "more than ~" + NatToString(p.interruptionWordThreshold) + " words", i)
  {
    PiecesOccur(Fixed(Opening), p.systemPromptSection, Fixed(ProductContext), usps, Fixed(KeyTermsHeading), terms,
      Fixed(ObjectionsHeading), objections, Fixed(Approach), "more than ~", NatToString(p.interruptionWordThreshold),
      " words", Fixed(Interrupt), RedirectBlock(p.ramblingRedirectPhrases), Fixed(Closing));
  }

  /** A known personality always yields a prompt, built from that personality's entry. */
  lemma KnownPersonalityPrompt(personalityType: string, usps: seq<Usp>, terms: seq<KeyTerm>, objections: seq<Objection>)
    requires personalityType in Keys
    ensures var r := SystemPrompt(personalityType, usps, terms, objections);
      var p := Entry(KindOf(personalityType).value);
      r.Some? && OccursAt(r.value, Fixed(Opening) + p.systemPromptSection, 0)
      && exists i :: OccursAt(r.value, "more than ~" + NatToString(p.interruptionWordThreshold) + " words", i)
  {
    var p := Entry(KindOf(personalityType).value);
    PromptEmbedsPersonality(p, Concat(UspLines(usps)), Concat(TermLines(terms)), Concat(ObjectionLines(objections)));
  }

  /** The product lists become one line per item, in order, with their defaults. */
  lemma {:induction false} ConcatLines(lines: seq<string>, k: nat)
    requires k < |lines|
    ensures OccursAt(Concat(lines), lines[k], |Concat(lines[..k])|)
  {
    if k < |lines| - 1 {
      ConcatLines(lines[..|lines| - 1], k);
      assert lines[..|lines| - 1][..k] == lines[..k];
    } else {
      assert lines[..|lines| - 1] == lines[..k];
    }
  }

  /** The k-th USP's line sits in the USP block right after the lines of the USPs before it. */
  lemma UspBlockInOrder(usps: seq<Usp>, k: nat)
    requires k < |usps|
    ensures OccursAt(Concat(UspLines(usps)), UspLine(usps[k]), |Concat(UspLines(usps[..k]))|)
  {
    assert UspLines(usps)[..k] == UspLines(usps[..k]);
    ConcatLines(UspLines(usps), k);
  }

  /** A USP without a title is shown as "USP", one without a description with an empty text. */
  lemma LineDefaults()
    ensures UspLine(Usp(None, None)) == "\n- USP: "
    ensures TermLine(KeyTerm(None, None)) == "\n- : "
    ensures ObjectionLine(Objection(None)) == "\n- \"\""
  {
  }

  /** The redirect block has one line per phrase; with at least one phrase it ends in the last phrase's quote. */
  lemma {:induction false} RedirectBlockShape(phrases: seq<string>)
    requires phrases != []
    ensures EndsWith(RedirectBlock(phrases), "- \"" + phrases[|phrases| - 1] + "\"")
    ensures RedirectBlock(phrases)[|RedirectBlock(phrases)| - 1] == '"'
  {
    var quoted := seq(|phrases|, i requires 0 <= i < |phrases| => "- \"" + phrases[i] + "\"");
    var last := quoted[|quoted| - 1];
    if |phrases| > 1 {
      assert Join("\n", quoted) == Join("\n", quoted[..|quoted| - 1]) + "\n" + last;
    }
    assert EndsWith(Join("\n", quoted), last);
  }
}
