/**
 * The chat endpoint (src/app/api/chat/route.ts): a keyword decision table that
 * always has an answer, behind a chain of two remote text-generation tiers.
 * Remote calls are not performed here: each tier's outcome is an input, and
 * the reply records which tiers were actually invoked.
 */
module Chat {
  import opened Text
  import opened Js

  // ---------------------------------------------------------------------------
  // Keyword replies (getSmartResponse)
  // ---------------------------------------------------------------------------

  /** The subject of each canned reply; `General` is the default reply. */
  datatype Topic =
    | Strengths | DataEngineering | FullStack | Nava | Projects
    | Experience | Skills | Contact | Education | About | General

  /**
   * The canned reply for each topic.  The wording is product content and is
   * not modelled: each topic gets its own non-empty stand-in text.
   */
  function CannedText(t: Topic): (r: string)
    ensures r != ""
  {
    match t
    case Strengths => "[strengths reply]"
    case DataEngineering => "[data engineering reply]"
    case FullStack => "[full stack reply]"
    case Nava => "[nava reply]"
    case Projects => "[projects reply]"
    case Experience => "[experience reply]"
    case Skills => "[skills reply]"
    case Contact => "[contact reply]"
    case Education => "[education reply]"
    case About => "[about reply]"
    case General => "[default reply]"
  }

  /** Different topics never share a reply text. */
  lemma CannedTextInjective(t: Topic, u: Topic)
    ensures CannedText(t) == CannedText(u) <==> t == u
  {
    if t != u {
      assert CannedText(t)[1] != CannedText(u)[1] || CannedText(t)[2] != CannedText(u)[2]
        || |CannedText(t)| != |CannedText(u)|;
    }
  }

  /** One rule of the table: any of its triggers selects its topic. */
  datatype Rule = Rule(triggers: seq<string>, topic: Topic)

  /** The rules in the order the source tests them; all triggers are lower case. */
  const Rules: seq<Rule> := [
    Rule(["strong", "strength", "expertise", "specialize", "good at", "expert"], Strengths),
    Rule(["data engineer", "pipeline", "kafka", "spark", "databricks", "snowflake", "airflow"], DataEngineering),
    Rule(["full stack", "backend", "frontend", "fastapi", "graphql", "react native", "microservice"], FullStack),
    Rule(["nava", "dating"], Nava),
    Rule(["project"], Projects),
    Rule(["experience", "neiman", "work", "job"], Experience),
    Rule(["skill", "tech", "stack"], Skills),
    Rule(["contact", "email", "reach", "hire"], Contact),
    Rule(["education", "degree", "university", "college", "master", "school", "utd", "ut dallas", "texas"], Education),
    Rule(["who", "about", "introduce", "tell me"], About)
  ]

  /**
   * The table as the source writes it: ten rules whose topics come in source
   * order, and whose triggers are non-empty (an empty one would fire on every
   * message) and free of capitals (one with a capital could never occur in a
   * lowered message).
   */
  lemma RulesTable()
    ensures |Rules| == 10
    ensures seq(10, k requires 0 <= k < 10 => Rules[k].topic)
         == [Strengths, DataEngineering, FullStack, Nava, Projects, Experience, Skills, Contact, Education, About]
    ensures forall k, i :: 0 <= k < |Rules| && 0 <= i < |Rules[k].triggers| ==> Rules[k].triggers[i] != ""
    ensures forall k, i :: 0 <= k < |Rules| && 0 <= i < |Rules[k].triggers| ==> NoCapitals(Rules[k].triggers[i])
  {
    forall k | 0 <= k < |Rules|
      ensures forall i :: 0 <= i < |Rules[k].triggers| ==> NoCapitals(Rules[k].triggers[i])
    {
      RuleHasNoCapitals(k);
    }
  }

  lemma RuleHasNoCapitals(k: nat)
    requires k < |Rules|
    ensures forall i :: 0 <= i < |Rules[k].triggers| ==> NoCapitals(Rules[k].triggers[i])
  {
    if k < 2 {
      FirstRulesHaveNoCapitals(k);
    } else if k < 6 {
      MiddleRulesHaveNoCapitals(k);
    } else {
      LastRulesHaveNoCapitals(k);
    }
  }

  lemma FirstRulesHaveNoCapitals(k: nat)
    requires k < 2
    ensures forall i :: 0 <= i < |Rules[k].triggers| ==> NoCapitals(Rules[k].triggers[i])
  {
  }

  lemma MiddleRulesHaveNoCapitals(k: nat)
    requires 2 <= k < 6
    ensures forall i :: 0 <= i < |Rules[k].triggers| ==> NoCapitals(Rules[k].triggers[i])
  {
  }

  lemma LastRulesHaveNoCapitals(k: nat)
    requires 6 <= k < |Rules|
    ensures forall i :: 0 <= i < |Rules[k].triggers| ==> NoCapitals(Rules[k].triggers[i])
  {
  }

  /** A rule fires when one of its triggers occurs in the lowered message. */
  predicate Fires(rule: Rule, lowered: string)
  {
    exists t :: t in rule.triggers && Includes(lowered, t)
  }

  /**
   * The first rule that fires decides the topic; when none fires the topic is
   * `General`.
   */
  function FirstMatch(rules: seq<Rule>, lowered: string): (r: Topic)
    ensures
      || (exists k :: 0 <= k < |rules| && Fires(rules[k], lowered) && r == rules[k].topic
           && forall j :: 0 <= j < k ==> !Fires(rules[j], lowered))
      || (r == General && forall k :: 0 <= k < |rules| ==> !Fires(rules[k], lowered))
  {
    if rules == [] then General
    else if Fires(rules[0], lowered) then rules[0].topic
    else
      var r := FirstMatch(rules[1..], lowered);
      assert forall k :: 1 <= k < |rules| ==> rules[k] == rules[1..][k - 1];
      r
  }

  /** The topic `getSmartResponse` picks for a message. */
  function SmartTopic(message: string): Topic
  {
    FirstMatch(Rules, Lower(message))
  }

  /** `getSmartResponse`: lower the message, then answer from the table. */
  function SmartResponse(message: string): (r: string)
    ensures r != ""
    ensures exists t: Topic :: r == CannedText(t)
  {
    CannedText(SmartTopic(message))
  }

  /** The ten rules select ten different topics, none of them the default. */
  lemma RuleTopicsDistinct()
    ensures forall k :: 0 <= k < |Rules| ==> Rules[k].topic != General
    ensures forall j, k :: 0 <= j < k < |Rules| ==> Rules[j].topic != Rules[k].topic
  {
  }

  /**
   * First-match precedence: rule `k` decides the reply iff one of its
   * triggers occurs in the lowered message and no trigger of an earlier rule
   * does.
   */
  lemma SmartResponsePrecedence(message: string, k: nat)
    requires k < |Rules|
    ensures SmartResponse(message) == CannedText(Rules[k].topic)
        <==> Fires(Rules[k], Lower(message))
             && forall j :: 0 <= j < k ==> !Fires(Rules[j], Lower(message))
  {
    RuleTopicsDistinct();
    CannedTextInjective(SmartTopic(message), Rules[k].topic);
  }

  /** The default reply is given exactly when no rule fires. */
  lemma SmartResponseDefault(message: string)
    ensures SmartResponse(message) == CannedText(General)
        <==> forall k :: 0 <= k < |Rules| ==> !Fires(Rules[k], Lower(message))
  {
    RuleTopicsDistinct();
    CannedTextInjective(SmartTopic(message), General);
  }

  /** Totality: every message gets one of the eleven canned replies. */
  lemma SmartResponseTotal(message: string)
    ensures SmartResponse(message) == CannedText(General)
         || exists k :: 0 <= k < |Rules| && SmartResponse(message) == CannedText(Rules[k].topic)
  {
    var l := Lower(message);
    if SmartTopic(message) != General {
      var k :| 0 <= k < |Rules| && Fires(Rules[k], l) && SmartTopic(message) == Rules[k].topic
        && forall j :: 0 <= j < k ==> !Fires(Rules[j], l);
      assert SmartResponse(message) == CannedText(Rules[k].topic);
    }
  }

  /** Case-insensitivity: the reply depends only on the lowered message. */
  lemma SmartResponseCaseInsensitive(a: string, b: string)
    requires Lower(a) == Lower(b)
    ensures SmartResponse(a) == SmartResponse(b)
    ensures SmartResponse(a) == SmartResponse(Lower(a))
  {
    LowerIdempotent(a);
  }

  // ---------------------------------------------------------------------------
  // Worked instances of the table
  // ---------------------------------------------------------------------------

  /** A trigger that occurs in the lowered message makes its rule fire. */
  lemma TriggerFires(lowered: string, k: nat, i: nat)
    requires k < |Rules| && i < |Rules[k].triggers|
    requires Includes(lowered, Rules[k].triggers[i])
    ensures Fires(Rules[k], lowered)
  {
  }

  /** The strengths rule stays silent on a text without these letters. */
  lemma StrengthsSilent(l: string)
    requires Avoids(l, "nxzg")
    ensures !Fires(Rules[0], l)
  {
    MissingCharExcludes(l, "strong", 'n');
    MissingCharExcludes(l, "strength", 'n');
    MissingCharExcludes(l, "expertise", 'x');
    MissingCharExcludes(l, "specialize", 'z');
    MissingCharExcludes(l, "good at", 'g');
    MissingCharExcludes(l, "expert", 'x');
  }

  /** "KAFKA", "Kafka" and "kafka" all get the data engineering reply. */
  lemma KafkaAnyCase()
    ensures SmartResponse("KAFKA") == SmartResponse("Kafka") == SmartResponse("kafka")
         == CannedText(DataEngineering)
  {
    assert Lower("KAFKA") == "kafka";
    assert Lower("Kafka") == "kafka";
    assert Lower("kafka") == "kafka";
    StrengthsSilent("kafka");
    IncludesAt("kafka", "kafka", 0);
    TriggerFires("kafka", 1, 2);
    SmartResponsePrecedence("kafka", 1);
  }

  const StrengthsQuestion := "what are your strengths and experience?"

  lemma StrengthsQuestionNamesStrength()
    ensures Includes(StrengthsQuestion, "strength")
  {
    IncludesAt(StrengthsQuestion, "strength", 14);
  }

  lemma StrengthsQuestionNamesExperience()
    ensures Includes(StrengthsQuestion, "experience")
  {
    IncludesAt(StrengthsQuestion, "experience", 28);
  }

  /**
   * A question naming both strengths and experience, in any letter case, gets
   * the strengths reply although the experience rule fires too.
   */
  lemma StrengthsBeforeExperience(message: string)
    requires Includes(Lower(message), "strength") && Includes(Lower(message), "experience")
    ensures Fires(Rules[5], Lower(message))
    ensures SmartResponse(message) == CannedText(Strengths)
  {
    TriggerFires(Lower(message), 0, 1);
    TriggerFires(Lower(message), 5, 0);
    SmartResponsePrecedence(message, 0);
  }

  /** "What are your strengths and experience?", in any letter case, is such a question. */
  lemma StrengthsQuestionGetsStrengths(message: string)
    requires Lower(message) == StrengthsQuestion
    ensures Fires(Rules[5], Lower(message))
    ensures SmartResponse(message) == CannedText(Strengths)
  {
    StrengthsQuestionNamesStrength();
    StrengthsQuestionNamesExperience();
    StrengthsBeforeExperience(message);
  }

  const FullStackQuestion := "full stack"

  lemma FullStackQuestionAvoids()
    ensures Avoids(FullStackQuestion, "nxzg") && Avoids(FullStackQuestion, "dipn")
    ensures NoPair(FullStackQuestion, 'k', 'a')
  {
  }

  lemma FullStackQuestionNamesFullStack()
    ensures Includes(FullStackQuestion, "full stack")
  {
    IncludesAt(FullStackQuestion, "full stack", 0);
  }

  lemma FullStackQuestionNamesStack()
    ensures Includes(FullStackQuestion, "stack")
  {
    IncludesAt(FullStackQuestion, "stack", 5);
  }

  /**
   * The data engineering rule stays silent on a text that lacks `p`, `n`, a
   * letter `a` shared by "data engineer" and "databricks", a letter `b` of
   * "airflow", and the pair "ka".
   */
  lemma DataEngineeringSilent(l: string, a: char, b: char)
    requires a in "data engineer" && a in "databricks" && b in "airflow"
    requires Avoids(l, [a, b, 'p', 'n']) && NoPair(l, 'k', 'a')
    ensures !Fires(Rules[1], l)
  {
    MissingCharExcludes(l, "data engineer", a);
    MissingCharExcludes(l, "pipeline", 'p');
    MissingPairExcludes(l, "kafka", 0);
    MissingCharExcludes(l, "spark", 'p');
    MissingCharExcludes(l, "databricks", a);
    MissingCharExcludes(l, "snowflake", 'n');
    MissingCharExcludes(l, "airflow", b);
  }

  /** "full stack", in any letter case, wins over the later skills trigger "stack". */
  lemma FullStackBeforeSkills(message: string)
    requires Lower(message) == FullStackQuestion
    ensures Fires(Rules[6], Lower(message))
    ensures SmartResponse(message) == CannedText(FullStack)
  {
    var l := Lower(message);
    FullStackQuestionAvoids();
    FullStackQuestionNamesFullStack();
    FullStackQuestionNamesStack();
    TriggerFires(l, 2, 0);
    TriggerFires(l, 6, 2);
    StrengthsSilent(l);
    DataEngineeringSilent(l, 'd', 'i');
    SmartResponsePrecedence(message, 2);
  }

  const ProjectsQuestion := "tell me about your projects"

  lemma ProjectsQuestionAvoids()
    ensures Avoids(ProjectsQuestion, "nxzg") && Avoids(ProjectsQuestion, "dikfgn")
  {
  }

  lemma ProjectsQuestionNamesProject()
    ensures Includes(ProjectsQuestion, "project")
  {
    IncludesAt(ProjectsQuestion, "project", 19);
  }

  lemma ProjectsQuestionSaysTellMe()
    ensures Includes(ProjectsQuestion, "tell me")
  {
    IncludesAt(ProjectsQuestion, "tell me", 0);
  }

  /** The data engineering rule stays silent on the projects question. */
  lemma ProjectsQuestionNotDataEngineering(l: string)
    requires Avoids(l, "dikfgn")
    ensures !Fires(Rules[1], l)
  {
    MissingCharExcludes(l, "data engineer", 'd');
    MissingCharExcludes(l, "pipeline", 'i');
    MissingCharExcludes(l, "kafka", 'k');
    MissingCharExcludes(l, "spark", 'k');
    MissingCharExcludes(l, "databricks", 'd');
    MissingCharExcludes(l, "snowflake", 'n');
    MissingCharExcludes(l, "airflow", 'i');
  }

  /** The full stack rule stays silent on the projects question. */
  lemma ProjectsQuestionNotFullStack(l: string)
    requires Avoids(l, "dikfgn")
    ensures !Fires(Rules[2], l)
  {
    MissingCharExcludes(l, "full stack", 'f');
    MissingCharExcludes(l, "backend", 'k');
    MissingCharExcludes(l, "frontend", 'f');
    MissingCharExcludes(l, "fastapi", 'f');
    MissingCharExcludes(l, "graphql", 'g');
    MissingCharExcludes(l, "react native", 'n');
    MissingCharExcludes(l, "microservice", 'i');
  }

  lemma ProjectsQuestionNotNava(l: string)
    requires Avoids(l, "dikfgn")
    ensures !Fires(Rules[3], l)
  {
    MissingCharExcludes(l, "nava", 'n');
    MissingCharExcludes(l, "dating", 'd');
  }

  /** "tell me about your projects" gets the projects reply, not the about reply. */
  lemma ProjectsBeforeAbout(message: string)
    requires Lower(message) == ProjectsQuestion
    ensures Fires(Rules[9], Lower(message))
    ensures SmartResponse(message) == CannedText(Projects)
  {
    var l := Lower(message);
    ProjectsQuestionAvoids();
    ProjectsQuestionNamesProject();
    ProjectsQuestionSaysTellMe();
    TriggerFires(l, 4, 0);
    TriggerFires(l, 9, 3);
    StrengthsSilent(l);
    ProjectsQuestionNotDataEngineering(l);
    ProjectsQuestionNotFullStack(l);
    ProjectsQuestionNotNava(l);
    SmartResponsePrecedence(message, 4);
  }

  const Gibberish := "asdkjfh qweoiu"

  /** What the keyboard-mash message lacks. */
  lemma GibberishFacts()
    ensures Avoids(Gibberish, "nxzg") && Avoids(Gibberish, "rxpgtnlbmc") && Avoids(Gibberish, "trpn")
    ensures NoPair(Gibberish, 'k', 'a') && NoPair(Gibberish, 'w', 'h')
  {
  }

  // Each remaining rule stays silent on a text that avoids the letters of the
  // keyboard-mash message and its two missing letter pairs.

  lemma GibberishSilent2a(l: string)
    requires Avoids(l, "rxpgtnlbmc")
    ensures !Includes(l, "full stack") && !Includes(l, "backend")
    ensures !Includes(l, "frontend") && !Includes(l, "fastapi")
  {
    MissingCharExcludes(l, "full stack", 'l');
    MissingCharExcludes(l, "backend", 'b');
    MissingCharExcludes(l, "frontend", 'r');
    MissingCharExcludes(l, "fastapi", 't');
  }

  lemma GibberishSilent2b(l: string)
    requires Avoids(l, "rxpgtnlbmc")
    ensures !Fires(Rules[2], l)
  {
    GibberishSilent2a(l);
    MissingCharExcludes(l, "graphql", 'g');
    MissingCharExcludes(l, "react native", 'r');
    MissingCharExcludes(l, "microservice", 'm');
  }

  lemma GibberishSilent3To5(l: string)
    requires Avoids(l, "rxpgtnlbmc")
    ensures !Fires(Rules[3], l) && !Fires(Rules[4], l) && !Fires(Rules[5], l)
  {
    MissingCharExcludes(l, "nava", 'n');
    MissingCharExcludes(l, "dating", 't');
    MissingCharExcludes(l, "project", 'p');
    MissingCharExcludes(l, "experience", 'x');
    MissingCharExcludes(l, "neiman", 'n');
    MissingCharExcludes(l, "work", 'r');
    MissingCharExcludes(l, "job", 'b');
  }

  lemma GibberishSilent6To7(l: string)
    requires Avoids(l, "rxpgtnlbmc")
    ensures !Fires(Rules[6], l) && !Fires(Rules[7], l)
  {
    MissingCharExcludes(l, "skill", 'l');
    MissingCharExcludes(l, "tech", 't');
    MissingCharExcludes(l, "stack", 't');
    MissingCharExcludes(l, "contact", 'c');
    MissingCharExcludes(l, "email", 'm');
    MissingCharExcludes(l, "reach", 'r');
    MissingCharExcludes(l, "hire", 'r');
  }

  lemma GibberishSilent8(l: string)
    requires Avoids(l, "rxpgtnlbmc")
    ensures !Fires(Rules[8], l)
  {
    MissingCharExcludes(l, "education", 't');
    MissingCharExcludes(l, "degree", 'g');
    MissingCharExcludes(l, "university", 'n');
    MissingCharExcludes(l, "college", 'c');
    MissingCharExcludes(l, "master", 'm');
    MissingCharExcludes(l, "school", 'c');
    MissingCharExcludes(l, "utd", 't');
    MissingCharExcludes(l, "ut dallas", 't');
    MissingCharExcludes(l, "texas", 't');
  }

  lemma GibberishSilent9(l: string)
    requires Avoids(l, "rxpgtnlbmc") && NoPair(l, 'w', 'h')
    ensures !Fires(Rules[9], l)
  {
    MissingPairExcludes(l, "who", 0);
    MissingCharExcludes(l, "about", 'b');
    MissingCharExcludes(l, "introduce", 'n');
    MissingCharExcludes(l, "tell me", 't');
  }

  /**
   * A message that lowers to "asdkjfh qweoiu", which contains no trigger,
   * gets the default reply.
   */
  lemma NoTriggerGetsDefault(message: string)
    requires Lower(message) == Gibberish
    ensures SmartResponse(message) == CannedText(General)
  {
    var l := Lower(message);
    GibberishFacts();
    StrengthsSilent(l);
    DataEngineeringSilent(l, 't', 'r');
    GibberishSilent2b(l);
    GibberishSilent3To5(l);
    GibberishSilent6To7(l);
    GibberishSilent8(l);
    GibberishSilent9(l);
    SmartResponseDefault(message);
  }

  // ---------------------------------------------------------------------------
  // The tiered handler (POST)
  // ---------------------------------------------------------------------------

  /** The two remote text-generation tiers, in the order they are tried. */
  datatype Provider = Anthropic | OpenAI

  /**
   * What one remote call produced: generated text, or a failure (non-ok
   * status, a thrown network error, or a payload without the expected text).
   */
  datatype CallOutcome = Answered(text: string) | Failed

  /** The request body: unreadable JSON, or a parsed body with its `message` field. */
  datatype ChatRequest = Unparseable | Parsed(message: Value)

  /** The response: HTTP status, the `response` text, and the tiers invoked. */
  datatype ChatReply = ChatReply(status: nat, response: string, invoked: seq<Provider>)

  const AnthropicPlaceholder: string := "sk-ant-your-key-here"
  const OpenAIPlaceholder: string := "sk-your-key-here"

  /** The fixed reply of the outer error handler. */
  const ErrorReplyText: string := "[error fallback reply]"

  /**
   * The chat POST handler.  A tier is invoked only when its key is configured;
   * its answer is returned at once, a failure falls through to the next tier.
   * When no tier answers, the keyword table replies; if that throws (the
   * message is not a string), or the body cannot be parsed, the outer handler
   * replies with a fixed text.  Every path answers with status 200.
   */
  function ChatPost(request: ChatRequest, anthropicKey: EnvVar, openAIKey: EnvVar,
                    anthropicCall: CallOutcome, openAICall: CallOutcome): (r: ChatReply)
    ensures r.status == 200
    ensures Anthropic in r.invoked <==> request.Parsed? && Configured(anthropicKey, AnthropicPlaceholder)
    ensures OpenAI in r.invoked <==>
      && request.Parsed? && Configured(openAIKey, OpenAIPlaceholder)
      && !(Configured(anthropicKey, AnthropicPlaceholder) && anthropicCall.Answered?)
    ensures r.invoked == [Anthropic] || r.invoked == [OpenAI]
         || r.invoked == [Anthropic, OpenAI] || r.invoked == []
  {
    match request
    case Unparseable => ChatReply(200, ErrorReplyText, [])
    case Parsed(message) =>
      var tryAnthropic := Configured(anthropicKey, AnthropicPlaceholder);
      if tryAnthropic && anthropicCall.Answered? then
        ChatReply(200, anthropicCall.text, [Anthropic])
      else
        var tried := if tryAnthropic then [Anthropic] else [];
        var tryOpenAI := Configured(openAIKey, OpenAIPlaceholder);
        if tryOpenAI && openAICall.Answered? then
          ChatReply(200, openAICall.text, tried + [OpenAI])
        else
          var invoked := tried + if tryOpenAI then [OpenAI] else [];
          if message.Str? then ChatReply(200, SmartResponse(message.s), invoked)
          else ChatReply(200, ErrorReplyText, invoked)
  }

  /**
   * Tier ordering: when the first tier is configured and answers, its text is
   * the reply and the second tier is never invoked, whatever its key or outcome.
   */
  lemma AnthropicAnswerIsFinal(message: Value, anthropicKey: EnvVar, openAIKey: EnvVar,
                               text: string, openAICall: CallOutcome)
    requires Configured(anthropicKey, AnthropicPlaceholder)
    ensures ChatPost(Parsed(message), anthropicKey, openAIKey, Answered(text), openAICall)
         == ChatReply(200, text, [Anthropic])
  {
  }

  /**
   * When the first tier is skipped or fails and the second is configured and
   * answers, the second tier's text is the reply.
   */
  lemma OpenAIAnswersAfterAnthropic(message: Value, anthropicKey: EnvVar, openAIKey: EnvVar,
                                    anthropicCall: CallOutcome, text: string)
    requires !Configured(anthropicKey, AnthropicPlaceholder) || anthropicCall.Failed?
    requires Configured(openAIKey, OpenAIPlaceholder)
    ensures ChatPost(Parsed(message), anthropicKey, openAIKey, anthropicCall, Answered(text)).response == text
  {
  }

  /**
   * Graceful degradation: when every remote tier is skipped or fails, the
   * reply is the keyword table's answer for the message.
   */
  lemma NoTierAnswersFallsBackToKeywords(message: string, anthropicKey: EnvVar, openAIKey: EnvVar,
                                         anthropicCall: CallOutcome, openAICall: CallOutcome)
    requires !Configured(anthropicKey, AnthropicPlaceholder) || anthropicCall.Failed?
    requires !Configured(openAIKey, OpenAIPlaceholder) || openAICall.Failed?
    ensures ChatPost(Parsed(Str(message)), anthropicKey, openAIKey, anthropicCall, openAICall).response
         == SmartResponse(message)
  {
  }

  /**
   * A message that is not a string makes the keyword table throw, so when no
   * tier answers the outer handler's fixed reply is given.
   */
  lemma NonStringMessageGetsFixedReply(message: Value, anthropicKey: EnvVar, openAIKey: EnvVar,
                                       anthropicCall: CallOutcome, openAICall: CallOutcome)
    requires !message.Str?
    requires !Configured(anthropicKey, AnthropicPlaceholder) || anthropicCall.Failed?
    requires !Configured(openAIKey, OpenAIPlaceholder) || openAICall.Failed?
    ensures ChatPost(Parsed(message), anthropicKey, openAIKey, anthropicCall, openAICall).response
         == ErrorReplyText
  {
  }

  /** An unreadable body gets the fixed reply, with status 200 and no remote call. */
  lemma UnparseableGetsFixedReply(anthropicKey: EnvVar, openAIKey: EnvVar,
                                  anthropicCall: CallOutcome, openAICall: CallOutcome)
    ensures ChatPost(Unparseable, anthropicKey, openAIKey, anthropicCall, openAICall)
         == ChatReply(200, ErrorReplyText, [])
  {
  }

  /**
   * Totality of the handler: the reply is a remote tier's text or a
   * non-empty canned text.
   */
  lemma ChatPostAlwaysAnswers(request: ChatRequest, anthropicKey: EnvVar, openAIKey: EnvVar,
                              anthropicCall: CallOutcome, openAICall: CallOutcome)
    ensures var r := ChatPost(request, anthropicKey, openAIKey, anthropicCall, openAICall);
      || (anthropicCall.Answered? && r.response == anthropicCall.text)
      || (openAICall.Answered? && r.response == openAICall.text)
      || r.response == ErrorReplyText
      || exists t: Topic :: r.response == CannedText(t)
  {
  }
}
