/**
 * The front-page bot's canned reply engine (`getResponse`): the input is
 * lower-cased, then an ordered chain of substring tests picks the first
 * reply whose keywords occur; an input that matches no rule gets a fixed
 * default reply. Beside the chain as written, the same rules are stated as
 * an explicit table evaluated by one generic first-match function, and the
 * two are proved to agree on every input.
 */
module ResponseEngine {
  import opened Text

  /** Which canned reply an input receives. */
  datatype Topic =
    | Pricing | HowItWorks | Formats | Technology | Security | Demo | Contact | Greeting
    | Default

  /** The text of each canned reply, exactly as the bot sends it. */
  function Reply(t: Topic): string {
    match t
    case Pricing => "Our pricing is designed to be affordable for retail investors. We offer flexible plans starting from basic document analysis. Would you like me to connect you with our sales team for detailed pricing?"
    case HowItWorks => "It's simple! Just upload your financial reports (PDF, DOCX, or Excel), and our AI will analyze them instantly. You can then ask specific questions about the data and get answers with page references. Try our demo at /reportlens!"
    case Formats => "We support PDF, DOCX, and Excel files up to 50MB. Our AI can parse annual reports, quarterly results, financial statements, and more. The files should be text-searchable for best results."
    case Technology => "We use advanced language models specifically trained for financial analysis. Our AI can understand complex financial terminology, extract key metrics, and provide contextual answers with source citations."
    case Security => "Security is our top priority. All documents are encrypted in transit and at rest. We don't store your files permanently and follow strict data privacy protocols. Your financial data remains confidential."
    case Demo => "Absolutely! You can try our platform right now. Click 'Get Started' or visit our ReportLens page to upload a sample financial report and see the AI in action."
    case Contact => "You can reach our support team at rohan@stockslabs.ai or through the contact form on this page. We're based in Bangalore, India and typically respond within a few hours."
    case Greeting => "Hello! Welcome to Stocks Labs AI. I'm here to answer any questions about our AI-powered financial analysis platform. What would you like to know?"
    case Default => "That's a great question! I'd be happy to help you learn more about Stocks Labs AI. You can also reach our team directly at rohan@stockslabs.ai or try our platform at /reportlens. Is there anything specific about our AI financial analysis you'd like to know?"
  }

  /**
   * The rule chain of `getResponse` as written, naming the reply each
   * branch returns: first match wins.
   */
  function Classify(userMessage: string): Topic {
    var message := Lower(userMessage);
    if Contains(message, "price") || Contains(message, "cost") || Contains(message, "pricing") then
      Pricing
    else if Contains(message, "how") && (Contains(message, "work") || Contains(message, "use")) then
      HowItWorks
    else if Contains(message, "file") || Contains(message, "format") || Contains(message, "upload") then
      Formats
    else if Contains(message, "ai") || Contains(message, "technology") then
      Technology
    else if Contains(message, "security") || Contains(message, "safe") || Contains(message, "privacy") then
      Security
    else if Contains(message, "demo") || Contains(message, "try") || Contains(message, "test") then
      Demo
    else if Contains(message, "contact") || Contains(message, "support") || Contains(message, "help") then
      Contact
    else if Contains(message, "hello") || Contains(message, "hi") || Contains(message, "hey") then
      Greeting
    else
      Default
  }

  /** `getResponse`: the reply of the branch the chain takes. */
  function GetResponse(userMessage: string): string {
    Reply(Classify(userMessage))
  }

  // ----- The same rules as an explicit table -----

  /**
   * A rule fires when every clause has at least one of its keywords in the
   * message (a conjunction of any-of keyword sets).
   */
  datatype Rule = Rule(clauses: seq<seq<string>>, topic: Topic)

  const Rules: seq<Rule> := [
    Rule([["price", "cost", "pricing"]], Pricing),
    Rule([["how"], ["work", "use"]], HowItWorks),
    Rule([["file", "format", "upload"]], Formats),
    Rule([["ai", "technology"]], Technology),
    Rule([["security", "safe", "privacy"]], Security),
    Rule([["demo", "try", "test"]], Demo),
    Rule([["contact", "support", "help"]], Contact),
    Rule([["hello", "hi", "hey"]], Greeting)
  ]

  /** Some keyword of the set occurs in the message. */
  predicate AnyIn(message: string, keywords: seq<string>) {
    exists k :: 0 <= k < |keywords| && Contains(message, keywords[k])
  }

  /** Every clause of the rule has a keyword in the message. */
  predicate Fires(message: string, clauses: seq<seq<string>>) {
    forall c :: 0 <= c < |clauses| ==> AnyIn(message, clauses[c])
  }

  /** The topic of the first rule at or after index `from` that fires, or Default when none does. */
  function FirstMatch(rules: seq<Rule>, message: string, from: nat): Topic
    decreases |rules| - from
  {
    if from >= |rules| then Default
    else if Fires(message, rules[from].clauses) then rules[from].topic
    else FirstMatch(rules, message, from + 1)
  }

  /** The rules a generic first-match evaluation can tell apart by their result. */
  ghost predicate DistinctTopics(rules: seq<Rule>) {
    (forall j :: 0 <= j < |rules| ==> rules[j].topic != Default)
    && (forall i, j :: 0 <= i < j < |rules| ==> rules[i].topic != rules[j].topic)
  }

  // ----- Properties -----

  /** Rule k of the table fires exactly when the condition of the k-th test of the chain holds. */
  lemma RuleCondition(m: string, k: nat)
    requires k < |Rules|
    ensures k == 0 ==> (Fires(m, Rules[k].clauses) <==>
      Contains(m, "price") || Contains(m, "cost") || Contains(m, "pricing"))
    ensures k == 1 ==> (Fires(m, Rules[k].clauses) <==>
      Contains(m, "how") && (Contains(m, "work") || Contains(m, "use")))
    ensures k == 2 ==> (Fires(m, Rules[k].clauses) <==>
      Contains(m, "file") || Contains(m, "format") || Contains(m, "upload"))
    ensures k == 3 ==> (Fires(m, Rules[k].clauses) <==>
      Contains(m, "ai") || Contains(m, "technology"))
    ensures k == 4 ==> (Fires(m, Rules[k].clauses) <==>
      Contains(m, "security") || Contains(m, "safe") || Contains(m, "privacy"))
    ensures k == 5 ==> (Fires(m, Rules[k].clauses) <==>
      Contains(m, "demo") || Contains(m, "try") || Contains(m, "test"))
    ensures k == 6 ==> (Fires(m, Rules[k].clauses) <==>
      Contains(m, "contact") || Contains(m, "support") || Contains(m, "help"))
    ensures k == 7 ==> (Fires(m, Rules[k].clauses) <==>
      Contains(m, "hello") || Contains(m, "hi") || Contains(m, "hey"))
  {
    var cl := Rules[k].clauses;
    if k == 1 {
      assert cl == [["how"], ["work", "use"]];
      assert Fires(m, cl) == (AnyIn(m, cl[0]) && AnyIn(m, cl[1]));
      assert cl[0][0] == "how" && |cl[0]| == 1;
      assert cl[1][0] == "work" && cl[1][1] == "use" && |cl[1]| == 2;
    } else {
      assert |cl| == 1;
      assert Fires(m, cl) == AnyIn(m, cl[0]);
      var ks := cl[0];
      if k == 3 {
        assert ks[0] == "ai" && ks[1] == "technology" && |ks| == 2;
      } else {
        assert |ks| == 3;
        assert AnyIn(m, ks) == (Contains(m, ks[0]) || Contains(m, ks[1]) || Contains(m, ks[2]));
      }
    }
  }

  /** The chain as written and the table evaluated first-match agree on every input. */
  lemma TableAgrees(userMessage: string)
    ensures Classify(userMessage) == FirstMatch(Rules, Lower(userMessage), 0)
  {
    var m := Lower(userMessage);
    RuleCondition(m, 0);
    RuleCondition(m, 1);
    RuleCondition(m, 2);
    RuleCondition(m, 3);
    RuleCondition(m, 4);
    RuleCondition(m, 5);
    RuleCondition(m, 6);
    RuleCondition(m, 7);
    assert FirstMatch(Rules, m, 8) == Default;
  }

  /** A topic that no rule from `from` on carries is never the first match. */
  lemma {:induction false} FirstMatchAvoids(rules: seq<Rule>, message: string, from: nat, t: Topic)
    requires t != Default && forall j :: from <= j < |rules| ==> rules[j].topic != t
    ensures FirstMatch(rules, message, from) != t
    decreases |rules| - from
  {
    if from < |rules| {
      FirstMatchAvoids(rules, message, from + 1, t);
    }
  }

  /**
   * First match wins, for any table: rule k decides exactly when it fires
   * and no rule between `from` and k fires.
   */
  lemma {:induction false} FirstMatchIs(rules: seq<Rule>, message: string, from: nat, k: nat)
    requires DistinctTopics(rules) && from <= k < |rules|
    ensures FirstMatch(rules, message, from) == rules[k].topic <==>
      Fires(message, rules[k].clauses) && forall j :: from <= j < k ==> !Fires(message, rules[j].clauses)
    decreases k - from
  {
    if from < k {
      FirstMatchIs(rules, message, from + 1, k);
    } else {
      FirstMatchAvoids(rules, message, k + 1, rules[k].topic);
    }
  }

  /** The default topic is chosen exactly when no rule from `from` on fires. */
  lemma {:induction false} FirstMatchDefault(rules: seq<Rule>, message: string, from: nat)
    requires DistinctTopics(rules)
    ensures FirstMatch(rules, message, from) == Default <==>
      forall j :: from <= j < |rules| ==> !Fires(message, rules[j].clauses)
    decreases |rules| - from
  {
    if from < |rules| {
      FirstMatchDefault(rules, message, from + 1);
    }
  }

  lemma RulesDistinct()
    ensures DistinctTopics(Rules)
  {
  }

  /**
   * First match wins, for the bot's own rules: the reply of rule k is given
   * exactly when rule k fires on the lower-cased input and no earlier rule does.
   */
  lemma ResponseOfRule(userMessage: string, k: nat)
    requires k < |Rules|
    ensures Classify(userMessage) == Rules[k].topic <==>
      Fires(Lower(userMessage), Rules[k].clauses) &&
      forall j :: 0 <= j < k ==> !Fires(Lower(userMessage), Rules[j].clauses)
  {
    TableAgrees(userMessage);
    RulesDistinct();
    FirstMatchIs(Rules, Lower(userMessage), 0, k);
  }

  /** The default reply is given exactly when no keyword rule fires. */
  lemma DefaultIff(userMessage: string)
    ensures Classify(userMessage) == Default <==>
      forall j :: 0 <= j < |Rules| ==> !Fires(Lower(userMessage), Rules[j].clauses)
  {
    TableAgrees(userMessage);
    RulesDistinct();
    FirstMatchDefault(Rules, Lower(userMessage), 0);
  }

  /** The input is lower-cased before matching: inputs equal up to case get the same reply. */
  lemma CaseInsensitive(s: string, t: string)
    requires Lower(s) == Lower(t)
    ensures Classify(s) == Classify(t) && GetResponse(s) == GetResponse(t)
  {
  }

  /** In particular an input and its lower-cased form get the same reply. */
  lemma SameReplyAsLowered(s: string)
    ensures GetResponse(s) == GetResponse(Lower(s))
  {
    LowerIdempotent(s);
    CaseInsensitive(s, Lower(s));
  }

  /**
   * A pricing keyword wins even when later rules fire too, as in
   * "How do I use this and what's the pricing?", where the how-it-works
   * rule fires as well.
   */
  lemma PricingWins(userMessage: string)
    requires var m := Lower(userMessage);
      Contains(m, "price") || Contains(m, "cost") || Contains(m, "pricing")
    ensures Classify(userMessage) == Pricing && GetResponse(userMessage) == Reply(Pricing)
  {
  }

  /** "how" alone is not enough for the how-it-works reply: "work" or "use" must occur too. */
  lemma HowNeedsWorkOrUse(userMessage: string)
    requires var m := Lower(userMessage);
      Contains(m, "how") && !Contains(m, "work") && !Contains(m, "use")
    ensures Classify(userMessage) != HowItWorks
  {
  }

  /** Any text that contains "this" contains "hi". */
  lemma ThisContainsHi(m: string)
    requires Contains(m, "this")
    ensures Contains(m, "hi")
  {
    var i := ContainsWitness(m, "this");
    assert m[i + 1..i + 3] == m[i..i + 4][1..3] == "hi";
    ContainsAt(m, "hi", i + 1);
  }

  /**
   * Keywords match as substrings, not words: "this" contains "hi", so an
   * input with "this" and no earlier keyword is greeted.
   */
  lemma ThisIsAGreeting(userMessage: string)
    requires Contains(Lower(userMessage), "this")
    requires forall j :: 0 <= j < 7 ==> !Fires(Lower(userMessage), Rules[j].clauses)
    ensures Classify(userMessage) == Greeting && GetResponse(userMessage) == Reply(Greeting)
  {
    ThisContainsHi(Lower(userMessage));
    RuleCondition(Lower(userMessage), 7);
    ResponseOfRule(userMessage, 7);
  }
}
