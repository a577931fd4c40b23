/**
 * Worked examples of the reply engine on concrete inputs.
 */
module ResponseExamples {
  import opened Text
  import opened ResponseEngine

  /**
   * A message without any of the letters p, c, w, f, u, a, t, s and d holds
   * no keyword of the first seven rules: each of those keywords has one of
   * these letters.
   */
  lemma NoEarlierKeyword(m: string)
    requires 'p' !in m && 'c' !in m && 'w' !in m && 'f' !in m && 'u' !in m
    requires 'a' !in m && 't' !in m && 's' !in m && 'd' !in m
    ensures !Contains(m, "price") && !Contains(m, "cost") && !Contains(m, "pricing")
    ensures !Contains(m, "how")
    ensures !Contains(m, "file") && !Contains(m, "format") && !Contains(m, "upload")
    ensures !Contains(m, "ai") && !Contains(m, "technology")
    ensures !Contains(m, "security") && !Contains(m, "safe") && !Contains(m, "privacy")
    ensures !Contains(m, "demo") && !Contains(m, "try") && !Contains(m, "test")
    ensures !Contains(m, "contact") && !Contains(m, "support") && !Contains(m, "help")
  {
    var ks := ["price", "cost", "pricing"];
    NoneContained(m, ks, "pcp");
    assert !Contains(m, ks[0]) && !Contains(m, ks[1]) && !Contains(m, ks[2]);
    ks := ["how"];
    NoneContained(m, ks, "w");
    assert !Contains(m, ks[0]);
    ks := ["file", "format", "upload"];
    NoneContained(m, ks, "ffu");
    assert !Contains(m, ks[0]) && !Contains(m, ks[1]) && !Contains(m, ks[2]);
    ks := ["ai", "technology"];
    NoneContained(m, ks, "at");
    assert !Contains(m, ks[0]) && !Contains(m, ks[1]);
    ks := ["security", "safe", "privacy"];
    NoneContained(m, ks, "ssp");
    assert !Contains(m, ks[0]) && !Contains(m, ks[1]) && !Contains(m, ks[2]);
    ks := ["demo", "try", "test"];
    NoneContained(m, ks, "dtt");
    assert !Contains(m, ks[0]) && !Contains(m, ks[1]) && !Contains(m, ks[2]);
    ks := ["contact", "support", "help"];
    NoneContained(m, ks, "csp");
    assert !Contains(m, ks[0]) && !Contains(m, ks[1]) && !Contains(m, ks[2]);
  }

  /** A message without the letter h holds no greeting keyword. */
  lemma NoGreetingKeyword(m: string)
    requires 'h' !in m
    ensures !Contains(m, "hello") && !Contains(m, "hi") && !Contains(m, "hey")
  {
    var ks := ["hello", "hi", "hey"];
    NoneContained(m, ks, "hhh");
    assert !Contains(m, ks[0]) && !Contains(m, ks[1]) && !Contains(m, ks[2]);
  }

  /** The letters that "hello" lacks. */
  lemma HelloLetters(m: string)
    requires m == "hello"
    ensures 'p' !in m && 'c' !in m && 'w' !in m && 'f' !in m && 'u' !in m
    ensures 'a' !in m && 't' !in m && 's' !in m && 'd' !in m
  {
  }

  /** The letters that "xyzzy" lacks. */
  lemma XyzzyLetters(m: string)
    requires m == "xyzzy"
    ensures 'p' !in m && 'c' !in m && 'w' !in m && 'f' !in m && 'u' !in m
    ensures 'a' !in m && 't' !in m && 's' !in m && 'd' !in m && 'h' !in m
  {
  }

  /** Any capitalisation of "hello" is greeted. */
  lemma ExampleGreeting(userMessage: string)
    requires Lower(userMessage) == "hello"
    ensures Classify(userMessage) == Greeting && GetResponse(userMessage) == Reply(Greeting)
  {
    var m := Lower(userMessage);
    ContainsAt(m, "hello", 0);
    HelloLetters(m);
    NoEarlierKeyword(m);
  }

  /**
   * "H" followed by the capital I with dot above lower-cases to "hi" and a
   * combining dot, so it holds the keyword "hi" and is greeted.
   */
  lemma ExampleDottedCapital()
    ensures Lower("H\U{130}") == "hi\U{307}"
    ensures Classify("H\U{130}") == Greeting
  {
    var m := Lower("H\U{130}");
    assert m == "hi\U{307}";
    ContainsAt(m, "hi", 0);
    NoEarlierKeyword(m);
  }

  /** An input with none of the keywords, such as "xyzzy", gets the default reply. */
  lemma ExampleDefault(userMessage: string)
    requires Lower(userMessage) == "xyzzy"
    ensures Classify(userMessage) == Default && GetResponse(userMessage) == Reply(Default)
  {
    var m := Lower(userMessage);
    XyzzyLetters(m);
    NoEarlierKeyword(m);
    NoGreetingKeyword(m);
  }
}
