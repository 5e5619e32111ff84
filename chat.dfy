/**
 * The chat route: the greeting heuristic `is_greeting` and the `chat` handler
 * up to and including the check of the language-model service's status code.
 * The HTTP call itself is a parameter: `upstream` gives the response the
 * service returns for a request payload.
 */
module Chat {
  import opened Wrappers
  import opened PyStr
  import Chain

  /** Phrases whose presence anywhere in the lower-cased, stripped question marks a greeting. */
  const Greetings: seq<string> :=
    ["hello", "hi", "hey", "how are you", "good morning", "good afternoon", "good evening", "what's up", "sup"]
  /** Whole questions of at most three words that are greetings. */
  const ShortGreetings: seq<string> := ["hi", "hello", "hey", "yo"]

  const GreetingContext := "Greeting detected - respond naturally as an AI assistant."
  const DocumentationHeader := "Relevant documentation:\n\n"
  const NoMessagesDetail := "No messages provided"
  const UpstreamErrorPrefix := "Ollama API error: "
  const Temperature: real := 0.1

  /** `is_greeting(question)`. */
  predicate IsGreeting(question: string) {
    var questionLower := Strip(Lower(question));
    || (exists g :: g in Greetings && IsSubstring(g, questionLower))
    || (WordCount(question) <= 3 && questionLower in ShortGreetings)
  }

  /** One entry of the request body's `messages` list. */
  datatype Message = Message(role: string, content: string)

  /** The roles of the outbound messages: `"system"`, `"assistant"` and `"user"`. */
  datatype Role = System | Assistant | User

  datatype ChatMessage = ChatMessage(role: Role, content: string)

  /** The JSON payload posted to the chat-completion service. */
  datatype OllamaRequest = OllamaRequest(model: string, messages: seq<ChatMessage>, stream: bool, temperature: real)

  /** The service's response: its status code, raw text and parsed JSON body. */
  datatype UpstreamResponse = UpstreamResponse(statusCode: int, text: string, json: string)

  /** What the handler ends with: an `HTTPException`, or the service's JSON body. */
  datatype ChatOutcome = HttpError(statusCode: int, detail: string) | Reply(json: string)

  /** The settings and module constants the handler reads: model name and `SYSTEM_PROMPT`. */
  datatype ChatConfig = ChatConfig(model: string, systemPrompt: string)

  /** The context for a question: the greeting instruction, or what retrieval returns. */
  function ContextFor(question: string, services: Result<Chain.Backend, string>, fmt: real -> string): string {
    if IsGreeting(question) then GreetingContext
    else Chain.RetrieveContextSpec(question, Chain.DefaultTopK, services, fmt)
  }

  /**
   * `chat`. `retrieved` says whether `retrieve_context` was called; `sent` is the
   * payload posted upstream, `None` when the request was rejected first.
   */
  method HandleChat(messages: seq<Message>, config: ChatConfig, services: Result<Chain.Backend, string>,
                    fmt: real -> string, upstream: OllamaRequest -> UpstreamResponse)
    returns (outcome: ChatOutcome, sent: Option<OllamaRequest>, retrieved: bool)
    ensures messages == [] ==> outcome == HttpError(400, NoMessagesDetail) && sent == None && !retrieved
    ensures messages != [] ==>
      var question := messages[|messages| - 1].content;
      var context := ContextFor(question, services, fmt);
      && retrieved == !IsGreeting(question)
      && sent == Some(OllamaRequest(config.model,
                                    [ChatMessage(System, config.systemPrompt),
                                     ChatMessage(Assistant, DocumentationHeader + context),
                                     ChatMessage(User, question)],
                                    false, Temperature))
      && var response := upstream(sent.value);
      outcome == if response.statusCode != 200 then HttpError(response.statusCode, UpstreamErrorPrefix + response.text)
                 else Reply(response.json)
  {
    if |messages| == 0 {
      return HttpError(400, NoMessagesDetail), None, false;
    }
    var userQuestion := messages[|messages| - 1].content;
    var context: string;
    if IsGreeting(userQuestion) {
      context := GreetingContext;
      retrieved := false;
    } else {
      context := Chain.RetrieveContext(userQuestion, Chain.DefaultTopK, services, fmt);
      retrieved := true;
    }
    var outbound := [
      ChatMessage(System, config.systemPrompt),
      ChatMessage(Assistant, DocumentationHeader + context),
      ChatMessage(User, userQuestion)
    ];
    var payload := OllamaRequest(config.model, outbound, false, Temperature);
    sent := Some(payload);
    var response := upstream(payload);
    if response.statusCode != 200 {
      return HttpError(response.statusCode, UpstreamErrorPrefix + response.text), sent, retrieved;
    }
    outcome := Reply(response.json);
  }

  // ---------------------------------------------------------------------
  // Properties of the greeting heuristic

  /** Some greeting phrase occurs in `s`. */
  predicate ContainsGreeting(s: string) {
    exists g :: g in Greetings && IsSubstring(g, s)
  }

  /**
   * `is_greeting` holds exactly when the lower-cased, stripped question contains a
   * greeting phrase or is `"yo"`: the word-count test never decides anything,
   * and the `hi`/`hello`/`hey` equalities are covered by the substring test.
   */
  lemma IsGreetingCharacterized(question: string)
    ensures IsGreeting(question) <==>
      ContainsGreeting(Strip(Lower(question))) || Strip(Lower(question)) == "yo"
  {
    var questionLower := Strip(Lower(question));
    if questionLower in ShortGreetings && questionLower != "yo" {
      assert questionLower in Greetings;
      IsSubstringIff(questionLower, questionLower);
      assert OccursAt(questionLower, questionLower, 0);
    }
    if questionLower == "yo" {
      WordCountAtMostNonSpace(question);
      LowerKeepsNonSpace(question);
      StripKeepsNonSpace(Lower(question));
      assert NonSpaceCount(questionLower) == 2;
    }
  }

  /** A question that normalizes to a greeting phrase itself is a greeting. */
  lemma GreetingPhraseIsGreeting(question: string)
    requires Strip(Lower(question)) in Greetings
    ensures IsGreeting(question)
  {
    var questionLower := Strip(Lower(question));
    IsSubstringIff(questionLower, questionLower);
    assert OccursAt(questionLower, questionLower, 0);
  }

  /** `"Hello"` and `"hi"` are greetings. */
  lemma GreetingExamples()
    ensures IsGreeting("Hello") && IsGreeting("hi")
  {
    assert Strip(Lower("Hello")) == "hello";
    GreetingPhraseIsGreeting("Hello");
    assert Strip(Lower("hi")) == "hi";
    GreetingPhraseIsGreeting("hi");
  }

  /** Case and surrounding whitespace do not matter: `" Sup\n"` is a greeting. */
  lemma PaddedGreeting()
    ensures IsGreeting(" Sup\n")
  {
    assert Lower(" Sup\n") == " sup\n";
    assert TrimStart(" sup\n") == "sup\n";
    assert TrimEnd("sup\n") == "sup";
    GreetingPhraseIsGreeting(" Sup\n");
  }

  /** Substring matching misfires on ordinary words: `"this"` contains `"hi"`. */
  lemma ThisIsAGreeting()
    ensures IsGreeting("this")
  {
    assert Strip(Lower("this")) == "this";
    assert IsSubstring("hi", "this");
  }

  // An ordinary technical question, "How do I configure a connection pool?", is
  // handled in two pieces `x + y`: facts about each literal piece are proved in
  // lemmas of their own, so that no proof has to unfold the whole literal at once.

  lemma LowerQuestionStart(x: string)
    requires x == "How do I configure a "
    ensures Lower(x) == "how do i configure a "
  {
    var lowered := "how do i configure a ";
    assert forall i :: 0 <= i < |x| ==> lowered[i] == LowerChar(x[i]);
    assert Lower(x) == lowered;
  }

  lemma LowerQuestionEnd(y: string)
    requires y == "connection pool?"
    ensures Lower(y) == y
  {
    assert forall i :: 0 <= i < |y| ==> y[i] == LowerChar(y[i]);
    assert Lower(y) == y;
  }

  lemma LoweredQuestionIsStripped(x: string, y: string)
    requires x == "how do i configure a " && y == "connection pool?"
    ensures TrimStart(x + y) == x + y && TrimEnd(x + y) == x + y
  {
    assert (x + y)[0] == 'h';
    assert (x + y)[|x + y| - 1] == '?';
  }

  /** Lower-casing and stripping the technical question. */
  lemma TechnicalQuestionNormalized(x: string, y: string)
    requires x == "How do I configure a " && y == "connection pool?"
    ensures Strip(Lower(x + y)) == "how do i configure a " + y
  {
    LowerQuestionStart(x);
    LowerQuestionEnd(y);
    LowerAppend(x, y);
    LoweredQuestionIsStripped("how do i configure a ", y);
  }

  lemma LoweredStartLetters(x: string)
    requires x == "how do i configure a "
    ensures 's' !in x && 'y' !in x && 'm' !in x && 'v' !in x
  {
  }

  lemma LoweredEndLetters(y: string)
    requires y == "connection pool?"
    ensures 's' !in y && 'y' !in y && 'm' !in y && 'v' !in y
  {
  }

  /** Letters of the greeting phrases that the normalized question lacks. */
  lemma LoweredQuestionLetters(x: string, y: string)
    requires x == "how do i configure a " && y == "connection pool?"
    ensures 's' !in x + y && 'y' !in x + y && 'm' !in x + y && 'v' !in x + y
  {
    LoweredStartLetters(x);
    LoweredEndLetters(y);
  }

  /** `h` occurs once in the normalized question, followed by `o`. */
  lemma LoweredQuestionAroundH(x: string, y: string)
    requires x == "how do i configure a " && y == "connection pool?"
    ensures x + y == [] + ['h'] + (x[1..] + y)
    ensures 'h' !in x[1..] + y && (x[1..] + y)[0] == 'o'
  {
  }

  /** `g` occurs once in the normalized question, followed by `u`. */
  lemma LoweredQuestionAroundG(x: string, y: string)
    requires x == "how do i configure a " && y == "connection pool?"
    ensures x + y == x[..14] + ['g'] + (x[15..] + y)
    ensures 'g' !in x[..14] && 'g' !in x[15..] + y && (x[15..] + y)[0] == 'u'
  {
  }

  /** The six phrases holding a letter the normalized question lacks do not occur in it. */
  lemma TechnicalQuestionLacksLetters(x: string, y: string)
    requires x == "how do i configure a " && y == "connection pool?"
    ensures !IsSubstring("sup", x + y) && !IsSubstring("what's up", x + y)
    ensures !IsSubstring("hey", x + y) && !IsSubstring("how are you", x + y)
    ensures !IsSubstring("good morning", x + y) && !IsSubstring("good evening", x + y)
  {
    var lowered := x + y;
    LoweredQuestionLetters(x, y);
    AbsentCharNotSubstring("sup", lowered, 's');
    AbsentCharNotSubstring("what's up", lowered, 's');
    AbsentCharNotSubstring("hey", lowered, 'y');
    AbsentCharNotSubstring("how are you", lowered, 'y');
    AbsentCharNotSubstring("good morning", lowered, 'm');
    AbsentCharNotSubstring("good evening", lowered, 'v');
  }

  /** `hi`, `hello` and `good afternoon` do not occur in the normalized question. */
  lemma TechnicalQuestionLacksPrefixes(x: string, y: string)
    requires x == "how do i configure a " && y == "connection pool?"
    ensures !IsSubstring("hi", x + y) && !IsSubstring("hello", x + y)
    ensures !IsSubstring("good afternoon", x + y)
  {
    LoweredQuestionAroundH(x, y);
    UniqueFirstCharNotSubstring("hi", [], 'h', x[1..] + y);
    UniqueFirstCharNotSubstring("hello", [], 'h', x[1..] + y);
    LoweredQuestionAroundG(x, y);
    UniqueFirstCharNotSubstring("good afternoon", x[..14], 'g', x[15..] + y);
  }

  /** No greeting phrase occurs in the normalized technical question. */
  lemma TechnicalQuestionHasNoGreeting(x: string, y: string)
    requires x == "how do i configure a " && y == "connection pool?"
    ensures !ContainsGreeting(x + y)
  {
    TechnicalQuestionLacksLetters(x, y);
    TechnicalQuestionLacksPrefixes(x, y);
  }

  /**
   * Substring matching does reject an ordinary technical question:
   * `"How do I configure a connection pool?"` is not a greeting.
   */
  lemma TechnicalQuestionIsNotAGreeting(x: string, y: string)
    requires x == "How do I configure a " && y == "connection pool?"
    ensures !IsGreeting(x + y)
  {
    TechnicalQuestionNormalized(x, y);
    TechnicalQuestionHasNoGreeting("how do i configure a ", y);
    IsGreetingCharacterized(x + y);
  }
}
