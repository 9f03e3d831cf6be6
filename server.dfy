/**
 * The chat relay of src/server.js: the `POST /api/chat` turn handler and the two
 * read endpoints over the messages table.
 *
 * The relational store is a `Database` object holding the `messages` table as
 * an append-only log and the `usage_counters` table as a map keyed by
 * (session, day). What the store and the completion provider do with a call is
 * not visible to the service, so each call's outcome is an input to the model:
 * a store call is done, answers with an error value, or throws; the provider is
 * not configured, throws, or returns optional content and optional token usage.
 */
module Server {
  import opened Wrappers
  import opened JsString

  // ---------------------------------------------------------------- JSON body

  /** A JSON value as the body parser produces it. */
  datatype Json =
    | JNull
    | JBool(b: bool)
    | JNum(n: real)
    | JStr(s: string)
    | JArray(items: seq<Json>)
    | JObject(fields: map<string, Json>)

  /** Reading a property of the request body; `None` is `undefined`. */
  function Property(body: map<string, Json>, name: string): Option<Json> {
    if name in body then Some(body[name]) else None
  }

  /** `a ?? b`: the right operand exactly when the left one is null or undefined. */
  function Coalesce(a: Option<Json>, b: Option<Json>): (r: Option<Json>)
    ensures a == None || a == Some(JNull) ==> r == b
    ensures a != None && a != Some(JNull) ==> r == a
    ensures r == None || r == Some(JNull) ==> b == None || b == Some(JNull)
  {
    if a == None || a == Some(JNull) then b else a
  }

  /** JavaScript truthiness of a property read. */
  predicate Truthy(v: Option<Json>)
    ensures Truthy(v) ==> v.Some? && v.value != JNull
    ensures v.Some? && v.value.JStr? ==> (Truthy(v) <==> v.value.s != "")
    ensures v.Some? && (v.value.JArray? || v.value.JObject?) ==> Truthy(v)
  {
    match v
    case None => false
    case Some(j) =>
      match j
      case JNull => false
      case JBool(b) => b
      case JNum(n) => n != 0.0
      case JStr(s) => s != ""
      case JArray(_) => true
      case JObject(_) => true
  }

  // ---------------------------------------------------------------- the store

  datatype Role = User | Assistant

  /** A row of the messages table; `createdTime` is assigned by the store on insert. */
  datatype Message = Message(session: Json, role: Role, text: string, createdTime: nat)

  /** A usage_counters row is keyed by (session_identifier, day). */
  type CounterKey = (Json, string)

  /** The store's tables; `clock` is the creation time the next inserted row receives. */
  datatype Db = Db(messages: seq<Message>, counters: map<CounterKey, int>, clock: nat)

  /** What a store call does: it is applied, it answers with an error value, or it throws. */
  datatype StoreOutcome = Done | Rejected(message: string) | Raised(message: string)

  /** Creation times increase along the log, so its order is the order of `created_time`. */
  predicate Chronological(log: seq<Message>) {
    forall i, j :: 0 <= i < j < |log| ==> log[i].createdTime < log[j].createdTime
  }

  predicate WellStamped(db: Db) {
    && Chronological(db.messages)
    && forall i :: 0 <= i < |db.messages| ==> db.messages[i].createdTime < db.clock
  }

  /** A message insert: the row is appended only when the insert is applied. */
  function Inserted(db: Db, session: Json, role: Role, text: string, outcome: StoreOutcome): (r: Db)
    ensures outcome.Done? ==>
      r.messages == db.messages + [Message(session, role, text, db.clock)] && r.clock == db.clock + 1
    ensures !outcome.Done? ==> r == db
    ensures WellStamped(db) ==> WellStamped(r)
    ensures r.counters == db.counters
  {
    if outcome.Done? then Db(db.messages + [Message(session, role, text, db.clock)], db.counters, db.clock + 1)
    else db
  }

  /** A counter upsert on conflict (session, day): the new total replaces the old one. */
  function CounterUpserted(db: Db, key: CounterKey, tokens: int, outcome: StoreOutcome): (r: Db)
    ensures r.messages == db.messages && r.clock == db.clock
    ensures outcome.Done? ==> key in r.counters && r.counters[key] == tokens
    ensures !outcome.Done? ==> r == db
    ensures outcome.Done? ==> r.counters.Keys == db.counters.Keys + {key}
    ensures forall k :: k in db.counters && k != key ==> k in r.counters && r.counters[k] == db.counters[k]
  {
    if outcome.Done? then Db(db.messages, db.counters[key := tokens], db.clock) else db
  }

  /** The store shared by all requests. */
  class Database {
    var messages: seq<Message>
    var counters: map<CounterKey, int>
    var clock: nat

    function State(): Db
      reads this
    {
      Db(messages, counters, clock)
    }

    ghost predicate Valid()
      reads this
    {
      WellStamped(State())
    }

    constructor ()
      ensures Valid() && State() == Db([], map[], 0)
    {
      messages, counters, clock := [], map[], 0;
    }

    /** `supabase.from("messages").insert([...])`; returns the message of a thrown error. */
    method Insert(session: Json, role: Role, text: string, outcome: StoreOutcome) returns (thrown: Option<string>)
      requires Valid()
      modifies this
      ensures Valid()
      ensures State() == Inserted(old(State()), session, role, text, outcome)
      ensures thrown == if outcome.Raised? then Some(outcome.message) else None
    {
      thrown := None;
      match outcome {
        case Done =>
          messages := messages + [Message(session, role, text, clock)];
          clock := clock + 1;
        case Rejected(_) =>
        case Raised(e) =>
          thrown := Some(e);
      }
    }

    /** `supabase.from("usage_counters").upsert(..., { onConflict: "session_identifier,day" })`. */
    method UpsertCounter(key: CounterKey, tokens: int, outcome: StoreOutcome)
      requires Valid()
      modifies this
      ensures Valid()
      ensures State() == CounterUpserted(old(State()), key, tokens, outcome)
    {
      if outcome.Done? {
        counters := counters[key := tokens];
      }
    }
  }

  // ---------------------------------------------------------------- the completion provider

  /** Token counts as the provider reports them; either may be missing. */
  datatype TokenUsage = TokenUsage(tokensIn: Option<int>, tokensOut: Option<int>)

  /** What one completion call does: it throws, or returns optional text and optional usage. */
  datatype ProviderOutcome =
    | Threw(message: string)
    | Returned(content: Option<string>, usage: Option<TokenUsage>)

  /** A client exists only when an API key is configured. */
  datatype Provider = NotConfigured | Configured(outcome: ProviderOutcome)

  /** The arguments of `oi.chat.completions.create`; the temperature is 0.7, in tenths. */
  datatype CompletionRequest = CompletionRequest(
    model: string, system: string, user: string, maxTokens: int, temperatureTenths: nat)

  const TokenCeiling := 200
  const DefaultModel := "gpt-4o-mini"
  const SystemPrompt := "Be concise and helpful."

  /** `Math.min(MAX_TOKENS, Number(MAX_OUTPUT_TOKENS || MAX_TOKENS))`, with an unset or empty setting as `None`. */
  function MaxTokens(configured: Option<int>): (r: int)
    ensures r <= TokenCeiling
    ensures configured.None? ==> r == TokenCeiling
    ensures configured.Some? ==> r == configured.value || (r == TokenCeiling < configured.value)
  {
    Min(TokenCeiling, configured.GetOr(TokenCeiling))
  }

  /** `process.env.OPENAI_MODEL || "gpt-4o-mini"`, with an unset variable as the empty string. */
  function ModelName(configured: string): (r: string)
    ensures r != ""
    ensures configured != "" ==> r == configured
    ensures configured == "" ==> r == DefaultModel
  {
    if configured == "" then DefaultModel else configured
  }

  /** The request the handler sends for a question. */
  /** The request of `src/server.js:97-105`: configured model, fixed system prompt, the raw question, the capped tokens, temperature 0.7. */
  function CompletionFor(question: string, env: ChatEnv): (r: CompletionRequest)
    ensures r.model == ModelName(env.model) && r.system == SystemPrompt && r.user == question
    ensures r.maxTokens == MaxTokens(env.maxOutputTokens) <= TokenCeiling && r.temperatureTenths == 7
  {
    CompletionRequest(ModelName(env.model), SystemPrompt, question, MaxTokens(env.maxOutputTokens), 7)
  }

  // ---------------------------------------------------------------- the turn

  datatype Mode = OpenAi | Echo

  /** The HTTP answer of `/api/chat`. */
  datatype ChatResponse =
    | MissingSession(received: map<string, Json>)
    | MissingQuestion(received: map<string, Json>)
    | InternalError(detail: string)
    | Replied(reply: string, sessionIdentifier: Json, question: string, mode: Mode, usage: Option<TokenUsage>)
  {
    function Status(): int {
      match this
      case MissingSession(_) => 400
      case MissingQuestion(_) => 400
      case InternalError(_) => 500
      case Replied(_, _, _, _, _) => 200
    }
  }

  /** The two fields of a request that passed validation. */
  datatype ChatRequest = ChatRequest(session: Json, question: string)

  /**
   * What the turn depends on besides the body and the store: the provider, the
   * model and token settings, today's date (`toISOString().slice(0, 10)`), and
   * the outcome of each store call the turn makes.
   */
  datatype ChatEnv = ChatEnv(
    provider: Provider,
    model: string,
    maxOutputTokens: Option<int>,
    today: string,
    userWrite: StoreOutcome,
    counterWrite: StoreOutcome,
    assistantWrite: StoreOutcome)

  /** `b.session_identifier ?? b.session_Identifier`. */
  function SessionField(body: map<string, Json>): (r: Option<Json>)
    ensures Property(body, "session_identifier") !in {None, Some(JNull)} ==> r == Property(body, "session_identifier")
    ensures Property(body, "session_identifier") in {None, Some(JNull)} ==> r == Property(body, "session_Identifier")
  {
    Coalesce(Property(body, "session_identifier"), Property(body, "session_Identifier"))
  }

  /** A usable question: a string whose trim is not empty. */
  predicate UsableQuestion(q: Option<Json>) {
    q.Some? && q.value.JStr? && Trim(q.value.s) != ""
  }

  /** The two 400 checks, in order: a truthy session identifier, then a non-blank string question. */
  function ValidateChat(body: map<string, Json>): (r: Result<ChatRequest, ChatResponse>)
    ensures r.Success? <==> Truthy(SessionField(body)) && UsableQuestion(Property(body, "question"))
    ensures r.Success? ==> Some(r.value.session) == SessionField(body)
                           && Property(body, "question") == Some(JStr(r.value.question))
    ensures r.Failure? ==> r.error.Status() == 400 && r.error.received == body
    ensures !Truthy(SessionField(body)) ==> r == Failure(MissingSession(body))
    ensures Truthy(SessionField(body)) && !UsableQuestion(Property(body, "question")) ==>
      r == Failure(MissingQuestion(body))
  {
    var q := Property(body, "question");
    if !Truthy(SessionField(body)) then Failure(MissingSession(body))
    else if !Truthy(q) || !q.value.JStr? || Trim(q.value.s) == "" then Failure(MissingQuestion(body))
    else Success(ChatRequest(SessionField(body).value, q.value.s))
  }

  /** A question made only of whitespace is refused. */
  lemma BlankQuestionRejected(body: map<string, Json>)
    requires "question" in body && body["question"].JStr? && AllWhitespace(body["question"].s)
    ensures ValidateChat(body).Failure?
  {
  }

  /** `Hello! You asked: "<question>"`. */
  function EchoReply(question: string): (r: string)
    ensures |r| == |question| + 20
    ensures r[19..19 + |question|] == question
  {
    "Hello! You asked: \"" + question + "\""
  }

  lemma EchoReplyInjective(a: string, b: string)
    requires EchoReply(a) == EchoReply(b)
    ensures a == b
  {
    assert a == EchoReply(a)[19..19 + |a|];
  }

  /** `r.choices?.[0]?.message?.content?.trim() || reply`. */
  function PickReply(content: Option<string>, fallback: string): (r: string)
    ensures content.None? ==> r == fallback
    ensures content.Some? && AllWhitespace(content.value) ==> r == fallback
    ensures content.Some? && !AllWhitespace(content.value) ==>
      r == Trim(content.value) && r != "" && !IsWhitespace(r[0]) && !IsWhitespace(r[|r| - 1])
  {
    match content
    case None => fallback
    case Some(c) => if Trim(c) != "" then Trim(c) else fallback
  }

  /** `(usage.tokens_in || 0) + (usage.tokens_out || 0)`. */
  function UsageTotal(u: TokenUsage): (r: int)
    ensures u.tokensIn.None? && u.tokensOut.None? ==> r == 0
    ensures u.tokensIn.None? ==> r == u.tokensOut.GetOr(0)
    ensures u.tokensOut.None? ==> r == u.tokensIn.GetOr(0)
    ensures u.tokensIn.Some? && u.tokensOut.Some? ==> r == u.tokensIn.value + u.tokensOut.value
  {
    u.tokensIn.GetOr(0) + u.tokensOut.GetOr(0)
  }

  /** `oi ? "openai" : "echo"`. */
  function ModeOf(p: Provider): (r: Mode)
    ensures r == OpenAi <==> p.Configured?
    ensures r == Echo <==> p.NotConfigured?
  {
    if p.Configured? then OpenAi else Echo
  }

  /** The turn's state, answer and provider request, as the handler leaves them. */
  datatype Turn = Turn(db: Db, response: ChatResponse, sent: Option<CompletionRequest>)

  /** The new log is the old one with at most `extra` rows appended. */
  predicate AppendsAtMost(before: seq<Message>, after: seq<Message>, extra: nat) {
    |before| <= |after| <= |before| + extra && after[..|before|] == before
  }

  /** The assistant insert and the 200 answer; a throwing insert turns the answer into a 500. */
  function Respond(db: Db, req: ChatRequest, reply: string, usage: Option<TokenUsage>,
                   sent: Option<CompletionRequest>, env: ChatEnv): (t: Turn)
    ensures WellStamped(db) ==> WellStamped(t.db)
    ensures AppendsAtMost(db.messages, t.db.messages, 1)
    ensures t.sent == sent
  {
    if env.assistantWrite.Raised? then Turn(db, InternalError(env.assistantWrite.message), sent)
    else Turn(Inserted(db, req.session, Assistant, reply, env.assistantWrite),
              Replied(reply, req.session, req.question, ModeOf(env.provider), usage), sent)
  }

  /** Everything after the user row: the provider call with its fallback, the counter, the answer. */
  function Answer(logged: Db, req: ChatRequest, env: ChatEnv): (t: Turn)
    ensures WellStamped(logged) ==> WellStamped(t.db)
    ensures AppendsAtMost(logged.messages, t.db.messages, 1)
    ensures t.sent.Some? ==> t.sent.value.maxTokens <= TokenCeiling
  {
    var echo := EchoReply(req.question);
    match env.provider
    case NotConfigured => Respond(logged, req, echo, None, None, env)
    case Configured(outcome) =>
      var sent := Some(CompletionFor(req.question, env));
      match outcome
      case Threw(_) => Respond(logged, req, echo, None, sent, env)
      case Returned(content, usage) =>
        var counted :=
          if usage.Some? then CounterUpserted(logged, (req.session, env.today), UsageTotal(usage.value), env.counterWrite)
          else logged;
        Respond(counted, req, PickReply(content, echo), usage, sent, env)
  }

  /** One `POST /api/chat` turn. */
  function ChatTurn(db: Db, body: map<string, Json>, env: ChatEnv): (t: Turn)
    ensures WellStamped(db) ==> WellStamped(t.db)
    ensures AppendsAtMost(db.messages, t.db.messages, 2)
    ensures t.sent.Some? ==> t.sent.value.maxTokens <= TokenCeiling
  {
    match ValidateChat(body)
    case Failure(rejection) => Turn(db, rejection, None)
    case Success(req) =>
      if env.userWrite.Raised? then Turn(db, InternalError(env.userWrite.message), None)
      else
        var logged := Inserted(db, req.session, User, req.question, env.userWrite);
        var t := Answer(logged, req, env);
        assert t.db.messages[..|db.messages|] == t.db.messages[..|logged.messages|][..|db.messages|];
        t
  }

  /**
   * The handler: validate, log the user message, then answer. Returns the
   * answer and the completion request it sent, if any.
   */
  method HandleChat(db: Database, body: map<string, Json>, env: ChatEnv)
    returns (response: ChatResponse, sent: Option<CompletionRequest>)
    requires db.Valid()
    modifies db
    ensures db.Valid()
    ensures var t := ChatTurn(old(db.State()), body, env);
      db.State() == t.db && response == t.response && sent == t.sent
  {
    var checked := ValidateChat(body);
    if checked.Failure? {
      return checked.error, None;
    }
    var req := checked.value;
    var thrown := db.Insert(req.session, User, req.question, env.userWrite);
    if thrown.Some? {
      return InternalError(thrown.value), None;
    }
    TurnAfterUserRow(old(db.State()), body, env);
    response, sent := AnswerTurn(db, req, env);
  }

  /**
   * The rest of the handler: start from the echo reply, ask the provider if
   * one is configured (a thrown call is logged and the echo reply stands),
   * upsert the counter when usage is reported, log the assistant message, answer.
   */
  method AnswerTurn(db: Database, req: ChatRequest, env: ChatEnv)
    returns (response: ChatResponse, sent: Option<CompletionRequest>)
    requires db.Valid()
    modifies db
    ensures db.Valid()
    ensures var t := Answer(old(db.State()), req, env);
      db.State() == t.db && response == t.response && sent == t.sent
  {
    sent := None;
    var reply := EchoReply(req.question);
    var usage: Option<TokenUsage> := None;
    if env.provider.Configured? {
      sent := Some(CompletionFor(req.question, env));
      match env.provider.outcome {
        case Threw(_) =>
        case Returned(content, reported) =>
          reply := PickReply(content, reply);
          usage := reported;
          if usage.Some? {
            db.UpsertCounter((req.session, env.today), UsageTotal(usage.value), env.counterWrite);
          }
      }
    }
    var thrown := db.Insert(req.session, Assistant, reply, env.assistantWrite);
    if thrown.Some? {
      return InternalError(thrown.value), sent;
    }
    response := Replied(reply, req.session, req.question, ModeOf(env.provider), usage);
  }

  // ---------------------------------------------------------------- properties of a turn

  /** After validation and a user insert that did not throw, the turn is the answer step on the logged state. */
  lemma TurnAfterUserRow(db: Db, body: map<string, Json>, env: ChatEnv)
    requires ValidateChat(body).Success? && !env.userWrite.Raised?
    ensures var req := ValidateChat(body).value;
      ChatTurn(db, body, env) == Answer(Inserted(db, req.session, User, req.question, env.userWrite), req, env)
  {
  }

  /** A refused request answers 400 and touches neither the store nor the provider. */
  lemma ValidationLeavesNoTrace(db: Db, body: map<string, Json>, env: ChatEnv)
    requires !Truthy(SessionField(body)) || !UsableQuestion(Property(body, "question"))
    ensures var t := ChatTurn(db, body, env);
      t.db == db && t.sent == None && t.response.Status() == 400 && t.response.received == body
  {
  }

  /** A throwing user insert answers 500 before the provider is called. */
  lemma UserInsertFailureStops(db: Db, body: map<string, Json>, env: ChatEnv)
    requires ValidateChat(body).Success? && env.userWrite.Raised?
    ensures ChatTurn(db, body, env) == Turn(db, InternalError(env.userWrite.message), None)
  {
  }

  /** The answer step: its reply, usage, counter change and the one row it may append. */
  lemma AnswerShape(logged: Db, req: ChatRequest, env: ChatEnv)
    ensures var t := Answer(logged, req, env);
      var reply := AnswerReply(req, env);
      var usage := AnswerUsage(env);
      && t.sent == (if env.provider.Configured? then Some(CompletionFor(req.question, env)) else None)
      && (env.assistantWrite.Raised? ==> t.response == InternalError(env.assistantWrite.message))
      && (!env.assistantWrite.Raised? ==>
            t.response == Replied(reply, req.session, req.question, ModeOf(env.provider), usage))
      && t.db.messages == logged.messages
           + (if env.assistantWrite.Done? then [Message(req.session, Assistant, reply, logged.clock)] else [])
      && t.db.counters == (if usage.Some? && env.counterWrite.Done?
                           then logged.counters[(req.session, env.today) := UsageTotal(usage.value)]
                           else logged.counters)
  {
    var echo := EchoReply(req.question);
    match env.provider
    case NotConfigured =>
    case Configured(outcome) =>
      match outcome
      case Threw(_) =>
      case Returned(content, usage) =>
  }

  /** The reply the answer step settles on: the trimmed completion text if usable, else the echo template. */
  function AnswerReply(req: ChatRequest, env: ChatEnv): string {
    var echo := EchoReply(req.question);
    if env.provider.Configured? && env.provider.outcome.Returned? then PickReply(env.provider.outcome.content, echo)
    else echo
  }

  /** The usage the answer step reports: only what a returning provider call reported. */
  function AnswerUsage(env: ChatEnv): Option<TokenUsage> {
    if env.provider.Configured? && env.provider.outcome.Returned? then env.provider.outcome.usage else None
  }

  /**
   * A turn that answers 200 appended the user row (the raw question) and then the
   * assistant row (the reply), each exactly when its insert was applied, both for
   * the request's session.
   */
  lemma UserThenAssistant(db: Db, body: map<string, Json>, env: ChatEnv)
    ensures var t := ChatTurn(db, body, env);
      t.response.Replied? ==>
        && Some(t.response.sessionIdentifier) == SessionField(body)
        && Property(body, "question") == Some(JStr(t.response.question))
        && var userRow := if env.userWrite.Done? then [Message(t.response.sessionIdentifier, User, t.response.question, db.clock)] else [];
           var assistantRow := Message(t.response.sessionIdentifier, Assistant, t.response.reply, db.clock + |userRow|);
           t.db.messages == db.messages + userRow + (if env.assistantWrite.Done? then [assistantRow] else [])
  {
    if ValidateChat(body).Success? && !env.userWrite.Raised? {
      var req := ValidateChat(body).value;
      var logged := Inserted(db, req.session, User, req.question, env.userWrite);
      var userRow := if env.userWrite.Done? then [Message(req.session, User, req.question, db.clock)] else [];
      assert logged.messages == db.messages + userRow && logged.clock == db.clock + |userRow|;
      TurnAfterUserRow(db, body, env);
      AnswerShape(logged, req, env);
    }
  }

  /** With both inserts applied, a valid request leaves exactly two new rows: user, then assistant. */
  lemma ExactlyTwoRows(db: Db, body: map<string, Json>, env: ChatEnv)
    requires ValidateChat(body).Success? && env.userWrite == Done && env.assistantWrite == Done
    ensures var t := ChatTurn(db, body, env); var req := ValidateChat(body).value;
      && t.response.Replied?
      && t.db.messages == db.messages + [Message(req.session, User, req.question, db.clock),
                                         Message(req.session, Assistant, t.response.reply, db.clock + 1)]
  {
    var req := ValidateChat(body).value;
    var t := ChatTurn(db, body, env);
    ValidTurnReplies(db, body, env);
    UserThenAssistant(db, body, env);
    var u := Message(req.session, User, req.question, db.clock);
    var a := Message(req.session, Assistant, t.response.reply, db.clock + 1);
    assert t.db.messages == db.messages + [u] + [a];
    assert db.messages + [u] + [a] == db.messages + [u, a];
  }

  /** A valid request whose two inserts do not throw answers 200 for its own session and question. */
  lemma ValidTurnReplies(db: Db, body: map<string, Json>, env: ChatEnv)
    requires ValidateChat(body).Success? && !env.userWrite.Raised? && !env.assistantWrite.Raised?
    ensures var t := ChatTurn(db, body, env); var req := ValidateChat(body).value;
      t.response.Replied? && t.response.sessionIdentifier == req.session && t.response.question == req.question
  {
    var req := ValidateChat(body).value;
    TurnAfterUserRow(db, body, env);
    AnswerShape(Inserted(db, req.session, User, req.question, env.userWrite), req, env);
  }

  /** Without a provider the reply is the echo template, the mode is echo, and nothing is counted. */
  lemma EchoWithoutProvider(db: Db, body: map<string, Json>, env: ChatEnv)
    requires ValidateChat(body).Success? && env.provider == NotConfigured
    requires !env.userWrite.Raised? && !env.assistantWrite.Raised?
    ensures var t := ChatTurn(db, body, env); var q := ValidateChat(body).value.question;
      && t.response == Replied(EchoReply(q), SessionField(body).value, q, Echo, None)
      && t.sent == None
      && t.db.counters == db.counters
  {
    var req := ValidateChat(body).value;
    TurnAfterUserRow(db, body, env);
    AnswerShape(Inserted(db, req.session, User, req.question, env.userWrite), req, env);
  }

  /**
   * A throwing provider call is absorbed: the turn still answers 200 with the
   * echo reply, no usage and no counter change, and the mode still reads openai.
   */
  lemma ProviderFailureAbsorbed(db: Db, body: map<string, Json>, env: ChatEnv)
    requires ValidateChat(body).Success? && env.provider.Configured? && env.provider.outcome.Threw?
    requires !env.userWrite.Raised? && !env.assistantWrite.Raised?
    ensures var t := ChatTurn(db, body, env); var q := ValidateChat(body).value.question;
      && t.response == Replied(EchoReply(q), SessionField(body).value, q, OpenAi, None)
      && t.sent == Some(CompletionFor(q, env))
      && t.db.counters == db.counters
  {
    var req := ValidateChat(body).value;
    TurnAfterUserRow(db, body, env);
    AnswerShape(Inserted(db, req.session, User, req.question, env.userWrite), req, env);
  }

  /** The reply is the trimmed completion text when it has a non-blank one, else the echo template. */
  lemma ReplySelection(db: Db, body: map<string, Json>, env: ChatEnv, content: Option<string>, usage: Option<TokenUsage>)
    requires ValidateChat(body).Success? && env.provider == Configured(Returned(content, usage))
    requires !env.userWrite.Raised? && !env.assistantWrite.Raised?
    ensures var t := ChatTurn(db, body, env); var q := ValidateChat(body).value.question;
      && t.response.Replied?
      && t.response.mode == OpenAi
      && t.response.usage == usage
      && (content.Some? && !AllWhitespace(content.value) ==> t.response.reply == Trim(content.value))
      && (content.None? || AllWhitespace(content.value) ==> t.response.reply == EchoReply(q))
  {
    var req := ValidateChat(body).value;
    TurnAfterUserRow(db, body, env);
    AnswerShape(Inserted(db, req.session, User, req.question, env.userWrite), req, env);
  }

  /** The mode depends only on whether a provider is configured. */
  lemma ModeFollowsConfiguration(db: Db, body: map<string, Json>, env: ChatEnv)
    ensures var t := ChatTurn(db, body, env);
      t.response.Replied? ==> (t.response.mode == OpenAi <==> env.provider.Configured?)
  {
    if ValidateChat(body).Success? && !env.userWrite.Raised? {
      var req := ValidateChat(body).value;
      TurnAfterUserRow(db, body, env);
      AnswerShape(Inserted(db, req.session, User, req.question, env.userWrite), req, env);
    }
  }

  /** A request is sent exactly when a valid request meets a configured provider and the user row did not throw; it carries the ceiling and the raw question. */
  lemma TokenCeilingHonoured(db: Db, body: map<string, Json>, env: ChatEnv)
    ensures var t := ChatTurn(db, body, env);
      t.sent.Some? ==>
        && env.provider.Configured?
        && t.sent.value.maxTokens == MaxTokens(env.maxOutputTokens) <= TokenCeiling
        && t.sent.value.model == ModelName(env.model)
        && Property(body, "question") == Some(JStr(t.sent.value.user))
    ensures ChatTurn(db, body, env).sent.Some? ==> ValidateChat(body).Success? && !env.userWrite.Raised?
    ensures ValidateChat(body).Success? && !env.userWrite.Raised? && env.provider.Configured? ==>
      ChatTurn(db, body, env).sent.Some?
  {
    if ValidateChat(body).Success? && !env.userWrite.Raised? {
      var req := ValidateChat(body).value;
      TurnAfterUserRow(db, body, env);
      AnswerShape(Inserted(db, req.session, User, req.question, env.userWrite), req, env);
    }
  }

  /**
   * The counter changes only when the provider returned a usage report and the
   * upsert was applied; it then holds (tokens_in || 0) + (tokens_out || 0) for
   * the session and day, replacing what was there. The usage is reported in the
   * answer whatever the upsert did.
   */
  lemma UsageCounterOverwrites(db: Db, body: map<string, Json>, env: ChatEnv, u: TokenUsage)
    requires ValidateChat(body).Success? && !env.userWrite.Raised?
    requires env.provider.Configured? && env.provider.outcome.Returned? && env.provider.outcome.usage == Some(u)
    ensures var t := ChatTurn(db, body, env);
      && t.db.counters == (if env.counterWrite.Done?
                           then db.counters[(SessionField(body).value, env.today) := UsageTotal(u)]
                           else db.counters)
      && (!env.assistantWrite.Raised? ==> t.response.Replied? && t.response.usage == Some(u))
  {
    var req := ValidateChat(body).value;
    TurnAfterUserRow(db, body, env);
    AnswerShape(Inserted(db, req.session, User, req.question, env.userWrite), req, env);
  }

  /** Without a usage report the counter table is left as it was. */
  lemma NoUsageNoCounter(db: Db, body: map<string, Json>, env: ChatEnv)
    requires !(env.provider.Configured? && env.provider.outcome.Returned? && env.provider.outcome.usage.Some?)
    ensures ChatTurn(db, body, env).db.counters == db.counters
  {
    if ValidateChat(body).Success? && !env.userWrite.Raised? {
      var req := ValidateChat(body).value;
      TurnAfterUserRow(db, body, env);
      AnswerShape(Inserted(db, req.session, User, req.question, env.userWrite), req, env);
    }
  }

  /** Whether the counter upsert is applied, answers with an error or throws changes nothing but the counter. */
  lemma CounterFailureInvisible(db: Db, body: map<string, Json>, env: ChatEnv, other: StoreOutcome)
    ensures var t := ChatTurn(db, body, env); var u := ChatTurn(db, body, env.(counterWrite := other));
      t.response == u.response && t.sent == u.sent && t.db.messages == u.db.messages
  {
    var env' := env.(counterWrite := other);
    if ValidateChat(body).Success? && !env.userWrite.Raised? {
      var req := ValidateChat(body).value;
      TurnAfterUserRow(db, body, env);
      TurnAfterUserRow(db, body, env');
      var logged := Inserted(db, req.session, User, req.question, env.userWrite);
      AnswerShape(logged, req, env);
      AnswerShape(logged, req, env');
      assert CompletionFor(req.question, env) == CompletionFor(req.question, env');
    }
  }

  /** A body carrying `{question: "hello", session_identifier: "s1"}`, answered without a provider. */
  lemma HelloWithoutProvider(db: Db, body: map<string, Json>, env: ChatEnv)
    requires Property(body, "question") == Some(JStr("hello")) && SessionField(body) == Some(JStr("s1"))
    requires env.provider == NotConfigured && env.userWrite == Done && env.assistantWrite == Done
    ensures var t := ChatTurn(db, body, env);
      && t.response == Replied("Hello! You asked: \"hello\"", JStr("s1"), "hello", Echo, None)
      && t.db.messages == db.messages + [Message(JStr("s1"), User, "hello", db.clock),
                                         Message(JStr("s1"), Assistant, "Hello! You asked: \"hello\"", db.clock + 1)]
  {
    var t := ChatTurn(db, body, env);
    HelloEcho();
    HelloIsValid(body);
    EchoWithoutProvider(db, body, env);
    assert t.response == Replied(EchoReply("hello"), JStr("s1"), "hello", Echo, None);
    ExactlyTwoRows(db, body, env);
    assert t.db.messages == db.messages + [Message(JStr("s1"), User, "hello", db.clock),
                                           Message(JStr("s1"), Assistant, t.response.reply, db.clock + 1)];
  }

  lemma HelloEcho()
    ensures EchoReply("hello") == "Hello! You asked: \"hello\""
  {
  }

  lemma HelloIsValid(body: map<string, Json>)
    requires Property(body, "question") == Some(JStr("hello")) && SessionField(body) == Some(JStr("s1"))
    ensures ValidateChat(body) == Success(ChatRequest(JStr("s1"), "hello"))
  {
    LetterNotWhitespace('h');
    assert "hello"[0] == 'h';
    assert UsableQuestion(Property(body, "question"));
  }

  // ---------------------------------------------------------------- the read endpoints

  /** The `limit` newest rows of a chronological log, newest first. */
  function Latest(log: seq<Message>, limit: nat): (r: seq<Message>)
    ensures |r| == Min(limit, |log|)
    ensures forall i :: 0 <= i < |r| ==> r[i] == log[|log| - 1 - i]
  {
    if limit == 0 || log == [] then [] else [log[|log| - 1]] + Latest(log[..|log| - 1], limit - 1)
  }

  /** The rows of one session, in log order (`.eq("session_identifier", s)`). */
  function OfSession(log: seq<Message>, session: string): (r: seq<Message>)
    ensures forall m :: m in r <==> m in log && m.session == JStr(session)
    ensures Chronological(log) ==> Chronological(r)
  {
    if log == [] then []
    else
      var rest := OfSession(log[..|log| - 1], session);
      var last := log[|log| - 1];
      assert forall m :: m in log <==> m in log[..|log| - 1] || m == last;
      if last.session == JStr(session) then rest + [last] else rest
  }

  predicate NewestFirst(rows: seq<Message>) {
    forall i, j :: 0 <= i < j < |rows| ==> rows[i].createdTime > rows[j].createdTime
  }

  /** Latest returns its rows newest first, and every row it leaves out is older than every row it returns. */
  lemma LatestNewest(log: seq<Message>, limit: nat)
    requires Chronological(log)
    ensures NewestFirst(Latest(log, limit))
    ensures var r := Latest(log, limit);
      forall j, i :: 0 <= j < |log| - |r| && 0 <= i < |r| ==> log[j].createdTime < r[i].createdTime
  {
  }

  /** The answer of `GET /api/history`. */
  datatype HistoryResponse =
    | HistoryMissingSession
    | HistoryDbError(detail: string)
    | HistoryInternalError(detail: string)
    | HistoryOk(session: string, count: nat, messages: seq<Message>)

  const HistoryLimit := 20

  /**
   * `GET /api/history`: the session parameter is `session_identifier ?? session_Identifier`
   * (an unset parameter is `None`); the query's outcome is an input.
   */
  function History(log: seq<Message>, primary: Option<string>, alternate: Option<string>, query: StoreOutcome): (r: HistoryResponse)
    ensures var s := if primary.Some? then primary else alternate;
      (s.None? || s == Some("")) <==> r == HistoryMissingSession
    ensures var s := if primary.Some? then primary else alternate;
      s.Some? && s != Some("") ==>
        && (query.Done? ==> r.HistoryOk? && r.session == s.value)
        && (query.Rejected? ==> r == HistoryDbError(query.message))
        && (query.Raised? ==> r == HistoryInternalError(query.message))
    ensures r.HistoryOk? ==>
      && |r.messages| <= HistoryLimit
      && r.count == |r.messages|
      && (forall m :: m in r.messages ==> m in log && m.session == JStr(r.session))
  {
    var s := if primary.Some? then primary else alternate;
    if s.None? || s == Some("") then HistoryMissingSession
    else match query
      case Raised(e) => HistoryInternalError(e)
      case Rejected(e) => HistoryDbError(e)
      case Done =>
        var rows := Latest(OfSession(log, s.value), HistoryLimit);
        HistoryOk(s.value, |rows|, rows)
  }

  /**
   * On a chronological log a successful history answer is the session's newest
   * rows, newest first: at most 20, all of them when the session has fewer, and
   * none of the session's omitted rows is newer than one returned.
   */
  lemma HistoryNewestFirst(log: seq<Message>, primary: Option<string>, alternate: Option<string>)
    requires Chronological(log)
    ensures var r := History(log, primary, alternate, Done);
      r.HistoryOk? ==>
        && NewestFirst(r.messages)
        && |r.messages| == Min(HistoryLimit, |OfSession(log, r.session)|)
        && (forall m, i :: m in log && m.session == JStr(r.session) && m !in r.messages && 0 <= i < |r.messages|
              ==> m.createdTime < r.messages[i].createdTime)
  {
    var r := History(log, primary, alternate, Done);
    if r.HistoryOk? {
      var rows := OfSession(log, r.session);
      LatestNewest(rows, HistoryLimit);
      forall m, i | m in log && m.session == JStr(r.session) && m !in r.messages && 0 <= i < |r.messages|
        ensures m.createdTime < r.messages[i].createdTime
      {
        OmittedOlder(rows, HistoryLimit, m);
      }
    }
  }

  /** A row of a chronological log that Latest leaves out is older than every row it returns. */
  lemma OmittedOlder(log: seq<Message>, limit: nat, m: Message)
    requires Chronological(log) && m in log && m !in Latest(log, limit)
    ensures forall i :: 0 <= i < |Latest(log, limit)| ==> m.createdTime < Latest(log, limit)[i].createdTime
  {
    var r := Latest(log, limit);
    LatestNewest(log, limit);
    var j :| 0 <= j < |log| && log[j] == m;
    forall k | |log| - |r| <= k < |log|
      ensures log[k] in r
    {
      assert r[|log| - 1 - k] == log[k];
    }
    assert j < |log| - |r|;
  }

  /** The answer of `GET /proof/messages`. */
  datatype ProofResponse = ProofDbError(detail: string) | ProofInternalError(detail: string) | ProofOk(rows: seq<Message>)

  const ProofDefaultLimit := 5
  const ProofMaxLimit := 20

  /** `Math.min(parseInt(req.query.limit ?? "5", 10), 20)`, the parameter already parsed. */
  function ProofLimit(parsed: Option<int>): (r: int)
    ensures r <= ProofMaxLimit
    ensures parsed.None? ==> r == ProofDefaultLimit
    ensures parsed.Some? ==> r == parsed.value || (r == ProofMaxLimit < parsed.value)
  {
    Min(parsed.GetOr(ProofDefaultLimit), ProofMaxLimit)
  }

  /** `GET /proof/messages`: the newest rows across all sessions; a limit below one returns no rows. */
  function ProofMessages(log: seq<Message>, limit: Option<int>, query: StoreOutcome): (r: ProofResponse)
    ensures r.ProofOk? ==> |r.rows| <= ProofMaxLimit && (limit.None? ==> |r.rows| == Min(ProofDefaultLimit, |log|))
    ensures r.ProofOk? ==> forall m :: m in r.rows ==> m in log
    ensures query.Done? <==> r.ProofOk?
    ensures query.Rejected? ==> r == ProofDbError(query.message)
    ensures query.Raised? ==> r == ProofInternalError(query.message)
  {
    match query
    case Raised(e) => ProofInternalError(e)
    case Rejected(e) => ProofDbError(e)
    case Done =>
      var n := ProofLimit(limit);
      ProofOk(Latest(log, if n < 0 then 0 else n))
  }

  /** On a chronological log the proof rows are the newest `min(limit, 20)`, newest first. */
  lemma ProofNewestFirst(log: seq<Message>, limit: Option<int>)
    requires Chronological(log)
    ensures var r := ProofMessages(log, limit, Done);
      && NewestFirst(r.rows)
      && |r.rows| == Min(if ProofLimit(limit) < 0 then 0 else ProofLimit(limit), |log|)
      && forall j, i :: 0 <= j < |log| - |r.rows| && 0 <= i < |r.rows| ==> log[j].createdTime < r.rows[i].createdTime
  {
    LatestNewest(log, if ProofLimit(limit) < 0 then 0 else ProofLimit(limit));
  }
}
