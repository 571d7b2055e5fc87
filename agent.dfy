/**
 * The chat loop of `server.ts`: the transcript sent to the model, the
 * dispatch of the model's JSON replies to the tool table, and the two nested
 * loops that read user lines and let the model act until it answers.
 *
 * The console, the model endpoint and the JSON runtime are parameters: the
 * user's lines and the endpoint's replies are scripts consumed in order, and
 * `JSON.parse` / `JSON.stringify` are functions passed in.
 */
module Agent {
  import opened Wrappers
  import opened Json
  import opened OutputFormat

  datatype Role = System | User | Assistant | Developer

  /** A message body: text, or the `null` content a completion may carry. */
  datatype Content = Text(s: string) | NullContent

  datatype Message = Message(role: Role, content: Content)

  /** What one completion request yields. */
  datatype Completion =
    | Reply(text: string)   // `choices[0].message.content` is a string
    | EmptyReply            // the content is `null`
    | RequestFailed         // the request throws

  /** What one `readlineSync.question(">> ")` yields. */
  datatype Input = Line(text: string) | ReadFailure

  /** Awaiting a tool: its value (possibly `undefined`), or a rejection. */
  datatype ToolOutcome = Returned(value: JsValue) | Threw

  type Tool = JsValue -> ToolOutcome

  datatype Runtime = Runtime(parse: string -> Option<Json>, stringify: Json -> string)

  /** What the loop writes to the console. */
  datatype Shown =
    | Answer(text: string)           // the formatted output
    | NotRecognized(name: string)    // "Function ... not recognized."
    | ErrorNotice                    // "An error occurred. Check the logs for details."
    | Goodbye                        // "Exiting..."

  /** One tool invocation: the name looked up and the `input` passed. */
  datatype Call = Call(name: string, input: JsValue)

  /**
   * The loop's observable state: the transcript, the console, the tool calls
   * made, and the transcript sent with each completion request.
   */
  datatype State = State(messages: seq<Message>, shown: seq<Shown>, calls: seq<Call>, requests: seq<seq<Message>>)

  /** After one reply: ask the model again, or leave the inner loop. */
  datatype Next = Again | Answered | Failed

  datatype Step = Step(state: State, next: Next)

  datatype TurnResult = TurnResult(state: State, exhausted: bool, rest: seq<Completion>)

  /** Why the outer loop stopped. */
  datatype Ending =
    | ExitRequested(token: string)   // `process.exit(0)`
    | OuterFailure                   // the outer catch breaks out
    | InputsExhausted                // end of the input script
    | RepliesExhausted               // end of the reply script

  datatype Outcome = Outcome(state: State, ending: Ending)

  /** The lines that end the program. */
  const ExitTokens: set<string> := {"exit", "quit", "q", "bye", "stop", "end"}

  /** The six controller methods of the tool table. */
  const ToolNames: set<string> :=
    {"createTodo", "createMultipleTodos", "getTodos", "searchTodos", "updateMatchingTodos", "deleteTodosByQuery"}

  /** Members every plain JavaScript object inherits from `Object.prototype`. */
  const InheritedMembers: set<string> :=
    {"constructor", "hasOwnProperty", "isPrototypeOf", "propertyIsEnumerable", "toLocaleString",
     "toString", "valueOf", "__defineGetter__", "__defineSetter__", "__lookupGetter__",
     "__lookupSetter__", "__proto__"}

  /** What `tools[name]` evaluates to on the object literal. */
  datatype Lookup = Own(tool: Tool) | Inherited(member: string) | Missing

  /** `tools[name]` as written: an own property, else a member inherited from the prototype. */
  function LookupAsWritten(tools: map<string, Tool>, name: string): (r: Lookup)
    ensures r.Missing? <==> name !in tools && name !in InheritedMembers
    ensures name in tools ==> r == Own(tools[name])
  {
    if name in tools then Own(tools[name])
    else if name in InheritedMembers then Inherited(name)
    else Missing
  }

  /** The lookup the loop needs: only the table's own entries are tools. */
  function ToolLookup(tools: map<string, Tool>, name: string): (r: Option<Tool>)
    ensures r.Some? <==> name in tools
    ensures r.Some? ==> r.value == tools[name]
    ensures r.None? <==> LookupAsWritten(tools, name).Missing? || LookupAsWritten(tools, name).Inherited?
  {
    if name in tools then Some(tools[name]) else None
  }

  function Ignore(input: JsValue): ToolOutcome {
    Returned(Undefined)
  }

  /** A table with exactly the six tool names; what each tool does is irrelevant here. */
  function ServerTools(): (tools: map<string, Tool>)
    ensures tools.Keys == ToolNames
  {
    map name | name in ToolNames :: Ignore
  }

  /**
   * With the server's table, the name "toString" is not one of its tools, yet
   * the as-written lookup finds a value for it, so the loop would not report
   * it as unrecognised.
   */
  lemma InheritedNameIsFound()
    ensures "toString" !in ServerTools()
    ensures LookupAsWritten(ServerTools(), "toString") == Inherited("toString")
    ensures ToolLookup(ServerTools(), "toString") == None
  {
    assert "toString" !in ToolNames;
  }

  /** The first message of every transcript. */
  function Start(systemPrompt: string): (st: State)
    ensures st.messages == [Message(System, Text(systemPrompt))]
    ensures st.shown == [] && st.calls == [] && st.requests == []
  {
    State([Message(System, Text(systemPrompt))], [], [], [])
  }

  /** `{ type: "user", user: query }` */
  function UserMessage(query: string): Json {
    JObj(map["type" := JStr("user"), "user" := JStr(query)])
  }

  /** `{ type: "observation", observation }`; an `undefined` observation is omitted by `JSON.stringify`. */
  function ObservationMessage(observation: JsValue): (j: Json)
    ensures j.JObj? && "type" in j.fields && j.fields["type"] == JStr("observation")
    ensures observation.Defined? <==> "observation" in j.fields
    ensures observation.Defined? ==> j.fields["observation"] == observation.json
  {
    JObj(map["type" := JStr("observation")] +
         if observation.Defined? then map["observation" := observation.json] else map[])
  }

  function Fail(st: State): Step {
    Step(st.(shown := st.shown + [ErrorNotice]), Failed)
  }

  /** What the inner loop does with a parsed reply `action` (the assistant message is already in `st`). */
  function Act(st: State, action: Json, rt: Runtime, tools: map<string, Tool>): (s: Step)
    ensures s.state.requests == st.requests
    ensures Extends(st, s.state)
  {
    match Property(action, "type")
    case TypeError => Fail(st)
    case Read(kind) =>
      if kind == Defined(JStr("output")) then
        match Property(action, "output")
        case Read(Defined(JStr(text))) => Step(st.(shown := st.shown + [Answer(FormatOutput(text))]), Answered)
        case _ => Fail(st)
      else if kind == Defined(JStr("action")) then
        var name := KeyString(Property(action, "function").value);
        match ToolLookup(tools, name)
        case None => Step(st.(shown := st.shown + [NotRecognized(name)]), Again)
        case Some(tool) =>
          var input := Property(action, "input").value;
          var called := st.(calls := st.calls + [Call(name, input)]);
          match tool(input)
          case Threw => Fail(called)
          case Returned(observation) =>
            var content := Text(rt.stringify(ObservationMessage(observation)));
            Step(called.(messages := called.messages + [Message(Developer, content)]), Again)
      else Step(st, Again)
  }

  /** One pass of the inner loop, given the endpoint's reply to the current transcript. */
  function Respond(st: State, c: Completion, rt: Runtime, tools: map<string, Tool>): (s: Step)
    ensures s.state.requests == st.requests + [st.messages]
    ensures Extends(st, s.state)
  {
    var asked := st.(requests := st.requests + [st.messages]);
    match c
    case RequestFailed => Fail(asked)
    case EmptyReply =>
      // `JSON.parse(null)` parses the text "null"
      Act(asked.(messages := asked.messages + [Message(Assistant, NullContent)]), JNull, rt, tools)
    case Reply(text) =>
      var said := asked.(messages := asked.messages + [Message(Assistant, Text(text))]);
      match rt.parse(text)
      case None => Fail(said)
      case Some(action) => Act(said, action, rt, tools)
  }

  /** The inner loop: ask until the model answers or something fails. */
  function Turn(st: State, replies: seq<Completion>, rt: Runtime, tools: map<string, Tool>): (t: TurnResult)
    ensures Extends(st, t.state)
    ensures |t.rest| <= |replies|
    ensures t.exhausted ==> t.rest == []
    ensures !t.exhausted ==> |t.rest| < |replies|
    decreases |replies|
  {
    if replies == [] then TurnResult(st, true, [])
    else
      var s := Respond(st, replies[0], rt, tools);
      if s.next == Again then Turn(s.state, replies[1..], rt, tools)
      else TurnResult(s.state, false, replies[1..])
  }

  /** The user's line joins the transcript as one user message; nothing else changes. */
  function UserSaid(st: State, query: string, rt: Runtime): (r: State)
    ensures |r.messages| == |st.messages| + 1 && r.messages[..|st.messages|] == st.messages
    ensures r.messages[|st.messages|].role == User
    ensures r.shown == st.shown && r.calls == st.calls && r.requests == st.requests
  {
    st.(messages := st.messages + [Message(User, Text(rt.stringify(UserMessage(query))))])
  }

  /** The outer loop: read a line, stop on an exit token, otherwise run a turn. */
  function Session(st: State, inputs: seq<Input>, replies: seq<Completion>, rt: Runtime, tools: map<string, Tool>)
    : (o: Outcome)
    ensures Extends(st, o.state)
    ensures o.ending.ExitRequested? ==> o.ending.token in ExitTokens
    decreases |inputs|
  {
    if inputs == [] then Outcome(st, InputsExhausted)
    else
      match inputs[0]
      case ReadFailure => Outcome(st.(shown := st.shown + [ErrorNotice]), OuterFailure)
      case Line(q) =>
        if q in ExitTokens then Outcome(st.(shown := st.shown + [Goodbye]), ExitRequested(q))
        else
          var t := Turn(UserSaid(st, q, rt), replies, rt, tools);
          if t.exhausted then Outcome(t.state, RepliesExhausted)
          else Session(t.state, inputs[1..], t.rest, rt, tools)
  }

  // ---------------------------------------------------------------------------
  // One reply
  // ---------------------------------------------------------------------------

  /** How the reply is rendered into the transcript before it is parsed. */
  function AssistantSaid(c: Completion): Message
    requires !c.RequestFailed?
  {
    if c.Reply? then Message(Assistant, Text(c.text)) else Message(Assistant, NullContent)
  }

  lemma ActShape(st: State, action: Json, rt: Runtime, tools: map<string, Tool>)
    ensures var s := Act(st, action, rt, tools);
      && s.state.requests == st.requests
      && (s.state.messages == st.messages || (|s.state.messages| == |st.messages| + 1
            && s.state.messages[..|st.messages|] == st.messages
            && s.state.messages[|st.messages|].role == Developer
            && s.next == Again
            && |s.state.calls| == |st.calls| + 1))
      && (s.state.calls == st.calls || (|s.state.calls| == |st.calls| + 1 && s.state.calls[..|st.calls|] == st.calls
            && s.state.calls[|st.calls|].name in tools))
      && |s.state.shown| <= |st.shown| + 1 && s.state.shown[..|st.shown|] == st.shown
      && (s.next == Failed ==> s.state.shown == st.shown + [ErrorNotice])
  {
  }

  /**
   * Every reply answers a request that carried the whole transcript; the reply
   * itself is appended before it is parsed; at most one observation follows
   * it, and one does only after a tool call, with the loop asking again.
   */
  lemma RespondShape(st: State, c: Completion, rt: Runtime, tools: map<string, Tool>)
    ensures var s := Respond(st, c, rt, tools);
      && s.state.requests == st.requests + [st.messages]
      && (c.RequestFailed? ==> s == Step(st.(requests := st.requests + [st.messages], shown := st.shown + [ErrorNotice]), Failed))
      && (!c.RequestFailed? ==>
            && |st.messages| + 1 <= |s.state.messages| <= |st.messages| + 2
            && s.state.messages[..|st.messages| + 1] == st.messages + [AssistantSaid(c)]
            && (|s.state.messages| == |st.messages| + 2 ==>
                  && s.state.messages[|st.messages| + 1].role == Developer
                  && s.next == Again
                  && |s.state.calls| == |st.calls| + 1))
      && (s.state.calls == st.calls || (|s.state.calls| == |st.calls| + 1 && s.state.calls[..|st.calls|] == st.calls
            && s.state.calls[|st.calls|].name in tools))
      && |s.state.shown| <= |st.shown| + 1 && s.state.shown[..|st.shown|] == st.shown
  {
    var asked := st.(requests := st.requests + [st.messages]);
    match c
    case RequestFailed =>
    case EmptyReply =>
      ActShape(asked.(messages := asked.messages + [Message(Assistant, NullContent)]), JNull, rt, tools);
    case Reply(text) =>
      var said := asked.(messages := asked.messages + [Message(Assistant, Text(text))]);
      match rt.parse(text)
      case None =>
      case Some(action) => ActShape(said, action, rt, tools);
  }

  /** A `null` reply content cannot be acted on: the loop records it and gives up on the turn. */
  lemma EmptyReplyFails(st: State, rt: Runtime, tools: map<string, Tool>)
    ensures Respond(st, EmptyReply, rt, tools)
         == Step(State(st.messages + [Message(Assistant, NullContent)], st.shown + [ErrorNotice], st.calls,
                       st.requests + [st.messages]), Failed)
  {
  }

  /** A reply that is not JSON: the transcript keeps it and the turn fails. */
  lemma UnparsableReplyFails(st: State, text: string, rt: Runtime, tools: map<string, Tool>)
    requires rt.parse(text).None?
    ensures Respond(st, Reply(text), rt, tools)
         == Step(State(st.messages + [Message(Assistant, Text(text))], st.shown + [ErrorNotice], st.calls,
                       st.requests + [st.messages]), Failed)
  {
  }

  /** An `output` reply whose text is a string is shown formatted, and ends the turn. */
  lemma OutputIsAnswered(st: State, text: string, action: Json, rt: Runtime, tools: map<string, Tool>)
    requires rt.parse(text) == Some(action) && action.JObj?
    requires "type" in action.fields && action.fields["type"] == JStr("output")
    ensures "output" in action.fields && action.fields["output"].JStr? ==>
      Respond(st, Reply(text), rt, tools)
        == Step(State(st.messages + [Message(Assistant, Text(text))],
                      st.shown + [Answer(FormatOutput(action.fields["output"].s))],
                      st.calls, st.requests + [st.messages]), Answered)
    ensures !("output" in action.fields && action.fields["output"].JStr?) ==>
      Respond(st, Reply(text), rt, tools).next == Failed
  {
  }

  /** An `action` reply: the name is reported exactly when the table has no such own entry. */
  lemma UnknownToolIsReported(st: State, text: string, action: Json, rt: Runtime, tools: map<string, Tool>)
    requires rt.parse(text) == Some(action) && action.JObj?
    requires "type" in action.fields && action.fields["type"] == JStr("action")
    ensures var name := KeyString(if "function" in action.fields then Defined(action.fields["function"]) else Undefined);
      var s := Respond(st, Reply(text), rt, tools);
      && (name !in tools <==> s.state.shown == st.shown + [NotRecognized(name)])
      && (name !in tools ==>
            s == Step(State(st.messages + [Message(Assistant, Text(text))], st.shown + [NotRecognized(name)],
                            st.calls, st.requests + [st.messages]), Again))
  {
    var name := KeyString(if "function" in action.fields then Defined(action.fields["function"]) else Undefined);
    var said := State(st.messages + [Message(Assistant, Text(text))], st.shown, st.calls, st.requests + [st.messages]);
    assert Respond(st, Reply(text), rt, tools) == Act(said, action, rt, tools);
    assert Property(action, "type") == Read(Defined(JStr("action")));
    assert KeyString(Property(action, "function").value) == name;
    if name in tools {
      var after := Act(said, action, rt, tools).state.shown;
      assert after == st.shown || after == st.shown + [ErrorNotice];
      assert |after| == |st.shown| ==> after != st.shown + [NotRecognized(name)];
      assert after == st.shown + [ErrorNotice] ==> after[|st.shown|] != NotRecognized(name);
    }
  }

  /**
   * An `action` reply naming a tool: the tool is called with `input`, and a
   * value it returns is sent back as a developer observation before the model
   * is asked again; a rejection ends the turn with no observation.
   */
  lemma KnownToolIsCalled(st: State, text: string, action: Json, rt: Runtime, tools: map<string, Tool>)
    requires rt.parse(text) == Some(action) && action.JObj?
    requires "type" in action.fields && action.fields["type"] == JStr("action")
    requires "function" in action.fields && action.fields["function"].JStr?
    requires action.fields["function"].s in tools
    ensures var name := action.fields["function"].s;
      var input := if "input" in action.fields then Defined(action.fields["input"]) else Undefined;
      var s := Respond(st, Reply(text), rt, tools);
      && s.state.calls == st.calls + [Call(name, input)]
      && (tools[name](input).Returned? ==>
            s == Step(State(st.messages + [Message(Assistant, Text(text)),
                                           Message(Developer, Text(rt.stringify(ObservationMessage(tools[name](input).value))))],
                            st.shown, st.calls + [Call(name, input)], st.requests + [st.messages]), Again))
      && (tools[name](input).Threw? ==>
            s == Step(State(st.messages + [Message(Assistant, Text(text))], st.shown + [ErrorNotice],
                            st.calls + [Call(name, input)], st.requests + [st.messages]), Failed))
  {
    var name := action.fields["function"].s;
    assert Property(action, "type") == Read(Defined(JStr("action")));
    assert KeyString(Property(action, "function").value) == name;
    assert ToolLookup(tools, name) == Some(tools[name]);
    var input := if "input" in action.fields then Defined(action.fields["input"]) else Undefined;
    assert Property(action, "input").value == input;
    var said := State(st.messages + [Message(Assistant, Text(text))], st.shown, st.calls, st.requests + [st.messages]);
    assert Respond(st, Reply(text), rt, tools) == Act(said, action, rt, tools);
    var called := said.(calls := st.calls + [Call(name, input)]);
    match tools[name](input)
    case Threw =>
      assert Act(said, action, rt, tools) == Fail(called);
    case Returned(observation) =>
      var content := Text(rt.stringify(ObservationMessage(observation)));
      assert Act(said, action, rt, tools) == Step(called.(messages := called.messages + [Message(Developer, content)]), Again);
  }

  /** A reply of any other `type` (a plan, say) changes nothing but the transcript. */
  lemma OtherReplyAsksAgain(st: State, text: string, action: Json, rt: Runtime, tools: map<string, Tool>)
    requires rt.parse(text) == Some(action) && action.JObj?
    requires !("type" in action.fields && action.fields["type"] in {JStr("output"), JStr("action")})
    ensures Respond(st, Reply(text), rt, tools)
         == Step(State(st.messages + [Message(Assistant, Text(text))], st.shown, st.calls,
                       st.requests + [st.messages]), Again)
  {
  }

  // ---------------------------------------------------------------------------
  // The loops
  // ---------------------------------------------------------------------------

  /** `a` is `b` with more at the end, component by component. */
  predicate Extends(b: State, a: State) {
    && b.messages <= a.messages
    && b.shown <= a.shown
    && b.calls <= a.calls
    && b.requests <= a.requests
  }

  /**
   * What holds of every state the loop reaches: the system prompt opens the
   * transcript and nothing else is a system message, every observation follows
   * an assistant message, every call names a tool of the table, and every
   * request carried a prefix of the current transcript.
   */
  predicate Coherent(st: State, systemPrompt: string, tools: map<string, Tool>) {
    && |st.messages| >= 1
    && st.messages[0] == Message(System, Text(systemPrompt))
    && (forall i :: 1 <= i < |st.messages| ==> st.messages[i].role != System)
    && (forall i :: 1 <= i < |st.messages| && st.messages[i].role == Developer ==> st.messages[i - 1].role == Assistant)
    && (forall k :: 0 <= k < |st.calls| ==> st.calls[k].name in tools)
    && (forall k :: 0 <= k < |st.requests| ==> 1 <= |st.requests[k]| && st.requests[k] <= st.messages)
  }

  lemma PrefixOfLonger(r: seq<Message>, m: seq<Message>, m': seq<Message>)
    requires r <= m && m <= m'
    ensures r <= m'
  {
  }

  lemma RespondKeeps(st: State, c: Completion, rt: Runtime, tools: map<string, Tool>, systemPrompt: string)
    requires Coherent(st, systemPrompt, tools)
    ensures Coherent(Respond(st, c, rt, tools).state, systemPrompt, tools)
    ensures Extends(st, Respond(st, c, rt, tools).state)
  {
    var s := Respond(st, c, rt, tools).state;
    RespondShape(st, c, rt, tools);
    var n := |st.messages|;
    assert st.messages <= s.messages;
    if !c.RequestFailed? {
      assert s.messages[n] == AssistantSaid(c);
      forall i | 1 <= i < |s.messages| && s.messages[i].role == Developer
        ensures s.messages[i - 1].role == Assistant
      {
        if i < n {
          assert s.messages[i] == st.messages[i] && s.messages[i - 1] == st.messages[i - 1];
        }
      }
    }
    forall k | 0 <= k < |s.requests|
      ensures 1 <= |s.requests[k]| && s.requests[k] <= s.messages
    {
      if k < |st.requests| {
        assert s.requests[k] == st.requests[k];
        PrefixOfLonger(st.requests[k], st.messages, s.messages);
      }
    }
    forall k | 0 <= k < |s.calls| ensures s.calls[k].name in tools {
      if k < |st.calls| {
        assert s.calls[k] == st.calls[k];
      }
    }
  }

  lemma {:induction false} TurnKeeps(st: State, replies: seq<Completion>, rt: Runtime, tools: map<string, Tool>, systemPrompt: string)
    requires Coherent(st, systemPrompt, tools)
    ensures var t := Turn(st, replies, rt, tools);
      Coherent(t.state, systemPrompt, tools) && Extends(st, t.state) && |t.rest| <= |replies|
    ensures !Turn(st, replies, rt, tools).exhausted ==> |Turn(st, replies, rt, tools).rest| < |replies|
    decreases |replies|
  {
    if replies != [] {
      var s := Respond(st, replies[0], rt, tools);
      RespondKeeps(st, replies[0], rt, tools, systemPrompt);
      if s.next == Again {
        TurnKeeps(s.state, replies[1..], rt, tools, systemPrompt);
      }
    }
  }

  lemma UserSaidKeeps(st: State, q: string, rt: Runtime, tools: map<string, Tool>, systemPrompt: string)
    requires Coherent(st, systemPrompt, tools)
    ensures Coherent(UserSaid(st, q, rt), systemPrompt, tools)
    ensures Extends(st, UserSaid(st, q, rt))
  {
    var s := UserSaid(st, q, rt);
    forall k | 0 <= k < |s.requests| ensures s.requests[k] <= s.messages {
      PrefixOfLonger(st.requests[k], st.messages, s.messages);
    }
  }

  /**
   * Over a whole session the loop only appends, and every state it reaches is
   * coherent: the system prompt stays first, observations follow replies,
   * only tools of the table are called, and each request sent the transcript
   * as it then stood.
   */
  lemma {:induction false} SessionKeeps(st: State, inputs: seq<Input>, replies: seq<Completion>, rt: Runtime,
                                        tools: map<string, Tool>, systemPrompt: string)
    requires Coherent(st, systemPrompt, tools)
    ensures Coherent(Session(st, inputs, replies, rt, tools).state, systemPrompt, tools)
    ensures Extends(st, Session(st, inputs, replies, rt, tools).state)
    decreases |inputs|
  {
    if inputs != [] && inputs[0].Line? && inputs[0].text !in ExitTokens {
      var st1 := UserSaid(st, inputs[0].text, rt);
      UserSaidKeeps(st, inputs[0].text, rt, tools, systemPrompt);
      var t := Turn(st1, replies, rt, tools);
      TurnKeeps(st1, replies, rt, tools, systemPrompt);
      if !t.exhausted {
        SessionKeeps(t.state, inputs[1..], t.rest, rt, tools, systemPrompt);
      }
    }
  }

  /** The opening transcript is coherent: the system prompt alone, no call, no request. */
  lemma StartIsCoherent(systemPrompt: string, tools: map<string, Tool>)
    ensures Coherent(Start(systemPrompt), systemPrompt, tools)
    ensures |Start(systemPrompt).messages| == 1
  {
  }

  /** A session from the start keeps the system prompt first and the transcript coherent. */
  lemma ChatIsCoherent(systemPrompt: string, inputs: seq<Input>, replies: seq<Completion>, rt: Runtime, tools: map<string, Tool>)
    ensures var o := Session(Start(systemPrompt), inputs, replies, rt, tools);
      && Coherent(o.state, systemPrompt, tools)
      && o.state.messages[0] == Message(System, Text(systemPrompt))
  {
    SessionKeeps(Start(systemPrompt), inputs, replies, rt, tools, systemPrompt);
  }

  /** An exit token ends the program at once, adding nothing to the transcript. */
  lemma ExitTokenEnds(st: State, q: string, later: seq<Input>, replies: seq<Completion>, rt: Runtime, tools: map<string, Tool>)
    requires q in ExitTokens
    ensures Session(st, [Line(q)] + later, replies, rt, tools) == Outcome(st.(shown := st.shown + [Goodbye]), ExitRequested(q))
  {
  }

  /**
   * Any other line, the empty one included, is sent: the transcript keeps the
   * user message, and the first request of the turn carries the transcript
   * ending with it.
   */
  lemma UserLineIsSent(st: State, q: string, later: seq<Input>, replies: seq<Completion>, rt: Runtime,
                       tools: map<string, Tool>)
    requires q !in ExitTokens
    ensures var o := Session(st, [Line(q)] + later, replies, rt, tools);
      var said := st.messages + [Message(User, Text(rt.stringify(UserMessage(q))))];
      && said <= o.state.messages
      && (replies != [] ==> |st.requests| < |o.state.requests| && o.state.requests[|st.requests|] == said)
  {
    var inputs := [Line(q)] + later;
    var st1 := UserSaid(st, q, rt);
    var t := Turn(st1, replies, rt, tools);
    var o := Session(st, inputs, replies, rt, tools);
    assert inputs[1..] == later;
    assert Extends(t.state, o.state);
    PrefixOfLonger(st1.messages, t.state.messages, o.state.messages);
    if replies != [] {
      var s := Respond(st1, replies[0], rt, tools);
      assert s.state.requests[|st.requests|] == st1.messages;
      assert Extends(s.state, t.state);
      assert t.state.requests[|st.requests|] == st1.messages;
      assert o.state.requests[|st.requests|] == st1.messages;
    }
  }

  /** The program exits only on reading an exit token. */
  lemma {:induction false} ExitOnlyOnToken(st: State, inputs: seq<Input>, replies: seq<Completion>, rt: Runtime, tools: map<string, Tool>)
    ensures var e := Session(st, inputs, replies, rt, tools).ending;
      e.ExitRequested? ==> e.token in ExitTokens && Line(e.token) in inputs
    decreases |inputs|
  {
    if inputs != [] && inputs[0].Line? && inputs[0].text !in ExitTokens {
      var t := Turn(UserSaid(st, inputs[0].text, rt), replies, rt, tools);
      if !t.exhausted {
        var e := Session(t.state, inputs[1..], t.rest, rt, tools).ending;
        assert Session(st, inputs, replies, rt, tools).ending == e;
        ExitOnlyOnToken(t.state, inputs[1..], t.rest, rt, tools);
        if e.ExitRequested? {
          assert Line(e.token) in inputs[1..];
        }
      }
    }
  }

  /** Counts the answers shown. */
  function Answers(shown: seq<Shown>): (n: nat)
    ensures n <= |shown|
  {
    if shown == [] then 0 else Answers(shown[..|shown| - 1]) + (if shown[|shown| - 1].Answer? then 1 else 0)
  }

  lemma {:induction false} AnswersAppend(a: seq<Shown>, b: seq<Shown>)
    ensures Answers(a + b) == Answers(a) + Answers(b)
    decreases |b|
  {
    if b == [] {
      assert a + b == a;
    } else {
      assert (a + b)[..|a + b| - 1] == a + b[..|b| - 1];
      AnswersAppend(a, b[..|b| - 1]);
    }
  }

  /** An answer is shown only as the last thing of a turn, so a turn shows at most one. */
  lemma {:induction false} TurnAnswersOnce(st: State, replies: seq<Completion>, rt: Runtime, tools: map<string, Tool>)
    ensures var t := Turn(st, replies, rt, tools);
      && st.shown <= t.state.shown
      && Answers(t.state.shown) <= Answers(st.shown) + 1
      && (Answers(t.state.shown) == Answers(st.shown) + 1 ==> !t.exhausted)
    decreases |replies|
  {
    if replies != [] {
      var s := Respond(st, replies[0], rt, tools);
      RespondAnswers(st, replies[0], rt, tools);
      if s.next == Again {
        TurnAnswersOnce(s.state, replies[1..], rt, tools);
      }
    }
  }

  /** One pass shows at most one answer, and none when it asks again. */
  lemma RespondAnswers(st: State, c: Completion, rt: Runtime, tools: map<string, Tool>)
    ensures var s := Respond(st, c, rt, tools);
      && Answers(s.state.shown) <= Answers(st.shown) + 1
      && (s.next == Again ==> Answers(s.state.shown) == Answers(st.shown))
  {
    var s := Respond(st, c, rt, tools);
    RespondShape(st, c, rt, tools);
    var extra := s.state.shown[|st.shown|..];
    assert s.state.shown == st.shown + extra;
    AnswersAppend(st.shown, extra);
    if s.next == Again {
      assert Answers(extra) == 0 by {
        if extra != [] {
          assert extra == [] + [extra[0]];
          AgainShowsNoAnswer(st, c, rt, tools);
        }
      }
    }
  }

  /** A pass that asks again has shown no answer. */
  lemma AgainShowsNoAnswer(st: State, c: Completion, rt: Runtime, tools: map<string, Tool>)
    ensures var s := Respond(st, c, rt, tools);
      s.next == Again ==> s.state.shown == st.shown || (|s.state.shown| == |st.shown| + 1 && s.state.shown[|st.shown|].NotRecognized?)
  {
  }

  // ---------------------------------------------------------------------------
  // The loops as the program runs them
  // ---------------------------------------------------------------------------

  /**
   * One pass of the inner loop: send the transcript, record the reply, and
   * act on it. `next` says whether the loop asks again.
   */
  method Pass(messages0: seq<Message>, shown0: seq<Shown>, calls0: seq<Call>, requests0: seq<seq<Message>>,
              reply: Completion, rt: Runtime, tools: map<string, Tool>)
    returns (messages: seq<Message>, shown: seq<Shown>, calls: seq<Call>, requests: seq<seq<Message>>, next: Next)
    ensures Step(State(messages, shown, calls, requests), next)
         == Respond(State(messages0, shown0, calls0, requests0), reply, rt, tools)
  {
    ghost var before := State(messages0, shown0, calls0, requests0);
    messages, shown, calls := messages0, shown0, calls0;
    requests := requests0 + [messages];
    var action: Json;
    if reply.RequestFailed? {
      shown := shown + [ErrorNotice];
      next := Failed;
      return;
    } else if reply.EmptyReply? {
      messages := messages + [Message(Assistant, NullContent)];
      action := JNull;
    } else {
      messages := messages + [Message(Assistant, Text(reply.text))];
      var parsed := rt.parse(reply.text);
      if parsed.None? {
        shown := shown + [ErrorNotice];
        next := Failed;
        return;
      }
      action := parsed.value;
    }
    ghost var said := State(messages, shown, calls, requests);
    assert Respond(before, reply, rt, tools) == Act(said, action, rt, tools);
    var kind := Property(action, "type");
    if kind.TypeError? {
      shown := shown + [ErrorNotice];
      next := Failed;
    } else if kind.value == Defined(JStr("output")) {
      var output := Property(action, "output").value;
      if !(output.Defined? && output.json.JStr?) {
        shown := shown + [ErrorNotice];
        next := Failed;
      } else {
        shown := shown + [Answer(FormatOutput(output.json.s))];
        next := Answered;
      }
    } else if kind.value == Defined(JStr("action")) {
      var name := KeyString(Property(action, "function").value);
      var fn := ToolLookup(tools, name);
      if fn.None? {
        shown := shown + [NotRecognized(name)];
        next := Again;
      } else {
        var input := Property(action, "input").value;
        calls := calls + [Call(name, input)];
        var outcome := fn.value(input);
        if outcome.Threw? {
          shown := shown + [ErrorNotice];
          next := Failed;
        } else {
          messages := messages + [Message(Developer, Text(rt.stringify(ObservationMessage(outcome.value))))];
          next := Again;
        }
      }
    } else {
      next := Again;
    }
  }

  /**
   * The inner loop of one turn: pass after pass until the model answers, a
   * step fails, or the replies from `j0` on run out. It returns where it
   * stopped reading replies.
   */
  method Ask(messages0: seq<Message>, shown0: seq<Shown>, calls0: seq<Call>, requests0: seq<seq<Message>>,
             replies: seq<Completion>, j0: nat, rt: Runtime, tools: map<string, Tool>)
    returns (messages: seq<Message>, shown: seq<Shown>, calls: seq<Call>, requests: seq<seq<Message>>,
             j: nat, exhausted: bool)
    requires j0 <= |replies|
    ensures j0 <= j <= |replies|
    ensures TurnResult(State(messages, shown, calls, requests), exhausted, replies[j..])
         == Turn(State(messages0, shown0, calls0, requests0), replies[j0..], rt, tools)
  {
    messages, shown, calls, requests, j := messages0, shown0, calls0, requests0, j0;
    ghost var turn := Turn(State(messages, shown, calls, requests), replies[j..], rt, tools);
    while true
      invariant j0 <= j <= |replies|
      invariant turn == Turn(State(messages, shown, calls, requests), replies[j..], rt, tools)
      decreases |replies| - j
    {
      if j == |replies| {
        exhausted := true;
        return;
      }
      var reply := replies[j];
      assert replies[j..][0] == reply && replies[j..][1..] == replies[j + 1..];
      j := j + 1;
      var next;
      messages, shown, calls, requests, next := Pass(messages, shown, calls, requests, reply, rt, tools);
      if next != Again {
        break;
      }
    }
    exhausted := false;
  }

  /**
   * The chat loop: the outer loop reads lines and hands each one that is not
   * an exit token to the inner loop, which runs until the model answers or a
   * step fails.
   */
  method Chat(systemPrompt: string, inputs: seq<Input>, replies: seq<Completion>, rt: Runtime, tools: map<string, Tool>)
    returns (messages: seq<Message>, shown: seq<Shown>, calls: seq<Call>, requests: seq<seq<Message>>, ending: Ending)
    ensures Outcome(State(messages, shown, calls, requests), ending) == Session(Start(systemPrompt), inputs, replies, rt, tools)
    ensures Coherent(State(messages, shown, calls, requests), systemPrompt, tools)
    ensures messages[0] == Message(System, Text(systemPrompt))
  {
    ChatIsCoherent(systemPrompt, inputs, replies, rt, tools);
    ghost var whole := Session(Start(systemPrompt), inputs, replies, rt, tools);
    messages := [Message(System, Text(systemPrompt))];
    shown, calls, requests := [], [], [];
    var i, j := 0, 0;
    while true
      invariant 0 <= i <= |inputs| && 0 <= j <= |replies|
      invariant whole == Session(State(messages, shown, calls, requests), inputs[i..], replies[j..], rt, tools)
      decreases |inputs| - i
    {
      if i == |inputs| {
        ending := InputsExhausted;
        return;
      }
      var input := inputs[i];
      assert inputs[i..][0] == input && inputs[i..][1..] == inputs[i + 1..];
      i := i + 1;
      if input.ReadFailure? {
        shown := shown + [ErrorNotice];
        ending := OuterFailure;
        return;
      }
      var query := input.text;
      if query in ExitTokens {
        shown := shown + [Goodbye];
        ending := ExitRequested(query);
        return;
      }
      ghost var heard := State(messages, shown, calls, requests);
      messages := messages + [Message(User, Text(rt.stringify(UserMessage(query))))];
      assert UserSaid(heard, query, rt) == State(messages, shown, calls, requests);
      var exhausted;
      messages, shown, calls, requests, j, exhausted := Ask(messages, shown, calls, requests, replies, j, rt, tools);
      if exhausted {
        ending := RepliesExhausted;
        return;
      }
    }
  }
}
