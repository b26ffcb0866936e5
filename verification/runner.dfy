/** The run loop of `AgentRunner`: ask the model, run its tools, recover from empty and truncated
    answers, take in injected user messages, and stop. */
module Runner {
  import opened Basics
  import opened Messages
  import opened Backfill
  import opened Governance
  import opened Recovery
  import opened ToolBatches
  import opened Transcript

  const MAX_EMPTY_RETRIES := 2
  const MAX_LENGTH_RECOVERIES := 3
  const MAX_INJECTIONS_PER_TURN := 3
  const MAX_INJECTION_CYCLES := 5
  const DEFAULT_ERROR_MESSAGE := "Sorry, I encountered an error calling the AI model."
  const EMPTY_FINAL_RESPONSE_MESSAGE := "(No response from model)"
  const LENGTH_RECOVERY_MESSAGE := "Your response was truncated. Please continue from where you left off."
  const MODEL_ERROR_PLACEHOLDER := "[Assistant reply unavailable due to model error.]"

  datatype Finish = ToolCalls | FunctionCall | Stop | Length | Failed | OtherFinish(reason: string)

  datatype Response = Response(
    content: Option<string>, calls: seq<Call>, finish: Finish, usage: map<string, int>,
    reasoning: Option<string>, thinking: Option<seq<Json>>)

  predicate ShouldExecuteTools(r: Response) {
    r.calls != [] && (r.finish.ToolCalls? || r.finish.FunctionCall? || r.finish.Stop?)
  }

  /** Everything outside the loop, as functions of how often it has been asked: since every behaviour of
      the model, the tools, the hook and the injection callback over a run is such a function, a
      statement for every `World` is a statement for every run. */
  datatype World = World(
    respond: nat -> Response,                        // the i-th request_model call
    retry: Response,                                 // the finalization retry
    finalize: (nat, Option<string>) -> Option<string>, // the hook's i-th finalize_content call
    exec: (nat, nat) -> Outcome,                     // the k-th call of the i-th tool round
    safe: Safety,
    drain: nat -> seq<Message>,                      // the i-th injection callback
    mergeBlocks: (Json, Json) -> Json)               // merging of contents that are not both text

  datatype Spec = Spec(
    policy: Policy, initial: seq<Message>, maxIterations: nat, concurrent: bool,
    maxIterationsMessage: Option<string>, errorMessage: Option<string>)

  datatype StopReason = Completed | ToolError | MaxIterations | Injected | ModelError | EmptyFinalResponse

  datatype RunResult = RunResult(
    finalContent: Option<string>, messages: seq<Message>, toolsUsed: seq<string>, usage: map<string, int>,
    stop: StopReason, error: Option<string>, toolEvents: seq<ToolEvent>, hadInjections: bool)

  /** What a run did: the transcript at each model request, the answers, the tool rounds, the checkpoints
      emitted, and how often it finalized, called the injection callback, and took in how much. */
  datatype Log = Log(
    transcripts: seq<seq<Message>>, responses: seq<Response>, rounds: seq<Round>, checkpoints: seq<Checkpoint>,
    finalizations: nat, drains: nat, cycles: nat, injected: nat)

  datatype State = State(
    messages: seq<Message>, usage: map<string, int>, emptyRetries: nat, lengthRecoveries: nat,
    finalizes: nat, toolsUsed: seq<string>, toolEvents: seq<ToolEvent>, log: Log)

  /** How the calls of the `round`-th tool round turn out. */
  function ExecOf(world: World, round: nat): nat -> Outcome {
    (k: nat) => world.exec(round, k)
  }

  // ---- Small pieces ----

  predicate IsWhitespace(c: char) {
    var n := c as int;
    9 <= n <= 13 || n == 32 || n == 0x85 || n == 0xA0 || n == 0x1680 || 0x2000 <= n <= 0x200A ||
    n == 0x2028 || n == 0x2029 || n == 0x202F || n == 0x205F || n == 0x3000
  }

  predicate IsBlank(text: Option<string>) {
    text.None? || forall c :: c in text.value ==> IsWhitespace(c)
  }

  /** What a run that used up its iterations says. */
  function LimitMessage(spec: Spec): string {
    if spec.maxIterationsMessage.Some? then spec.maxIterationsMessage.value
    else "Task did not finish within " + Decimal(spec.maxIterations) + " iterations."
  }

  function UserMessage(text: string): Message {
    Message(User, None, None, None, None, Some(Text(text)), None, map[])
  }

  function AssistantText(text: string): Message {
    Message(Assistant, None, None, None, None, Some(Text(text)), None, map[])
  }

  function BuildAssistantMessage(content: Option<string>, calls: seq<ToolCall>, r: Response): Message {
    Message(Assistant, None, None, None,
            if calls == [] then None else Some(calls),
            Some(Text(if content.Some? then content.value else "")),
            if r.reasoning.Some? || r.thinking.Some?
              then Some(Text(if r.reasoning.Some? then r.reasoning.value else "")) else None,
            if r.thinking.Some? && r.thinking.value != []
              then map["thinking_blocks" := Blocks(r.thinking.value)] else map[])
  }

  function UsageAt(usage: map<string, int>, key: string): int {
    if key in usage then usage[key] else 0
  }

  function Accumulate(usage: map<string, int>, delta: map<string, int>): map<string, int> {
    map key | key in usage.Keys + delta.Keys :: UsageAt(usage, key) + UsageAt(delta, key)
  }

  const NO_USAGE: map<string, int> := map["prompt_tokens" := 0, "completion_tokens" := 0]

  function UsageOf(responses: seq<Response>): map<string, int> {
    if responses == [] then NO_USAGE
    else Accumulate(UsageOf(responses[..|responses| - 1]), responses[|responses| - 1].usage)
  }

  function UsageSum(responses: seq<Response>, key: string): int {
    if responses == [] then 0 else UsageAt(responses[0].usage, key) + UsageSum(responses[1..], key)
  }

  function NamesOf(calls: seq<Call>): (names: seq<string>)
    ensures |names| == |calls| && forall k :: 0 <= k < |calls| ==> names[k] == calls[k].name
  {
    if calls == [] then [] else [calls[0].name] + NamesOf(calls[1..])
  }

  function ToolNames(rounds: seq<Round>): seq<string> {
    if rounds == [] then [] else ToolNames(rounds[..|rounds| - 1]) + NamesOf(rounds[|rounds| - 1].calls)
  }

  /** The events of all tool calls run, round by round. */
  function ToolEvents(world: World, rounds: seq<Round>): seq<ToolEvent> {
    if rounds == [] then []
    else
      var i := |rounds| - 1;
      ToolEvents(world, rounds[..i]) + Events(ExecOf(world, i), |rounds[i].contents|)
  }

  // ---- Injections ----

  function Accepted(item: Message): Option<Message> {
    if item.role.User? && item.content.Some? then Some(item)
    else
      var text := AsText(item.content);
      if text.Some? && !IsBlank(text) then Some(UserMessage(text.value)) else None
  }

  function AllAccepted(items: seq<Message>): seq<Message> {
    if items == [] then []
    else (if Accepted(items[0]).Some? then [Accepted(items[0]).value] else []) + AllAccepted(items[1..])
  }

  predicate AllUsers(ms: seq<Message>) {
    forall m :: m in ms ==> m.role.User?
  }

  /** What one drain takes: the callback's usable items as user messages, the first three of them. */
  function Taken(world: World, k: nat): seq<Message> {
    var items := AllAccepted(world.drain(k));
    if |items| <= MAX_INJECTIONS_PER_TURN then items else items[..MAX_INJECTIONS_PER_TURN]
  }

  lemma {:induction false} AcceptedAreUsers(items: seq<Message>)
    ensures AllUsers(AllAccepted(items))
  {
    if items != [] {
      AcceptedAreUsers(items[1..]);
    }
  }

  lemma TakenAreUsers(world: World, k: nat)
    ensures AllUsers(Taken(world, k)) && |Taken(world, k)| <= MAX_INJECTIONS_PER_TURN
  {
    AcceptedAreUsers(world.drain(k));
  }

  method DrainInjections(world: World, k: nat) returns (injected: seq<Message>)
    ensures injected == Taken(world, k)
  {
    hide Accepted, AllAccepted;
    var items := world.drain(k);
    injected := [];
    assert items[0..] == items;
    for i := 0 to |items|
      invariant injected + AllAccepted(items[i..]) == AllAccepted(items)
    {
      AcceptedStep(items, i);
      if Accepted(items[i]).Some? {
        SnocThenAppend(injected, Accepted(items[i]).value, AllAccepted(items[i + 1..]));
        injected := injected + [Accepted(items[i]).value];
      }
    }
    NothingAccepted();
    assert items[|items|..] == [] && injected + [] == injected;
    if |injected| > MAX_INJECTIONS_PER_TURN {
      injected := injected[..MAX_INJECTIONS_PER_TURN];
    }
  }

  lemma AcceptedStep(items: seq<Message>, i: nat)
    requires i < |items|
    ensures AllAccepted(items[i..]) ==
      if Accepted(items[i]).Some? then [Accepted(items[i]).value] + AllAccepted(items[i + 1..])
      else AllAccepted(items[i + 1..])
  {
    hide Accepted;
    SplitAt(items, i);
  }

  lemma NothingAccepted()
    ensures AllAccepted([]) == []
  {
  }

  function MergeContent(mergeBlocks: (Json, Json) -> Json, left: Option<Json>, right: Option<Json>): Json {
    if left.Some? && right.Some? then
      if left.value.Text? && right.value.Text? then
        (if left.value.text == "" then right.value else Text(left.value.text + "\n\n" + right.value.text))
      else mergeBlocks(left.value, right.value)
    else if left.Some? then left.value
    else if right.Some? then right.value
    else Text("")
  }

  /** One injected message: merged into a final user message, or else appended. */
  function Inject(mergeBlocks: (Json, Json) -> Json, ms: seq<Message>, m: Message): seq<Message> {
    if m.role.User? && EndsWithUser(ms) then
      var last := |ms| - 1;
      ms[last := ms[last].(content := Some(MergeContent(mergeBlocks, ms[last].content, m.content)))]
    else ms + [m]
  }

  function AllInjected(mergeBlocks: (Json, Json) -> Json, ms: seq<Message>, items: seq<Message>): seq<Message> {
    if items == [] then ms
    else Inject(mergeBlocks, AllInjected(mergeBlocks, ms, items[..|items| - 1]), items[|items| - 1])
  }

  method AppendInjectedMessages(world: World, messages: seq<Message>, injections: seq<Message>)
    returns (updated: seq<Message>)
    ensures updated == AllInjected(world.mergeBlocks, messages, injections)
  {
    hide MergeContent;
    updated := messages;
    for k := 0 to |injections|
      invariant updated == AllInjected(world.mergeBlocks, messages, injections[..k])
    {
      var injection := injections[k];
      assert injections[..k + 1][..k] == injections[..k];
      var last := |updated| - 1;
      if last >= 0 && injection.role.User? && updated[last].role.User? {
        var merged := MergeContent(world.mergeBlocks, updated[last].content, injection.content);
        updated := updated[last := updated[last].(content := Some(merged))];
        continue;
      }
      updated := updated + [injection];
    }
    assert injections[..|injections|] == injections;
  }

  /** Role alternation survives, and however many messages are injected, the transcript grows by at most
      one: the others are merged into it. */
  lemma {:induction false} InjectionShape(
    mergeBlocks: (Json, Json) -> Json, init: seq<Message>, rounds: seq<Round>, ms: seq<Message>, items: seq<Message>)
    requires Shape(init, ms, rounds) && AllUsers(items) && items != []
    ensures var updated := AllInjected(mergeBlocks, ms, items);
            && Shape(init, updated, rounds) && EndsWithUser(updated)
            && |updated| == |ms| + if EndsWithUser(ms) then 0 else 1
    decreases |items|
  {
    hide Shape, MergeContent;
    var front, m := items[..|items| - 1], items[|items| - 1];
    var before := AllInjected(mergeBlocks, ms, front);
    if front != [] {
      InjectionShape(mergeBlocks, init, rounds, ms, front);
    }
    if EndsWithUser(before) {
      MergeShape(init, before, rounds, MergeContent(mergeBlocks, before[|before| - 1].content, m.content));
    } else {
      PushShape(init, before, rounds, m);
    }
  }

  function Intercalated(texts: seq<string>): string {
    if texts == [] then ""
    else if |texts| == 1 then texts[0]
    else texts[0] + "\n\n" + Intercalated(texts[1..])
  }

  /** Texts separated by blank lines, from the first that is not empty on. */
  function Joined(texts: seq<string>): string {
    if texts == [] then "" else if texts[0] == "" then Joined(texts[1..]) else Intercalated(texts)
  }

  function UserMessages(texts: seq<string>): (ms: seq<Message>)
    ensures |ms| == |texts| && forall i :: 0 <= i < |texts| ==> ms[i] == UserMessage(texts[i])
  {
    if texts == [] then [] else UserMessages(texts[..|texts| - 1]) + [UserMessage(texts[|texts| - 1])]
  }

  lemma {:induction false} IntercalatedSnoc(texts: seq<string>, t: string)
    requires texts != []
    ensures Intercalated(texts + [t]) == Intercalated(texts) + "\n\n" + t
  {
    var all := texts + [t];
    if |texts| == 1 {
      assert all[1..] == [t];
    } else {
      IntercalatedSnoc(texts[1..], t);
      assert all[1..] == texts[1..] + [t];
      var head, rest, sep := texts[0], Intercalated(texts[1..]), "\n\n";
      assert head + sep + (rest + sep + t) == (head + sep + rest) + sep + t;
    }
  }

  /** The transcript with the text of its last message replaced. */
  function Saying(ms: seq<Message>, text: string): seq<Message>
    requires ms != []
  {
    ms[|ms| - 1 := ms[|ms| - 1].(content := Some(Text(text)))]
  }

  lemma InjectText(mergeBlocks: (Json, Json) -> Json, ms: seq<Message>, said: string, t: string)
    requires EndsWithUser(ms)
    ensures Inject(mergeBlocks, Saying(ms, said), UserMessage(t)) == Saying(ms, Merge(said, t))
  {
    var before := Saying(ms, said);
    assert before[|ms| - 1].content == Some(Text(said)) && EndsWithUser(before);
  }

  function Merge(said: string, t: string): string {
    if said == "" then t else said + "\n\n" + t
  }

  lemma {:induction false} JoinedSnoc(texts: seq<string>, t: string)
    ensures Joined(texts + [t]) == Merge(Joined(texts), t)
  {
    hide Intercalated;
    var all := texts + [t];
    if texts == [] {
      assert all == [t] && [t][1..] == [];
      OneText(t);
    } else {
      assert all[0] == texts[0] && all[1..] == texts[1..] + [t];
      if texts[0] == "" {
        JoinedSnoc(texts[1..], t);
      } else {
        IntercalatedSnoc(texts, t);
        IntercalatedStarts(texts);
      }
    }
  }

  lemma OneText(t: string)
    ensures Intercalated([t]) == t && Joined([t]) == t
  {
    assert [t][1..] == [];
  }

  lemma SplitTexts(mergeBlocks: (Json, Json) -> Json, ms: seq<Message>, texts: seq<string>)
    requires texts != []
    ensures AllInjected(mergeBlocks, ms, UserMessages(texts)) ==
      var front, t := texts[..|texts| - 1], texts[|texts| - 1];
      Inject(mergeBlocks, AllInjected(mergeBlocks, ms, UserMessages(front)), UserMessage(t))
  {
    assert UserMessages(texts)[..|texts| - 1] == UserMessages(texts[..|texts| - 1]);
    hide UserMessages, Inject;
  }

  /** No injected text is lost: after what the last user message said, if it said anything, come the injected
      texts in order, separated by blank lines. */
  lemma {:induction false} InjectedTextsFollow(
    mergeBlocks: (Json, Json) -> Json, ms: seq<Message>, said: string, texts: seq<string>)
    requires EndsWithUser(ms) && AsText(ms[|ms| - 1].content) == Some(said)
    ensures AllInjected(mergeBlocks, ms, UserMessages(texts)) == Saying(ms, Joined([said] + texts))
    decreases |texts|
  {
    hide Inject, UserMessages, UserMessage, Joined, AllInjected, Merge;
    if texts == [] {
      NoTexts(mergeBlocks, ms, said);
      assert [said] + texts == [said];
    } else {
      var front, t := texts[..|texts| - 1], texts[|texts| - 1];
      SplitTexts(mergeBlocks, ms, texts);
      InjectedTextsFollow(mergeBlocks, ms, said, front);
      JoinedSnoc([said] + front, t);
      assert [said] + texts == ([said] + front) + [t];
      InjectText(mergeBlocks, ms, Joined([said] + front), t);
    }
  }

  lemma NoTexts(mergeBlocks: (Json, Json) -> Json, ms: seq<Message>, said: string)
    requires EndsWithUser(ms) && AsText(ms[|ms| - 1].content) == Some(said)
    ensures AllInjected(mergeBlocks, ms, UserMessages([])) == ms == Saying(ms, Joined([said]))
  {
    OneText(said);
  }

  lemma FirstText(mergeBlocks: (Json, Json) -> Json, ms: seq<Message>, t: string)
    requires !EndsWithUser(ms)
    ensures AllInjected(mergeBlocks, ms, UserMessages([])) == ms
    ensures Inject(mergeBlocks, ms, UserMessage(t)) == ms + [UserMessage(t)]
  {
  }

  lemma SayingUser(ms: seq<Message>, a: string, b: string)
    ensures Saying(ms + [UserMessage(a)], b) == ms + [UserMessage(b)] && EndsWithUser(ms + [UserMessage(a)])
  {
  }

  /** With no user message to merge into, they make up one new message. */
  lemma {:induction false} InjectedTextsAreJoined(
    mergeBlocks: (Json, Json) -> Json, ms: seq<Message>, texts: seq<string>)
    requires !EndsWithUser(ms) && texts != []
    ensures AllInjected(mergeBlocks, ms, UserMessages(texts)) == ms + [UserMessage(Joined(texts))]
    decreases |texts|
  {
    hide Inject, UserMessages, UserMessage, Joined, AllInjected, Saying, EndsWithUser, Merge;
    var front, t := texts[..|texts| - 1], texts[|texts| - 1];
    SplitTexts(mergeBlocks, ms, texts);
    if front == [] {
      FirstText(mergeBlocks, ms, t);
      OneText(t);
      assert texts == [t];
    } else {
      InjectedTextsAreJoined(mergeBlocks, ms, front);
      JoinedSnoc(front, t);
      assert texts == front + [t];
      var said := Joined(front);
      var one := ms + [UserMessage(said)];
      SayingUser(ms, said, said);
      SayingUser(ms, said, Merge(said, t));
      InjectText(mergeBlocks, one, said, t);
    }
  }

  lemma IntercalatedStarts(texts: seq<string>)
    requires texts != [] && texts[0] != ""
    ensures Intercalated(texts) != ""
  {
  }

  // ---- The invariant of the loop ----

  ghost predicate Counted(log: Log) {
    log.cycles <= MAX_INJECTION_CYCLES && log.injected <= MAX_INJECTIONS_PER_TURN * log.cycles
  }

  ghost predicate Recorded(spec: Spec, log: Log) {
    && |log.responses| == |log.transcripts| + log.finalizations
    && (forall t :: t in log.transcripts ==> Open(spec.initial, t) && (WellStarted(spec.initial) ==> NoTwins(t)))
  }

  ghost predicate Good(spec: Spec, st: State) {
    && Shape(spec.initial, st.messages, st.log.rounds) && Counted(st.log) && Recorded(spec, st.log)
    && st.usage == UsageOf(st.log.responses) && st.toolsUsed == ToolNames(st.log.rounds)
  }

  lemma GoodParts(spec: Spec, st: State)
    requires Good(spec, st)
    ensures Shape(spec.initial, st.messages, st.log.rounds) && Counted(st.log) && Recorded(spec, st.log)
    ensures st.usage == UsageOf(st.log.responses) && st.toolsUsed == ToolNames(st.log.rounds)
    ensures |st.log.responses| == |st.log.transcripts| + st.log.finalizations
  {
  }

  lemma PartsGood(spec: Spec, st: State)
    requires Shape(spec.initial, st.messages, st.log.rounds) && Counted(st.log) && Recorded(spec, st.log)
    requires st.usage == UsageOf(st.log.responses) && st.toolsUsed == ToolNames(st.log.rounds)
    ensures Good(spec, st)
  {
  }

  /** Appending a message that may stand there. */
  lemma GoodPush(spec: Spec, st: State, m: Message)
    requires Good(spec, st) && !m.role.Tool?
    requires m.role.Assistant? ==> Open(spec.initial, st.messages)
    requires m.role.User? ==> !EndsWithUser(st.messages)
    ensures Good(spec, st.(messages := st.messages + [m]))
    ensures !m.role.Assistant? ==> Open(spec.initial, st.messages + [m])
    ensures EndsWithUser(st.messages + [m]) <==> m.role.User?
  {
    hide *;
    GoodParts(spec, st);
    MayStand(spec, st.messages, m);
    PushShape(spec.initial, st.messages, st.log.rounds, m);
    PartsGood(spec, st.(messages := st.messages + [m]));
    OpenUnlessAssistant(spec, st.messages + [m]);
  }

  lemma MayStand(spec: Spec, ms: seq<Message>, m: Message)
    requires m.role.Assistant? ==> Open(spec.initial, ms)
    requires m.role.User? ==> !EndsWithUser(ms)
    ensures WellStarted(spec.initial) ==> ms == [] || !Twins(ms[|ms| - 1], m)
  {
  }

  lemma OpenUnlessAssistant(spec: Spec, ms: seq<Message>)
    ensures !EndsWithAssistant(ms) ==> Open(spec.initial, ms)
    ensures EndsWithUser(ms) ==> !EndsWithAssistant(ms) && Open(spec.initial, ms)
  {
  }

  /** Nothing but the parts the invariant does not mention changed. */
  lemma GoodSame(spec: Spec, a: State, b: State)
    requires Good(spec, a) && a.messages == b.messages && a.usage == b.usage && a.toolsUsed == b.toolsUsed
    requires a.log == b.log.(checkpoints := a.log.checkpoints, drains := a.log.drains)
    ensures Good(spec, b)
  {
  }

  // ---- try_drain_injections ----

  /** The callback is asked while the cycle budget lasts, and has something to say. */
  predicate Drains(world: World, st: State) {
    st.log.cycles < MAX_INJECTION_CYCLES && Taken(world, st.log.drains) != []
  }

  /** Pending user messages are taken in, after the assistant's answer if one is waiting to be closed. */
  function AfterDrain(world: World, st: State, assistant: Option<Message>): State {
    if st.log.cycles >= MAX_INJECTION_CYCLES then st
    else
      var taken := Taken(world, st.log.drains);
      var asked := st.(log := st.log.(drains := st.log.drains + 1));
      if taken == [] then asked
      else
        var ms := if assistant.Some? then st.messages + [assistant.value] else st.messages;
        asked.(messages := AllInjected(world.mergeBlocks, ms, taken),
               log := asked.log.(cycles := st.log.cycles + 1, injected := st.log.injected + |taken|))
  }

  method TryDrainInjections(world: World, st: State, assistant: Option<Message>) returns (drained: bool, next: State)
    ensures drained == Drains(world, st) && next == AfterDrain(world, st, assistant)
  {
    hide Taken, AllInjected;
    if st.log.cycles >= MAX_INJECTION_CYCLES {
      return false, st;
    }
    var injected := DrainInjections(world, st.log.drains);
    next := st.(log := st.log.(drains := st.log.drains + 1));
    if injected == [] {
      return false, next;
    }
    if assistant.Some? {
      next := next.(messages := next.messages + [assistant.value]);
    }
    var messages := AppendInjectedMessages(world, next.messages, injected);
    next := next.(messages := messages,
                  log := next.log.(cycles := next.log.cycles + 1, injected := next.log.injected + |injected|));
    drained := true;
  }

  /** Draining keeps the invariant; it adds at most one user message, behind the assistant's answer. */
  lemma DrainKeepsGood(world: World, spec: Spec, st: State, assistant: Option<Message>)
    requires Good(spec, st)
    requires assistant.Some? ==> assistant.value.role.Assistant? && Open(spec.initial, st.messages)
    ensures var next := AfterDrain(world, st, assistant);
            && Good(spec, next)
            && next == st.(messages := next.messages, log := next.log)
            && next.log == st.log.(drains := next.log.drains, cycles := next.log.cycles, injected := next.log.injected)
            && (!Drains(world, st) ==> next.messages == st.messages && next.log.cycles == st.log.cycles)
            && (Drains(world, st) ==> EndsWithUser(next.messages) && next.log.cycles == st.log.cycles + 1)
            && (Drains(world, st) ==> |next.messages| <= |st.messages| + 1 + if assistant.Some? then 1 else 0)
  {
    hide *;
    DrainCases(world, st, assistant);
    var next := AfterDrain(world, st, assistant);
    if Drains(world, st) {
      var taken := Taken(world, st.log.drains);
      var closed := st;
      if assistant.Some? {
        AssistantMayClose(st.messages, assistant.value);
        GoodPush(spec, st, assistant.value);
        closed := st.(messages := st.messages + [assistant.value]);
      }
      GoodParts(spec, closed);
      TakenAreUsers(world, st.log.drains);
      InjectionShape(world.mergeBlocks, spec.initial, closed.log.rounds, closed.messages, taken);
      CountedMore(spec, st.log, |taken|);
      PartsGood(spec, next);
    } else {
      GoodSame(spec, st, next);
    }
  }

  lemma DrainCases(world: World, st: State, assistant: Option<Message>)
    ensures Drains(world, st) <==> st.log.cycles < MAX_INJECTION_CYCLES && Taken(world, st.log.drains) != []
    ensures !Drains(world, st) ==>
      AfterDrain(world, st, assistant) == st.(log := st.log.(drains := AfterDrain(world, st, assistant).log.drains))
    ensures Drains(world, st) ==>
      var taken := Taken(world, st.log.drains);
      var ms := if assistant.Some? then st.messages + [assistant.value] else st.messages;
      AfterDrain(world, st, assistant) == st.(
        messages := AllInjected(world.mergeBlocks, ms, taken),
        log := st.log.(drains := st.log.drains + 1, cycles := st.log.cycles + 1, injected := st.log.injected + |taken|))
  {
    hide Taken, AllInjected;
  }

  lemma AssistantMayClose(ms: seq<Message>, m: Message)
    requires m.role.Assistant?
    ensures !m.role.Tool? && !m.role.User?
  {
  }

  lemma CountedMore(spec: Spec, log: Log, n: nat)
    requires Counted(log) && Recorded(spec, log) && log.cycles < MAX_INJECTION_CYCLES && n <= MAX_INJECTIONS_PER_TURN
    ensures var more := log.(drains := log.drains + 1, cycles := log.cycles + 1, injected := log.injected + n);
            Counted(more) && Recorded(spec, more)
  {
  }

  // ---- One tool-executing iteration ----

  /** Normalized contents of the results, one per executed call. */
  function NormalizedContents(policy: Policy, calls: seq<Call>, results: seq<Json>): (r: seq<Json>)
    requires |results| <= |calls|
    ensures |r| == |results|
    ensures forall k :: 0 <= k < |results| ==> r[k] == policy.normalize(calls[k].id, calls[k].name, results[k])
  {
    seq(|results|, k requires 0 <= k < |results| => policy.normalize(calls[k].id, calls[k].name, results[k]))
  }

  /** How many of an answer's calls are run, and the error that stops the run, if any. */
  function RanCount(world: World, spec: Spec, response: Response, i: nat): (n: nat)
    ensures n <= |response.calls|
  {
    ExecutedCount(spec.concurrent, world.safe, response.calls, ExecOf(world, i))
  }

  function FatalOf(world: World, spec: Spec, response: Response, i: nat): Option<string> {
    LastFatal(ExecOf(world, i), 0, RanCount(world, spec, response, i))
  }

  /** The i-th tool round: the answer's own calls, and the normalized results of as many as were run. */
  function RoundOf(world: World, spec: Spec, response: Response, i: nat, at: nat): Round {
    var results := Results(ExecOf(world, i), RanCount(world, spec, response, i));
    Round(at, BuildAssistantMessage(response.content, AsToolCalls(response.calls), response), response.calls,
          NormalizedContents(spec.policy, response.calls, results),
          FatalOf(world, spec, response, i).Some?)
  }

  function Awaiting(r: Round): Checkpoint {
    Checkpoint(AwaitingTools, Some(r.assistant), [], AsToolCalls(r.calls))
  }

  function RoundCheckpoints(r: Round): seq<Checkpoint>
    requires |r.contents| <= |r.calls|
  {
    [Awaiting(r)] +
    if r.fatal then [] else [Checkpoint(ToolsCompleted, Some(r.assistant), ToolMessages(r.calls, r.contents), [])]
  }

  /** The assistant's calls go into the transcript and are answered in order; a checkpoint is left before
      and, unless an error was fatal, after. */
  function AfterRound(world: World, spec: Spec, st: State, response: Response): State {
    var i := |st.log.rounds|;
    var r := RoundOf(world, spec, response, i, |st.messages|);
    st.(messages := st.messages + ([r.assistant] + ToolMessages(r.calls, r.contents)),
        toolsUsed := st.toolsUsed + NamesOf(r.calls),
        toolEvents := st.toolEvents + Events(ExecOf(world, i), RanCount(world, spec, response, i)),
        log := st.log.(rounds := st.log.rounds + [r], checkpoints := st.log.checkpoints + RoundCheckpoints(r)))
  }

  method ToolRound(world: World, spec: Spec, st: State, response: Response) returns (fatal: Option<string>, next: State)
    ensures fatal == FatalOf(world, spec, response, |st.log.rounds|) && next == AfterRound(world, spec, st, response)
  {
    hide ExecutedCount, NormalizedContents, Results, LastFatal, Events, ToolMessages, AsToolCalls, NamesOf, ExecOf,
      BuildAssistantMessage;
    var calls := response.calls;
    var assistant := BuildAssistantMessage(response.content, AsToolCalls(calls), response);
    var checkpoints := st.log.checkpoints + [Checkpoint(AwaitingTools, Some(assistant), [], AsToolCalls(calls))];
    var results, events;
    results, events, fatal := ExecuteTools(spec.concurrent, world.safe, calls, ExecOf(world, |st.log.rounds|));
    var contents := NormalizedContents(spec.policy, calls, results);
    var completed := ToolMessages(calls, contents);
    var r := Round(|st.messages|, assistant, calls, contents, fatal.Some?);
    if fatal.None? {
      checkpoints := checkpoints + [Checkpoint(ToolsCompleted, Some(assistant), completed, [])];
    }
    assert r == RoundOf(world, spec, response, |st.log.rounds|, |st.messages|);
    assert checkpoints == st.log.checkpoints + RoundCheckpoints(r);
    next := st.(messages := st.messages + ([assistant] + completed),
                toolsUsed := st.toolsUsed + NamesOf(calls),
                toolEvents := st.toolEvents + events,
                log := st.log.(rounds := st.log.rounds + [r], checkpoints := checkpoints));
  }

  lemma RoundKeepsGood(world: World, spec: Spec, st: State, response: Response)
    requires Good(spec, st) && Open(spec.initial, st.messages) && ShouldExecuteTools(response)
    ensures var next := AfterRound(world, spec, st, response);
            Good(spec, next) && !EndsWithAssistant(next.messages) && !EndsWithUser(next.messages)
  {
    hide *;
    var r := RoundOf(world, spec, response, |st.log.rounds|, |st.messages|);
    var next := AfterRound(world, spec, st, response);
    RoundParts(world, spec, st, response);
    GoodParts(spec, st);
    RoundShape(spec.initial, st.messages, st.log.rounds, r);
    RecordedMore(spec, st.log, next.log);
    ToolNamesMore(st.log.rounds, r);
    PartsGood(spec, next);
  }

  lemma RoundParts(world: World, spec: Spec, st: State, response: Response)
    requires ShouldExecuteTools(response)
    ensures var r := RoundOf(world, spec, response, |st.log.rounds|, |st.messages|);
            var next := AfterRound(world, spec, st, response);
            && r.at == |st.messages| && r.assistant.role.Assistant? && r.assistant.calls == Some(AsToolCalls(r.calls))
            && 0 < |r.contents| <= |r.calls| && (!r.fatal ==> |r.contents| == |r.calls|)
            && next.messages == st.messages + ([r.assistant] + ToolMessages(r.calls, r.contents))
            && next.toolsUsed == st.toolsUsed + NamesOf(r.calls) && next.usage == st.usage
            && next.log == st.log.(rounds := st.log.rounds + [r], checkpoints := next.log.checkpoints)
  {
    hide ExecutedCount, LastFatal, ToolMessages, AsToolCalls, RoundCheckpoints, NamesOf, ExecOf, Results, Events,
      NormalizedContents, BuildAssistantMessage, ShouldExecuteTools;
    CallsNonEmpty(response);
    AssistantDeclares(response);
    RanCounts(spec.concurrent, world.safe, response.calls, ExecOf(world, |st.log.rounds|));
  }

  lemma CallsNonEmpty(r: Response)
    requires ShouldExecuteTools(r)
    ensures r.calls != []
  {
  }

  lemma AssistantDeclares(r: Response)
    requires r.calls != []
    ensures var m := BuildAssistantMessage(r.content, AsToolCalls(r.calls), r);
            m.role.Assistant? && m.calls == Some(AsToolCalls(r.calls))
  {
  }

  lemma RecordedMore(spec: Spec, log: Log, more: Log)
    requires Counted(log) && Recorded(spec, log)
    requires more == log.(rounds := more.rounds, checkpoints := more.checkpoints)
    ensures Counted(more) && Recorded(spec, more)
  {
  }

  lemma ToolNamesMore(rounds: seq<Round>, r: Round)
    ensures ToolNames(rounds + [r]) == ToolNames(rounds) + NamesOf(r.calls)
  {
    assert (rounds + [r])[..|rounds|] == rounds;
  }

  // ---- The log is what the world answered ----

  /** The answers that asked for tools. */
  function Asking(responses: seq<Response>): seq<Response> {
    if responses == [] then []
    else
      var last := responses[|responses| - 1];
      Asking(responses[..|responses| - 1]) + if ShouldExecuteTools(last) then [last] else []
  }

  /** The answers are the model's, in order; exactly those asking for tools had a round; and each round
      holds what its own calls yielded. */
  ghost predicate Faithful(world: World, spec: Spec, responses: seq<Response>, rounds: seq<Round>) {
    && (forall i :: 0 <= i < |responses| ==> responses[i] == world.respond(i))
    && |rounds| == |Asking(responses)|
    && (forall i :: 0 <= i < |rounds| ==> rounds[i] == RoundOf(world, spec, Asking(responses)[i], i, rounds[i].at))
  }

  /** The checkpoints of the tool phases, round by round. */
  ghost function CheckpointsOf(rounds: seq<Round>): seq<Checkpoint> {
    if rounds == [] then []
    else
      var last := rounds[|rounds| - 1];
      CheckpointsOf(rounds[..|rounds| - 1]) + if |last.contents| <= |last.calls| then RoundCheckpoints(last) else []
  }

  lemma FaithfulPlain(world: World, spec: Spec, responses: seq<Response>, rounds: seq<Round>, r: Response)
    requires Faithful(world, spec, responses, rounds) && r == world.respond(|responses|) && !ShouldExecuteTools(r)
    ensures Faithful(world, spec, responses + [r], rounds)
  {
    hide RoundOf, ShouldExecuteTools;
    assert (responses + [r])[..|responses|] == responses;
    assert Asking(responses) + [] == Asking(responses);
  }

  lemma FaithfulRound(world: World, spec: Spec, st: State, responses: seq<Response>, r: Response)
    requires Faithful(world, spec, responses, st.log.rounds) && r == world.respond(|responses|) && ShouldExecuteTools(r)
    ensures Faithful(world, spec, responses + [r], AfterRound(world, spec, st, r).log.rounds)
  {
    hide ShouldExecuteTools, RoundOf, AfterRound, Asking, RoundCheckpoints, FatalOf, Events;
    RoundLog(world, spec, st, r);
    AskingMore(responses, r);
    var rounds, next, asking := st.log.rounds, AfterRound(world, spec, st, r).log.rounds, Asking(responses);
    forall i | 0 <= i < |next| ensures next[i] == RoundOf(world, spec, (asking + [r])[i], i, next[i].at) {
      if i < |rounds| {
        assert next[i] == rounds[i] && (asking + [r])[i] == asking[i];
      }
    }
  }

  lemma AskingMore(responses: seq<Response>, r: Response)
    requires ShouldExecuteTools(r)
    ensures Asking(responses + [r]) == Asking(responses) + [r]
  {
    assert (responses + [r])[..|responses|] == responses;
  }

  /** What a round adds to the log. */
  lemma RoundLog(world: World, spec: Spec, st: State, r: Response)
    ensures var i, next := |st.log.rounds|, AfterRound(world, spec, st, r);
            var round := RoundOf(world, spec, r, i, |st.messages|);
            && next.log.rounds == st.log.rounds + [round] && round.at == |st.messages|
            && round.fatal == FatalOf(world, spec, r, i).Some? && |round.contents| <= |round.calls|
            && next == st.(messages := next.messages, toolsUsed := next.toolsUsed, toolEvents := next.toolEvents,
                           log := next.log)
            && next.log == st.log.(rounds := next.log.rounds, checkpoints := next.log.checkpoints)
            && next.log.checkpoints == st.log.checkpoints + RoundCheckpoints(round)
            && next.toolEvents == st.toolEvents + Events(ExecOf(world, i), |round.contents|)
  {
    hide RoundCheckpoints, BuildAssistantMessage, ExecutedCount, FatalOf, NamesOf, ToolMessages, AsToolCalls;
  }

  lemma RoundCounts(world: World, spec: Spec, st: State, r: Response)
    ensures var i, next := |st.log.rounds|, AfterRound(world, spec, st, r);
            && next == st.(messages := next.messages, toolsUsed := next.toolsUsed, toolEvents := next.toolEvents,
                           log := next.log)
            && next.log == st.log.(rounds := next.log.rounds, checkpoints := next.log.checkpoints)
            && |next.log.rounds| == i + 1 && next.log.rounds[i].fatal == FatalOf(world, spec, r, i).Some?
  {
    hide RoundOf, AfterRound, RoundCheckpoints, Events, FatalOf;
    RoundLog(world, spec, st, r);
  }

  lemma RoundRecorded(world: World, spec: Spec, st: State, r: Response)
    requires st.log.checkpoints == CheckpointsOf(st.log.rounds) && st.toolEvents == ToolEvents(world, st.log.rounds)
    ensures var next := AfterRound(world, spec, st, r);
            && next.log.checkpoints == CheckpointsOf(next.log.rounds)
            && next.toolEvents == ToolEvents(world, next.log.rounds)
  {
    hide RoundCheckpoints, RoundOf, AfterRound, Events, FatalOf;
    RoundLog(world, spec, st, r);
    var next := AfterRound(world, spec, st, r);
    assert next.log.rounds[..|st.log.rounds|] == st.log.rounds;
  }

  // ---- handle_final_content ----

  function Closed(st: State, text: string): State {
    if text == "" then st else st.(messages := st.messages + [AssistantText(text)])
  }

  predicate AlreadyAnswered(ms: seq<Message>) {
    ms != [] && ms[|ms| - 1].role.Assistant? && ms[|ms| - 1].calls.None?
  }

  /** The assistant has the last word, or only the user has spoken since. */
  predicate Closes(ms: seq<Message>) {
    AlreadyAnswered(ms) || (|ms| >= 2 && EndsWithUser(ms) && AlreadyAnswered(ms[..|ms| - 1]))
  }

  predicate SaysLast(ms: seq<Message>, text: Option<string>) {
    AlreadyAnswered(ms) && AsText(ms[|ms| - 1].content) == text
  }

  predicate ClosesWith(ms: seq<Message>, text: Option<string>) {
    SaysLast(ms, text) || (|ms| >= 2 && EndsWithUser(ms) && SaysLast(ms[..|ms| - 1], text))
  }

  function Excused(st: State): State {
    if AlreadyAnswered(st.messages) then st
    else st.(messages := st.messages + [AssistantText(MODEL_ERROR_PLACEHOLDER)])
  }

  function Answered(st: State, answer: Message): State {
    st.(messages := st.messages + [answer],
        log := st.log.(checkpoints := st.log.checkpoints + [Checkpoint(FinalResponse, Some(answer), [], [])]))
  }

  function ErrorText(spec: Spec, clean: Option<string>): string {
    if clean.Some? then clean.value
    else if spec.errorMessage.Some? then spec.errorMessage.value else DEFAULT_ERROR_MESSAGE
  }

  /** A result as `handle_final_content` returns it: without the tools used and their events. */
  function Plainly(st: State, content: Option<string>, stop: StopReason, error: Option<string>): RunResult {
    RunResult(content, st.messages, [], st.usage, stop, error, [], st.log.cycles > 0)
  }

  /** The four endings: interrupted by the user, a model error, no answer, and an answer. */
  function Concluded(world: World, spec: Spec, st: State, clean: Option<string>, response: Response): (RunResult, Log) {
    var answer := BuildAssistantMessage(clean, [], response);
    var answered := !response.finish.Failed? && !IsBlank(clean);
    var asked := AfterDrain(world, st, if answered then Some(answer) else None);
    if Drains(world, st) then (Plainly(asked, None, Injected, None), asked.log)
    else if answered then (Plainly(Answered(asked, answer), clean, Completed, None), Answered(asked, answer).log)
    else if response.finish.Failed? then
      var end := AfterDrain(world, Excused(asked), None);
      var text := Some(ErrorText(spec, clean));
      (Plainly(end, text, ModelError, text), end.log)
    else
      var end := AfterDrain(world, Closed(asked, EMPTY_FINAL_RESPONSE_MESSAGE), None);
      var text := Some(EMPTY_FINAL_RESPONSE_MESSAGE);
      (Plainly(end, text, EmptyFinalResponse, text), end.log)
  }

  /** What every ending of the run through `handle_final_content` guarantees. */
  ghost predicate EndsWell(
    spec: Spec, st: State, clean: Option<string>, response: Response, result: RunResult, log: Log)
  {
    && Shape(spec.initial, result.messages, log.rounds) && Counted(log) && Recorded(spec, log)
    && result.usage == UsageOf(log.responses)
    && log == st.log.(drains := log.drains, cycles := log.cycles, injected := log.injected,
                      checkpoints := log.checkpoints)
    && result.hadInjections == (log.cycles > 0)
    && result.toolsUsed == [] && result.toolEvents == []
    && !result.stop.MaxIterations? && !result.stop.ToolError? && (result.stop.Completed? ==> EndsWithAnswer(result))
    && log.checkpoints == st.log.checkpoints + FinalCheckpoints(result)
    && Ending(spec, clean, response, result)
  }

  /** The model's answer stands directly before the user message that interrupted. */
  predicate AnswerBeforeUser(ms: seq<Message>, clean: Option<string>) {
    && |ms| >= 2 && ms[|ms| - 2].role.Assistant? && ms[|ms| - 2].calls.None?
    && AsText(ms[|ms| - 2].content) == clean
  }

  /** Which ending it is, and the text that goes with it. */
  ghost predicate Ending(spec: Spec, clean: Option<string>, response: Response, result: RunResult) {
    match result.stop
    case Completed => !response.finish.Failed? && result.finalContent == clean && result.error.None?
    case Injected =>
      && result.finalContent.None? && result.error.None? && EndsWithUser(result.messages)
      && (!response.finish.Failed? && !IsBlank(clean) ==> AnswerBeforeUser(result.messages, clean))
    case EmptyFinalResponse =>
      && !response.finish.Failed? && IsBlank(clean) && ClosesWith(result.messages, result.finalContent)
      && result.finalContent == result.error == Some(EMPTY_FINAL_RESPONSE_MESSAGE)
    case ModelError =>
      && response.finish.Failed? && Closes(result.messages)
      && result.finalContent == result.error == Some(ErrorText(spec, clean))
    case MaxIterations => false
    case ToolError => false
  }

  /** An answer that completes the run is the last message, and is checkpointed. */
  ghost function FinalCheckpoints(result: RunResult): seq<Checkpoint> {
    if result.stop.Completed? && result.messages != []
    then [Checkpoint(FinalResponse, Some(result.messages[|result.messages| - 1]), [], [])] else []
  }

  method HandleFinalContent(world: World, spec: Spec, st: State, clean: Option<string>, response: Response)
    returns (result: RunResult, log: Log)
    ensures (result, log) == Concluded(world, spec, st, clean, response)
  {
    hide IsBlank, BuildAssistantMessage, AfterDrain, Drains, Excused, Closed;
    var blank := IsBlank(clean);
    var answer := BuildAssistantMessage(clean, [], response);
    var assistant := if !response.finish.Failed? && !blank then Some(answer) else None;
    var drained, end := TryDrainInjections(world, st, assistant);
    if drained {
      DrainCounts(world, st, assistant);
      result := RunResult(None, end.messages, [], end.usage, Injected, None, [], true);
    } else if response.finish.Failed? {
      var text := if clean.Some? then clean.value
                  else if spec.errorMessage.Some? then spec.errorMessage.value else DEFAULT_ERROR_MESSAGE;
      end := AppendModelErrorPlaceholder(end);
      drained, end := TryDrainInjections(world, end, None);
      result := RunResult(Some(text), end.messages, [], end.usage, ModelError, Some(text), [], end.log.cycles > 0);
    } else if blank {
      end := AppendFinalMessage(end, EMPTY_FINAL_RESPONSE_MESSAGE);
      drained, end := TryDrainInjections(world, end, None);
      var text := Some(EMPTY_FINAL_RESPONSE_MESSAGE);
      result := RunResult(text, end.messages, [], end.usage, EmptyFinalResponse, text, [], end.log.cycles > 0);
    } else {
      end := end.(messages := end.messages + [answer]);
      var checkpoint := Checkpoint(FinalResponse, Some(answer), [], []);
      end := end.(log := end.log.(checkpoints := end.log.checkpoints + [checkpoint]));
      result := RunResult(clean, end.messages, [], end.usage, Completed, None, [], end.log.cycles > 0);
    }
    log := end.log;
  }

  lemma DrainCounts(world: World, st: State, assistant: Option<Message>)
    requires Drains(world, st)
    ensures AfterDrain(world, st, assistant).log.cycles > 0
  {
    hide Taken, AllInjected;
  }

  lemma ConcludesWell(world: World, spec: Spec, st: State, clean: Option<string>, response: Response)
    requires Good(spec, st) && Open(spec.initial, st.messages)
    ensures var (result, log) := Concluded(world, spec, st, clean, response);
            EndsWell(spec, st, clean, response, result, log)
  {
    hide Good, Open, EndsWell, IsBlank, BuildAssistantMessage, EndsWithAnswer, EndsWithUser, LimitMessage, Recorded,
      Counted, Shape, UsageOf, ToolNames, AfterDrain, Drains, Excused, Closed, AlreadyAnswered, Closes, ClosesWith,
      SaysLast;
    var (result, log) := Concluded(world, spec, st, clean, response);
    var answer := BuildAssistantMessage(clean, [], response);
    PlainAnswer(clean, response);
    var answered := !response.finish.Failed? && !IsBlank(clean);
    var assistant := if answered then Some(answer) else None;
    DrainKeepsGood(world, spec, st, assistant);
    var end := AfterDrain(world, st, assistant);
    if Drains(world, st) {
      if answered {
        AnswerIsKept(world, st, clean, response);
      }
    } else {
      if answered {
        GoodPush(spec, end, answer);
        GoodSame(spec, end.(messages := end.messages + [answer]), Answered(end, answer));
        AnswerIsLast(result, clean, response);
        end := Answered(end, answer);
      } else {
        if response.finish.Failed? {
          ExcusedGood(spec, end);
          end := Excused(end);
        } else {
          ClosedGood(spec, end, EMPTY_FINAL_RESPONSE_MESSAGE);
          end := Closed(end, EMPTY_FINAL_RESPONSE_MESSAGE);
        }
        DrainKeepsGood(world, spec, end, None);
        DrainComesLast(world, end);
        end := AfterDrain(world, end, None);
      }
    }
    GoodParts(spec, end);
    FinishedWell(spec, st, clean, response, result, log);
  }

  /** Injected messages go behind the answer they interrupt, as one user message. */
  lemma AnswerIsKept(world: World, st: State, clean: Option<string>, response: Response)
    requires Drains(world, st) && !IsBlank(clean)
    ensures var answer := BuildAssistantMessage(clean, [], response);
            AnswerBeforeUser(AfterDrain(world, st, Some(answer)).messages, clean)
  {
    hide Taken, MergeContent, IsBlank, AllInjected;
    var answer := BuildAssistantMessage(clean, [], response);
    DrainCases(world, st, Some(answer));
    var taken := Taken(world, st.log.drains);
    TakenAreUsers(world, st.log.drains);
    InjectedBehind(world.mergeBlocks, st.messages + [answer], taken);
    NotBlank(clean);
  }

  /** What is taken in after a closing text comes behind it. */
  lemma DrainComesLast(world: World, st: State)
    ensures AlreadyAnswered(st.messages) ==>
      var ms, last := AfterDrain(world, st, None).messages, st.messages[|st.messages| - 1];
      Closes(ms) && ClosesWith(ms, AsText(last.content)) && (!Drains(world, st) ==> SaysLast(ms, AsText(last.content)))
  {
    hide Taken, MergeContent, AllInjected;
    DrainCases(world, st, None);
    if AlreadyAnswered(st.messages) && Drains(world, st) {
      TakenAreUsers(world, st.log.drains);
      InjectedBehind(world.mergeBlocks, st.messages, Taken(world, st.log.drains));
    }
  }

  lemma {:induction false} InjectedBehind(mergeBlocks: (Json, Json) -> Json, ms: seq<Message>, items: seq<Message>)
    requires ms != [] && !EndsWithUser(ms) && items != [] && AllUsers(items)
    ensures var updated := AllInjected(mergeBlocks, ms, items);
            |updated| == |ms| + 1 && updated[..|ms|] == ms && EndsWithUser(updated)
    decreases |items|
  {
    hide MergeContent;
    var front := items[..|items| - 1];
    if front != [] {
      InjectedBehind(mergeBlocks, ms, front);
    }
  }

  lemma PlainAnswer(content: Option<string>, r: Response)
    ensures var m := BuildAssistantMessage(content, [], r); m.role.Assistant? && !m.role.Tool? && !m.role.User?
  {
  }

  lemma AnswerIsLast(result: RunResult, clean: Option<string>, r: Response)
    requires !IsBlank(clean) && result.finalContent == clean && result.messages != []
    requires result.messages[|result.messages| - 1] == BuildAssistantMessage(clean, [], r)
    ensures EndsWithAnswer(result)
  {
  }

  lemma FinishedWell(spec: Spec, st: State, clean: Option<string>, response: Response, result: RunResult, log: Log)
    requires Shape(spec.initial, result.messages, log.rounds) && Counted(log) && Recorded(spec, log)
    requires result.usage == UsageOf(log.responses)
    requires result.toolsUsed == [] && result.toolEvents == [] && result.hadInjections == (log.cycles > 0)
    requires !result.stop.MaxIterations? && !result.stop.ToolError?
    requires result.stop.Completed? ==> EndsWithAnswer(result)
    requires Ending(spec, clean, response, result)
    requires log.checkpoints == st.log.checkpoints + FinalCheckpoints(result)
    requires log == st.log.(drains := log.drains, cycles := log.cycles, injected := log.injected,
                            checkpoints := log.checkpoints)
    ensures EndsWell(spec, st, clean, response, result, log)
  {
    hide Shape, Counted, Recorded, UsageOf, EndsWithAnswer, Ending, FinalCheckpoints;
  }

  /** Not appended after an assistant message that carries no `tool_calls`. */
  method AppendModelErrorPlaceholder(st: State) returns (next: State)
    ensures next == Excused(st)
  {
    var ms := st.messages;
    if ms != [] && ms[|ms| - 1].role.Assistant? && ms[|ms| - 1].calls.None? {
      return st;
    }
    next := st.(messages := ms + [AssistantText(MODEL_ERROR_PLACEHOLDER)]);
  }

  method AppendFinalMessage(st: State, content: string) returns (next: State)
    ensures next == Closed(st, content)
  {
    if content == "" {
      return st;
    }
    next := st.(messages := st.messages + [AssistantText(content)]);
  }

  /** After a model error the transcript ends in an assistant message without calls, at the cost of at most
      one message; doing it again changes nothing. */
  lemma ExcusedGood(spec: Spec, st: State)
    requires Good(spec, st) && Open(spec.initial, st.messages)
    ensures var next := Excused(st);
            && Good(spec, next) && next == st.(messages := next.messages)
            && AlreadyAnswered(next.messages) && Excused(next) == next
            && (|next.messages| > |st.messages| ==>
                AsText(next.messages[|st.messages|].content)
                == Some("[Assistant reply unavailable due to model error.]"))
            && st.messages <= next.messages && |next.messages| <= |st.messages| + 1
  {
    hide Good, Open, Shape;
    GoodPush(spec, st, AssistantText(MODEL_ERROR_PLACEHOLDER));
  }

  /** A closing text is the last thing the assistant says, and nothing before it changes. */
  lemma ClosedGood(spec: Spec, st: State, text: string)
    requires Good(spec, st) && Open(spec.initial, st.messages)
    ensures var next := Closed(st, text);
            && Good(spec, next) && next == st.(messages := next.messages) && st.messages <= next.messages
            && (text == "" ==> next == st)
            && (text != "" ==>
                AlreadyAnswered(next.messages) && AsText(next.messages[|next.messages| - 1].content) == Some(text))
  {
    hide Good, Open, Shape;
    GoodPush(spec, st, AssistantText(text));
  }

  // ---- run ----

  function Asked(st: State, response: Response): State {
    st.(usage := Accumulate(st.usage, response.usage),
        log := st.log.(transcripts := st.log.transcripts + [st.messages], responses := st.log.responses + [response]))
  }

  /** One request to the model: the governed list goes out, the answer's usage is added up. */
  method RequestModel(world: World, spec: Spec, st: State, iteration: nat)
    returns (request: seq<Message>, response: Response, next: State)
    ensures Governed(spec.policy, st.messages, request)
    ensures response == world.respond(iteration) && next == Asked(st, response)
  {
    hide Governed, Accumulate;
    request := Govern(spec.policy, st.messages);
    response := world.respond(iteration);
    next := st.(usage := Accumulate(st.usage, response.usage),
                log := st.log.(transcripts := st.log.transcripts + [st.messages],
                               responses := st.log.responses + [response]));
  }

  lemma AskedGood(spec: Spec, st: State, response: Response)
    requires Good(spec, st) && Open(spec.initial, st.messages)
    ensures Good(spec, Asked(st, response))
  {
    hide Good, Open, Shape, Recorded, Counted, UsageOf, Accumulate;
    GoodParts(spec, st);
    RecordedRequest(spec, st.log, st.log.rounds, st.messages, response);
    UsageMore(st.log.responses, response);
    PartsGood(spec, Asked(st, response));
  }

  lemma RecordedRequest(spec: Spec, log: Log, rounds: seq<Round>, transcript: seq<Message>, response: Response)
    requires Counted(log) && Recorded(spec, log)
    requires Open(spec.initial, transcript) && Shape(spec.initial, transcript, rounds)
    ensures var more := log.(transcripts := log.transcripts + [transcript], responses := log.responses + [response]);
            Counted(more) && Recorded(spec, more)
  {
    hide Open, WellStarted, NoTwins, Extends, RoundsCover;
  }

  lemma UsageMore(responses: seq<Response>, r: Response)
    ensures UsageOf(responses + [r]) == Accumulate(UsageOf(responses), r.usage)
  {
    assert (responses + [r])[..|responses|] == responses;
  }

  function Retried(world: World, st: State): State {
    st.(usage := Accumulate(st.usage, world.retry.usage),
        log := st.log.(finalizations := st.log.finalizations + 1, responses := st.log.responses + [world.retry]))
  }

  /** The second answer, asked for once when the first two were empty. */
  method FinalizationRetry(world: World, st: State) returns (next: State)
    ensures next == Retried(world, st)
  {
    next := st.(usage := Accumulate(st.usage, world.retry.usage),
                log := st.log.(finalizations := st.log.finalizations + 1,
                               responses := st.log.responses + [world.retry]));
  }

  /** The retry adds its usage key by key, and neither the transcript nor the count of requests moves. */
  lemma RetriedGood(world: World, spec: Spec, st: State)
    requires Good(spec, st)
    ensures var next := Retried(world, st);
            && Good(spec, next) && next.messages == st.messages && next.log.transcripts == st.log.transcripts
            && forall key :: UsageAt(next.usage, key) == UsageAt(st.usage, key) + UsageAt(world.retry.usage, key)
  {
    hide Good, Shape, Recorded, Counted, UsageOf;
    GoodParts(spec, st);
    RecordedRetry(spec, st.log, world.retry);
    UsageMore(st.log.responses, world.retry);
    PartsGood(spec, Retried(world, st));
  }

  lemma RecordedRetry(spec: Spec, log: Log, response: Response)
    requires Counted(log) && Recorded(spec, log)
    ensures var more := log.(finalizations := log.finalizations + 1, responses := log.responses + [response]);
            Counted(more) && Recorded(spec, more)
  {
  }

  function Continued(st: State, clean: Option<string>, response: Response): State {
    var answer, ask := BuildAssistantMessage(clean, [], response), UserMessage(LENGTH_RECOVERY_MESSAGE);
    st.(messages := (st.messages + [answer]) + [ask])
  }

  /** Continue a truncated answer: keep what came and ask for the rest. */
  method LengthRecovery(st: State, clean: Option<string>, response: Response) returns (next: State)
    ensures next == Continued(st, clean, response)
  {
    next := st.(messages := st.messages + [BuildAssistantMessage(clean, [], response)]);
    next := next.(messages := next.messages + [UserMessage(LENGTH_RECOVERY_MESSAGE)]);
  }

  /** The truncated answer stays in the transcript, the model is asked to go on, and may answer next. */
  lemma ContinuedGood(spec: Spec, st: State, clean: Option<string>, response: Response)
    requires Good(spec, st) && Open(spec.initial, st.messages) && clean.Some?
    ensures var next := Continued(st, clean, response);
            && Good(spec, next) && Open(spec.initial, next.messages) && EndsWithUser(next.messages)
            && |next.messages| == |st.messages| + 2 && st.messages <= next.messages
            && AsText(next.messages[|st.messages|].content) == clean
            && AlreadyAnswered(next.messages[..|st.messages| + 1])
            && AsText(next.messages[|st.messages| + 1].content)
            == Some("Your response was truncated. Please continue from where you left off.")
  {
    hide Good, Open, Shape;
    var answer, ask := BuildAssistantMessage(clean, [], response), UserMessage(LENGTH_RECOVERY_MESSAGE);
    GoodPush(spec, st, answer);
    GoodPush(spec, st.(messages := st.messages + [answer]), ask);
    assert ((st.messages + [answer]) + [ask])[..|st.messages| + 1] == st.messages + [answer];
  }

  // ---- The reference: what one answer leads to ----

  /** What becomes of an answer that runs no tools. */
  datatype Verdict = AskAgain | Finalize | KeepGoing | Conclude

  function Judge(st: State, response: Response, clean: Option<string>): Verdict {
    if !response.finish.Failed? && IsBlank(clean) then
      if st.emptyRetries + 1 < MAX_EMPTY_RETRIES then AskAgain else Finalize
    else if response.finish.Length? && !IsBlank(clean) && st.lengthRecoveries < MAX_LENGTH_RECOVERIES then KeepGoing
    else Conclude
  }

  datatype Turn = Goes(st: State, error: Option<string>) | Ends(result: RunResult, log: Log)

  function ToolTurn(world: World, spec: Spec, st: State, response: Response, error: Option<string>): Turn {
    var ran := AfterRound(world, spec, st, response);
    match FatalOf(world, spec, response, |st.log.rounds|)
    case None => Goes(AfterDrain(world, ran.(emptyRetries := 0, lengthRecoveries := 0), None), error)
    case Some(why) =>
      var text := "Error: " + why;
      var closed := Closed(ran, text);
      var end := AfterDrain(world, closed, None);
      if Drains(world, closed) then Goes(end, Some(text))
      else Ends(RunResult(Some(text), end.messages, end.toolsUsed, end.usage, ToolError, Some(text), end.toolEvents,
                          end.log.cycles > 0), end.log)
  }

  function PlainTurn(world: World, spec: Spec, st: State, response: Response, error: Option<string>): Turn {
    var clean := world.finalize(st.finalizes, response.content);
    var judged := st.(finalizes := st.finalizes + 1);
    match Judge(st, response, clean)
    case AskAgain => Goes(judged.(emptyRetries := st.emptyRetries + 1), error)
    case KeepGoing => Goes(Continued(judged.(lengthRecoveries := st.lengthRecoveries + 1), clean, response), error)
    case Conclude => var (result, log) := Concluded(world, spec, judged, clean, response); Ends(result, log)
    case Finalize =>
      var retryClean := world.finalize(st.finalizes + 1, world.retry.content);
      var (result, log) := Concluded(world, spec, Retried(world, judged), retryClean, world.retry);
      Ends(result, log)
  }

  function AtLimit(world: World, spec: Spec, st: State, error: Option<string>): (RunResult, Log) {
    var end := AfterDrain(world, Closed(st, LimitMessage(spec)), None);
    (RunResult(Some(LimitMessage(spec)), end.messages, end.toolsUsed, end.usage, MaxIterations, error, end.toolEvents,
               true),
     end.log)
  }

  /** The run from its i-th request on. */
  function RunFrom(world: World, spec: Spec, st: State, i: nat, error: Option<string>): (RunResult, Log)
    decreases spec.maxIterations - i
  {
    if i >= spec.maxIterations then AtLimit(world, spec, st, error)
    else
      var response := world.respond(i);
      var asked := Asked(st, response);
      match if ShouldExecuteTools(response) then ToolTurn(world, spec, asked, response, error)
            else PlainTurn(world, spec, asked, response, error)
      case Goes(next, error') => RunFrom(world, spec, next, i + 1, error')
      case Ends(result, log) => (result, log)
  }

  function Start(spec: Spec): State {
    State(spec.initial, NO_USAGE, 0, 0, 0, [], [], Log([], [], [], [], 0, 0, 0, 0))
  }

  /** The lists sent to the model are the governed forms of the transcript at that time. */
  ghost predicate Sent(spec: Spec, transcripts: seq<seq<Message>>, requests: seq<seq<Message>>) {
    && |requests| == |transcripts|
    && forall i :: 0 <= i < |requests| ==> Governed(spec.policy, transcripts[i], requests[i])
  }

  lemma SentMore(
    spec: Spec, transcripts: seq<seq<Message>>, requests: seq<seq<Message>>, transcript: seq<Message>,
    request: seq<Message>)
    requires Sent(spec, transcripts, requests) && Governed(spec.policy, transcript, request)
    ensures Sent(spec, transcripts + [transcript], requests + [request])
  {
    hide Governed;
  }

  lemma GovernedIsClosed(policy: Policy, messages: seq<Message>, request: seq<Message>)
    requires Governed(policy, messages, request)
    ensures PairingClosed(request)
  {
  }

  /** What a run guarantees, for every world. */
  ghost predicate RunOk(world: World, spec: Spec, result: RunResult, log: Log) {
    var n := |log.transcripts|;
    && n <= |log.responses| && Faithful(world, spec, log.responses[..n], log.rounds)
    && (log.finalizations == 1 ==> log.responses == log.responses[..n] + [world.retry])
    && Shape(spec.initial, result.messages, log.rounds)
    && Counted(log) && Recorded(spec, log)
    && n <= spec.maxIterations && n <= 5 * |log.rounds| + 5
    && log.finalizations <= 1
    && log.checkpoints == CheckpointsOf(log.rounds) + FinalCheckpoints(result)
    && result.usage == UsageOf(log.responses)
    && (result.hadInjections <==> log.cycles > 0 || result.stop.MaxIterations?)
    && (result.stop.MaxIterations? ==> n == spec.maxIterations)
    && (if result.stop.MaxIterations? || result.stop.ToolError?
        then result.toolsUsed == ToolNames(log.rounds) && result.toolEvents == ToolEvents(world, log.rounds)
        else result.toolsUsed == [] && result.toolEvents == [])
    && (result.stop.Completed? ==> EndsWithAnswer(result))
    && (result.stop.ToolError? ==> log.rounds != [] && log.rounds[|log.rounds| - 1].fatal)
    && TextMatches(world, spec, result, log) && Decided(world, result, log) && Drained(world, result, log)
  }

  /** The last answer as the hook left it: every answer without tools is finalized once. */
  function FinalClean(world: World, log: Log): Option<string> {
    var n := |log.responses|;
    if n <= |log.rounds| then None else world.finalize(n - |log.rounds| - 1, log.responses[n - 1].content)
  }

  /** The error that made a round fatal. */
  function FatalIn(world: World, rounds: seq<Round>, i: nat): Option<string>
    requires i < |rounds|
  {
    LastFatal(ExecOf(world, i), 0, |rounds[i].contents|)
  }

  /** The text of the last fatal error so far. */
  function ErrorAfter(world: World, rounds: seq<Round>): Option<string> {
    if rounds == [] then None
    else
      match FatalIn(world, rounds, |rounds| - 1)
      case Some(why) => Some("Error: " + why)
      case None => ErrorAfter(world, rounds[..|rounds| - 1])
  }

  /** The text returned for each way of stopping. */
  ghost predicate TextMatches(world: World, spec: Spec, result: RunResult, log: Log) {
    var clean, n := FinalClean(world, log), |log.responses|;
    match result.stop
    case Completed => result.finalContent == clean && result.error.None?
    case Injected =>
      && result.finalContent.None? && result.error.None? && EndsWithUser(result.messages)
      && (n > 0 && !log.responses[n - 1].finish.Failed? && !IsBlank(clean) ==> AnswerBeforeUser(result.messages, clean))
    case MaxIterations =>
      && result.finalContent == Some(LimitMessage(spec)) && result.error == ErrorAfter(world, log.rounds)
      && (LimitMessage(spec) != "" ==> ClosesWith(result.messages, result.finalContent))
    case EmptyFinalResponse =>
      && IsBlank(clean) && result.finalContent == result.error == Some(EMPTY_FINAL_RESPONSE_MESSAGE)
      && ClosesWith(result.messages, result.finalContent)
    case ModelError =>
      && n > 0 && log.responses[n - 1].finish.Failed?
      && result.finalContent == result.error == Some(ErrorText(spec, clean)) && Closes(result.messages)
    case ToolError =>
      && SaysLast(result.messages, result.finalContent)
      && log.rounds != [] && FatalIn(world, log.rounds, |log.rounds| - 1).Some?
      && result.finalContent == result.error == ErrorAfter(world, log.rounds)
  }

  /** The answer returned is the last message of the transcript. */
  ghost predicate EndsWithAnswer(result: RunResult) {
    && !IsBlank(result.finalContent) && EndsWithAssistant(result.messages)
    && AsText(result.messages[|result.messages| - 1].content) == result.finalContent
    && result.messages[|result.messages| - 1].calls.None?
  }

  /** The outcome of a whole run. */
  function Ran(world: World, spec: Spec): (RunResult, Log) {
    RunFrom(world, spec, Start(spec), 0, None)
  }

  /** The loop, its counters and its exits do what the reference says, and every list sent is governed. */
  method Run(world: World, spec: Spec) returns (result: RunResult, log: Log, requests: seq<seq<Message>>)
    ensures (result, log) == Ran(world, spec)
    ensures Sent(spec, log.transcripts, requests)
    ensures forall i :: 0 <= i < |requests| ==> PairingClosed(requests[i])
  {
    hide IsBlank, BuildAssistantMessage, LimitMessage, ShouldExecuteTools, RunFrom, AfterDrain, Drains, AfterRound,
      FatalOf, Concluded, Closed, Retried, Continued, Accumulate, Sent, Governed, AtLimit, PairingClosed;
    var st := Start(spec);
    requests := [];
    NothingSent(spec);
    var error: Option<string> := None;
    for iteration := 0 to spec.maxIterations
      invariant Sent(spec, st.log.transcripts, requests)
      invariant forall i :: 0 <= i < |requests| ==> PairingClosed(requests[i])
      invariant RunFrom(world, spec, st, iteration, error) == Ran(world, spec)
    {
      RunStep(world, spec, st, iteration, error);
      SameTranscripts(world, spec, Asked(st, world.respond(iteration)), world.respond(iteration), error);
      ghost var before := st;
      var request, response;
      request, response, st := RequestModel(world, spec, st, iteration);
      SentMore(spec, before.log.transcripts, requests, before.messages, request);
      GovernedIsClosed(spec.policy, before.messages, request);
      requests := requests + [request];

      if ShouldExecuteTools(response) {
        var fatal;
        fatal, st := ToolRound(world, spec, st, response);
        var drained;
        if fatal.Some? {
          var text := "Error: " + fatal.value;
          error := Some(text);
          st := AppendFinalMessage(st, text);
          drained, st := TryDrainInjections(world, st, None);
          if drained {
            continue;
          }
          result := RunResult(Some(text), st.messages, st.toolsUsed, st.usage, ToolError, error, st.toolEvents,
                              st.log.cycles > 0);
          log := st.log;
          return;
        }
        st := st.(emptyRetries := 0, lengthRecoveries := 0);
        drained, st := TryDrainInjections(world, st, None);
        continue;
      }

      var clean := world.finalize(st.finalizes, response.content);
      st := st.(finalizes := st.finalizes + 1);

      if !response.finish.Failed? && IsBlank(clean) {
        if st.emptyRetries + 1 < MAX_EMPTY_RETRIES {
          st := st.(emptyRetries := st.emptyRetries + 1);
          continue;
        }
        RetriedLog(world, st);
        st := FinalizationRetry(world, st);
        var retryClean := world.finalize(st.finalizes, world.retry.content);
        result, log := HandleFinalContent(world, spec, st, retryClean, world.retry);
        return;
      }

      if response.finish.Length? && !IsBlank(clean) {
        if st.lengthRecoveries + 1 <= MAX_LENGTH_RECOVERIES {
          st := st.(lengthRecoveries := st.lengthRecoveries + 1);
          st := LengthRecovery(st, clean, response);
          continue;
        }
      }

      result, log := HandleFinalContent(world, spec, st, clean, response);
      return;
    }

    LimitStep(world, spec, st, error);
    st := AppendFinalMessage(st, LimitMessage(spec));
    var drained;
    drained, st := TryDrainInjections(world, st, None);
    result := RunResult(Some(LimitMessage(spec)), st.messages, st.toolsUsed, st.usage, MaxIterations, error,
                        st.toolEvents, true);
    log := st.log;
  }

  lemma NothingSent(spec: Spec)
    ensures Sent(spec, [], [])
  {
  }

  lemma DrainKeepsTranscripts(world: World, st: State, assistant: Option<Message>)
    ensures AfterDrain(world, st, assistant).log.transcripts == st.log.transcripts
  {
    hide Taken, AllInjected;
  }

  lemma ConcludedKeepsTranscripts(world: World, spec: Spec, st: State, clean: Option<string>, response: Response)
    ensures Concluded(world, spec, st, clean, response).1.transcripts == st.log.transcripts
  {
    hide AfterDrain, IsBlank, BuildAssistantMessage, Drains;
    var answered := !response.finish.Failed? && !IsBlank(clean);
    var assistant := if answered then Some(BuildAssistantMessage(clean, [], response)) else None;
    var asked := AfterDrain(world, st, assistant);
    DrainKeepsTranscripts(world, st, assistant);
    DrainKeepsTranscripts(world, Excused(asked), None);
    DrainKeepsTranscripts(world, Closed(asked, EMPTY_FINAL_RESPONSE_MESSAGE), None);
  }

  /** After the request no step of the turn writes to the record of transcripts. */
  lemma SameTranscripts(world: World, spec: Spec, st: State, response: Response, error: Option<string>)
    ensures var turn := ToolTurn(world, spec, st, response, error);
            (if turn.Goes? then turn.st.log else turn.log).transcripts == st.log.transcripts
    ensures var turn := PlainTurn(world, spec, st, response, error);
            (if turn.Goes? then turn.st.log else turn.log).transcripts == st.log.transcripts
  {
    hide AfterDrain, Concluded, RoundOf, RoundCheckpoints, FatalOf, RanCount, Drains, NamesOf, Events, ToolMessages,
      IsBlank, BuildAssistantMessage, Accumulate, LimitMessage;
    var ran := AfterRound(world, spec, st, response);
    DrainKeepsTranscripts(world, ran.(emptyRetries := 0, lengthRecoveries := 0), None);
    var fatal := FatalOf(world, spec, response, |st.log.rounds|);
    if fatal.Some? {
      DrainKeepsTranscripts(world, Closed(ran, "Error: " + fatal.value), None);
    }
    var clean := world.finalize(st.finalizes, response.content);
    var judged := st.(finalizes := st.finalizes + 1);
    ConcludedKeepsTranscripts(world, spec, judged, clean, response);
    var retryClean := world.finalize(st.finalizes + 1, world.retry.content);
    ConcludedKeepsTranscripts(world, spec, Retried(world, judged), retryClean, world.retry);
  }

  lemma RunStep(world: World, spec: Spec, st: State, i: nat, error: Option<string>)
    requires i < spec.maxIterations
    ensures var response := world.respond(i);
            var asked := Asked(st, response);
            var turn := if ShouldExecuteTools(response) then ToolTurn(world, spec, asked, response, error)
                        else PlainTurn(world, spec, asked, response, error);
            RunFrom(world, spec, st, i, error) ==
            if turn.Goes? then RunFrom(world, spec, turn.st, i + 1, turn.error) else (turn.result, turn.log)
  {
    hide ToolTurn, PlainTurn, ShouldExecuteTools, Asked;
  }

  lemma LimitStep(world: World, spec: Spec, st: State, error: Option<string>)
    ensures RunFrom(world, spec, st, spec.maxIterations, error) == AtLimit(world, spec, st, error)
    ensures var end := AfterDrain(world, Closed(st, LimitMessage(spec)), None);
            AtLimit(world, spec, st, error) ==
            (RunResult(Some(LimitMessage(spec)), end.messages, end.toolsUsed, end.usage, MaxIterations, error,
                       end.toolEvents, true), end.log)
            && end.log.transcripts == st.log.transcripts
  {
    hide AfterDrain, LimitMessage;
    DrainKeepsTranscripts(world, Closed(st, LimitMessage(spec)), None);
  }

  lemma RetriedLog(world: World, st: State)
    ensures var next := Retried(world, st);
            && next.log == st.log.(finalizations := st.log.finalizations + 1,
                                   responses := st.log.responses + [world.retry])
            && next.messages == st.messages && next.finalizes == st.finalizes
  {
  }

  // ---- Which answers go on ----

  /** How many of the first `i` answers ran tools. */
  function ToolsBefore(world: World, i: nat): (n: nat)
    ensures n <= i
  {
    if i == 0 then 0 else ToolsBefore(world, i - 1) + if ShouldExecuteTools(world.respond(i - 1)) then 1 else 0
  }

  /** The i-th answer, if it runs no tools, as the hook leaves it. */
  function CleanAt(world: World, i: nat): Option<string> {
    world.finalize(i - ToolsBefore(world, i), world.respond(i).content)
  }

  /** Its calls ran without a fatal error. */
  predicate RanFine(world: World, i: nat) {
    forall k :: 0 <= k < |world.respond(i).calls| ==> world.exec(ToolsBefore(world, i), k).fatal.None?
  }

  predicate BlankAt(world: World, i: nat) {
    !ShouldExecuteTools(world.respond(i)) && !world.respond(i).finish.Failed? && IsBlank(CleanAt(world, i))
  }

  predicate TruncatedAt(world: World, i: nat) {
    !ShouldExecuteTools(world.respond(i)) && world.respond(i).finish.Length? && !IsBlank(CleanAt(world, i))
  }

  /** Blank answers among the first `i`, since tools last ran without a fatal error. */
  function BlanksSince(world: World, i: nat): nat {
    if i == 0 then 0
    else if ShouldExecuteTools(world.respond(i - 1)) then
      if RanFine(world, i - 1) then 0 else BlanksSince(world, i - 1)
    else BlanksSince(world, i - 1) + if BlankAt(world, i - 1) then 1 else 0
  }

  /** Truncated answers likewise. */
  function TruncatedSince(world: World, i: nat): nat {
    if i == 0 then 0
    else if ShouldExecuteTools(world.respond(i - 1)) then
      if RanFine(world, i - 1) then 0 else TruncatedSince(world, i - 1)
    else TruncatedSince(world, i - 1) + if TruncatedAt(world, i - 1) then 1 else 0
  }

  /** The run may ask again after the i-th answer: it ran tools, or was the first blank one, or one of the
      first three truncated ones, since tools last ran. */
  predicate GoesOn(world: World, i: nat) {
    || ShouldExecuteTools(world.respond(i))
    || (BlankAt(world, i) && BlanksSince(world, i) == 0)
    || (TruncatedAt(world, i) && TruncatedSince(world, i) < 3)
  }

  /** Every answer but the last goes on; the last one does not, unless the run stopped at its limit or on a
      fatal error; and the model is asked to finalize exactly after a second blank answer. */
  ghost predicate Decided(world: World, result: RunResult, log: Log) {
    var n := |log.transcripts|;
    && (forall i :: 0 <= i < n - 1 ==> GoesOn(world, i))
    && (result.stop.MaxIterations? ==> n > 0 ==> GoesOn(world, n - 1))
    && (result.stop.ToolError? ==> n > 0 && ShouldExecuteTools(world.respond(n - 1)) && !RanFine(world, n - 1))
    && (!result.stop.MaxIterations? && !result.stop.ToolError? ==> n > 0 && !GoesOn(world, n - 1))
    && (log.finalizations == 1 <==> n > 0 && BlankAt(world, n - 1) && BlanksSince(world, n - 1) >= 1)
  }

  lemma FatalUnlessFine(world: World, spec: Spec, i: nat)
    ensures FatalOf(world, spec, world.respond(i), ToolsBefore(world, i)).None? <==> RanFine(world, i)
  {
    hide ExecutedCount, LastFatal, ToolsBefore;
    var exec := ExecOf(world, ToolsBefore(world, i));
    ExecutedCountIs(spec.concurrent, world.safe, world.respond(i).calls, exec);
    assert forall k: nat :: exec(k) == world.exec(ToolsBefore(world, i), k);
  }

  // ---- Every drain counts ----

  function InjectedUpTo(world: World, n: nat): nat {
    if n == 0 then 0 else InjectedUpTo(world, n - 1) + |Taken(world, n - 1)|
  }

  function CyclesUpTo(world: World, n: nat): nat {
    if n == 0 then 0 else CyclesUpTo(world, n - 1) + if Taken(world, n - 1) == [] then 0 else 1
  }

  /** What the callback handed over has been taken in, and only a call that handed over something was a cycle. */
  ghost predicate Conserved(world: World, log: Log) {
    log.injected == InjectedUpTo(world, log.drains) && log.cycles == CyclesUpTo(world, log.drains)
  }

  /** How often the callback is called at an ending, beyond once per tool round. */
  function EndingDrains(stop: StopReason): nat {
    match stop
    case ToolError => 0
    case Completed => 1
    case Injected => 1
    case MaxIterations => 1
    case ModelError => 2
    case EmptyFinalResponse => 2
  }

  /** While fewer than five cycles are used, the callback is called after every tool round and at every
      ending; a run completes, or stops on a fatal error, only when it has nothing more to say; and a run is
      interrupted only when it has. */
  ghost predicate Drained(world: World, result: RunResult, log: Log) {
    && Conserved(world, log)
    && (log.cycles < 5 ==> log.drains == |log.rounds| + EndingDrains(result.stop))
    && (result.stop.Completed? || result.stop.ToolError? ==>
          log.cycles == 5 || (log.drains > 0 && Taken(world, log.drains - 1) == []))
    && (result.stop.Injected? ==> log.drains > 0 && Taken(world, log.drains - 1) != [])
  }

  lemma DrainConserves(world: World, spec: Spec, st: State, assistant: Option<Message>)
    requires Conserved(world, st.log) && st.log.cycles <= 5
    ensures var next := AfterDrain(world, st, assistant);
            && Conserved(world, next.log) && st.log.cycles <= next.log.cycles <= 5
            && (st.log.cycles < 5 ==> next.log.drains == st.log.drains + 1)
            && (Drains(world, st) ==> next.log.drains > 0 && Taken(world, next.log.drains - 1) != [])
            && (!Drains(world, st) ==>
                next.log.cycles == 5 || (next.log.drains > 0 && Taken(world, next.log.drains - 1) == []))
  {
    hide Taken, AllInjected;
  }

  /** The endings through `handle_final_content`, for a state whose drains are in order. */
  lemma ConcludedDrains(world: World, spec: Spec, st: State, clean: Option<string>, response: Response)
    requires Conserved(world, st.log) && st.log.cycles <= 5
    requires st.log.cycles < 5 ==> st.log.drains == |st.log.rounds|
    ensures var (result, log) := Concluded(world, spec, st, clean, response);
            log.rounds == st.log.rounds ==> Drained(world, result, log)
  {
    hide AfterDrain, Drains, Excused, Closed, BuildAssistantMessage, IsBlank, Conserved, Taken;
    var answered := !response.finish.Failed? && !IsBlank(clean);
    var assistant := if answered then Some(BuildAssistantMessage(clean, [], response)) else None;
    DrainConserves(world, spec, st, assistant);
    var asked := AfterDrain(world, st, assistant);
    if Drains(world, st) {
    } else if answered {
      SameDrains(world, asked.log, Concluded(world, spec, st, clean, response).1);
    } else {
      var excused := if response.finish.Failed? then Excused(asked) else Closed(asked, EMPTY_FINAL_RESPONSE_MESSAGE);
      SameLog(asked);
      SameDrains(world, asked.log, excused.log);
      DrainConserves(world, spec, excused, None);
    }
  }

  lemma SameDrains(world: World, a: Log, b: Log)
    requires a.drains == b.drains && a.cycles == b.cycles && a.injected == b.injected
    ensures Conserved(world, a) <==> Conserved(world, b)
  {
  }

  lemma SameLog(st: State)
    ensures Excused(st).log == st.log && Closed(st, EMPTY_FINAL_RESPONSE_MESSAGE).log == st.log
  {
  }

  // ---- Every run is in order ----

  /** What holds before the i-th request. */
  ghost predicate LoopInv(world: World, spec: Spec, st: State, i: nat, error: Option<string>) {
    && Good(spec, st) && Open(spec.initial, st.messages)
    && |st.log.transcripts| == |st.log.responses| == i && st.log.finalizations == 0
    && st.emptyRetries < MAX_EMPTY_RETRIES && st.lengthRecoveries <= MAX_LENGTH_RECOVERIES
    && i <= 5 * |st.log.rounds| + st.emptyRetries + st.lengthRecoveries
    && Faithful(world, spec, st.log.responses, st.log.rounds)
    && st.log.checkpoints == CheckpointsOf(st.log.rounds) && st.toolEvents == ToolEvents(world, st.log.rounds)
    && i == |st.log.rounds| + st.finalizes && error == ErrorAfter(world, st.log.rounds)
    && |st.log.rounds| == ToolsBefore(world, i) && (forall j :: 0 <= j < i ==> GoesOn(world, j))
    && st.emptyRetries == BlanksSince(world, i) && st.lengthRecoveries == TruncatedSince(world, i)
    && Conserved(world, st.log) && st.log.cycles <= 5 && (st.log.cycles < 5 ==> st.log.drains == |st.log.rounds|)
  }

  ghost predicate TurnOk(world: World, spec: Spec, turn: Turn, i: nat) {
    match turn
    case Goes(next, error) => LoopInv(world, spec, next, i, error)
    case Ends(result, log) => RunOk(world, spec, result, log)
  }

  lemma StartInv(world: World, spec: Spec)
    ensures LoopInv(world, spec, Start(spec), 0, None)
  {
    StartsInShape(spec.initial);
  }

  lemma ErrorMore(world: World, spec: Spec, st: State, response: Response)
    ensures var i, rounds := |st.log.rounds|, AfterRound(world, spec, st, response).log.rounds;
            var fatal := FatalOf(world, spec, response, i);
            && |rounds| == i + 1 && FatalIn(world, rounds, i) == fatal
            && ErrorAfter(world, rounds)
            == if fatal.Some? then Some("Error: " + fatal.value) else ErrorAfter(world, st.log.rounds)
  {
    hide LastFatal, ExecutedCount, NormalizedContents, Results, ToolMessages, NamesOf, Events, RoundCheckpoints,
      AsToolCalls, BuildAssistantMessage;
    var rounds := AfterRound(world, spec, st, response).log.rounds;
    assert rounds[..|st.log.rounds|] == st.log.rounds;
  }

  lemma ToolTurnOk(world: World, spec: Spec, st: State, i: nat, error: Option<string>)
    requires LoopInv(world, spec, st, i, error) && ShouldExecuteTools(world.respond(i)) && i < spec.maxIterations
    ensures TurnOk(world, spec, ToolTurn(world, spec, Asked(st, world.respond(i)), world.respond(i), error), i + 1)
  {
    hide Good, Open, EndsWithAnswer, EndsWithUser, Recorded, Counted, Shape, UsageOf, ToolNames, RunOk, Faithful,
      ShouldExecuteTools, EndsWithAssistant, AfterDrain, Drains, AfterRound, FatalOf, Closed, Accumulate, CheckpointsOf,
      ToolEvents, ErrorAfter, FatalIn, LimitMessage, Conserved, Taken, RanFine, AlreadyAnswered, SaysLast, ClosesWith,
      Closes;
    var response := world.respond(i);
    var asked := Asked(st, response);
    AskedGood(spec, st, response);
    FaithfulRound(world, spec, asked, st.log.responses, response);
    RoundCounts(world, spec, asked, response);
    RoundRecorded(world, spec, asked, response);
    ErrorMore(world, spec, asked, response);
    FatalUnlessFine(world, spec, i);
    SameDrains(world, st.log, AfterRound(world, spec, asked, response).log);
    RoundKeepsGood(world, spec, asked, response);
    var ran := AfterRound(world, spec, asked, response);
    OpenUnlessAssistant(spec, ran.messages);
    var fatal := FatalOf(world, spec, response, |asked.log.rounds|);
    if fatal.Some? {
      var text := "Error: " + fatal.value;
      ClosedGood(spec, ran, text);
      var closed := Closed(ran, text);
      DrainKeepsGood(world, spec, closed, None);
      DrainConserves(world, spec, closed, None);
      DrainComesLast(world, closed);
      var end := AfterDrain(world, closed, None);
      OpenUnlessAssistant(spec, end.messages);
      if !Drains(world, closed) {
        var turn := ToolTurn(world, spec, asked, response, error);
        ClosesWell(world, spec, end, turn.result);
      }
    } else {
      var reset := ran.(emptyRetries := 0, lengthRecoveries := 0);
      GoodSame(spec, ran, reset);
      DrainKeepsGood(world, spec, reset, None);
      DrainConserves(world, spec, reset, None);
      OpenUnlessAssistant(spec, AfterDrain(world, reset, None).messages);
    }
  }

  /** The verdict on the i-th answer. */
  function VerdictAt(world: World, st: State, i: nat): Verdict {
    Judge(st, world.respond(i), world.finalize(st.finalizes, world.respond(i).content))
  }

  /** How the counts move with an answer that runs no tools and is asked again. */
  lemma CountsMove(world: World, st: State, i: nat)
    requires !ShouldExecuteTools(world.respond(i)) && i == ToolsBefore(world, i) + st.finalizes
    requires st.emptyRetries == BlanksSince(world, i) && st.lengthRecoveries == TruncatedSince(world, i)
    ensures ToolsBefore(world, i + 1) == ToolsBefore(world, i)
    ensures VerdictAt(world, st, i).AskAgain? ==>
      GoesOn(world, i) && BlanksSince(world, i + 1) == st.emptyRetries + 1 &&
      TruncatedSince(world, i + 1) == st.lengthRecoveries
    ensures VerdictAt(world, st, i).KeepGoing? ==>
      GoesOn(world, i) && BlanksSince(world, i + 1) == st.emptyRetries &&
      TruncatedSince(world, i + 1) == st.lengthRecoveries + 1
  {
    hide ShouldExecuteTools, IsBlank, RanFine;
  }

  lemma PlainGoesOk(world: World, spec: Spec, st: State, i: nat, error: Option<string>)
    requires LoopInv(world, spec, st, i, error) && !ShouldExecuteTools(world.respond(i)) && i < spec.maxIterations
    requires VerdictAt(world, st, i).AskAgain? || VerdictAt(world, st, i).KeepGoing?
    ensures TurnOk(world, spec, PlainTurn(world, spec, Asked(st, world.respond(i)), world.respond(i), error), i + 1)
  {
    hide Good, Open, EndsWithAnswer, EndsWithUser, Recorded, Counted, Shape, UsageOf, ToolNames, RunOk, Faithful,
      EndsWell, ShouldExecuteTools, EndsWithAssistant, Concluded, Accumulate, CheckpointsOf, IsBlank,
      BuildAssistantMessage, Continued, Retried, ErrorAfter, ToolEvents, Conserved, Taken, RanFine, Drained,
      BlanksSince, TruncatedSince, GoesOn, ToolsBefore;
    var response := world.respond(i);
    var asked := Asked(st, response);
    AskedGood(spec, st, response);
    FaithfulPlain(world, spec, st.log.responses, st.log.rounds, response);
    CountsMove(world, st, i);
    var clean := world.finalize(asked.finalizes, response.content);
    var judged := asked.(finalizes := asked.finalizes + 1);
    SameDrains(world, st.log, judged.log);
    if Judge(asked, response, clean).AskAgain? {
      GoodSame(spec, asked, judged.(emptyRetries := st.emptyRetries + 1));
    } else {
      var longer := judged.(lengthRecoveries := st.lengthRecoveries + 1);
      GoodSame(spec, asked, longer);
      NotBlank(clean);
      ContinuedGood(spec, longer, clean, response);
      ContinuedLog(longer, clean, response);
    }
  }

  lemma PlainEndsOk(world: World, spec: Spec, st: State, i: nat, error: Option<string>)
    requires LoopInv(world, spec, st, i, error) && !ShouldExecuteTools(world.respond(i)) && i < spec.maxIterations
    requires VerdictAt(world, st, i).Conclude?
    ensures TurnOk(world, spec, PlainTurn(world, spec, Asked(st, world.respond(i)), world.respond(i), error), i + 1)
  {
    hide Good, Open, EndsWithAnswer, EndsWithUser, Recorded, Counted, Shape, UsageOf, ToolNames, RunOk, Faithful,
      EndsWell, ShouldExecuteTools, EndsWithAssistant, Concluded, Accumulate, CheckpointsOf, IsBlank,
      BuildAssistantMessage, Continued, Retried, ErrorAfter, ToolEvents, Conserved, Taken, RanFine, Drained;
    var response := world.respond(i);
    var asked := Asked(st, response);
    AskedGood(spec, st, response);
    FaithfulPlain(world, spec, st.log.responses, st.log.rounds, response);
    var clean := world.finalize(asked.finalizes, response.content);
    var judged := asked.(finalizes := asked.finalizes + 1);
    GoodSame(spec, asked, judged);
    SameDrains(world, st.log, judged.log);
    ConcludesWell(world, spec, judged, clean, response);
    ConcludedDrains(world, spec, judged, clean, response);
    ConcludedLog(spec, judged, clean, response, world);
    assert judged.log.responses[..i + 1] == judged.log.responses;
    var (result, log) := Concluded(world, spec, judged, clean, response);
    ReturnsWell(world, spec, judged, clean, response, result, log);
  }

  lemma PlainFinalizesOk(world: World, spec: Spec, st: State, i: nat, error: Option<string>)
    requires LoopInv(world, spec, st, i, error) && !ShouldExecuteTools(world.respond(i)) && i < spec.maxIterations
    requires VerdictAt(world, st, i).Finalize?
    ensures TurnOk(world, spec, PlainTurn(world, spec, Asked(st, world.respond(i)), world.respond(i), error), i + 1)
  {
    hide Good, Open, EndsWithAnswer, EndsWithUser, Recorded, Counted, Shape, UsageOf, ToolNames, RunOk, Faithful,
      EndsWell, ShouldExecuteTools, EndsWithAssistant, Concluded, Accumulate, CheckpointsOf, IsBlank,
      BuildAssistantMessage, Continued, Retried, ErrorAfter, ToolEvents, Conserved, Taken, RanFine, Drained;
    var response := world.respond(i);
    var asked := Asked(st, response);
    AskedGood(spec, st, response);
    FaithfulPlain(world, spec, st.log.responses, st.log.rounds, response);
    var clean := world.finalize(asked.finalizes, response.content);
    var judged := asked.(finalizes := asked.finalizes + 1);
    GoodSame(spec, asked, judged);
    SameDrains(world, st.log, judged.log);
    var retried := Retried(world, judged);
    RetriedGood(world, spec, judged);
    RetriedLog(world, judged);
    assert retried.log.responses[..i + 1] == judged.log.responses;
    var retryClean := world.finalize(asked.finalizes + 1, world.retry.content);
    ConcludesWell(world, spec, retried, retryClean, world.retry);
    SameDrains(world, judged.log, retried.log);
    ConcludedDrains(world, spec, retried, retryClean, world.retry);
    ConcludedLog(spec, retried, retryClean, world.retry, world);
    var (result, log) := Concluded(world, spec, retried, retryClean, world.retry);
    ReturnsWell(world, spec, retried, retryClean, world.retry, result, log);
  }

  lemma PlainTurnOk(world: World, spec: Spec, st: State, i: nat, error: Option<string>)
    requires LoopInv(world, spec, st, i, error) && !ShouldExecuteTools(world.respond(i)) && i < spec.maxIterations
    ensures TurnOk(world, spec, PlainTurn(world, spec, Asked(st, world.respond(i)), world.respond(i), error), i + 1)
  {
    hide LoopInv, TurnOk, PlainTurn, VerdictAt, ShouldExecuteTools;
    match VerdictAt(world, st, i)
    case AskAgain => PlainGoesOk(world, spec, st, i, error);
    case KeepGoing => PlainGoesOk(world, spec, st, i, error);
    case Conclude => PlainEndsOk(world, spec, st, i, error);
    case Finalize => PlainFinalizesOk(world, spec, st, i, error);
  }

  lemma LimitOk(world: World, spec: Spec, st: State, error: Option<string>)
    requires LoopInv(world, spec, st, spec.maxIterations, error)
    ensures var (result, log) := AtLimit(world, spec, st, error); RunOk(world, spec, result, log)
  {
    hide Good, Open, EndsWithAnswer, EndsWithUser, Recorded, Counted, Shape, UsageOf, ToolNames, RunOk, Faithful,
      AfterDrain, Drains, Closed, CheckpointsOf, LimitMessage, ToolEvents, ErrorAfter, Conserved, Taken,
      AlreadyAnswered, SaysLast, ClosesWith, Closes;
    ClosedGood(spec, st, LimitMessage(spec));
    var closed := Closed(st, LimitMessage(spec));
    DrainKeepsGood(world, spec, closed, None);
    DrainConserves(world, spec, closed, None);
    DrainComesLast(world, closed);
    ClosesWell(world, spec, AfterDrain(world, closed, None), AtLimit(world, spec, st, error).0);
  }

  lemma {:induction false} RunFromOk(world: World, spec: Spec, st: State, i: nat, error: Option<string>)
    requires LoopInv(world, spec, st, i, error) && i <= spec.maxIterations
    ensures var (result, log) := RunFrom(world, spec, st, i, error); RunOk(world, spec, result, log)
    decreases spec.maxIterations - i
  {
    hide LoopInv, RunOk, ToolTurn, PlainTurn, ShouldExecuteTools, Asked, AtLimit, RunFrom;
    if i == spec.maxIterations {
      LimitOk(world, spec, st, error);
      LimitStep(world, spec, st, error);
    } else {
      RunStep(world, spec, st, i, error);
      var response := world.respond(i);
      var turn;
      if ShouldExecuteTools(response) {
        ToolTurnOk(world, spec, st, i, error);
        turn := ToolTurn(world, spec, Asked(st, response), response, error);
      } else {
        PlainTurnOk(world, spec, st, i, error);
        turn := PlainTurn(world, spec, Asked(st, response), response, error);
      }
      if turn.Goes? {
        RunFromOk(world, spec, turn.st, i + 1, turn.error);
      }
    }
  }

  /** Every run, in every world, is in order. */
  lemma RunIsOk(world: World, spec: Spec)
    ensures var (result, log) := Ran(world, spec); RunOk(world, spec, result, log)
  {
    hide LoopInv, RunOk, RunFrom, Start;
    StartInv(world, spec);
    RunFromOk(world, spec, Start(spec), 0, None);
  }

  lemma NotBlank(text: Option<string>)
    ensures !IsBlank(text) ==> text.Some?
  {
  }

  lemma ConcludedLog(spec: Spec, st: State, clean: Option<string>, response: Response, world: World)
    requires var (result, log) := Concluded(world, spec, st, clean, response);
             EndsWell(spec, st, clean, response, result, log)
    ensures var (result, log) := Concluded(world, spec, st, clean, response);
            && log.rounds == st.log.rounds && log.transcripts == st.log.transcripts
            && log.finalizations == st.log.finalizations && !result.stop.MaxIterations? && !result.stop.ToolError?
  {
    hide Concluded, Shape, Counted, Recorded, UsageOf, EndsWithAnswer, Ending, FinalCheckpoints;
  }

  lemma ContinuedLog(st: State, clean: Option<string>, response: Response)
    ensures var next := Continued(st, clean, response); next == st.(messages := next.messages)
  {
  }

  lemma ClosesWell(world: World, spec: Spec, st: State, result: RunResult)
    requires Decided(world, result, st.log) && Drained(world, result, st.log)
    requires Good(spec, st) && result.messages == st.messages && result.usage == st.usage
    requires result.toolsUsed == st.toolsUsed
    requires |st.log.transcripts| <= spec.maxIterations && |st.log.transcripts| <= 5 * |st.log.rounds| + 5
    requires st.log.finalizations == 0 && st.log.checkpoints == CheckpointsOf(st.log.rounds)
    requires result.toolEvents == ToolEvents(world, st.log.rounds)
    requires result.stop.MaxIterations? || result.stop.ToolError?
    requires result.stop.MaxIterations? ==> |st.log.transcripts| == spec.maxIterations && result.hadInjections
    requires result.stop.ToolError? ==> result.hadInjections == (st.log.cycles > 0)
    requires result.stop.ToolError? ==> st.log.rounds != [] && st.log.rounds[|st.log.rounds| - 1].fatal
    requires |st.log.responses| == |st.log.transcripts| && TextMatches(world, spec, result, st.log)
    requires Faithful(world, spec, st.log.responses, st.log.rounds)
    ensures RunOk(world, spec, result, st.log)
  {
    hide Faithful, TextMatches, Shape, Recorded, Counted, CheckpointsOf, ToolEvents, Decided, Drained;
    assert st.log.responses[..|st.log.transcripts|] == st.log.responses;
    assert CheckpointsOf(st.log.rounds) + [] == CheckpointsOf(st.log.rounds);
  }

  lemma ReturnsWell(
    world: World, spec: Spec, st: State, clean: Option<string>, response: Response, result: RunResult, log: Log)
    requires EndsWell(spec, st, clean, response, result, log)
    requires Decided(world, result, log) && Drained(world, result, log)
    requires |st.log.responses| > |st.log.rounds| && st.log.responses[|st.log.responses| - 1] == response
    requires clean == world.finalize(|st.log.responses| - |st.log.rounds| - 1, response.content)
    requires st.log.checkpoints == CheckpointsOf(st.log.rounds)
    requires |st.log.transcripts| <= spec.maxIterations && |st.log.transcripts| <= 5 * |st.log.rounds| + 5
    requires st.log.finalizations <= 1 && |st.log.transcripts| <= |st.log.responses|
    requires Faithful(world, spec, st.log.responses[..|st.log.transcripts|], st.log.rounds)
    requires st.log.finalizations == 1 ==> st.log.responses == st.log.responses[..|st.log.transcripts|] + [world.retry]
    ensures RunOk(world, spec, result, log) && log.transcripts == st.log.transcripts
  {
    hide Faithful, EndsWithAnswer, Shape, Recorded, Counted, CheckpointsOf, ToolEvents, IsBlank, EndsWithUser, Decided,
      Drained, AnswerBeforeUser, Closes, ClosesWith, SaysLast;
  }

  // ---- What the guarantees mean ----

  /** Usage is added up over every answer, key by key. */
  lemma {:induction false} UsageIsSum(responses: seq<Response>, key: string)
    ensures UsageAt(UsageOf(responses), key) == UsageSum(responses, key)
  {
    if responses != [] {
      var front, last := responses[..|responses| - 1], responses[|responses| - 1];
      UsageIsSum(front, key);
      UsageSumSnoc(front, last, key);
      assert responses == front + [last];
    }
  }

  lemma {:induction false} UsageSumSnoc(responses: seq<Response>, r: Response, key: string)
    ensures UsageSum(responses + [r], key) == UsageSum(responses, key) + UsageAt(r.usage, key)
  {
    if responses == [] {
      assert [] + [r] == [r] && [r][1..] == [];
    } else {
      assert (responses + [r])[1..] == responses[1..] + [r];
      UsageSumSnoc(responses[1..], r, key);
    }
  }

  /** The bounds a caller can rely on: requests, retries, injections, and the sum of usage. */
  lemma RunBounds(world: World, spec: Spec)
    ensures var (result, log) := Ran(world, spec);
            var n := |log.transcripts|;
            && n <= spec.maxIterations && n <= 5 * |log.rounds| + 5
            && n <= |log.responses| <= n + 1
            && log.cycles <= 5 && log.injected <= 15
            && forall key :: UsageAt(result.usage, key) == UsageSum(log.responses, key)
  {
    hide Ran, Faithful, Shape, UsageAt, UsageSum, UsageOf;
    RunIsOk(world, spec);
    var (result, log) := Ran(world, spec);
    forall key ensures UsageAt(result.usage, key) == UsageSum(log.responses, key) {
      UsageIsSum(log.responses, key);
    }
  }

  /** From a well-started history the transcript never holds two user or two assistant messages in a row,
      neither at the end nor at any request, and each request finds it not ending in an assistant. */
  lemma TranscriptAlternates(world: World, spec: Spec)
    requires WellStarted(spec.initial)
    ensures var (result, log) := Ran(world, spec);
            NoTwins(result.messages) && forall t :: t in log.transcripts ==> NoTwins(t) && !EndsWithAssistant(t)
  {
    hide Ran, NoTwins, EndsWithAssistant, WellStarted, Extends, RoundsCover, Faithful, CheckpointsOf, FinalCheckpoints;
    RunIsOk(world, spec);
  }

  /** Every tool message a run appends directly follows an assistant with calls or another tool message. */
  lemma RunToolsAreAttached(world: World, spec: Spec, i: nat)
    requires var ms := Ran(world, spec).0.messages; |spec.initial| <= i < |ms| && ms[i].role.Tool?
    ensures var ms := Ran(world, spec).0.messages;
            i > 0 && (ms[i - 1].role.Tool? ||
                      (ms[i - 1].role.Assistant? && ms[i - 1].calls.Some? && ms[i - 1].calls.value != []))
  {
    hide Ran, Shape, Faithful, CheckpointsOf, FinalCheckpoints;
    RunIsOk(world, spec);
    var (result, log) := Ran(world, spec);
    ToolsAreAttached(spec.initial, result.messages, log.rounds, i);
  }

  // ---- Checkpoints ----

  lemma AwaitingRestores(r: Round)
    requires r.assistant.role.Assistant? && r.assistant.calls == Some(AsToolCalls(r.calls))
    ensures RestoresWhole(Awaiting(r))
  {
    var calls := r.calls;
    RefsOfCalls(calls);
    forall now: string ensures AnswersInOrder(r.assistant, StampAll([], now) + Placeholders(AsToolCalls(calls), now)) {
      assert StampAll([], now) + Placeholders(AsToolCalls(calls), now) == Placeholders(AsToolCalls(calls), now);
    }
  }

  lemma CompletedRestores(assistant: Message, calls: seq<Call>, contents: seq<Json>)
    requires assistant.role.Assistant? && assistant.calls == Some(AsToolCalls(calls)) && |contents| == |calls|
    ensures RestoresWhole(Checkpoint(ToolsCompleted, Some(assistant), ToolMessages(calls, contents), []))
  {
    RefsOfCalls(calls);
    var completed := ToolMessages(calls, contents);
    forall now: string ensures AnswersInOrder(assistant, StampAll(completed, now) + Placeholders([], now)) {
      assert StampAll(completed, now) + Placeholders([], now) == StampAll(completed, now);
    }
  }

  lemma {:induction false} RoundsRestore(ms: seq<Message>, rounds: seq<Round>, c: Checkpoint)
    requires (forall r :: r in rounds ==> RoundPlaced(ms, r)) && c in CheckpointsOf(rounds)
    ensures RestoresWhole(c)
  {
    hide RestoresWhole;
    var front, r := rounds[..|rounds| - 1], rounds[|rounds| - 1];
    assert r in rounds && RoundPlaced(ms, r);
    if c in CheckpointsOf(front) {
      RoundsRestore(ms, front, c);
    } else if c == Awaiting(r) {
      AwaitingRestores(r);
    } else {
      CompletedRestores(r.assistant, r.calls, r.contents);
    }
  }

  /** Every tool-phase checkpoint of every run restores to the assistant message followed by exactly one
      result per call, in call order. */
  lemma CheckpointsRestore(world: World, spec: Spec, c: Checkpoint)
    requires c in Ran(world, spec).1.checkpoints && !c.phase.FinalResponse?
    ensures RestoresWhole(c)
  {
    hide Ran, RestoresWhole, CheckpointsOf, RoundPlaced, Extends, NoTwins, WellStarted, Faithful, Recorded, Counted,
      TextMatches;
    RunIsOk(world, spec);
    var (result, log) := Ran(world, spec);
    assert c in CheckpointsOf(log.rounds);
    RoundsRestore(result.messages, log.rounds, c);
  }

  /** So restoring a saved checkpoint of a tool phase of any run leaves no call of that round without an
      answer, be it the result or an error in its place: whatever part of the round the session had saved,
      the restored session ends in the whole round, and backfilling has nothing to add to it. */
  lemma CrashedRunRecovers(
    world: World, spec: Spec, c: Checkpoint, saved: seq<Message>, now: string, later: seq<Message>)
    requires c in Ran(world, spec).1.checkpoints && !c.phase.FinalResponse?
    ensures var session := saved + Missing(saved, RestoredRound(c, now));
            var n := |RestoredRound(c, now)|;
            && 0 < n <= |session|
            && AnswersInOrder(session[|session| - n], session[|session| - n + 1..])
            && Unanswered(Refs(session[|session| - n]), AnsweredIn(session + later)) == []
  {
    hide *;
    CheckpointsRestore(world, spec, c);
    MissingRecovers(saved, RestoredRound(c, now));
    RecoveredRoundIsComplete(saved + Missing(saved, RestoredRound(c, now)), Keys(saved), c, now, later);
  }
}
