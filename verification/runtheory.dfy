/** What a run does, in terms of the outside world and of its own transcript alone: which answers are asked
    again, what the tool rounds say, what is taken in from the user, and what a checkpoint gives back. */
module RunTheory {
  import opened Basics
  import opened Messages
  import opened Recovery
  import opened ToolBatches
  import opened Transcript
  import opened Runner

  // ---- Which answers are asked again ----

  /** Tools run only for an answer that has calls and finished to have them run. */
  lemma ToolsAreAskedFor(r: Response)
    ensures r.calls == [] ==> !ShouldExecuteTools(r)
    ensures r.finish.Length? || r.finish.Failed? || r.finish.OtherFinish? ==> !ShouldExecuteTools(r)
    ensures r.calls != [] && r.finish in {ToolCalls, FunctionCall, Stop} ==> ShouldExecuteTools(r)
  {
  }

  /** Texts that count as no answer. */
  lemma BlankTexts(text: string)
    ensures IsBlank(None) && IsBlank(Some("")) && IsBlank(Some(" \t\r\n"))
    ensures (exists c :: c in text && '!' <= c <= '~') ==> !IsBlank(Some(text))
  {
  }

  /** Every answer but the last ran tools, or was blank without having failed, or was cut off by the length
      limit with something to keep. */
  lemma AskedAgain(world: World, spec: Spec, i: nat)
    requires i + 1 < |Ran(world, spec).1.transcripts|
    ensures var r, clean := world.respond(i), world.finalize(i - ToolsBefore(world, i), world.respond(i).content);
            ShouldExecuteTools(r) || (!r.finish.Failed? && IsBlank(clean)) || (r.finish.Length? && !IsBlank(clean))
  {
    hide Ran, Drained, GoesOn;
    DecidedPart(world, spec);
    assert GoesOn(world, i);
    GoingOn(world, i);
  }

  lemma GoingOn(world: World, i: nat)
    requires GoesOn(world, i)
    ensures var r, clean := world.respond(i), world.finalize(i - ToolsBefore(world, i), world.respond(i).content);
            ShouldExecuteTools(r) || (!r.finish.Failed? && IsBlank(clean)) || (r.finish.Length? && !IsBlank(clean))
  {
    hide ShouldExecuteTools, IsBlank, BlanksSince, TruncatedSince, ToolsBefore;
  }

  lemma DecidedPart(world: World, spec: Spec)
    ensures var (result, log) := Ran(world, spec); Decided(world, result, log) && Drained(world, result, log)
    ensures var (result, log) := Ran(world, spec); |log.transcripts| <= spec.maxIterations
  {
    hide Ran, Decided, Drained, Faithful, Shape, Recorded, Counted, TextMatches, CheckpointsOf;
    RunIsOk(world, spec);
  }

  /** A first answer that runs no tools, says something, and neither failed nor was cut off is the only one. */
  lemma PlainAnswerEndsRun(world: World, spec: Spec)
    requires spec.maxIterations > 0 && !ShouldExecuteTools(world.respond(0))
    requires !IsBlank(world.finalize(0, world.respond(0).content))
    requires !world.respond(0).finish.Length? && !world.respond(0).finish.Failed?
    ensures |Ran(world, spec).1.transcripts| == 1 && Ran(world, spec).1.finalizations != 1
    ensures !Ran(world, spec).0.stop.MaxIterations? && !Ran(world, spec).0.stop.ToolError?
  {
    hide Ran, ShouldExecuteTools, IsBlank;
    DecidedPart(world, spec);
    var (result, log) := Ran(world, spec);
    assert ToolsBefore(world, 0) == 0 && !GoesOn(world, 0);
    LimitMeansLimit(world, spec);
  }

  lemma LimitMeansLimit(world: World, spec: Spec)
    ensures var (result, log) := Ran(world, spec);
            result.stop.MaxIterations? ==> |log.transcripts| == spec.maxIterations
  {
    hide Ran, Decided, Drained, Faithful, Shape, Recorded, Counted, TextMatches, CheckpointsOf;
    RunIsOk(world, spec);
  }

  /** A truncated answer is continued, unless three since the last tool round have been. */
  lemma TruncatedIsContinuedIff(world: World, spec: Spec, i: nat)
    requires i < |Ran(world, spec).1.transcripts| && i + 1 < spec.maxIterations && TruncatedAt(world, i)
    ensures i + 1 < |Ran(world, spec).1.transcripts| <==> TruncatedSince(world, i) < 3
  {
    hide Ran, ShouldExecuteTools, IsBlank;
    DecidedPart(world, spec);
    LimitMeansLimit(world, spec);
    var (result, log) := Ran(world, spec);
    assert i == |log.transcripts| - 1 || GoesOn(world, i);
  }

  /** Between `j` and `i` no tools ran through without a fatal error. */
  predicate Uninterrupted(world: World, j: nat, i: nat) {
    forall k :: j < k < i ==> !(ShouldExecuteTools(world.respond(k)) && RanFine(world, k))
  }

  lemma {:induction false} BlanksSinceIff(world: World, i: nat)
    ensures BlanksSince(world, i) >= 1 <==> exists j :: 0 <= j < i && BlankAt(world, j) && Uninterrupted(world, j, i)
  {
    hide ShouldExecuteTools, RanFine, IsBlank;
    if i > 0 {
      BlanksSinceIff(world, i - 1);
      var last := i - 1;
      if j :| 0 <= j < last && BlankAt(world, j) && Uninterrupted(world, j, last) {
        if !(ShouldExecuteTools(world.respond(last)) && RanFine(world, last)) {
          assert Uninterrupted(world, j, i);
        }
      }
      if BlankAt(world, last) {
        assert Uninterrupted(world, last, i);
      }
      if j :| 0 <= j < i && BlankAt(world, j) && Uninterrupted(world, j, i) {
        assert j < last ==> Uninterrupted(world, j, last);
      }
    }
  }

  /** The model is asked to finalize exactly when the last answer was blank and so was an earlier one, with no
      successful tool round in between. */
  lemma FinalizedIff(world: World, spec: Spec)
    ensures var log := Ran(world, spec).1;
            var n := |log.transcripts|;
            log.finalizations == 1 <==>
            && n > 0 && BlankAt(world, n - 1)
            && exists j :: 0 <= j < n - 1 && BlankAt(world, j) && Uninterrupted(world, j, n - 1)
  {
    hide Ran, BlankAt, BlanksSince, Uninterrupted, GoesOn;
    DecidedPart(world, spec);
    var n := |Ran(world, spec).1.transcripts|;
    if n > 0 {
      BlanksSinceIff(world, n - 1);
    }
  }

  // ---- What the tool rounds say ----

  /** The i-th round answers the i-th answer that ran tools, `q`. Its assistant message says what that answer
      said and lists its calls with their ids, names and arguments. */
  lemma RoundSays(world: World, spec: Spec, i: nat) returns (q: nat)
    requires i < |Ran(world, spec).1.rounds|
    ensures var (result, log) := Ran(world, spec);
            var round := log.rounds[i];
            && q < |log.transcripts| && ShouldExecuteTools(world.respond(q)) && ToolsBefore(world, q) == i
            && round.calls == world.respond(q).calls && round.at < |result.messages|
            && var m := result.messages[round.at];
               && m.role.Assistant? && m.calls.Some? && |m.calls.value| == |round.calls|
               && (world.respond(q).content.Some? ==> AsText(m.content) == world.respond(q).content)
               && (world.respond(q).content.None? ==> AsText(m.content) == Some(""))
               && forall k :: 0 <= k < |round.calls| ==>
                    var call := round.calls[k];
                    m.calls.value[k] == ToolCall(Some(call.id), None, Some(call.name), call.arguments)
  {
    hide Ran, RunOk, RoundPlaced, BuildAssistantMessage, Asking, ShouldExecuteTools, NormalizedContents, Results,
      RanCount, FatalOf, AsToolCalls, ToolsBefore;
    var (result, log) := Ran(world, spec);
    RoundIsFaithful(world, spec, i);
    var responses := log.responses[..|log.transcripts|];
    q := AskingIndex(world, responses, i);
    AssistantSays(world.respond(q));
    RoundStands(world, spec, i);
    PlacedParts(result.messages, log.rounds[i]);
  }

  lemma RoundIsFaithful(world: World, spec: Spec, i: nat)
    requires i < |Ran(world, spec).1.rounds|
    ensures var (result, log) := Ran(world, spec);
            && |log.transcripts| <= |log.responses|
            && var responses := log.responses[..|log.transcripts|];
               && (forall j :: 0 <= j < |responses| ==> responses[j] == world.respond(j))
               && |log.rounds| == |Asking(responses)|
               && log.rounds[i] == RoundOf(world, spec, Asking(responses)[i], i, log.rounds[i].at)
  {
    hide Ran, RoundOf, Shape, Recorded, Counted, TextMatches, CheckpointsOf, Decided, Drained, Asking;
    RunIsOk(world, spec);
  }

  lemma RoundStands(world: World, spec: Spec, i: nat)
    requires i < |Ran(world, spec).1.rounds|
    ensures var (result, log) := Ran(world, spec); RoundPlaced(result.messages, log.rounds[i])
  {
    hide Ran, RoundPlaced, Faithful, Recorded, Counted, TextMatches, CheckpointsOf, Decided, Drained, NoTwins, Extends;
    RunIsOk(world, spec);
    var (result, log) := Ran(world, spec);
    assert log.rounds[i] in log.rounds;
  }

  lemma AssistantSays(r: Response)
    ensures var m := BuildAssistantMessage(r.content, AsToolCalls(r.calls), r);
            AsText(m.content) == Some(if r.content.Some? then r.content.value else "")
  {
    hide AsToolCalls;
  }

  lemma {:induction false} AskingIndex(world: World, responses: seq<Response>, i: nat) returns (q: nat)
    requires forall j :: 0 <= j < |responses| ==> responses[j] == world.respond(j)
    requires i < |Asking(responses)|
    ensures q < |responses| && ShouldExecuteTools(world.respond(q)) && ToolsBefore(world, q) == i
    ensures Asking(responses)[i] == world.respond(q)
    decreases |responses|
  {
    hide ShouldExecuteTools;
    var front, last := responses[..|responses| - 1], responses[|responses| - 1];
    AskingCount(world, front);
    if i < |Asking(front)| {
      q := AskingIndex(world, front, i);
    } else {
      q := |front|;
    }
  }

  lemma {:induction false} AskingCount(world: World, responses: seq<Response>)
    requires forall j :: 0 <= j < |responses| ==> responses[j] == world.respond(j)
    ensures |Asking(responses)| == ToolsBefore(world, |responses|)
  {
    hide ShouldExecuteTools;
    if responses != [] {
      AskingCount(world, responses[..|responses| - 1]);
    }
  }

  /** The k-th result of the i-th round stands right behind it, under the id and name of the k-th call, with the
      normalized result of that very call. */
  lemma ResultSays(world: World, spec: Spec, i: nat, k: nat)
    requires i < |Ran(world, spec).1.rounds| && k < |Ran(world, spec).1.rounds[i].contents|
    ensures var (result, log) := Ran(world, spec);
            var round := log.rounds[i];
            && k < |round.calls| && round.at + 1 + k < |result.messages|
            && var m, call := result.messages[round.at + 1 + k], round.calls[k];
               && m.role.Tool? && m.toolCallId == Some(call.id) && m.name == Some(call.name) && m.calls.None?
               && m.content == Some(spec.policy.normalize(call.id, call.name, world.exec(i, k).result))
  {
    hide Ran, RunOk, RoundOf, RoundPlaced, Asking;
    RoundStands(world, spec, i);
    RoundIsFaithful(world, spec, i);
    var (result, log) := Ran(world, spec);
    PlacedResult(result.messages, log.rounds[i], k);
    ContentOf(world, spec, Asking(log.responses[..|log.transcripts|])[i], i, log.rounds[i].at, k);
  }

  lemma PlacedResult(ms: seq<Message>, r: Round, k: nat)
    requires RoundPlaced(ms, r) && k < |r.contents|
    ensures k < |r.calls| && r.at + 1 + k < |ms| && ms[r.at + 1 + k] == ToolMessage(r.calls[k], r.contents[k])
  {
    assert ResultAt(ms, r, k);
  }

  lemma ContentOf(world: World, spec: Spec, response: Response, i: nat, at: nat, k: nat)
    requires k < |RoundOf(world, spec, response, i, at).contents|
    ensures var r := RoundOf(world, spec, response, i, at);
            && k < |r.calls|
            && r.contents[k] == spec.policy.normalize(r.calls[k].id, r.calls[k].name, world.exec(i, k).result)
  {
    hide BuildAssistantMessage, FatalOf, ExecutedCount, AsToolCalls;
  }

  /** Which calls of a round have a result: all of them, unless one was fatal; then those up to the end of the
      batch with the first fatal call. */
  lemma RoundIsAsLongAs(world: World, spec: Spec, i: nat)
    requires i < |Ran(world, spec).1.rounds|
    ensures var round := Ran(world, spec).1.rounds[i];
            && |round.contents| == ExecutedCount(spec.concurrent, world.safe, round.calls, ExecOf(world, i))
            && (round.fatal <==> exists k :: 0 <= k < |round.calls| && world.exec(i, k).fatal.Some?)
  {
    hide Ran, RunOk, Asking, BuildAssistantMessage, ExecutedCount, LastFatal, NormalizedContents, Results, AsToolCalls;
    RoundIsFaithful(world, spec, i);
    var round := Ran(world, spec).1.rounds[i];
    ExecutedCountIs(spec.concurrent, world.safe, round.calls, ExecOf(world, i));
    assert forall k: nat :: ExecOf(world, i)(k) == world.exec(i, k);
  }

  // ---- What a checkpoint gives back ----

  /** Equal but for the time stamp. */
  predicate SameButStamp(a: Message, b: Message) {
    a.(rest := b.rest) == b
  }

  /** Behind the assistant message, an error for each call under its id and name. */
  predicate ErrorsFor(restored: seq<Message>, calls: seq<Call>) {
    |restored| == 1 + |calls| && forall k :: 0 <= k < |calls| ==> IsErrorFor(restored[k + 1], calls[k])
  }

  predicate IsErrorFor(m: Message, call: Call) {
    && m.role.Tool? && m.toolCallId == Some(call.id) && m.name == Some(call.name)
    && AsText(m.content) == Some("Error: Task interrupted before this tool finished.")
  }

  /** The stretch of the transcript at `at`, but for time stamps. */
  predicate CopyOf(restored: seq<Message>, ms: seq<Message>, at: nat) {
    at + |restored| <= |ms| && forall k :: 0 <= k < |restored| ==> SameButStamp(restored[k], ms[at + k])
  }

  /** Before the calls of a round ran, it leaves a checkpoint that restores an error for each of them; right
      after, unless an error was fatal, one that restores its assistant message and its results as they stand in
      the transcript. */
  lemma CheckpointsOfRound(world: World, spec: Spec, i: nat, now: string)
    returns (p: nat, before: Checkpoint, after: Checkpoint)
    requires i < |Ran(world, spec).1.rounds|
    ensures var (result, log) := Ran(world, spec);
            var round := log.rounds[i];
            && p < |log.checkpoints| && log.checkpoints[p] == before && before.phase.AwaitingTools?
            && ErrorsFor(RestoredRound(before, now), round.calls)
            && round.at < |result.messages| && SameButStamp(RestoredRound(before, now)[0], result.messages[round.at])
            && (!round.fatal ==>
                && p + 1 < |log.checkpoints| && log.checkpoints[p + 1] == after && after.phase.ToolsCompleted?
                && |RestoredRound(after, now)| == 1 + |round.calls|
                && CopyOf(RestoredRound(after, now), result.messages, round.at))
  {
    hide Ran, RunOk, RoundPlaced, CheckpointsOf, RestoredRound, RoundOf, Asking, ToolMessages, AsToolCalls, ErrorsFor,
      CopyOf, SameButStamp;
    RoundStands(world, spec, i);
    var (result, log) := Ran(world, spec);
    var round := log.rounds[i];
    PlacedParts(result.messages, round);
    p := RoundCheckpointsStay(world, spec, i);
    before := Awaiting(round);
    after := Checkpoint(ToolsCompleted, Some(round.assistant), ToolMessages(round.calls, round.contents), []);
    AwaitingRound(round, now);
    assert RoundCheckpoints(round)[0] == before && log.checkpoints[p + 0] == RoundCheckpoints(round)[0];
    if !round.fatal {
      assert RoundCheckpoints(round)[1] == after && log.checkpoints[p + 1] == RoundCheckpoints(round)[1];
      CompletedRound(result.messages, round, now);
    }
  }

  lemma PlacedParts(ms: seq<Message>, r: Round)
    requires RoundPlaced(ms, r)
    ensures r.at + |r.contents| < |ms| && ms[r.at] == r.assistant && |r.contents| <= |r.calls|
    ensures r.assistant.role.Assistant?
    ensures r.assistant.calls == Some(AsToolCalls(r.calls)) && (!r.fatal ==> |r.contents| == |r.calls|)
  {
    hide AsToolCalls;
  }

  lemma AwaitingRound(r: Round, now: string)
    ensures var round := RestoredRound(Awaiting(r), now);
            ErrorsFor(round, r.calls) && SameButStamp(round[0], r.assistant)
  {
    hide RestoredRound, AsToolCalls;
    var cp := Awaiting(r);
    RestoredLength(cp, now);
    RestoredRoundSays(cp, now, 0);
    var round := RestoredRound(cp, now);
    forall k | 0 <= k < |r.calls| ensures IsErrorFor(round[k + 1], r.calls[k]) {
      RestoredRoundSays(cp, now, k + 1);
      assert cp.pending[k] == ToOpenAi(r.calls[k]);
    }
  }

  lemma RestoredLength(cp: Checkpoint, now: string)
    requires cp.assistant.Some?
    ensures |RestoredRound(cp, now)| == 1 + |cp.completed| + |cp.pending|
  {
    hide StampAll, Placeholders, Stamped;
  }

  lemma CompletedRound(ms: seq<Message>, r: Round, now: string)
    requires RoundPlaced(ms, r) && !r.fatal && |r.contents| == |r.calls| && r.at + |r.calls| < |ms|
    ensures var cp := Checkpoint(ToolsCompleted, Some(r.assistant), ToolMessages(r.calls, r.contents), []);
            |RestoredRound(cp, now)| == 1 + |r.calls| && CopyOf(RestoredRound(cp, now), ms, r.at)
  {
    hide RestoredRound, RoundPlaced, ToolMessages;
    var cp := Checkpoint(ToolsCompleted, Some(r.assistant), ToolMessages(r.calls, r.contents), []);
    RestoredLength(cp, now);
    PlacedParts(ms, r);
    forall k | 0 <= k <= |r.calls| ensures SameButStamp(RestoredRound(cp, now)[k], ms[r.at + k]) {
      RestoredRoundSays(cp, now, k);
      if k > 0 {
        PlacedResult(ms, r, k - 1);
      }
    }
  }

  lemma RoundCheckpointsStay(world: World, spec: Spec, i: nat) returns (p: nat)
    requires i < |Ran(world, spec).1.rounds|
    ensures var log := Ran(world, spec).1;
            var round := log.rounds[i];
            && |round.contents| <= |round.calls| && p + |RoundCheckpoints(round)| <= |log.checkpoints|
            && forall k :: 0 <= k < |RoundCheckpoints(round)| ==> log.checkpoints[p + k] == RoundCheckpoints(round)[k]
  {
    hide Ran, CheckpointsOf, RoundCheckpoints, RoundPlaced, Faithful, Shape, Recorded, Counted, TextMatches, Decided,
      Drained;
    RunIsOk(world, spec);
    RoundStands(world, spec, i);
    var (result, log) := Ran(world, spec);
    PlacedParts(result.messages, log.rounds[i]);
    p := CheckpointsContain(log.rounds, i);
  }

  lemma {:induction false} CheckpointsContain(rounds: seq<Round>, i: nat) returns (p: nat)
    requires i < |rounds| && |rounds[i].contents| <= |rounds[i].calls|
    ensures p + |RoundCheckpoints(rounds[i])| <= |CheckpointsOf(rounds)|
    ensures forall k :: 0 <= k < |RoundCheckpoints(rounds[i])| ==>
      CheckpointsOf(rounds)[p + k] == RoundCheckpoints(rounds[i])[k]
    decreases |rounds|
  {
    hide RoundCheckpoints;
    var front := rounds[..|rounds| - 1];
    if i < |rounds| - 1 {
      p := CheckpointsContain(front, i);
    } else {
      p := |CheckpointsOf(front)|;
    }
  }

  // ---- What is taken in from the user ----

  /** What a single item is taken in as: a user message with content as it is, any other non-blank text as a
      user message saying it, everything else not at all. */
  lemma UsableItems(item: Message)
    ensures item.role.User? && item.content.Some? ==> AllAccepted([item]) == [item]
    ensures !(item.role.User? && item.content.Some?) && !IsBlank(AsText(item.content)) ==>
      && |AllAccepted([item])| == 1 && AllAccepted([item])[0].role.User?
      && AllAccepted([item])[0].content == item.content && AllAccepted([item])[0].calls.None?
    ensures !(item.role.User? && item.content.Some?) && IsBlank(AsText(item.content)) ==> AllAccepted([item]) == []
  {
    assert [item][1..] == [] && AllAccepted([]) == [];
    if AsText(item.content).Some? {
      assert item.content == Some(Text(AsText(item.content).value));
    }
  }

  /** Items are taken in one by one and in order, and a drain takes the first three. */
  lemma {:induction false} UsableInOrder(a: seq<Message>, b: seq<Message>)
    ensures AllAccepted(a + b) == AllAccepted(a) + AllAccepted(b)
  {
    hide Accepted;
    if a == [] {
      assert a + b == b;
    } else {
      var tail := a[1..];
      assert (a + b)[0] == a[0] && (a + b)[1..] == tail + b;
      UsableInOrder(tail, b);
      var first := if Accepted(a[0]).Some? then [Accepted(a[0]).value] else [];
      Reassociate(first, AllAccepted(tail), AllAccepted(b));
    }
  }

  lemma FirstThree(world: World, k: nat)
    ensures var usable, taken := AllAccepted(world.drain(k)), Taken(world, k);
            && |taken| == (if |usable| < 3 then |usable| else 3)
            && forall j :: 0 <= j < |taken| ==> taken[j] == usable[j]
  {
    hide AllAccepted;
  }

  /** Whether the callback handed over anything usable. */
  lemma TakenNothingIff(world: World, k: nat)
    ensures Taken(world, k) == [] <==>
      forall item :: item in world.drain(k) ==>
        !(item.role.User? && item.content.Some?) && IsBlank(AsText(item.content))
  {
    NoneUsable(world.drain(k));
  }

  lemma {:induction false} NoneUsable(items: seq<Message>)
    ensures AllAccepted(items) == [] <==>
      forall item :: item in items ==> !(item.role.User? && item.content.Some?) && IsBlank(AsText(item.content))
  {
    if items != [] {
      NoneUsable(items[1..]);
      assert forall item :: item in items <==> item == items[0] || item in items[1..];
      hide IsBlank;
    }
  }

  /** While the five cycles last, the user is heard after every tool round and at every ending, and a completed
      run had nothing left to hear. */
  lemma UserIsHeard(world: World, spec: Spec)
    ensures var (result, log) := Ran(world, spec);
            && log.injected == InjectedUpTo(world, log.drains) && log.cycles == CyclesUpTo(world, log.drains)
            && (log.cycles < 5 ==> log.drains >= |log.rounds|)
            && (log.cycles < 5 && !result.stop.ToolError? ==> log.drains > |log.rounds|)
            && (result.stop.Completed? && log.cycles < 5 ==>
                forall item :: item in world.drain(log.drains - 1) ==>
                  !(item.role.User? && item.content.Some?) && IsBlank(AsText(item.content)))
  {
    hide Ran, Taken, IsBlank, InjectedUpTo, CyclesUpTo, Decided;
    DecidedPart(world, spec);
    var (result, log) := Ran(world, spec);
    if log.drains > 0 {
      TakenNothingIff(world, log.drains - 1);
    }
  }

  // ---- What is said at the end ----

  /** The text a run returns, spelled out. */
  lemma FinalTexts(world: World, spec: Spec)
    ensures var (result, log) := Ran(world, spec);
            && (result.stop.MaxIterations? && spec.maxIterationsMessage.Some? ==>
                result.finalContent == spec.maxIterationsMessage)
            && (result.stop.MaxIterations? && spec.maxIterationsMessage.None? ==>
                result.finalContent
                == Some("Task did not finish within " + Decimal(spec.maxIterations) + " iterations."))
            && (result.stop.ModelError? && FinalClean(world, log).Some? ==> result.error == FinalClean(world, log))
            && (result.stop.ModelError? && FinalClean(world, log).None? && spec.errorMessage.Some? ==>
                result.error == spec.errorMessage)
            && (result.stop.ModelError? && FinalClean(world, log).None? && spec.errorMessage.None? ==>
                result.error == Some("Sorry, I encountered an error calling the AI model."))
            && (result.stop.EmptyFinalResponse? ==> result.finalContent == Some("(No response from model)"))
  {
    hide Ran, Faithful, Shape, Recorded, Counted, CheckpointsOf, Decided, Drained, FinalClean, ErrorAfter, FatalIn,
      Decimal;
    RunIsOk(world, spec);
  }

  /** What an assistant message keeps of an answer's reasoning. */
  lemma ReasoningIsKept(clean: Option<string>, calls: seq<ToolCall>, r: Response)
    ensures var m := BuildAssistantMessage(clean, calls, r);
            && (r.reasoning.Some? ==> m.reasoning == Some(Text(r.reasoning.value)))
            && (r.reasoning.None? && r.thinking.Some? ==> m.reasoning == Some(Text("")))
            && (r.reasoning.None? && r.thinking.None? ==> m.reasoning.None?)
            && (r.thinking.Some? && r.thinking.value != [] ==>
                m.rest == map["thinking_blocks" := Blocks(r.thinking.value)])
            && (r.thinking.None? || r.thinking.value == [] ==> m.rest == map[])
            && (calls != [] ==> m.calls == Some(calls)) && (calls == [] ==> m.calls.None?)
  {
  }

  /** Contents of which one is missing are not merged, and blocks are merged in order. */
  lemma OneSidedMerge(mergeBlocks: (Json, Json) -> Json, a: Json, b: Json)
    ensures MergeContent(mergeBlocks, Some(a), None) == MergeContent(mergeBlocks, None, Some(a)) == a
    ensures MergeContent(mergeBlocks, None, None) == Text("")
    ensures !a.Text? || !b.Text? ==> MergeContent(mergeBlocks, Some(a), Some(b)) == mergeBlocks(a, b)
  {
  }

  /** Prompt and completion tokens are reported by every run, answers or not. */
  lemma UsageIsReported(world: World, spec: Spec)
    ensures "prompt_tokens" in Ran(world, spec).0.usage && "completion_tokens" in Ran(world, spec).0.usage
  {
    hide Ran, Faithful, Shape, Recorded, Counted, TextMatches, CheckpointsOf, Decided, Drained, UsageOf;
    RunIsOk(world, spec);
    UsageKeys(Ran(world, spec).1.responses);
  }

  lemma {:induction false} UsageKeys(responses: seq<Response>)
    ensures "prompt_tokens" in UsageOf(responses) && "completion_tokens" in UsageOf(responses)
  {
    if responses != [] {
      UsageKeys(responses[..|responses| - 1]);
    }
  }
}
