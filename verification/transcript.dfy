/** The shape of the transcript a run builds on top of its initial messages. */
module Transcript {
  import opened Basics
  import opened Messages
  import opened ToolBatches

  function ToOpenAi(c: Call): ToolCall {
    ToolCall(Some(c.id), None, Some(c.name), c.arguments)
  }

  function AsToolCalls(calls: seq<Call>): (r: seq<ToolCall>)
    ensures |r| == |calls| && forall i :: 0 <= i < |calls| ==> r[i] == ToOpenAi(calls[i])
  {
    if calls == [] then [] else [ToOpenAi(calls[0])] + AsToolCalls(calls[1..])
  }

  function ToolMessage(call: Call, content: Json): Message {
    Message(Tool, Some(call.id), None, Some(call.name), None, Some(content), None, map[])
  }

  function ToolMessages(calls: seq<Call>, contents: seq<Json>): (r: seq<Message>)
    requires |contents| <= |calls|
    ensures |r| == |contents| && forall k :: 0 <= k < |contents| ==> r[k] == ToolMessage(calls[k], contents[k])
  {
    if contents == [] then []
    else
      var last := |contents| - 1;
      ToolMessages(calls, contents[..last]) + [ToolMessage(calls[last], contents[last])]
  }

  /** One tool-executing iteration: where its assistant message stands, its calls, and the contents of
      the results that follow. A fatal error may leave the last calls without a result. */
  datatype Round = Round(at: nat, assistant: Message, calls: seq<Call>, contents: seq<Json>, fatal: bool)

  predicate ResultAt(ms: seq<Message>, r: Round, k: nat) {
    k < |r.contents| && k < |r.calls| && r.at + 1 + k < |ms| &&
    ms[r.at + 1 + k] == ToolMessage(r.calls[k], r.contents[k])
  }

  predicate RoundPlaced(ms: seq<Message>, r: Round) {
    && r.assistant.role.Assistant? && r.assistant.calls == Some(AsToolCalls(r.calls))
    && 0 < |r.contents| <= |r.calls| && (!r.fatal ==> |r.contents| == |r.calls|)
    && r.at + |r.contents| < |ms| && ms[r.at] == r.assistant
    && forall k :: 0 <= k < |r.contents| ==> ResultAt(ms, r, k)
  }

  predicate Twins(a: Message, b: Message) {
    (a.role.User? && b.role.User?) || (a.role.Assistant? && b.role.Assistant?)
  }

  predicate NoTwins(ms: seq<Message>) {
    forall i, j :: 0 <= i < |ms| && j == i + 1 && j < |ms| ==> !Twins(ms[i], ms[j])
  }

  predicate EndsWithAssistant(ms: seq<Message>) {
    ms != [] && ms[|ms| - 1].role.Assistant?
  }

  predicate WellStarted(init: seq<Message>) {
    NoTwins(init) && !EndsWithAssistant(init)
  }

  /** The initial messages are still there; only a final user message may have had text merged in. */
  predicate Extends(init: seq<Message>, ms: seq<Message>) {
    |init| <= |ms| && forall i :: 0 <= i < |init| ==>
      ms[i] == init[i] || (i == |init| - 1 && init[i].role.User? && ms[i] == init[i].(content := ms[i].content))
  }

  predicate InRound(rounds: seq<Round>, i: nat) {
    exists r :: r in rounds && r.at < i <= r.at + |r.contents|
  }

  /** Every round stands where it was written, and every appended tool message belongs to one. */
  predicate RoundsCover(init: seq<Message>, ms: seq<Message>, rounds: seq<Round>) {
    && (forall r :: r in rounds ==> |init| <= r.at && RoundPlaced(ms, r))
    && (forall i :: |init| <= i < |ms| && ms[i].role.Tool? ==> InRound(rounds, i))
  }

  predicate Shape(init: seq<Message>, ms: seq<Message>, rounds: seq<Round>) {
    Extends(init, ms) && RoundsCover(init, ms, rounds) && (WellStarted(init) ==> NoTwins(ms))
  }

  /** Nothing forbids an assistant message next. */
  predicate Open(init: seq<Message>, ms: seq<Message>) {
    WellStarted(init) ==> !EndsWithAssistant(ms)
  }

  lemma StartsInShape(init: seq<Message>)
    ensures Shape(init, init, []) && Open(init, init)
  {
  }

  lemma RoundStays(ms: seq<Message>, after: seq<Message>, r: Round)
    requires RoundPlaced(ms, r) && |ms| <= |after|
    requires forall i :: 0 <= i < |ms| && !ms[i].role.User? ==> after[i] == ms[i]
    ensures RoundPlaced(after, r)
  {
    forall k | 0 <= k < |r.contents| ensures ResultAt(after, r, k) {
      assert ResultAt(ms, r, k);
    }
  }

  lemma PushRounds(init: seq<Message>, ms: seq<Message>, rounds: seq<Round>, m: Message)
    requires RoundsCover(init, ms, rounds) && !m.role.Tool?
    ensures RoundsCover(init, ms + [m], rounds)
  {
    hide InRound;
    forall r | r in rounds ensures RoundPlaced(ms + [m], r) {
      RoundStays(ms, ms + [m], r);
    }
  }

  lemma PushShape(init: seq<Message>, ms: seq<Message>, rounds: seq<Round>, m: Message)
    requires Shape(init, ms, rounds) && !m.role.Tool?
    requires WellStarted(init) ==> ms == [] || !Twins(ms[|ms| - 1], m)
    ensures Shape(init, ms + [m], rounds)
    ensures EndsWithAssistant(ms + [m]) <==> m.role.Assistant?
    ensures EndsWithUser(ms + [m]) <==> m.role.User?
  {
    hide RoundsCover;
    PushRounds(init, ms, rounds, m);
  }

  /** Merging into a final user message changes no role and touches no round. */
  lemma MergeShape(init: seq<Message>, ms: seq<Message>, rounds: seq<Round>, content: Json)
    requires Shape(init, ms, rounds) && EndsWithUser(ms)
    ensures var last := |ms| - 1;
            var merged := ms[last := ms[last].(content := Some(content))];
            Shape(init, merged, rounds) && EndsWithUser(merged)
  {
    hide RoundsCover;
    MergeRounds(init, ms, rounds, content);
  }

  lemma MergeRounds(init: seq<Message>, ms: seq<Message>, rounds: seq<Round>, content: Json)
    requires RoundsCover(init, ms, rounds) && EndsWithUser(ms)
    ensures RoundsCover(init, ms[|ms| - 1 := ms[|ms| - 1].(content := Some(content))], rounds)
  {
    hide InRound;
    var last := |ms| - 1;
    var merged := ms[last := ms[last].(content := Some(content))];
    forall r | r in rounds ensures |init| <= r.at && RoundPlaced(merged, r) {
      RoundStays(ms, merged, r);
    }
  }

  /** A whole round: the assistant message with its calls, then a result for each of a prefix of them. */
  lemma RoundShape(init: seq<Message>, ms: seq<Message>, rounds: seq<Round>, r: Round)
    requires Shape(init, ms, rounds) && Open(init, ms)
    requires r.at == |ms| && r.assistant.role.Assistant? && r.assistant.calls == Some(AsToolCalls(r.calls))
    requires 0 < |r.contents| <= |r.calls| && (!r.fatal ==> |r.contents| == |r.calls|)
    ensures var after := ms + ([r.assistant] + ToolMessages(r.calls, r.contents));
            Shape(init, after, rounds + [r]) && !EndsWithAssistant(after) && !EndsWithUser(after)
  {
    hide *;
    var results := ToolMessages(r.calls, r.contents);
    var after := ms + ([r.assistant] + results);
    assert after[|ms|] == r.assistant && ms <= after;
    assert forall i :: |ms| < i < |after| ==> after[i] == results[i - |ms| - 1];
    ShapeParts(init, ms, rounds);
    RoundIsPlaced(after, r);
    AddRound(init, ms, rounds, r, after);
    ExtendsMore(init, ms, after);
    AfterRoundRoles(init, ms, after, r, results);
    PartsShape(init, after, rounds + [r]);
  }

  lemma ShapeParts(init: seq<Message>, ms: seq<Message>, rounds: seq<Round>)
    requires Shape(init, ms, rounds)
    ensures Extends(init, ms) && RoundsCover(init, ms, rounds) && (WellStarted(init) ==> NoTwins(ms)) && |init| <= |ms|
  {
  }

  lemma PartsShape(init: seq<Message>, ms: seq<Message>, rounds: seq<Round>)
    requires Extends(init, ms) && RoundsCover(init, ms, rounds) && (WellStarted(init) ==> NoTwins(ms))
    ensures Shape(init, ms, rounds)
  {
  }

  lemma RoundIsPlaced(after: seq<Message>, r: Round)
    requires r.assistant.role.Assistant? && r.assistant.calls == Some(AsToolCalls(r.calls))
    requires 0 < |r.contents| <= |r.calls| && (!r.fatal ==> |r.contents| == |r.calls|)
    requires |after| == r.at + 1 + |r.contents| && after[r.at] == r.assistant
    requires forall i :: r.at < i < |after| ==> after[i] == ToolMessages(r.calls, r.contents)[i - r.at - 1]
    ensures RoundPlaced(after, r)
  {
    hide ToolMessages;
    forall k | 0 <= k < |r.contents| ensures ResultAt(after, r, k) {
      assert after[r.at + 1 + k] == ToolMessages(r.calls, r.contents)[k];
    }
  }

  lemma ExtendsMore(init: seq<Message>, ms: seq<Message>, after: seq<Message>)
    requires Extends(init, ms) && ms <= after
    ensures Extends(init, after)
  {
  }

  lemma AfterRoundRoles(init: seq<Message>, ms: seq<Message>, after: seq<Message>, r: Round, results: seq<Message>)
    requires ms <= after && |after| == |ms| + 1 + |results| && results != [] && after[|ms|].role.Assistant?
    requires forall i :: |ms| < i < |after| ==> after[i] == results[i - |ms| - 1]
    requires |r.contents| <= |r.calls| && results == ToolMessages(r.calls, r.contents)
    requires Open(init, ms) && (WellStarted(init) ==> NoTwins(ms))
    ensures WellStarted(init) ==> NoTwins(after)
    ensures !EndsWithAssistant(after) && !EndsWithUser(after)
  {
    hide ToolMessages, WellStarted;
    assert forall i :: |ms| < i < |after| ==> after[i].role.Tool?;
  }

  lemma AddRound(init: seq<Message>, ms: seq<Message>, rounds: seq<Round>, r: Round, after: seq<Message>)
    requires RoundsCover(init, ms, rounds) && |init| <= |ms| && ms <= after && |after| == |ms| + 1 + |r.contents|
    requires r.at == |ms| && RoundPlaced(after, r)
    ensures RoundsCover(init, after, rounds + [r])
  {
    forall r' | r' in rounds + [r] ensures |init| <= r'.at && RoundPlaced(after, r') {
      if r' in rounds {
        RoundStays(ms, after, r');
      }
    }
    forall i | |init| <= i < |after| && after[i].role.Tool? ensures InRound(rounds + [r], i) {
      if i < |ms| {
        var r' :| r' in rounds && r'.at < i <= r'.at + |r'.contents|;
        assert r' in rounds + [r];
      } else {
        assert r in rounds + [r];
      }
    }
  }

  /** Consequence: an appended tool message directly follows an assistant message with calls, or another
      tool message. */
  lemma ToolsAreAttached(init: seq<Message>, ms: seq<Message>, rounds: seq<Round>, i: nat)
    requires Shape(init, ms, rounds) && |init| <= i < |ms| && ms[i].role.Tool?
    ensures i > 0
    ensures ms[i - 1].role.Tool? || (ms[i - 1].role.Assistant? && ms[i - 1].calls.Some? && ms[i - 1].calls.value != [])
  {
    hide Extends, NoTwins, WellStarted;
    assert InRound(rounds, i);
    var r :| r in rounds && r.at < i <= r.at + |r.contents|;
    assert RoundPlaced(ms, r);
    if i > r.at + 1 {
      assert ResultAt(ms, r, i - r.at - 2);
    }
  }

  /** Consequence: a round without a fatal error leaves no call of its own unanswered. */
  lemma {:induction false} RoundAnswersAll(ms: seq<Message>, r: Round, id: string)
    requires RoundPlaced(ms, r) && !r.fatal && id in Ids(r.assistant)
    ensures exists k :: r.at < k <= r.at + |r.contents| && k < |ms| && Answer(ms[k]) == Some(id)
  {
    hide AsToolCalls, RefsOf;
    RefsOfCalls(r.calls);
    var ref :| ref in Refs(r.assistant) && ref.id == id;
    var k :| 0 <= k < |r.calls| && Refs(r.assistant)[k] == ref;
    assert ResultAt(ms, r, k);
    assert Answer(ms[r.at + 1 + k]) == Some(id);
  }

  lemma {:induction false} RefsOfCalls(calls: seq<Call>)
    ensures |RefsOf(AsToolCalls(calls))| == |calls|
    ensures forall k :: 0 <= k < |calls| ==> RefsOf(AsToolCalls(calls))[k] == CallRef(calls[k].id, calls[k].name)
  {
    if calls != [] {
      RefsOfCalls(calls[1..]);
      assert AsToolCalls(calls)[1..] == AsToolCalls(calls[1..]);
    }
  }
}
