/** Crash recovery of a session (`restore_runtime_checkpoint`, `restore_pending_user_turn` and
    `find_message_overlap` in loop_.rs): replay a half-saved round exactly once. */
module Recovery {
  import opened Basics
  import opened Messages
  import opened Backfill

  datatype Phase = AwaitingTools | ToolsCompleted | FinalResponse

  /** What the runner leaves behind at a checkpoint. */
  datatype Checkpoint = Checkpoint(
    phase: Phase, assistant: Option<Message>, completed: seq<Message>, pending: seq<ToolCall>)

  // ---- Overlap of two key sequences ----

  predicate Overlaps<K(==)>(existing: seq<K>, restored: seq<K>, n: nat) {
    n <= |existing| && n <= |restored| && existing[|existing| - n..] == restored[..n]
  }

  function Min(a: nat, b: nat): nat {
    if a < b then a else b
  }

  function LongestOverlapUpTo<K(==)>(existing: seq<K>, restored: seq<K>, n: nat): (r: nat)
    ensures r <= n
  {
    if n == 0 || Overlaps(existing, restored, n) then n else LongestOverlapUpTo(existing, restored, n - 1)
  }

  /** The largest n such that the last n of `existing` are the first n of `restored`. */
  function LongestOverlap<K(==)>(existing: seq<K>, restored: seq<K>): nat {
    LongestOverlapUpTo(existing, restored, Min(|existing|, |restored|))
  }

  lemma {:induction false} LongestUpTo<K>(existing: seq<K>, restored: seq<K>, n: nat)
    requires n <= |existing| && n <= |restored|
    ensures var k := LongestOverlapUpTo(existing, restored, n);
            Overlaps(existing, restored, k) && forall m :: k < m <= n ==> !Overlaps(existing, restored, m)
  {
    if n > 0 && !Overlaps(existing, restored, n) {
      LongestUpTo(existing, restored, n - 1);
    }
  }

  lemma OverlapIsLongest<K>(existing: seq<K>, restored: seq<K>)
    ensures Overlaps(existing, restored, LongestOverlap(existing, restored))
    ensures forall n: nat :: Overlaps(existing, restored, n) ==> n <= LongestOverlap(existing, restored)
  {
    LongestUpTo(existing, restored, Min(|existing|, |restored|));
  }

  lemma OverlapIs<K>(existing: seq<K>, restored: seq<K>, n: nat)
    requires Overlaps(existing, restored, n)
    requires forall m :: n < m ==> !Overlaps(existing, restored, m)
    ensures LongestOverlap(existing, restored) == n
  {
    OverlapIsLongest(existing, restored);
  }

  /** The session after recovery, as keys: append what the overlap does not cover. */
  function Recovered<K(==)>(existing: seq<K>, restored: seq<K>): seq<K> {
    var n := LongestOverlap(existing, restored);
    if n <= |restored| then existing + restored[n..] else existing
  }

  /** Nothing saved is lost, and the whole round is there at the end. */
  lemma RecoveredEndsWithRound<K>(existing: seq<K>, restored: seq<K>)
    ensures existing <= Recovered(existing, restored)
    ensures |restored| <= |Recovered(existing, restored)|
    ensures Recovered(existing, restored)[|Recovered(existing, restored)| - |restored|..] == restored
  {
    hide LongestOverlap;
    OverlapIsLongest(existing, restored);
    var n := LongestOverlap(existing, restored);
    Rejoin(existing, restored, n);
    var front := existing[..|existing| - n];
    assert (front + restored)[|front|..] == restored;
  }

  lemma Rejoin<K>(existing: seq<K>, restored: seq<K>, n: nat)
    requires Overlaps(existing, restored, n)
    ensures existing + restored[n..] == existing[..|existing| - n] + restored
  {
    assert existing == existing[..|existing| - n] + restored[..n];
    assert restored == restored[..n] + restored[n..];
  }

  /** Recovering the same round again adds nothing. */
  lemma RecoveryIsIdempotent<K>(existing: seq<K>, restored: seq<K>)
    ensures Recovered(Recovered(existing, restored), restored) == Recovered(existing, restored)
  {
    var once := Recovered(existing, restored);
    RecoveredEndsWithRound(existing, restored);
    assert restored[..|restored|] == restored && restored[|restored|..] == [];
    assert Overlaps(once, restored, |restored|);
    OverlapIs(once, restored, |restored|);
  }

  /** Whatever prefix of the round had been saved, recovery completes it exactly once precisely when no
      longer stretch at the end of the session looks like the start of the round. */
  lemma ExactlyOnceIff<K>(base: seq<K>, round: seq<K>, saved: nat)
    requires saved <= |round|
    ensures Recovered(base + round[..saved], round) == base + round
       <==> forall n :: n > saved ==> !Overlaps(base + round[..saved], round, n)
  {
    var session := base + round[..saved];
    assert session[|base|..] == round[..saved];
    assert Overlaps(session, round, saved);
    OverlapIsLongest(session, round);
    var n := LongestOverlap(session, round);
    if n == saved {
      assert (base + round[..saved]) + round[saved..] == base + round by {
        assert round == round[..saved] + round[saved..];
      }
    } else {
      assert |Recovered(session, round)| == |base| + saved + |round| - n;
    }
  }

  lemma FirstMessageTells<K>(base: seq<K>, round: seq<K>, saved: nat, n: nat)
    requires saved <= |round| && saved < n && (round != [] ==> round[0] !in base)
    ensures !Overlaps(base + round[..saved], round, n)
  {
    var session := base + round[..saved];
    if n <= |session| && n <= |round| {
      assert session[|session| - n..][0] == base[|session| - n] && base[|session| - n] in base;
      assert round[..n][0] == round[0];
    }
  }

  /** In particular when the round's first message does not occur in what was there before. */
  lemma ExactlyOnce<K>(base: seq<K>, round: seq<K>, saved: nat)
    requires saved <= |round| && (round != [] ==> round[0] !in base)
    ensures Recovered(base + round[..saved], round) == base + round
  {
    forall n | n > saved ensures !Overlaps(base + round[..saved], round, n) {
      FirstMessageTells(base, round, saved, n);
    }
    ExactlyOnceIff(base, round, saved);
  }

  // ---- Message keys ----

  /** The fields two messages are compared by; timestamps and thinking blocks are not among them. */
  datatype MessageKey = MessageKey(
    role: Role, content: Option<string>, toolCallId: Option<string>, name: Option<string>,
    calls: Option<seq<ToolCall>>, reasoning: Option<Json>)

  function Key(m: Message): MessageKey {
    MessageKey(m.role, AsText(m.content), m.toolCallId, m.name, m.calls, m.reasoning)
  }

  function Keys(ms: seq<Message>): (ks: seq<MessageKey>)
    ensures |ks| == |ms| && forall i :: 0 <= i < |ms| ==> ks[i] == Key(ms[i])
  {
    if ms == [] then [] else [Key(ms[0])] + Keys(ms[1..])
  }

  /** The last `n` of the existing messages have the keys of the first `n` restored ones. */
  predicate KeysMatch(existing: seq<Message>, restored: seq<Message>, n: nat) {
    n <= |existing| && n <= |restored| && Keys(existing[|existing| - n..]) == Keys(restored[..n])
  }

  /** The largest overlap by key. */
  method FindMessageOverlap(existing: seq<Message>, restored: seq<Message>) returns (overlap: nat)
    ensures KeysMatch(existing, restored, overlap)
    ensures forall n :: overlap < n ==> !KeysMatch(existing, restored, n)
  {
    hide Keys;
    overlap := Min(|existing|, |restored|);
    while overlap > 0
      invariant overlap <= |existing| && overlap <= |restored|
      invariant forall n :: overlap < n ==> !KeysMatch(existing, restored, n)
    {
      var tail, head := existing[|existing| - overlap..], restored[..overlap];
      if Keys(tail) == Keys(head) {
        return;
      }
      overlap := overlap - 1;
    }
    NoKeys(existing, restored);
  }

  lemma NoKeys(existing: seq<Message>, restored: seq<Message>)
    ensures KeysMatch(existing, restored, 0)
  {
    assert existing[|existing|..] == restored[..0] == [];
  }

  lemma MatchIsOverlap(existing: seq<Message>, restored: seq<Message>, n: nat)
    ensures KeysMatch(existing, restored, n) <==> Overlaps(Keys(existing), Keys(restored), n)
  {
    hide Keys;
    if n <= |existing| && n <= |restored| {
      KeysOfSlices(existing, restored, n);
    }
  }

  /** What the search finds is the longest overlap of the keys. */
  lemma FoundIsLongest(existing: seq<Message>, restored: seq<Message>, overlap: nat)
    requires KeysMatch(existing, restored, overlap) && forall n :: overlap < n ==> !KeysMatch(existing, restored, n)
    ensures LongestOverlap(Keys(existing), Keys(restored)) == overlap <= |restored|
  {
    hide Keys, LongestOverlap, Overlaps;
    forall n: nat ensures KeysMatch(existing, restored, n) <==> Overlaps(Keys(existing), Keys(restored), n) {
      MatchIsOverlap(existing, restored, n);
    }
    OverlapIs(Keys(existing), Keys(restored), overlap);
  }

  lemma KeysOfSlices(existing: seq<Message>, restored: seq<Message>, n: nat)
    requires n <= |existing| && n <= |restored|
    ensures Keys(existing)[|existing| - n..] == Keys(existing[|existing| - n..])
    ensures Keys(restored)[..n] == Keys(restored[..n])
  {
    hide Keys, Key;
    KeysDrop(existing, |existing| - n);
    SameKeys(Keys(restored[..n]), Keys(restored)[..n], restored[..n]);
  }

  lemma SameKeys(a: seq<MessageKey>, b: seq<MessageKey>, ms: seq<Message>)
    requires |a| == |b| == |ms|
    requires forall i :: 0 <= i < |ms| ==> a[i] == Key(ms[i])
    requires forall i :: 0 <= i < |ms| ==> b[i] == Key(ms[i])
    ensures a == b
  {
    hide Key;
  }

  lemma KeysConcat(a: seq<Message>, b: seq<Message>)
    ensures Keys(a + b) == Keys(a) + Keys(b)
  {
    hide Keys, Key;
    SameKeys(Keys(a + b), Keys(a) + Keys(b), a + b);
  }

  lemma KeysDrop(ms: seq<Message>, n: nat)
    requires n <= |ms|
    ensures Keys(ms[n..]) == Keys(ms)[n..]
  {
    hide Keys, Key;
    SameKeys(Keys(ms[n..]), Keys(ms)[n..], ms[n..]);
  }

  // ---- The session object ----

  const INTERRUPTED_TOOL := "Error: Task interrupted before this tool finished."
  const INTERRUPTED_TURN := "Error: Task interrupted before a response was generated."

  function Stamped(m: Message, now: string): Message {
    if "timestamp" in m.rest then m else m.(rest := m.rest["timestamp" := Text(now)])
  }

  function StampAll(ms: seq<Message>, now: string): (r: seq<Message>)
    ensures |r| == |ms| && forall i :: 0 <= i < |ms| ==> r[i] == Stamped(ms[i], now)
  {
    if ms == [] then [] else [Stamped(ms[0], now)] + StampAll(ms[1..], now)
  }

  function Placeholder(call: ToolCall, now: string): Message {
    Message(Tool, call.id, call.number, Some(if call.name.Some? then call.name.value else "tool"), None,
            Some(Text(INTERRUPTED_TOOL)), None, map["timestamp" := Text(now)])
  }

  function Placeholders(calls: seq<ToolCall>, now: string): (r: seq<Message>)
    ensures |r| == |calls| && forall i :: 0 <= i < |calls| ==> r[i] == Placeholder(calls[i], now)
  {
    if calls == [] then [] else [Placeholder(calls[0], now)] + Placeholders(calls[1..], now)
  }

  /** The round a checkpoint stands for: the assistant message, the results that were in, and an error
      for every call that was still out. */
  function RestoredRound(cp: Checkpoint, now: string): seq<Message> {
    (if cp.assistant.Some? then [Stamped(cp.assistant.value, now)] else [])
      + (StampAll(cp.completed, now) + Placeholders(cp.pending, now))
  }

  /** What the overlap of the saved messages with the round leaves to be appended. */
  function Missing(saved: seq<Message>, round: seq<Message>): seq<Message> {
    var n := LongestOverlap(Keys(saved), Keys(round));
    if n <= |round| then round[n..] else []
  }

  /** What the restored session shares with the round, field by field. */
  predicate Agree(a: Message, b: Message) {
    && a.role == b.role && AsText(a.content) == AsText(b.content) && a.toolCallId == b.toolCallId
    && a.name == b.name && a.calls == b.calls && a.reasoning == b.reasoning
  }

  lemma KeysAgree(a: Message, b: Message)
    ensures Key(a) == Key(b) <==> Agree(a, b)
  {
  }

  /** Index by index the session ends with the round: same roles, texts, ids, names, calls and reasoning. */
  lemma RestoredAgrees(saved: seq<Message>, round: seq<Message>)
    ensures var session := saved + Missing(saved, round);
            && |round| <= |session|
            && forall k :: 0 <= k < |round| ==> Agree(session[|session| - |round| + k], round[k])
  {
    hide Keys, Key, Agree, Missing, Recovered;
    var session := saved + Missing(saved, round);
    MissingRecovers(saved, round);
    RecoveredEndsWithRound(Keys(saved), Keys(round));
    var at := |session| - |round|;
    var tail := Keys(session)[at..];
    assert tail == Keys(round);
    forall k | 0 <= k < |round| ensures Agree(session[at + k], round[k]) {
      assert tail[k] == Keys(session)[at + k];
      KeysAgree(session[at + k], round[k]);
    }
  }

  /** A round whose first message differs from every saved one is appended whole. */
  lemma NewRoundIsAppended(saved: seq<Message>, round: seq<Message>)
    requires round != [] && forall m :: m in saved ==> !Agree(m, round[0])
    ensures Missing(saved, round) == round
  {
    hide Keys, Key, Agree, LongestOverlap;
    var a, b := Keys(saved), Keys(round);
    forall i | 0 <= i < |saved| ensures a[i] != b[0] {
      assert saved[i] in saved;
      KeysAgree(saved[i], round[0]);
    }
    assert b[0] !in a;
    forall n | n > 0 ensures !Overlaps(a, b, n) {
      FirstMessageTells(a, b, 0, n);
      assert a + b[..0] == a;
    }
    assert a[|a|..] == b[..0];
    OverlapIs(a, b, 0);
  }

  /** The session ends with the round, field by field, and if the round begins with something new, it is the
      saved messages and the whole round. */
  ghost predicate Completes(saved: seq<Message>, round: seq<Message>, session: seq<Message>) {
    && |round| <= |session|
    && (forall k :: 0 <= k < |round| ==> Agree(session[|session| - |round| + k], round[k]))
    && (round != [] && (forall m :: m in saved ==> !Agree(m, round[0])) ==> session == saved + round)
  }

  lemma MissingCompletes(saved: seq<Message>, round: seq<Message>)
    ensures Completes(saved, round, saved + Missing(saved, round))
  {
    hide Agree, Missing;
    RestoredAgrees(saved, round);
    if round != [] && forall m :: m in saved ==> !Agree(m, round[0]) {
      NewRoundIsAppended(saved, round);
    }
  }

  lemma MissingRecovers(saved: seq<Message>, round: seq<Message>)
    ensures Keys(saved + Missing(saved, round)) == Recovered(Keys(saved), Keys(round))
  {
    hide LongestOverlap, Keys;
    OverlapIsLongest(Keys(saved), Keys(round));
    var n := LongestOverlap(Keys(saved), Keys(round));
    KeysConcat(saved, round[n..]);
    KeysDrop(round, n);
  }

  function InterruptedReply(now: string): Message {
    Message(Assistant, None, None, None, None, Some(Text(INTERRUPTED_TURN)), None, map["timestamp" := Text(now)])
  }

  /** Without the condition of `ExactlyOnceIff` an answer is lost: the session ends with the same answer to
      an earlier question, and restoring the checkpoint of the new one appends nothing. */
  lemma RepeatedAnswerIsLost(now: string) returns (saved: seq<Message>, cp: Checkpoint)
    ensures cp.phase.FinalResponse? && |RestoredRound(cp, now)| == 1 && Missing(saved, RestoredRound(cp, now)) == []
    ensures Keys(saved + Missing(saved, RestoredRound(cp, now))) != Keys(saved) + Keys(RestoredRound(cp, now))
  {
    hide Keys, LongestOverlapUpTo;
    var question := Message(User, None, None, None, None, Some(Text("ready?")), None, map[]);
    var answer := Message(Assistant, None, None, None, None, Some(Text("yes")), None, map[]);
    saved, cp := [question, answer], Checkpoint(FinalResponse, Some(answer), [], []);
    var round := RestoredRound(cp, now);
    NothingStamped(now);
    assert round == [Stamped(answer, now)];
    var a, b := Keys(saved), Keys(round);
    assert a[1] == Key(answer) && b[0] == Key(Stamped(answer, now)) == Key(answer);
    assert a[|a| - 1..] == [a[1]] && b[..1] == [b[0]];
    assert Overlaps(a, b, 1);
    OverlapIs(a, b, 1);
    assert saved + [] == saved;
  }

  lemma NothingStamped(now: string)
    ensures StampAll([], now) + Placeholders([], now) == []
  {
  }

  /** A checkpoint's round, message by message: the assistant message and the completed results as they were
      but for a time stamp where none was, and for each call still out an error under its id and name. */
  lemma RestoredRoundSays(cp: Checkpoint, now: string, k: nat)
    requires k < |RestoredRound(cp, now)| && cp.assistant.Some?
    ensures |RestoredRound(cp, now)| == 1 + |cp.completed| + |cp.pending|
    ensures var m, done := RestoredRound(cp, now)[k], |cp.completed|;
            && "timestamp" in m.rest
            && (k == 0 ==> m.(rest := cp.assistant.value.rest) == cp.assistant.value)
            && (0 < k <= done ==> m.(rest := cp.completed[k - 1].rest) == cp.completed[k - 1])
            && (k > done ==>
                var call := cp.pending[k - 1 - done];
                && m.role.Tool? && m.toolCallId == call.id && m.number == call.number && m.calls.None?
                && m.name == Some(if call.name.Some? then call.name.value else "tool")
                && AsText(m.content) == Some("Error: Task interrupted before this tool finished."))
  {
    hide StampAll, Placeholders;
    var results := StampAll(cp.completed, now) + Placeholders(cp.pending, now);
    assert RestoredRound(cp, now) == [Stamped(cp.assistant.value, now)] + results;
  }

  /** A time stamp that is there is kept. */
  lemma StampsOnce(m: Message, now: string, later: string)
    ensures Stamped(Stamped(m, now), later) == Stamped(m, now)
    ensures "timestamp" in m.rest ==> Stamped(m, now) == m
    ensures forall key :: key in m.rest && key != "timestamp" ==> Stamped(m, now).rest[key] == m.rest[key]
  {
  }

  class Session {
    var messages: seq<Message>
    var checkpoint: Option<Checkpoint>
    var pendingUserTurn: bool

    constructor (messages: seq<Message>, checkpoint: Option<Checkpoint>, pendingUserTurn: bool)
      ensures this.messages == messages && this.checkpoint == checkpoint && this.pendingUserTurn == pendingUserTurn
    {
      this.messages, this.checkpoint, this.pendingUserTurn := messages, checkpoint, pendingUserTurn;
    }

    /** Saved messages stay as they are; by key the session becomes the recovered one; and the markers
        are cleared, so that a second call finds nothing to do. */
    method RestoreRuntimeCheckpoint(now: string) returns (restored: bool)
      modifies this
      ensures restored == old(checkpoint).Some? && checkpoint.None?
      ensures pendingUserTurn == (old(pendingUserTurn) && !restored)
      ensures !restored ==> messages == old(messages)
      ensures restored ==> messages == old(messages) + Missing(old(messages), RestoredRound(old(checkpoint).value, now))
      ensures restored ==> Completes(old(messages), RestoredRound(old(checkpoint).value, now), messages)
      ensures restored ==>
        Keys(messages) == Recovered(Keys(old(messages)), Keys(RestoredRound(old(checkpoint).value, now)))
    {
      hide Completes, Keys, RestoredRound;
      if checkpoint.None? {
        assert messages + [] == messages;
        return false;
      }
      var round := RestoredRound(checkpoint.value, now);
      var overlap := FindMessageOverlap(messages, round);
      FoundIsLongest(messages, round, overlap);
      MissingCompletes(messages, round);
      KeysConcat(messages, round[overlap..]);
      KeysDrop(round, overlap);
      messages := messages + round[overlap..];
      pendingUserTurn := false;
      checkpoint := None;
      restored := true;
    }

    /** A user message whose turn never produced an answer gets an error reply. */
    method RestorePendingUserTurn(now: string) returns (restored: bool)
      modifies this
      ensures restored == old(pendingUserTurn) && !pendingUserTurn && checkpoint == old(checkpoint)
      ensures messages == old(messages)
                       + if restored && EndsWithUser(old(messages)) then [InterruptedReply(now)] else []
      ensures restored ==> !EndsWithUser(messages)
      ensures restored && EndsWithUser(old(messages)) ==>
        var reply := messages[|messages| - 1];
        && reply.role.Assistant?
        && AsText(reply.content) == Some("Error: Task interrupted before a response was generated.")
    {
      restored := pendingUserTurn;
      assert messages + [] == messages;
      if restored {
        if messages != [] && messages[|messages| - 1].role.User? {
          messages := messages + [InterruptedReply(now)];
        }
        pendingUserTurn := false;
      }
    }

    /** The restore step of a turn: both repairs, of which at most one does anything. */
    method Restore(now: string)
      modifies this
      ensures checkpoint.None? && !pendingUserTurn && old(messages) <= messages
      ensures old(checkpoint).Some? ==>
        Keys(messages) == Recovered(Keys(old(messages)), Keys(RestoredRound(old(checkpoint).value, now)))
      ensures old(checkpoint).None? && (!old(pendingUserTurn) || !EndsWithUser(old(messages))) ==>
        messages == old(messages)
      ensures old(checkpoint).None? && old(pendingUserTurn) && EndsWithUser(old(messages)) ==>
        messages == old(messages) + [InterruptedReply(now)]
    {
      hide Completes, Keys, RestoredRound, Recovered, Missing, InterruptedReply;
      var fromCheckpoint := RestoreRuntimeCheckpoint(now);
      assert messages + [] == messages && old(messages) + [] == old(messages);
      var fromPending := RestorePendingUserTurn(now);
    }
  }

  // ---- Tool rounds ----

  /** One result per declared call, in call order. */
  predicate AnswersInOrder(assistant: Message, results: seq<Message>) {
    |results| == |Refs(assistant)| &&
    forall k :: 0 <= k < |results| ==> Answer(results[k]) == Some(Refs(assistant)[k].id)
  }

  /** A checkpoint of a tool phase that restores to a whole round. */
  ghost predicate RestoresWhole(cp: Checkpoint) {
    && cp.assistant.Some?
    && forall now :: AnswersInOrder(cp.assistant.value, StampAll(cp.completed, now) + Placeholders(cp.pending, now))
  }

  lemma InOrderAnswersAll(assistant: Message, results: seq<Message>, id: string)
    requires AnswersInOrder(assistant, results) && id in Ids(assistant)
    ensures id in AnsweredIn(results)
  {
    var r :| r in Refs(assistant) && r.id == id;
    var k :| 0 <= k < |Refs(assistant)| && Refs(assistant)[k] == r;
    assert Answer(results[k]) == Some(id);
    AnsweredAt(results, id);
  }

  /** Keys tell which calls a message declares and which one it answers. */
  lemma KeysDecidePairing(a: Message, b: Message)
    requires Key(a) == Key(b)
    ensures Refs(a) == Refs(b) && Answer(a) == Answer(b)
  {
  }

  lemma RoundByKeys(round: seq<Message>, cp: Checkpoint, now: string)
    requires RestoresWhole(cp) && Keys(round) == Keys(RestoredRound(cp, now))
    ensures round != [] && Refs(round[0]) == Refs(cp.assistant.value) && AnswersInOrder(round[0], round[1..])
  {
    hide Placeholders, StampAll, Refs, Answer;
    var assistant := cp.assistant.value;
    var results := StampAll(cp.completed, now) + Placeholders(cp.pending, now);
    var restored := RestoredRound(cp, now);
    assert restored == [Stamped(assistant, now)] + results;
    assert Keys(round)[0] == Keys(restored)[0];
    KeysDecidePairing(round[0], restored[0]);
    KeysDecidePairing(Stamped(assistant, now), assistant);
    assert AnswersInOrder(assistant, results);
    forall k | 0 <= k < |results| ensures Answer(round[1..][k]) == Answer(results[k]) {
      assert Keys(round)[k + 1] == Keys(restored)[k + 1] && restored[k + 1] == results[k];
      KeysDecidePairing(round[k + 1], restored[k + 1]);
    }
  }

  /** After a crash in a tool phase the recovered session ends in the assistant message and one result per
      call, in call order; whatever is said later, backfilling finds nothing to insert for that round. */
  lemma RecoveredRoundIsComplete(
    session: seq<Message>, saved: seq<MessageKey>, cp: Checkpoint, now: string, later: seq<Message>)
    requires RestoresWhole(cp) && Keys(session) == Recovered(saved, Keys(RestoredRound(cp, now)))
    ensures var n := |RestoredRound(cp, now)|;
            && 0 < n <= |session|
            && AnswersInOrder(session[|session| - n], session[|session| - n + 1..])
            && Unanswered(Refs(session[|session| - n]), AnsweredIn(session + later)) == []
  {
    hide *;
    var restored := RestoredRound(cp, now);
    RecoveredEndsWithRound(saved, Keys(restored));
    var at := |session| - |restored|;
    KeysDrop(session, at);
    var round := session[at..];
    RoundByKeys(round, cp, now);
    assert round[0] == session[at] && round[1..] == session[at + 1..];
    var front := session[..at + 1];
    assert session == front + round[1..];
    AnsweredConcat(front, round[1..]);
    AnsweredConcat(session, later);
    forall id | id in Ids(round[0]) ensures id in AnsweredIn(session + later) {
      InOrderAnswersAll(round[0], round[1..], id);
    }
    NothingDue(round[0], AnsweredIn(session + later));
  }
}
