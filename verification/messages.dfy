/** Chat messages as the runner and the session store read them, and the vocabulary of tool-call
    pairing: which ids a history declares, which it answers, and when every answer has a question. */
module Messages {
  import opened Basics

  /** The `role` field; `NoRole` when it is absent or not a string. */
  datatype Role = System | User | Assistant | Tool | OtherRole(roleName: string) | NoRole

  /** A JSON value, seen as `as_str` sees it: a string, null, an array, or anything else by its
      rendering. */
  datatype Json = Null | Text(text: string) | Blocks(items: seq<Json>) | Other(rendering: string)

  /** A call's id is text, or an integer that most of the code does not recognise as an id; `number` counts
      only where there is no `id`. */
  datatype ToolCall = ToolCall(id: Option<string>, number: Option<int>, name: Option<string>, payload: string)

  /** Likewise `number` is the `tool_call_id` when that is an integer. */
  datatype Message = Message(
    role: Role,
    toolCallId: Option<string>,
    number: Option<int>,
    name: Option<string>,
    calls: Option<seq<ToolCall>>,
    content: Option<Json>,
    reasoning: Option<Json>,
    rest: map<string, Json>)

  /** A declared call: its id, and its function name with "" for a missing one. */
  datatype CallRef = CallRef(id: string, name: string)

  function AsText(content: Option<Json>): (s: Option<string>) {
    if content.Some? && content.value.Text? then Some(content.value.text) else None
  }

  function RefsOf(calls: seq<ToolCall>): seq<CallRef> {
    if calls == [] then []
    else
      var rest := RefsOf(calls[1..]);
      match calls[0].id
      case None => rest
      case Some(id) => [CallRef(id, if calls[0].name.Some? then calls[0].name.value else "")] + rest
  }

  /** The calls a message declares: only an assistant's `tool_calls` array counts. */
  function Refs(m: Message): seq<CallRef> {
    if m.role.Assistant? && m.calls.Some? then RefsOf(m.calls.value) else []
  }

  function RefIds(refs: seq<CallRef>): set<string> {
    set r | r in refs :: r.id
  }

  function Ids(m: Message): set<string> {
    RefIds(Refs(m))
  }

  predicate EndsWithUser(ms: seq<Message>) {
    ms != [] && ms[|ms| - 1].role.User?
  }

  /** The id a tool message answers, if its role is `tool` and it has one. */
  function Answer(m: Message): Option<string> {
    if m.role.Tool? then m.toolCallId else None
  }

  function AnswerIds(m: Message): set<string> {
    match Answer(m)
    case None => {}
    case Some(id) => {id}
  }

  function DeclaredIn(ms: seq<Message>): set<string> {
    if ms == [] then {} else Ids(ms[0]) + DeclaredIn(ms[1..])
  }

  function AnsweredIn(ms: seq<Message>): set<string> {
    if ms == [] then {} else AnswerIds(ms[0]) + AnsweredIn(ms[1..])
  }

  /** A tool message whose non-empty id nobody has declared so far. */
  predicate Orphan(m: Message, seen: set<string>) {
    m.role.Tool? && m.toolCallId.Some? && m.toolCallId.value != "" && m.toolCallId.value !in seen
  }

  /** No orphan in `ms`, when the ids in `seen` have been declared before it. */
  predicate Legal(ms: seq<Message>, seen: set<string>) {
    ms == [] || (!Orphan(ms[0], seen) && Legal(ms[1..], seen + Ids(ms[0])))
  }

  /** Every declared id is answered somewhere in the list. */
  predicate Complete(ms: seq<Message>) {
    DeclaredIn(ms) <= AnsweredIn(ms)
  }

  /** Every declared id is answered after the message that declares it. */
  predicate Follows(ms: seq<Message>) {
    ms == [] || (Ids(ms[0]) <= AnsweredIn(ms[1..]) && Follows(ms[1..]))
  }

  predicate DistinctRefs(refs: seq<CallRef>) {
    refs == [] || (refs[0].id !in RefIds(refs[1..]) && DistinctRefs(refs[1..]))
  }

  /** No id is empty, and none is declared twice, whether by one message or by two. */
  predicate UniqueIds(ms: seq<Message>, seen: set<string>) {
    ms == [] ||
    (DistinctRefs(Refs(ms[0])) && "" !in Ids(ms[0]) && Ids(ms[0]) !! seen &&
     UniqueIds(ms[1..], seen + Ids(ms[0])))
  }

  // ---- What the recursive definitions say, index by index ----

  predicate DeclaredBefore(ms: seq<Message>, n: nat, id: string)
    requires n <= |ms|
  {
    exists k :: 0 <= k < n && id in Ids(ms[k])
  }

  predicate AnsweredAfter(ms: seq<Message>, i: int, id: string) {
    exists j :: 0 <= j < |ms| && i < j && Answer(ms[j]) == Some(id)
  }

  /** The pairing the model provider insists on: no answer without an earlier question, and no
      question without an answer. */
  ghost predicate PairingClosed(ms: seq<Message>) {
    && (forall j, id :: 0 <= j < |ms| && id != "" && Answer(ms[j]) == Some(id) ==> DeclaredBefore(ms, j, id))
    && (forall i, id :: 0 <= i < |ms| && id in Ids(ms[i]) ==> AnsweredAfter(ms, -1, id))
  }

  /** Every question is answered later than it is asked. */
  ghost predicate AnswersFollow(ms: seq<Message>) {
    forall i, id :: 0 <= i < |ms| && id in Ids(ms[i]) ==> AnsweredAfter(ms, i, id)
  }

  lemma {:induction false} DeclaredAt(ms: seq<Message>, id: string)
    ensures id in DeclaredIn(ms) <==> exists k :: 0 <= k < |ms| && id in Ids(ms[k])
  {
    if ms != [] {
      DeclaredAt(ms[1..], id);
      if id in DeclaredIn(ms[1..]) {
        var k :| 0 <= k < |ms[1..]| && id in Ids(ms[1..][k]);
        assert id in Ids(ms[k + 1]);
      }
      if k :| 0 < k < |ms| && id in Ids(ms[k]) {
        assert id in Ids(ms[1..][k - 1]);
      }
    }
  }

  lemma {:induction false} AnsweredAt(ms: seq<Message>, id: string)
    ensures id in AnsweredIn(ms) <==> exists k :: 0 <= k < |ms| && Answer(ms[k]) == Some(id)
  {
    if ms != [] {
      AnsweredAt(ms[1..], id);
      if id in AnsweredIn(ms[1..]) {
        var k :| 0 <= k < |ms[1..]| && Answer(ms[1..][k]) == Some(id);
        assert Answer(ms[k + 1]) == Some(id);
      }
      if k :| 0 < k < |ms| && Answer(ms[k]) == Some(id) {
        assert Answer(ms[1..][k - 1]) == Some(id);
      }
    }
  }

  lemma {:induction false} DeclaredConcat(a: seq<Message>, b: seq<Message>)
    ensures DeclaredIn(a + b) == DeclaredIn(a) + DeclaredIn(b)
  {
    if a == [] {
      assert a + b == b;
    } else {
      assert (a + b)[1..] == a[1..] + b;
      DeclaredConcat(a[1..], b);
    }
  }

  lemma {:induction false} AnsweredConcat(a: seq<Message>, b: seq<Message>)
    ensures AnsweredIn(a + b) == AnsweredIn(a) + AnsweredIn(b)
  {
    if a == [] {
      assert a + b == b;
    } else {
      assert (a + b)[1..] == a[1..] + b;
      AnsweredConcat(a[1..], b);
    }
  }

  lemma {:induction false} LegalConcat(a: seq<Message>, b: seq<Message>, seen: set<string>)
    ensures Legal(a + b, seen) <==> Legal(a, seen) && Legal(b, seen + DeclaredIn(a))
  {
    if a == [] {
      assert a + b == b && seen + {} == seen;
    } else {
      assert (a + b)[1..] == a[1..] + b;
      LegalConcat(a[1..], b, seen + Ids(a[0]));
      assert seen + Ids(a[0]) + DeclaredIn(a[1..]) == seen + DeclaredIn(a);
    }
  }

  lemma LegalSnoc(a: seq<Message>, m: Message, seen: set<string>)
    ensures Legal(a + [m], seen) <==> Legal(a, seen) && !Orphan(m, seen + DeclaredIn(a))
    ensures DeclaredIn(a + [m]) == DeclaredIn(a) + Ids(m)
  {
    hide Orphan, Ids;
    assert [m][1..] == [];
    LegalConcat(a, [m], seen);
    DeclaredConcat(a, [m]);
  }

  /** `Legal` is the quantified statement about every tool message. */
  lemma {:induction false} LegalAt(ms: seq<Message>, seen: set<string>, j: nat, id: string)
    requires Legal(ms, seen) && j < |ms| && id != "" && Answer(ms[j]) == Some(id)
    ensures id in seen || DeclaredBefore(ms, j, id)
  {
    if j > 0 {
      LegalAt(ms[1..], seen + Ids(ms[0]), j - 1, id);
      if id !in seen {
        if id in Ids(ms[0]) {
          assert DeclaredBefore(ms, j, id);
        } else {
          var k :| 0 <= k < j - 1 && id in Ids(ms[1..][k]);
          assert id in Ids(ms[k + 1]);
        }
      }
    }
  }

  lemma {:induction false} FollowsAt(ms: seq<Message>, i: nat, id: string)
    requires Follows(ms) && i < |ms| && id in Ids(ms[i])
    ensures AnsweredAfter(ms, i, id)
  {
    if i == 0 {
      AnsweredAt(ms[1..], id);
      var k :| 0 <= k < |ms[1..]| && Answer(ms[1..][k]) == Some(id);
      assert Answer(ms[k + 1]) == Some(id);
    } else {
      FollowsAt(ms[1..], i - 1, id);
      var k :| i - 1 < k < |ms[1..]| && Answer(ms[1..][k]) == Some(id);
      assert Answer(ms[k + 1]) == Some(id);
    }
  }

  lemma {:induction false} FollowsFromQuantified(ms: seq<Message>)
    requires AnswersFollow(ms)
    ensures Follows(ms)
  {
    if ms != [] {
      forall id | id in Ids(ms[0]) ensures id in AnsweredIn(ms[1..]) {
        var j :| 0 < j < |ms| && Answer(ms[j]) == Some(id);
        assert Answer(ms[1..][j - 1]) == Some(id);
        AnsweredAt(ms[1..], id);
      }
      forall i, id | 0 <= i < |ms[1..]| && id in Ids(ms[1..][i])
        ensures AnsweredAfter(ms[1..], i, id)
      {
        assert id in Ids(ms[i + 1]);
        var j :| i + 1 < j < |ms| && Answer(ms[j]) == Some(id);
        assert Answer(ms[1..][j - 1]) == Some(id);
      }
      FollowsFromQuantified(ms[1..]);
    }
  }

  lemma FollowsIsAnswersFollow(ms: seq<Message>)
    ensures Follows(ms) <==> AnswersFollow(ms)
  {
    if Follows(ms) {
      forall i, id | 0 <= i < |ms| && id in Ids(ms[i])
        ensures AnsweredAfter(ms, i, id)
      {
        FollowsAt(ms, i, id);
      }
    }
    if AnswersFollow(ms) {
      FollowsFromQuantified(ms);
    }
  }

  lemma {:induction false} LegalFromQuantified(ms: seq<Message>, seen: set<string>)
    requires forall j, id :: 0 <= j < |ms| && id != "" && Answer(ms[j]) == Some(id) ==>
               id in seen || DeclaredBefore(ms, j, id)
    ensures Legal(ms, seen)
  {
    hide Ids;
    if ms != [] {
      assert !Orphan(ms[0], seen) by {
        if Answer(ms[0]).Some? && Answer(ms[0]).value != "" {
          assert Answer(ms[0]).value in seen || DeclaredBefore(ms, 0, Answer(ms[0]).value);
        }
      }
      var tail, more := ms[1..], seen + Ids(ms[0]);
      forall j, id | 0 <= j < |tail| && id != "" && Answer(tail[j]) == Some(id)
        ensures id in more || DeclaredBefore(tail, j, id)
      {
        assert Answer(ms[j + 1]) == Some(id);
        if id !in seen {
          var k :| 0 <= k < j + 1 && id in Ids(ms[k]);
          assert k > 0 ==> id in Ids(tail[k - 1]);
        }
      }
      LegalFromQuantified(tail, more);
    }
  }

  /** Legal and complete is exactly the provider's pairing rule. */
  lemma ClosedIsLegalComplete(ms: seq<Message>)
    ensures PairingClosed(ms) <==> Legal(ms, {}) && Complete(ms)
  {
    if Legal(ms, {}) && Complete(ms) {
      LegalCompleteIsClosed(ms);
    }
    if PairingClosed(ms) {
      LegalFromQuantified(ms, {});
      forall id | id in DeclaredIn(ms) ensures id in AnsweredIn(ms) {
        DeclaredAt(ms, id);
        var i :| 0 <= i < |ms| && id in Ids(ms[i]);
        assert AnsweredAfter(ms, -1, id);
        AnsweredAt(ms, id);
      }
    }
  }

  lemma LegalCompleteIsClosed(ms: seq<Message>)
    requires Legal(ms, {}) && Complete(ms)
    ensures PairingClosed(ms)
  {
    forall j, id | 0 <= j < |ms| && id != "" && Answer(ms[j]) == Some(id)
      ensures DeclaredBefore(ms, j, id)
    {
      LegalAt(ms, {}, j, id);
    }
    forall i, id | 0 <= i < |ms| && id in Ids(ms[i])
      ensures AnsweredAfter(ms, -1, id)
    {
      DeclaredAt(ms, id);
      AnsweredAt(ms, id);
    }
  }

  lemma {:induction false} FollowsImpliesComplete(ms: seq<Message>)
    requires Follows(ms)
    ensures Complete(ms)
  {
    if ms != [] {
      FollowsImpliesComplete(ms[1..]);
    }
  }

  lemma {:induction false} FollowsSuffix(ms: seq<Message>, k: nat)
    requires Follows(ms) && k <= |ms|
    ensures Follows(ms[k..])
  {
    if k == 0 {
      assert ms[0..] == ms;
    } else {
      FollowsSuffix(ms[1..], k - 1);
      assert ms[1..][k - 1..] == ms[k..];
    }
  }

  /** With unique, non-empty ids a legal and complete history answers every call after it is made:
      an earlier answer would have been an orphan. */
  lemma {:induction false} UniqueLegalCompleteFollows(ms: seq<Message>, seen: set<string>)
    requires UniqueIds(ms, seen) && Legal(ms, seen) && Complete(ms)
    ensures Follows(ms)
  {
    if ms != [] {
      forall id | id in DeclaredIn(ms[1..]) ensures id in AnsweredIn(ms[1..]) {
        UniqueAvoidsSeen(ms[1..], seen + Ids(ms[0]), id);
      }
      UniqueLegalCompleteFollows(ms[1..], seen + Ids(ms[0]));
    }
  }

  lemma {:induction false} UniqueAvoidsSeen(ms: seq<Message>, seen: set<string>, id: string)
    requires UniqueIds(ms, seen) && id in DeclaredIn(ms)
    ensures id !in seen && id != ""
  {
    if id !in Ids(ms[0]) {
      UniqueAvoidsSeen(ms[1..], seen + Ids(ms[0]), id);
    }
  }

  lemma NothingDeclared()
    ensures DeclaredIn([]) == {} && AnsweredIn([]) == {} && Legal([], {})
  {
  }

  lemma NoDeclaration(m: Message)
    requires !m.role.Assistant?
    ensures Ids(m) == {} && Refs(m) == []
  {
  }

  // ---- Integer ids, as the search for a legal start spells them ----

  function Spelling(id: Option<string>, number: Option<int>): Option<string> {
    if id.Some? then id else if number.Some? then Some(Integer(number.value)) else None
  }

  function SpelledCalls(calls: seq<ToolCall>): seq<ToolCall> {
    if calls == [] then []
    else [calls[0].(id := Spelling(calls[0].id, calls[0].number))] + SpelledCalls(calls[1..])
  }

  /** The message with its integer ids turned into text. */
  function Spelled(m: Message): Message {
    m.(toolCallId := Spelling(m.toolCallId, m.number),
       calls := if m.calls.Some? then Some(SpelledCalls(m.calls.value)) else None)
  }

  function AllSpelled(ms: seq<Message>): (r: seq<Message>)
    ensures |r| == |ms| && forall i :: 0 <= i < |ms| ==> r[i] == Spelled(ms[i])
  {
    if ms == [] then [] else [Spelled(ms[0])] + AllSpelled(ms[1..])
  }

  lemma AllSpelledSuffix(ms: seq<Message>, k: nat)
    requires k <= |ms|
    ensures AllSpelled(ms[k..]) == AllSpelled(ms)[k..]
  {
    hide AllSpelled, Spelled;
    var a, b := AllSpelled(ms[k..]), AllSpelled(ms)[k..];
    assert forall i :: 0 <= i < |ms| - k ==> a[i] == Spelled(ms[k..][i]) && b[i] == Spelled(ms[k + i]);
  }

  /** A result answers by text what has so far been declared only as an integer. */
  predicate Clash(ms: seq<Message>, seen: set<string>, spelled: set<string>) {
    ms != [] &&
    ((Orphan(ms[0], seen) && ms[0].toolCallId.value in spelled) ||
     Clash(ms[1..], seen + Ids(ms[0]), spelled + Ids(Spelled(ms[0]))))
  }

  lemma RefsStep(c: ToolCall, calls: seq<ToolCall>)
    ensures RefsOf([c] + calls) ==
      (if c.id.Some? then [CallRef(c.id.value, if c.name.Some? then c.name.value else "")] else []) + RefsOf(calls)
  {
    assert ([c] + calls)[1..] == calls;
  }

  lemma {:induction false} SpelledCallRefs(calls: seq<ToolCall>, r: CallRef)
    requires r in RefsOf(calls)
    ensures r in RefsOf(SpelledCalls(calls))
  {
    if calls != [] {
      var c, rest := calls[0], calls[1..];
      assert calls == [c] + rest;
      RefsStep(c, rest);
      RefsStep(c.(id := Spelling(c.id, c.number)), SpelledCalls(rest));
      hide RefsOf;
      if r in RefsOf(rest) {
        SpelledCallRefs(rest, r);
      }
    }
  }

  lemma SpelledIds(m: Message)
    ensures Ids(m) <= Ids(Spelled(m))
  {
    forall id | id in Ids(m) ensures id in Ids(Spelled(m)) {
      var r :| r in Refs(m) && r.id == id;
      SpelledCallRefs(m.calls.value, r);
    }
  }

  /** A list that is legal once integers are spelled out is legal as it stands unless there is a clash. */
  lemma {:induction false} LegalUnlessClash(ms: seq<Message>, seen: set<string>, spelled: set<string>)
    requires Legal(AllSpelled(ms), spelled) && seen <= spelled
    ensures Legal(ms, seen) <==> !Clash(ms, seen, spelled)
  {
    hide Ids;
    if ms != [] {
      var m := ms[0];
      SpelledIds(m);
      AllSpelledSuffix(ms, 1);
      assert AllSpelled(ms)[0] == Spelled(m);
      assert Orphan(m, seen) ==> m.toolCallId.value in spelled;
      LegalUnlessClash(ms[1..], seen + Ids(m), spelled + Ids(Spelled(m)));
    }
  }

  lemma {:induction false} LegalNeverClashes(ms: seq<Message>, seen: set<string>, spelled: set<string>)
    requires Legal(ms, seen)
    ensures !Clash(ms, seen, spelled)
  {
    hide Ids, Spelled;
    if ms != [] {
      LegalNeverClashes(ms[1..], seen + Ids(ms[0]), spelled + Ids(Spelled(ms[0])));
    }
  }

  /** No message declares an integer as an id. */
  predicate TextIds(ms: seq<Message>) {
    forall m :: m in ms ==> Ids(Spelled(m)) == Ids(m)
  }

  lemma {:induction false} TextNeverClashes(ms: seq<Message>, seen: set<string>)
    requires TextIds(ms)
    ensures !Clash(ms, seen, seen)
  {
    hide Ids, Spelled;
    if ms != [] {
      assert ms[0] in ms;
      TextNeverClashes(ms[1..], seen + Ids(ms[0]));
    }
  }
}
