/** `backfill_missing_tool_results`: insert a synthetic result for every call that has none. */
module Backfill {
  import opened Basics
  import opened Messages

  const BACKFILL_CONTENT := "[Tool result unavailable — call was interrupted or lost]"

  function Filler(call: CallRef): Message {
    Message(Tool, Some(call.id), None, Some(call.name), None, Some(Text(BACKFILL_CONTENT)), None, map[])
  }

  function Fillers(calls: seq<CallRef>): seq<Message> {
    if calls == [] then [] else [Filler(calls[0])] + Fillers(calls[1..])
  }

  function Unanswered(calls: seq<CallRef>, answered: set<string>): seq<CallRef> {
    if calls == [] then []
    else (if calls[0].id in answered then [] else [calls[0]]) + Unanswered(calls[1..], answered)
  }

  /** The structural specification. `owed` are the results the latest non-tool message still lacks;
      they are paid at the end of the run of tool messages that follows it, in declaration order. */
  function Woven(ms: seq<Message>, owed: seq<CallRef>, answered: set<string>): seq<Message> {
    if ms == [] then Fillers(owed)
    else if ms[0].role.Tool? then [ms[0]] + Woven(ms[1..], owed, answered)
    else Fillers(owed) + ([ms[0]] + Woven(ms[1..], Unanswered(Refs(ms[0]), answered), answered))
  }

  function Backfilled(ms: seq<Message>): seq<Message> {
    Woven(ms, [], AnsweredIn(ms))
  }

  // ---- The insertion loop ----

  /** A declared call and the index of the assistant message that declares it. */
  datatype Slot = Slot(idx: nat, call: CallRef)

  function Tagged(idx: nat, calls: seq<CallRef>): seq<Slot> {
    if calls == [] then [] else [Slot(idx, calls[0])] + Tagged(idx, calls[1..])
  }

  function FilterSlots(slots: seq<Slot>, answered: set<string>): seq<Slot> {
    if slots == [] then []
    else (if slots[0].call.id in answered then [] else [slots[0]]) + FilterSlots(slots[1..], answered)
  }

  /** First index from `p` on that does not hold a tool message. */
  function SkipTools(ms: seq<Message>, p: nat): nat
    decreases |ms| - p
  {
    if p < |ms| && ms[p].role.Tool? then SkipTools(ms, p + 1) else p
  }

  function InsertAt(ms: seq<Message>, at: nat, m: Message): seq<Message> {
    if at <= |ms| then ms[..at] + ([m] + ms[at..]) else ms
  }

  /** What the insertion loop makes of `u` when `offset` insertions are behind it. */
  ghost function AfterInserting(u: seq<Message>, slots: seq<Slot>, offset: nat): seq<Message>
    decreases |slots|
  {
    if slots == [] then u
    else
      var at := SkipTools(u, slots[0].idx + 1 + offset);
      AfterInserting(InsertAt(u, at, Filler(slots[0].call)), slots[1..], offset + 1)
  }

  method BackfillMissingToolResults(messages: seq<Message>) returns (updated: seq<Message>)
    ensures updated == Backfilled(messages)
  {
    var declared: seq<Slot> := [];
    var fulfilled: set<string> := {};
    for idx := 0 to |messages|
      invariant (declared, fulfilled) == Collected(messages, idx)
    {
      var msg := messages[idx];
      if msg.role.Assistant? {
        declared := declared + Tagged(idx, Refs(msg));
      } else if msg.role.Tool? && msg.toolCallId.Some? {
        fulfilled := fulfilled + {msg.toolCallId.value};
      }
    }
    var missing := FilterSlots(declared, fulfilled);
    CollectedSlots(messages);
    updated := InsertMissing(messages, missing);
    InsertingIsWoven(messages);
  }

  method InsertMissing(messages: seq<Message>, missing: seq<Slot>) returns (updated: seq<Message>)
    requires forall s :: s in missing ==> s.idx < |messages|
    ensures updated == AfterInserting(messages, missing, 0)
  {
    updated := messages;
    var offset := 0;
    while offset < |missing|
      invariant offset <= |missing| && |updated| == |messages| + offset
      invariant AfterInserting(updated, missing[offset..], offset) == AfterInserting(messages, missing, 0)
    {
      var start := missing[offset].idx + 1 + offset;
      var insertAt := start;
      while insertAt < |updated| && updated[insertAt].role.Tool?
        invariant start <= insertAt <= |updated|
        invariant SkipTools(updated, insertAt) == SkipTools(updated, start)
      {
        insertAt := insertAt + 1;
      }
      SplitAt(missing, offset);
      updated := InsertAt(updated, insertAt, Filler(missing[offset].call));
      offset := offset + 1;
    }
    assert missing[offset..] == [];
  }

  // ---- The first pass collects every declaration, in order, and every answered id ----

  ghost function Collected(ms: seq<Message>, n: nat): (seq<Slot>, set<string>)
    requires n <= |ms|
  {
    if n == 0 then ([], {})
    else
      var (slots, ids) := Collected(ms, n - 1);
      var msg := ms[n - 1];
      if msg.role.Assistant? then (slots + Tagged(n - 1, Refs(msg)), ids)
      else if msg.role.Tool? && msg.toolCallId.Some? then (slots, ids + {msg.toolCallId.value})
      else (slots, ids)
  }

  /** The declarations of `ms`, whose first message has index `base` in the whole list. */
  ghost function AllSlots(ms: seq<Message>, base: nat): seq<Slot> {
    if ms == [] then [] else Tagged(base, Refs(ms[0])) + AllSlots(ms[1..], base + 1)
  }

  /** Those of them that are unanswered. */
  ghost function OwedSlots(ms: seq<Message>, base: nat, answered: set<string>): seq<Slot> {
    if ms == [] then []
    else Tagged(base, Unanswered(Refs(ms[0]), answered)) + OwedSlots(ms[1..], base + 1, answered)
  }

  lemma AllSlotsStep(ms: seq<Message>, base: nat)
    requires ms != []
    ensures AllSlots(ms, base)
         == (if ms[0].role.Assistant? then Tagged(base, Refs(ms[0])) else []) + AllSlots(ms[1..], base + 1)
  {
  }

  lemma {:induction false} CollectedPrefix(ms: seq<Message>, n: nat)
    requires n <= |ms|
    ensures Collected(ms, n).0 + AllSlots(ms[n..], n) == AllSlots(ms, 0)
    ensures Collected(ms, n).1 + AnsweredIn(ms[n..]) == AnsweredIn(ms)
  {
    hide AllSlots, Tagged, Refs;
    if n == 0 {
      assert ms[0..] == ms && [] + AllSlots(ms, 0) == AllSlots(ms, 0);
    } else {
      CollectedPrefix(ms, n - 1);
      SplitAt(ms, n - 1);
      AllSlotsStep(ms[n - 1..], n - 1);
      var slots, rest := Collected(ms, n - 1).0, AllSlots(ms[n..], n);
      var here := if ms[n - 1].role.Assistant? then Tagged(n - 1, Refs(ms[n - 1])) else [];
      assert slots + (here + rest) == (slots + here) + rest;
      assert slots + [] == slots;
    }
  }

  lemma {:induction false} FilterConcat(a: seq<Slot>, b: seq<Slot>, answered: set<string>)
    ensures FilterSlots(a + b, answered) == FilterSlots(a, answered) + FilterSlots(b, answered)
  {
    if a == [] {
      assert a + b == b;
    } else {
      assert (a + b)[1..] == a[1..] + b;
      FilterConcat(a[1..], b, answered);
    }
  }

  lemma {:induction false} FilterTagged(idx: nat, calls: seq<CallRef>, answered: set<string>)
    ensures FilterSlots(Tagged(idx, calls), answered) == Tagged(idx, Unanswered(calls, answered))
  {
    if calls != [] {
      FilterTagged(idx, calls[1..], answered);
      assert Tagged(idx, calls)[1..] == Tagged(idx, calls[1..]);
      if calls[0].id in answered {
        assert Unanswered(calls, answered) == Unanswered(calls[1..], answered);
      } else {
        assert Unanswered(calls, answered)[1..] == Unanswered(calls[1..], answered);
      }
    }
  }

  lemma {:induction false} FilterAll(ms: seq<Message>, base: nat, answered: set<string>)
    ensures FilterSlots(AllSlots(ms, base), answered) == OwedSlots(ms, base, answered)
  {
    if ms != [] {
      FilterAll(ms[1..], base + 1, answered);
      FilterTagged(base, Refs(ms[0]), answered);
      FilterConcat(Tagged(base, Refs(ms[0])), AllSlots(ms[1..], base + 1), answered);
    }
  }

  lemma {:induction false} TaggedIdx(idx: nat, calls: seq<CallRef>)
    ensures forall s :: s in Tagged(idx, calls) ==> s.idx == idx
  {
    if calls != [] {
      TaggedIdx(idx, calls[1..]);
    }
  }

  lemma {:induction false} OwedSlotsInRange(ms: seq<Message>, base: nat, answered: set<string>)
    ensures forall s :: s in OwedSlots(ms, base, answered) ==> s.idx < base + |ms|
  {
    if ms != [] {
      OwedSlotsInRange(ms[1..], base + 1, answered);
      TaggedIdx(base, Unanswered(Refs(ms[0]), answered));
    }
  }

  lemma CollectedSlots(ms: seq<Message>)
    ensures Collected(ms, |ms|).1 == AnsweredIn(ms)
    ensures FilterSlots(Collected(ms, |ms|).0, AnsweredIn(ms)) == OwedSlots(ms, 0, AnsweredIn(ms))
    ensures forall s :: s in OwedSlots(ms, 0, AnsweredIn(ms)) ==> s.idx < |ms|
  {
    CollectedPrefix(ms, |ms|);
    assert ms[|ms|..] == [];
    assert Collected(ms, |ms|).0 + [] == Collected(ms, |ms|).0;
    FilterAll(ms, 0, AnsweredIn(ms));
    OwedSlotsInRange(ms, 0, AnsweredIn(ms));
  }

  // ---- Index-shifting insertion is the structural specification ----

  lemma {:induction false} SkipToolsIs(ms: seq<Message>, p: nat, q: nat)
    requires p <= q <= |ms|
    requires forall k :: p <= k < q ==> ms[k].role.Tool?
    requires q < |ms| ==> !ms[q].role.Tool?
    ensures SkipTools(ms, p) == q
    decreases q - p
  {
    if p < q {
      SkipToolsIs(ms, p + 1, q);
    }
  }

  predicate ToolsFrom(ms: seq<Message>, start: nat) {
    forall k :: start <= k < |ms| ==> ms[k].role.Tool?
  }

  lemma ToolsFromSnoc(ms: seq<Message>, start: nat, m: Message)
    requires ToolsFrom(ms, start) && m.role.Tool?
    ensures ToolsFrom(ms + [m], start) && ToolsFrom(ms + [m], start + 1)
  {
  }

  lemma WovenPastTool(ms: seq<Message>, owed: seq<CallRef>, answered: set<string>)
    requires ms != [] && ms[0].role.Tool?
    ensures Woven(ms, owed, answered) == [ms[0]] + Woven(ms[1..], owed, answered)
  {
  }

  lemma WovenPastOther(ms: seq<Message>, owed: seq<CallRef>, answered: set<string>)
    requires ms != [] && !ms[0].role.Tool?
    ensures Woven(ms, owed, answered)
         == Fillers(owed) + ([ms[0]] + Woven(ms[1..], Unanswered(Refs(ms[0]), answered), answered))
  {
  }

  lemma OwedPastTool(ms: seq<Message>, base: nat, answered: set<string>)
    requires ms != [] && ms[0].role.Tool?
    ensures OwedSlots(ms, base, answered) == OwedSlots(ms[1..], base + 1, answered)
  {
  }

  /** The `offset` arithmetic lands at the end of assistant `a`'s run. */
  lemma InsertAtRunEnd(front: seq<Message>, back: seq<Message>, start: nat, m: Message)
    requires start <= |front| && ToolsFrom(front, start)
    requires back != [] ==> !back[0].role.Tool?
    ensures InsertAt(front + back, SkipTools(front + back, start), m) == (front + [m]) + back
  {
    SkipToolsIs(front + back, start, |front|);
    assert (front + back)[..|front|] == front && (front + back)[|front|..] == back;
  }

  lemma NothingLeft(u: seq<Message>, owed: seq<CallRef>, base: nat, answered: set<string>, offset: nat)
    ensures AfterInserting(u, OwedSlots([], base, answered), offset) == u
    ensures Woven([], owed, answered) == Fillers(owed)
  {
  }

  lemma OwedPastAny(ms: seq<Message>, base: nat, answered: set<string>)
    requires ms != []
    ensures OwedSlots(ms, base, answered)
         == Tagged(base, Unanswered(Refs(ms[0]), answered)) + OwedSlots(ms[1..], base + 1, answered)
  {
  }

  lemma NoToolsLeft(ms: seq<Message>)
    ensures ToolsFrom(ms, |ms|)
  {
  }

  lemma InsertingOne(front: seq<Message>, back: seq<Message>, slot: Slot, rest: seq<Slot>, offset: nat)
    requires slot.idx + 1 + offset <= |front| && ToolsFrom(front, slot.idx + 1 + offset)
    requires back != [] ==> !back[0].role.Tool?
    ensures AfterInserting(front + back, [slot] + rest, offset)
         == AfterInserting((front + [Filler(slot.call)]) + back, rest, offset + 1)
  {
    hide SkipTools, InsertAt, ToolsFrom, Filler;
    InsertAtRunEnd(front, back, slot.idx + 1 + offset, Filler(slot.call));
    assert ([slot] + rest)[1..] == rest;
  }

  /** All that assistant `a` is owed goes in at the end of its run, in declaration order. */
  lemma {:induction false} InsertingPays(
    front: seq<Message>, back: seq<Message>, a: nat, owed: seq<CallRef>, rest: seq<Slot>, offset: nat)
    requires owed != [] ==> a + 1 + offset <= |front| && ToolsFrom(front, a + 1 + offset)
    requires back != [] ==> !back[0].role.Tool?
    ensures AfterInserting(front + back, Tagged(a, owed) + rest, offset)
         == AfterInserting((front + Fillers(owed)) + back, rest, offset + |owed|)
    decreases |owed|
  {
    hide InsertAt, SkipTools, ToolsFrom;
    if owed == [] {
      assert Tagged(a, owed) + rest == rest && front + Fillers(owed) == front;
    } else {
      var slot, filler, more := Slot(a, owed[0]), Filler(owed[0]), Tagged(a, owed[1..]) + rest;
      calc {
        AfterInserting(front + back, Tagged(a, owed) + rest, offset);
        { assert Tagged(a, owed) + rest == [slot] + more; }
        AfterInserting(front + back, [slot] + more, offset);
        { InsertingOne(front, back, slot, more, offset); }
        AfterInserting((front + [filler]) + back, more, offset + 1);
        {
          ToolsFromSnoc(front, a + 1 + offset, filler);
          InsertingPays(front + [filler], back, a, owed[1..], rest, offset + 1);
        }
        AfterInserting(((front + [filler]) + Fillers(owed[1..])) + back, rest, offset + |owed|);
        { SnocThenAppend(front, filler, Fillers(owed[1..])); }
        AfterInserting((front + Fillers(owed)) + back, rest, offset + |owed|);
      }
    }
  }

  /** With `front` settled and `owed` still due to assistant `a`, whose run reaches into the settled
      part, the loop completes the list as the structural specification says. */
  lemma {:induction false} InsertingWeaves(
      front: seq<Message>, back: seq<Message>, base: nat, a: nat, owed: seq<CallRef>, answered: set<string>,
      offset: nat)
    requires |front| == base + offset
    requires owed != [] ==> a < base && ToolsFrom(front, a + 1 + offset)
    ensures AfterInserting(front + back, Tagged(a, owed) + OwedSlots(back, base, answered), offset)
         == front + Woven(back, owed, answered)
    decreases |back|
  {
    hide *;
    if back != [] && back[0].role.Tool? {
      InsertingPastTool(front, back, base, a, owed, answered, offset);
    } else {
      var later, settled := OwedSlots(back, base, answered), front + Fillers(owed);
      FillersLength(owed);
      InsertingPays(front, back, a, owed, later, offset);
      if back == [] {
        assert settled + back == settled;
        NothingLeft(settled, owed, base, answered, offset + |owed|);
      } else {
        var x, tail, due := back[0], back[1..], Unanswered(Refs(back[0]), answered);
        OwedPastAny(back, base, answered);
        WovenPastOther(back, owed, answered);
        assert settled + back == (settled + [x]) + tail;
        assert ToolsFrom(settled + [x], |settled + [x]|) by { NoToolsLeft(settled + [x]); }
        InsertingWeaves(settled + [x], tail, base + 1, base, due, answered, offset + |owed|);
        SnocThenAppend(settled, x, Woven(tail, due, answered));
        assert settled + ([x] + Woven(tail, due, answered)) == front + Woven(back, owed, answered);
      }
    }
  }

  lemma {:induction false} InsertingPastTool(
      front: seq<Message>, back: seq<Message>, base: nat, a: nat, owed: seq<CallRef>, answered: set<string>,
      offset: nat)
    requires |front| == base + offset && back != [] && back[0].role.Tool?
    requires owed != [] ==> a < base && ToolsFrom(front, a + 1 + offset)
    ensures AfterInserting(front + back, Tagged(a, owed) + OwedSlots(back, base, answered), offset)
         == front + Woven(back, owed, answered)
    decreases |back|, 0
  {
    hide *;
    var x, tail := back[0], back[1..];
    OwedPastTool(back, base, answered);
    WovenPastTool(back, owed, answered);
    assert front + back == (front + [x]) + tail;
    if owed != [] {
      ToolsFromSnoc(front, a + 1 + offset, x);
    }
    InsertingWeaves(front + [x], tail, base + 1, a, owed, answered, offset);
    SnocThenAppend(front, x, Woven(tail, owed, answered));
  }

  lemma {:induction false} FillersLength(owed: seq<CallRef>)
    ensures |Fillers(owed)| == |owed|
  {
    if owed != [] {
      FillersLength(owed[1..]);
    }
  }

  lemma InsertingIsWoven(ms: seq<Message>)
    ensures AfterInserting(ms, OwedSlots(ms, 0, AnsweredIn(ms)), 0) == Woven(ms, [], AnsweredIn(ms))
  {
    hide *;
    TaggedNone(0);
    assert [] + ms == ms && Tagged(0, []) + OwedSlots(ms, 0, AnsweredIn(ms)) == OwedSlots(ms, 0, AnsweredIn(ms));
    InsertingWeaves([], ms, 0, 0, [], AnsweredIn(ms), 0);
  }

  lemma TaggedNone(idx: nat)
    ensures Tagged(idx, []) == []
  {
  }

  // ---- What backfilling achieves ----

  lemma {:induction false} FillerFacts(calls: seq<CallRef>, seen: set<string>)
    ensures DeclaredIn(Fillers(calls)) == {}
    ensures AnsweredIn(Fillers(calls)) == RefIds(calls)
    ensures RefIds(calls) <= seen ==> Legal(Fillers(calls), seen)
    ensures Follows(Fillers(calls))
  {
    if calls != [] {
      var fs := Fillers(calls);
      assert fs[0] == Filler(calls[0]) && fs[1..] == Fillers(calls[1..]);
      assert Ids(fs[0]) == {} && AnswerIds(fs[0]) == {calls[0].id};
      assert RefIds(calls) == {calls[0].id} + RefIds(calls[1..]);
      assert seen + Ids(fs[0]) == seen;
      FillerFacts(calls[1..], seen);
    }
  }

  lemma {:induction false} UnansweredIds(calls: seq<CallRef>, answered: set<string>)
    ensures RefIds(Unanswered(calls, answered)) == RefIds(calls) - answered
  {
    if calls != [] {
      UnansweredIds(calls[1..], answered);
      assert RefIds(calls) == {calls[0].id} + RefIds(calls[1..]);
      var rest := Unanswered(calls[1..], answered);
      assert RefIds([calls[0]] + rest) == {calls[0].id} + RefIds(rest);
      assert [] + rest == rest;
    }
  }

  /** Weaving declares nothing new, and answers just what was owed or unanswered. */
  lemma {:induction false} WovenIds(ms: seq<Message>, owed: seq<CallRef>, answered: set<string>)
    ensures DeclaredIn(Woven(ms, owed, answered)) == DeclaredIn(ms)
    ensures AnsweredIn(Woven(ms, owed, answered)) == AnsweredIn(ms) + RefIds(owed) + (DeclaredIn(ms) - answered)
  {
    hide RefIds, Fillers, Unanswered, Refs, DeclaredIn, AnsweredIn, Ids, AnswerIds;
    FillerFacts(owed, {});
    if ms == [] {
      NothingDeclared();
    } else {
      var tail := ms[1..];
      assert ms == [ms[0]] + tail;
      ConsIds(ms[0], tail);
      if ms[0].role.Tool? {
        WovenIds(tail, owed, answered);
        ConsIds(ms[0], Woven(tail, owed, answered));
        NoDeclaration(ms[0]);
      } else {
        var due := Unanswered(Refs(ms[0]), answered);
        WovenIds(tail, due, answered);
        DueIds(ms[0], answered);
        var rest := [ms[0]] + Woven(tail, due, answered);
        ConsIds(ms[0], Woven(tail, due, answered));
        DeclaredConcat(Fillers(owed), rest);
        AnsweredConcat(Fillers(owed), rest);
      }
    }
  }

  lemma DueIds(m: Message, answered: set<string>)
    ensures RefIds(Unanswered(Refs(m), answered)) == Ids(m) - answered
  {
    hide Unanswered;
    UnansweredIds(Refs(m), answered);
  }

  lemma ConsIds(m: Message, ms: seq<Message>)
    ensures DeclaredIn([m] + ms) == Ids(m) + DeclaredIn(ms)
    ensures AnsweredIn([m] + ms) == AnswerIds(m) + AnsweredIn(ms)
  {
    assert ([m] + ms)[1..] == ms;
  }

  lemma ConsLegal(m: Message, ms: seq<Message>, seen: set<string>)
    ensures Legal([m] + ms, seen) <==> !Orphan(m, seen) && Legal(ms, seen + Ids(m))
  {
    assert ([m] + ms)[1..] == ms;
  }

  lemma ConsFollows(m: Message, ms: seq<Message>)
    ensures Follows([m] + ms) <==> Ids(m) <= AnsweredIn(ms) && Follows(ms)
  {
    assert ([m] + ms)[1..] == ms;
  }

  /** The inserted results are never orphans. */
  lemma {:induction false} WovenLegal(ms: seq<Message>, owed: seq<CallRef>, answered: set<string>, seen: set<string>)
    requires Legal(ms, seen) && RefIds(owed) <= seen
    ensures Legal(Woven(ms, owed, answered), seen)
  {
    hide RefIds, Fillers, Unanswered;
    FillerFacts(owed, seen);
    if ms != [] {
      var tail, more := ms[1..], seen + Ids(ms[0]);
      if ms[0].role.Tool? {
        WovenLegal(tail, owed, answered, more);
        ConsLegal(ms[0], Woven(tail, owed, answered), seen);
      } else {
        var due := Unanswered(Refs(ms[0]), answered);
        UnansweredIds(Refs(ms[0]), answered);
        WovenLegal(tail, due, answered, more);
        ConsLegal(ms[0], Woven(tail, due, answered), seen);
        LegalConcat(Fillers(owed), [ms[0]] + Woven(tail, due, answered), seen);
        assert seen + {} == seen;
      }
    }
  }

  /** Backfilling leaves no call unanswered and introduces no orphan. */
  lemma BackfilledIsPaired(ms: seq<Message>)
    ensures Complete(Backfilled(ms))
    ensures DeclaredIn(Backfilled(ms)) == DeclaredIn(ms)
    ensures Legal(ms, {}) ==> Legal(Backfilled(ms), {})
  {
    WovenIds(ms, [], AnsweredIn(ms));
    if Legal(ms, {}) {
      WovenLegal(ms, [], AnsweredIn(ms), {});
    }
  }

  /** Messages that answer an id in `answered`, or answer none. */
  function Originals(ms: seq<Message>, answered: set<string>): seq<Message> {
    if ms == [] then []
    else (if AnswerIds(ms[0]) <= answered then [ms[0]] else []) + Originals(ms[1..], answered)
  }

  lemma {:induction false} OriginalsConcat(a: seq<Message>, b: seq<Message>, answered: set<string>)
    ensures Originals(a + b, answered) == Originals(a, answered) + Originals(b, answered)
  {
    hide AnswerIds;
    if a == [] {
      assert a + b == b;
    } else {
      assert (a + b)[0] == a[0] && (a + b)[1..] == a[1..] + b;
      OriginalsConcat(a[1..], b, answered);
      var head := if AnswerIds(a[0]) <= answered then [a[0]] else [];
      var front, back := Originals(a[1..], answered), Originals(b, answered);
      assert head + (front + back) == (head + front) + back;
    }
  }

  lemma {:induction false} FillersAreNew(calls: seq<CallRef>, answered: set<string>)
    requires RefIds(calls) !! answered
    ensures Originals(Fillers(calls), answered) == []
  {
    if calls != [] {
      assert calls[0].id in RefIds(calls);
      assert RefIds(calls[1..]) <= RefIds(calls);
      FillersAreNew(calls[1..], answered);
      assert Fillers(calls)[0] == Filler(calls[0]) && Fillers(calls)[1..] == Fillers(calls[1..]);
    }
  }

  /** Taking the inserted results out again gives back the original list, in its order. */
  lemma {:induction false} WovenOriginals(ms: seq<Message>, owed: seq<CallRef>, answered: set<string>)
    requires AnsweredIn(ms) <= answered && RefIds(owed) !! answered
    ensures Originals(Woven(ms, owed, answered), answered) == ms
  {
    hide RefIds, Unanswered, Fillers;
    FillersAreNew(owed, answered);
    if ms != [] {
      var m, tail := ms[0], ms[1..];
      assert ms == [m] + tail && Originals([m], answered) == [m];
      var due := if m.role.Tool? then owed else Unanswered(Refs(m), answered);
      UnansweredIds(Refs(m), answered);
      WovenOriginals(tail, due, answered);
      OriginalsConcat([m], Woven(tail, due, answered), answered);
      OriginalsConcat(Fillers(owed), [m] + Woven(tail, due, answered), answered);
    }
  }

  lemma BackfilledKeepsOriginals(ms: seq<Message>)
    ensures Originals(Backfilled(ms), AnsweredIn(ms)) == ms
  {
    WovenOriginals(ms, [], AnsweredIn(ms));
  }

  lemma {:induction false} UnansweredNone(calls: seq<CallRef>, answered: set<string>)
    requires RefIds(calls) <= answered
    ensures Unanswered(calls, answered) == []
  {
    if calls != [] {
      assert calls[0].id in RefIds(calls) && RefIds(calls[1..]) <= RefIds(calls);
      UnansweredNone(calls[1..], answered);
    }
  }

  lemma {:induction false} WovenNothing(ms: seq<Message>, answered: set<string>)
    requires DeclaredIn(ms) <= answered
    ensures Woven(ms, [], answered) == ms
  {
    hide RefIds, Unanswered, Refs, Fillers, Ids;
    NoFillers();
    if ms != [] {
      assert ms == [ms[0]] + ms[1..];
      NothingDue(ms[0], answered);
      WovenNothing(ms[1..], answered);
      assert [] + ms == ms;
    }
  }

  lemma NoFillers()
    ensures Fillers([]) == []
  {
  }

  lemma NothingDue(m: Message, answered: set<string>)
    requires Ids(m) <= answered
    ensures Unanswered(Refs(m), answered) == []
  {
    hide Unanswered, Refs;
    UnansweredNone(Refs(m), answered);
  }

  /** A list with nothing missing is returned as it is: the early return is the general case. */
  lemma BackfillIdleIff(ms: seq<Message>)
    ensures Backfilled(ms) == ms <==> Complete(ms)
  {
    if Complete(ms) {
      WovenNothing(ms, AnsweredIn(ms));
    }
    BackfilledIsPaired(ms);
  }

  /** No id that is answered at all is declared again after its last answer. */
  predicate FollowsWhereAnswered(ms: seq<Message>, answered: set<string>) {
    ms == [] || (Ids(ms[0]) * answered <= AnsweredIn(ms[1..]) && FollowsWhereAnswered(ms[1..], answered))
  }

  lemma {:induction false} WovenFollows(ms: seq<Message>, owed: seq<CallRef>, answered: set<string>)
    requires RefIds(owed) !! answered
    ensures Follows(Woven(ms, owed, answered)) <==> FollowsWhereAnswered(ms, answered)
  {
    hide RefIds, Fillers, Unanswered, Refs;
    FillerFacts(owed, {});
    if ms != [] {
      var m, tail := ms[0], ms[1..];
      var due := if m.role.Tool? then owed else Unanswered(Refs(m), answered);
      UnansweredIds(Refs(m), answered);
      WovenFollows(tail, due, answered);
      WovenIds(tail, due, answered);
      ConsFollows(m, Woven(tail, due, answered));
      if m.role.Tool? {
        NoDeclaration(m);
      } else {
        FollowsPastFillers(Fillers(owed), [m] + Woven(tail, due, answered));
      }
    }
  }

  lemma {:induction false} FollowsPastFillers(a: seq<Message>, b: seq<Message>)
    requires DeclaredIn(a) == {}
    ensures Follows(a + b) <==> Follows(b)
  {
    if a == [] {
      assert a + b == b;
    } else {
      assert (a + b)[1..] == a[1..] + b;
      FollowsPastFillers(a[1..], b);
    }
  }

  /** After backfilling, every call is answered later than it is made exactly when no id that already
      had an answer was declared again after its last one. */
  lemma BackfilledFollowsIff(ms: seq<Message>)
    ensures AnswersFollow(Backfilled(ms)) <==> FollowsWhereAnswered(ms, AnsweredIn(ms))
  {
    WovenFollows(ms, [], AnsweredIn(ms));
    FollowsIsAnswersFollow(Backfilled(ms));
  }

  /** Inserting results does not disturb the uniqueness of declared ids. */
  lemma {:induction false} WovenUnique(ms: seq<Message>, owed: seq<CallRef>, answered: set<string>, seen: set<string>)
    requires UniqueIds(ms, seen)
    ensures UniqueIds(Woven(ms, owed, answered), seen)
  {
    hide RefIds, Fillers, Unanswered;
    FillerFacts(owed, {});
    if ms == [] {
      UniquePastFillers(Fillers(owed), [], seen);
      assert Fillers(owed) + [] == Fillers(owed);
    } else {
      var m, tail := ms[0], ms[1..];
      var due := if m.role.Tool? then owed else Unanswered(Refs(m), answered);
      WovenUnique(tail, due, answered, seen + Ids(m));
      var rest := [m] + Woven(tail, due, answered);
      assert rest[0] == m && rest[1..] == Woven(tail, due, answered);
      UniquePastFillers(Fillers(owed), rest, seen);
    }
  }

  lemma {:induction false} UniquePastFillers(a: seq<Message>, b: seq<Message>, seen: set<string>)
    requires DeclaredIn(a) == {} && UniqueIds(b, seen)
    ensures UniqueIds(a + b, seen)
  {
    hide Ids, Refs, DistinctRefs, UniqueIds;
    if a == [] {
      assert a + b == b;
    } else {
      assert a + b == [a[0]] + (a[1..] + b);
      UniquePastFillers(a[1..], b, seen);
      UniqueCons(a[0], a[1..] + b, seen);
    }
  }

  lemma UniqueCons(m: Message, ms: seq<Message>, seen: set<string>)
    requires Ids(m) == {} && UniqueIds(ms, seen)
    ensures UniqueIds([m] + ms, seen)
  {
    NoRefs(m);
    hide Ids, Refs, DistinctRefs;
    assert ([m] + ms)[1..] == ms && seen + Ids(m) == seen;
  }

  lemma NoRefs(m: Message)
    requires Ids(m) == {}
    ensures DistinctRefs(Refs(m))
  {
    assert forall r :: r in Refs(m) ==> r.id in Ids(m);
  }

  /** Nothing comes in but tool messages. */
  lemma {:induction false} WovenMembers(ms: seq<Message>, owed: seq<CallRef>, answered: set<string>)
    ensures forall m :: m in Woven(ms, owed, answered) ==> m in ms || m.role.Tool?
  {
    hide Unanswered, Refs;
    FillersAreTools(owed);
    if ms != [] {
      WovenMembers(ms[1..], owed, answered);
      WovenMembers(ms[1..], Unanswered(Refs(ms[0]), answered), answered);
    }
  }

  lemma {:induction false} FillersAreTools(calls: seq<CallRef>)
    ensures forall m :: m in Fillers(calls) ==> m.role.Tool?
  {
    if calls != [] {
      FillersAreTools(calls[1..]);
    }
  }

  // ---- Reading the result back ----

  /** A tool message under an id that had no answer before. */
  predicate IsNew(m: Message, answered: set<string>) {
    Answer(m).Some? && Answer(m).value !in answered
  }

  /** The list can be read as a backfilled one: behind every other message stand the tool messages that
      followed it, and then, in declaration order, one new result with the call's id and name for each of its
      calls without an answer; new results stand nowhere else. `due` are the results still to come. */
  predicate ReadsBack(w: seq<Message>, due: seq<CallRef>, late: bool, answered: set<string>) {
    if w == [] then due == []
    else if w[0].role.Tool? && IsNew(w[0], answered) then
      && due != [] && w[0].toolCallId == Some(due[0].id) && w[0].name == Some(due[0].name)
      && AsText(w[0].content) == Some("[Tool result unavailable — call was interrupted or lost]")
      && w[0].calls.None? && ReadsBack(w[1..], due[1..], true, answered)
    else if w[0].role.Tool? then !late && ReadsBack(w[1..], due, false, answered)
    else due == [] && ReadsBack(w[1..], Unanswered(Refs(w[0]), answered), false, answered)
  }

  lemma FillerReadsBack(call: CallRef, w: seq<Message>, due: seq<CallRef>, late: bool, answered: set<string>)
    requires call.id !in answered && ReadsBack(w, due, true, answered)
    ensures ReadsBack([Filler(call)] + w, [call] + due, late, answered)
  {
    var all := [Filler(call)] + w;
    assert all[0] == Filler(call) && all[1..] == w && ([call] + due)[1..] == due;
  }

  lemma LateOrNot(w: seq<Message>, answered: set<string>)
    requires ReadsBack(w, [], false, answered) && (w != [] ==> !w[0].role.Tool?)
    ensures ReadsBack(w, [], true, answered)
  {
  }

  lemma FillersStep(calls: seq<CallRef>)
    ensures Fillers(calls) == if calls == [] then [] else [Filler(calls[0])] + Fillers(calls[1..])
  {
  }

  lemma {:induction false} FillersReadBack(owed: seq<CallRef>, rest: seq<Message>, late: bool, answered: set<string>)
    requires RefIds(owed) !! answered && (rest != [] ==> !rest[0].role.Tool?) && ReadsBack(rest, [], false, answered)
    ensures ReadsBack(Fillers(owed) + rest, owed, late, answered)
  {
    hide ReadsBack, Filler, Fillers;
    FillersStep(owed);
    if owed == [] {
      assert Fillers(owed) + rest == rest;
      LateOrNot(rest, answered);
    } else {
      var call, tail := owed[0], owed[1..];
      assert call in owed && call.id in RefIds(owed) && RefIds(tail) <= RefIds(owed);
      FillersReadBack(tail, rest, true, answered);
      FillerReadsBack(call, Fillers(tail) + rest, tail, late, answered);
      Reassociate([Filler(call)], Fillers(tail), rest);
      assert [call] + tail == owed;
    }
  }

  lemma {:induction false} WovenReadsBack(ms: seq<Message>, owed: seq<CallRef>, answered: set<string>)
    requires AnsweredIn(ms) <= answered && RefIds(owed) !! answered
    ensures ReadsBack(Woven(ms, owed, answered), owed, false, answered)
  {
    hide Refs, RefIds, Unanswered, Fillers;
    if ms == [] {
      FillersReadBack(owed, [], false, answered);
      assert Fillers(owed) + [] == Fillers(owed);
    } else {
      var m, tail := ms[0], ms[1..];
      if m.role.Tool? {
        WovenReadsBack(tail, owed, answered);
        var w := [m] + Woven(tail, owed, answered);
        assert w[0] == m && w[1..] == Woven(tail, owed, answered);
        assert !IsNew(m, answered);
      } else {
        var due := Unanswered(Refs(m), answered);
        UnansweredIds(Refs(m), answered);
        WovenReadsBack(tail, due, answered);
        var rest := [m] + Woven(tail, due, answered);
        assert rest[0] == m && rest[1..] == Woven(tail, due, answered);
        FillersReadBack(owed, rest, false, answered);
      }
    }
  }

  /** The inserted results stand where they belong: each at the end of its own assistant's run of tool
      messages, in declaration order, under the call's id and name. */
  lemma BackfilledReadsBack(ms: seq<Message>)
    ensures ReadsBack(Backfilled(ms), [], false, AnsweredIn(ms))
  {
    WovenReadsBack(ms, [], AnsweredIn(ms));
  }

  lemma UnansweredCons(call: CallRef, calls: seq<CallRef>, answered: set<string>)
    ensures Unanswered([call] + calls, answered)
         == (if call.id in answered then [] else [call]) + Unanswered(calls, answered)
    ensures Unanswered([], answered) == []
  {
    assert ([call] + calls)[1..] == calls;
  }

  /** Missing results are asked for in the order of the calls, and for nothing else. */
  lemma {:induction false} UnansweredInOrder(a: seq<CallRef>, b: seq<CallRef>, answered: set<string>)
    ensures Unanswered(a + b, answered) == Unanswered(a, answered) + Unanswered(b, answered)
    ensures |a| == 1 ==> Unanswered(a, answered) == if a[0].id in answered then [] else a
  {
    if a == [] {
      assert a + b == b;
    } else {
      hide Unanswered;
      var call, tail := a[0], a[1..];
      assert a == [call] + tail && a + b == [call] + (tail + b);
      UnansweredInOrder(tail, b, answered);
      UnansweredCons(call, tail, answered);
      UnansweredCons(call, tail + b, answered);
      Reassociate(if call.id in answered then [] else [call], Unanswered(tail, answered), Unanswered(b, answered));
      if |a| == 1 {
        assert tail == [] && [call] + [] == [call];
      }
    }
  }
}
