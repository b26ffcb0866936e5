/** `drop_orphan_tool_results`: remove tool results that no earlier assistant message asked for. */
module Orphans {
  import opened Basics
  import opened Messages

  /** What happens to the rest of the list once the first orphan has forced a copy: orphans go, and
      so does every message without a role. */
  function KeptAfterCopy(ms: seq<Message>, seen: set<string>): seq<Message> {
    if ms == [] then []
    else if ms[0].role.NoRole? || Orphan(ms[0], seen) then KeptAfterCopy(ms[1..], seen + Ids(ms[0]))
    else [ms[0]] + KeptAfterCopy(ms[1..], seen + Ids(ms[0]))
  }

  function Dropped(ms: seq<Message>, seen: set<string>): seq<Message> {
    if ms == [] then []
    else if Orphan(ms[0], seen) then KeptAfterCopy(ms[1..], seen)
    else [ms[0]] + Dropped(ms[1..], seen + Ids(ms[0]))
  }

  /** The plain filter the function is named after. */
  function WithoutOrphans(ms: seq<Message>, seen: set<string>): seq<Message> {
    if ms == [] then []
    else (if Orphan(ms[0], seen) then [] else [ms[0]]) + WithoutOrphans(ms[1..], seen + Ids(ms[0]))
  }

  /** Some message without a role comes after some orphan. */
  predicate RolelessAfterOrphan(ms: seq<Message>, seen: set<string>) {
    ms != [] &&
    if Orphan(ms[0], seen) then exists m :: m in ms[1..] && m.role.NoRole?
    else RolelessAfterOrphan(ms[1..], seen + Ids(ms[0]))
  }

  /** What the loop will return from position `idx` on, if nothing or `updated` has been copied. */
  ghost function Outcome(ms: seq<Message>, idx: nat, declared: set<string>, updated: Option<seq<Message>>): seq<Message>
    requires idx <= |ms|
  {
    match updated
    case None => ms[..idx] + Dropped(ms[idx..], declared)
    case Some(u) => u + KeptAfterCopy(ms[idx..], declared)
  }

  /** The loop's variables after the first `n` messages: ids declared, and the copy if one was needed. */
  ghost function Scanned(ms: seq<Message>, n: nat): (set<string>, Option<seq<Message>>)
    requires n <= |ms|
  {
    if n == 0 then ({}, None)
    else
      var (declared, updated) := Scanned(ms, n - 1);
      var msg := ms[n - 1];
      (if msg.role.Assistant? then declared + Ids(msg) else declared,
       if Orphan(msg, declared) then (if updated.None? then Some(ms[..n - 1]) else updated)
       else if msg.role.NoRole? || updated.None? then updated
       else Some(updated.value + [msg]))
  }

  lemma {:induction false} ScannedOutcome(ms: seq<Message>, n: nat)
    requires n <= |ms|
    ensures var (declared, updated) := Scanned(ms, n); Outcome(ms, n, declared, updated) == Dropped(ms, {})
  {
    hide Ids, Orphan;
    if n == 0 {
      assert ms[..0] + ms[0..] == ms;
    } else {
      ScannedOutcome(ms, n - 1);
      var (declared, updated) := Scanned(ms, n - 1);
      var msg, rest := ms[n - 1], ms[n..];
      SplitAt(ms, n - 1);
      DeclaresNothing(msg, declared);
      if Orphan(msg, declared) {
      } else if updated.None? {
        SnocThenAppend(ms[..n - 1], msg, Dropped(rest, declared + Ids(msg)));
      } else if !msg.role.NoRole? {
        SnocThenAppend(updated.value, msg, KeptAfterCopy(rest, declared + Ids(msg)));
      }
    }
  }

  lemma DeclaresNothing(m: Message, seen: set<string>)
    ensures !m.role.Assistant? ==> seen + Ids(m) == seen
    ensures Orphan(m, seen) ==> m.role.Tool?
  {
  }

  method DropOrphanToolResults(messages: seq<Message>) returns (kept: seq<Message>)
    ensures kept == Dropped(messages, {})
    ensures Legal(kept, {})
  {
    var declared: set<string> := {};
    var updated: Option<seq<Message>> := None;
    for idx := 0 to |messages|
      invariant (declared, updated) == Scanned(messages, idx)
    {
      var msg := messages[idx];
      if !msg.role.NoRole? {
        if msg.role.Assistant? {
          declared := declared + Ids(msg);
        }
        var tid := if msg.toolCallId.Some? then msg.toolCallId.value else "";
        if msg.role.Tool? && tid != "" && tid !in declared {
          if updated.None? {
            updated := Some(messages[..idx]);
          }
          continue;
        }
        if updated.Some? {
          updated := Some(updated.value + [msg]);
        }
      }
    }
    ScannedOutcome(messages, |messages|);
    assert messages[|messages|..] == [] && messages[..|messages|] == messages;
    kept := if updated.Some? then updated.value else messages;
    DroppedIsLegal(messages, {});
  }

  lemma {:induction false} KeptAfterCopyIsLegal(ms: seq<Message>, seen: set<string>)
    ensures Legal(KeptAfterCopy(ms, seen), seen)
  {
    if ms != [] {
      KeptAfterCopyIsLegal(ms[1..], seen + Ids(ms[0]));
      if ms[0].role.NoRole? || Orphan(ms[0], seen) {
        assert seen + Ids(ms[0]) == seen;
      }
    }
  }

  lemma {:induction false} DroppedIsLegal(ms: seq<Message>, seen: set<string>)
    ensures Legal(Dropped(ms, seen), seen)
  {
    if ms != [] {
      if Orphan(ms[0], seen) {
        KeptAfterCopyIsLegal(ms[1..], seen);
      } else {
        DroppedIsLegal(ms[1..], seen + Ids(ms[0]));
      }
    }
  }

  /** A legal list is left alone, so the pass is idempotent. */
  lemma {:induction false} DropKeepsLegal(ms: seq<Message>, seen: set<string>)
    requires Legal(ms, seen)
    ensures Dropped(ms, seen) == ms
  {
    if ms != [] {
      DropKeepsLegal(ms[1..], seen + Ids(ms[0]));
    }
  }

  lemma {:induction false} CopyLoss(ms: seq<Message>, seen: set<string>)
    ensures |KeptAfterCopy(ms, seen)| <= |WithoutOrphans(ms, seen)|
    ensures KeptAfterCopy(ms, seen) == WithoutOrphans(ms, seen) <==> forall m :: m in ms ==> !m.role.NoRole?
    ensures (exists m :: m in ms && m.role.NoRole?) ==> |KeptAfterCopy(ms, seen)| < |WithoutOrphans(ms, seen)|
  {
    if ms != [] {
      CopyLoss(ms[1..], seen + Ids(ms[0]));
      assert forall m :: m in ms <==> m == ms[0] || m in ms[1..];
    }
  }

  /** The pass is the plain filter exactly when no message without a role follows an orphan. */
  lemma {:induction false} DropIsFilterIff(ms: seq<Message>, seen: set<string>)
    ensures Dropped(ms, seen) == WithoutOrphans(ms, seen) <==> !RolelessAfterOrphan(ms, seen)
  {
    if ms != [] {
      if Orphan(ms[0], seen) {
        assert seen + Ids(ms[0]) == seen;
        assert WithoutOrphans(ms, seen) == WithoutOrphans(ms[1..], seen);
        CopyLoss(ms[1..], seen);
      } else {
        var tail, more := ms[1..], seen + Ids(ms[0]);
        DropIsFilterIff(tail, more);
        ConsInjective(ms[0], Dropped(tail, more), WithoutOrphans(tail, more));
      }
    }
  }

  /** Dropping never disturbs the declarations, nor makes two of them clash. */
  lemma {:induction false} DropKeepsUnique(ms: seq<Message>, seen: set<string>)
    requires UniqueIds(ms, seen)
    ensures UniqueIds(KeptAfterCopy(ms, seen), seen) && UniqueIds(Dropped(ms, seen), seen)
  {
    if ms != [] {
      DropKeepsUnique(ms[1..], seen + Ids(ms[0]));
      if ms[0].role.NoRole? || Orphan(ms[0], seen) {
        assert seen + Ids(ms[0]) == seen;
      }
    }
  }

  /** Answers to what has been declared are never dropped. */
  lemma {:induction false} AnswersStay(ms: seq<Message>, seen: set<string>)
    ensures AnsweredIn(ms) * seen <= AnsweredIn(KeptAfterCopy(ms, seen))
    ensures AnsweredIn(ms) * seen <= AnsweredIn(Dropped(ms, seen))
  {
    hide Ids;
    if ms != [] {
      var tail, more := ms[1..], seen + Ids(ms[0]);
      AnswersStay(tail, more);
      DeclaresNothing(ms[0], seen);
      assert AnsweredIn(ms) == AnswerIds(ms[0]) + AnsweredIn(tail);
    }
  }

  /** So questions that were answered later still are. */
  lemma {:induction false} DropKeepsFollows(ms: seq<Message>, seen: set<string>)
    requires Follows(ms)
    ensures Follows(KeptAfterCopy(ms, seen)) && Follows(Dropped(ms, seen))
  {
    hide Ids;
    if ms != [] {
      var tail, more := ms[1..], seen + Ids(ms[0]);
      DropKeepsFollows(tail, more);
      DropKeepsFollows(tail, seen);
      AnswersStay(tail, more);
    }
  }

  lemma {:induction false} DroppedAreMembers(ms: seq<Message>, seen: set<string>)
    ensures forall m :: m in KeptAfterCopy(ms, seen) ==> m in ms
    ensures forall m :: m in Dropped(ms, seen) ==> m in ms
  {
    hide Ids;
    if ms != [] {
      DroppedAreMembers(ms[1..], seen + Ids(ms[0]));
      DroppedAreMembers(ms[1..], seen);
    }
  }

  /** A note without a role disappears together with the stray result in front of it. */
  lemma RolelessVanishes() returns (ms: seq<Message>, note: Message)
    ensures note in ms && note.role.NoRole? && note in WithoutOrphans(ms, {}) && Dropped(ms, {}) == []
  {
    var stray := Message(Tool, Some("x"), None, None, None, None, None, map[]);
    note := Message(NoRole, None, None, None, None, Some(Text("note")), None, map[]);
    ms := [stray, note];
    assert ms[1..] == [note] && [note][1..] == [] && Orphan(stray, {}) && !Orphan(note, {});
    assert Ids(stray) == {} && Ids(note) == {};
    assert KeptAfterCopy([note], {}) == [];
    assert WithoutOrphans([note], {}) == [note] + [];
    assert WithoutOrphans(ms, {}) == [] + WithoutOrphans([note], {} + Ids(stray));
    assert {} + Ids(stray) == {};
  }

  /** The filter goes through the list in order, and leaves out a message exactly if it is a tool result with a
      non-empty id that nothing before it declares. */
  lemma {:induction false} FilterInOrder(a: seq<Message>, b: seq<Message>, seen: set<string>)
    ensures WithoutOrphans(a + b, seen) == WithoutOrphans(a, seen) + WithoutOrphans(b, seen + DeclaredIn(a))
    ensures |a| == 1 && Answer(a[0]).Some? && Answer(a[0]).value != "" && Answer(a[0]).value !in seen ==>
      WithoutOrphans(a, seen) == []
    ensures |a| == 1 && (Answer(a[0]).None? || Answer(a[0]).value == "" || Answer(a[0]).value in seen) ==>
      WithoutOrphans(a, seen) == a
  {
    hide Ids;
    if a == [] {
      assert a + b == b && seen + DeclaredIn(a) == seen;
    } else {
      var tail, more := a[1..], seen + Ids(a[0]);
      assert (a + b)[0] == a[0] && (a + b)[1..] == tail + b;
      FilterInOrder(tail, b, more);
      assert more + DeclaredIn(tail) == seen + DeclaredIn(a);
      Reassociate(if Orphan(a[0], seen) then [] else [a[0]], WithoutOrphans(tail, more),
                  WithoutOrphans(b, seen + DeclaredIn(a)));
      if |a| == 1 {
        assert tail == [] && a == [a[0]];
      }
    }
  }
}
