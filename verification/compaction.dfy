/** `microcompact` and `apply_tool_result_budget`: passes that rewrite the content of tool results in
    place and must leave the pairing of calls and results alone. */
module Compaction {
  import opened Basics
  import opened Messages

  const KEEP_RECENT := 10
  const MIN_BYTES := 500
  const COMPACTABLE_TOOLS := ["read_file", "exec", "grep", "web_search", "web_fetch", "list_dir"]

  // ---- microcompact ----

  /** Length of a string in UTF-8, which is what the size threshold counts. */
  function Utf8Length(s: string): nat {
    if s == "" then 0
    else
      var c := s[0] as int;
      (if c < 0x80 then 1 else if c < 0x800 then 2 else if c < 0x10000 then 3 else 4) + Utf8Length(s[1..])
  }

  predicate Compactable(m: Message) {
    m.role.Tool? && m.name.Some? && m.name.value in COMPACTABLE_TOOLS
  }

  function CompactableCount(ms: seq<Message>): nat {
    if ms == [] then 0 else (if Compactable(ms[0]) then 1 else 0) + CompactableCount(ms[1..])
  }

  predicate Long(m: Message) {
    AsText(m.content).Some? && Utf8Length(AsText(m.content).value) >= MIN_BYTES
  }

  function Summary(name: string): string {
    "[" + name + " result omitted from context]"
  }

  function Summarized(m: Message): Message
    requires m.name.Some?
  {
    Message(Tool, m.toolCallId, m.number, m.name, None, Some(Text(Summary(m.name.value))), None, map[])
  }

  /** A long compactable result with at least ten more compactable results after it. */
  predicate Stale(ms: seq<Message>, i: nat)
    requires i < |ms|
  {
    Compactable(ms[i]) && Long(ms[i]) && CompactableCount(ms[i + 1..]) >= KEEP_RECENT
  }

  ghost predicate IsMicrocompacted(ms: seq<Message>, r: seq<Message>) {
    |r| == |ms| && forall i :: 0 <= i < |ms| ==> r[i] == if Stale(ms, i) then Summarized(ms[i]) else ms[i]
  }

  method Microcompact(messages: seq<Message>) returns (compacted: seq<Message>)
    ensures IsMicrocompacted(messages, compacted)
  {
    hide *;
    var indices := CompactableIndices(messages);
    var stale := AllButRecent(indices);
    StaleIndices(messages);
    compacted := SummarizeAt(messages, stale);
    RewrittenIsMicrocompacted(messages, compacted);
  }

  method CompactableIndices(messages: seq<Message>) returns (indices: seq<nat>)
    ensures indices == IndicesFrom(messages, 0)
  {
    hide Compactable;
    indices := [];
    for i := 0 to |messages|
      invariant indices + IndicesFrom(messages[i..], i) == IndicesFrom(messages, 0)
    {
      SplitAt(messages, i);
      SnocThenAppend(indices, i, IndicesFrom(messages[i + 1..], i + 1));
      if Compactable(messages[i]) {
        indices := indices + [i];
      }
    }
    assert indices + [] == indices;
  }

  /** Summarizes the long messages among `stale`, copying the list only when the first one is found. */
  method SummarizeAt(messages: seq<Message>, stale: seq<nat>) returns (r: seq<Message>)
    requires forall i :: i in stale ==> i < |messages| && messages[i].name.Some?
    ensures Rewritten(messages, stale, r)
  {
    hide Long, Summarized;
    var updated: Option<seq<Message>> := None;
    for k := 0 to |stale|
      invariant Rewritten(messages, stale[..k], if updated.None? then messages else updated.value)
    {
      var idx := stale[k];
      assert idx in stale;
      SplitAt(stale, k);
      if Long(messages[idx]) {
        var u := if updated.None? then messages else updated.value;
        updated := Some(u[idx := Summarized(messages[idx])]);
      }
    }
    assert stale[..|stale|] == stale;
    r := if updated.None? then messages else updated.value;
  }

  /** `r` is `ms` with the long messages at the indices `done` summarized. */
  ghost predicate Rewritten(ms: seq<Message>, done: seq<nat>, r: seq<Message>) {
    && |r| == |ms|
    && forall i :: 0 <= i < |ms| ==>
      r[i] == if i in done && Long(ms[i]) && ms[i].name.Some? then Summarized(ms[i]) else ms[i]
  }

  /** Indices of the compactable messages of `ms`, whose first message has index `base`. */
  ghost function IndicesFrom(ms: seq<Message>, base: nat): seq<nat> {
    if ms == [] then [] else (if Compactable(ms[0]) then [base] else []) + IndicesFrom(ms[1..], base + 1)
  }

  function AllButRecent(indices: seq<nat>): seq<nat> {
    if |indices| <= KEEP_RECENT then [] else indices[..|indices| - KEEP_RECENT]
  }

  predicate Outranked(ms: seq<Message>, i: nat)
    requires i < |ms|
  {
    Compactable(ms[i]) && CompactableCount(ms[i + 1..]) >= KEEP_RECENT
  }

  /** Indices with ten compactable messages behind them. */
  ghost function OutrankedFrom(ms: seq<Message>, base: nat): seq<nat> {
    if ms == [] then [] else (if Outranked(ms, 0) then [base] else []) + OutrankedFrom(ms[1..], base + 1)
  }

  lemma {:induction false} IndexCount(ms: seq<Message>, base: nat)
    ensures |IndicesFrom(ms, base)| == CompactableCount(ms)
  {
    if ms != [] {
      IndexCount(ms[1..], base + 1);
    }
  }

  /** Being among all but the last ten indices is having ten compactable messages behind one. */
  lemma {:induction false} OutrankedAreAllButRecent(ms: seq<Message>, base: nat)
    ensures OutrankedFrom(ms, base) == AllButRecent(IndicesFrom(ms, base))
  {
    hide Compactable;
    if ms != [] {
      var rest := IndicesFrom(ms[1..], base + 1);
      OutrankedAreAllButRecent(ms[1..], base + 1);
      IndexCount(ms[1..], base + 1);
      if Compactable(ms[0]) && |rest| >= KEEP_RECENT {
        assert ([base] + rest)[..|rest| + 1 - KEEP_RECENT] == [base] + rest[..|rest| - KEEP_RECENT];
      }
    }
  }

  lemma {:induction false} OutrankedMembers(ms: seq<Message>, base: nat, i: nat)
    ensures i in OutrankedFrom(ms, base) <==> base <= i < base + |ms| && Outranked(ms, i - base)
  {
    hide Compactable;
    if ms != [] {
      OutrankedMembers(ms[1..], base + 1, i);
      if base < i < base + |ms| {
        assert ms[1..][i - (base + 1)] == ms[i - base];
        assert ms[1..][i - (base + 1) + 1..] == ms[i - base + 1..];
      }
    }
  }

  lemma StaleIndices(ms: seq<Message>)
    ensures forall i :: i in AllButRecent(IndicesFrom(ms, 0)) <==> 0 <= i < |ms| && Outranked(ms, i)
    ensures forall i :: i in AllButRecent(IndicesFrom(ms, 0)) ==> ms[i].name.Some?
  {
    hide AllButRecent, IndicesFrom, CompactableCount;
    OutrankedAreAllButRecent(ms, 0);
    forall i: nat ensures i in OutrankedFrom(ms, 0) <==> i < |ms| && Outranked(ms, i) {
      OutrankedMembers(ms, 0, i);
    }
  }

  lemma RewrittenIsMicrocompacted(ms: seq<Message>, r: seq<Message>)
    requires Rewritten(ms, AllButRecent(IndicesFrom(ms, 0)), r)
    ensures IsMicrocompacted(ms, r)
  {
    hide AllButRecent, IndicesFrom, Compactable, Long, Summarized;
    StaleIndices(ms);
    forall i | 0 <= i < |ms| ensures r[i] == if Stale(ms, i) then Summarized(ms[i]) else ms[i] {
      assert Stale(ms, i) <==> Outranked(ms, i) && Long(ms[i]);
    }
  }

  lemma {:induction false} Utf8Bound(s: string)
    ensures Utf8Length(s) <= 4 * |s|
  {
    if s != "" {
      Utf8Bound(s[1..]);
    }
  }

  lemma SummaryIsShort(m: Message)
    requires Compactable(m)
    ensures !Long(Summarized(m))
  {
    assert |m.name.value| <= 10;
    Utf8Bound(Summary(m.name.value));
  }

  lemma {:induction false} SameCount(a: seq<Message>, b: seq<Message>)
    requires |a| == |b| && forall i :: 0 <= i < |a| ==> Compactable(a[i]) == Compactable(b[i])
    ensures CompactableCount(a) == CompactableCount(b)
  {
    if a != [] {
      SameCount(a[1..], b[1..]);
    }
  }

  /** Compacting a compacted history changes nothing. */
  lemma MicrocompactIdempotent(ms: seq<Message>, once: seq<Message>, twice: seq<Message>)
    requires IsMicrocompacted(ms, once) && IsMicrocompacted(once, twice)
    ensures twice == once
  {
    forall i | 0 <= i < |ms| ensures Compactable(ms[i]) == Compactable(once[i]) {
      assert Stale(ms, i) || !Stale(ms, i);
    }
    forall i | 0 <= i < |once| ensures !Stale(once, i) {
      SameCount(ms[i + 1..], once[i + 1..]);
      if Stale(ms, i) {
        SummaryIsShort(ms[i]);
      }
    }
  }

  // ---- apply_tool_result_budget ----

  /** Turns a result's id, tool name and content into the content to show; it may write files. */
  type Normalizer = (string, string, Json) -> Json

  function BudgetedContent(normalize: Normalizer, idx: nat, m: Message): Json {
    normalize(
      if m.toolCallId.Some? then m.toolCallId.value else "tool_" + Decimal(idx),
      if m.name.Some? then m.name.value else "tool",
      if m.content.Some? then m.content.value else Null)
  }

  function Budgeted(normalize: Normalizer, idx: nat, m: Message): Message {
    if m.role.Tool? then m.(content := Some(BudgetedContent(normalize, idx, m))) else m
  }

  ghost predicate IsBudgeted(normalize: Normalizer, ms: seq<Message>, n: nat, r: seq<Message>) {
    |r| == |ms| && forall i :: 0 <= i < |ms| ==> r[i] == if i < n then Budgeted(normalize, i, ms[i]) else ms[i]
  }

  method ApplyToolResultBudget(normalize: Normalizer, messages: seq<Message>) returns (budgeted: seq<Message>)
    ensures IsBudgeted(normalize, messages, |messages|, budgeted)
  {
    hide BudgetedContent;
    var updated: Option<seq<Message>> := None;
    for idx := 0 to |messages|
      invariant IsBudgeted(normalize, messages, idx, if updated.None? then messages else updated.value)
    {
      var msg := messages[idx];
      if !msg.role.Tool? {
        continue;
      }
      var normalized := BudgetedContent(normalize, idx, msg);
      if Some(normalized) == msg.content {
        continue;
      }
      var u := if updated.None? then messages else updated.value;
      updated := Some(u[idx := msg.(content := Some(normalized))]);
    }
    budgeted := if updated.None? then messages else updated.value;
  }

  // ---- Pairing sees only roles, ids and declarations ----

  ghost predicate SameSkeleton(a: seq<Message>, b: seq<Message>) {
    && |a| == |b|
    && forall i :: 0 <= i < |a| ==>
      a[i].role == b[i].role && a[i].toolCallId == b[i].toolCallId && Refs(a[i]) == Refs(b[i])
  }

  lemma {:induction false} SkeletonDecides(a: seq<Message>, b: seq<Message>, seen: set<string>)
    requires SameSkeleton(a, b)
    ensures DeclaredIn(a) == DeclaredIn(b) && AnsweredIn(a) == AnsweredIn(b)
    ensures Legal(a, seen) <==> Legal(b, seen)
    ensures UniqueIds(a, seen) <==> UniqueIds(b, seen)
    ensures Follows(a) <==> Follows(b)
  {
    if a != [] {
      assert a[0].role == b[0].role && Refs(a[0]) == Refs(b[0]);
      SkeletonDecides(a[1..], b[1..], seen + Ids(a[0]));
    }
  }

  /** Neither pass touches a role, an id or a declaration. */
  lemma PassesKeepSkeleton(normalize: Normalizer, ms: seq<Message>, compacted: seq<Message>, budgeted: seq<Message>)
    requires IsMicrocompacted(ms, compacted) && IsBudgeted(normalize, compacted, |compacted|, budgeted)
    ensures SameSkeleton(ms, compacted) && SameSkeleton(ms, budgeted)
  {
    forall i | 0 <= i < |ms|
      ensures compacted[i].role == ms[i].role && compacted[i].toolCallId == ms[i].toolCallId
      ensures Refs(compacted[i]) == Refs(ms[i])
    {
      assert Stale(ms, i) || !Stale(ms, i);
    }
  }

  // ---- The same, counted on the whole list ----

  /** A result of one of the tools whose output is worth compacting. */
  predicate FromBigTool(m: Message) {
    m.role.Tool? && m.name in {
      Some("read_file"), Some("exec"), Some("grep"), Some("web_search"), Some("web_fetch"), Some("list_dir")}
  }

  lemma BigToolIsCompactable(m: Message)
    ensures FromBigTool(m) <==> Compactable(m)
  {
  }

  lemma {:induction false} CountIsNumber(ms: seq<Message>, from: nat)
    requires from <= |ms|
    ensures CompactableCount(ms[from..]) == |set j | from <= j < |ms| && FromBigTool(ms[j])|
    decreases |ms| - from
  {
    hide FromBigTool, Compactable;
    var here := set j | from <= j < |ms| && FromBigTool(ms[j]);
    if from < |ms| {
      SplitAt(ms, from);
      CountIsNumber(ms, from + 1);
      BigToolIsCompactable(ms[from]);
      var later := set j | from + 1 <= j < |ms| && FromBigTool(ms[j]);
      assert here == if FromBigTool(ms[from]) then later + {from} else later;
    } else {
      assert here == {};
    }
  }

  /** A result is replaced exactly when its tool is one of those named, its text takes at least 500 bytes, and
      ten or more results of such tools come after it; the replacement keeps its id and name and says so. */
  lemma MicrocompactSays(ms: seq<Message>, r: seq<Message>, i: nat)
    requires IsMicrocompacted(ms, r) && i < |ms|
    ensures var text := AsText(ms[i].content);
            if FromBigTool(ms[i]) && text.Some? && Utf8Length(text.value) >= 500 &&
               |set j | i < j < |ms| && FromBigTool(ms[j])| >= 10
            then && r[i].role == ms[i].role && r[i].toolCallId == ms[i].toolCallId && r[i].number == ms[i].number
                 && r[i].name == ms[i].name && r[i].calls.None?
                 && AsText(r[i].content) == Some("[" + ms[i].name.value + " result omitted from context]")
            else r[i] == ms[i]
  {
    hide FromBigTool, Compactable, CompactableCount, Utf8Length;
    BigToolIsCompactable(ms[i]);
    CountIsNumber(ms, i + 1);
    assert (set j | i < j < |ms| && FromBigTool(ms[j])) == set j | i + 1 <= j < |ms| && FromBigTool(ms[j]);
    NamedTool(ms[i]);
    assert Stale(ms, i) || !Stale(ms, i);
  }

  lemma NamedTool(m: Message)
    ensures FromBigTool(m) ==> m.role.Tool? && m.name.Some?
  {
  }

  /** Bytes of a text: one per ASCII character, up to four for others, added up. */
  lemma {:induction false} Utf8Counts(s: string, t: string)
    ensures Utf8Length(s + t) == Utf8Length(s) + Utf8Length(t)
    ensures (forall c :: c in s ==> c as int < 0x80) ==> Utf8Length(s) == |s|
    ensures |s| <= Utf8Length(s) <= 4 * |s|
    ensures |s| == 1 ==> (Utf8Length(s) <= 2 <==> s[0] as int < 0x800)
    ensures |s| == 1 ==> (Utf8Length(s) == 4 <==> s[0] as int >= 0x10000)
  {
    if s == "" {
      assert s + t == t;
    } else {
      assert (s + t)[0] == s[0] && (s + t)[1..] == s[1..] + t;
      Utf8Counts(s[1..], t);
      assert s[0] in s && forall c :: c in s[1..] ==> c in s;
    }
  }

  /** Exactly the content of tool messages is normalized, under the result's own id and tool name; a result
      without an id goes by its index, one without a name is called "tool". */
  lemma BudgetSays(normalize: Normalizer, ms: seq<Message>, r: seq<Message>, i: nat)
    requires IsBudgeted(normalize, ms, |ms|, r) && i < |ms|
    ensures r[i] == ms[i].(content := r[i].content)
    ensures !ms[i].role.Tool? ==> r[i] == ms[i]
    ensures forall id, name, content ::
      ms[i].role.Tool? && ms[i].toolCallId == Some(id) && ms[i].name == Some(name) && ms[i].content == Some(content) ==>
        r[i].content == Some(normalize(id, name, content))
    ensures ms[i].role.Tool? && ms[i].toolCallId.None? && ms[i].name.None? && ms[i].content.None? ==>
      r[i].content == Some(normalize("tool_" + Decimal(i), "tool", Null))
  {
  }
}
