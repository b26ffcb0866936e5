/** `snip_history` and `find_legal_message_start`: cut the history down to a token budget. */
module Snip {
  import opened Basics
  import opened Messages

  const SAFETY_BUFFER := 1024
  const DEFAULT_MAX_TOKENS := 4096
  const MIN_BUDGET := 128
  const FALLBACK_MESSAGES := 4

  /** The token settings of a run; each is a 32-bit unsigned number in the source. */
  datatype Limits = Limits(contextWindow: Option<nat>, maxTokens: Option<nat>, blockLimit: Option<nat>)

  /** The two token estimators, for a whole prompt and for one message. */
  datatype Estimator = Estimator(prompt: seq<Message> -> nat, message: Message -> nat)

  function SaturatingSub(a: nat, b: nat): nat {
    if a < b then 0 else a - b
  }

  /** The token budget, or `None` when snipping is off. */
  function Budget(limits: Limits): Option<nat> {
    if limits.contextWindow.None? || limits.contextWindow.value == 0 then None
    else
      var reply := if limits.maxTokens.Some? then limits.maxTokens.value else DEFAULT_MAX_TOKENS;
      var budget := if limits.blockLimit.Some? then limits.blockLimit.value
                    else SaturatingSub(SaturatingSub(limits.contextWindow.value, reply), SAFETY_BUFFER);
      if budget == 0 then None else Some(budget)
  }

  function SystemOnly(ms: seq<Message>): seq<Message> {
    if ms == [] then [] else (if ms[0].role.System? then [ms[0]] else []) + SystemOnly(ms[1..])
  }

  function NonSystem(ms: seq<Message>): seq<Message> {
    if ms == [] then [] else (if ms[0].role.System? then [] else [ms[0]]) + NonSystem(ms[1..])
  }

  function Tokens(est: Estimator, ms: seq<Message>): nat {
    if ms == [] then 0 else est.message(ms[0]) + Tokens(est, ms[1..])
  }

  // ---- The simple definitions the loops refine ----

  /** Start of the longest suffix that fits, or of the last message alone if none does. */
  function LongestWindow(est: Estimator, ms: seq<Message>, room: nat): (k: nat)
    requires ms != []
    ensures k < |ms|
  {
    if |ms| == 1 || Tokens(est, ms) <= room then 0 else 1 + LongestWindow(est, ms[1..], room)
  }

  /** The first suffix without an orphan tool result. */
  function LegalStart(ms: seq<Message>): (s: nat)
    ensures s <= |ms| && Legal(ms[s..], {})
  {
    if Legal(ms, {}) then 0 else 1 + LegalStart(ms[1..])
  }

  /** Index of the first user message from `k` on, or the length. */
  function FirstUser(ms: seq<Message>, k: nat): (u: nat)
    requires k <= |ms|
    ensures k <= u <= |ms| && (u < |ms| ==> ms[u].role.User?)
    decreases |ms| - k
  {
    if k == |ms| || ms[k].role.User? then k else FirstUser(ms, k + 1)
  }

  /** Index of the last user message before `k`. */
  function LastUser(ms: seq<Message>, k: nat): (u: Option<nat>)
    requires k <= |ms|
    ensures u.Some? ==> u.value < k && ms[u.value].role.User?
    ensures u.None? ==> forall i :: 0 <= i < k ==> !ms[i].role.User?
  {
    if k == 0 then None else if ms[k - 1].role.User? then Some(k - 1) else LastUser(ms, k - 1)
  }

  /** Slide a window start to a user message: forward inside the window, else back to the nearest. */
  function UserStart(ms: seq<Message>, k: nat): (u: nat)
    requires k < |ms|
    ensures u < |ms|
  {
    if FirstUser(ms, k) < |ms| then FirstUser(ms, k)
    else match LastUser(ms, |ms|)
      case Some(u) => u
      case None => k
  }

  /** The legal start of the suffix at `from`, with integer ids spelled out, counted in the whole list. */
  function LegalStartFrom(ms: seq<Message>, from: nat): (s: nat)
    requires from <= |ms|
    ensures from <= s <= |ms| && Legal(AllSpelled(ms[s..]), {})
  {
    hide Legal, AllSpelled;
    var spelled := AllSpelled(ms[from..]);
    AllSpelledSuffix(ms[from..], LegalStart(spelled));
    SuffixOfSuffix(ms, from, LegalStart(spelled));
    from + LegalStart(spelled)
  }

  function FallbackStart(ms: seq<Message>): (f: nat)
    ensures f <= |ms|
  {
    if |ms| <= FALLBACK_MESSAGES then 0 else |ms| - FALLBACK_MESSAGES
  }

  /** Where the kept part of the non-system messages starts, for a window starting at `k`. */
  function KeptStart(ms: seq<Message>, k: nat): (s: nat)
    requires k < |ms|
    ensures s <= |ms| && Legal(AllSpelled(ms[s..]), {})
  {
    hide Legal, AllSpelled, LegalStartFrom;
    var s := LegalStartFrom(ms, UserStart(ms, k));
    if s < |ms| then s else LegalStartFrom(ms, FallbackStart(ms))
  }

  function Room(est: Estimator, budget: nat, system: seq<Message>): nat {
    SaturatingSub(if budget < MIN_BUDGET then MIN_BUDGET else budget, Tokens(est, system))
  }

  predicate Unsnipped(est: Estimator, limits: Limits, ms: seq<Message>) {
    Budget(limits).None? || est.prompt(ms) <= Budget(limits).value || NonSystem(ms) == []
  }

  function Snipped(est: Estimator, limits: Limits, ms: seq<Message>): seq<Message> {
    if Unsnipped(est, limits, ms) then ms
    else
      var system, others := SystemOnly(ms), NonSystem(ms);
      var k := LongestWindow(est, others, Room(est, Budget(limits).value, system));
      system + others[KeptStart(others, k)..]
  }

  // ---- The code ----

  method FindLegalMessageStart(messages: seq<Message>) returns (start: nat)
    ensures start == LegalStart(AllSpelled(messages)) && start <= |messages|
  {
    hide *;
    var declared: set<string> := {};
    start := 0;
    ghost var spelled := AllSpelled(messages);
    assert spelled[0..0] == [];
    NothingDeclared();
    for i := 0 to |messages|
      invariant start <= i
      invariant declared == DeclaredIn(spelled[start..i]) && Legal(spelled[start..i], {})
      invariant forall s :: 0 <= s < start ==> !Legal(spelled[s..], {})
    {
      var msg := Spelled(messages[i]);
      SpelledRole(messages[i]);
      if messages[i].role.Assistant? {
        NotAnOrphan(msg, declared);
        LegalExtend(spelled, start, i);
        declared := declared + Ids(msg);
      } else if Orphan(msg, declared) {
        // The source re-scans `messages[start..=i]` here, which is empty.
        OrphanRulesOut(spelled, start, i);
        start := i + 1;
        declared := {};
        assert spelled[start..i + 1] == [];
        NothingDeclared();
      } else {
        LegalExtend(spelled, start, i);
      }
    }
    assert spelled[start..|messages|] == spelled[start..];
    LeastLegalStart(spelled, start);
  }

  lemma SpelledRole(m: Message)
    ensures Spelled(m).role == m.role
  {
  }

  lemma LegalExtend(ms: seq<Message>, start: nat, i: nat)
    requires start <= i < |ms| && Legal(ms[start..i], {}) && !Orphan(ms[i], DeclaredIn(ms[start..i]))
    ensures Legal(ms[start..i + 1], {}) && DeclaredIn(ms[start..i + 1]) == DeclaredIn(ms[start..i]) + Ids(ms[i])
    ensures !ms[i].role.Assistant? ==> DeclaredIn(ms[start..i + 1]) == DeclaredIn(ms[start..i])
  {
    hide *;
    assert ms[start..i + 1] == ms[start..i] + [ms[i]];
    LegalSnoc(ms[start..i], ms[i], {});
    assert {} + DeclaredIn(ms[start..i]) == DeclaredIn(ms[start..i]);
    if !ms[i].role.Assistant? {
      NoDeclaration(ms[i]);
    }
  }

  lemma NotAnOrphan(m: Message, seen: set<string>)
    requires m.role.Assistant?
    ensures !Orphan(m, seen)
  {
  }

  /** An orphan at `i` is an orphan of every suffix that still contains it. */
  lemma OrphanRulesOut(ms: seq<Message>, start: nat, i: nat)
    requires start <= i < |ms| && Orphan(ms[i], DeclaredIn(ms[start..i]))
    ensures forall s :: start <= s <= i ==> !Legal(ms[s..], {})
  {
    forall s | start <= s <= i ensures !Legal(ms[s..], {}) {
      assert ms[start..i] == ms[start..s] + ms[s..i] && ms[s..] == ms[s..i] + ms[i..];
      DeclaredConcat(ms[start..s], ms[s..i]);
      LegalConcat(ms[s..i], ms[i..], {});
    }
  }

  lemma {:induction false} LeastLegalStart(ms: seq<Message>, start: nat)
    requires start <= |ms| && Legal(ms[start..], {}) && forall s :: 0 <= s < start ==> !Legal(ms[s..], {})
    ensures LegalStart(ms) == start
  {
    assert ms[0..] == ms;
    if start > 0 {
      assert forall s :: 0 <= s < start ==> !Legal(ms[s..], {});
      assert !Legal(ms[0..], {});
      forall s | 0 <= s < start - 1 ensures !Legal(ms[1..][s..], {}) {
        assert ms[1..][s..] == ms[s + 1..];
      }
      assert ms[1..][start - 1..] == ms[start..];
      LeastLegalStart(ms[1..], start - 1);
    }
  }

  /** The backward greedy loop. */
  method TakeWindow(est: Estimator, others: seq<Message>, room: nat) returns (kept: seq<Message>)
    requires others != []
    ensures kept == others[LongestWindow(est, others, room)..]
  {
    kept := [];
    var keptTokens := 0;
    var i := |others|;
    while i > 0
      invariant 0 <= i <= |others| && kept == others[i..] && keptTokens == Tokens(est, kept)
      invariant i < |others| - 1 ==> keptTokens <= room
    {
      var message := others[i - 1];
      var tokens := est.message(message);
      SplitAt(others, i - 1);
      if kept != [] && keptTokens + tokens > room {
        break;
      }
      kept := [message] + kept;
      keptTokens := keptTokens + tokens;
      i := i - 1;
    }
    WindowFound(est, others, room, i);
  }

  lemma {:induction false} TokensDrop(est: Estimator, ms: seq<Message>, k: nat)
    requires k <= |ms|
    ensures Tokens(est, ms[k..]) <= Tokens(est, ms)
  {
    if k == 0 {
      assert ms[0..] == ms;
    } else {
      TokensDrop(est, ms[1..], k - 1);
      assert ms[1..][k - 1..] == ms[k..];
    }
  }

  lemma {:induction false} WindowFound(est: Estimator, ms: seq<Message>, room: nat, k: nat)
    requires k < |ms| && (k == |ms| - 1 || Tokens(est, ms[k..]) <= room)
    requires k > 0 ==> Tokens(est, ms[k - 1..]) > room
    ensures LongestWindow(est, ms, room) == k
  {
    if k == 0 {
      assert ms[0..] == ms;
    } else {
      TokensDrop(est, ms, k - 1);
      assert ms[1..][k - 1..] == ms[k..];
      if k > 1 {
        assert ms[1..][k - 2..] == ms[k - 1..];
      }
      WindowFound(est, ms[1..], room, k - 1);
    }
  }

  method SnipHistory(est: Estimator, limits: Limits, messages: seq<Message>) returns (result: seq<Message>)
    ensures result == Snipped(est, limits, messages)
  {
    var budget := Budget(limits);
    if budget.None? {
      return messages;
    }
    if est.prompt(messages) <= budget.value {
      return messages;
    }
    var system := SystemOnly(messages);
    var others := NonSystem(messages);
    if others == [] {
      return messages;
    }
    var room := Room(est, budget.value, system);
    var kept := TakeWindow(est, others, room);
    kept := AlignWindow(others, LongestWindow(est, others, room), kept);
    result := system + kept;
  }

  /** Everything after the greedy loop: align to a user message, then to a legal start. */
  method AlignWindow(others: seq<Message>, ghost k: nat, window: seq<Message>) returns (kept: seq<Message>)
    requires k < |others| && window == others[k..]
    ensures kept == others[KeptStart(others, k)..]
  {
    hide Legal, UserStart, LegalStartFrom, AllSpelled;
    kept := AlignToUser(others, k, window);
    kept := FromLegalStart(others, UserStart(others, k), kept);
    if kept == [] {
      var keep := if |others| <= FALLBACK_MESSAGES then |others| else FALLBACK_MESSAGES;
      kept := FromLegalStart(others, |others| - keep, others[|others| - keep..]);
    }
  }

  method FromLegalStart(ghost others: seq<Message>, ghost from: nat, suffix: seq<Message>) returns (kept: seq<Message>)
    requires from <= |others| && suffix == others[from..]
    ensures kept == others[LegalStartFrom(others, from)..]
  {
    hide Legal, LegalStart, AllSpelled;
    var start := FindLegalMessageStart(suffix);
    SuffixOfSuffix(others, from, start);
    kept := suffix[start..];
  }

  method AlignToUser(others: seq<Message>, ghost k: nat, window: seq<Message>) returns (kept: seq<Message>)
    requires k < |others| && window == others[k..]
    ensures kept == others[UserStart(others, k)..]
  {
    kept := window;
    var user := FirstUser(kept, 0);
    FirstUserShift(others, k, 0);
    if user < |kept| {
      SuffixOfSuffix(others, k, user);
      kept := kept[user..];
    } else {
      var last := LastUser(others, |others|);
      if last.Some? {
        kept := others[last.value..];
      }
    }
  }

  lemma {:induction false} FirstUserShift(ms: seq<Message>, k: nat, i: nat)
    requires k + i <= |ms|
    ensures FirstUser(ms[k..], i) + k == FirstUser(ms, k + i)
    decreases |ms| - i
  {
    if k + i < |ms| && !ms[k + i].role.User? {
      FirstUserShift(ms, k, i + 1);
    }
  }

  // ---- What snipping promises ----

  /** The window is the longest suffix within the room, or the last message when even that is too big. */
  lemma {:induction false} WindowIsLongest(est: Estimator, ms: seq<Message>, room: nat)
    requires ms != []
    ensures var k := LongestWindow(est, ms, room);
            && (Tokens(est, ms[k..]) <= room || k == |ms| - 1)
            && forall longer :: 0 <= longer < k ==> Tokens(est, ms[longer..]) > room
  {
    var k := LongestWindow(est, ms, room);
    assert ms[0..] == ms;
    if k > 0 {
      WindowIsLongest(est, ms[1..], room);
      assert ms[1..][k - 1..] == ms[k..];
      forall longer | 0 <= longer < k ensures Tokens(est, ms[longer..]) > room {
        if longer > 0 {
          assert ms[1..][longer - 1..] == ms[longer..];
        }
      }
    }
  }

  lemma {:induction false} FirstUserIsFirst(ms: seq<Message>, k: nat, i: nat)
    requires k <= |ms| && k <= i < FirstUser(ms, k)
    ensures !ms[i].role.User?
    decreases |ms| - k
  {
    if k < i {
      FirstUserIsFirst(ms, k + 1, i);
    }
  }

  lemma {:induction false} LastUserIsLast(ms: seq<Message>, k: nat, i: nat)
    requires i < k <= |ms| && ms[i].role.User?
    ensures LastUser(ms, k).Some? && i <= LastUser(ms, k).value
  {
    if i < k - 1 && !ms[k - 1].role.User? {
      LastUserIsLast(ms, k - 1, i);
    }
  }

  /** The window is aligned to the first user message inside it or, if it has none, to the last one
      before it. */
  lemma UserStartIsNearest(ms: seq<Message>, k: nat, i: nat)
    requires k < |ms| && i < |ms| && ms[i].role.User?
    ensures var u := UserStart(ms, k);
            ms[u].role.User? && (if k <= i then k <= u <= i else u < k ==> i <= u)
  {
    LastUserIsLast(ms, |ms|, i);
    if k <= i < FirstUser(ms, k) {
      FirstUserIsFirst(ms, k, i);
    }
  }

  /** When a user message exists, the kept part starts with one exactly if no orphan follows the user
      message the window was aligned to. */
  lemma StartsWithUserIff(ms: seq<Message>, k: nat)
    requires k < |ms| && exists m :: m in ms && m.role.User?
    ensures ms[UserStart(ms, k)].role.User?
    ensures Legal(AllSpelled(ms[UserStart(ms, k)..]), {}) <==> KeptStart(ms, k) == UserStart(ms, k)
    ensures LegalStart(AllSpelled(ms[UserStart(ms, k)..])) == 0 ==>
              KeptStart(ms, k) < |ms| && ms[KeptStart(ms, k)].role.User?
  {
    hide AllSpelled;
    var m :| m in ms && m.role.User?;
    var i :| 0 <= i < |ms| && ms[i] == m;
    UserStartIsNearest(ms, k, i);
  }

  lemma {:induction false} SystemRoles(ms: seq<Message>)
    ensures forall m :: m in SystemOnly(ms) ==> m.role.System?
  {
    if ms != [] {
      SystemRoles(ms[1..]);
    }
  }

  lemma {:induction false} SystemPrefix(system: seq<Message>, ms: seq<Message>, seen: set<string>)
    requires forall m :: m in system ==> m.role.System?
    ensures Legal(ms, seen) ==> Legal(system + ms, seen)
    ensures UniqueIds(ms, seen) ==> UniqueIds(system + ms, seen)
    ensures Follows(ms) ==> Follows(system + ms)
  {
    if system == [] {
      assert system + ms == ms;
    } else {
      assert (system + ms)[1..] == system[1..] + ms;
      assert system[0] in system && seen + Ids(system[0]) == seen;
      SystemPrefix(system[1..], ms, seen);
    }
  }

  lemma {:induction false} NonSystemFollows(ms: seq<Message>)
    requires Follows(ms)
    ensures Follows(NonSystem(ms)) && AnsweredIn(NonSystem(ms)) == AnsweredIn(ms)
  {
    if ms != [] {
      NonSystemFollows(ms[1..]);
      if !ms[0].role.System? {
        assert NonSystem(ms)[1..] == NonSystem(ms[1..]);
      } else {
        assert NonSystem(ms) == NonSystem(ms[1..]);
      }
    }
  }

  /** Snipping keeps every system message and a suffix of the others, in which no result is an orphan once
      integer ids are spelled out. */
  lemma SnipKeepsSuffix(est: Estimator, limits: Limits, ms: seq<Message>) returns (s: nat)
    ensures s <= |NonSystem(ms)|
    ensures Snipped(est, limits, ms) == ms ||
            (Snipped(est, limits, ms) == SystemOnly(ms) + NonSystem(ms)[s..] &&
             Legal(AllSpelled(NonSystem(ms)[s..]), {}))
  {
    hide Legal, AllSpelled, KeptStart;
    s := 0;
    if !Unsnipped(est, limits, ms) {
      var others := NonSystem(ms);
      s := KeptStart(others, LongestWindow(est, others, Room(est, Budget(limits).value, SystemOnly(ms))));
    }
  }

  lemma {:induction false} SystemNeverClashes(system: seq<Message>, ms: seq<Message>)
    requires forall m :: m in system ==> m.role.System?
    ensures Clash(system + ms, {}, {}) <==> Clash(ms, {}, {})
    ensures Legal(system + ms, {}) <==> Legal(ms, {})
  {
    hide Spelled;
    if system == [] {
      assert system + ms == ms;
    } else {
      var m := system[0];
      assert (system + ms)[0] == m && (system + ms)[1..] == system[1..] + ms;
      SpelledRole(m);
      NoDeclaration(m);
      NoDeclaration(Spelled(m));
      assert {} + Ids(m) == {} && {} + Ids(Spelled(m)) == {};
      SystemNeverClashes(system[1..], ms);
    }
  }

  /** Snipping a list without orphans leaves none, unless a number poses as text in what is kept. */
  lemma SnipKeepsLegalIff(est: Estimator, limits: Limits, ms: seq<Message>)
    requires Legal(ms, {})
    ensures Legal(Snipped(est, limits, ms), {}) <==> !Clash(Snipped(est, limits, ms), {}, {})
  {
    hide Legal, AllSpelled, Snipped, Clash;
    var s := SnipKeepsSuffix(est, limits, ms);
    if Snipped(est, limits, ms) == ms {
      LegalNeverClashes(ms, {}, {});
    } else {
      var kept := NonSystem(ms)[s..];
      SystemRoles(ms);
      SystemNeverClashes(SystemOnly(ms), kept);
      LegalUnlessClash(kept, {}, {});
    }
  }

  lemma {:induction false} PartsAreMembers(ms: seq<Message>)
    ensures forall m :: m in SystemOnly(ms) ==> m in ms
    ensures forall m :: m in NonSystem(ms) ==> m in ms
  {
    if ms != [] {
      PartsAreMembers(ms[1..]);
    }
  }

  lemma SnippedAreMembers(est: Estimator, limits: Limits, ms: seq<Message>)
    ensures forall m :: m in Snipped(est, limits, ms) ==> m in ms
  {
    hide Legal, AllSpelled, Snipped;
    var s := SnipKeepsSuffix(est, limits, ms);
    PartsAreMembers(ms);
  }

  lemma SnipKeepsFollows(est: Estimator, limits: Limits, ms: seq<Message>)
    requires Follows(ms)
    ensures Follows(Snipped(est, limits, ms))
  {
    hide Snipped, AllSpelled, Legal;
    var s := SnipKeepsSuffix(est, limits, ms);
    NonSystemFollows(ms);
    FollowsSuffix(NonSystem(ms), s);
    SystemRoles(ms);
    SystemPrefix(SystemOnly(ms), NonSystem(ms)[s..], {});
  }

  // ---- The token budget, in the run's own settings ----

  /** The larger of two numbers. */
  function Max(a: int, b: int): int {
    if a < b then b else a
  }

  /** What the settings allow for the prompt: the block limit, or what the context window leaves after the
      reply and the safety margin. */
  predicate Allows(limits: Limits, tokens: nat) {
    && limits.contextWindow.Some? && limits.contextWindow.value > 0
    && (limits.blockLimit.Some? ==> tokens == limits.blockLimit.value)
    && (limits.blockLimit.None? && limits.maxTokens.Some? ==>
          tokens == Max(0, limits.contextWindow.value - limits.maxTokens.value - 1024))
    && (limits.blockLimit.None? && limits.maxTokens.None? ==>
          tokens == Max(0, limits.contextWindow.value - 4096 - 1024))
  }

  lemma BudgetIsAllowance(limits: Limits, tokens: nat)
    requires Allows(limits, tokens)
    ensures Budget(limits) == if tokens == 0 then None else Some(tokens)
  {
  }

  /** A list is snipped exactly when there is an allowance, the prompt exceeds it, and something may go. */
  lemma SnippedIff(est: Estimator, limits: Limits, ms: seq<Message>, tokens: nat)
    requires Allows(limits, tokens)
    ensures tokens == 0 || est.prompt(ms) <= tokens || (forall m :: m in ms ==> m.role.System?) <==>
            Unsnipped(est, limits, ms)
    ensures Unsnipped(est, limits, ms) ==> Snipped(est, limits, ms) == ms
  {
    BudgetIsAllowance(limits, tokens);
    NoOthersIff(ms);
  }

  lemma {:induction false} NoOthersIff(ms: seq<Message>)
    ensures NonSystem(ms) == [] <==> forall m :: m in ms ==> m.role.System?
  {
    if ms != [] {
      NoOthersIff(ms[1..]);
      assert forall m :: m in ms <==> m == ms[0] || m in ms[1..];
    }
  }

  /** Without a context window there is no snipping. */
  lemma UnlimitedIsUnsnipped(est: Estimator, limits: Limits, ms: seq<Message>)
    requires limits.contextWindow.None? || limits.contextWindow.value == 0
    ensures Snipped(est, limits, ms) == ms
  {
  }

  /** A snipped list respects the allowance, but never less than 128 tokens: the system messages and the
      window fit, unless the window is a single message or the system messages alone do not fit; and no longer
      window would. What is kept of the others starts at `s`. If the window holds a user message, the kept part
      lies inside it, so that it fits as well, unless nothing legal follows that user message; then at most the
      last four messages are kept. */
  lemma SnipFits(est: Estimator, limits: Limits, ms: seq<Message>, tokens: nat) returns (k: nat, s: nat)
    requires Allows(limits, tokens) && !Unsnipped(est, limits, ms)
    ensures var system, others, most := SystemOnly(ms), NonSystem(ms), Max(128, tokens);
            && k < |others| && s <= |others| && Snipped(est, limits, ms) == system + others[s..]
            && (|| Tokens(est, system) + Tokens(est, others[k..]) <= most
                || k == |others| - 1 || Tokens(est, system) > most)
            && (forall longer :: 0 <= longer < k ==>
                  Tokens(est, system) + Tokens(est, others[longer..]) > most)
            && (forall u :: k <= u < |others| && others[u].role.User? ==>
                  || (k <= s && Tokens(est, others[s..]) <= Tokens(est, others[k..]))
                  || (FallsBack(others, s) && forall j :: u <= j < |others| ==> !Legal(AllSpelled(others[j..]), {})))
  {
    hide Legal, AllSpelled, Tokens, LongestWindow, KeptStart, NonSystem, SystemOnly;
    BudgetIsAllowance(limits, tokens);
    var system, others := SystemOnly(ms), NonSystem(ms);
    var room := Room(est, tokens, system);
    k := LongestWindow(est, others, room);
    s := KeptStart(others, k);
    WindowIsLongest(est, others, room);
    forall u | k <= u < |others| && others[u].role.User?
      ensures || (k <= s && Tokens(est, others[s..]) <= Tokens(est, others[k..]))
              || (FallsBack(others, s) && forall j :: u <= j < |others| ==> !Legal(AllSpelled(others[j..]), {}))
    {
      KeptInside(others, k, u);
      if k <= s {
        TokensDrop(est, others[k..], s - k);
        SuffixOfSuffix(others, k, s - k);
      }
    }
  }

  /** Kept is the longest legal part of the last four messages. */
  ghost predicate FallsBack(ms: seq<Message>, s: nat) {
    |ms| - s <= 4 && forall j :: 0 <= j < s && j < |ms| && |ms| - j <= 4 ==> !Legal(AllSpelled(ms[j..]), {})
  }

  lemma KeptInside(ms: seq<Message>, k: nat, u: nat)
    requires k <= u < |ms| && ms[u].role.User?
    ensures var s := KeptStart(ms, k);
            k <= s || (FallsBack(ms, s) && forall j :: u <= j < |ms| ==> !Legal(AllSpelled(ms[j..]), {}))
  {
    hide Legal, AllSpelled, LegalStart, LegalStartFrom;
    UserStartIsNearest(ms, k, u);
    var v := UserStart(ms, k);
    if KeptStart(ms, k) < k {
      forall j | u <= j < |ms| ensures !Legal(AllSpelled(ms[j..]), {}) {
        SkippedIsIllegal(ms, v, j);
      }
      forall j | 0 <= j < KeptStart(ms, k) && |ms| - j <= 4 ensures !Legal(AllSpelled(ms[j..]), {}) {
        SkippedIsIllegal(ms, FallbackStart(ms), j);
      }
    }
  }

  /** What the search for a legal start passes over is not legal. */
  lemma SkippedIsIllegal(ms: seq<Message>, from: nat, j: nat)
    requires from <= j < |ms| && j < LegalStartFrom(ms, from)
    ensures !Legal(AllSpelled(ms[j..]), {})
  {
    hide Legal, AllSpelled;
    var spelled := AllSpelled(ms[from..]);
    AllSpelledSuffix(ms[from..], j - from);
    SuffixOfSuffix(ms, from, j - from);
    StartIsLeast(spelled, j - from);
  }

  lemma {:induction false} StartIsLeast(ms: seq<Message>, j: nat)
    requires j < LegalStart(ms)
    ensures !Legal(ms[j..], {})
  {
    assert ms[0..] == ms;
    if j > 0 {
      StartIsLeast(ms[1..], j - 1);
      assert ms[1..][j - 1..] == ms[j..];
    }
  }

  lemma PartsCons(m: Message, ms: seq<Message>)
    ensures SystemOnly([m] + ms) == (if m.role.System? then [m] else []) + SystemOnly(ms)
    ensures NonSystem([m] + ms) == (if m.role.System? then [] else [m]) + NonSystem(ms)
    ensures SystemOnly([]) == NonSystem([]) == []
  {
    assert ([m] + ms)[1..] == ms;
  }

  /** Messages are sorted by role alone, and in order: each half of a list on its own, down to a message. */
  lemma {:induction false} PartsByRole(a: seq<Message>, b: seq<Message>)
    ensures SystemOnly(a + b) == SystemOnly(a) + SystemOnly(b) && NonSystem(a + b) == NonSystem(a) + NonSystem(b)
    ensures |a| == 1 ==> SystemOnly(a) == (if a[0].role.System? then a else [])
    ensures |a| == 1 ==> NonSystem(a) == (if a[0].role.System? then [] else a)
  {
    if a == [] {
      assert a + b == b;
    } else {
      var m, tail := a[0], a[1..];
      hide SystemOnly, NonSystem;
      assert a == [m] + tail && a + b == [m] + (tail + b);
      PartsByRole(tail, b);
      PartsCons(m, tail);
      PartsCons(m, tail + b);
      var x, y := SystemOnly(tail), NonSystem(tail);
      Reassociate(if m.role.System? then [m] else [], x, SystemOnly(b));
      Reassociate(if m.role.System? then [] else [m], y, NonSystem(b));
      if |a| == 1 {
        assert tail == [] && [m] + [] == [m];
      }
    }
  }
}
