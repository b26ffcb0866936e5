/** The context-governance pipeline the runner applies before every model call: drop orphans, backfill,
    microcompact, budget, snip, and then drop and backfill once more. Pairing concerns ids that are text,
    which is what the runner's passes look at. */
module Governance {
  import opened Basics
  import opened Messages
  import opened Orphans
  import opened Backfill
  import opened Compaction
  import opened Snip

  datatype Policy = Policy(normalize: Normalizer, est: Estimator, limits: Limits)

  /** The list handed to the model comes from the history by the seven passes and obeys the pairing
      rule, whatever the history was; and if the history declares unique, non-empty ids, every call is
      answered after it is made. */
  ghost predicate Governed(policy: Policy, messages: seq<Message>, governed: seq<Message>) {
    && PairingClosed(governed)
    && (UniqueIds(messages, {}) ==> AnswersFollow(governed))
    && exists first, snipped :: Stages(policy, messages, first, snipped) && governed == Backfilled(Dropped(snipped, {}))
  }

  method Govern(policy: Policy, messages: seq<Message>) returns (governed: seq<Message>)
    ensures Governed(policy, messages, governed)
  {
    hide Backfilled, Dropped, IsMicrocompacted, IsBudgeted, Snipped, PairingClosed, UniqueIds, AnswersFollow, Legal,
      Complete, Follows, SameSkeleton, Stages;
    var dropped := DropOrphanToolResults(messages);
    var filled := BackfillMissingToolResults(dropped);
    var compacted := Microcompact(filled);
    var budgeted := ApplyToolResultBudget(policy.normalize, compacted);
    var snipped := SnipHistory(policy.est, policy.limits, budgeted);
    ghost var first := FirstPass(filled, compacted, budgeted);
    AreStages(policy, messages, first, snipped);
    var clean := DropOrphanToolResults(snipped);
    governed := BackfillMissingToolResults(clean);
    PipelineIsGoverned(policy, messages, first, snipped);
  }

  /** The lists after backfilling, microcompacting and budgeting. */
  datatype FirstPass = FirstPass(filled: seq<Message>, compacted: seq<Message>, budgeted: seq<Message>)

  ghost predicate Stages(policy: Policy, messages: seq<Message>, first: FirstPass, snipped: seq<Message>) {
    && first.filled == Backfilled(Dropped(messages, {}))
    && IsMicrocompacted(first.filled, first.compacted)
    && IsBudgeted(policy.normalize, first.compacted, |first.compacted|, first.budgeted)
    && snipped == Snipped(policy.est, policy.limits, first.budgeted)
  }

  lemma AreStages(policy: Policy, messages: seq<Message>, first: FirstPass, snipped: seq<Message>)
    requires first.filled == Backfilled(Dropped(messages, {}))
    requires IsMicrocompacted(first.filled, first.compacted)
    requires IsBudgeted(policy.normalize, first.compacted, |first.compacted|, first.budgeted)
    requires snipped == Snipped(policy.est, policy.limits, first.budgeted)
    ensures Stages(policy, messages, first, snipped)
  {
  }

  lemma PipelineIsGoverned(policy: Policy, messages: seq<Message>, first: FirstPass, snipped: seq<Message>)
    requires Stages(policy, messages, first, snipped)
    ensures Governed(policy, messages, Backfilled(Dropped(snipped, {})))
  {
    hide Backfilled, Dropped, PairingClosed, UniqueIds, AnswersFollow, Legal, Stages;
    DroppedIsLegal(snipped, {});
    BackfilledIsClosed(Dropped(snipped, {}));
    if UniqueIds(messages, {}) {
      CleanupAddsNothing(policy, messages, first, snipped);
    }
  }

  lemma BudgetedIsPaired(policy: Policy, messages: seq<Message>, first: FirstPass, snipped: seq<Message>)
    requires Stages(policy, messages, first, snipped)
    ensures Legal(first.budgeted, {}) && Complete(first.budgeted)
    ensures UniqueIds(messages, {}) ==> Follows(first.budgeted)
    ensures SameSkeleton(first.filled, first.budgeted) && first.filled == Backfilled(Dropped(messages, {}))
  {
    hide Backfilled, Dropped, IsMicrocompacted, IsBudgeted, Snipped, PairingClosed, UniqueIds, AnswersFollow, Legal,
      Complete, Follows, SameSkeleton;
    var dropped := Dropped(messages, {});
    DroppedIsLegal(messages, {});
    BackfilledIsPaired(dropped);
    PassesKeepSkeleton(policy.normalize, first.filled, first.compacted, first.budgeted);
    SkeletonDecides(first.filled, first.budgeted, {});
    CompleteTransfers(first.filled, first.budgeted);
    if UniqueIds(messages, {}) {
      DropKeepsUnique(messages, {});
      BackfilledUnique(dropped);
      UniqueLegalCompleteFollows(first.budgeted, {});
    }
  }

  lemma CompleteTransfers(a: seq<Message>, b: seq<Message>)
    requires DeclaredIn(a) == DeclaredIn(b) && AnsweredIn(a) == AnsweredIn(b) && Complete(a)
    ensures Complete(b)
  {
  }

  lemma BackfilledUnique(ms: seq<Message>)
    requires UniqueIds(ms, {})
    ensures UniqueIds(Backfilled(ms), {})
  {
    WovenUnique(ms, [], AnsweredIn(ms), {});
  }

  lemma BackfilledIsClosed(ms: seq<Message>)
    requires Legal(ms, {})
    ensures PairingClosed(Backfilled(ms))
  {
    hide *;
    BackfilledIsPaired(ms);
    LegalCompleteIsClosed(Backfilled(ms));
  }

  // ---- What the cleanup after snipping still finds ----

  /** The second orphan pass removes something exactly when, in what snipping kept, a result answers by text
      an id declared before it only as an integer: the search for a legal start takes the two for one. */
  lemma CleanupDropsNothingIff(policy: Policy, messages: seq<Message>, first: FirstPass, snipped: seq<Message>)
    requires Stages(policy, messages, first, snipped)
    ensures Dropped(snipped, {}) == snipped <==> !Clash(snipped, {}, {})
  {
    hide Backfilled, Dropped, IsMicrocompacted, IsBudgeted, Snipped, UniqueIds, Legal, Complete, Follows, SameSkeleton,
      Clash;
    BudgetedIsPaired(policy, messages, first, snipped);
    SnipKeepsLegalIff(policy.est, policy.limits, first.budgeted);
    if Legal(snipped, {}) {
      DropKeepsLegal(snipped, {});
    }
    DroppedIsLegal(snipped, {});
  }

  /** So it removes nothing from a history whose declared ids are all text. */
  lemma CleanupDropsNothing(policy: Policy, messages: seq<Message>, first: FirstPass, snipped: seq<Message>)
    requires Stages(policy, messages, first, snipped) && TextIds(messages)
    ensures Dropped(snipped, {}) == snipped
  {
    hide Backfilled, Dropped, IsMicrocompacted, IsBudgeted, Snipped, Clash, TextIds;
    var dropped := Dropped(messages, {});
    DroppedAreMembers(messages, {});
    TextIdsWithin(messages, dropped);
    BackfilledMembers(dropped);
    TextIdsWithin(dropped, first.filled);
    PassesKeepTextIds(policy.normalize, first.filled, first.compacted, first.budgeted);
    SnippedAreMembers(policy.est, policy.limits, first.budgeted);
    TextIdsWithin(first.budgeted, snipped);
    TextNeverClashes(snipped, {});
    CleanupDropsNothingIff(policy, messages, first, snipped);
  }

  lemma BackfilledMembers(ms: seq<Message>)
    ensures forall m :: m in Backfilled(ms) ==> m in ms || m.role.Tool?
  {
    WovenMembers(ms, [], AnsweredIn(ms));
  }

  lemma ToolDeclaresNothing(m: Message)
    requires m.role.Tool?
    ensures Ids(m) == Ids(Spelled(m)) == {}
  {
  }

  lemma TextIdsWithin(a: seq<Message>, b: seq<Message>)
    requires TextIds(a) && forall m :: m in b ==> m in a || m.role.Tool?
    ensures TextIds(b)
  {
    hide Ids, Spelled;
    forall m | m in b ensures Ids(Spelled(m)) == Ids(m) {
      if m.role.Tool? {
        ToolDeclaresNothing(m);
      }
    }
  }

  lemma PassesKeepTextIds(normalize: Normalizer, ms: seq<Message>, compacted: seq<Message>, budgeted: seq<Message>)
    requires IsMicrocompacted(ms, compacted) && IsBudgeted(normalize, compacted, |compacted|, budgeted) && TextIds(ms)
    ensures TextIds(budgeted)
  {
    hide TextIds, BudgetedContent, Stale;
    forall m | m in budgeted ensures m in ms || m.role.Tool? {
      var i :| 0 <= i < |budgeted| && budgeted[i] == m;
      assert ms[i] in ms;
    }
    TextIdsWithin(ms, budgeted);
  }

  // A history in which that happens: the call "5" is answered and snipped away, and a later call numbered 5
  // has a result for "5" behind it.

  function Numbered(): seq<Message> {
    var result := Message(Tool, Some("5"), None, None, None, None, None, map[]);
    [Message(Assistant, None, None, None, Some([ToolCall(Some("5"), None, None, "")]), None, None, map[]),
     result,
     Message(User, None, None, None, None, None, None, map[]),
     Message(Assistant, None, None, None, Some([ToolCall(None, Some(5), None, "")]), None, None, map[]),
     result]
  }

  function Shown(normalize: Normalizer): seq<Message> {
    var ms := Numbered();
    [ms[0], Budgeted(normalize, 1, ms[1]), ms[2], ms[3], Budgeted(normalize, 4, ms[4])]
  }

  /** Every message counts a hundred tokens, and three of them fit. */
  const TIGHT := Limits(Some(1), None, Some(300))

  function Hundreds(): Estimator {
    Estimator((ms: seq<Message>) => 1000, (m: Message) => 100)
  }

  lemma {:induction false} HundredEach(ms: seq<Message>)
    ensures Tokens(Hundreds(), ms) == 100 * |ms|
  {
    if ms != [] {
      HundredEach(ms[1..]);
    }
  }

  lemma NumberedFacts()
    ensures var ms := Numbered(); Legal(ms, {}) && Complete(ms)
  {
    var ms := Numbered();
    var x := {"5"};
    assert Refs(ms[0]) == [CallRef("5", "")] && Refs(ms[3]) == RefsOf([]);
    assert CallRef("5", "") in Refs(ms[0]) && Ids(ms[0]) == x;
    assert Ids(ms[1]) == Ids(ms[2]) == Ids(ms[3]) == Ids(ms[4]) == {};
    var t1, t2, t3, t4 := ms[1..], ms[2..], ms[3..], ms[4..];
    assert t1[1..] == t2 && t2[1..] == t3 && t3[1..] == t4 && t4[1..] == [];
    assert x + {} == x && {} + x == x;
    assert Legal(t4, x) && Legal(t3, x) && Legal(t2, x) && Legal(t1, x);
    assert DeclaredIn(t4) == {} && DeclaredIn(t3) == {} && DeclaredIn(t2) == {} && DeclaredIn(t1) == {};
    assert AnsweredIn(t1) == AnswerIds(ms[1]) + AnsweredIn(t2);
  }

  lemma KeptFacts(normalize: Normalizer)
    ensures var kept := Shown(normalize)[2..];
            Legal(AllSpelled(kept), {}) && Clash(kept, {}, {}) && kept[0].role.User?
  {
    hide BudgetedContent;
    var kept := Shown(normalize)[2..];
    var user, call, result := kept[0], kept[1], kept[2];
    var x := {"5"};
    assert Integer(5) == "5";
    assert SpelledCalls(call.calls.value)[1..] == [];
    assert Refs(Spelled(call)) == [CallRef("5", "")] && CallRef("5", "") in Refs(Spelled(call));
    assert Ids(Spelled(call)) == x && Ids(Spelled(user)) == {} && Ids(user) == {};
    assert Refs(call) == RefsOf([]) && Ids(call) == {};
    var spelled := AllSpelled(kept);
    assert spelled[1..][0] == Spelled(call) && spelled[1..][1..][0] == Spelled(result) && spelled[1..][1..][1..] == [];
    var none: set<string> := {};
    assert none + x == x && none + none == none;
    assert Legal(spelled[1..][1..], x) && Legal(spelled[1..], {}) && Legal(spelled, {});
    assert kept[1..] == [call, result] && kept[1..][1..] == [result];
    assert Orphan(result, {}) && Clash([result], {}, x) && Clash([call, result], {}, {});
  }

  lemma NumberedWindow(shown: seq<Message>)
    requires |shown| == 5
    ensures LongestWindow(Hundreds(), shown, 300) == 2
  {
    hide Tokens, LongestWindow, Hundreds;
    HundredEach(shown[2..]);
    HundredEach(shown[1..]);
    WindowFound(Hundreds(), shown, 300, 2);
  }

  lemma NumberedStart(shown: seq<Message>)
    requires |shown| == 5 && shown[2].role.User? && Legal(AllSpelled(shown[2..]), {})
    ensures KeptStart(shown, 2) == 2
  {
    hide Legal, AllSpelled, LegalStart, LastUser;
    StartsAtOnce(AllSpelled(shown[2..]));
  }

  lemma NumberedLimits(shown: seq<Message>)
    requires |shown| == 5 && NonSystem(shown) == shown
    ensures !Unsnipped(Hundreds(), TIGHT, shown) && Budget(TIGHT) == Some(300) && Room(Hundreds(), 300, []) == 300
  {
    hide NonSystem;
  }

  lemma NumberedIsSnipped(normalize: Normalizer)
    ensures Snipped(Hundreds(), TIGHT, Shown(normalize)) == Shown(normalize)[2..]
  {
    hide BudgetedContent, Legal, AllSpelled, Clash, LongestWindow, KeptStart, Unsnipped, Budget, Room, Hundreds,
      SystemOnly, NonSystem;
    var shown := Shown(normalize);
    KeptFacts(normalize);
    NoSystem(shown);
    NumberedLimits(shown);
    NumberedWindow(shown);
    NumberedStart(shown);
    assert [] + shown[2..] == shown[2..];
  }

  lemma StartsAtOnce(ms: seq<Message>)
    requires Legal(ms, {})
    ensures LegalStart(ms) == 0
  {
  }

  lemma {:induction false} NoSystem(ms: seq<Message>)
    requires forall m :: m in ms ==> !m.role.System?
    ensures SystemOnly(ms) == [] && NonSystem(ms) == ms
  {
    if ms != [] {
      assert ms[0] in ms && ms == [ms[0]] + ms[1..];
      NoSystem(ms[1..]);
    }
  }

  lemma NumberPosesAsText(normalize: Normalizer)
    returns (policy: Policy, ms: seq<Message>, first: FirstPass, snipped: seq<Message>)
    ensures Stages(policy, ms, first, snipped) && Dropped(snipped, {}) != snipped
  {
    hide BudgetedContent, Legal, Complete, Backfilled, Dropped, Clash, Snipped, AllSpelled;
    policy, ms := Policy(normalize, Hundreds(), TIGHT), Numbered();
    NumberedFacts();
    DropKeepsLegal(ms, {});
    BackfillIdleIff(ms);
    NothingStale(ms);
    first, snipped := FirstPass(ms, ms, Shown(normalize)), Shown(normalize)[2..];
    assert IsBudgeted(normalize, ms, |ms|, first.budgeted);
    NumberedIsSnipped(normalize);
    KeptFacts(normalize);
    CleanupDropsNothingIff(policy, ms, first, snipped);
  }

  /** With unique, non-empty ids the second backfill inserts nothing either. */
  lemma CleanupAddsNothing(policy: Policy, messages: seq<Message>, first: FirstPass, snipped: seq<Message>)
    requires Stages(policy, messages, first, snipped) && UniqueIds(messages, {})
    ensures var clean := Dropped(snipped, {}); Backfilled(clean) == clean && AnswersFollow(clean)
  {
    hide Backfilled, Dropped, IsMicrocompacted, IsBudgeted, Snipped, PairingClosed, UniqueIds, AnswersFollow, Legal,
      Complete, Follows, SameSkeleton;
    BudgetedIsPaired(policy, messages, first, snipped);
    FollowingNeedsNothing(policy, first.budgeted, snipped);
  }

  lemma FollowingNeedsNothing(policy: Policy, budgeted: seq<Message>, snipped: seq<Message>)
    requires Follows(budgeted) && snipped == Snipped(policy.est, policy.limits, budgeted)
    ensures var clean := Dropped(snipped, {}); Backfilled(clean) == clean && AnswersFollow(clean)
  {
    hide *;
    SnipKeepsFollows(policy.est, policy.limits, budgeted);
    DropKeepsFollows(snipped, {});
    var clean := Dropped(snipped, {});
    FollowsImpliesComplete(clean);
    BackfillIdleIff(clean);
    FollowsIsAnswersFollow(clean);
  }

  // ---- When every call is answered after it is made ----

  /** Exactly when, in the list that reaches the second backfill, every id that is answered at all is
      answered after each of its declarations. It is enough that this holds of the history without its
      orphans; and when nothing is snipped, it is also necessary. */
  lemma HistoryFollowsIff(policy: Policy, messages: seq<Message>, first: FirstPass, snipped: seq<Message>)
    requires Stages(policy, messages, first, snipped)
    ensures var dropped, clean := Dropped(messages, {}), Dropped(snipped, {});
            var fine := FollowsWhereAnswered(dropped, AnsweredIn(dropped));
            var governed := Backfilled(clean);
            && (AnswersFollow(governed) <==> FollowsWhereAnswered(clean, AnsweredIn(clean)))
            && (fine ==> AnswersFollow(governed))
            && (snipped == first.budgeted ==> (fine <==> AnswersFollow(governed)))
  {
    hide *;
    var dropped := Dropped(messages, {});
    BudgetedIsPaired(policy, messages, first, snipped);
    BackfilledFollowsIff(dropped);
    BackfilledFollowsIff(Dropped(snipped, {}));
    FollowsIsAnswersFollow(first.filled);
    SkeletonDecides(first.filled, first.budgeted, {});
    StagesSnip(policy, messages, first, snipped);
    if Follows(first.budgeted) {
      FollowingNeedsNothing(policy, first.budgeted, snipped);
    }
    if snipped == first.budgeted {
      DropKeepsLegal(snipped, {});
      BackfillIdleIff(snipped);
      FollowsIsAnswersFollow(snipped);
    }
  }

  lemma StagesSnip(policy: Policy, messages: seq<Message>, first: FirstPass, snipped: seq<Message>)
    requires Stages(policy, messages, first, snipped)
    ensures snipped == Snipped(policy.est, policy.limits, first.budgeted)
  {
  }

  const NO_LIMITS := Limits(None, None, None)

  /** Uniqueness matters: an id declared again after its only answer goes through the whole pipeline and
      reaches the model unanswered. */
  lemma RedeclaredIdStaysUnanswered(normalize: Normalizer, est: Estimator)
    returns (ms: seq<Message>, governed: seq<Message>)
    ensures Governed(Policy(normalize, est, NO_LIMITS), ms, governed) && !AnswersFollow(governed) && !UniqueIds(ms, {})
  {
    hide BudgetedContent, AnswersFollow, PairingClosed, Governed, Dropped;
    var policy := Policy(normalize, est, NO_LIMITS);
    ms := Redeclaring();
    RedeclaringFacts();
    DropKeepsLegal(ms, {});
    BackfillIdleIff(ms);
    var shown := [ms[0], Budgeted(normalize, 1, ms[1]), ms[2]];
    var first := FirstPass(ms, ms, shown);
    NothingStale(ms);
    assert IsBudgeted(normalize, ms, |ms|, shown);
    assert Snipped(est, NO_LIMITS, shown) == shown;
    assert Stages(policy, ms, first, shown);
    governed := Backfilled(Dropped(shown, {}));
    PipelineIsGoverned(policy, ms, first, shown);
    HistoryFollowsIff(policy, ms, first, shown);
  }

  function Redeclaring(): seq<Message> {
    var call := Message(Assistant, None, None, None, Some([ToolCall(Some("x"), None, None, "")]), None, None, map[]);
    [call, Message(Tool, Some("x"), None, None, None, None, None, map[]), call]
  }

  lemma NothingStale(ms: seq<Message>)
    requires |ms| <= KEEP_RECENT
    ensures IsMicrocompacted(ms, ms)
  {
    forall i | 0 <= i < |ms| ensures !Stale(ms, i) {
      CountBound(ms[i + 1..]);
    }
  }

  lemma {:induction false} CountBound(ms: seq<Message>)
    ensures CompactableCount(ms) <= |ms|
  {
    if ms != [] {
      CountBound(ms[1..]);
    }
  }

  lemma RedeclaringFacts()
    ensures var ms := Redeclaring();
            && |ms| == 3 && Legal(ms, {}) && Complete(ms) && !UniqueIds(ms, {})
            && !FollowsWhereAnswered(ms, AnsweredIn(ms))
            && !ms[0].role.Tool? && !ms[2].role.Tool?
  {
    var ms := Redeclaring();
    var call, answer := ms[0], ms[1];
    assert Refs(call) == [CallRef("x", "")] && Refs(answer) == [];
    assert "x" in Ids(call) && Ids(call) == {"x"} && Ids(answer) == {};
    assert ms[1..] == [answer, call] && ms[1..][1..] == [call] && [call][1..] == [];
    var x := {"x"};
    assert {} + x == x && x + x == x && x + {} == x;
    assert Legal([call], x) && Legal([answer, call], x) && Legal(ms, {});
    assert [answer, call][1..] == [call];
    assert DeclaredIn([call]) == x;
    assert DeclaredIn([answer, call]) == Ids(answer) + DeclaredIn([call]) == x;
    assert DeclaredIn(ms) == Ids(call) + DeclaredIn([answer, call]) == x;
    assert !UniqueIds([call], x) && !UniqueIds([answer, call], x);
    assert AnsweredIn([call]) == {} && AnsweredIn([answer, call]) == {"x"} && AnsweredIn(ms) == {"x"};
    assert !FollowsWhereAnswered([call], x);
    assert !FollowsWhereAnswered([answer, call], x);
  }
}
