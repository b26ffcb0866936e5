/** What the channels are told by the dispatcher, and exactly when it does not depend on timing. How much of
    a call a channel listens to is a parameter: the text and the end alone, the metadata as well, or the
    metadata together with the end mark. */
module DispatchTheory {
  import opened Basics
  import opened Dispatcher

  // ---- What the channels hear ----

  /** What a channel hears, piece by piece: each character of a stream with what it takes from the call's
      metadata, each end of a stream, each message sent whole. Forgotten is only where the text was cut, so
      that a call without text and without an end says nothing. */
  datatype Atom<T> =
    | Char(channel: string, chat: string, tag: T, c: char)
    | End(channel: string, chat: string, tag: T)
    | Whole(msg: OutMsg)

  predicate Streams(m: OutMsg) {
    IsDelta(m) || IsEnd(m)
  }

  function Letters<T>(m: OutMsg, tag: T, text: string): (s: seq<Atom<T>>)
    ensures |s| == |text| && forall i :: 0 <= i < |text| ==> s[i] == Char(m.channel, m.chat, tag, text[i])
  {
    seq(|text|, i requires 0 <= i < |text| => Char(m.channel, m.chat, tag, text[i]))
  }

  /** `send_once`: deltas and ends go to `send_delta`, the rest to `send` unless already streamed. */
  function SoundAs<T>(m: OutMsg, tag: T): seq<Atom<T>> {
    if Streams(m) then
      Letters(m, tag, m.content) + if IsEnd(m) then [End(m.channel, m.chat, tag)] else []
    else if Flag(m, "_streamed") then []
    else [Whole(m)]
  }

  function Sound<T>(view: OutMsg -> T, m: OutMsg): seq<Atom<T>> {
    SoundAs(m, view(m))
  }

  function Hear<T>(view: OutMsg -> T, ms: seq<OutMsg>): seq<Atom<T>> {
    if ms == [] then [] else Hear(view, ms[..|ms| - 1]) + Sound(view, ms[|ms| - 1])
  }

  /** The same with one tag for all. */
  function HearAs<T>(ms: seq<OutMsg>, tag: T): seq<Atom<T>> {
    if ms == [] then [] else HearAs(ms[..|ms| - 1], tag) + SoundAs(ms[|ms| - 1], tag)
  }

  lemma HearSnoc<T>(view: OutMsg -> T, ms: seq<OutMsg>, m: OutMsg)
    ensures Hear(view, ms + [m]) == Hear(view, ms) + Sound(view, m)
  {
    assert (ms + [m])[..|ms|] == ms;
  }

  lemma {:induction false} HearConcat<T>(view: OutMsg -> T, a: seq<OutMsg>, b: seq<OutMsg>)
    ensures Hear(view, a + b) == Hear(view, a) + Hear(view, b)
  {
    hide Sound;
    if b == [] {
      assert a + b == a;
    } else {
      var front, last := b[..|b| - 1], b[|b| - 1];
      assert a + b == (a + front) + [last] && b == front + [last];
      HearConcat(view, a, front);
      HearSnoc(view, a + front, last);
      HearSnoc(view, front, last);
      assert Hear(view, a) + (Hear(view, front) + Sound(view, last))
          == (Hear(view, a) + Hear(view, front)) + Sound(view, last);
    }
  }

  lemma HearAsSnoc<T>(ms: seq<OutMsg>, m: OutMsg, tag: T)
    ensures HearAs(ms + [m], tag) == HearAs(ms, tag) + SoundAs(m, tag)
  {
    assert (ms + [m])[..|ms|] == ms;
  }

  /** What `send_once` makes of a message: a delta is heard character by character and ends with its end; what
      was streamed already is not sent again; anything else is sent whole. */
  lemma SendOnceSays<T>(view: OutMsg -> T, m: OutMsg)
    ensures IsDelta(m) || IsEnd(m) ==>
      && |Sound(view, m)| == |m.content| + (if IsEnd(m) then 1 else 0)
      && (forall i :: 0 <= i < |m.content| ==> Sound(view, m)[i] == Char(m.channel, m.chat, view(m), m.content[i]))
      && (IsEnd(m) ==> Sound(view, m)[|m.content|] == End(m.channel, m.chat, view(m)))
    ensures !IsDelta(m) && !IsEnd(m) ==> Sound(view, m) == if Flag(m, "_streamed") then [] else [Whole(m)]
  {
    hide Letters, Flag;
  }

  // ---- A merged message says what its parts say, in its own name ----

  lemma LettersConcat<T>(m: OutMsg, n: OutMsg, tag: T, a: string, b: string)
    requires SameTarget(m, n)
    ensures Letters(m, tag, a) + Letters(n, tag, b) == Letters(m, tag, a + b)
  {
    hide Letters;
    var all := Letters(m, tag, a) + Letters(n, tag, b);
    assert forall i :: 0 <= i < |a + b| ==> all[i] == Char(m.channel, m.chat, tag, (a + b)[i]);
  }

  lemma GroupFront(g: seq<OutMsg>)
    requires IsGroup(g) && |g| > 1
    ensures var front := g[..|g| - 1]; IsGroup(front) && front[0] == g[0] && !IsEnd(front[|front| - 1])
    ensures IsDelta(g[0]) && IsDelta(g[|g| - 1]) && SameTarget(g[0], g[|g| - 1])
  {
    hide Flag;
  }

  lemma DeltaSounds<T>(m: OutMsg, tag: T)
    requires IsDelta(m)
    ensures SoundAs(m, tag) == Letters(m, tag, m.content) + if IsEnd(m) then [End(m.channel, m.chat, tag)] else []
    ensures !IsEnd(m) ==> SoundAs(m, tag) == Letters(m, tag, m.content)
  {
    hide Letters;
    assert Letters(m, tag, m.content) + [] == Letters(m, tag, m.content);
  }

  /** A group that has not ended is one piece of text. */
  lemma {:induction false} OpenGroupIsText<T>(g: seq<OutMsg>, tag: T)
    requires IsGroup(g) && IsDelta(g[0]) && !IsEnd(g[|g| - 1])
    ensures HearAs(g, tag) == Letters(g[0], tag, Contents(g))
    decreases |g|
  {
    hide Flag, Letters, SoundAs;
    var front, last := g[..|g| - 1], g[|g| - 1];
    assert g == front + [last];
    HearAsSnoc(front, last, tag);
    if |g| == 1 {
      assert front == [] && g == [g[0]];
      StartGroup(g[0]);
      DeltaSounds(g[0], tag);
    } else {
      GroupFront(g);
      OpenGroupIsText(front, tag);
      DeltaSounds(last, tag);
      LettersConcat(g[0], last, tag, Contents(front), last.content);
    }
  }

  lemma MergedFacts(g: seq<OutMsg>)
    requires IsGroup(g) && |g| > 1
    ensures var m := Merged(g);
            && IsDelta(m) && (IsEnd(m) <==> IsEnd(g[|g| - 1])) && SameTarget(m, g[0]) && m.content == Contents(g)
            && m.metadata == if IsEnd(g[|g| - 1]) then g[0].metadata[STREAM_END := Bool(true)] else g[0].metadata
  {
    hide Contents;
    assert !IsEnd(g[0]) && IsDelta(g[0]);
  }

  lemma MergedSounds<T>(g: seq<OutMsg>, tag: T)
    requires IsGroup(g) && |g| > 1
    ensures SoundAs(Merged(g), tag) ==
      Letters(g[0], tag, Contents(g)) + if IsEnd(g[|g| - 1]) then [End(g[0].channel, g[0].chat, tag)] else []
  {
    hide Letters, Contents, SoundAs, Merged, Flag, IsGroup;
    MergedFacts(g);
    DeltaSounds(Merged(g), tag);
    SameLetters(Merged(g), g[0], tag, Contents(g));
  }

  lemma SameLetters<T>(m: OutMsg, n: OutMsg, tag: T, text: string)
    requires SameTarget(m, n)
    ensures Letters(m, tag, text) == Letters(n, tag, text)
  {
    hide Letters;
  }

  /** The merged message sounds like its parts, if these are heard under the merged message's tag. */
  lemma MergedSaysItsParts<T>(g: seq<OutMsg>, tag: T)
    requires IsGroup(g)
    ensures SoundAs(Merged(g), tag) == HearAs(g, tag)
  {
    hide Flag, Letters, SoundAs, Merged, Contents;
    var front, last := g[..|g| - 1], g[|g| - 1];
    assert g == front + [last];
    HearAsSnoc(front, last, tag);
    if |g| == 1 {
      assert g == [g[0]] && front == [];
      AloneIsMerged(g[0]);
    } else {
      GroupFront(g);
      OpenGroupIsText(front, tag);
      DeltaSounds(last, tag);
      MergedSounds(g, tag);
      GrowGroup(front, last);
      LettersConcat(g[0], last, tag, Contents(front), last.content);
      var end := if IsEnd(last) then [End(g[0].channel, g[0].chat, tag)] else [];
      assert Letters(g[0], tag, Contents(front)) + (Letters(last, tag, last.content) + end)
          == (Letters(g[0], tag, Contents(front)) + Letters(last, tag, last.content)) + end;
    }
  }

  // ---- Merging against not merging ----

  predicate Deliverable(cfg: Config, m: OutMsg) {
    !Filtered(cfg, m) && m.channel in cfg.channels
  }

  /** What dispatching message by message would hand to the channels. */
  function Uncoalesced(cfg: Config, ms: seq<OutMsg>): seq<OutMsg> {
    if ms == [] then []
    else Uncoalesced(cfg, ms[..|ms| - 1]) + if Deliverable(cfg, ms[|ms| - 1]) then [ms[|ms| - 1]] else []
  }

  lemma {:induction false} UncoalescedConcat(cfg: Config, a: seq<OutMsg>, b: seq<OutMsg>)
    ensures Uncoalesced(cfg, a + b) == Uncoalesced(cfg, a) + Uncoalesced(cfg, b)
  {
    hide Deliverable;
    if b == [] {
      assert a + b == a;
    } else {
      assert (a + b)[..|a + b| - 1] == a + b[..|b| - 1];
      UncoalescedConcat(cfg, a, b[..|b| - 1]);
    }
  }

  /** How much a message says: its characters and its end, or itself. */
  function Cost(m: OutMsg): nat {
    if Streams(m) then |m.content| + (if IsEnd(m) then 1 else 0)
    else if Flag(m, "_streamed") then 0
    else 1
  }

  lemma SoundLength<T>(m: OutMsg, tag: T)
    ensures |SoundAs(m, tag)| == Cost(m)
  {
    hide Letters, Flag;
  }

  /** Merging under `tag` does not change what this message says: it says nothing, or it is not stopped by
      the filter and is heard under that tag anyway. */
  predicate InTune<T(==)>(view: OutMsg -> T, cfg: Config, tag: T, m: OutMsg) {
    Cost(m) > 0 ==> !Filtered(cfg, m) && (Streams(m) ==> view(m) == tag)
  }

  function Part(cfg: Config, m: OutMsg): seq<OutMsg> {
    if Filtered(cfg, m) then [] else [m]
  }

  lemma PartAgainstTag<T>(view: OutMsg -> T, cfg: Config, tag: T, m: OutMsg)
    ensures |Hear(view, Part(cfg, m))| <= |SoundAs(m, tag)|
    ensures SoundAs(m, tag) == Hear(view, Part(cfg, m)) <==> InTune(view, cfg, tag, m)
  {
    hide SoundAs, Filtered, Streams, Cost;
    SoundLength(m, tag);
    SoundLength(m, view(m));
    TagIsHeard(m, tag, view(m));
    if !Filtered(cfg, m) {
      assert [m][..0] == [];
      assert Hear(view, [m]) == [] + SoundAs(m, view(m));
      assert [] + SoundAs(m, view(m)) == SoundAs(m, view(m));
    }
  }

  lemma TagIsHeard<T>(m: OutMsg, tag: T, other: T)
    ensures SoundAs(m, tag) == SoundAs(m, other) <==> Cost(m) == 0 || !Streams(m) || tag == other
  {
    hide Letters, Flag;
    if Streams(m) && Cost(m) > 0 {
      var a, b := SoundAs(m, tag), SoundAs(m, other);
      assert a[0].tag == tag && b[0].tag == other;
    }
  }

  lemma {:induction false} PartsAgainstTag<T>(view: OutMsg -> T, cfg: Config, tag: T, ms: seq<OutMsg>)
    requires forall m :: m in ms ==> m.channel in cfg.channels
    ensures |Hear(view, Uncoalesced(cfg, ms))| <= |HearAs(ms, tag)|
    ensures HearAs(ms, tag) == Hear(view, Uncoalesced(cfg, ms)) <==> forall m :: m in ms ==> InTune(view, cfg, tag, m)
  {
    hide SoundAs, Filtered, InTune, Hear;
    if ms == [] {
      HearNothing(view);
    } else {
      var front, last := ms[..|ms| - 1], ms[|ms| - 1];
      assert last in ms && forall m :: m in ms <==> m in front || m == last;
      PartsAgainstTag(view, cfg, tag, front);
      PartAgainstTag(view, cfg, tag, last);
      assert Uncoalesced(cfg, ms) == Uncoalesced(cfg, front) + Part(cfg, last);
      HearConcat(view, Uncoalesced(cfg, front), Part(cfg, last));
      PartsAgree(HearAs(front, tag), SoundAs(last, tag),
                 Hear(view, Uncoalesced(cfg, front)), Hear(view, Part(cfg, last)));
    }
  }

  lemma HearNothing<T>(view: OutMsg -> T)
    ensures Hear(view, []) == []
  {
  }

  /** Every part of the group is in tune with the merged message. */
  predicate Agrees<T(==)>(view: OutMsg -> T, cfg: Config, g: seq<OutMsg>)
    requires g != []
  {
    forall i :: 0 <= i < |g| ==> InTune(view, cfg, view(Merged(g)), g[i])
  }

  lemma GroupAgainstParts<T>(view: OutMsg -> T, cfg: Config, g: seq<OutMsg>)
    requires IsGroup(g) && KeptGroup(cfg, g)
    ensures |Hear(view, Uncoalesced(cfg, g))| <= |Sound(view, Merged(g))|
    ensures Sound(view, Merged(g)) == Hear(view, Uncoalesced(cfg, g)) <==> Agrees(view, cfg, g)
  {
    hide SoundAs, Filtered, InTune, Hear, HearAs, Uncoalesced, Merged, Flag;
    var tag := view(Merged(g));
    MergedSaysItsParts(g, tag);
    forall m | m in g ensures m.channel in cfg.channels {
      var i :| 0 <= i < |g| && g[i] == m;
    }
    PartsAgainstTag(view, cfg, tag, g);
  }

  /** A group that is not delivered has no part that would be. */
  lemma {:induction false} DroppedGroup(cfg: Config, g: seq<OutMsg>)
    requires IsGroup(g) && (Filtered(cfg, g[0]) ==> |g| == 1) && !KeptGroup(cfg, g)
    ensures Uncoalesced(cfg, g) == []
    decreases |g|
  {
    hide Filtered, Flag;
    var front := g[..|g| - 1];
    if |g| > 1 {
      GroupFront(g);
      DroppedGroup(cfg, front);
    } else {
      assert front == [];
    }
  }

  ghost predicate AllAgree<T>(view: OutMsg -> T, cfg: Config, groups: seq<seq<OutMsg>>)
    requires forall g :: g in groups ==> g != []
  {
    forall g :: g in groups && KeptGroup(cfg, g) ==> Agrees(view, cfg, g)
  }

  lemma {:induction false} GroupsAgainstParts<T>(view: OutMsg -> T, cfg: Config, groups: seq<seq<OutMsg>>)
    requires LegalGroups(cfg, groups)
    ensures |Hear(view, Uncoalesced(cfg, Flatten(groups)))| <= |Hear(view, DeliveredOf(cfg, groups))|
    ensures Hear(view, DeliveredOf(cfg, groups)) == Hear(view, Uncoalesced(cfg, Flatten(groups)))
       <==> AllAgree(view, cfg, groups)
  {
    hide *;
    if groups == [] {
      NoGroupsHeard(view, cfg);
    } else {
      var front, g := groups[..|groups| - 1], groups[|groups| - 1];
      assert groups == front + [g];
      SplitGroups(view, cfg, groups);
      GroupsAgainstParts(view, cfg, front);
      StepDispatch(cfg, front, g, []);
      FlattenSnoc(front, g);
      var flat, sent := Flatten(front), DeliveredOf(cfg, front);
      UncoalescedConcat(cfg, flat, g);
      HearConcat(view, Uncoalesced(cfg, flat), Uncoalesced(cfg, g));
      KeptMeans(cfg, g);
      if KeptGroup(cfg, g) {
        HearSnoc(view, sent, Merged(g));
        GroupAgainstParts(view, cfg, g);
        PartsAgree(Hear(view, sent), Sound(view, Merged(g)),
                   Hear(view, Uncoalesced(cfg, flat)), Hear(view, Uncoalesced(cfg, g)));
      } else {
        DroppedGroup(cfg, g);
        HearNothing(view);
        assert Hear(view, Uncoalesced(cfg, flat)) + [] == Hear(view, Uncoalesced(cfg, flat));
      }
    }
  }

  lemma KeptMeans(cfg: Config, g: seq<OutMsg>)
    requires g != []
    ensures KeptGroup(cfg, g) <==> !Filtered(cfg, g[0]) && g[0].channel in cfg.channels
  {
  }

  lemma NoGroupsHeard<T>(view: OutMsg -> T, cfg: Config)
    ensures AllAgree(view, cfg, []) && DeliveredOf(cfg, []) == [] && Uncoalesced(cfg, Flatten<OutMsg>([])) == []
  {
  }

  lemma SplitGroups<T>(view: OutMsg -> T, cfg: Config, groups: seq<seq<OutMsg>>)
    requires groups != [] && LegalGroups(cfg, groups)
    ensures var front, g := groups[..|groups| - 1], groups[|groups| - 1];
            && LegalGroups(cfg, front) && IsGroup(g) && (Filtered(cfg, g[0]) ==> |g| == 1)
            && (AllAgree(view, cfg, groups) <==>
                AllAgree(view, cfg, front) && (KeptGroup(cfg, g) ==> Agrees(view, cfg, g)))
  {
    hide IsGroup, Filtered, Agrees;
    var front, g := groups[..|groups| - 1], groups[|groups| - 1];
    assert forall x :: x in groups <==> x in front || x == g;
  }

  /** However the deltas of a run were merged, a channel with this view hears what it would have heard
      without merging exactly when every part of every delivered group is in tune with its merged message. */
  lemma TimingIsInaudibleIff<T>(view: OutMsg -> T, cfg: Config, input: seq<OutMsg>, groups: seq<seq<OutMsg>>)
    requires IsDispatch(cfg, input, groups)
    ensures Hear(view, DeliveredOf(cfg, groups)) == Hear(view, Uncoalesced(cfg, input)) <==> AllAgree(view, cfg, groups)
  {
    hide *;
    DispatchParts(cfg, input, groups);
    GroupsAgainstParts(view, cfg, groups);
  }

  lemma DispatchParts(cfg: Config, input: seq<OutMsg>, groups: seq<seq<OutMsg>>)
    requires IsDispatch(cfg, input, groups)
    ensures LegalGroups(cfg, groups) && Flatten(groups) == input
  {
  }

  // ---- Every legal dispatch comes from some timing ----

  /** From the k-th poll on, the timing gives these answers. */
  predicate Plays(ready: nat -> bool, k: nat, answers: seq<bool>)
    decreases |answers|
  {
    answers == [] || (ready(k) == answers[0] && Plays(ready, k + 1, answers[1..]))
  }

  /** The answers that make a delta absorb just `tail`. */
  function AnswersForTail(tail: seq<OutMsg>): seq<bool> {
    if tail == [] then [false]
    else if IsEnd(tail[0]) then [true]
    else [true] + AnswersForTail(tail[1..])
  }

  function AnswersFor(cfg: Config, g: seq<OutMsg>): seq<bool>
    requires g != []
  {
    if Coalesces(cfg, g[0]) then AnswersForTail(g[1..]) else []
  }

  function AllAnswers(cfg: Config, groups: seq<seq<OutMsg>>): seq<bool>
    requires forall g :: g in groups ==> g != []
  {
    if groups == [] then []
    else
      assert groups[0] in groups && forall g :: g in groups[1..] ==> g in groups;
      AnswersFor(cfg, groups[0]) + AllAnswers(cfg, groups[1..])
  }

  lemma {:induction false} PlaysSplit(ready: nat -> bool, k: nat, a: seq<bool>, b: seq<bool>)
    requires Plays(ready, k, a + b)
    ensures Plays(ready, k, a) && Plays(ready, k + |a|, b)
    decreases |a|
  {
    if a == [] {
      assert a + b == b;
    } else {
      assert (a + b)[1..] == a[1..] + b;
      PlaysSplit(ready, k + 1, a[1..], b);
    }
  }

  /** Deltas to the target of `first`, of which only the last may end the stream. */
  predicate IsTailOf(first: OutMsg, tail: seq<OutMsg>) {
    tail == [] ||
    (IsDelta(tail[0]) && SameTarget(tail[0], first) && (IsEnd(tail[0]) ==> |tail| == 1) && IsTailOf(first, tail[1..]))
  }

  lemma {:induction false} TailAbsorbed(ready: nat -> bool, k: nat, first: OutMsg, tail: seq<OutMsg>, rest: seq<OutMsg>)
    requires IsTailOf(first, tail) && Plays(ready, k, AnswersForTail(tail))
    ensures Absorbed(ready, k, first, tail + rest) == |tail|
    ensures Polls(ready, k, first, tail + rest) == |AnswersForTail(tail)|
    decreases |tail|
  {
    hide Flag;
    if tail == [] {
      assert tail + rest == rest;
    } else {
      var all := tail + rest;
      assert all[0] == tail[0] && all[1..] == tail[1..] + rest;
      if !IsEnd(tail[0]) {
        assert AnswersForTail(tail)[1..] == AnswersForTail(tail[1..]);
        TailAbsorbed(ready, k + 1, first, tail[1..], rest);
      }
    }
  }

  lemma {:induction false} GroupTailFrom(g: seq<OutMsg>, i: nat)
    requires IsGroup(g) && 1 <= i <= |g|
    ensures IsTailOf(g[0], g[i..])
    decreases |g| - i
  {
    hide Flag;
    if i < |g| {
      SplitAt(g, i);
      GroupTailFrom(g, i + 1);
    }
  }

  lemma {:induction false} AnswersMakeGroups(cfg: Config, ready: nat -> bool, k: nat, groups: seq<seq<OutMsg>>)
    requires LegalGroups(cfg, groups) && Plays(ready, k, AllAnswers(cfg, groups))
    ensures GroupsOf(cfg, ready, k, Flatten(groups)) == groups
    decreases |groups|
  {
    hide *;
    if groups == [] {
      NoGroups(cfg, ready, k);
      EmptyFlatten<OutMsg>();
    } else {
      var g, more := groups[0], groups[1..];
      FirstGroup(cfg, groups);
      var answers := AnswersFor(cfg, g);
      PlaysSplit(ready, k, answers, AllAnswers(cfg, more));
      AnswersMakeGroups(cfg, ready, k + |answers|, more);
      FlattenHead(groups);
      GroupForms(cfg, ready, k, g, Flatten(more));
      assert groups == [g] + more;
    }
  }

  lemma FirstGroup(cfg: Config, groups: seq<seq<OutMsg>>)
    requires LegalGroups(cfg, groups) && groups != []
    ensures IsGroup(groups[0]) && (Filtered(cfg, groups[0][0]) ==> |groups[0]| == 1) && LegalGroups(cfg, groups[1..])
    ensures AllAnswers(cfg, groups) == AnswersFor(cfg, groups[0]) + AllAnswers(cfg, groups[1..])
  {
    hide IsGroup, Filtered, AnswersFor;
    assert groups[0] in groups;
  }

  lemma GroupForms(cfg: Config, ready: nat -> bool, k: nat, g: seq<OutMsg>, rest: seq<OutMsg>)
    requires IsGroup(g) && (Filtered(cfg, g[0]) ==> |g| == 1) && Plays(ready, k, AnswersFor(cfg, g))
    ensures GroupsOf(cfg, ready, k, g + rest) == [g] + GroupsOf(cfg, ready, k + |AnswersFor(cfg, g)|, rest)
  {
    hide GroupsOf, Absorbed, Polls, IsGroup, Filtered, Flag, Plays, IsTailOf, AnswersForTail, Coalesces;
    var tail := g[1..];
    assert g == [g[0]] + tail && g + rest == [g[0]] + (tail + rest);
    GroupsStep(cfg, ready, k, g[0], tail + rest);
    if Coalesces(cfg, g[0]) {
      GroupTailFrom(g, 1);
      TailAbsorbed(ready, k, g[0], tail, rest);
      assert (tail + rest)[..|tail|] == tail && (tail + rest)[|tail|..] == rest;
    } else {
      AloneUnlessCoalescing(cfg, g);
      assert tail == [] && tail + rest == rest && g == [g[0]];
    }
  }

  lemma AloneUnlessCoalescing(cfg: Config, g: seq<OutMsg>)
    requires IsGroup(g) && (Filtered(cfg, g[0]) ==> |g| == 1) && !Coalesces(cfg, g[0])
    ensures |g| == 1 && AnswersFor(cfg, g) == []
  {
    hide Flag;
  }

  function Timing(answers: seq<bool>): nat -> bool {
    (k: nat) => k < |answers| && answers[k]
  }

  /** The method's groups are legal, and every legal grouping is what the method does under some timing. */
  lemma DispatchesAreTimings(cfg: Config, input: seq<OutMsg>, groups: seq<seq<OutMsg>>)
    requires IsDispatch(cfg, input, groups)
    ensures exists ready :: GroupsOf(cfg, ready, 0, input) == groups
  {
    hide GroupsOf, LegalGroups;
    var answers := AllAnswers(cfg, groups);
    TimingPlays(answers, 0);
    assert answers[0..] == answers;
    AnswersMakeGroups(cfg, Timing(answers), 0, groups);
  }

  lemma {:induction false} TimingPlays(answers: seq<bool>, k: nat)
    requires k <= |answers|
    ensures Plays(Timing(answers), k, answers[k..])
    decreases |answers| - k
  {
    if k < |answers| {
      SplitAt(answers, k);
      TimingPlays(answers, k + 1);
    }
  }

  lemma {:induction false} TimingsAreDispatches(cfg: Config, ready: nat -> bool, k: nat, input: seq<OutMsg>)
    ensures IsDispatch(cfg, input, GroupsOf(cfg, ready, k, input))
    decreases |input|
  {
    hide *;
    if input == [] {
      NoGroups(cfg, ready, k);
      NoDispatch(cfg);
    } else {
      var m, rest := input[0], input[1..];
      assert input == [m] + rest;
      GroupsStep(cfg, ready, k, m, rest);
      if Coalesces(cfg, m) {
        var n := Absorbed(ready, k, m, rest);
        AbsorbedIsGroup(cfg, ready, k, m, rest);
        TimingsAreDispatches(cfg, ready, k + Polls(ready, k, m, rest), rest[n..]);
        assert ([m] + rest[..n]) + rest[n..] == input;
        ConsDispatch(cfg, [m] + rest[..n], rest[n..], GroupsOf(cfg, ready, k + Polls(ready, k, m, rest), rest[n..]));
      } else {
        StartGroup(m);
        TimingsAreDispatches(cfg, ready, k, rest);
        ConsDispatch(cfg, [m], rest, GroupsOf(cfg, ready, k, rest));
      }
    }
  }

  lemma NoDispatch(cfg: Config)
    ensures IsDispatch(cfg, [], [])
  {
  }

  lemma ConsDispatch(cfg: Config, g: seq<OutMsg>, input: seq<OutMsg>, groups: seq<seq<OutMsg>>)
    requires IsDispatch(cfg, input, groups) && IsGroup(g) && (Filtered(cfg, g[0]) ==> |g| == 1)
    ensures IsDispatch(cfg, g + input, [g] + groups)
  {
    hide IsGroup, Filtered;
    FlattenHead([g] + groups);
    assert ([g] + groups)[1..] == groups;
  }

  lemma {:induction false} AbsorbedIsTail(ready: nat -> bool, k: nat, first: OutMsg, rest: seq<OutMsg>)
    ensures IsTailOf(first, rest[..Absorbed(ready, k, first, rest)])
    decreases |rest|
  {
    hide Flag;
    var n := Absorbed(ready, k, first, rest);
    if n > 0 {
      var tail := rest[..n];
      assert tail[0] == rest[0] && tail[1..] == rest[1..][..n - 1];
      if !IsEnd(rest[0]) {
        AbsorbedIsTail(ready, k + 1, first, rest[1..]);
      } else {
        assert tail[1..] == [];
      }
    }
  }

  lemma {:induction false} TailMakesGroup(g: seq<OutMsg>, tail: seq<OutMsg>)
    requires IsGroup(g) && IsDelta(g[0]) && IsTailOf(g[0], tail) && (tail != [] ==> !IsEnd(g[|g| - 1]))
    ensures IsGroup(g + tail)
    decreases |tail|
  {
    hide IsGroup, IsDelta, IsEnd, SameTarget, Contents;
    if tail == [] {
      assert g + tail == g;
    } else {
      GrowGroup(g, tail[0]);
      TailMakesGroup(g + [tail[0]], tail[1..]);
      assert g + tail == (g + [tail[0]]) + tail[1..];
    }
  }

  lemma AbsorbedIsGroup(cfg: Config, ready: nat -> bool, k: nat, m: OutMsg, rest: seq<OutMsg>)
    requires Coalesces(cfg, m)
    ensures IsGroup([m] + rest[..Absorbed(ready, k, m, rest)]) && !Filtered(cfg, m)
  {
    hide Flag, Absorbed, Filtered, IsTailOf;
    AbsorbedIsTail(ready, k, m, rest);
    StartGroup(m);
    TailMakesGroup([m], rest[..Absorbed(ready, k, m, rest)]);
  }

  // ---- What a caller can check beforehand ----

  /** The messages from `i` to `j` may be merged into one that is delivered. */
  predicate Mergeable(cfg: Config, input: seq<OutMsg>, i: nat, j: nat)
    requires i <= j < |input|
  {
    IsGroup(input[i..j + 1]) && KeptGroup(cfg, input[i..j + 1])
  }

  /** Somewhere the queue holds a stretch that may be merged and delivered although one of its parts is out
      of tune with the whole. */
  ghost predicate Discord<T>(view: OutMsg -> T, cfg: Config, input: seq<OutMsg>) {
    exists i, j :: 0 <= i <= j < |input| && DiscordAt(view, cfg, input, i, j)
  }

  ghost predicate DiscordAt<T>(view: OutMsg -> T, cfg: Config, input: seq<OutMsg>, i: nat, j: nat)
    requires i <= j < |input|
  {
    Mergeable(cfg, input, i, j) && !Agrees(view, cfg, input[i..j + 1])
  }

  /** The dispatch that merges just one group and nothing else. */
  function OnlyGroup(before: seq<OutMsg>, g: seq<OutMsg>, after: seq<OutMsg>): seq<seq<OutMsg>> {
    (Singles(before) + [g]) + Singles(after)
  }

  lemma OnlyGroupIsDispatch(cfg: Config, before: seq<OutMsg>, g: seq<OutMsg>, after: seq<OutMsg>)
    requires IsGroup(g) && KeptGroup(cfg, g)
    ensures IsDispatch(cfg, before + g + after, OnlyGroup(before, g, after))
    ensures g in OnlyGroup(before, g, after) && forall x :: x in OnlyGroup(before, g, after) ==> x != []
  {
    hide IsGroup, Filtered, Singles, Flatten;
    SinglesFlat(before);
    SinglesFlat(after);
    FlattenSnoc(Singles(before), g);
    FlattenConcat(Singles(before) + [g], Singles(after));
    var groups := OnlyGroup(before, g, after);
    forall x | x in groups ensures IsGroup(x) && x != [] && (Filtered(cfg, x[0]) ==> |x| == 1) {
      if x != g {
        assert x == [x[0]];
        StartGroup(x[0]);
      }
    }
  }

  lemma DiscordHappens<T>(view: OutMsg -> T, cfg: Config, input: seq<OutMsg>) returns (groups: seq<seq<OutMsg>>)
    requires Discord(view, cfg, input)
    ensures IsDispatch(cfg, input, groups) && !AllAgree(view, cfg, groups)
  {
    hide IsGroup, OnlyGroup, IsDispatch, Agrees;
    var i, j :| 0 <= i <= j < |input| && DiscordAt(view, cfg, input, i, j);
    var before, g, after := input[..i], input[i..j + 1], input[j + 1..];
    groups := OnlyGroup(before, g, after);
    OnlyGroupIsDispatch(cfg, before, g, after);
    assert before + g + after == input;
  }

  lemma NoDiscord<T>(view: OutMsg -> T, cfg: Config, input: seq<OutMsg>, groups: seq<seq<OutMsg>>, g: seq<OutMsg>)
    requires IsDispatch(cfg, input, groups) && g in groups && g != [] && KeptGroup(cfg, g) && !Discord(view, cfg, input)
    ensures Agrees(view, cfg, g)
  {
    hide IsGroup, Agrees, Flatten, KeptGroup;
    var p := GroupIsSlice(groups, g);
    assert input[p..(p + |g| - 1) + 1] == g;
    assert !DiscordAt(view, cfg, input, p, p + |g| - 1);
  }

  ghost predicate SoundsUnmerged<T(!new)>(view: OutMsg -> T, cfg: Config, ready: nat -> bool, input: seq<OutMsg>) {
    var groups := GroupsOf(cfg, ready, 0, input);
    IsDispatch(cfg, input, groups) && Hear(view, DeliveredOf(cfg, groups)) == Hear(view, Uncoalesced(cfg, input))
  }

  lemma UnmergedIff<T(!new)>(view: OutMsg -> T, cfg: Config, ready: nat -> bool, input: seq<OutMsg>)
    ensures var groups := GroupsOf(cfg, ready, 0, input);
            IsDispatch(cfg, input, groups) && (SoundsUnmerged(view, cfg, ready, input) <==> AllAgree(view, cfg, groups))
  {
    hide Hear, DeliveredOf, Uncoalesced, AllAgree, GroupsOf, IsDispatch;
    TimingsAreDispatches(cfg, ready, 0, input);
    TimingIsInaudibleIff(view, cfg, input, GroupsOf(cfg, ready, 0, input));
  }

  /** Under every timing a channel with this view hears what it would without merging, exactly when the
      queue holds no discord. */
  lemma AllTimingsAgreeIff<T(!new)>(view: OutMsg -> T, cfg: Config, input: seq<OutMsg>)
    ensures (forall ready: nat -> bool :: SoundsUnmerged(view, cfg, ready, input)) <==> !Discord(view, cfg, input)
  {
    hide Discord, SoundsUnmerged, IsDispatch, AllAgree;
    if Discord(view, cfg, input) {
      var groups := DiscordHappens(view, cfg, input);
      DispatchesAreTimings(cfg, input, groups);
      var ready :| GroupsOf(cfg, ready, 0, input) == groups;
      UnmergedIff(view, cfg, ready, input);
    } else {
      forall ready: nat -> bool ensures SoundsUnmerged(view, cfg, ready, input) {
        UnmergedIff(view, cfg, ready, input);
        QuietGroups(view, cfg, input, GroupsOf(cfg, ready, 0, input));
      }
    }
  }

  lemma QuietGroups<T>(view: OutMsg -> T, cfg: Config, input: seq<OutMsg>, groups: seq<seq<OutMsg>>)
    requires IsDispatch(cfg, input, groups) && !Discord(view, cfg, input)
    ensures AllAgree(view, cfg, groups)
  {
    hide Discord, Agrees, Flatten, IsGroup, KeptGroup;
    forall g | g in groups && KeptGroup(cfg, g) ensures Agrees(view, cfg, g) {
      NoDiscord(view, cfg, input, groups, g);
    }
  }

  // ---- Three ways to listen ----

  /** Text and ends per channel and chat, nothing else. */
  function TextOnly(m: OutMsg): () {
    ()
  }

  /** The metadata handed to `send_delta`, without the end mark. */
  function Context(m: OutMsg): Metadata {
    m.metadata - {STREAM_END}
  }

  /** All of the metadata, so that it matters whether text came in the call that ended the stream. */
  function Everything(m: OutMsg): Metadata {
    m.metadata
  }

  /** For the text alone a group is in tune just when no absorbed message that the filter should have
      stopped says anything. */
  lemma TextAgreesIff(cfg: Config, g: seq<OutMsg>)
    requires IsGroup(g) && KeptGroup(cfg, g)
    ensures Agrees(TextOnly, cfg, g) <==> forall i :: 1 <= i < |g| && Filtered(cfg, g[i]) ==> Cost(g[i]) == 0
  {
    hide Filtered, Cost, IsGroup, Merged, Streams;
  }

  /** With the metadata, just when everything absorbed that says something has the metadata of the first. */
  lemma ContextAgreesIff(cfg: Config, g: seq<OutMsg>)
    requires IsGroup(g) && KeptGroup(cfg, g)
    ensures Agrees(Context, cfg, g) <==> forall i :: 1 <= i < |g| && Cost(g[i]) > 0 ==> Context(g[i]) == Context(g[0])
  {
    hide Filtered, Cost, Merged, Flag, Context;
    MergedContext(g);
    forall i | 0 <= i < |g| && Context(g[i]) == Context(g[0]) ensures !Filtered(cfg, g[i]) {
      FilterSeesContext(cfg, g[i], g[0]);
    }
    if |g| == 1 {
      assert g == [g[0]];
    }
    assert |g| > 1 ==> forall i :: 0 <= i < |g| ==> Streams(g[i]);
  }

  lemma MergedContext(g: seq<OutMsg>)
    requires g != []
    ensures Context(Merged(g)) == Context(g[0])
  {
    hide Contents;
  }

  lemma FilterSeesContext(cfg: Config, a: OutMsg, b: OutMsg)
    requires Context(a) == Context(b)
    ensures Filtered(cfg, a) <==> Filtered(cfg, b)
  {
    SameFlag(a, b, "_progress");
    SameFlag(a, b, "_tool_hint");
    SameFlag(a, b, "_retry_wait");
  }

  lemma SameFlag(a: OutMsg, b: OutMsg, key: string)
    requires Context(a) == Context(b) && key != STREAM_END
    ensures Flag(a, key) <==> Flag(b, key)
  {
    assert key in a.metadata <==> key in Context(a);
    assert key in b.metadata <==> key in Context(b);
  }

  /** With all of it, an absorbed end is in tune only if no text came before it and it carries the first
      message's metadata; without an end, all that say something must carry the same metadata. */
  lemma EverythingAgreesIff(cfg: Config, g: seq<OutMsg>)
    requires IsGroup(g) && KeptGroup(cfg, g) && |g| > 1
    ensures var last := |g| - 1;
            Agrees(Everything, cfg, g) <==>
            if IsEnd(g[last])
            then g[last].metadata == g[0].metadata[STREAM_END := Bool(true)] &&
                 forall i :: 0 <= i < last ==> g[i].content == ""
            else forall i :: 0 <= i <= last && g[i].content != "" ==> g[i].metadata == g[0].metadata
  {
    hide Filtered, Contents, Merged, Flag;
    var last, m := |g| - 1, Merged(g);
    MergedFacts(g);
    assert forall i :: 0 <= i < last ==> !IsEnd(g[i]);
    assert forall i :: 0 <= i <= last ==> IsDelta(g[i]);
    EndMarks(g);
    forall i | 0 <= i <= last && g[i].metadata == m.metadata ensures !Filtered(cfg, g[i]) {
      MergedContext(g);
      FilterSeesContext(cfg, g[i], g[0]);
    }
    assert Agrees(Everything, cfg, g) <==> forall i :: 0 <= i <= last && Cost(g[i]) > 0 ==> g[i].metadata == m.metadata;
  }

  lemma EndMarks(g: seq<OutMsg>)
    requires g != []
    ensures forall i :: 0 <= i < |g| && g[i].metadata == g[0].metadata[STREAM_END := Bool(true)] ==> IsEnd(g[i])
  {
  }

  /** So the text survives every timing when no delta carries a progress or retry mark. */
  lemma TextSurvives(cfg: Config, input: seq<OutMsg>, groups: seq<seq<OutMsg>>)
    requires IsDispatch(cfg, input, groups)
    requires forall m :: m in input && IsDelta(m) ==> !Flag(m, "_progress") && !Flag(m, "_retry_wait")
    ensures Hear(TextOnly, DeliveredOf(cfg, groups)) == Hear(TextOnly, Uncoalesced(cfg, input))
  {
    hide Flag, Hear, Uncoalesced, DeliveredOf, Agrees, Cost;
    forall g | g in groups && KeptGroup(cfg, g) ensures Agrees(TextOnly, cfg, g) {
      forall i | 1 <= i < |g| ensures !Filtered(cfg, g[i]) {
        assert g[i] in g;
        InFlatten(groups, g, g[i]);
      }
      TextAgreesIff(cfg, g);
    }
    TimingIsInaudibleIff(TextOnly, cfg, input, groups);
  }

  /** And so does the metadata when all deltas to one chat carry the same. */
  lemma ContextSurvives(cfg: Config, input: seq<OutMsg>, groups: seq<seq<OutMsg>>)
    requires IsDispatch(cfg, input, groups)
    requires forall a, b :: a in input && b in input && IsDelta(a) && IsDelta(b) && SameTarget(a, b) ==>
               Context(a) == Context(b)
    ensures Hear(Context, DeliveredOf(cfg, groups)) == Hear(Context, Uncoalesced(cfg, input))
  {
    hide Flag, Hear, Uncoalesced, DeliveredOf, Agrees, Cost, Context, Filtered;
    forall g | g in groups && KeptGroup(cfg, g) ensures Agrees(Context, cfg, g) {
      forall i | 1 <= i < |g| ensures Context(g[i]) == Context(g[0]) {
        assert g[i] in g && g[0] in g;
        InFlatten(groups, g, g[i]);
        InFlatten(groups, g, g[0]);
      }
      ContextAgreesIff(cfg, g);
    }
    TimingIsInaudibleIff(Context, cfg, input, groups);
  }

  // ---- The same, seen on the queue ----

  lemma MergeablePrefix(cfg: Config, input: seq<OutMsg>, i: nat, j: nat, k: nat)
    requires i <= k <= j < |input| && Mergeable(cfg, input, i, j)
    ensures Mergeable(cfg, input, i, k)
  {
    hide Flag, Filtered;
    var g, p := input[i..j + 1], input[i..k + 1];
    assert forall x :: 0 <= x < |p| ==> p[x] == g[x];
  }

  predicate Stopped(cfg: Config, input: seq<OutMsg>, i: nat, j: nat)
    requires i < j < |input|
  {
    Mergeable(cfg, input, i, j) && Cost(input[j]) > 0 && Filtered(cfg, input[j])
  }

  predicate Renamed(cfg: Config, input: seq<OutMsg>, i: nat, j: nat)
    requires i < j < |input|
  {
    Mergeable(cfg, input, i, j) && Cost(input[j]) > 0 && Context(input[j]) != Context(input[i])
  }

  /** Timing can change the text only through a message that the filter should stop, that says something,
      and that can be absorbed into a stream. */
  lemma TextDiscordIff(cfg: Config, input: seq<OutMsg>)
    ensures Discord(TextOnly, cfg, input) <==> exists i, j :: 0 <= i < j < |input| && Stopped(cfg, input, i, j)
  {
    hide IsGroup, Agrees, Filtered, Cost, KeptGroup;
    if Discord(TextOnly, cfg, input) {
      var i, j :| 0 <= i <= j < |input| && DiscordAt(TextOnly, cfg, input, i, j);
      var g := input[i..j + 1];
      TextAgreesIff(cfg, g);
      var k :| 1 <= k < |g| && Filtered(cfg, g[k]) && Cost(g[k]) != 0;
      MergeablePrefix(cfg, input, i, j, i + k);
      assert g[k] == input[i + k] && Stopped(cfg, input, i, i + k);
    }
    if i, j :| 0 <= i < j < |input| && Stopped(cfg, input, i, j) {
      var g := input[i..j + 1];
      TextAgreesIff(cfg, g);
      assert g[j - i] == input[j];
      assert DiscordAt(TextOnly, cfg, input, i, j);
    }
  }

  /** Timing can change under which metadata something is heard only through a message that says something,
      can be absorbed into a stream, and carries other metadata than the stream's first message. */
  lemma ContextDiscordIff(cfg: Config, input: seq<OutMsg>)
    ensures Discord(Context, cfg, input) <==> exists i, j :: 0 <= i < j < |input| && Renamed(cfg, input, i, j)
  {
    hide IsGroup, Agrees, Context, Cost, KeptGroup;
    if Discord(Context, cfg, input) {
      var i, j :| 0 <= i <= j < |input| && DiscordAt(Context, cfg, input, i, j);
      var g := input[i..j + 1];
      ContextAgreesIff(cfg, g);
      var k :| 1 <= k < |g| && Cost(g[k]) > 0 && Context(g[k]) != Context(g[0]);
      MergeablePrefix(cfg, input, i, j, i + k);
      assert g[k] == input[i + k] && g[0] == input[i] && Renamed(cfg, input, i, i + k);
    }
    if i, j :| 0 <= i < j < |input| && Renamed(cfg, input, i, j) {
      var g := input[i..j + 1];
      ContextAgreesIff(cfg, g);
      assert g[j - i] == input[j] && g[0] == input[i];
      assert DiscordAt(Context, cfg, input, i, j);
    }
  }

  predicate Altered(cfg: Config, input: seq<OutMsg>, i: nat, j: nat)
    requires i < j < |input|
  {
    Mergeable(cfg, input, i, j) &&
    if IsEnd(input[j]) then
      || (exists k :: i <= k < j && input[k].content != "")
      || input[j].metadata != input[i].metadata[STREAM_END := Bool(true)]
    else input[j].content != "" && input[j].metadata != input[i].metadata
  }

  lemma AlteredSlice(cfg: Config, input: seq<OutMsg>, i: nat, j: nat)
    requires i < j < |input| && Altered(cfg, input, i, j)
    ensures !Agrees(Everything, cfg, input[i..j + 1])
  {
    hide IsGroup, Agrees, KeptGroup, IsEnd;
    var g := input[i..j + 1];
    EverythingAgreesIff(cfg, g);
    assert g[j - i] == input[j] && g[0] == input[i];
    if k :| i <= k < j && input[k].content != "" {
      assert g[k - i] == input[k];
    }
  }

  lemma SliceAltered(cfg: Config, input: seq<OutMsg>, i: nat, j: nat) returns (k: nat)
    requires i <= j < |input| && Mergeable(cfg, input, i, j) && !Agrees(Everything, cfg, input[i..j + 1])
    ensures i < k < |input| && Altered(cfg, input, i, k)
  {
    hide IsGroup, Agrees, KeptGroup, IsEnd;
    var g := input[i..j + 1];
    assert g[j - i] == input[j] && g[0] == input[i];
    if i == j {
      assert g == [input[i]];
      AloneAgrees(cfg, input[i]);
    }
    EverythingAgreesIff(cfg, g);
    if IsEnd(g[|g| - 1]) {
      k := j;
      assert forall x :: 0 <= x < j - i ==> g[x] == input[i + x];
    } else {
      var x :| 0 <= x < |g| && g[x].content != "" && g[x].metadata != g[0].metadata;
      k := i + x;
      assert g[x] == input[k];
      MergeablePrefix(cfg, input, i, j, k);
      OnlyLastEnds(g);
    }
  }

  lemma AloneAgrees(cfg: Config, m: OutMsg)
    requires KeptGroup(cfg, [m])
    ensures Agrees(Everything, cfg, [m])
  {
    hide Filtered;
    AloneIsMerged(m);
  }

  lemma OnlyLastEnds(g: seq<OutMsg>)
    requires IsGroup(g)
    ensures forall i :: 0 <= i < |g| - 1 ==> !IsEnd(g[i])
  {
  }

  /** Timing can change what is heard together with the end mark only through an end that can be absorbed
      behind text or with other metadata than the stream's first message, or through absorbed text with other
      metadata. */
  lemma EverythingDiscordIff(cfg: Config, input: seq<OutMsg>)
    ensures Discord(Everything, cfg, input) <==> exists i, j :: 0 <= i < j < |input| && Altered(cfg, input, i, j)
  {
    hide Agrees, Mergeable;
    if Discord(Everything, cfg, input) {
      var i, j :| 0 <= i <= j < |input| && DiscordAt(Everything, cfg, input, i, j);
      var k := SliceAltered(cfg, input, i, j);
    }
    if i, j :| 0 <= i < j < |input| && Altered(cfg, input, i, j) {
      AlteredSlice(cfg, input, i, j);
      assert DiscordAt(Everything, cfg, input, i, j);
    }
  }

  // ---- When timing is audible ----

  lemma PairIsDispatch(cfg: Config, a: OutMsg, b: OutMsg)
    requires IsDelta(a) && !IsEnd(a) && IsDelta(b) && SameTarget(a, b) && !Filtered(cfg, a) && a.channel in cfg.channels
    ensures IsGroup([a, b]) && KeptGroup(cfg, [a, b]) && IsDispatch(cfg, [a, b], [[a, b]])
  {
    hide Flag, Filtered;
    var g := [a, b];
    FlattenHead([g]);
    EmptyFlatten<OutMsg>();
    assert [g][1..] == [] && g + [] == g;
  }

  /** A retry notice behind a delta is heard when it happens to be ready, though the filter should stop it. */
  lemma AbsorbedNoticeIsHeard(cfg: Config) returns (input: seq<OutMsg>, groups: seq<seq<OutMsg>>)
    requires "c" in cfg.channels
    ensures IsDispatch(cfg, input, groups)
    ensures Hear(TextOnly, DeliveredOf(cfg, groups)) != Hear(TextOnly, Uncoalesced(cfg, input))
  {
    var first := OutMsg("c", "1", "a", None, [], map[STREAM_DELTA := Bool(true)]);
    var notice := OutMsg("c", "1", "b", None, [], map[STREAM_DELTA := Bool(true), "_retry_wait" := Bool(true)]);
    var g := [first, notice];
    input, groups := g, [g];
    PairIsDispatch(cfg, first, notice);
    assert Filtered(cfg, g[1]) && Cost(g[1]) == 1;
    hide Flag, Hear, Uncoalesced, DeliveredOf, Agrees, Filtered, Cost, IsGroup, IsDispatch;
    TextAgreesIff(cfg, g);
    assert g in groups;
    TimingIsInaudibleIff(TextOnly, cfg, input, groups);
  }

  /** A delta of an answer to the message `id`. */
  function AnswerTo(id: string, text: string): OutMsg {
    OutMsg("c", "1", text, None, [], map[STREAM_DELTA := Bool(true), "message_id" := Str(id)])
  }

  lemma AnswerFacts(cfg: Config, id: string, text: string)
    ensures var m := AnswerTo(id, text);
            && IsDelta(m) && !IsEnd(m) && !Filtered(cfg, m) && Cost(m) == |text|
            && m.channel == "c" && m.chat == "1"
            && "message_id" in Context(m) && Context(m)["message_id"] == Str(id)
  {
    var m := AnswerTo(id, text);
    assert m.metadata.Keys == {STREAM_DELTA, "message_id"};
    assert forall key :: key !in {STREAM_DELTA, "message_id"} ==> !Flag(m, key);
  }

  /** Two deltas of one chat that answer different messages: merged, the second one's text is sent in the
      name of the first. The text alone does not tell, the metadata does. */
  lemma AbsorbedContextIsLost(cfg: Config) returns (input: seq<OutMsg>, groups: seq<seq<OutMsg>>)
    requires "c" in cfg.channels
    ensures IsDispatch(cfg, input, groups)
    ensures Hear(TextOnly, DeliveredOf(cfg, groups)) == Hear(TextOnly, Uncoalesced(cfg, input))
    ensures Hear(Context, DeliveredOf(cfg, groups)) != Hear(Context, Uncoalesced(cfg, input))
  {
    hide IsDelta, IsEnd, Hear, Uncoalesced, DeliveredOf, Agrees, Filtered, Cost, IsGroup, IsDispatch, Context, AnswerTo;
    var a, b := AnswerTo("m1", "a"), AnswerTo("m2", "b");
    AnswerFacts(cfg, "m1", "a");
    AnswerFacts(cfg, "m2", "b");
    var g := [a, b];
    input, groups := g, [g];
    PairIsDispatch(cfg, a, b);
    assert g[1] == b && Context(a) != Context(b) && g in groups;
    TextAgreesIff(cfg, g);
    ContextAgreesIff(cfg, g);
    TimingIsInaudibleIff(TextOnly, cfg, input, groups);
    TimingIsInaudibleIff(Context, cfg, input, groups);
  }
}
