/** The streaming side of the Feishu channel (`send_delta` in feishu.rs) behind the dispatcher: text is
    buffered per answered message and shown for good by the call that ends the stream, whose own text is
    ignored. So text merged with the end of its stream is lost, and nothing else is. */
module FeishuStream {
  import opened Basics
  import opened Dispatcher
  import opened DispatchTheory

  /** Buffered texts by stream, and the finished texts in order. */
  datatype Buffers = Buffers(texts: map<string, string>, shown: seq<string>)

  /** The inbound message being answered, or else the chat. */
  function StreamKey(m: OutMsg): string {
    if "message_id" in m.metadata && m.metadata["message_id"].Str? then m.metadata["message_id"].text else m.chat
  }

  function Buffered(s: Buffers, key: string): string {
    if key in s.texts then s.texts[key] else ""
  }

  /** What is shown when a stream ends. */
  function Finished(text: string): seq<string> {
    if text == "" then [] else [text]
  }

  /** The end is recognised by the presence of its mark, whatever the value. */
  function SendDelta(s: Buffers, m: OutMsg): Buffers {
    var key := StreamKey(m);
    if STREAM_END in m.metadata then Buffers(s.texts - {key}, s.shown + Finished(Buffered(s, key)))
    else s.(texts := s.texts[key := Buffered(s, key) + m.content])
  }

  /** `send_once`, as far as this channel's buffers are concerned. */
  function Hand(channel: string, s: Buffers, m: OutMsg): Buffers {
    if m.channel == channel && Streams(m) then SendDelta(s, m) else s
  }

  function HandAll(channel: string, s: Buffers, ms: seq<OutMsg>): Buffers {
    if ms == [] then s else Hand(channel, HandAll(channel, s, ms[..|ms| - 1]), ms[|ms| - 1])
  }

  lemma HandSnoc(channel: string, s: Buffers, ms: seq<OutMsg>, m: OutMsg)
    ensures HandAll(channel, s, ms + [m]) == Hand(channel, HandAll(channel, s, ms), m)
  {
    assert (ms + [m])[..|ms|] == ms;
  }

  lemma {:induction false} HandConcat(channel: string, s: Buffers, a: seq<OutMsg>, b: seq<OutMsg>)
    ensures HandAll(channel, s, a + b) == HandAll(channel, HandAll(channel, s, a), b)
  {
    hide Hand;
    if b == [] {
      assert a + b == a;
    } else {
      var front, last := b[..|b| - 1], b[|b| - 1];
      HandConcat(channel, s, a, front);
      assert (a + b)[..|a + b| - 1] == a + front;
    }
  }

  // ---- The same texts waiting means the same texts shown from then on ----

  ghost predicate SameText(a: Buffers, b: Buffers) {
    forall key :: Buffered(a, key) == Buffered(b, key)
  }

  lemma HandSame(channel: string, a: Buffers, b: Buffers, m: OutMsg) returns (more: seq<string>)
    requires SameText(a, b)
    ensures var a', b' := Hand(channel, a, m), Hand(channel, b, m);
            SameText(a', b') && a'.shown == a.shown + more && b'.shown == b.shown + more
  {
    more := if m.channel == channel && Streams(m) && STREAM_END in m.metadata
            then Finished(Buffered(a, StreamKey(m))) else [];
    hide Finished, Streams, StreamKey;
    assert a.shown + [] == a.shown && b.shown + [] == b.shown;
    forall key ensures Buffered(Hand(channel, a, m), key) == Buffered(Hand(channel, b, m), key) {
      assert Buffered(a, key) == Buffered(b, key);
    }
  }

  lemma {:induction false} HandAllSame(channel: string, a: Buffers, b: Buffers, ms: seq<OutMsg>)
    returns (more: seq<string>)
    requires SameText(a, b)
    ensures var a', b' := HandAll(channel, a, ms), HandAll(channel, b, ms);
            SameText(a', b') && a'.shown == a.shown + more && b'.shown == b.shown + more
    decreases |ms|
  {
    hide Hand, SameText;
    more := [];
    if ms == [] {
      assert a.shown + [] == a.shown && b.shown + [] == b.shown;
    } else {
      var front, m := ms[..|ms| - 1], ms[|ms| - 1];
      var before := HandAllSame(channel, a, b, front);
      var last := HandSame(channel, HandAll(channel, a, front), HandAll(channel, b, front), m);
      more := before + last;
      assert (a.shown + before) + last == a.shown + more && (b.shown + before) + last == b.shown + more;
    }
  }

  // ---- One stream ----

  /** Deltas of one stream, none of them marked as an end. */
  predicate OpenStream(channel: string, ms: seq<OutMsg>, key: string) {
    forall m :: m in ms ==> m.channel == channel && Streams(m) && StreamKey(m) == key && STREAM_END !in m.metadata
  }

  /** The deltas of a stream are buffered in order, and nothing else happens. */
  lemma {:induction false} OpenStreamIsBuffered(channel: string, s: Buffers, ms: seq<OutMsg>, key: string)
    requires OpenStream(channel, ms, key)
    ensures var t := HandAll(channel, s, ms);
            && Buffered(t, key) == Buffered(s, key) + Contents(ms) && t.shown == s.shown
            && forall other :: other != key ==> Buffered(t, other) == Buffered(s, other)
    decreases |ms|
  {
    hide StreamKey, Streams;
    if ms == [] {
      assert Buffered(s, key) + "" == Buffered(s, key);
    } else {
      var front, last := ms[..|ms| - 1], ms[|ms| - 1];
      OpenStreamIsBuffered(channel, s, front, key);
      assert last in ms;
      assert (Buffered(s, key) + Contents(front)) + last.content == Buffered(s, key) + (Contents(front) + last.content);
    }
  }

  /** Streams of one chat that answer different messages are kept apart, whatever text comes in for either. */
  lemma AnswersAreKeptApart(channel: string, s: Buffers, m: OutMsg, a: string, b: string)
    requires m.channel == channel && Streams(m) && a != b
    requires "message_id" in m.metadata && m.metadata["message_id"] == Str(a)
    ensures Buffered(Hand(channel, s, m), b) == Buffered(s, b)
    ensures STREAM_END !in m.metadata ==> Buffered(Hand(channel, s, m), a) == Buffered(s, a) + m.content
    ensures STREAM_END in m.metadata ==> Buffered(Hand(channel, s, m), a) == ""
  {
  }

  /** Without the id of an answered message, the chat is the stream. */
  lemma UnansweringIsByChat(m: OutMsg)
    requires "message_id" !in m.metadata || !m.metadata["message_id"].Str?
    ensures StreamKey(m) == m.chat
  {
  }

  lemma EndShows(channel: string, s: Buffers, end: OutMsg)
    requires end.channel == channel && Streams(end) && STREAM_END in end.metadata
    ensures var t, key := Hand(channel, s, end), StreamKey(end);
            && t.shown == s.shown + Finished(Buffered(s, key)) && Buffered(t, key) == ""
            && forall other :: other != key ==> Buffered(t, other) == Buffered(s, other)
  {
    hide Streams, StreamKey, Finished;
  }

  lemma DeltaBuffers(channel: string, s: Buffers, m: OutMsg)
    requires m.channel == channel && Streams(m) && STREAM_END !in m.metadata
    ensures var t, key := Hand(channel, s, m), StreamKey(m);
            && t.shown == s.shown && Buffered(t, key) == Buffered(s, key) + m.content
            && forall other :: other != key ==> Buffered(t, other) == Buffered(s, other)
  {
    hide Streams, StreamKey;
  }

  lemma FinishedDiffers(before: string, lost: string)
    ensures Finished(before) == Finished(before + lost) <==> lost == ""
  {
    if lost == "" {
      assert before + lost == before;
    } else {
      assert |before + lost| > |before|;
      assert before != "" ==> Finished(before)[0] != Finished(before + lost)[0];
    }
  }

  /** Parts of one stream, in which only real ends carry the end mark. */
  predicate OneStream(g: seq<OutMsg>) {
    forall m :: m in g ==> StreamKey(m) == StreamKey(g[0]) && (STREAM_END in m.metadata ==> IsEnd(m))
  }

  lemma GroupParts(g: seq<OutMsg>)
    requires IsGroup(g) && |g| > 1 && OneStream(g)
    ensures OpenStream(g[0].channel, g[..|g| - 1], StreamKey(g[0]))
    ensures !IsEnd(g[|g| - 1]) ==> OpenStream(g[0].channel, g, StreamKey(g[0]))
  {
    hide StreamKey, Flag;
    forall m | m in g[..|g| - 1] ensures m in g && !IsEnd(m) && m.channel == g[0].channel && Streams(m) {
      var i :| 0 <= i < |g| - 1 && g[i] == m;
    }
  }

  lemma MergedKey(g: seq<OutMsg>)
    requires IsGroup(g) && |g| > 1 && OneStream(g)
    ensures var m := Merged(g);
            && m.channel == g[0].channel && Streams(m) && StreamKey(m) == StreamKey(g[0]) && m.content == Contents(g)
            && (STREAM_END in m.metadata <==> IsEnd(g[|g| - 1]))
  {
    hide Merged, Contents;
    MergedFacts(g);
    assert g[0] in g && STREAM_END != "message_id";
  }

  /** A merged group leaves the same texts waiting as its parts. It also shows the same, exactly when no text
      was merged with an end: that text is lost. */
  lemma MergedEndLosesTextIff(channel: string, s: Buffers, g: seq<OutMsg>)
    requires IsGroup(g) && |g| > 1 && OneStream(g) && g[0].channel == channel
    ensures var merged, parts := Hand(channel, s, Merged(g)), HandAll(channel, s, g);
            && SameText(merged, parts)
            && (merged.shown == parts.shown <==> !IsEnd(g[|g| - 1]) || Contents(g[..|g| - 1]) == "")
  {
    hide Hand, HandAll, Merged, Contents, StreamKey, Buffered, Streams, OpenStream, Finished, Flag;
    var front, last, key := g[..|g| - 1], g[|g| - 1], StreamKey(g[0]);
    MergedKey(g);
    GroupParts(g);
    GroupFront(g);
    assert g == front + [last] && last in g;
    if IsEnd(last) {
      MarkedEnd(last);
      EndShows(channel, s, Merged(g));
      OpenStreamIsBuffered(channel, s, front, key);
      HandSnoc(channel, s, front, last);
      EndShows(channel, HandAll(channel, s, front), last);
      FinishedDiffers(Buffered(s, key), Contents(front));
      SameStart(s.shown, Finished(Buffered(s, key)), Finished(Buffered(s, key) + Contents(front)));
    } else {
      DeltaBuffers(channel, s, Merged(g));
      OpenStreamIsBuffered(channel, s, g, key);
    }
  }

  lemma MarkedEnd(end: OutMsg)
    requires IsEnd(end)
    ensures STREAM_END in end.metadata && Streams(end)
  {
  }

  lemma {:induction false} ElsewhereIsIgnored(channel: string, s: Buffers, ms: seq<OutMsg>)
    requires forall m :: m in ms ==> m.channel != channel
    ensures HandAll(channel, s, ms) == s
  {
    if ms != [] {
      assert ms[|ms| - 1] in ms;
      ElsewhereIsIgnored(channel, s, ms[..|ms| - 1]);
    }
  }

  // ---- A whole dispatch ----

  /** Merging this group is harmless for the channel: it stands alone, goes elsewhere, or is one stream, not
      filtered, without text merged into an end. */
  ghost predicate Calm(cfg: Config, channel: string, g: seq<OutMsg>)
    requires g != []
  {
    || |g| == 1 || g[0].channel != channel
    || (OneStream(g) && (forall m :: m in g ==> !Filtered(cfg, m)) &&
        (IsEnd(g[|g| - 1]) ==> Contents(g[..|g| - 1]) == ""))
  }

  lemma {:induction false} NothingFiltered(cfg: Config, ms: seq<OutMsg>)
    requires forall m :: m in ms ==> Deliverable(cfg, m)
    ensures Uncoalesced(cfg, ms) == ms
  {
    hide Deliverable;
    if ms != [] {
      assert ms[|ms| - 1] in ms && ms == ms[..|ms| - 1] + [ms[|ms| - 1]];
      NothingFiltered(cfg, ms[..|ms| - 1]);
    }
  }

  lemma {:induction false} UncoalescedMembers(cfg: Config, ms: seq<OutMsg>)
    ensures forall m :: m in Uncoalesced(cfg, ms) ==> m in ms
  {
    hide Deliverable;
    if ms != [] {
      UncoalescedMembers(cfg, ms[..|ms| - 1]);
    }
  }

  lemma GroupChannel(g: seq<OutMsg>)
    requires IsGroup(g)
    ensures forall m :: m in g ==> m.channel == g[0].channel
  {
    hide Flag;
  }

  lemma CalmGroup(cfg: Config, channel: string, s: Buffers, g: seq<OutMsg>)
    requires IsGroup(g) && KeptGroup(cfg, g) && Calm(cfg, channel, g)
    ensures var merged, parts := Hand(channel, s, Merged(g)), HandAll(channel, s, Uncoalesced(cfg, g));
            SameText(merged, parts) && merged.shown == parts.shown
  {
    hide Hand, HandAll, Merged, Contents, Filtered, IsGroup, OneStream, Uncoalesced, Buffered, IsEnd;
    GroupChannel(g);
    if |g| == 1 {
      assert g == [g[0]] && [] + g == g;
      AloneIsMerged(g[0]);
      NothingFiltered(cfg, g);
      HandSnoc(channel, s, [], g[0]);
      HandNothing(channel, s);
    } else if g[0].channel != channel {
      UncoalescedMembers(cfg, g);
      ElsewhereIsIgnored(channel, s, Uncoalesced(cfg, g));
      MergedTarget(g);
      ElsewhereIsIgnored(channel, s, [Merged(g)]);
      HandSnoc(channel, s, [], Merged(g));
      HandNothing(channel, s);
      assert [] + [Merged(g)] == [Merged(g)];
    } else {
      NothingFiltered(cfg, g);
      MergedEndLosesTextIff(channel, s, g);
    }
  }

  lemma HandNothing(channel: string, s: Buffers)
    ensures HandAll(channel, s, []) == s
  {
  }

  lemma {:induction false} CalmGroups(cfg: Config, channel: string, s: Buffers, groups: seq<seq<OutMsg>>)
    requires LegalGroups(cfg, groups)
    requires forall g :: g in groups && KeptGroup(cfg, g) ==> Calm(cfg, channel, g)
    ensures var merged := HandAll(channel, s, DeliveredOf(cfg, groups));
            var parts := HandAll(channel, s, Uncoalesced(cfg, Flatten(groups)));
            SameText(merged, parts) && merged.shown == parts.shown
  {
    hide Hand, HandAll, Merged, Filtered, IsGroup, Uncoalesced, Flatten, Calm, DeliveredOf;
    if groups == [] {
      NoGroupsHeard(TextOnly, cfg);
    } else {
      var front, g := groups[..|groups| - 1], groups[|groups| - 1];
      assert groups == front + [g] && g in groups;
      CalmGroups(cfg, channel, s, front);
      StepDispatch(cfg, front, g, []);
      FlattenSnoc(front, g);
      var flat, sent := Flatten(front), DeliveredOf(cfg, front);
      UncoalescedConcat(cfg, flat, g);
      var a, b := HandAll(channel, s, sent), HandAll(channel, s, Uncoalesced(cfg, flat));
      HandConcat(channel, s, Uncoalesced(cfg, flat), Uncoalesced(cfg, g));
      if KeptGroup(cfg, g) {
        HandSnoc(channel, s, sent, Merged(g));
        CalmGroup(cfg, channel, a, g);
        var more := HandAllSame(channel, a, b, Uncoalesced(cfg, g));
        SameTextChain(Hand(channel, a, Merged(g)), HandAll(channel, a, Uncoalesced(cfg, g)),
                      HandAll(channel, b, Uncoalesced(cfg, g)));
      } else {
        DroppedGroup(cfg, g);
        HandNothing(channel, b);
      }
    }
  }

  lemma SameTextChain(a: Buffers, b: Buffers, c: Buffers)
    requires SameText(a, b) && SameText(b, c)
    ensures SameText(a, c)
  {
    hide Buffered;
  }

  // ---- Every timing ----

  predicate SameStreamTarget(channel: string, a: OutMsg, b: OutMsg) {
    a.channel == channel && SameTarget(a, b)
  }

  /** What the dispatcher sends to this channel is not filtered as a delta, marks only real ends, and keeps to
      one stream per chat. */
  ghost predicate Tidy(cfg: Config, channel: string, input: seq<OutMsg>) {
    && (forall m :: m in input && m.channel == channel && IsDelta(m) ==> !Filtered(cfg, m))
    && (forall m :: m in input && m.channel == channel && Streams(m) && STREAM_END in m.metadata ==> IsEnd(m))
    && (forall a, b :: a in input && b in input && Streams(a) && Streams(b) && SameStreamTarget(channel, a, b) ==>
          StreamKey(a) == StreamKey(b))
  }

  /** An end can be absorbed behind text. */
  predicate CutShort(cfg: Config, channel: string, input: seq<OutMsg>, i: nat, j: nat)
    requires i < j < |input|
  {
    input[i].channel == channel && Mergeable(cfg, input, i, j) && IsEnd(input[j]) && Contents(input[i..j]) != ""
  }

  ghost predicate ShowsTheSame(cfg: Config, channel: string, s: Buffers, ready: nat -> bool, input: seq<OutMsg>) {
    var groups := GroupsOf(cfg, ready, 0, input);
    && IsDispatch(cfg, input, groups)
    && HandAll(channel, s, DeliveredOf(cfg, groups)).shown == HandAll(channel, s, Uncoalesced(cfg, input)).shown
  }

  lemma TidyGroup(cfg: Config, channel: string, input: seq<OutMsg>, g: seq<OutMsg>)
    requires Tidy(cfg, channel, input) && IsGroup(g) && |g| > 1 && g[0].channel == channel
    requires forall m :: m in g ==> m in input
    ensures OneStream(g) && forall m :: m in g ==> !Filtered(cfg, m)
  {
    hide Filtered, StreamKey, Flag;
    forall m | m in g ensures m.channel == channel && m.chat == g[0].chat && IsDelta(m) {
      var i :| 0 <= i < |g| && g[i] == m;
    }
    assert g[0] in g;
  }

  lemma TidyIsCalm(cfg: Config, channel: string, input: seq<OutMsg>, groups: seq<seq<OutMsg>>, g: seq<OutMsg>)
    requires Tidy(cfg, channel, input) && IsDispatch(cfg, input, groups) && g in groups && g != [] && KeptGroup(cfg, g)
    requires forall i, j :: 0 <= i < j < |input| ==> !CutShort(cfg, channel, input, i, j)
    ensures Calm(cfg, channel, g)
  {
    hide Flatten, Tidy, Filtered, OneStream, Contents, IsGroup, IsEnd;
    if |g| > 1 && g[0].channel == channel {
      var p := GroupIsSlice(groups, g);
      var last := p + |g| - 1;
      assert input[p..last + 1] == g;
      forall m | m in g ensures m in input {
        InFlatten(groups, g, m);
      }
      TidyGroup(cfg, channel, input, g);
      assert input[p] == g[0] && input[last] == g[|g| - 1] && input[p..last] == g[..|g| - 1];
      assert !CutShort(cfg, channel, input, p, last);
    }
  }

  lemma {:induction false} DeliveredConcat(cfg: Config, a: seq<seq<OutMsg>>, b: seq<seq<OutMsg>>)
    requires forall g :: g in a + b ==> g != []
    ensures (forall g :: g in a ==> g != []) && forall g :: g in b ==> g != []
    ensures DeliveredOf(cfg, a + b) == DeliveredOf(cfg, a) + DeliveredOf(cfg, b)
    decreases |b|
  {
    hide Merged, KeptGroup;
    assert forall g :: g in a || g in b ==> g in a + b;
    if b == [] {
      assert a + b == a && DeliveredOf(cfg, a) + [] == DeliveredOf(cfg, a);
    } else {
      var front, last := b[..|b| - 1], b[|b| - 1];
      assert (a + b)[..|a + b| - 1] == a + front && (a + b)[|a + b| - 1] == last && last in b;
      assert forall g :: g in a + front ==> g in a + b;
      DeliveredConcat(cfg, a, front);
      var one := if KeptGroup(cfg, last) then [Merged(last)] else [];
      var x, y := DeliveredOf(cfg, a), DeliveredOf(cfg, front);
      assert (x + y) + one == x + (y + one);
    }
  }

  lemma DeliveredOne(cfg: Config, g: seq<OutMsg>)
    requires g != []
    ensures DeliveredOf(cfg, [g]) == if KeptGroup(cfg, g) then [Merged(g)] else []
  {
    hide Merged, KeptGroup;
    assert [g][..0] == [] && DeliveredOf(cfg, []) == [];
  }

  lemma {:induction false} SinglesDelivered(cfg: Config, ms: seq<OutMsg>)
    ensures (forall g :: g in Singles(ms) ==> g != []) && DeliveredOf(cfg, Singles(ms)) == Uncoalesced(cfg, ms)
  {
    hide Merged, DeliveredOf, Filtered;
    if ms == [] {
      NoGroupsHeard(TextOnly, cfg);
      EmptyFlatten<OutMsg>();
    } else {
      var m, rest := ms[0], ms[1..];
      SinglesDelivered(cfg, rest);
      DeliveredConcat(cfg, [[m]], Singles(rest));
      DeliveredOne(cfg, [m]);
      AloneIsMerged(m);
      UncoalescedConcat(cfg, [m], rest);
      assert [m] + rest == ms && [m][..0] == [];
      assert Uncoalesced(cfg, [m]) == [] + if Deliverable(cfg, m) then [m] else [];
    }
  }

  lemma OnlyGroupDelivered(cfg: Config, before: seq<OutMsg>, g: seq<OutMsg>, after: seq<OutMsg>)
    requires g != [] && KeptGroup(cfg, g)
    ensures forall x :: x in OnlyGroup(before, g, after) ==> x != []
    ensures DeliveredOf(cfg, OnlyGroup(before, g, after))
         == (Uncoalesced(cfg, before) + [Merged(g)]) + Uncoalesced(cfg, after)
  {
    hide Merged, DeliveredOf, KeptGroup, Uncoalesced, Singles;
    SinglesDelivered(cfg, before);
    SinglesDelivered(cfg, after);
    DeliveredConcat(cfg, Singles(before), [g]);
    DeliveredOne(cfg, g);
    DeliveredConcat(cfg, Singles(before) + [g], Singles(after));
  }

  lemma CutShortShows(cfg: Config, channel: string, s: Buffers, input: seq<OutMsg>, i: nat, j: nat)
    returns (groups: seq<seq<OutMsg>>)
    requires Tidy(cfg, channel, input) && i < j < |input| && CutShort(cfg, channel, input, i, j)
    ensures IsDispatch(cfg, input, groups)
    ensures HandAll(channel, s, DeliveredOf(cfg, groups)).shown != HandAll(channel, s, Uncoalesced(cfg, input)).shown
  {
    hide Tidy, HandAll, Hand, Merged, DeliveredOf, Uncoalesced, Contents, Filtered, OneStream, IsDispatch, OnlyGroup,
      IsGroup, IsEnd, SameText;
    var before, g, after := input[..i], input[i..j + 1], input[j + 1..];
    groups := OnlyGroup(before, g, after);
    assert before + g + after == input && before + (g + after) == input;
    assert g[|g| - 1] == input[j] && g[..|g| - 1] == input[i..j] && g[0] == input[i];
    assert forall m :: m in g ==> m in input;
    OnlyGroupIsDispatch(cfg, before, g, after);
    OnlyGroupDelivered(cfg, before, g, after);
    TidyGroup(cfg, channel, input, g);
    GroupChannel(g);
    NothingFiltered(cfg, g);
    UncoalescedConcat(cfg, before + g, after);
    UncoalescedConcat(cfg, before, g);
    var t := HandAll(channel, s, Uncoalesced(cfg, before));
    HandSnoc(channel, s, Uncoalesced(cfg, before), Merged(g));
    HandConcat(channel, s, Uncoalesced(cfg, before) + [Merged(g)], Uncoalesced(cfg, after));
    HandConcat(channel, s, Uncoalesced(cfg, before), g);
    HandConcat(channel, s, Uncoalesced(cfg, before) + g, Uncoalesced(cfg, after));
    MergedEndLosesTextIff(channel, t, g);
    var a, b := Hand(channel, t, Merged(g)), HandAll(channel, t, g);
    var more := HandAllSame(channel, a, b, Uncoalesced(cfg, after));
    SameEnding(a.shown, b.shown, more);
  }

  lemma SameStart<T>(before: seq<T>, a: seq<T>, b: seq<T>)
    ensures before + a == before + b <==> a == b
  {
    if before + a == before + b {
      assert a == (before + a)[|before|..] && b == (before + b)[|before|..];
    }
  }

  lemma SameEnding<T>(a: seq<T>, b: seq<T>, more: seq<T>)
    ensures a + more == b + more <==> a == b
  {
    if a + more == b + more {
      assert |a| == |b| && a == (a + more)[..|a|] && b == (b + more)[..|b|];
    }
  }

  /** For every queue, whatever is buffered already: under all timings the channel shows what it would show
      without merging, exactly when no end can be absorbed behind text. */
  lemma AllTimingsShowTheSameIff(cfg: Config, channel: string, s: Buffers, input: seq<OutMsg>)
    requires Tidy(cfg, channel, input)
    ensures (forall ready: nat -> bool :: ShowsTheSame(cfg, channel, s, ready, input))
       <==> forall i, j :: 0 <= i < j < |input| ==> !CutShort(cfg, channel, input, i, j)
  {
    hide Tidy, CutShort, IsDispatch, HandAll, DeliveredOf, Uncoalesced, Calm, GroupsOf;
    if i, j :| 0 <= i < j < |input| && CutShort(cfg, channel, input, i, j) {
      var groups := CutShortShows(cfg, channel, s, input, i, j);
      DispatchesAreTimings(cfg, input, groups);
      var ready :| GroupsOf(cfg, ready, 0, input) == groups;
      assert !ShowsTheSame(cfg, channel, s, ready, input);
    } else {
      forall ready: nat -> bool ensures ShowsTheSame(cfg, channel, s, ready, input) {
        var groups := GroupsOf(cfg, ready, 0, input);
        TimingsAreDispatches(cfg, ready, 0, input);
        DispatchParts(cfg, input, groups);
        forall g | g in groups && KeptGroup(cfg, g) ensures Calm(cfg, channel, g) {
          TidyIsCalm(cfg, channel, input, groups, g);
        }
        CalmGroups(cfg, channel, s, groups);
      }
    }
  }

  /** A one-word answer whose end is ready when its only delta is sent is never shown. */
  lemma ShortAnswerIsLost() returns (delta: OutMsg, end: OutMsg)
    ensures IsGroup([delta, end])
    ensures HandAll("feishu", Buffers(map[], []), [delta, end]).shown == ["hi"]
    ensures Hand("feishu", Buffers(map[], []), Merged([delta, end])).shown == []
  {
    delta := OutMsg("feishu", "1", "hi", None, [], map[STREAM_DELTA := Bool(true)]);
    end := OutMsg("feishu", "1", "", None, [], map[STREAM_DELTA := Bool(true), STREAM_END := Bool(true)]);
    assert IsDelta(delta) && !IsEnd(delta) && IsDelta(end) && IsEnd(end) && SameTarget(delta, end);
    assert StreamKey(delta) == StreamKey(end) == "1" && STREAM_END !in delta.metadata && OneStream([delta, end]);
    OneDelta(delta, end);
  }

  lemma OneDelta(delta: OutMsg, end: OutMsg)
    requires IsGroup([delta, end]) && OneStream([delta, end]) && IsEnd(end) && delta.content != ""
    ensures var s := Buffers(map[], []);
            && HandAll(delta.channel, s, [delta, end]).shown == [delta.content]
            && Hand(delta.channel, s, Merged([delta, end])).shown == []
  {
    hide Hand, HandAll, Merged, StreamKey, Streams, OneStream, OpenStream, IsEnd;
    var s, g, key := Buffers(map[], []), [delta, end], StreamKey(delta);
    assert g[..1] == [delta] && [delta] + [end] == g;
    GroupParts(g);
    MergedKey(g);
    MarkedEnd(end);
    StartGroup(delta);
    OpenStreamIsBuffered(delta.channel, s, [delta], key);
    HandSnoc(delta.channel, s, [delta], end);
    GroupChannel(g);
    assert end in g && StreamKey(end) == key by { SameStream(g, end); }
    EndShows(delta.channel, HandAll(delta.channel, s, [delta]), end);
    EndShows(delta.channel, s, Merged(g));
    assert "" + delta.content == delta.content;
  }

  lemma SameStream(g: seq<OutMsg>, m: OutMsg)
    requires OneStream(g) && m in g
    ensures StreamKey(m) == StreamKey(g[0])
  {
  }
}
