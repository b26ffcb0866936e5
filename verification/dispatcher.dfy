/** The outbound dispatcher (`dispatch_outbound` and `coalesce_stream_deltas` in manager.rs): drain the
    bus, merge adjacent stream deltas when the next one happens to be ready, and hand the result to the
    channels. Which deltas get merged depends on timing. */
module Dispatcher {
  import opened Basics

  const STREAM_DELTA := "_stream_delta"
  const STREAM_END := "_stream_end"

  /** A JSON value of the metadata, as far as `is_truthy` and string look-ups can tell values apart. */
  datatype Value =
    | Null
    | Bool(value: bool)
    | Number(zero: bool, rendering: string)
    | Str(text: string)
    | Compound(empty: bool, rendering: string)

  predicate Truthy(v: Value) {
    match v
    case Null => false
    case Bool(b) => b
    case Number(zero, _) => !zero
    case Str(text) => text != "" && text != "false" && text != "0"
    case Compound(empty, _) => !empty
  }

  type Metadata = map<string, Value>

  datatype OutMsg = OutMsg(
    channel: string, chat: string, content: string, replyTo: Option<string>, media: seq<string>, metadata: Metadata)

  predicate Flag(m: OutMsg, key: string) {
    key in m.metadata && Truthy(m.metadata[key])
  }

  predicate IsDelta(m: OutMsg) {
    Flag(m, STREAM_DELTA)
  }

  predicate IsEnd(m: OutMsg) {
    Flag(m, STREAM_END)
  }

  predicate SameTarget(a: OutMsg, b: OutMsg) {
    a.channel == b.channel && a.chat == b.chat
  }

  datatype Config = Config(sendProgress: bool, sendToolHints: bool, channels: set<string>)

  predicate Filtered(cfg: Config, m: OutMsg) {
    || (Flag(m, "_progress") && if Flag(m, "_tool_hint") then !cfg.sendToolHints else !cfg.sendProgress)
    || Flag(m, "_retry_wait")
  }

  // ---- Groups of merged messages ----

  /** One message, or a delta that has not ended followed by deltas to the same target of which only the
      last may end the stream. */
  predicate IsGroup(g: seq<OutMsg>)
    ensures IsGroup(g) ==> g != []
  {
    && g != []
    && (|g| > 1 ==> IsDelta(g[0]))
    && (forall i :: 1 <= i < |g| ==> IsDelta(g[i]) && SameTarget(g[0], g[i]))
    && (forall i :: 0 <= i < |g| - 1 ==> !IsEnd(g[i]))
  }

  function Contents(g: seq<OutMsg>): string {
    if g == [] then "" else Contents(g[..|g| - 1]) + g[|g| - 1].content
  }

  /** The merged message keeps the first one's fields; only the text and the end mark come from the rest. */
  function Merged(g: seq<OutMsg>): OutMsg
    requires g != []
  {
    g[0].(content := Contents(g),
          metadata := if |g| > 1 && IsEnd(g[|g| - 1]) then g[0].metadata[STREAM_END := Bool(true)] else g[0].metadata)
  }

  /** The consumer's end of the bus. `ready(k)` says whether the k-th poll with a zero timeout finds a
      message; every timing of publishers and dispatcher is such a function. */
  class Bus {
    var queue: seq<OutMsg>
    var polls: nat
    const ready: nat -> bool

    constructor (queue: seq<OutMsg>, ready: nat -> bool)
      ensures this.queue == queue && this.polls == 0 && this.ready == ready
    {
      this.queue, this.polls, this.ready := queue, 0, ready;
    }

    method TryConsume() returns (m: Option<OutMsg>)
      modifies this
      ensures polls == old(polls) + 1 && (m.None? <==> old(queue) == [] || !ready(old(polls)))
      ensures m.None? ==> queue == old(queue)
      ensures m.Some? ==> old(queue) == [m.value] + queue
    {
      polls := polls + 1;
      if queue == [] || !ready(polls - 1) {
        return None;
      }
      m := Some(queue[0]);
      queue := queue[1..];
    }

    method Consume() returns (m: Option<OutMsg>)
      modifies this`queue
      ensures m.None? ==> queue == old(queue) == []
      ensures m.Some? ==> old(queue) == [m.value] + queue
    {
      if queue == [] {
        return None;
      }
      m := Some(queue[0]);
      queue := queue[1..];
    }
  }

  /** What was taken from the bus is the rest of the group and at most one message that did not match. */
  method CoalesceStreamDeltas(bus: Bus, first: OutMsg)
    returns (merged: OutMsg, extras: seq<OutMsg>, ghost group: seq<OutMsg>)
    requires IsDelta(first) && !IsEnd(first)
    modifies bus
    ensures IsGroup(group) && group[0] == first && merged == Merged(group)
    ensures merged == first.(content := merged.content, metadata := merged.metadata)
    ensures merged.metadata - {STREAM_END} == first.metadata - {STREAM_END}
    ensures |extras| <= 1 && old(bus.queue) == group[1..] + extras + bus.queue
    ensures |group| == 1 + Absorbed(bus.ready, old(bus.polls), first, old(bus.queue))
    ensures bus.polls == old(bus.polls) + Polls(bus.ready, old(bus.polls), first, old(bus.queue))
  {
    hide *;
    var combined := first.content;
    var metadata := first.metadata;
    extras, group := [], [first];
    StartGroup(first);
    NotEnded(first);
    ghost var queued, polled0, end := bus.queue, bus.polls, false;
    assert [first][1..] + queued == queued;
    while true
      invariant extras == [] && !end && IsGroup(group) && group[0] == first && !IsEnd(group[|group| - 1])
      invariant combined == Contents(group) && metadata == first.metadata
      invariant queued == group[1..] + bus.queue
      invariant |group| + Absorbed(bus.ready, bus.polls, first, bus.queue)
             == 1 + Absorbed(bus.ready, polled0, first, queued)
      invariant bus.polls + Polls(bus.ready, bus.polls, first, bus.queue)
             == polled0 + Polls(bus.ready, polled0, first, queued)
      decreases |bus.queue|
    {
      ghost var queue, k := bus.queue, bus.polls;
      var polled := bus.TryConsume();
      if polled.None? {
        PollStops(bus.ready, k, first, queue);
        assert group[1..] + [] == group[1..];
        break;
      }
      var next := polled.value;
      TakeOne(group, next, queue, bus.queue);
      if SameTarget(next, first) && IsDelta(next) && !(STREAM_END in metadata && Truthy(metadata[STREAM_END])) {
        GrowGroup(group, next);
        PollGoesOn(bus.ready, k, first, next, bus.queue);
        combined := combined + next.content;
        group := group + [next];
        if IsEnd(next) {
          metadata, end := metadata[STREAM_END := Bool(true)], true;
          assert group[1..] + [] == group[1..];
          break;
        }
      } else {
        PollStops(bus.ready, k, first, queue);
        extras := [next];
        break;
      }
    }
    merged := first.(content := combined, metadata := metadata);
    FinishGroup(group, combined, metadata, end);
  }

  lemma PollStops(ready: nat -> bool, k: nat, first: OutMsg, rest: seq<OutMsg>)
    requires rest == [] || !ready(k) || !SameTarget(rest[0], first) || !IsDelta(rest[0])
    ensures Absorbed(ready, k, first, rest) == 0 && Polls(ready, k, first, rest) == 1
  {
  }

  lemma PollGoesOn(ready: nat -> bool, k: nat, first: OutMsg, next: OutMsg, rest: seq<OutMsg>)
    requires ready(k) && SameTarget(next, first) && IsDelta(next)
    ensures Absorbed(ready, k, first, [next] + rest)
         == 1 + if IsEnd(next) then 0 else Absorbed(ready, k + 1, first, rest)
    ensures Polls(ready, k, first, [next] + rest) == 1 + if IsEnd(next) then 0 else Polls(ready, k + 1, first, rest)
  {
    hide SameTarget, IsDelta, IsEnd;
    assert ([next] + rest)[1..] == rest;
  }

  lemma TakeOne(group: seq<OutMsg>, next: OutMsg, queue: seq<OutMsg>, rest: seq<OutMsg>)
    requires group != [] && queue == [next] + rest
    ensures group[1..] + queue == (group + [next])[1..] + rest
    ensures group[1..] + queue == group[1..] + [next] + rest
  {
    SnocThenAppend(group[1..], next, rest);
    assert (group + [next])[1..] == group[1..] + [next];
  }

  lemma NotEnded(m: OutMsg)
    ensures IsEnd(m) <==> STREAM_END in m.metadata && Truthy(m.metadata[STREAM_END])
  {
  }

  lemma FinishGroup(g: seq<OutMsg>, combined: string, metadata: Metadata, end: bool)
    requires g != [] && combined == Contents(g) && end == IsEnd(g[|g| - 1]) && (end ==> |g| > 1)
    requires metadata == if end then g[0].metadata[STREAM_END := Bool(true)] else g[0].metadata
    ensures g[0].(content := combined, metadata := metadata) == Merged(g)
    ensures metadata - {STREAM_END} == g[0].metadata - {STREAM_END}
  {
    hide Contents, IsEnd;
  }

  lemma StartGroup(m: OutMsg)
    ensures IsGroup([m]) && Contents([m]) == m.content
  {
    assert [m][..0] == [];
  }

  lemma GrowGroup(g: seq<OutMsg>, m: OutMsg)
    requires IsGroup(g) && IsDelta(g[0]) && !IsEnd(g[|g| - 1]) && IsDelta(m) && SameTarget(m, g[0])
    ensures IsGroup(g + [m]) && Contents(g + [m]) == Contents(g) + m.content
  {
    hide Flag;
    assert (g + [m])[..|g|] == g;
    forall i | 0 <= i < |g + [m]| - 1 ensures !IsEnd((g + [m])[i]) {
      assert (g + [m])[i] == g[i];
    }
  }

  // ---- The dispatcher loop ----

  /** Groups in which a message stopped by the filter is always alone. */
  ghost predicate LegalGroups(cfg: Config, groups: seq<seq<OutMsg>>)
    ensures LegalGroups(cfg, groups) ==> forall g :: g in groups ==> g != []
  {
    forall g :: g in groups ==> IsGroup(g) && (Filtered(cfg, g[0]) ==> |g| == 1)
  }

  /** A way to split the queue, in order and without gaps, into legal groups. */
  ghost predicate IsDispatch(cfg: Config, input: seq<OutMsg>, groups: seq<seq<OutMsg>>)
    ensures IsDispatch(cfg, input, groups) ==> forall g :: g in groups ==> g != []
  {
    Flatten(groups) == input && LegalGroups(cfg, groups)
  }

  /** How many of `rest` a delta absorbs when polling starts with the k-th poll, and the polls that takes. */
  function Absorbed(ready: nat -> bool, k: nat, first: OutMsg, rest: seq<OutMsg>): (n: nat)
    ensures n <= |rest|
    decreases |rest|
  {
    if rest == [] || !ready(k) || !SameTarget(rest[0], first) || !IsDelta(rest[0]) then 0
    else if IsEnd(rest[0]) then 1
    else 1 + Absorbed(ready, k + 1, first, rest[1..])
  }

  function Polls(ready: nat -> bool, k: nat, first: OutMsg, rest: seq<OutMsg>): nat
    decreases |rest|
  {
    if rest == [] || !ready(k) || !SameTarget(rest[0], first) || !IsDelta(rest[0]) || IsEnd(rest[0]) then 1
    else 1 + Polls(ready, k + 1, first, rest[1..])
  }

  predicate Coalesces(cfg: Config, m: OutMsg) {
    !Filtered(cfg, m) && IsDelta(m) && !IsEnd(m)
  }

  /** The groups a timing produces, from the k-th poll on. */
  function GroupsOf(cfg: Config, ready: nat -> bool, k: nat, input: seq<OutMsg>): seq<seq<OutMsg>>
    decreases |input|
  {
    if input == [] then []
    else if !Coalesces(cfg, input[0]) then [[input[0]]] + GroupsOf(cfg, ready, k, input[1..])
    else
      var rest := input[1..];
      var n := Absorbed(ready, k, input[0], rest);
      [[input[0]] + rest[..n]] + GroupsOf(cfg, ready, k + Polls(ready, k, input[0], rest), rest[n..])
  }

  predicate KeptGroup(cfg: Config, g: seq<OutMsg>)
    requires g != []
  {
    !Filtered(cfg, g[0]) && g[0].channel in cfg.channels
  }

  /** What the channels get: the merged form of every group that passes the filter and has a channel. */
  ghost function DeliveredOf(cfg: Config, groups: seq<seq<OutMsg>>): seq<OutMsg>
    requires forall g :: g in groups ==> g != []
  {
    if groups == [] then []
    else
      var front, last := groups[..|groups| - 1], groups[|groups| - 1];
      assert forall g :: g in front ==> g in groups;
      assert last in groups;
      DeliveredOf(cfg, front) + if KeptGroup(cfg, last) then [Merged(last)] else []
  }

  /** The replay buffer is popped like a stack; that it never holds two messages makes it a queue. */
  method DispatchOutbound(cfg: Config, bus: Bus)
    returns (delivered: seq<OutMsg>, deepest: nat, ghost groups: seq<seq<OutMsg>>)
    modifies bus
    ensures bus.queue == [] && deepest <= 1
    ensures groups == GroupsOf(cfg, bus.ready, old(bus.polls), old(bus.queue))
    ensures IsDispatch(cfg, old(bus.queue), groups) && delivered == DeliveredOf(cfg, groups)
    ensures forall d :: d in delivered ==> Allowed(cfg, d) && d.channel in cfg.channels
    ensures forall m :: !IsDelta(m) ==>
      (m in delivered <==> m in old(bus.queue) && Allowed(cfg, m) && m.channel in cfg.channels)
  {
    hide *;
    ghost var input := bus.queue;
    ghost var goal := GroupsOf(cfg, bus.ready, bus.polls, input);
    var pending: seq<OutMsg> := [];
    delivered, deepest, groups := [], 0, [];
    StartDispatch(cfg);
    assert [] + bus.queue == bus.queue && [] + goal == goal && [] + input == input;
    while true
      invariant |pending| <= 1 && deepest <= 1
      invariant LegalGroups(cfg, groups) && delivered == DeliveredOf(cfg, groups)
      invariant input == Flatten(groups) + (pending + bus.queue)
      invariant groups + GroupsOf(cfg, bus.ready, bus.polls, pending + bus.queue) == goal
      decreases |pending| + |bus.queue|
    {
      ghost var rest := pending + bus.queue;
      var msg: OutMsg;
      if pending != [] {
        PopOnly(pending);
        msg := pending[|pending| - 1];
        pending := pending[..|pending| - 1];
        assert pending == [];
      } else {
        var consumed := bus.Consume();
        if consumed.None? {
          break;
        }
        msg := consumed.value;
      }
      assert rest == [msg] + bus.queue && [] + bus.queue == bus.queue;
      ghost var left := GroupsOf(cfg, bus.ready, bus.polls, rest);
      var kept, extras;
      ghost var group;
      kept, msg, extras, group := MergeReady(cfg, bus, msg);
      pending := pending + extras;
      assert [] + extras == extras;
      deepest := if |pending| > deepest then |pending| else deepest;
      StepDispatch(cfg, groups, group, pending + bus.queue);
      SnocThenAppend(groups, group, GroupsOf(cfg, bus.ready, bus.polls, pending + bus.queue));
      groups := groups + [group];
      if kept && msg.channel in cfg.channels {
        delivered := delivered + [msg];
      }
    }
    assert pending + bus.queue == [];
    NoGroups(cfg, bus.ready, bus.polls);
    assert groups + [] == groups && Flatten(groups) + [] == Flatten(groups);
    EndDispatch(cfg, input, groups);
    DeliveredAreAllowed(cfg, groups);
    forall m | !IsDelta(m) ensures m in delivered <==> m in input && Allowed(cfg, m) && m.channel in cfg.channels {
      PlainIsDeliveredIff(cfg, input, groups, m);
    }
  }

  /** One turn of the loop for a message just taken: the filter, and merging if it is an open delta. */
  method MergeReady(cfg: Config, bus: Bus, first: OutMsg)
    returns (kept: bool, msg: OutMsg, extras: seq<OutMsg>, ghost group: seq<OutMsg>)
    modifies bus
    ensures kept == !Filtered(cfg, first) && IsGroup(group) && group[0] == first && (!kept ==> |group| == 1)
    ensures msg == Merged(group) && msg.channel == first.channel && |extras| <= 1
    ensures [first] + old(bus.queue) == group + (extras + bus.queue)
    ensures GroupsOf(cfg, bus.ready, old(bus.polls), [first] + old(bus.queue))
         == [group] + GroupsOf(cfg, bus.ready, bus.polls, extras + bus.queue)
  {
    hide *;
    ghost var queued := bus.queue;
    GroupsStep(cfg, bus.ready, bus.polls, first, queued);
    StartGroup(first);
    AloneIsMerged(first);
    kept, msg, extras, group := !Filtered(cfg, first), first, [], [first];
    assert [] + queued == queued;
    if kept && IsDelta(first) && !IsEnd(first) {
      msg, extras, group := CoalesceStreamDeltas(bus, first);
      Regroup(group, extras, bus.queue, queued);
      MergedTarget(group);
    }
  }

  lemma StartDispatch(cfg: Config)
    ensures LegalGroups(cfg, []) && DeliveredOf(cfg, []) == [] && Flatten<OutMsg>([]) == []
  {
  }

  lemma EndDispatch(cfg: Config, input: seq<OutMsg>, groups: seq<seq<OutMsg>>)
    requires LegalGroups(cfg, groups) && input == Flatten(groups)
    ensures IsDispatch(cfg, input, groups)
  {
  }

  lemma NoGroups(cfg: Config, ready: nat -> bool, k: nat)
    ensures GroupsOf(cfg, ready, k, []) == []
  {
  }

  lemma GroupsStep(cfg: Config, ready: nat -> bool, k: nat, m: OutMsg, rest: seq<OutMsg>)
    ensures Coalesces(cfg, m) <==> !Filtered(cfg, m) && IsDelta(m) && !IsEnd(m)
    ensures !Coalesces(cfg, m) ==> GroupsOf(cfg, ready, k, [m] + rest) == [[m]] + GroupsOf(cfg, ready, k, rest)
    ensures Coalesces(cfg, m) ==>
      var n := Absorbed(ready, k, m, rest);
      var polls := Polls(ready, k, m, rest);
      GroupsOf(cfg, ready, k, [m] + rest) == [[m] + rest[..n]] + GroupsOf(cfg, ready, k + polls, rest[n..])
  {
    assert ([m] + rest)[1..] == rest;
  }

  lemma PopOnly(pending: seq<OutMsg>)
    requires |pending| == 1
    ensures pending == [pending[0]] && pending[..|pending| - 1] == []
  {
  }

  lemma Regroup(group: seq<OutMsg>, extras: seq<OutMsg>, queue: seq<OutMsg>, queued: seq<OutMsg>)
    requires group != [] && queued == group[1..] + extras + queue
    ensures [group[0]] + queued == group + (extras + queue)
    ensures group == [group[0]] + queued[..|group| - 1] && queued[|group| - 1..] == extras + queue
  {
    assert group == [group[0]] + group[1..];
    assert queued == group[1..] + (extras + queue);
  }

  lemma AloneIsMerged(m: OutMsg)
    ensures Merged([m]) == m
  {
    StartGroup(m);
  }

  lemma MergedTarget(g: seq<OutMsg>)
    requires g != []
    ensures Merged(g).channel == g[0].channel
  {
  }

  lemma StepDispatch(cfg: Config, groups: seq<seq<OutMsg>>, g: seq<OutMsg>, rest: seq<OutMsg>)
    requires LegalGroups(cfg, groups) && IsGroup(g) && (Filtered(cfg, g[0]) ==> |g| == 1)
    ensures LegalGroups(cfg, groups + [g])
    ensures DeliveredOf(cfg, groups + [g]) ==
      if !Filtered(cfg, g[0]) && g[0].channel in cfg.channels then DeliveredOf(cfg, groups) + [Merged(g)]
      else DeliveredOf(cfg, groups)
    ensures Flatten(groups) + (g + rest) == Flatten(groups + [g]) + rest
  {
    hide Filtered, IsGroup, Merged;
    FlattenSnoc(groups, g);
    assert (groups + [g])[..|groups|] == groups;
    assert Flatten(groups) + (g + rest) == (Flatten(groups) + g) + rest;
    assert DeliveredOf(cfg, groups) + [] == DeliveredOf(cfg, groups);
  }

  // ---- Which messages get through ----

  /** The switches: retry notices never pass, hints only when tool hints are on, other progress only when
      progress is on. */
  predicate Allowed(cfg: Config, m: OutMsg) {
    && !Flag(m, "_retry_wait")
    && (Flag(m, "_progress") && !Flag(m, "_tool_hint") ==> cfg.sendProgress)
    && (Flag(m, "_progress") && Flag(m, "_tool_hint") ==> cfg.sendToolHints)
  }

  lemma AllowedUnlessFiltered(cfg: Config, m: OutMsg)
    ensures Allowed(cfg, m) <==> !Filtered(cfg, m)
  {
  }

  lemma {:induction false} DeliveredMembers(cfg: Config, groups: seq<seq<OutMsg>>, d: OutMsg)
    requires forall g :: g in groups ==> g != []
    ensures d in DeliveredOf(cfg, groups) <==> exists g :: g in groups && KeptGroup(cfg, g) && Merged(g) == d
  {
    hide Merged, KeptGroup;
    if groups != [] {
      var front, last := groups[..|groups| - 1], groups[|groups| - 1];
      assert last in groups && forall g :: g in groups <==> g in front || g == last;
      DeliveredMembers(cfg, front, d);
    }
  }

  lemma MergedFlags(g: seq<OutMsg>, key: string)
    requires g != [] && key != STREAM_END
    ensures Flag(Merged(g), key) <==> Flag(g[0], key)
  {
    hide Contents;
  }

  /** Whatever is delivered is allowed, and goes to a known channel. */
  lemma DeliveredAreAllowed(cfg: Config, groups: seq<seq<OutMsg>>)
    requires forall g :: g in groups ==> g != []
    ensures forall d :: d in DeliveredOf(cfg, groups) ==> Allowed(cfg, d) && d.channel in cfg.channels
  {
    hide Merged, Filtered, Flag, DeliveredOf;
    forall d | d in DeliveredOf(cfg, groups) ensures Allowed(cfg, d) && d.channel in cfg.channels {
      DeliveredMembers(cfg, groups, d);
      var g :| g in groups && KeptGroup(cfg, g) && Merged(g) == d;
      AllowedUnlessFiltered(cfg, g[0]);
      MergedFlags(g, "_progress");
      MergedFlags(g, "_tool_hint");
      MergedFlags(g, "_retry_wait");
      MergedTarget(g);
    }
  }

  /** A message that is no delta is delivered exactly when it is queued, allowed and for a known channel. */
  lemma PlainIsDeliveredIff(cfg: Config, input: seq<OutMsg>, groups: seq<seq<OutMsg>>, m: OutMsg)
    requires IsDispatch(cfg, input, groups) && !IsDelta(m)
    ensures m in DeliveredOf(cfg, groups) <==> m in input && Allowed(cfg, m) && m.channel in cfg.channels
  {
    hide Merged, Filtered, Flag, DeliveredOf, Flatten;
    DeliveredMembers(cfg, groups, m);
    AllowedUnlessFiltered(cfg, m);
    if m in DeliveredOf(cfg, groups) {
      var g :| g in groups && KeptGroup(cfg, g) && Merged(g) == m;
      MergedFlags(g, STREAM_DELTA);
      assert |g| == 1 && g == [g[0]];
      AloneIsMerged(g[0]);
      InFlatten(groups, g, m);
    }
    if m in input && Allowed(cfg, m) && m.channel in cfg.channels {
      var g := FromFlatten(groups, m);
      assert |g| == 1 && g == [m];
      AloneIsMerged(m);
    }
  }

  /** A message without progress, hint or retry mark is delivered under every configuration, by itself or as
      part of a merged message. */
  lemma UnmarkedIsDelivered(cfg: Config, input: seq<OutMsg>, groups: seq<seq<OutMsg>>, m: OutMsg)
    returns (g: seq<OutMsg>)
    requires IsDispatch(cfg, input, groups) && m in input && m.channel in cfg.channels
    requires !Flag(m, "_progress") && !Flag(m, "_tool_hint") && !Flag(m, "_retry_wait")
    ensures g in groups && g != [] && m in g && Merged(g) in DeliveredOf(cfg, groups)
  {
    hide Merged, Filtered, Flag, DeliveredOf, Flatten;
    g := FromFlatten(groups, m);
    AllowedUnlessFiltered(cfg, m);
    GroupKept(cfg, g, m);
    DeliveredMembers(cfg, groups, Merged(g));
  }

  lemma GroupKept(cfg: Config, g: seq<OutMsg>, m: OutMsg)
    requires IsGroup(g) && (Filtered(cfg, g[0]) ==> |g| == 1)
    requires m in g && !Filtered(cfg, m) && m.channel in cfg.channels
    ensures KeptGroup(cfg, g)
  {
    hide Filtered, Flag;
    var i :| 0 <= i < |g| && g[i] == m;
  }

  /** Which values count as set. */
  lemma FalsyValues(v: Value)
    ensures !Truthy(v) <==>
      || v in {Null, Bool(false), Str(""), Str("0"), Str("false")} || (v.Number? && v.zero) || (v.Compound? && v.empty)
  {
  }
}
