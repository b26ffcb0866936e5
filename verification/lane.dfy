/** A lane of the message bus (queue.rs): an unbounded channel and, beside it, an atomic counter that is
    updated in a separate step by publishers and by the one consumer holding the receiver's lock. */
module Lane {
  const WORD := 0x1_0000_0000_0000_0000

  /** `uncounted` publishers have sent but not yet counted, `undiscounted` consumers have received but not
      yet discounted; `sent` and `consumed` record the order of both. */
  datatype State<T> = State(
    queue: seq<T>, counter: int, uncounted: nat, undiscounted: nat, sent: seq<T>, consumed: seq<T>)

  datatype Step<T> = Send(item: T) | Count | Receive | Discount

  function Init<T>(): State<T> {
    State([], 0, 0, 0, [], [])
  }

  predicate Enabled<T>(s: State<T>, step: Step<T>) {
    match step
    case Send(_) => true
    case Count => s.uncounted > 0
    case Receive => s.queue != [] && s.undiscounted == 0
    case Discount => s.undiscounted > 0
  }

  /** `fetch_add` and `fetch_sub` wrap around. */
  function Apply<T>(s: State<T>, step: Step<T>): State<T>
    requires Enabled(s, step)
  {
    match step
    case Send(x) => s.(queue := s.queue + [x], sent := s.sent + [x], uncounted := s.uncounted + 1)
    case Count => s.(counter := (s.counter + 1) % WORD, uncounted := s.uncounted - 1)
    case Receive => s.(queue := s.queue[1..], consumed := s.consumed + [s.queue[0]], undiscounted := 1)
    case Discount => s.(counter := (s.counter - 1) % WORD, undiscounted := s.undiscounted - 1)
  }

  ghost predicate Reaches<T>(s: State<T>, steps: seq<Step<T>>, t: State<T>)
    decreases |steps|
  {
    if steps == [] then s == t else Enabled(s, steps[0]) && Reaches(Apply(s, steps[0]), steps[1..], t)
  }

  predicate Inv<T(==)>(s: State<T>) {
    && s.consumed + s.queue == s.sent
    && s.undiscounted <= 1
    && s.counter == (|s.queue| - s.uncounted + s.undiscounted) % WORD
  }

  lemma Wraps(x: int)
    ensures (x % WORD + 1) % WORD == (x + 1) % WORD && (x % WORD - 1) % WORD == (x - 1) % WORD
  {
    var q := x / WORD;
    assert x == q * WORD + x % WORD;
  }

  lemma StepKeepsInv<T>(s: State<T>, step: Step<T>)
    requires Inv(s) && Enabled(s, step)
    ensures Inv(Apply(s, step))
  {
    hide WORD;
    var t := Apply(s, step);
    KeepsOrder(s, step);
    KeepsCount(s, step);
    hide Apply, Enabled;
  }

  lemma KeepsOrder<T>(s: State<T>, step: Step<T>)
    requires Inv(s) && Enabled(s, step)
    ensures var t := Apply(s, step); t.consumed + t.queue == t.sent && t.undiscounted <= 1
  {
    hide WORD;
    match step
    case Send(x) => assert s.consumed + (s.queue + [x]) == (s.consumed + s.queue) + [x];
    case Count =>
    case Receive => assert s.consumed + s.queue == (s.consumed + [s.queue[0]]) + s.queue[1..];
    case Discount =>
  }

  lemma KeepsCount<T>(s: State<T>, step: Step<T>)
    requires Inv(s) && Enabled(s, step)
    ensures var t := Apply(s, step); t.counter == (|t.queue| - t.uncounted + t.undiscounted) % WORD
  {
    hide WORD;
    var x := |s.queue| - s.uncounted + s.undiscounted;
    Wraps(x);
    var t := Apply(s, step);
    assert |t.queue| - t.uncounted + t.undiscounted ==
      match step case Count => x + 1 case Discount => x - 1 case _ => x;
  }

  lemma {:induction false} RunKeepsInv<T>(s: State<T>, steps: seq<Step<T>>, t: State<T>)
    requires Inv(s) && Reaches(s, steps, t)
    ensures Inv(t)
    decreases |steps|
  {
    hide Inv;
    if steps != [] {
      StepKeepsInv(s, steps[0]);
      RunKeepsInv(Apply(s, steps[0]), steps[1..], t);
    }
  }

  /** In every interleaving messages come out in the order they went in, none lost and none twice; and the
      counter, read at any moment, is the queue length exactly when as many senders as receivers are
      between their two steps. */
  lemma CounterIsExactIff<T>(steps: seq<Step<T>>, t: State<T>)
    requires Reaches(Init(), steps, t) && |t.queue| < WORD && t.uncounted < WORD
    ensures t.consumed + t.queue == t.sent
    ensures t.counter == |t.queue| <==> t.uncounted == t.undiscounted
  {
    assert Inv(Init<T>());
    RunKeepsInv(Init(), steps, t);
    hide Reaches;
    var diff := t.undiscounted - t.uncounted;
    if diff < 0 {
      assert |t.queue| + diff >= 0 ==> t.counter == |t.queue| + diff;
      assert |t.queue| + diff < 0 ==> t.counter == |t.queue| + diff + WORD;
    }
  }

  /** A receiver can overtake the sender's count, and then an empty lane reports the largest size there is. */
  lemma EmptyLaneCanLookFull<T>(x: T) returns (steps: seq<Step<T>>, t: State<T>)
    ensures Reaches(Init(), steps, t) && t.queue == [] && t.counter == 0xFFFF_FFFF_FFFF_FFFF
  {
    steps := [Send(x), Receive, Discount];
    var s0: State<T> := Init();
    var s1 := Apply(s0, Send(x));
    assert s1.queue == [x];
    var s2 := Apply(s1, Receive);
    t := Apply(s2, Discount);
    assert steps[1..] == [Receive, Discount] && steps[1..][1..] == [Discount] && steps[1..][1..][1..] == [];
    assert Reaches(t, [], t) && Reaches(s2, [Discount], t) && Reaches(s1, [Receive, Discount], t);
    assert (-1) % WORD == WORD - 1;
  }
}
