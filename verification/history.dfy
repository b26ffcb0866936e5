/** The history log and the Dream cursor of memory.rs: an append-only log with a cached cursor, a consumer
    that works through it batch by batch, and compaction that cuts the log's front. */
module History {
  import opened Basics

  /** A line of history.jsonl; `cursor` is `None` when it is missing or not an integer. */
  datatype Entry = Entry(cursor: Option<int>, content: string)

  /** Limits: entries kept by compaction (0 means all) and entries per Dream batch. */
  datatype Config = Config(maxEntries: nat, maxBatch: nat)

  // ---- Reading ----

  function MaxCursor(log: seq<Entry>): Option<int> {
    if log == [] then None
    else
      var rest, c := MaxCursor(log[..|log| - 1]), log[|log| - 1].cursor;
      if c.None? then rest
      else if rest.None? || rest.value < c.value then c
      else rest
  }

  function FromScan(log: seq<Entry>): int {
    match MaxCursor(log)
    case Some(c) => c + 1
    case None => 0 + 1
  }

  /** `tailReadable` is false when the last line does not fit the window read from the end of the file. */
  function FromLast(log: seq<Entry>, tailReadable: bool): Option<int> {
    if log != [] && tailReadable && log[|log| - 1].cursor.Some? then Some(log[|log| - 1].cursor.value + 1) else None
  }

  /** Cursor file first, then the last entry, then a scan of the whole log. */
  function NextCursor(log: seq<Entry>, cursorFile: Option<int>, tailReadable: bool): int {
    if cursorFile.Some? then cursorFile.value + 1
    else if FromLast(log, tailReadable).Some? then FromLast(log, tailReadable).value
    else FromScan(log)
  }

  function Unprocessed(log: seq<Entry>, since: int): seq<Entry> {
    if log == [] then []
    else (if log[0].cursor.Some? && log[0].cursor.value > since then [log[0]] else []) + Unprocessed(log[1..], since)
  }

  function Compacted(log: seq<Entry>, maxEntries: nat): seq<Entry> {
    if maxEntries == 0 || |log| <= maxEntries then log else log[|log| - maxEntries..]
  }

  function FirstBatch(entries: seq<Entry>, maxBatch: nat): seq<Entry> {
    if |entries| <= maxBatch then entries else entries[..maxBatch]
  }

  function CursorAfter(batch: seq<Entry>, cursor: int): int {
    if batch != [] && batch[|batch| - 1].cursor.Some? then batch[|batch| - 1].cursor.value else cursor
  }

  // ---- Steps of a run ----

  /** The files, the batch a Dream is working on, and two histories that exist only to be talked about:
      everything ever appended, and everything a completed Dream has worked through. */
  datatype Store = Store(
    log: seq<Entry>, cursorFile: Option<int>, dreamCursor: int, inFlight: Option<seq<Entry>>,
    appended: seq<Entry>, delivered: seq<Entry>)

  /** A Dream reads its batch, then talks to the model while entries may be appended, and ends completed,
      incomplete, or failed before its second phase. */
  datatype Op = Append(content: string, tailReadable: bool) | BeginDream | EndDream(completed: bool) | FailDream

  const EMPTY := Store([], None, 0, None, [], [])

  function Appended(s: Store, content: string, tailReadable: bool): Store {
    var c := NextCursor(s.log, s.cursorFile, tailReadable);
    var e := Entry(Some(c), content);
    s.(log := s.log + [e], cursorFile := Some(c), appended := s.appended + [e])
  }

  function Begun(cfg: Config, s: Store): Store {
    var entries := Unprocessed(s.log, s.dreamCursor);
    if s.inFlight.Some? || entries == [] then s
    else s.(inFlight := Some(FirstBatch(entries, cfg.maxBatch)))
  }

  /** The cursor update at the end of a Dream, before compaction. */
  function Settled(s: Store, completed: bool): Store {
    if s.inFlight.None? then s
    else if !completed then s.(inFlight := None)
    else
      var batch := s.inFlight.value;
      s.(inFlight := None, dreamCursor := CursorAfter(batch, s.dreamCursor), delivered := s.delivered + batch)
  }

  function Ended(cfg: Config, s: Store, completed: bool): Store {
    if s.inFlight.None? then s
    else
      var t := Settled(s, completed);
      t.(log := Compacted(t.log, cfg.maxEntries))
  }

  function Step(cfg: Config, s: Store, op: Op): Store {
    match op
    case Append(content, tailReadable) => Appended(s, content, tailReadable)
    case BeginDream => Begun(cfg, s)
    case EndDream(completed) => Ended(cfg, s, completed)
    case FailDream => s.(inFlight := None)
  }

  function Run(cfg: Config, ops: seq<Op>): Store {
    if ops == [] then EMPTY else Step(cfg, Run(cfg, ops[..|ops| - 1]), ops[|ops| - 1])
  }

  // ---- The store object ----

  class MemoryStore {
    var log: seq<Entry>
    var cursorFile: Option<int>
    var dreamCursor: int
    const cfg: Config
    ghost var inFlight: Option<seq<Entry>>
    ghost var appended: seq<Entry>
    ghost var delivered: seq<Entry>

    ghost function View(): Store
      reads this
    {
      Store(log, cursorFile, dreamCursor, inFlight, appended, delivered)
    }

    constructor (cfg: Config)
      ensures View() == EMPTY && this.cfg == cfg
    {
      log, cursorFile, dreamCursor, inFlight, appended, delivered := [], None, 0, None, [], [];
      this.cfg := cfg;
    }

    method AppendHistory(content: string, tailReadable: bool) returns (cursor: int)
      modifies this
      ensures View() == Step(cfg, old(View()), Append(content, tailReadable))
      ensures log != [] && log[|log| - 1].cursor == Some(cursor)
    {
      cursor := NextCursor(log, cursorFile, tailReadable);
      log := log + [Entry(Some(cursor), content)];
      appended := appended + [Entry(Some(cursor), content)];
      cursorFile := Some(cursor);
    }

    method CompactHistory()
      modifies this`log
      ensures log == Compacted(old(log), cfg.maxEntries)
    {
      if cfg.maxEntries == 0 {
        return;
      }
      if |log| <= cfg.maxEntries {
        return;
      }
      log := log[|log| - cfg.maxEntries..];
    }

    /** First half of `MemoryDream::run`: pick the batch, or find nothing to do. */
    method BeginDreaming() returns (batch: Option<seq<Entry>>)
      requires inFlight.None?
      modifies this
      ensures View() == Step(cfg, old(View()), BeginDream) && batch == inFlight
    {
      var entries := Unprocessed(log, dreamCursor);
      if entries == [] {
        return None;
      }
      var take := if |entries| <= cfg.maxBatch then |entries| else cfg.maxBatch;
      batch := Some(entries[..take]);
      assert entries[..|entries|] == entries;
      inFlight := batch;
    }

    /** Second half, once the model is done: the cursor moves only if the run completed. */
    method EndDreaming(batch: seq<Entry>, completed: bool)
      requires inFlight == Some(batch)
      modifies this
      ensures View() == Step(cfg, old(View()), EndDream(completed))
    {
      if completed {
        dreamCursor := CursorAfter(batch, dreamCursor);
        delivered := delivered + batch;
      }
      inFlight := None;
      CompactHistory();
    }
  }

  // ---- Invariant of every run ----

  /** The appended entries are numbered 1, 2, 3, ... */
  predicate Numbered(entries: seq<Entry>) {
    forall i :: 0 <= i < |entries| ==> entries[i].cursor == Some(i + 1)
  }

  /** How many entries compaction has cut off. */
  function Cut(s: Store): int {
    |s.appended| - |s.log|
  }

  predicate IsSlice(batch: seq<Entry>, entries: seq<Entry>, start: int) {
    0 <= start && start + |batch| <= |entries| && batch == entries[start..start + |batch|]
  }

  /** The log is what compaction left of the appended entries, and the cursor file names the last. */
  predicate LogInv(log: seq<Entry>, cursorFile: Option<int>, appended: seq<Entry>) {
    && Numbered(appended)
    && |log| <= |appended| && log == appended[|appended| - |log|..] && (log == [] ==> appended == [])
    && cursorFile == if appended == [] then None else Some(|appended|)
  }

  predicate DreamInv(dreamCursor: int, delivered: seq<Entry>, appended: seq<Entry>) {
    && 0 <= dreamCursor <= |appended| && |delivered| <= dreamCursor
    && (|delivered| == dreamCursor ==> delivered == appended[..dreamCursor])
  }

  predicate FlightInv(inFlight: Option<seq<Entry>>, appended: seq<Entry>, start: int) {
    inFlight.Some? ==> IsSlice(inFlight.value, appended, start)
  }

  predicate Inv(s: Store) {
    && LogInv(s.log, s.cursorFile, s.appended)
    && DreamInv(s.dreamCursor, s.delivered, s.appended)
    && FlightInv(s.inFlight, s.appended, FirstUnprocessed(s))
  }

  /** Index of the first entry still in the log that no completed Dream has passed. */
  function FirstUnprocessed(s: Store): int {
    if s.dreamCursor < Cut(s) then Cut(s) else s.dreamCursor
  }

  /** In every state of a run the three ways to find the next cursor agree. */
  lemma NextCursorsAgree(s: Store, tailReadable: bool)
    requires Inv(s)
    ensures NextCursor(s.log, s.cursorFile, tailReadable) == |s.appended| + 1
    ensures FromScan(s.log) == |s.appended| + 1
    ensures FromLast(s.log, true) == (if s.log == [] then None else Some(|s.appended| + 1))
    ensures s.cursorFile.Some? ==> s.cursorFile.value + 1 == |s.appended| + 1
  {
    if s.log != [] {
      MaxIsLast(s.appended, Cut(s), |s.appended|);
      assert s.appended[Cut(s)..|s.appended|] == s.log;
    }
  }

  lemma {:induction false} MaxIsLast(entries: seq<Entry>, lo: nat, hi: nat)
    requires lo < hi <= |entries| && Numbered(entries)
    ensures MaxCursor(entries[lo..hi]) == Some(hi)
    decreases hi - lo
  {
    var part := entries[lo..hi];
    assert part[..|part| - 1] == entries[lo..hi - 1] && part[|part| - 1] == entries[hi - 1];
    if lo + 1 < hi {
      MaxIsLast(entries, lo, hi - 1);
    } else {
      assert entries[lo..hi - 1] == [];
    }
  }

  /** Reading past a cursor gives a suffix of the log. */
  lemma {:induction false} UnprocessedIsSuffix(entries: seq<Entry>, cut: nat, since: nat)
    requires cut <= |entries| && since <= |entries| && Numbered(entries)
    ensures Unprocessed(entries[cut..], since) == entries[if since < cut then cut else since..]
    decreases |entries| - cut
  {
    if cut < |entries| {
      SplitAt(entries, cut);
      UnprocessedIsSuffix(entries, cut + 1, since);
      if since <= cut {
        assert [entries[cut]] + entries[cut + 1..] == entries[cut..];
      }
    } else {
      assert entries[cut..] == [] && entries[|entries|..] == [];
    }
  }

  lemma AppendKeepsInv(s: Store, content: string, tailReadable: bool)
    requires Inv(s)
    ensures Inv(Appended(s, content, tailReadable))
  {
    NextCursorsAgree(s, tailReadable);
    hide NextCursor, LogInv, DreamInv, FlightInv;
    var e := Entry(Some(|s.appended| + 1), content);
    LogAppend(s.log, s.cursorFile, s.appended, e);
    DreamAppend(s.dreamCursor, s.delivered, s.appended, e);
    FlightAppend(s.inFlight, s.appended, FirstUnprocessed(s), e);
  }

  lemma LogAppend(log: seq<Entry>, cursorFile: Option<int>, appended: seq<Entry>, e: Entry)
    requires LogInv(log, cursorFile, appended) && e.cursor == Some(|appended| + 1)
    ensures LogInv(log + [e], Some(|appended| + 1), appended + [e])
  {
    var cut := |appended| - |log|;
    assert (appended + [e])[cut..] == appended[cut..] + [e];
  }

  lemma DreamAppend(dreamCursor: int, delivered: seq<Entry>, appended: seq<Entry>, e: Entry)
    requires DreamInv(dreamCursor, delivered, appended)
    ensures DreamInv(dreamCursor, delivered, appended + [e])
  {
    assert (appended + [e])[..dreamCursor] == appended[..dreamCursor];
  }

  lemma FlightAppend(inFlight: Option<seq<Entry>>, appended: seq<Entry>, start: int, e: Entry)
    requires FlightInv(inFlight, appended, start)
    ensures FlightInv(inFlight, appended + [e], start)
  {
    if inFlight.Some? {
      var b := inFlight.value;
      assert (appended + [e])[start..start + |b|] == appended[start..start + |b|];
    }
  }

  /** What a Dream would read: everything from the first unprocessed entry on. */
  lemma Backlog(s: Store)
    requires Inv(s)
    ensures 0 <= FirstUnprocessed(s) <= |s.appended|
    ensures Unprocessed(s.log, s.dreamCursor) == s.appended[FirstUnprocessed(s)..]
  {
    hide Unprocessed;
    UnprocessedIsSuffix(s.appended, Cut(s), s.dreamCursor);
  }

  lemma BatchIsSlice(appended: seq<Entry>, start: nat, maxBatch: nat)
    requires start <= |appended|
    ensures FlightInv(Some(FirstBatch(appended[start..], maxBatch)), appended, start)
  {
  }

  lemma BeginKeepsInv(cfg: Config, s: Store)
    requires Inv(s)
    ensures Inv(Begun(cfg, s))
  {
    hide Unprocessed, LogInv, DreamInv, FlightInv, FirstBatch;
    Backlog(s);
    BatchIsSlice(s.appended, FirstUnprocessed(s), cfg.maxBatch);
  }

  lemma SettleKeepsInv(s: Store, completed: bool)
    requires Inv(s)
    ensures Inv(Settled(s, completed))
  {
    hide LogInv, DreamInv, CursorAfter;
    if s.inFlight.Some? && completed {
      CursorMoves(s);
    }
  }

  lemma CursorMoves(s: Store)
    requires Inv(s) && s.inFlight.Some?
    ensures var batch := s.inFlight.value;
            && CursorAfter(batch, s.dreamCursor)
            == (if batch == [] then s.dreamCursor else FirstUnprocessed(s) + |batch|)
            && DreamInv(CursorAfter(batch, s.dreamCursor), s.delivered + batch, s.appended)
  {
    var batch, start := s.inFlight.value, FirstUnprocessed(s);
    if batch == [] {
      assert s.delivered + batch == s.delivered;
    } else {
      assert batch[|batch| - 1] == s.appended[start + |batch| - 1];
      assert s.appended[..start] + s.appended[start..start + |batch|] == s.appended[..start + |batch|];
    }
  }

  lemma CompactKeepsInv(s: Store, maxEntries: nat)
    requires Inv(s) && s.inFlight.None?
    ensures Inv(s.(log := Compacted(s.log, maxEntries)))
  {
    if maxEntries > 0 && |s.log| > maxEntries {
      SuffixOfSuffix(s.appended, Cut(s), |s.log| - maxEntries);
    }
  }

  lemma StepKeepsInv(cfg: Config, s: Store, op: Op)
    requires Inv(s)
    ensures Inv(Step(cfg, s, op))
  {
    hide Inv;
    match op
    case Append(content, tailReadable) => AppendKeepsInv(s, content, tailReadable);
    case BeginDream => BeginKeepsInv(cfg, s);
    case EndDream(completed) =>
      SettleKeepsInv(s, completed);
      if s.inFlight.Some? {
        CompactKeepsInv(Settled(s, completed), cfg.maxEntries);
      }
    case FailDream => FailKeepsInv(s);
  }

  lemma FailKeepsInv(s: Store)
    requires Inv(s)
    ensures Inv(s.(inFlight := None))
  {
  }

  lemma {:induction false} RunKeepsInv(cfg: Config, ops: seq<Op>)
    ensures Inv(Run(cfg, ops))
  {
    hide Inv, Step;
    if ops == [] {
      EmptyInv();
    } else {
      RunKeepsInv(cfg, ops[..|ops| - 1]);
      StepKeepsInv(cfg, Run(cfg, ops[..|ops| - 1]), ops[|ops| - 1]);
    }
  }

  lemma EmptyInv()
    ensures Inv(EMPTY)
  {
  }

  /** Cursors in the log strictly increase, in every state of every run. */
  lemma CursorsIncrease(cfg: Config, ops: seq<Op>, i: nat, j: nat)
    requires i < j < |Run(cfg, ops).log|
    ensures var log := Run(cfg, ops).log;
            log[i].cursor.Some? && log[j].cursor.Some? && log[i].cursor.value < log[j].cursor.value
  {
    RunKeepsInv(cfg, ops);
    var s := Run(cfg, ops);
    hide Run;
    assert s.log[i] == s.appended[Cut(s) + i] && s.log[j] == s.appended[Cut(s) + j];
  }

  // ---- Nothing is lost, nothing is repeated ----

  /** Completed Dreams have worked through exactly the first entries ever appended, each once and in
      order, and every other entry is still in the log. */
  predicate Covered(s: Store) {
    0 <= s.dreamCursor <= |s.appended| && s.delivered == s.appended[..s.dreamCursor] && Cut(s) <= s.dreamCursor
  }

  /** The check a caller could make before the compaction that ends a Dream: compaction is off, or keeps
      at least as many entries as are unprocessed. */
  predicate CompactionSafe(cfg: Config, s: Store, op: Op) {
    op.EndDream? && s.inFlight.Some? ==>
      var t := Settled(s, op.completed);
      cfg.maxEntries == 0 || |Unprocessed(t.log, t.dreamCursor)| <= cfg.maxEntries
  }

  predicate AllCompactionsSafe(cfg: Config, ops: seq<Op>) {
    ops == [] ||
    (AllCompactionsSafe(cfg, ops[..|ops| - 1]) && CompactionSafe(cfg, Run(cfg, ops[..|ops| - 1]), ops[|ops| - 1]))
  }

  /** Under the invariant, coverage is a matter of counting. */
  lemma CoveredByCount(s: Store)
    requires Inv(s)
    ensures Covered(s) <==> |s.delivered| == s.dreamCursor && Cut(s) <= s.dreamCursor
  {
  }

  lemma SettledCovered(s: Store, completed: bool)
    requires Inv(s)
    ensures Covered(s) <==> Covered(Settled(s, completed))
  {
    SettleKeepsInv(s, completed);
    CoveredByCount(s);
    CoveredByCount(Settled(s, completed));
    hide Covered, Inv, CursorAfter;
    if s.inFlight.Some? && completed {
      CursorMoves(s);
      Backlog(s);
      DeliveredCount(s);
    }
  }

  lemma DeliveredCount(s: Store)
    requires Inv(s)
    ensures |s.delivered| <= s.dreamCursor
  {
  }

  lemma CompactedCovered(s: Store, maxEntries: nat)
    requires Inv(s) && s.inFlight.None?
    ensures Covered(s.(log := Compacted(s.log, maxEntries)))
       <==> Covered(s) && (maxEntries == 0 || |Unprocessed(s.log, s.dreamCursor)| <= maxEntries)
  {
    hide Unprocessed;
    Backlog(s);
  }

  lemma StepCovered(cfg: Config, s: Store, op: Op)
    requires Inv(s)
    ensures Covered(Step(cfg, s, op)) <==> Covered(s) && CompactionSafe(cfg, s, op)
  {
    match op
    case Append(content, tailReadable) =>
      AppendKeepsInv(s, content, tailReadable);
      CoveredByCount(s);
      CoveredByCount(Appended(s, content, tailReadable));
    case BeginDream =>
    case EndDream(completed) =>
      if s.inFlight.Some? {
        hide Unprocessed, Compacted;
        SettleKeepsInv(s, completed);
        SettledCovered(s, completed);
        CompactedCovered(Settled(s, completed), cfg.maxEntries);
      }
    case FailDream =>
  }

  /** Over every crash-free run: no entry is lost or handled twice if and only if no compaction found more
      unprocessed entries than it keeps. */
  lemma {:induction false} CoveredIff(cfg: Config, ops: seq<Op>)
    ensures Covered(Run(cfg, ops)) <==> AllCompactionsSafe(cfg, ops)
  {
    hide Covered, CompactionSafe, Step;
    if ops == [] {
      EmptyCovered();
    } else {
      var front := ops[..|ops| - 1];
      CoveredIff(cfg, front);
      RunKeepsInv(cfg, front);
      StepCovered(cfg, Run(cfg, front), ops[|ops| - 1]);
    }
  }

  lemma EmptyCovered()
    ensures Covered(EMPTY)
  {
  }

  lemma RunSnoc(cfg: Config, ops: seq<Op>, op: Op)
    ensures Run(cfg, ops + [op]) == Step(cfg, Run(cfg, ops), op)
  {
    hide Step;
    assert (ops + [op])[..|ops|] == ops;
  }

  const A := Entry(Some(1), "a")
  const B := Entry(Some(2), "b")
  const C := Entry(Some(3), "c")
  const WAITING := Store([A, B, C], Some(3), 0, None, [A, B, C], [])

  lemma ThreeAppends(cfg: Config) returns (ops: seq<Op>)
    ensures Run(cfg, ops) == WAITING
  {
    hide Run;
    var o1 := [Append("a", true)];
    var o2 := o1 + [Append("b", true)];
    ops := o2 + [Append("c", true)];
    EmptyRun(cfg);
    assert [] + o1 == o1;
    RunSnoc(cfg, [], Append("a", true));
    RunSnoc(cfg, o1, Append("b", true));
    RunSnoc(cfg, o2, Append("c", true));
    assert Run(cfg, o1) == Store([A], Some(1), 0, None, [A], []);
    assert Run(cfg, o2) == Store([A, B], Some(2), 0, None, [A, B], []);
  }

  lemma EmptyRun(cfg: Config)
    ensures Run(cfg, []) == EMPTY
  {
  }

  lemma SmallDream(cfg: Config)
    requires cfg == Config(1, 1)
    ensures Ended(cfg, Begun(cfg, WAITING), true) == Store([C], Some(3), 1, None, [A, B, C], [A])
  {
    hide Unprocessed;
    UnprocessedIsSuffix(WAITING.log, 0, 0);
    assert WAITING.log[0..] == WAITING.log && [A, B, C][..1] == [A] && [A, B, C][2..] == [C];
    assert Begun(cfg, WAITING) == WAITING.(inFlight := Some([A]));
  }

  /** Three appends, a Dream that takes one entry, and a compaction that keeps one: the entry in the middle is
      gone before any Dream has seen it. */
  lemma EntryIsLost() returns (cfg: Config, ops: seq<Op>, lost: Entry)
    ensures var s := Run(cfg, ops); lost in s.appended && lost !in s.log && lost !in s.delivered
  {
    hide Run, Begun, Ended;
    cfg := Config(1, 1);
    var appends := ThreeAppends(cfg);
    var begun := appends + [BeginDream];
    ops, lost := begun + [EndDream(true)], B;
    RunSnoc(cfg, appends, BeginDream);
    RunSnoc(cfg, begun, EndDream(true));
    SmallDream(cfg);
    assert [A, B, C][1] == lost;
  }

  /** Even when entries are lost, none is handled twice and the order is kept. */
  predicate Ascending(entries: seq<Entry>, limit: int) {
    && (forall e :: e in entries ==> e.cursor.Some? && e.cursor.value <= limit)
    && (forall i, j :: 0 <= i < j < |entries| ==>
          entries[i].cursor.Some? && entries[j].cursor.Some? && entries[i].cursor.value < entries[j].cursor.value)
  }

  lemma {:induction false} DeliveredAscending(cfg: Config, ops: seq<Op>)
    ensures Ascending(Run(cfg, ops).delivered, Run(cfg, ops).dreamCursor)
  {
    if ops != [] {
      var s := Run(cfg, ops[..|ops| - 1]);
      var op := ops[|ops| - 1];
      DeliveredAscending(cfg, ops[..|ops| - 1]);
      RunKeepsInv(cfg, ops[..|ops| - 1]);
      hide Run;
      if op.EndDream? && op.completed && s.inFlight.Some? {
        BatchAscends(s);
      }
    }
  }

  lemma BatchAscends(s: Store)
    requires Inv(s) && s.inFlight.Some? && Ascending(s.delivered, s.dreamCursor)
    ensures var t := Settled(s, true); Ascending(t.delivered, t.dreamCursor)
  {
    hide *;
    var batch, start := s.inFlight.value, FirstUnprocessed(s);
    CursorMoves(s);
    BatchNumbered(s);
    AscendingConcat(s.delivered, s.dreamCursor, batch, start);
    SettledParts(s);
  }

  lemma SettledParts(s: Store)
    requires s.inFlight.Some?
    ensures Settled(s, true).delivered == s.delivered + s.inFlight.value
    ensures Settled(s, true).dreamCursor == CursorAfter(s.inFlight.value, s.dreamCursor)
  {
  }

  predicate NumberedFrom(batch: seq<Entry>, start: int) {
    forall i :: 0 <= i < |batch| ==> batch[i].cursor == Some(start + i + 1)
  }

  lemma BatchNumbered(s: Store)
    requires Inv(s) && s.inFlight.Some?
    ensures NumberedFrom(s.inFlight.value, FirstUnprocessed(s)) && s.dreamCursor <= FirstUnprocessed(s)
  {
    hide DreamInv;
    SliceNumbered(s.inFlight.value, s.appended, FirstUnprocessed(s));
  }

  lemma SliceNumbered(batch: seq<Entry>, entries: seq<Entry>, start: int)
    requires IsSlice(batch, entries, start) && Numbered(entries)
    ensures NumberedFrom(batch, start)
  {
    forall i | 0 <= i < |batch| ensures batch[i].cursor == Some(start + i + 1) {
      assert batch[i] == entries[start + i];
    }
  }

  lemma AscendingConcat(a: seq<Entry>, limit: int, batch: seq<Entry>, start: int)
    requires Ascending(a, limit) && limit <= start
    requires NumberedFrom(batch, start)
    ensures Ascending(a + batch, if batch == [] then limit else start + |batch|)
  {
    var all := a + batch;
    forall i, j | 0 <= i < j < |all|
      ensures all[i].cursor.Some? && all[j].cursor.Some? && all[i].cursor.value < all[j].cursor.value
    {
      assert i < |a| ==> all[i] in a;
      assert j >= |a| ==> all[j] == batch[j - |a|];
      assert i >= |a| ==> all[i] == batch[i - |a|];
    }
  }

  // ---- A crash inside append ----

  /** The entry reached the log but the cursor file was not written. */
  function CrashAppended(s: Store, content: string, tailReadable: bool): Store {
    var e := Entry(Some(NextCursor(s.log, s.cursorFile, tailReadable)), content);
    s.(log := s.log + [e], appended := s.appended + [e])
  }

  /** The next append reuses the crashed entry's cursor exactly when there already was a cursor file. */
  lemma CrashReusesCursorIff(s: Store, a: string, b: string, tailReadable: bool)
    requires Inv(s)
    ensures var t := Appended(CrashAppended(s, a, tailReadable), b, tailReadable);
            t.log[|t.log| - 1].cursor == t.log[|t.log| - 2].cursor <==> s.appended != []
  {
    NextCursorsAgree(s, tailReadable);
    var crashed := CrashAppended(s, a, tailReadable);
    if s.appended == [] {
      assert crashed.log == [Entry(Some(1), a)];
      assert crashed.log[..0] == [];
    }
  }

  /** What a cursor has passed is never read again, in any log. */
  lemma {:induction false} PassedIsNeverRead(log: seq<Entry>, since: int, e: Entry)
    requires e in Unprocessed(log, since)
    ensures e.cursor.Some? && e.cursor.value > since
  {
    if log != [] && e in Unprocessed(log[1..], since) {
      PassedIsNeverRead(log[1..], since, e);
    }
  }

  lemma UnprocessedSnoc(log: seq<Entry>, since: int, e: Entry)
    ensures Unprocessed(log + [e], since) ==
      Unprocessed(log, since) + if e.cursor.Some? && e.cursor.value > since then [e] else []
  {
    UnprocessedConcat(log, [e], since);
    assert [e][1..] == [];
  }

  /** Appends after the crash, one after the other. */
  function AppendAll(s: Store, contents: seq<string>, tailReadable: bool): Store {
    if contents == [] then s
    else Appended(AppendAll(s, contents[..|contents| - 1], tailReadable), contents[|contents| - 1], tailReadable)
  }

  lemma {:induction false} LaterAppends(s: Store, contents: seq<string>, tailReadable: bool, last: int)
    returns (added: seq<Entry>)
    requires s.cursorFile == Some(last)
    ensures var t := AppendAll(s, contents, tailReadable);
            && t.log == s.log + added && |added| == |contents| && NumberedFrom(added, last)
            && t.cursorFile == Some(last + |contents|) && t.dreamCursor == s.dreamCursor && t.inFlight == s.inFlight
    decreases |contents|
  {
    added := [];
    if contents == [] {
      assert s.log + [] == s.log;
    } else {
      var front := contents[..|contents| - 1];
      var before := LaterAppends(s, front, tailReadable, last);
      var e := Entry(Some(last + |contents|), contents[|contents| - 1]);
      added := before + [e];
      assert s.log + (before + [e]) == (s.log + before) + [e];
    }
  }

  /** Reading past a cursor what lies behind an earlier one. */
  lemma {:induction false} UnprocessedTwice(log: seq<Entry>, a: int, c: int)
    requires a <= c
    ensures Unprocessed(Unprocessed(log, a), c) == Unprocessed(log, c)
  {
    if log != [] {
      UnprocessedTwice(log[1..], a, c);
      var rest := Unprocessed(log[1..], a);
      if log[0].cursor.Some? && log[0].cursor.value > a {
        assert ([log[0]] + rest)[1..] == rest;
      } else {
        assert Unprocessed(log, a) == rest;
      }
    }
  }

  lemma {:induction false} UnprocessedConcat(a: seq<Entry>, b: seq<Entry>, c: int)
    ensures Unprocessed(a + b, c) == Unprocessed(a, c) + Unprocessed(b, c)
  {
    if a == [] {
      assert a + b == b;
    } else {
      assert (a + b)[0] == a[0] && (a + b)[1..] == a[1..] + b;
      UnprocessedConcat(a[1..], b, c);
    }
  }

  predicate Passed(e: Entry, c: int) {
    e.cursor.Some? && e.cursor.value <= c
  }

  predicate Ahead(e: Entry, c: int) {
    e.cursor.Some? && e.cursor.value > c
  }

  lemma {:induction false} NoneRead(entries: seq<Entry>, c: int)
    requires forall e :: e in entries ==> Passed(e, c)
    ensures Unprocessed(entries, c) == []
  {
    if entries != [] {
      assert entries[0] in entries;
      NoneRead(entries[1..], c);
    }
  }

  lemma {:induction false} AllRead(entries: seq<Entry>, c: int)
    requires forall e :: e in entries ==> Ahead(e, c)
    ensures Unprocessed(entries, c) == entries
  {
    if entries != [] {
      assert entries[0] in entries && entries == [entries[0]] + entries[1..];
      AllRead(entries[1..], c);
    }
  }

  lemma SplitByCursor(entries: seq<Entry>, k: nat, c: int)
    requires k <= |entries|
    requires forall i :: 0 <= i < k ==> Passed(entries[i], c)
    requires forall i :: k <= i < |entries| ==> Ahead(entries[i], c)
    ensures Unprocessed(entries, c) == entries[k..]
  {
    hide Unprocessed, Passed, Ahead;
    assert entries == entries[..k] + entries[k..];
    UnprocessedConcat(entries[..k], entries[k..], c);
    NoneRead(entries[..k], c);
    AllRead(entries[k..], c);
    assert [] + entries[k..] == entries[k..];
  }

  /** A backlog in which the entry at `w` and the next one share a cursor. */
  predicate Stuttering(backlog: seq<Entry>, first: int, w: nat) {
    && w + 2 <= |backlog|
    && forall i :: 0 <= i < |backlog| ==> backlog[i].cursor == Some(if i <= w then first + i + 1 else first + i)
  }

  /** What is left after a batch of `read` entries: the rest of the backlog, unless the batch stopped at the
      first of the two. */
  lemma StutterLeaves(backlog: seq<Entry>, first: int, w: nat, read: nat)
    requires Stuttering(backlog, first, w) && 0 < read <= |backlog|
    ensures var c := backlog[read - 1].cursor.value;
            Unprocessed(backlog, c) == backlog[if read == w + 1 then read + 1 else read..]
  {
    var c := backlog[read - 1].cursor.value;
    SplitByCursor(backlog, if read == w + 1 then read + 1 else read, c);
  }

  /** The store after a crash in the append of `a`, the append of `b`, and any later appends. */
  function AfterCrash(s: Store, a: string, b: string, more: seq<string>, tailReadable: bool): Store {
    AppendAll(Appended(CrashAppended(s, a, tailReadable), b, tailReadable), more, tailReadable)
  }

  lemma CrashedBacklog(s: Store, a: string, b: string, more: seq<string>, tailReadable: bool)
    requires Inv(s) && s.appended != []
    ensures var t := AfterCrash(s, a, b, more, tailReadable);
            && t.dreamCursor == s.dreamCursor && t.inFlight == s.inFlight
            && Stuttering(Unprocessed(t.log, t.dreamCursor), FirstUnprocessed(s), |Unprocessed(s.log, s.dreamCursor)|)
  {
    hide Unprocessed, AppendAll, NextCursor;
    CrashedState(s, a, b, tailReadable);
    var n, since := |s.appended|, s.dreamCursor;
    var x, y := Entry(Some(n + 1), a), Entry(Some(n + 1), b);
    var u := Appended(CrashAppended(s, a, tailReadable), b, tailReadable);
    var added := LaterAppends(u, more, tailReadable, n + 1);
    var t := AfterCrash(s, a, b, more, tailReadable);
    Backlog(s);
    InvNumbered(s);
    UnprocessedSnoc(s.log, since, x);
    UnprocessedSnoc(s.log + [x], since, y);
    NumberedAreUnprocessed(u.log, since, added, n + 1);
    var waiting := s.appended[FirstUnprocessed(s)..];
    StutterFrom(waiting, FirstUnprocessed(s), x, y, added, s.appended);
  }

  lemma StutterFrom(waiting: seq<Entry>, first: nat, x: Entry, y: Entry, added: seq<Entry>, appended: seq<Entry>)
    requires Numbered(appended) && first <= |appended| && waiting == appended[first..]
    requires x.cursor == y.cursor == Some(|appended| + 1) && NumberedFrom(added, |appended| + 1)
    ensures Stuttering(waiting + [x] + [y] + added, first, |waiting|)
  {
    var all, w := waiting + [x] + [y] + added, |waiting|;
    forall i | 0 <= i < |all| ensures all[i].cursor == Some(if i <= w then first + i + 1 else first + i) {
      if i < w {
        assert all[i] == appended[first + i];
      } else if i >= w + 2 {
        assert all[i] == added[i - w - 2];
      }
    }
  }

  lemma {:induction false} NumberedAreUnprocessed(log: seq<Entry>, since: int, added: seq<Entry>, last: int)
    requires NumberedFrom(added, last) && since <= last
    ensures Unprocessed(log + added, since) == Unprocessed(log, since) + added
    decreases |added|
  {
    hide Unprocessed;
    if added == [] {
      assert log + added == log && Unprocessed(log, since) + [] == Unprocessed(log, since);
    } else {
      var front, e := added[..|added| - 1], added[|added| - 1];
      NumberedAreUnprocessed(log, since, front, last);
      UnprocessedSnoc(log + front, since, e);
      assert log + added == (log + front) + [e];
      assert (Unprocessed(log, since) + front) + [e] == Unprocessed(log, since) + added;
    }
  }

  lemma CrashedState(s: Store, a: string, b: string, tailReadable: bool)
    requires Inv(s) && s.appended != []
    ensures var n := |s.appended|;
            var x, y := Entry(Some(n + 1), a), Entry(Some(n + 1), b);
            var t := Appended(CrashAppended(s, a, tailReadable), b, tailReadable);
            && t.log == s.log + [x] + [y] && t.cursorFile == Some(n + 1)
            && t.dreamCursor == s.dreamCursor <= n && t.inFlight == s.inFlight
  {
    NextCursorsAgree(s, tailReadable);
  }

  lemma InvNumbered(s: Store)
    requires Inv(s)
    ensures Numbered(s.appended) && 0 <= Cut(s) && s.log == s.appended[Cut(s)..] && s.dreamCursor <= FirstUnprocessed(s)
  {
  }

  /** After such a crash, and whatever is appended later, two neighbouring entries share a cursor. The next
      Dream, if it completes, leaves the rest of the backlog for later exactly when its batch does not stop
      between the two; if it does, the second of them is passed unread. */
  lemma CrashedEntryIsSkippedIff(cfg: Config, s: Store, a: string, b: string, more: seq<string>, tailReadable: bool)
    requires Inv(s) && s.inFlight.None? && s.appended != []
    ensures var t := AfterCrash(s, a, b, more, tailReadable);
            var backlog, waiting := Unprocessed(t.log, t.dreamCursor), |Unprocessed(s.log, s.dreamCursor)|;
            var done := Settled(Begun(cfg, t), true);
            var read := |FirstBatch(backlog, cfg.maxBatch)|;
            && waiting + 2 <= |backlog|
            && (Unprocessed(done.log, done.dreamCursor) == backlog[read..] <==> cfg.maxBatch != waiting + 1)
  {
    hide Unprocessed, AfterCrash, Inv, FirstUnprocessed;
    CrashedBacklog(s, a, b, more, tailReadable);
    InvNumbered(s);
    var t := AfterCrash(s, a, b, more, tailReadable);
    var since, first, w := t.dreamCursor, FirstUnprocessed(s), |Unprocessed(s.log, s.dreamCursor)|;
    var backlog := Unprocessed(t.log, since);
    var done := Settled(Begun(cfg, t), true);
    var read := |FirstBatch(backlog, cfg.maxBatch)|;
    if read == 0 {
      assert done.dreamCursor == since && done.log == t.log && backlog[0..] == backlog;
    } else {
      var c := backlog[read - 1].cursor.value;
      assert done.dreamCursor == c && done.log == t.log;
      UnprocessedTwice(t.log, since, c);
      StutterLeaves(backlog, first, w, read);
      assert |backlog[read..]| == |backlog| - read;
    }
  }
}
