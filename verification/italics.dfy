/** Italic stripping of the Feishu channel (`single_star_italic_ranges`, `strip_single_star_italics`):
    pair up stars that touch no other star, line by line, and remove the pairs. */
module Italics {
  import opened Basics

  predicate IsBreak(c: char) {
    c == '\n' || c == '\r'
  }

  /** The text starts with a star that touches no other, given the character before it. */
  predicate Lone(prev: Option<char>, t: seq<char>) {
    t != [] && t[0] == '*' && prev != Some('*') && (|t| == 1 || t[1] != '*')
  }

  /** A lone star comes before the end of the line. */
  predicate HasCloser(prev: Option<char>, t: seq<char>)
    decreases |t|
  {
    t != [] && !IsBreak(t[0]) && (Lone(prev, t) || HasCloser(Some(t[0]), t[1..]))
  }

  /** What stripping means: drop a lone star that opens or closes a pair on its line, keep the rest. */
  function Stripped(prev: Option<char>, t: seq<char>, open: bool): seq<char>
    decreases |t|
  {
    if t == [] then []
    else if IsBreak(t[0]) then [t[0]] + Stripped(Some(t[0]), t[1..], false)
    else if !Lone(prev, t) then [t[0]] + Stripped(Some(t[0]), t[1..], open)
    else if open then Stripped(Some(t[0]), t[1..], false)
    else if HasCloser(Some(t[0]), t[1..]) then Stripped(Some(t[0]), t[1..], true)
    else [t[0]] + Stripped(Some(t[0]), t[1..], false)
  }

  // ---- The code: ranges by one scan, text by a second ----

  datatype Range = Range(start: nat, end: nat)

  function PrevAt(text: seq<char>, i: nat): Option<char>
    requires i <= |text|
  {
    if i == 0 then None else Some(text[i - 1])
  }

  predicate LoneAt(text: seq<char>, i: nat)
    requires i < |text|
  {
    Lone(PrevAt(text, i), text[i..])
  }

  predicate SameLine(text: seq<char>, lo: nat, hi: nat)
    requires lo <= hi <= |text|
  {
    forall i :: lo <= i < hi ==> !IsBreak(text[i])
  }

  /** Lone stars at both ends of a stretch of one line, one stretch after the other. */
  predicate RangesOk(text: seq<char>, ranges: seq<Range>, n: nat)
    requires n <= |text|
  {
    && (forall k :: 0 <= k < |ranges| ==>
          ranges[k].start < ranges[k].end < n && LoneAt(text, ranges[k].start) && LoneAt(text, ranges[k].end) &&
          SameLine(text, ranges[k].start, ranges[k].end))
    && (forall j, k :: 0 <= j < k < |ranges| ==> ranges[j].end < ranges[k].start)
  }

  method SingleStarItalicRanges(text: seq<char>) returns (ranges: seq<Range>)
    ensures RangesOk(text, ranges, |text|)
    ensures ranges == RangesFrom(None, text, 0, None)
  {
    hide *;
    ranges := [];
    var opener: Option<nat> := None;
    StartOfScan(text);
    ghost var goal := RangesFrom(None, text, 0, None);
    for i := 0 to |text|
      invariant ScanOk(text, ranges, opener, i)
      invariant ranges + RangesFrom(PrevAt(text, i), text[i..], i, opener) == goal
    {
      ScanStep(text, i, opener);
      ScanKeepsOk(text, ranges, opener, i);
      if IsBreak(text[i]) {
        opener := None;
        continue;
      }
      StarTouches(text, i);
      if text[i] != '*' {
        continue;
      }
      var touches := (i > 0 && text[i - 1] == '*') || (i + 1 < |text| && text[i + 1] == '*');
      if touches {
        continue;
      }
      if opener.Some? {
        SnocThenAppend(ranges, Range(opener.value, i), RangesFrom(PrevAt(text, i + 1), text[i + 1..], i + 1, None));
        ranges := ranges + [Range(opener.value, i)];
        opener := None;
      } else {
        opener := Some(i);
      }
    }
    NothingLeft(text, opener);
    assert ranges + [] == ranges;
    ScanEnds(text, ranges, opener);
  }

  /** What the scan knows after `n` characters: the ranges so far, and an opener waiting behind them. */
  ghost predicate ScanOk(text: seq<char>, ranges: seq<Range>, opener: Option<nat>, n: nat)
    requires n <= |text|
  {
    && RangesOk(text, ranges, n)
    && (opener.Some? ==>
          opener.value < n && LoneAt(text, opener.value) && SameLine(text, opener.value, n) &&
          forall k :: 0 <= k < |ranges| ==> ranges[k].end < opener.value)
  }

  lemma StartOfScan(text: seq<char>)
    ensures ScanOk(text, [], None, 0) && PrevAt(text, 0) == None && text[0..] == text
    ensures [] + RangesFrom(None, text, 0, None) == RangesFrom(None, text, 0, None)
  {
  }

  lemma ScanEnds(text: seq<char>, ranges: seq<Range>, opener: Option<nat>)
    requires ScanOk(text, ranges, opener, |text|)
    ensures RangesOk(text, ranges, |text|)
  {
  }

  lemma StarTouches(text: seq<char>, i: nat)
    requires i < |text|
    ensures LoneAt(text, i) <==>
      text[i] == '*' && !((i > 0 && text[i - 1] == '*') || (i + 1 < |text| && text[i + 1] == '*'))
  {
  }

  lemma ScanKeepsOk(text: seq<char>, ranges: seq<Range>, opener: Option<nat>, i: nat)
    requires i < |text| && ScanOk(text, ranges, opener, i)
    ensures ScanOk(text, ranges, None, i + 1)
    ensures !IsBreak(text[i]) ==> ScanOk(text, ranges, opener, i + 1)
    ensures !IsBreak(text[i]) && LoneAt(text, i) ==> ScanOk(text, ranges, Some(i), i + 1)
    ensures LoneAt(text, i) && opener.Some? ==> ScanOk(text, ranges + [Range(opener.value, i)], None, i + 1)
  {
    hide Lone, IsBreak;
  }

  /** The ranges still to be found in `t`, which starts at index `base`. */
  function RangesFrom(prev: Option<char>, t: seq<char>, base: nat, opener: Option<nat>): seq<Range>
    decreases |t|
  {
    if t == [] then []
    else if IsBreak(t[0]) then RangesFrom(Some(t[0]), t[1..], base + 1, None)
    else if !Lone(prev, t) then RangesFrom(Some(t[0]), t[1..], base + 1, opener)
    else if opener.Some? then [Range(opener.value, base)] + RangesFrom(Some(t[0]), t[1..], base + 1, None)
    else RangesFrom(Some(t[0]), t[1..], base + 1, Some(base))
  }

  lemma ScanStep(text: seq<char>, i: nat, opener: Option<nat>)
    requires i < |text|
    ensures RangesFrom(PrevAt(text, i), text[i..], i, opener) ==
      if IsBreak(text[i]) then RangesFrom(PrevAt(text, i + 1), text[i + 1..], i + 1, None)
      else if !LoneAt(text, i) then RangesFrom(PrevAt(text, i + 1), text[i + 1..], i + 1, opener)
      else if opener.Some? then [Range(opener.value, i)] + RangesFrom(PrevAt(text, i + 1), text[i + 1..], i + 1, None)
      else RangesFrom(PrevAt(text, i + 1), text[i + 1..], i + 1, Some(i))
  {
    SplitAt(text, i);
  }

  lemma NothingLeft(text: seq<char>, opener: Option<nat>)
    ensures RangesFrom(PrevAt(text, |text|), text[|text|..], |text|, opener) == []
  {
  }

  /** The text from `cursor` on without the ends of `ranges`. */
  function CutOut(text: seq<char>, cursor: nat, ranges: seq<Range>): seq<char>
    requires cursor <= |text|
    decreases |ranges|
  {
    if ranges == [] then text[cursor..]
    else
      var r := ranges[0];
      if cursor <= r.start < r.end < |text| then
        text[cursor..r.start] + (text[r.start + 1..r.end] + CutOut(text, r.end + 1, ranges[1..]))
      else text[cursor..]
  }

  method StripSingleStarItalics(text: seq<char>) returns (stripped: seq<char>)
    ensures stripped == Stripped(None, text, false)
  {
    hide *;
    var ranges := SingleStarItalicRanges(text);
    CutIsStripped(text, 0, None);
    assert text[0..] == text;
    StartOfText(text);
    if ranges == [] {
      NothingToCut(text, 0);
      return text;
    }
    stripped := [];
    var cursor: nat := 0;
    for k := 0 to |ranges|
      invariant cursor <= |text| && RangesAhead(text, ranges, k, cursor)
      invariant stripped + CutOut(text, cursor, ranges[k..]) == CutOut(text, 0, ranges)
    {
      var r := ranges[k];
      CutStep(text, ranges, k, cursor);
      var rest := CutOut(text, r.end + 1, ranges[k + 1..]);
      ReassociateFour(stripped, text[cursor..r.start], text[r.start + 1..r.end], rest);
      stripped := stripped + text[cursor..r.start] + text[r.start + 1..r.end];
      cursor := r.end + 1;
    }
    NothingToCut(text, cursor);
    assert ranges[|ranges|..] == [];
    stripped := stripped + text[cursor..];
  }

  ghost predicate RangesAhead(text: seq<char>, ranges: seq<Range>, k: nat, cursor: nat) {
    RangesOk(text, ranges, |text|) && (k < |ranges| ==> cursor <= ranges[k].start)
  }

  lemma StartOfText(text: seq<char>)
    ensures PrevAt(text, 0) == None
    ensures forall ranges :: RangesOk(text, ranges, |text|) ==> RangesAhead(text, ranges, 0, 0)
    ensures forall ranges: seq<Range> :: ranges[0..] == ranges
  {
  }

  lemma NothingToCut(text: seq<char>, cursor: nat)
    requires cursor <= |text|
    ensures CutOut(text, cursor, []) == text[cursor..]
  {
  }

  lemma CutStep(text: seq<char>, ranges: seq<Range>, k: nat, cursor: nat)
    requires k < |ranges| && cursor <= |text| && RangesAhead(text, ranges, k, cursor)
    ensures var r := ranges[k];
            && cursor <= r.start < r.end < |text| && RangesAhead(text, ranges, k + 1, r.end + 1)
            && CutOut(text, cursor, ranges[k..])
               == text[cursor..r.start] + (text[r.start + 1..r.end] + CutOut(text, r.end + 1, ranges[k + 1..]))
  {
    hide Lone, SameLine;
    SplitAt(ranges, k);
  }

  lemma ReassociateFour<T>(front: seq<T>, a: seq<T>, b: seq<T>, c: seq<T>)
    ensures front + (a + (b + c)) == (front + a + b) + c
  {
  }

  // ---- The two scans together are `Stripped`, and remove two characters per range ----

  /** Offset of the closing star. */
  function Closer(prev: Option<char>, t: seq<char>): (e: nat)
    requires HasCloser(prev, t)
    ensures e < |t|
    decreases |t|
  {
    if Lone(prev, t) then 0 else 1 + Closer(Some(t[0]), t[1..])
  }

  lemma {:induction false} PairFound(prev: Option<char>, t: seq<char>, base: nat, opener: nat)
    requires HasCloser(prev, t)
    ensures var e := Closer(prev, t);
            && t[e] == '*'
            && RangesFrom(prev, t, base, Some(opener))
            == [Range(opener, base + e)] + RangesFrom(Some('*'), t[e + 1..], base + e + 1, None)
    decreases |t|
  {
    if !Lone(prev, t) {
      PairFound(Some(t[0]), t[1..], base + 1, opener);
      SuffixOfSuffix(t, 1, Closer(Some(t[0]), t[1..]) + 1);
    }
  }

  lemma {:induction false} PairStripped(prev: Option<char>, t: seq<char>)
    requires HasCloser(prev, t)
    ensures var e := Closer(prev, t); Stripped(prev, t, true) == t[..e] + Stripped(Some('*'), t[e + 1..], false)
    decreases |t|
  {
    if Lone(prev, t) {
      assert t[..0] == [];
    } else {
      var e := Closer(Some(t[0]), t[1..]);
      PairStripped(Some(t[0]), t[1..]);
      SuffixOfSuffix(t, 1, e + 1);
      var rest := Stripped(Some('*'), t[e + 2..], false);
      assert [t[0]] + (t[1..][..e] + rest) == ([t[0]] + t[1..][..e]) + rest;
      assert [t[0]] + t[1..][..e] == t[..e + 1];
    }
  }

  lemma {:induction false} NoPairFound(prev: Option<char>, t: seq<char>, base: nat, opener: nat)
    requires !HasCloser(prev, t)
    ensures RangesFrom(prev, t, base, Some(opener)) == RangesFrom(prev, t, base, None)
    decreases |t|
  {
    if t != [] && !IsBreak(t[0]) {
      NoPairFound(Some(t[0]), t[1..], base + 1, opener);
    }
  }

  lemma {:induction false} RangesStart(prev: Option<char>, t: seq<char>, base: nat)
    ensures var rs := RangesFrom(prev, t, base, None); rs == [] || base <= rs[0].start
    decreases |t|
  {
    if t != [] {
      RangesStart(Some(t[0]), t[1..], base + 1);
      if Lone(prev, t) {
        if HasCloser(Some(t[0]), t[1..]) {
          PairFound(Some(t[0]), t[1..], base + 1, base);
        } else {
          NoPairFound(Some(t[0]), t[1..], base + 1, base);
        }
      }
    }
  }

  /** Keeping one character. */
  lemma CutKeeps(text: seq<char>, cursor: nat, ranges: seq<Range>)
    requires cursor < |text| && (ranges == [] || cursor < ranges[0].start)
    ensures CutOut(text, cursor, ranges) == [text[cursor]] + CutOut(text, cursor + 1, ranges)
  {
    SplitAt(text, cursor);
    if ranges != [] {
      var r := ranges[0];
      if r.start < r.end < |text| {
        assert text[cursor..r.start] == [text[cursor]] + text[cursor + 1..r.start];
      }
    }
  }

  lemma {:induction false} CutIsStripped(text: seq<char>, i: nat, prev: Option<char>)
    requires i <= |text|
    ensures var rs := RangesFrom(prev, text[i..], i, None);
            && CutOut(text, i, rs) == Stripped(prev, text[i..], false)
            && |Stripped(prev, text[i..], false)| + 2 * |rs| == |text| - i
    decreases |text| - i
  {
    var t := text[i..];
    if i < |text| {
      SplitAt(text, i);
      var tail := text[i + 1..];
      if IsBreak(t[0]) || !Lone(prev, t) || !HasCloser(Some(t[0]), tail) {
        CutIsStripped(text, i + 1, Some(t[0]));
        KeepsHead(prev, t, i);
        RangesStart(Some(t[0]), tail, i + 1);
        CutKeeps(text, i, RangesFrom(Some(t[0]), tail, i + 1, None));
      } else {
        CutPair(text, i, prev);
      }
    }
  }

  lemma KeepsHead(prev: Option<char>, t: seq<char>, base: nat)
    requires t != [] && (IsBreak(t[0]) || !Lone(prev, t) || !HasCloser(Some(t[0]), t[1..]))
    ensures RangesFrom(prev, t, base, None) == RangesFrom(Some(t[0]), t[1..], base + 1, None)
    ensures Stripped(prev, t, false) == [t[0]] + Stripped(Some(t[0]), t[1..], false)
  {
    if !IsBreak(t[0]) && Lone(prev, t) {
      NoPairFound(Some(t[0]), t[1..], base + 1, base);
    }
  }

  lemma {:induction false} CutPair(text: seq<char>, i: nat, prev: Option<char>)
    requires i < |text| && Lone(prev, text[i..]) && HasCloser(Some(text[i]), text[i + 1..])
    ensures var rs := RangesFrom(prev, text[i..], i, None);
            && CutOut(text, i, rs) == Stripped(prev, text[i..], false)
            && |Stripped(prev, text[i..], false)| + 2 * |rs| == |text| - i
    decreases |text| - i, 0
  {
    hide *;
    var t, tail := text[i..], text[i + 1..];
    SplitAt(text, i);
    var e := Closer(Some(text[i]), tail);
    var next := i + e + 2;
    OpensPair(prev, t, i);
    PairFound(Some(text[i]), tail, i + 1, i);
    PairStripped(Some(text[i]), tail);
    SuffixOfSuffix(text, i + 1, e + 1);
    CutIsStripped(text, next, Some('*'));
    var later := RangesFrom(Some('*'), text[next..], next, None);
    CutFirst(text, i, i + 1 + e, later);
    assert tail[..e] == text[i + 1..i + 1 + e];
  }

  lemma OpensPair(prev: Option<char>, t: seq<char>, base: nat)
    requires Lone(prev, t) && HasCloser(Some(t[0]), t[1..])
    ensures RangesFrom(prev, t, base, None) == RangesFrom(Some(t[0]), t[1..], base + 1, Some(base))
    ensures Stripped(prev, t, false) == Stripped(Some(t[0]), t[1..], true)
  {
  }

  lemma CutUnfold(text: seq<char>, cursor: nat, r: Range, later: seq<Range>)
    requires cursor <= r.start < r.end < |text|
    ensures CutOut(text, cursor, [r] + later)
         == text[cursor..r.start] + (text[r.start + 1..r.end] + CutOut(text, r.end + 1, later))
  {
    assert ([r] + later)[0] == r && ([r] + later)[1..] == later;
  }

  lemma AfterNothing(a: seq<char>, b: seq<char>)
    requires |a| == 0
    ensures a + b == b
  {
  }

  lemma CutFirst(text: seq<char>, i: nat, end: nat, later: seq<Range>)
    requires i < end < |text|
    ensures CutOut(text, i, [Range(i, end)] + later) == text[i + 1..end] + CutOut(text, end + 1, later)
  {
    hide CutOut;
    var none, rest := text[i..i], text[i + 1..end] + CutOut(text, end + 1, later);
    AfterNothing(none, rest);
    CutUnfold(text, i, Range(i, end), later);
  }

  // ---- Touching stars stay as they are, and nothing is left to strip ----

  /** For each star of the text, in order, whether it is lone. */
  function StarMarks(prev: Option<char>, t: seq<char>): seq<bool>
    decreases |t|
  {
    if t == [] then []
    else (if t[0] == '*' then [Lone(prev, t)] else []) + StarMarks(Some(t[0]), t[1..])
  }

  /** The same for the stars that stripping keeps, judged in the original text. */
  function KeptMarks(prev: Option<char>, t: seq<char>, open: bool): seq<bool>
    decreases |t|
  {
    if t == [] then []
    else if IsBreak(t[0]) then KeptMarks(Some(t[0]), t[1..], false)
    else if !Lone(prev, t) then (if t[0] == '*' then [false] else []) + KeptMarks(Some(t[0]), t[1..], open)
    else if open then KeptMarks(Some(t[0]), t[1..], false)
    else if HasCloser(Some(t[0]), t[1..]) then KeptMarks(Some(t[0]), t[1..], true)
    else [true] + KeptMarks(Some(t[0]), t[1..], false)
  }

  /** A star's right neighbour is never removed, so it still stands there. */
  lemma NeighbourStays(t: seq<char>, open: bool)
    requires t != []
    ensures var out := Stripped(Some('*'), t, open); out != [] && out[0] == t[0]
  {
  }

  /** A kept character in front of the stripped rest is as lone as it was. */
  lemma HeadStaysLone(prev: Option<char>, prev': Option<char>, t: seq<char>, open: bool)
    requires t != [] && (t[0] == '*' ==> prev' == prev)
    ensures Lone(prev', [t[0]] + Stripped(Some(t[0]), t[1..], open)) <==> Lone(prev, t)
  {
    if t[0] == '*' && |t| > 1 {
      NeighbourStays(t[1..], open);
    }
  }

  /** At most one lone star is left on any line. */
  predicate Quiet(prev: Option<char>, t: seq<char>)
    decreases |t|
  {
    t == [] || ((Lone(prev, t) ==> !HasCloser(Some(t[0]), t[1..])) && Quiet(Some(t[0]), t[1..]))
  }

  lemma ConsFacts(prev: Option<char>, c: char, t: seq<char>)
    ensures HasCloser(prev, [c] + t) <==> !IsBreak(c) && (Lone(prev, [c] + t) || HasCloser(Some(c), t))
    ensures Quiet(prev, [c] + t) <==> (Lone(prev, [c] + t) ==> !HasCloser(Some(c), t)) && Quiet(Some(c), t)
    ensures StarMarks(prev, [c] + t) == (if c == '*' then [Lone(prev, [c] + t)] else []) + StarMarks(Some(c), t)
  {
    assert ([c] + t)[1..] == t;
  }

  /** The stripped text is quiet and keeps every mark, whatever now stands before it. */
  lemma {:induction false} StrippedIsQuiet(prev: Option<char>, prev': Option<char>, t: seq<char>, open: bool)
    requires t != [] && t[0] == '*' ==> prev' == prev
    ensures var out := Stripped(prev, t, open);
            && Quiet(prev', out)
            && (!HasCloser(prev, t) ==> !HasCloser(prev', out))
            && StarMarks(prev', out) == KeptMarks(prev, t, open)
    decreases |t|
  {
    if t != [] {
      var c, tail := t[0], t[1..];
      if IsBreak(c) || !Lone(prev, t) || (!open && !HasCloser(Some(c), tail)) {
        var open' := if IsBreak(c) || Lone(prev, t) then false else open;
        StrippedIsQuiet(Some(c), Some(c), tail, open');
        HeadStaysLone(prev, prev', t, open');
        ConsFacts(prev', c, Stripped(Some(c), tail, open'));
      } else {
        StrippedIsQuiet(Some(c), prev', tail, !open);
      }
    }
  }

  lemma {:induction false} QuietIsUnchanged(prev: Option<char>, t: seq<char>)
    requires Quiet(prev, t)
    ensures Stripped(prev, t, false) == t
    decreases |t|
  {
    if t != [] {
      QuietIsUnchanged(Some(t[0]), t[1..]);
      assert t == [t[0]] + t[1..];
    }
  }

  /** Stripping is idempotent, and no remaining star changes whether it touches another one. */
  lemma StripTwice(text: seq<char>)
    ensures var once := Stripped(None, text, false);
            Stripped(None, once, false) == once && StarMarks(None, once) == KeptMarks(None, text, false)
  {
    StrippedIsQuiet(None, None, text, false);
    QuietIsUnchanged(None, Stripped(None, text, false));
  }

  // ---- The same in terms of characters ----

  /** A star with no star beside it. */
  predicate IsolatedStar(text: seq<char>, i: nat) {
    && i < |text| && text[i] == '*'
    && (i > 0 ==> text[i - 1] != '*') && (i + 1 < |text| ==> text[i + 1] != '*')
  }

  lemma IsolatedIsLone(text: seq<char>, i: nat)
    requires i < |text|
    ensures IsolatedStar(text, i) <==> LoneAt(text, i)
  {
  }

  /** Every range runs from one isolated star to a later one, with no line feed or carriage return between, and
      the next range starts after it. */
  lemma RangesAreItalics(text: seq<char>, ranges: seq<Range>, k: nat)
    requires RangesOk(text, ranges, |text|) && k < |ranges|
    ensures ranges[k].start < ranges[k].end < |text|
    ensures IsolatedStar(text, ranges[k].start) && IsolatedStar(text, ranges[k].end)
    ensures forall i :: ranges[k].start <= i <= ranges[k].end ==> text[i] != '\n' && text[i] != '\r'
    ensures k + 1 < |ranges| ==> ranges[k].end < ranges[k + 1].start
  {
    hide Lone;
    IsolatedIsLone(text, ranges[k].start);
    IsolatedIsLone(text, ranges[k].end);
  }

  /** After stripping, between any two isolated stars a line ends: no pair is left. */
  lemma NoPairIsLeft(text: seq<char>, i: nat, j: nat)
    requires var out := Stripped(None, text, false); IsolatedStar(out, i) && IsolatedStar(out, j) && i < j
    ensures var out := Stripped(None, text, false); exists k :: i < k < j && (out[k] == '\n' || out[k] == '\r')
  {
    hide Stripped, Lone, Quiet, StarMarks, KeptMarks;
    var out := Stripped(None, text, false);
    StrippedIsQuiet(None, None, text, false);
    assert out[0..] == out;
    IsolatedIsLone(out, i);
    IsolatedIsLone(out, j);
    QuietAt(out, 0, i);
    CloserUnlessBreak(out, i + 1, j);
  }

  lemma {:induction false} QuietAt(text: seq<char>, from: nat, i: nat)
    requires from <= i < |text| && Quiet(PrevAt(text, from), text[from..]) && LoneAt(text, i)
    ensures !HasCloser(Some(text[i]), text[i + 1..])
    decreases i - from
  {
    hide Lone, HasCloser;
    SplitAt(text, from);
    if from < i {
      QuietAt(text, from + 1, i);
    }
  }

  lemma {:induction false} CloserUnlessBreak(text: seq<char>, from: nat, j: nat)
    requires 0 < from <= j < |text| && LoneAt(text, j) && !HasCloser(PrevAt(text, from), text[from..])
    ensures exists k :: from <= k < j && (text[k] == '\n' || text[k] == '\r')
    decreases j - from
  {
    SplitAt(text, from);
    if IsBreak(text[from]) {
      assert from < j;
    } else if from < j {
      CloserUnlessBreak(text, from + 1, j);
    }
  }
}
