/** Optional values, and the facts about sequences that the proofs keep needing. */
module Basics {

  datatype Option<+T> = None | Some(value: T)

  // ---- Numbers as text ----

  function Decimal(n: nat): string {
    if n < 10 then ["0123456789"[n]] else Decimal(n / 10) + ["0123456789"[n % 10]]
  }

  function Integer(n: int): string {
    if n < 0 then "-" + Decimal(-n) else Decimal(n)
  }

  // ---- Sequence facts ----

  lemma ConsInjective<T>(x: T, a: seq<T>, b: seq<T>)
    ensures [x] + a == [x] + b <==> a == b
  {
    assert a == ([x] + a)[1..] && b == ([x] + b)[1..];
  }

  lemma SnocThenAppend<T>(a: seq<T>, x: T, b: seq<T>)
    ensures (a + [x]) + b == a + ([x] + b)
  {
  }

  lemma Reassociate<T>(a: seq<T>, b: seq<T>, c: seq<T>)
    ensures a + (b + c) == (a + b) + c
  {
  }

  /** Splitting off the element at `i`, in both directions. */
  lemma SplitAt<T>(s: seq<T>, i: nat)
    requires i < |s|
    ensures s[i..] == [s[i]] + s[i + 1..] && s[i..][1..] == s[i + 1..] && s[i..][0] == s[i]
    ensures s[..i + 1] == s[..i] + [s[i]]
  {
  }

  lemma SuffixOfSuffix<T>(s: seq<T>, a: nat, b: nat)
    requires a + b <= |s|
    ensures s[a..][b..] == s[a + b..]
  {
  }

  // ---- Lists of lists ----

  function Flatten<T>(batches: seq<seq<T>>): seq<T> {
    if batches == [] then [] else batches[0] + Flatten(batches[1..])
  }

  lemma EmptyFlatten<T>()
    ensures Flatten<T>([]) == []
  {
  }

  lemma FlattenHead<T>(batches: seq<seq<T>>)
    requires batches != []
    ensures Flatten(batches) == batches[0] + Flatten(batches[1..])
  {
  }

  lemma {:induction false} FlattenSnoc<T>(batches: seq<seq<T>>, b: seq<T>)
    ensures Flatten(batches + [b]) == Flatten(batches) + b
  {
    if batches == [] {
      assert batches + [b] == [b] && [b][1..] == [];
    } else {
      assert (batches + [b])[1..] == batches[1..] + [b];
      FlattenSnoc(batches[1..], b);
      assert batches[0] + (Flatten(batches[1..]) + b) == (batches[0] + Flatten(batches[1..])) + b;
    }
  }

  lemma {:induction false} InFlatten<T>(groups: seq<seq<T>>, g: seq<T>, x: T)
    requires g in groups && x in g
    ensures x in Flatten(groups)
  {
    if g != groups[0] {
      InFlatten(groups[1..], g, x);
    }
  }

  lemma {:induction false} FlattenConcat<T>(a: seq<seq<T>>, b: seq<seq<T>>)
    ensures Flatten(a + b) == Flatten(a) + Flatten(b)
  {
    if a == [] {
      assert a + b == b;
    } else {
      assert (a + b)[1..] == a[1..] + b;
      FlattenConcat(a[1..], b);
      assert a[0] + (Flatten(a[1..]) + Flatten(b)) == (a[0] + Flatten(a[1..])) + Flatten(b);
    }
  }

  /** Every group is a stretch of the flattened list. */
  lemma {:induction false} GroupIsSlice<T>(groups: seq<seq<T>>, g: seq<T>) returns (p: nat)
    requires g in groups
    ensures p + |g| <= |Flatten(groups)| && Flatten(groups)[p..p + |g|] == g
  {
    FlattenHead(groups);
    if g == groups[0] {
      p := 0;
    } else {
      var q := GroupIsSlice(groups[1..], g);
      p := |groups[0]| + q;
      assert Flatten(groups)[p..p + |g|] == Flatten(groups[1..])[q..q + |g|];
    }
  }

  /** Every element in a list of its own. */
  function Singles<T>(s: seq<T>): (gs: seq<seq<T>>)
    ensures forall g :: g in gs ==> |g| == 1
  {
    if s == [] then [] else [[s[0]]] + Singles(s[1..])
  }

  lemma {:induction false} SinglesFlat<T>(s: seq<T>)
    ensures Flatten(Singles(s)) == s
  {
    if s != [] {
      SinglesFlat(s[1..]);
      var gs := [[s[0]]] + Singles(s[1..]);
      assert gs[1..] == Singles(s[1..]) && s == [s[0]] + s[1..];
      FlattenHead(gs);
    }
  }

  /** Two lists put together of parts, of which none is longer on the right, agree just when the parts do. */
  lemma PartsAgree<T>(a: seq<T>, b: seq<T>, x: seq<T>, y: seq<T>)
    requires |x| <= |a| && |y| <= |b|
    ensures a + b == x + y <==> a == x && b == y
  {
    if a + b == x + y {
      assert |a| + |b| == |a + b| == |x + y| == |x| + |y|;
      assert a == (a + b)[..|a|] && x == (x + y)[..|x|];
      assert b == (a + b)[|a|..] && y == (x + y)[|x|..];
    }
  }

  lemma {:induction false} FromFlatten<T>(groups: seq<seq<T>>, x: T) returns (g: seq<T>)
    requires x in Flatten(groups)
    ensures g in groups && x in g
  {
    if x in groups[0] {
      g := groups[0];
    } else {
      g := FromFlatten(groups[1..], x);
    }
  }

  function NumberOf(digits: string): int {
    if digits == "" then 0
    else 10 * NumberOf(digits[..|digits| - 1]) + (digits[|digits| - 1] as int - '0' as int)
  }

  /** A decimal numeral denotes its number and has no leading zero. */
  lemma {:induction false} DecimalDenotes(n: nat)
    ensures NumberOf(Decimal(n)) == n && Decimal(n) != "" && (n > 0 ==> Decimal(n)[0] != '0')
    ensures forall c :: c in Decimal(n) ==> '0' <= c <= '9'
  {
    var digit := "0123456789"[n % 10];
    assert digit as int == '0' as int + n % 10;
    if n < 10 {
      assert Decimal(n)[..0] == "" && Decimal(n) == [digit];
    } else {
      var front := Decimal(n / 10);
      DecimalDenotes(n / 10);
      assert (front + [digit])[..|front|] == front;
    }
  }
}
