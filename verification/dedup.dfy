/** The bounded deduplication window the WeChat, QQ and Feishu channels keep of processed message ids. */
module Dedup {
  import opened Basics

  const CAPACITY := 1000

  /** The ids accepted from a stream when each is compared with the last thousand accepted before it. */
  function Accepted(stream: seq<string>): seq<string> {
    if stream == [] then []
    else
      var before, id := Accepted(stream[..|stream| - 1]), stream[|stream| - 1];
      if id in Window(before) then before else before + [id]
  }

  function Window(accepted: seq<string>): seq<string> {
    if |accepted| <= CAPACITY then accepted else accepted[|accepted| - CAPACITY..]
  }

  class Processed {
    var ids: seq<string>
    ghost var stream: seq<string>

    ghost predicate Valid()
      reads this
    {
      ids == Window(Accepted(stream))
    }

    constructor ()
      ensures Valid() && stream == []
    {
      ids, stream := [], [];
    }

    /** Rejected exactly when the id is among the last thousand accepted ones. */
    method Check(id: string) returns (duplicate: bool)
      requires Valid()
      modifies this
      ensures Valid() && stream == old(stream) + [id]
      ensures duplicate <==> id in Window(Accepted(old(stream)))
    {
      hide Accepted, Window, IsTail;
      ghost var accepted := Accepted(stream);
      StreamSnoc(stream, id);
      stream := stream + [id];
      duplicate := id in ids;
      if duplicate {
        return;
      }
      TailSnoc(ids, accepted, id);
      ids := ids + [id];
      while |ids| > CAPACITY
        invariant stream == old(stream) + [id] && IsTail(ids, accepted + [id])
        invariant |ids| <= CAPACITY ==> ids == Window(accepted + [id])
      {
        TailDrop(ids, accepted + [id]);
        ids := ids[1..];
      }
    }
  }

  predicate IsTail(ids: seq<string>, all: seq<string>) {
    |ids| <= |all| && ids == all[|all| - |ids|..]
  }

  lemma TailSnoc(ids: seq<string>, accepted: seq<string>, id: string)
    requires ids == Window(accepted)
    ensures IsTail(ids + [id], accepted + [id])
    ensures |ids + [id]| <= CAPACITY ==> ids + [id] == Window(accepted + [id])
  {
  }

  lemma TailDrop(ids: seq<string>, all: seq<string>)
    requires IsTail(ids, all) && |ids| > CAPACITY
    ensures IsTail(ids[1..], all) && (|ids[1..]| <= CAPACITY ==> ids[1..] == Window(all))
  {
    SuffixOfSuffix(all, |all| - |ids|, 1);
  }

  lemma StreamSnoc(stream: seq<string>, id: string)
    ensures Accepted(stream + [id]) ==
      if id in Window(Accepted(stream)) then Accepted(stream) else Accepted(stream) + [id]
  {
    assert (stream + [id])[..|stream|] == stream;
  }

  /** Over every stream, any 1001 consecutive accepted ids are pairwise distinct. */
  lemma {:induction false} AcceptedAreDistinct(stream: seq<string>, i: nat, j: nat)
    requires i < j < |Accepted(stream)| && j - i <= 1000
    ensures Accepted(stream)[i] != Accepted(stream)[j]
  {
    var before, id := Accepted(stream[..|stream| - 1]), stream[|stream| - 1];
    if j < |before| {
      AcceptedAreDistinct(stream[..|stream| - 1], i, j);
    } else {
      var w := Window(before);
      var k := i - (|before| - |w|);
      assert w[k] == before[i] && w[k] in w;
    }
  }

  /** The window cannot promise more: an id is accepted again exactly when its last acceptance lies more
      than a thousand acceptances back. */
  lemma AcceptedAgainIff(stream: seq<string>, id: string, last: nat)
    requires last < |Accepted(stream)| && Accepted(stream)[last] == id
    requires forall k :: last < k < |Accepted(stream)| ==> Accepted(stream)[k] != id
    ensures Accepted(stream + [id]) == Accepted(stream) + [id] <==> |Accepted(stream)| - last > 1000
  {
    hide Accepted;
    StreamSnoc(stream, id);
    var all := Accepted(stream);
    var w := Window(all);
    var start := |all| - |w|;
    assert forall k :: 0 <= k < |w| ==> w[k] == all[start + k];
    if start <= last {
      assert w[last - start] == id;
    }
    assert all + [id] != all;
  }

  /** An id that was never accepted is accepted. */
  lemma NewIdIsAccepted(stream: seq<string>, id: string)
    requires id !in Accepted(stream)
    ensures Accepted(stream + [id]) == Accepted(stream) + [id]
  {
    hide Accepted;
    StreamSnoc(stream, id);
  }
}
