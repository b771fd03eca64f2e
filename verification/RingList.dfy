/** The intrusive circular lists of dokan/list.h: nodes that point at each other, the head among them. */
module RingList {
  class ListEntry {
    var flink: ListEntry
    var blink: ListEntry

    /** InitializeListHead. */
    constructor ()
      ensures flink == this && blink == this
    {
      flink, blink := this, this;
    }
  }

  predicate Distinct(r: seq<ListEntry>) { forall i, j :: 0 <= i < j < |r| ==> r[i] != r[j] }

  /** The nodes of `r`, in this order, form a ring: Flink and Blink are inverse to each other. */
  ghost predicate Ring(r: seq<ListEntry>)
    reads r
  {
    && r != [] && Distinct(r)
    && (forall i :: 0 <= i < |r| - 1 ==> r[i].flink == r[i + 1] && r[i + 1].blink == r[i])
    && r[|r| - 1].flink == r[0] && r[0].blink == r[|r| - 1]
  }

  /** A ring can be read from any of its nodes. */
  lemma RingRotates(r: seq<ListEntry>, k: nat)
    requires Ring(r) && k < |r|
    ensures Ring(r[k..] + r[..k])
  {
    var q, n := r[k..] + r[..k], |r|;
    forall i | 0 <= i < n ensures q[i] == if i < n - k then r[i + k] else r[i + k - n] { }
    forall i | 0 <= i < n - 1 ensures q[i].flink == q[i + 1] && q[i + 1].blink == q[i] {
      if i == n - k - 1 { assert q[i] == r[n - 1] && q[i + 1] == r[0]; }
    }
    assert q[0] == r[k] && q[n - 1] == if k == 0 then r[n - 1] else r[k - 1];
  }

  method IsListEmpty(head: ListEntry?, ghost r: seq<ListEntry>) returns (empty: bool)
    requires head != null ==> Ring(r) && r[0] == head
    ensures empty <==> head == null || |r| == 1
  {
    empty := head == null || head.flink == head;
    assert head != null && |r| > 1 ==> r[0].flink == r[1] && r[1] != r[0];
  }

  method InsertTailList(head: ListEntry, entry: ListEntry, ghost r: seq<ListEntry>)
    requires Ring(r) && r[0] == head && entry !in r
    modifies r, entry
    ensures Ring(r + [entry])
  {
    var blink := head.blink;
    assert blink == r[|r| - 1];
    entry.flink := head;
    entry.blink := blink;
    blink.flink := entry;
    head.blink := entry;
    ghost var q := r + [entry];
    assert forall i :: 0 <= i < |q| ==> q[i] == if i < |r| then r[i] else entry;
  }

  method InsertHeadList(head: ListEntry, entry: ListEntry, ghost r: seq<ListEntry>)
    requires Ring(r) && r[0] == head && entry !in r
    modifies r, entry
    ensures Ring([head, entry] + r[1..])
  {
    var flink := head.flink;
    assert flink == r[if |r| > 1 then 1 else 0];
    entry.flink := flink;
    entry.blink := head;
    flink.blink := entry;
    head.flink := entry;
    ghost var q := [head, entry] + r[1..];
    assert forall i :: 0 <= i < |q| ==> q[i] == if i == 0 then head else if i == 1 then entry else r[i - 1];
  }

  /** `k` is the place of the entry in the ring; a node alone in its ring stays as it is. */
  method RemoveEntryList(entry: ListEntry?, ghost r: seq<ListEntry>, ghost k: nat) returns (last: bool)
    requires entry != null ==> Ring(r) && k < |r| && r[k] == entry
    modifies r
    ensures entry == null ==> last && forall n :: n in r ==> n.flink == old(n.flink) && n.blink == old(n.blink)
    ensures entry != null ==> (last <==> |r| <= 2)
    ensures entry != null && |r| == 1 ==> Ring(r)
    ensures entry != null && |r| > 1 ==> Ring(r[..k] + r[k + 1..])
  {
    if entry == null { return true; }
    var flink, blink := entry.flink, entry.blink;
    ghost var n := |r|;
    assert flink == r[if k + 1 < n then k + 1 else 0];
    assert blink == r[if k > 0 then k - 1 else n - 1];
    blink.flink := flink;
    flink.blink := blink;
    last := flink == blink;
    ghost var q := r[..k] + r[k + 1..];
    assert forall i :: 0 <= i < |q| ==> q[i] == if i < k then r[i] else r[i + 1];
  }

  /** An empty list gives its own head back. */
  method RemoveHeadList(head: ListEntry, ghost r: seq<ListEntry>) returns (entry: ListEntry)
    requires Ring(r) && r[0] == head
    modifies r
    ensures |r| == 1 ==> entry == head && Ring(r)
    ensures |r| > 1 ==> entry == r[1] && Ring([head] + r[2..])
  {
    entry := head.flink;
    assert entry == r[if |r| > 1 then 1 else 0];
    var flink := entry.flink;
    assert flink == r[if |r| > 2 then 2 else 0];
    head.flink := flink;
    flink.blink := head;
    if |r| > 1 {
      ghost var q := [head] + r[2..];
      assert forall i :: 0 <= i < |q| ==> q[i] == if i == 0 then head else r[i + 1];
    }
  }

  method RemoveTailList(head: ListEntry, ghost r: seq<ListEntry>) returns (entry: ListEntry)
    requires Ring(r) && r[0] == head
    modifies r
    ensures |r| == 1 ==> entry == head && Ring(r)
    ensures |r| > 1 ==> entry == r[|r| - 1] && Ring(r[..|r| - 1])
  {
    entry := head.blink;
    assert entry == r[|r| - 1];
    var blink := entry.blink;
    assert blink == r[if |r| > 1 then |r| - 2 else 0];
    head.blink := blink;
    blink.flink := head;
  }

  /** `tail` is a node of the second ring, which has no head of its own. */
  method AppendTailList(head: ListEntry, tail: ListEntry, ghost r: seq<ListEntry>, ghost q: seq<ListEntry>)
    requires Ring(r) && Ring(q) && r[0] == head && q[0] == tail && forall n :: n in r ==> n !in q
    modifies r, q
    ensures Ring(r + q)
  {
    var listEnd := head.blink;
    assert listEnd == r[|r| - 1] && tail.blink == q[|q| - 1];
    head.blink.flink := tail;
    head.blink := tail.blink;
    tail.blink.flink := head;
    tail.blink := listEnd;
    ghost var s := r + q;
    assert forall i :: 0 <= i < |s| ==> s[i] == if i < |r| then r[i] else q[i - |r|];
    forall i, j | 0 <= i < |r| && 0 <= j < |q| ensures r[i] != q[j] { assert r[i] in r && q[j] in q; }
  }
}
