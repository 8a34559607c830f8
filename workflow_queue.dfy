// src/workflow/priority_queue.py: the tier constants of the workflow
// Priority enum, QueueItem ordering and the PriorityQueue (a heap list plus
// an id index). The heap list is kept as the queued items in arrival
// order; `pop` takes an item that no other queued item precedes.
module WorkflowQueue {
  import opened Wrappers
  import opened Py
  import opened Base

  function Weight(p: Priority): real
  {
    match p case Low => 1.0 case Medium => 2.0 case High => 3.0 case Critical => 4.0
  }

  function Timeout(p: Priority): int
  {
    match p case Low => 300 case Medium => 60 case High => 30 case Critical => 5
  }

  function MaxConcurrent(p: Priority): int
  {
    match p case Low => 8 case Medium => 4 case High => 2 case Critical => 1
  }

  /** Higher tiers weigh more, time out sooner and run fewer at once. */
  lemma TierConstants()
    ensures Weight(Low) < Weight(Medium) < Weight(High) < Weight(Critical)
    ensures Timeout(Low) == 300 && Timeout(Medium) == 60 && Timeout(High) == 30 && Timeout(Critical) == 5
    ensures MaxConcurrent(Low) == 8 && MaxConcurrent(Medium) == 4 && MaxConcurrent(High) == 2 && MaxConcurrent(Critical) == 1
    ensures forall p, q: Priority :: Weight(p) < Weight(q) ==> Timeout(p) > Timeout(q) && MaxConcurrent(p) > MaxConcurrent(q)
  {
    forall p, q: Priority | Weight(p) < Weight(q) ensures Timeout(p) > Timeout(q) && MaxConcurrent(p) > MaxConcurrent(q) {
      match p case Low => case Medium => case High => case Critical =>
    }
  }

  datatype QueueItem = QueueItem(priority: Priority, taskId: string, payload: Entries, createdAt: real)

  /** `QueueItem.__lt__`: the heavier tier first, then the earlier creation time. */
  predicate Precedes(a: QueueItem, b: QueueItem)
  {
    if Weight(a.priority) != Weight(b.priority) then Weight(a.priority) > Weight(b.priority)
    else a.createdAt < b.createdAt
  }

  lemma PrecedesOrder(a: QueueItem, b: QueueItem, c: QueueItem)
    ensures Precedes(a, b) <==> Weight(a.priority) > Weight(b.priority)
                                || (a.priority == b.priority && a.createdAt < b.createdAt)
    ensures !(Precedes(a, b) && Precedes(b, a))
    ensures Precedes(a, b) && Precedes(b, c) ==> Precedes(a, c)
  {
    assert Weight(a.priority) == Weight(b.priority) <==> a.priority == b.priority by {
      match a.priority case Low => case Medium => case High => case Critical =>
    }
  }

  /** The position of the first item in `h` that no item of `h` precedes. */
  function MinIndex(h: seq<QueueItem>): (k: nat)
    requires |h| > 0
    ensures k < |h|
    ensures forall j :: 0 <= j < |h| ==> !Precedes(h[j], h[k])
    ensures forall j :: 0 <= j < k ==> Precedes(h[k], h[j])
  {
    if |h| == 1 then 0
    else
      var k := MinIndex(h[..|h| - 1]);
      var last := h[|h| - 1];
      PrecedesOrder(last, h[k], last);
      if Precedes(last, h[k]) then
        assert forall j :: 0 <= j < |h| - 1 ==> !Precedes(h[j], last) by {
          forall j | 0 <= j < |h| - 1 ensures !Precedes(h[j], last) {
            PrecedesOrder(h[j], last, h[k]);
            PrecedesOrder(last, h[k], h[j]);
            assert !Precedes(h[j], h[k]);
          }
        }
        assert forall j :: 0 <= j < |h| - 1 ==> Precedes(last, h[j]) by {
          forall j | 0 <= j < |h| - 1 ensures Precedes(last, h[j]) {
            assert !Precedes(h[j], h[k]);
            PrecedesOrder(last, h[k], h[j]);
            PrecedesOrder(h[j], h[k], last);
            PrecedesWeak(last, h[k], h[j]);
          }
        }
        |h| - 1
      else
        k
  }

  /** If `a` precedes `b` and `c` does not precede `b`, then `a` precedes `c`. */
  lemma PrecedesWeak(a: QueueItem, b: QueueItem, c: QueueItem)
    requires Precedes(a, b) && !Precedes(c, b)
    ensures Precedes(a, c)
  {
    assert Weight(a.priority) == Weight(b.priority) <==> a.priority == b.priority by {
      match a.priority case Low => case Medium => case High => case Critical =>
    }
  }

  function RemoveAt<T>(s: seq<T>, k: nat): (r: seq<T>)
    requires k < |s|
    ensures |r| == |s| - 1 && multiset(r) + multiset{s[k]} == multiset(s)
  {
    assert s == s[..k] + [s[k]] + s[k + 1..];
    s[..k] + s[k + 1..]
  }

  function WithoutId(h: seq<QueueItem>, id: string): (r: seq<QueueItem>)
    ensures forall i :: 0 <= i < |r| ==> r[i].taskId != id && r[i] in h
    ensures forall x :: x in h && x.taskId != id ==> x in r
    ensures |r| <= |h|
  {
    if h == [] then []
    else if h[0].taskId == id then WithoutId(h[1..], id)
    else [h[0]] + WithoutId(h[1..], id)
  }

  function OfPriority(h: seq<QueueItem>, p: Priority): (r: seq<QueueItem>)
    ensures forall i :: 0 <= i < |r| ==> r[i].priority == p && r[i] in h
    ensures forall x :: x in h && x.priority == p ==> x in r
  {
    if h == [] then []
    else
      var rest := OfPriority(h[1..], p);
      assert h == [h[0]] + h[1..];
      if h[0].priority == p then [h[0]] + rest else rest
  }

  function Ids(h: seq<QueueItem>): set<string>
  {
    set x | x in h :: x.taskId
  }

  ghost predicate UniqueIds(h: seq<QueueItem>)
  {
    forall i, j :: 0 <= i < j < |h| ==> h[i].taskId != h[j].taskId
  }

  /** The `_items` index agrees with the heap list: ids are unique and each maps to its queued item. */
  ghost predicate Agree(h: seq<QueueItem>, m: map<string, QueueItem>)
  {
    UniqueIds(h) && m.Keys == Ids(h) && forall x :: x in h ==> x.taskId in m && m[x.taskId] == x
  }

  lemma AgreeAppend(h: seq<QueueItem>, m: map<string, QueueItem>, item: QueueItem)
    requires Agree(h, m) && item.taskId !in m
    ensures Agree(h + [item], m[item.taskId := item])
  {
    var h', m' := h + [item], m[item.taskId := item];
    assert Ids(h') == Ids(h) + {item.taskId} by {
      forall id | id in Ids(h') ensures id in Ids(h) + {item.taskId} {
        var x :| x in h' && x.taskId == id;
        if x != item { assert x in h; }
      }
      assert item in h';
    }
    forall i, j | 0 <= i < j < |h'| ensures h'[i].taskId != h'[j].taskId {
      if j == |h| { assert h'[i] in h; }
    }
  }

  lemma RemoveAtElems(h: seq<QueueItem>, k: nat)
    requires k < |h|
    ensures forall i :: 0 <= i < |RemoveAt(h, k)| ==> RemoveAt(h, k)[i] == if i < k then h[i] else h[i + 1]
  {
    assert RemoveAt(h, k) == h[..k] + h[k + 1..];
  }

  lemma RemoveAtUnique(h: seq<QueueItem>, k: nat)
    requires UniqueIds(h) && k < |h|
    ensures UniqueIds(RemoveAt(h, k))
    ensures forall x :: x in RemoveAt(h, k) ==> x in h && x.taskId != h[k].taskId
  {
    var r := RemoveAt(h, k);
    RemoveAtElems(h, k);
    forall i, j | 0 <= i < j < |r| ensures r[i].taskId != r[j].taskId {
      var i' := if i < k then i else i + 1;
      var j' := if j < k then j else j + 1;
      assert r[i] == h[i'] && r[j] == h[j'];
    }
    forall x | x in r ensures x in h && x.taskId != h[k].taskId {
      var i :| 0 <= i < |r| && r[i] == x;
      var i' := if i < k then i else i + 1;
      assert x == h[i'];
    }
  }

  lemma RemoveAtIds(h: seq<QueueItem>, k: nat)
    requires k < |h|
    ensures Ids(h) - {h[k].taskId} <= Ids(RemoveAt(h, k))
  {
    var r := RemoveAt(h, k);
    RemoveAtElems(h, k);
    forall y | y in Ids(h) - {h[k].taskId} ensures y in Ids(r) {
      var x :| x in h && x.taskId == y;
      var i :| 0 <= i < |h| && h[i] == x;
      assert i != k;
      if i < k { assert r[i] == x; } else { assert r[i - 1] == x; }
    }
  }

  lemma AgreeRemoveAt(h: seq<QueueItem>, m: map<string, QueueItem>, k: nat)
    requires Agree(h, m) && k < |h|
    ensures h[k].taskId in m
    ensures Agree(RemoveAt(h, k), m - {h[k].taskId})
  {
    assert h[k] in h;
    RemoveAtUnique(h, k);
    RemoveAtIds(h, k);
  }

  lemma WithoutIdUnique(h: seq<QueueItem>, id: string)
    requires UniqueIds(h)
    ensures UniqueIds(WithoutId(h, id))
  {
    if h != [] {
      WithoutIdUnique(h[1..], id);
      var w := WithoutId(h[1..], id);
      if h[0].taskId != id {
        forall i | 0 <= i < |w| ensures w[i].taskId != h[0].taskId {
          var j :| 0 <= j < |h[1..]| && h[1..][j] == w[i];
          assert h[j + 1] == w[i];
        }
      }
    }
  }

  lemma AgreeWithoutId(h: seq<QueueItem>, m: map<string, QueueItem>, id: string)
    requires Agree(h, m)
    ensures Agree(WithoutId(h, id), m - {id})
  {
    var r := WithoutId(h, id);
    WithoutIdUnique(h, id);
    forall y | y in Ids(h) - {id} ensures y in Ids(r) {
      var x :| x in h && x.taskId == y;
      assert x in r;
    }
  }

  class PriorityQueue {
    var heap: seq<QueueItem>
    var items: map<string, QueueItem>

    ghost predicate Consistent()
      reads this
    {
      Agree(heap, items)
    }

    constructor ()
      ensures heap == [] && items == map[] && Consistent()
    {
      heap := [];
      items := map[];
    }

    /** `push`: the item is queued and indexed; a duplicate id keeps both queued items but one index entry. */
    method Push(item: QueueItem)
      modifies this
      ensures heap == old(heap) + [item]
      ensures items == old(items)[item.taskId := item]
      ensures old(Consistent()) && item.taskId !in old(items) ==> Consistent()
    {
      if Consistent() && item.taskId !in items {
        AgreeAppend(heap, items, item);
      }
      heap := heap + [item];
      items := items[item.taskId := item];
    }

    function Len(): (n: nat)
      reads this
      ensures n == |heap|
    {
      |heap|
    }

    function IsEmpty(): (b: bool)
      reads this
      ensures b <==> Len() == 0
    {
      |heap| == 0
    }

    /** `peek`: an item no other queued item precedes; None on an empty queue. */
    function Peek(): (r: Option<QueueItem>)
      reads this
      ensures r.None? <==> heap == []
      ensures r.Some? ==> r.value in heap && forall j :: 0 <= j < |heap| ==> !Precedes(heap[j], r.value)
    {
      if heap == [] then None else Some(heap[MinIndex(heap)])
    }

    /** `pop`: returns what `peek` returned and removes it; the index deletion raises KeyError when a duplicate id was pushed. */
    method Pop() returns (r: Result<Option<QueueItem>, PyError>)
      modifies this
      ensures old(heap) == [] ==> r == Ok(None) && heap == old(heap) && items == old(items)
      ensures old(heap) != [] ==>
        var item := old(Peek()).value;
        |heap| == |old(heap)| - 1 && multiset(heap) + multiset{item} == multiset(old(heap))
        && (if item.taskId in old(items) then r == Ok(Some(item)) && items == old(items) - {item.taskId}
            else r == Err(KeyError) && items == old(items))
      ensures old(Consistent()) ==> r.Ok? && Consistent()
    {
      if heap == [] {
        return Ok(None);
      }
      var k := MinIndex(heap);
      var item := heap[k];
      if Consistent() {
        AgreeRemoveAt(heap, items, k);
      }
      heap := RemoveAt(heap, k);
      if item.taskId in items {
        items := items - {item.taskId};
        r := Ok(Some(item));
      } else {
        r := Err(KeyError);
      }
    }

    /** `remove`: an absent id changes nothing; otherwise the id leaves heap and index and its indexed item is returned. */
    method Remove(id: string) returns (r: Option<QueueItem>)
      modifies this
      ensures id !in old(items) ==> r.None? && heap == old(heap) && items == old(items)
      ensures id in old(items) ==>
        r == Some(old(items)[id]) && items == old(items) - {id} && heap == WithoutId(old(heap), id)
      ensures old(Consistent()) ==> Consistent() && forall x :: x in heap ==> x.taskId != id
    {
      if id !in items {
        r := None;
        return;
      }
      if Consistent() {
        AgreeWithoutId(heap, items, id);
      }
      r := Some(items[id]);
      items := items - {id};
      heap := WithoutId(heap, id);
    }

    /** `get_by_priority`. */
    function GetByPriority(p: Priority): (r: seq<QueueItem>)
      reads this
      ensures forall i :: 0 <= i < |r| ==> r[i].priority == p && r[i] in heap
      ensures forall x :: x in heap && x.priority == p ==> x in r
    {
      OfPriority(heap, p)
    }
  }

  /** Pushing Low, Critical, Medium (in that order) pops Critical, then Medium, then Low. */
  lemma PopOrderExample(a: QueueItem, b: QueueItem, c: QueueItem)
    requires a.priority == Low && b.priority == Critical && c.priority == Medium
    ensures MinIndex([a, b, c]) == 1
    ensures MinIndex([a, c]) == 1
  {
  }
}
