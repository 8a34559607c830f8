// scheduler/priority_queue.go: `TaskQueue`, a slice of task pointers that is
// swap-sorted in place by rank before every Dequeue and Peek.
module GoPriorityQueue {
  import opened Wrappers
  import opened GoTypes
  import GoTask

  const Critical := "Critical"
  const High := "High"
  const Medium := "Medium"
  const Low := "Low"

  /** `PriorityValue[p]`: the capitalised names rank 0 to 3 and every other
      string, the lower-case `ds` priorities included, reads the map's zero value. */
  function PriorityValue(p: string): (v: int)
    ensures 0 <= v <= 3
    ensures v == 1 <==> p == High
    ensures v == 2 <==> p == Medium
    ensures v == 3 <==> p == Low
    ensures p in {GoTask.Critical, GoTask.High, GoTask.Medium, GoTask.Low} ==> v == 0
  {
    if p == High then 1 else if p == Medium then 2 else if p == Low then 3 else 0
  }

  function Rank(t: GoTask.Task): int
    reads t
  {
    PriorityValue(t.priority)
  }

  /** Non-decreasing rank along the queue. */
  predicate Sorted(q: seq<GoTask.Task>)
    reads q
  {
    forall a, b :: 0 <= a < b < |q| ==> Rank(q[a]) <= Rank(q[b])
  }

  /** Every task before position `i` ranks at or below every task after it. */
  predicate Settled(s: seq<GoTask.Task>, i: nat)
    reads s
  {
    forall a, b :: 0 <= a < i && a < b < |s| ==> Rank(s[a]) <= Rank(s[b])
  }

  /** The position of the first task whose priority string is `p`, or `|q|`. */
  function FirstWithPriority(q: seq<GoTask.Task>, p: string): (i: nat)
    reads q
    ensures i <= |q|
    ensures i < |q| ==> q[i].priority == p
    ensures forall j :: 0 <= j < i ==> q[j].priority != p
  {
    if q == [] then 0 else if q[0].priority == p then 0 else 1 + FirstWithPriority(q[1..], p)
  }

  class TaskQueue {
    var queue: seq<GoTask.Task>
    var lastTime: map<string, nat>

    constructor ()
      ensures queue == [] && lastTime == map[]
    {
      queue := [];
      lastTime := map[];
    }

    /** Appends the task and stamps its priority's `lastTime`. */
    method Enqueue(task: GoTask.Task, now: nat)
      modifies this
      ensures queue == old(queue) + [task]
      ensures lastTime == old(lastTime)[task.priority := now]
    {
      queue := queue + [task];
      lastTime := lastTime[task.priority := now];
    }

    /** The nested swap loops: the queue becomes a permutation of itself sorted
        by rank; a queue that is already sorted is left as it is. */
    method SortByPriority()
      modifies this
      ensures multiset(queue) == multiset(old(queue))
      ensures Sorted(queue)
      ensures old(Sorted(queue)) ==> queue == old(queue)
      ensures queue != [] ==> queue[0] in old(queue) && var head := queue[0]; old(LeastOf(head, queue))
      ensures lastTime == old(lastTime)
    {
      queue := ExchangeSort(queue);
    }

    /** Empty: None and nothing changes. Otherwise a task of least rank leaves the queue. */
    method Dequeue() returns (r: Option<GoTask.Task>)
      modifies this
      ensures old(queue) == [] ==> r == None && queue == []
      ensures old(queue) != [] ==> r.Some? && multiset(queue) + multiset{r.value} == multiset(old(queue))
      ensures r.Some? ==> r.value in old(queue) && old(LeastOf(r.value, queue))
      ensures old(queue) != [] && old(Sorted(queue)) ==> r == Some(old(queue)[0]) && queue == old(queue)[1..]
      ensures lastTime == old(lastTime)
    {
      if |queue| == 0 {
        return None;
      }
      SortByPriority();
      var task := queue[0];
      assert queue == [task] + queue[1..];
      queue := queue[1..];
      r := Some(task);
    }

    /** What Dequeue would hand out, without removing it; the queue is left sorted. */
    method Peek() returns (r: Option<GoTask.Task>)
      modifies this
      ensures old(queue) == [] <==> r == None
      ensures multiset(queue) == multiset(old(queue)) && Sorted(queue)
      ensures r.Some? ==> r == Some(queue[0]) && r.value in old(queue) && old(LeastOf(r.value, queue))
      ensures old(Sorted(queue)) ==> queue == old(queue)
      ensures lastTime == old(lastTime)
    {
      if |queue| == 0 {
        return None;
      }
      SortByPriority();
      r := Some(queue[0]);
    }

    function Len(): nat
      reads this
    {
      |queue|
    }

    predicate IsEmpty()
      reads this
      ensures IsEmpty() <==> Len() == 0
    {
      queue == []
    }

    /** Takes out the first task whose priority string is exactly `p`; none: nil and no change. */
    method GetByPriority(p: string, now: nat) returns (r: Option<GoTask.Task>)
      modifies this
      ensures var i := FirstWithPriority(old(queue), p);
        if i == |old(queue)| then r == None && queue == old(queue) && lastTime == old(lastTime)
        else r == Some(old(queue)[i]) && queue == RemoveAt(old(queue), i)
             && lastTime == old(lastTime)[p := now]
    {
      var i := 0;
      while i < |queue|
        invariant 0 <= i <= |queue|
        invariant forall j :: 0 <= j < i ==> queue[j].priority != p
        invariant FirstWithPriority(queue, p) >= i
      {
        if queue[i].priority == p {
          var task := queue[i];
          queue := RemoveAt(queue, i);
          lastTime := lastTime[p := now];
          return Some(task);
        }
        i := i + 1;
      }
      return None;
    }
  }

  /** The body of `sortByPriority` on the slice: the outer loop settles one
      more position per round. A sorted slice is never swapped. */
  method ExchangeSort(q0: seq<GoTask.Task>) returns (s: seq<GoTask.Task>)
    ensures multiset(s) == multiset(q0)
    ensures Sorted(s)
    ensures Sorted(q0) ==> s == q0
    ensures s != [] ==> s[0] in q0 && LeastOf(s[0], q0)
  {
    ghost var wasSorted := Sorted(q0);
    s := q0;
    var i := 0;
    while i < |s|
      invariant 0 <= i <= |s| == |q0|
      invariant multiset(s) == multiset(q0)
      invariant Settled(s, i)
      invariant wasSorted ==> s == q0
    {
      s := InnerPass(s, i);
      i := i + 1;
    }
    if s != [] {
      assert s[0] in multiset(q0);
      Least(s, q0);
    }
  }

  /** One run of the inner loop `for j := i + 1; ...`: a least-ranked task of
      the unsettled part is swapped into position `i`; the settled part is not
      touched. */
  method InnerPass(s0: seq<GoTask.Task>, i: nat) returns (s: seq<GoTask.Task>)
    requires i < |s0| && Settled(s0, i)
    ensures |s| == |s0| && multiset(s) == multiset(s0)
    ensures Settled(s, i + 1)
    ensures Sorted(s0) ==> s == s0
  {
    ghost var least := Sorted(s0);
    s := s0;
    var j := i + 1;
    while j < |s|
      invariant i < j <= |s| == |s0|
      invariant multiset(s) == multiset(s0)
      invariant Settled(s, i)
      invariant forall b :: i < b < j ==> Rank(s[i]) <= Rank(s[b])
      invariant least ==> s == s0
    {
      if Rank(s[i]) > Rank(s[j]) {
        s := Swap(s, i, j);
      }
      j := j + 1;
    }
  }

  function Swap(s: seq<GoTask.Task>, i: nat, j: nat): (r: seq<GoTask.Task>)
    requires i < j < |s|
    ensures |r| == |s| && multiset(r) == multiset(s)
    ensures r[i] == s[j] && r[j] == s[i]
    ensures forall k :: 0 <= k < |s| && k != i && k != j ==> r[k] == s[k]
  {
    s[i := s[j]][j := s[i]]
  }

  /** No task of `q` ranks below `t`. */
  predicate LeastOf(t: GoTask.Task, q: seq<GoTask.Task>)
    reads t, q
  {
    forall u :: u in q ==> Rank(t) <= Rank(u)
  }

  /** The head of a sorted permutation of `q0` has the least rank in `q0`. */
  lemma Least(q: seq<GoTask.Task>, q0: seq<GoTask.Task>)
    requires q != [] && Sorted(q) && multiset(q) == multiset(q0)
    ensures LeastOf(q[0], q0)
  {
    forall t | t in q0
      ensures Rank(q[0]) <= Rank(t)
    {
      assert t in multiset(q0);
      assert t in q;
      var k :| 0 <= k < |q| && q[k] == t;
      if k > 0 { assert Rank(q[0]) <= Rank(q[k]); }
    }
  }
}
