// scheduler/auto_scheduler.go: per-priority task queues, a load record per
// agent, and the dispatch loop that hands ready tasks to the least loaded
// agent. The queues are kept as sequences of task values: the scheduler only
// appends to them and takes tasks out, and the `lastTime` stamps of its
// `TaskQueue`s are never read here. The load records are values in the map
// as well; the dispatcher is the sequence of its answers.
module GoAutoScheduler {
  import opened Wrappers
  import opened GoTypes
  import GoTask
  import GoPriorityQueue
  import GoGlobalState

  /** The queues `getNextReady` looks at, in the order it looks. */
  const Tiers: seq<string> := [GoPriorityQueue.Critical, GoPriorityQueue.High, GoPriorityQueue.Medium, GoPriorityQueue.Low]

  /** `5 * time.Second`, in ticks of one second. */
  const DefaultTick := 5

  datatype AgentLoad = AgentLoad(name: string, maxTasks: int, currentLoad: int, hierarchy: int)

  predicate HasRoom(a: AgentLoad)
  {
    a.currentLoad < a.maxTasks
  }

  /** Each record is filed under its own name, and its load is never negative
      and never above its limit unless it is zero (a non-positive limit). */
  predicate LoadsValid(loads: map<string, AgentLoad>)
  {
    forall n :: n in loads ==>
      loads[n].name == n && 0 <= loads[n].currentLoad &&
      (loads[n].currentLoad <= loads[n].maxTasks || loads[n].currentLoad == 0)
  }

  /** `float64(CurrentLoad) / float64(MaxTasks)`. */
  function Ratio(a: AgentLoad): real
    requires a.maxTasks > 0
  {
    a.currentLoad as real / a.maxTasks as real
  }

  /** The `sort.Slice` order: lower load ratio first, then the larger hierarchy number. */
  predicate Before(a: AgentLoad, b: AgentLoad)
    requires a.maxTasks > 0 && b.maxTasks > 0
  {
    Ratio(a) < Ratio(b) || (Ratio(a) == Ratio(b) && a.hierarchy > b.hierarchy)
  }

  predicate Candidate(loads: map<string, AgentLoad>, n: string)
  {
    n in loads && HasRoom(loads[n])
  }

  /** Where `findBestAgent` returns nil: the named agent is unknown or full, or,
      for an unassigned task, every agent is full. */
  predicate NoAgentFor(task: GoTask.Fields, loads: map<string, AgentLoad>)
  {
    if task.assignedTo != "" then !Candidate(loads, task.assignedTo)
    else forall n :: n in loads ==> !HasRoom(loads[n])
  }

  /** An agent `findBestAgent` may return: the named one, or else a candidate
      that no other candidate sorts before. */
  ghost predicate IsBest(task: GoTask.Fields, loads: map<string, AgentLoad>, n: string)
    requires LoadsValid(loads)
  {
    if task.assignedTo != "" then n == task.assignedTo && Candidate(loads, n)
    else Candidate(loads, n) && forall m :: Candidate(loads, m) ==> !Before(loads[m], loads[n])
  }

  /** The tasks of the global state, as `areDependenciesMet` sees them (None: no global state). */
  function KnownTasks(gs: Option<GoGlobalState.GlobalState>): Option<map<string, Task>>
    reads if gs.Some? then {gs.value} else {}
  {
    if gs.Some? then Some(gs.value.tasks) else None
  }

  /** `areDependenciesMet`: no dependencies, no global state, or every
      dependency is known there and completed. */
  predicate Ready(t: GoTask.Fields, known: Option<map<string, Task>>)
  {
    |t.dependencies| == 0 || known.None? ||
    forall k :: 0 <= k < |t.dependencies| ==>
      t.dependencies[k] in known.value && known.value[t.dependencies[k]].status == GoTask.Completed
  }

  /** The position `DequeueIf` takes a task from: the first ready one, or `|q|`. */
  function FirstReady(q: seq<GoTask.Fields>, known: Option<map<string, Task>>): (i: nat)
    ensures i <= |q|
    ensures i < |q| ==> Ready(q[i], known)
    ensures forall j :: 0 <= j < i ==> !Ready(q[j], known)
  {
    if q == [] then 0 else if Ready(q[0], known) then 0 else 1 + FirstReady(q[1..], known)
  }

  /** A queue position: the tier's place in `Tiers`, its name, and the index in its queue. */
  datatype Pick = Pick(rank: nat, tier: string, index: nat)

  /** The scan of `getNextReady` from `tiers[from]` on: the first tier whose
      queue holds a ready task, and that task's position. Every tier before it
      holds no ready task, and None means no scanned tier does. */
  function NextReady(queues: map<string, seq<GoTask.Fields>>, known: Option<map<string, Task>>,
                     tiers: seq<string>, from: nat): (r: Option<Pick>)
    requires from <= |tiers|
    ensures r.Some? ==>
      var pk := r.value;
      from <= pk.rank < |tiers| && tiers[pk.rank] == pk.tier && pk.tier in queues &&
      pk.index < |queues[pk.tier]| && pk.index == FirstReady(queues[pk.tier], known) &&
      Ready(queues[pk.tier][pk.index], known)
    ensures r.Some? ==> forall k :: from <= k < r.value.rank && tiers[k] in queues ==>
      FirstReady(queues[tiers[k]], known) == |queues[tiers[k]]|
    ensures r.None? ==> forall k :: from <= k < |tiers| && tiers[k] in queues ==>
      FirstReady(queues[tiers[k]], known) == |queues[tiers[k]]|
    decreases |tiers| - from
  {
    if from == |tiers| then None
    else
      var p := tiers[from];
      if p in queues && FirstReady(queues[p], known) < |queues[p]| then
        Some(Pick(from, p, FirstReady(queues[p], known)))
      else
        NextReady(queues, known, tiers, from + 1)
  }

  /** `requeueTask`'s switch: the lower-case task priorities go to their
      tier, anything else to Medium. */
  function RequeueTier(priority: string): (tier: string)
    ensures tier in Tiers
    ensures priority == GoTask.Critical ==> tier == GoPriorityQueue.Critical
    ensures priority == GoTask.High ==> tier == GoPriorityQueue.High
    ensures priority == GoTask.Low ==> tier == GoPriorityQueue.Low
    ensures priority !in {GoTask.Critical, GoTask.High, GoTask.Low} ==> tier == GoPriorityQueue.Medium
  {
    if priority == GoTask.Critical then GoPriorityQueue.Critical
    else if priority == GoTask.High then GoPriorityQueue.High
    else if priority == GoTask.Medium then GoPriorityQueue.Medium
    else if priority == GoTask.Low then GoPriorityQueue.Low
    else GoPriorityQueue.Medium
  }

  /** The one queued task is `t`, alone in the `tier` queue. */
  predicate Lone(queues: map<string, seq<GoTask.Fields>>, t: GoTask.Fields, tier: string)
  {
    tier in Tiers && tier in queues && queues[tier] == [t] &&
    forall k :: k in queues && k != tier ==> queues[k] == []
  }

  /** A state in which the dispatch loop can always go round once more: a lone
      ready task and an agent that `findBestAgent` would give it. */
  ghost predicate Stuck(queues: map<string, seq<GoTask.Fields>>, loads: map<string, AgentLoad>,
                  known: Option<map<string, Task>>)
  {
    exists tier, t :: LoneWithAgent(queues, loads, known, t, tier)
  }

  /** `t` is the lone queued task, in `tier`; it is ready and has an agent. */
  predicate LoneWithAgent(queues: map<string, seq<GoTask.Fields>>, loads: map<string, AgentLoad>,
                          known: Option<map<string, Task>>, t: GoTask.Fields, tier: string)
  {
    Lone(queues, t, tier) && Ready(t, known) && !NoAgentFor(t, loads)
  }

  /** Every task is assigned, to one of `names`. */
  predicate AllAssigned(ts: seq<GoTask.Fields>, names: set<string>)
  {
    forall i :: 0 <= i < |ts| ==> ts[i].assignedTo in names && ts[i].status == GoTask.Assigned
  }

  /** How one round of the dispatch loop ended. */
  datatype Attempt = NoTask | NoAgent | Refused(task: GoTask.Fields) | Sent(task: GoTask.Fields)

  /** How many of the dispatcher's answers were successes. */
  function Successes(o: seq<bool>): (n: nat)
    ensures n <= |o|
  {
    if o == [] then 0 else Successes(o[..|o| - 1]) + (if o[|o| - 1] then 1 else 0)
  }

  lemma SuccessesSnoc(o: seq<bool>, i: nat)
    requires i < |o|
    ensures Successes(o[..i + 1]) == Successes(o[..i]) + (if o[i] then 1 else 0)
  {
    assert o[..i + 1][..i] == o[..i];
  }

  ghost function PickKey(m: map<string, seq<GoTask.Fields>>): string
    requires m != map[]
  {
    var k :| k in m; k
  }

  /** The number of tasks in all queues together. */
  ghost function QueueTotal(m: map<string, seq<GoTask.Fields>>): nat
    decreases |m|
  {
    if m == map[] then 0
    else
      var k := PickKey(m);
      assert |m - {k}| < |m| by { assert (m - {k}).Keys + {k} == m.Keys; }
      |m[k]| + QueueTotal(m - {k})
  }

  /** The total can be taken apart at any queue, not only the one picked. */
  lemma {:induction false} TotalRemove(m: map<string, seq<GoTask.Fields>>, k: string)
    requires k in m
    ensures QueueTotal(m) == |m[k]| + QueueTotal(m - {k})
    decreases |m|
  {
    var p := PickKey(m);
    assert |m - {p}| < |m| by { assert (m - {p}).Keys + {p} == m.Keys; }
    if p != k {
      TotalRemove(m - {p}, k);
      TotalRemove(m - {k}, p);
      assert m - {p} - {k} == m - {k} - {p};
    }
  }

  /** Replacing one queue changes the total by the difference in length. */
  lemma TotalUpdate(m: map<string, seq<GoTask.Fields>>, k: string, s: seq<GoTask.Fields>)
    ensures k in m ==> QueueTotal(m[k := s]) == QueueTotal(m) - |m[k]| + |s|
    ensures k !in m ==> QueueTotal(m[k := s]) == QueueTotal(m) + |s|
  {
    TotalRemove(m[k := s], k);
    if k in m {
      TotalRemove(m, k);
      assert m[k := s] - {k} == m - {k};
    } else {
      assert m[k := s] - {k} == m;
    }
  }

  /** How many tasks of a queue carry the id `id`. */
  function IdCount(q: seq<GoTask.Fields>, id: string): (n: nat)
    ensures n <= |q|
  {
    if q == [] then 0 else (if q[0].id == id then 1 else 0) + IdCount(q[1..], id)
  }

  lemma {:induction false} IdCountConcat(a: seq<GoTask.Fields>, b: seq<GoTask.Fields>, id: string)
    ensures IdCount(a + b, id) == IdCount(a, id) + IdCount(b, id)
  {
    if a == [] {
      assert a + b == b;
    } else {
      assert (a + b)[0] == a[0] && (a + b)[1..] == a[1..] + b;
      IdCountConcat(a[1..], b, id);
    }
  }

  /** Taking the task at `i` out of a queue takes one copy of its id out. */
  lemma IdCountRemoveAt(q: seq<GoTask.Fields>, i: nat, id: string)
    requires i < |q|
    ensures IdCount(RemoveAt(q, i), id) + (if q[i].id == id then 1 else 0) == IdCount(q, id)
  {
    assert q == q[..i] + ([q[i]] + q[i + 1..]);
    IdCountConcat(q[..i], [q[i]] + q[i + 1..], id);
    assert ([q[i]] + q[i + 1..])[1..] == q[i + 1..];
    IdCountConcat(q[..i], q[i + 1..], id);
  }

  /** How many queued tasks, over all queues, carry the id `id`: the
      multiplicity of `id` in the multiset of queued tasks. */
  ghost function Queued(m: map<string, seq<GoTask.Fields>>, id: string): nat
    decreases |m|
  {
    if m == map[] then 0
    else
      var k := PickKey(m);
      assert |m - {k}| < |m| by { assert (m - {k}).Keys + {k} == m.Keys; }
      IdCount(m[k], id) + Queued(m - {k}, id)
  }

  /** The count can be taken apart at any queue, not only the one picked. */
  lemma {:induction false} QueuedRemove(m: map<string, seq<GoTask.Fields>>, k: string, id: string)
    requires k in m
    ensures Queued(m, id) == IdCount(m[k], id) + Queued(m - {k}, id)
    decreases |m|
  {
    var p := PickKey(m);
    assert |m - {p}| < |m| by { assert (m - {p}).Keys + {p} == m.Keys; }
    if p != k {
      QueuedRemove(m - {p}, k, id);
      QueuedRemove(m - {k}, p, id);
      assert m - {p} - {k} == m - {k} - {p};
    }
  }

  /** Replacing one existing queue swaps its copies of `id` for the new queue's. */
  lemma QueuedUpdate(m: map<string, seq<GoTask.Fields>>, k: string, s: seq<GoTask.Fields>, id: string)
    requires k in m
    ensures Queued(m[k := s], id) + IdCount(m[k], id) == Queued(m, id) + IdCount(s, id)
  {
    QueuedRemove(m[k := s], k, id);
    QueuedRemove(m, k, id);
    assert m[k := s] - {k} == m - {k};
  }

  /** Taking the task at `i` out of queue `k` takes one copy of its id out of the queued ones. */
  lemma QueuedTake(m: map<string, seq<GoTask.Fields>>, k: string, i: nat)
    requires k in m && i < |m[k]|
    ensures forall id :: Queued(m[k := RemoveAt(m[k], i)], id) + (if m[k][i].id == id then 1 else 0) == Queued(m, id)
  {
    forall id
      ensures Queued(m[k := RemoveAt(m[k], i)], id) + (if m[k][i].id == id then 1 else 0) == Queued(m, id)
    {
      QueuedUpdate(m, k, RemoveAt(m[k], i), id);
      IdCountRemoveAt(m[k], i, id);
    }
  }

  /** Appending `t` to queue `k` adds one copy of its id to the queued ones. */
  lemma QueuedAppend(m: map<string, seq<GoTask.Fields>>, k: string, t: GoTask.Fields)
    requires k in m
    ensures forall id :: Queued(m[k := m[k] + [t]], id) == Queued(m, id) + (if t.id == id then 1 else 0)
  {
    forall id
      ensures Queued(m[k := m[k] + [t]], id) == Queued(m, id) + (if t.id == id then 1 else 0)
    {
      QueuedUpdate(m, k, m[k] + [t], id);
      IdCountConcat(m[k], [t], id);
    }
  }

  /** The queues once the task at `pk` has left them. */
  function Taken(q: map<string, seq<GoTask.Fields>>, pk: Pick): map<string, seq<GoTask.Fields>>
    requires pk.tier in q && pk.index < |q[pk.tier]|
  {
    q[pk.tier := RemoveAt(q[pk.tier], pk.index)]
  }

  /** The queues once `requeueTask` has put `task` back. */
  function Requeued(q: map<string, seq<GoTask.Fields>>, task: GoTask.Fields): map<string, seq<GoTask.Fields>>
  {
    var p := RequeueTier(task.priority);
    if p in q then q[p := q[p] + [task]] else q
  }

  /** The loads once `name` has taken one more task. */
  function Charged(loads: map<string, AgentLoad>, name: string): map<string, AgentLoad>
    requires name in loads
  {
    loads[name := loads[name].(currentLoad := loads[name].currentLoad + 1)]
  }

  /** How many of `ts` are assigned to `name`. */
  function CountFor(ts: seq<GoTask.Fields>, name: string): (n: nat)
    ensures n <= |ts|
  {
    if ts == [] then 0 else CountFor(ts[..|ts| - 1], name) + (if ts[|ts| - 1].assignedTo == name then 1 else 0)
  }

  /** A task taken out of its queue and put back by `requeueTask` (possibly
      assigned meanwhile) leaves the same ids queued. */
  lemma TakeRequeue(q: map<string, seq<GoTask.Fields>>, pk: Pick, u: GoTask.Fields)
    requires pk.tier in q && pk.index < |q[pk.tier]| && RequeueTier(u.priority) in q
    requires u.id == q[pk.tier][pk.index].id
    ensures QueuedBefore(q, Requeued(Taken(q, pk), u), [])
  {
    QueuedTake(q, pk.tier, pk.index);
    QueuedAppend(Taken(q, pk), RequeueTier(u.priority), u);
  }

  /** A task taken out of its queue for good is the one task added to `out`. */
  lemma TakeOne(q: map<string, seq<GoTask.Fields>>, pk: Pick)
    requires pk.tier in q && pk.index < |q[pk.tier]|
    ensures QueuedBefore(q, Taken(q, pk), [q[pk.tier][pk.index]])
  {
    QueuedTake(q, pk.tier, pk.index);
    assert [q[pk.tier][pk.index]][1..] == [];
  }

  /** What one round of `dispatchTasks` does with the task `nt` that
      `getNextReady` took out of the queues, which were then `rest`: it has
      no agent exactly when `findBestAgent` finds none, and goes back to its
      tier; otherwise it is assigned to the agent `findBestAgent` chooses,
      and either goes back (refused) or stays out of the queues and raises
      that agent's load by one (sent). */
  ghost predicate Placed(rest: map<string, seq<GoTask.Fields>>, loads0: map<string, AgentLoad>, nt: GoTask.Fields,
                         ok: bool, q: map<string, seq<GoTask.Fields>>, loads: map<string, AgentLoad>, res: Attempt)
    requires LoadsValid(loads0)
  {
    !res.NoTask?
    && (res.NoAgent? <==> NoAgentFor(nt, loads0))
    && (res.Sent? <==> !NoAgentFor(nt, loads0) && ok)
    && (res.NoAgent? ==> q == Requeued(rest, nt) && loads == loads0)
    && ((res.Refused? || res.Sent?) ==>
          IsBest(nt, loads0, res.task.assignedTo)
          && res.task == nt.(assignedTo := res.task.assignedTo, status := GoTask.Assigned))
    && (res.Refused? ==> q == Requeued(rest, res.task) && loads == loads0)
    && (res.Sent? ==> q == rest && loads == Charged(loads0, res.task.assignedTo))
  }

  /** One round of `dispatchTasks` from the queues `q0` and loads `l0`: with
      no ready task anywhere, `getNextReady` gives nil and nothing changes;
      otherwise the task it picks is placed as `Placed` says. */
  ghost predicate Attempted(q0: map<string, seq<GoTask.Fields>>, l0: map<string, AgentLoad>,
                            known: Option<map<string, Task>>, ok: bool,
                            q: map<string, seq<GoTask.Fields>>, l: map<string, AgentLoad>, res: Attempt)
  {
    LoadsValid(l0) &&
    match NextReady(q0, known, Tiers, 0)
    case None => res.NoTask? && q == q0 && l == l0
    case Some(pk) => Placed(Taken(q0, pk), l0, q0[pk.tier][pk.index], ok, q, l, res)
  }

  /** How `dispatchTasks` stops before the dispatcher's answers run out: the
      tasks `out` were dispatched on the way from `q0`, `l0` to `q1`, `l1`, and
      the round from there found no ready task or no agent for the one it took. */
  ghost predicate Halted(q0: map<string, seq<GoTask.Fields>>, l0: map<string, AgentLoad>, out: seq<GoTask.Fields>,
                         q1: map<string, seq<GoTask.Fields>>, l1: map<string, AgentLoad>,
                         known: Option<map<string, Task>>, ok: bool,
                         q: map<string, seq<GoTask.Fields>>, l: map<string, AgentLoad>, last: Attempt)
  {
    (last.NoTask? || last.NoAgent?) && Dispatched(q0, l0, q1, l1, out) && Attempted(q1, l1, known, ok, q, l, last)
  }

  /** A round that found no ready task leaves none in the queues. */
  lemma NoTaskLeavesNone(q1: map<string, seq<GoTask.Fields>>, l1: map<string, AgentLoad>,
                         known: Option<map<string, Task>>, ok: bool,
                         q: map<string, seq<GoTask.Fields>>, l: map<string, AgentLoad>, last: Attempt)
    requires Attempted(q1, l1, known, ok, q, l, last)
    ensures last.NoTask? ==> NextReady(q, known, Tiers, 0).None?
  {
  }

  /** A round that took the task at `pk` out of `q0` loses no task and doubles
      none, and raises only the load of the agent a sent task went to. */
  lemma PlacedKeeps(q0: map<string, seq<GoTask.Fields>>, pk: Pick, loads0: map<string, AgentLoad>, ok: bool,
                    q: map<string, seq<GoTask.Fields>>, loads: map<string, AgentLoad>, res: Attempt)
    requires LoadsValid(loads0) && (forall p :: p in Tiers ==> p in q0)
    requires pk.tier in q0 && pk.index < |q0[pk.tier]|
    requires Placed(Taken(q0, pk), loads0, q0[pk.tier][pk.index], ok, q, loads, res)
    ensures QueuedBefore(q0, q, if res.Sent? then [res.task] else [])
    ensures LoadsAfter(loads, loads0, if res.Sent? then [res.task] else [])
    ensures AllAssigned(if res.Sent? then [res.task] else [], loads0.Keys)
  {
    var nt := q0[pk.tier][pk.index];
    if res.Sent? {
      TakeOne(q0, pk);
      LoadsAfterOne(loads0, res.task);
    } else if res.NoAgent? {
      TakeRequeue(q0, pk, nt);
      LoadsAfterOne(loads0, nt);
    } else {
      TakeRequeue(q0, pk, res.task);
      LoadsAfterOne(loads0, res.task);
    }
  }

  /** The tasks queued in `q` together with `out` are, id for id, those that
      were queued in `q0`: no task is lost or doubled. */
  ghost predicate QueuedBefore(q0: map<string, seq<GoTask.Fields>>, q: map<string, seq<GoTask.Fields>>,
                               out: seq<GoTask.Fields>)
  {
    forall id :: Queued(q, id) + IdCount(out, id) == Queued(q0, id)
  }

  lemma QueuedBeforeTrans(q0: map<string, seq<GoTask.Fields>>, q1: map<string, seq<GoTask.Fields>>,
                          q2: map<string, seq<GoTask.Fields>>, out1: seq<GoTask.Fields>, out2: seq<GoTask.Fields>)
    requires QueuedBefore(q0, q1, out1) && QueuedBefore(q1, q2, out2)
    ensures QueuedBefore(q0, q2, out1 + out2)
  {
    forall id
      ensures Queued(q2, id) + IdCount(out1 + out2, id) == Queued(q0, id)
    {
      IdCountConcat(out1, out2, id);
    }
  }

  /** Each agent's load is its old load plus the tasks of `ts` assigned to it. */
  predicate LoadsAfter(loads: map<string, AgentLoad>, loads0: map<string, AgentLoad>, ts: seq<GoTask.Fields>)
  {
    loads.Keys == loads0.Keys &&
    forall n :: n in loads ==> loads[n] == loads0[n].(currentLoad := loads0[n].currentLoad + CountFor(ts, n))
  }

  lemma {:induction false} CountForConcat(a: seq<GoTask.Fields>, b: seq<GoTask.Fields>, n: string)
    ensures CountFor(a + b, n) == CountFor(a, n) + CountFor(b, n)
    decreases |b|
  {
    if b == [] {
      assert a + b == a;
    } else {
      assert (a + b)[..|a + b| - 1] == a + b[..|b| - 1];
      CountForConcat(a, b[..|b| - 1], n);
    }
  }

  lemma LoadsAfterTrans(l0: map<string, AgentLoad>, l1: map<string, AgentLoad>, l2: map<string, AgentLoad>,
                        ts1: seq<GoTask.Fields>, ts2: seq<GoTask.Fields>)
    requires LoadsAfter(l1, l0, ts1) && LoadsAfter(l2, l1, ts2)
    ensures LoadsAfter(l2, l0, ts1 + ts2)
  {
    forall n | n in l2
      ensures l2[n] == l0[n].(currentLoad := l0[n].currentLoad + CountFor(ts1 + ts2, n))
    {
      CountForConcat(ts1, ts2, n);
    }
  }

  /** No task dispatched: no load changes; one task: its agent's load grows by one. */
  lemma LoadsAfterOne(loads0: map<string, AgentLoad>, t: GoTask.Fields)
    ensures LoadsAfter(loads0, loads0, [])
    ensures t.assignedTo in loads0 ==> LoadsAfter(Charged(loads0, t.assignedTo), loads0, [t])
  {
    assert [t][..0] == [];
  }

  /** From the queues `q0` and loads `l0` to `q` and `l`, the tasks `out`
      were dispatched: they and the tasks still queued are those queued before,
      each is assigned to a registered agent, and each agent's load grew by the
      tasks sent to it. */
  ghost predicate Dispatched(q0: map<string, seq<GoTask.Fields>>, l0: map<string, AgentLoad>,
                             q: map<string, seq<GoTask.Fields>>, l: map<string, AgentLoad>, out: seq<GoTask.Fields>)
  {
    QueueTotal(q) + |out| == QueueTotal(q0) && QueuedBefore(q0, q, out)
    && AllAssigned(out, l0.Keys) && LoadsAfter(l, l0, out)
  }

  lemma DispatchedTrans(q0: map<string, seq<GoTask.Fields>>, l0: map<string, AgentLoad>,
                        q1: map<string, seq<GoTask.Fields>>, l1: map<string, AgentLoad>,
                        q2: map<string, seq<GoTask.Fields>>, l2: map<string, AgentLoad>,
                        out1: seq<GoTask.Fields>, out2: seq<GoTask.Fields>)
    requires Dispatched(q0, l0, q1, l1, out1) && Dispatched(q1, l1, q2, l2, out2)
    ensures Dispatched(q0, l0, q2, l2, out1 + out2)
  {
    QueuedBeforeTrans(q0, q1, q2, out1, out2);
    LoadsAfterTrans(l0, l1, l2, out1, out2);
  }

  /** `task` as the `*types.Task` the global state stores (the Go code passes
      the `*ds.Task` itself; see the README). */
  function ToTypesTask(f: GoTask.Fields): Task
  {
    Task(f.id, f.title, f.description, f.assignedTo, f.assignedBy, f.status,
         f.dependencies, f.deliverables, f.deadline, f.createdAt, f.updatedAt, f.metadata)
  }

  class AutoScheduler {
    var taskQueues: map<string, seq<GoTask.Fields>>
    var agentLoads: map<string, AgentLoad>
    var globalState: Option<GoGlobalState.GlobalState>
    var tickInterval: nat

    /** The four tiers always have a queue, and the load records are sound. */
    predicate Valid()
      reads this
    {
      (forall p :: p in Tiers ==> p in taskQueues) && LoadsValid(agentLoads)
    }

    /** `NewAutoScheduler`: a non-positive interval becomes five seconds, and
        the four tiers start with empty queues. */
    constructor (globalState: Option<GoGlobalState.GlobalState>, tickInterval: int)
      ensures taskQueues == map[GoPriorityQueue.Critical := [], GoPriorityQueue.High := [],
                                GoPriorityQueue.Medium := [], GoPriorityQueue.Low := []]
      ensures agentLoads == map[] && this.globalState == globalState
      ensures this.tickInterval == if tickInterval <= 0 then DefaultTick else tickInterval
      ensures Valid() && QueueTotal(taskQueues) == 0
    {
      taskQueues := map[GoPriorityQueue.Critical := [], GoPriorityQueue.High := [],
                        GoPriorityQueue.Medium := [], GoPriorityQueue.Low := []];
      agentLoads := map[];
      this.globalState := globalState;
      this.tickInterval := if tickInterval <= 0 then DefaultTick else tickInterval;
      new;
      EmptyTotal(taskQueues);
    }

    /** Appends to the named queue, creating it when it is missing, and
        registers the task in the global state when there is one. */
    method AddTask(task: GoTask.Fields, priority: string)
      modifies this, if globalState.Some? then {globalState.value} else {}
      ensures taskQueues == old(taskQueues)[priority :=
        (if priority in old(taskQueues) then old(taskQueues)[priority] else []) + [task]]
      ensures QueueTotal(taskQueues) == old(QueueTotal(taskQueues)) + 1
      ensures agentLoads == old(agentLoads) && globalState == old(globalState) && tickInterval == old(tickInterval)
      ensures globalState.Some? ==> globalState.value.Snapshot() == old(globalState.value.Snapshot()).(
        tasks := old(globalState.value.tasks)[task.id := ToTypesTask(task)], version := old(globalState.value.version) + 1)
      ensures old(Valid()) ==> Valid()
    {
      var q := if priority in taskQueues then taskQueues[priority] else [];
      TotalUpdate(taskQueues, priority, q + [task]);
      taskQueues := taskQueues[priority := q + [task]];
      if globalState.Some? {
        globalState.value.AddTask(ToTypesTask(task));
      }
    }

    /** A fresh record with no load; an earlier record under the name is replaced. */
    method AddAgent(agentName: string, maxTasks: int, hierarchy: int)
      modifies this
      ensures agentLoads == old(agentLoads)[agentName := AgentLoad(agentName, maxTasks, 0, hierarchy)]
      ensures taskQueues == old(taskQueues) && globalState == old(globalState) && tickInterval == old(tickInterval)
      ensures old(Valid()) ==> Valid()
    {
      agentLoads := agentLoads[agentName := AgentLoad(agentName, maxTasks, 0, hierarchy)];
    }

    /** A known agent with some load loses one; otherwise nothing changes. */
    method OnTaskComplete(taskId: string, agentName: string, success: bool)
      modifies this
      ensures agentLoads == if agentName in old(agentLoads) && old(agentLoads)[agentName].currentLoad > 0
                            then old(agentLoads)[agentName := old(agentLoads)[agentName].(
                              currentLoad := old(agentLoads)[agentName].currentLoad - 1)]
                            else old(agentLoads)
      ensures taskQueues == old(taskQueues) && globalState == old(globalState) && tickInterval == old(tickInterval)
      ensures old(Valid()) ==> Valid()
    {
      if agentName in agentLoads && agentLoads[agentName].currentLoad > 0 {
        agentLoads := agentLoads[agentName := agentLoads[agentName].(currentLoad := agentLoads[agentName].currentLoad - 1)];
      }
    }

    /** The sum of the queue lengths, over the map in whatever order it is visited. */
    method GetQueueLength() returns (total: nat)
      ensures total == QueueTotal(taskQueues)
    {
      total := 0;
      var m := taskQueues;
      while m != map[]
        invariant total + QueueTotal(m) == QueueTotal(taskQueues)
        decreases |m|
      {
        var k :| k in m;
        TotalRemove(m, k);
        total := total + |m[k]|;
        assert |m - {k}| < |m| by { assert (m - {k}).Keys + {k} == m.Keys; }
        m := m - {k};
      }
    }

    function GetQueueLengthByPriority(priority: string): (n: nat)
      reads this
      ensures priority !in taskQueues ==> n == 0
      ensures priority in taskQueues ==> n == |taskQueues[priority]|
      ensures n <= QueueTotal(taskQueues)
    {
      if priority in taskQueues then
        TotalRemove(taskQueues, priority);
        |taskQueues[priority]|
      else 0
    }

    /** The dependency loop, against the global state's current tasks. */
    method AreDependenciesMet(task: GoTask.Fields) returns (b: bool)
      ensures b == Ready(task, KnownTasks(globalState))
    {
      if |task.dependencies| == 0 || globalState.None? {
        return true;
      }
      var gs := globalState.value;
      var i := 0;
      while i < |task.dependencies|
        invariant 0 <= i <= |task.dependencies|
        invariant forall k :: 0 <= k < i ==>
          task.dependencies[k] in gs.tasks && gs.tasks[task.dependencies[k]].status == GoTask.Completed
      {
        var dep := gs.GetTask(task.dependencies[i]);
        if dep.None? || dep.value.status != GoTask.Completed {
          return false;
        }
        i := i + 1;
      }
      return true;
    }

    /** The `DequeueIf` that `getNextReady` calls (the Go `TaskQueue` has no such
        method): the first ready task in queue order leaves the queue. `known`
        is the global state's task map, which nothing here changes. */
    method DequeueIf(p: string, ghost known: Option<map<string, Task>>) returns (r: Option<GoTask.Fields>)
      requires p in taskQueues && known == KnownTasks(globalState)
      modifies this
      ensures var q, i := old(taskQueues)[p], FirstReady(old(taskQueues)[p], known);
        if i == |q| then r == None && taskQueues == old(taskQueues)
        else r == Some(q[i]) && taskQueues == old(taskQueues)[p := RemoveAt(q, i)]
      ensures agentLoads == old(agentLoads) && globalState == old(globalState) && tickInterval == old(tickInterval)
    {
      var q := taskQueues[p];
      var i := FindReady(q, known);
      if i < |q| {
        taskQueues := taskQueues[p := RemoveAt(q, i)];
        return Some(q[i]);
      }
      return None;
    }

    /** The predicate `DequeueIf` is given, tried on each task in turn. */
    method FindReady(q: seq<GoTask.Fields>, ghost known: Option<map<string, Task>>) returns (i: nat)
      requires known == KnownTasks(globalState)
      ensures i == FirstReady(q, known)
    {
      i := 0;
      while i < |q|
        invariant 0 <= i <= |q|
        invariant FirstReady(q, known) >= i
      {
        var ok := AreDependenciesMet(q[i]);
        if ok {
          return;
        }
        i := i + 1;
      }
    }

    /** Critical, High, Medium, Low: the first ready task of the first tier
        that has one leaves its queue, so one task fewer is queued. A lone
        ready task is the one taken, and every queue is then empty. */
    method GetNextReady(ghost known: Option<map<string, Task>>, ghost t: GoTask.Fields, ghost tier: string)
      returns (r: Option<GoTask.Fields>)
      requires known == KnownTasks(globalState)
      modifies this
      ensures match NextReady(old(taskQueues), known, Tiers, 0)
        case None => r == None && taskQueues == old(taskQueues)
        case Some(pk) => (r == Some(old(taskQueues)[pk.tier][pk.index]) &&
          taskQueues == old(taskQueues)[pk.tier := RemoveAt(old(taskQueues)[pk.tier], pk.index)])
      ensures taskQueues.Keys == old(taskQueues).Keys
      ensures r.Some? ==> QueueTotal(taskQueues) + 1 == old(QueueTotal(taskQueues))
      ensures old(Lone(taskQueues, t, tier)) && Ready(t, known) ==> r == Some(t) && AllEmpty(taskQueues)
      ensures agentLoads == old(agentLoads) && globalState == old(globalState) && tickInterval == old(tickInterval)
    {
      ghost var q0 := taskQueues;
      ghost var lone := Lone(taskQueues, t, tier) && Ready(t, known);
      if lone {
        LoneIsNext(taskQueues, t, tier, known);
      }
      r := ScanTiers(known);
      if r.Some? {
        var pk := NextReady(q0, known, Tiers, 0).value;
        TotalUpdate(q0, pk.tier, RemoveAt(q0[pk.tier], pk.index));
        if lone {
          assert RemoveAt(q0[tier], 0) == [];
        }
      }
    }

    /** The loop of `getNextReady` over the four tiers. */
    method ScanTiers(ghost known: Option<map<string, Task>>) returns (r: Option<GoTask.Fields>)
      requires known == KnownTasks(globalState)
      modifies this
      ensures match NextReady(old(taskQueues), known, Tiers, 0)
        case None => r == None && taskQueues == old(taskQueues)
        case Some(pk) => (r == Some(old(taskQueues)[pk.tier][pk.index]) &&
          taskQueues == old(taskQueues)[pk.tier := RemoveAt(old(taskQueues)[pk.tier], pk.index)])
      ensures agentLoads == old(agentLoads) && globalState == old(globalState) && tickInterval == old(tickInterval)
    {
      var k := 0;
      while k < |Tiers|
        invariant 0 <= k <= |Tiers|
        invariant taskQueues == old(taskQueues) && agentLoads == old(agentLoads)
        invariant globalState == old(globalState) && tickInterval == old(tickInterval)
        invariant NextReady(taskQueues, known, Tiers, 0) == NextReady(taskQueues, known, Tiers, k)
      {
        var p := Tiers[k];
        if p in taskQueues && |taskQueues[p]| > 0 {
          r := DequeueIf(p, known);
          if r.Some? {
            return;
          }
        }
        k := k + 1;
      }
      r := None;
    }

    /** The assigned agent if it has room (nil if it has none), otherwise an
        agent with room that no other one sorts before. */
    method FindBestAgent(task: GoTask.Fields) returns (r: Option<string>)
      requires Valid()
      ensures r.None? <==> NoAgentFor(task, agentLoads)
      ensures r.Some? ==> IsBest(task, agentLoads, r.value)
    {
      if task.assignedTo != "" {
        if task.assignedTo in agentLoads && HasRoom(agentLoads[task.assignedTo]) {
          return Some(task.assignedTo);
        }
        return None;
      }
      var best: Option<string> := None;
      var rest := agentLoads.Keys;
      ghost var seen: set<string> := {};
      while rest != {}
        invariant rest + seen == agentLoads.Keys && rest !! seen
        invariant best.None? ==> forall m :: m in seen ==> !HasRoom(agentLoads[m])
        invariant best.Some? ==> best.value in seen && Candidate(agentLoads, best.value)
        invariant best.Some? ==> forall m :: m in seen && Candidate(agentLoads, m) ==>
          !Before(agentLoads[m], agentLoads[best.value])
        decreases rest
      {
        var n :| n in rest;
        var a := agentLoads[n];
        if HasRoom(a) && (best.None? || Before(a, agentLoads[best.value])) {
          best := Some(n);
        }
        rest := rest - {n};
        seen := seen + {n};
      }
      return best;
    }

    /** Back to the tier of the task's own priority, when that tier has a queue. */
    method RequeueTask(task: GoTask.Fields)
      modifies this
      ensures var p := RequeueTier(task.priority);
        taskQueues == if p in old(taskQueues) then old(taskQueues)[p := old(taskQueues)[p] + [task]] else old(taskQueues)
      ensures taskQueues.Keys == old(taskQueues).Keys
      ensures RequeueTier(task.priority) in old(taskQueues) ==> QueueTotal(taskQueues) == old(QueueTotal(taskQueues)) + 1
      ensures old(AllEmpty(taskQueues)) && RequeueTier(task.priority) in old(taskQueues) ==>
        Lone(taskQueues, task, RequeueTier(task.priority))
      ensures agentLoads == old(agentLoads) && globalState == old(globalState) && tickInterval == old(tickInterval)
    {
      var p := RequeueTier(task.priority);
      if p in taskQueues {
        TotalUpdate(taskQueues, p, taskQueues[p] + [task]);
        taskQueues := taskQueues[p := taskQueues[p] + [task]];
      }
    }

    /** `dispatchTasks`, with the dispatcher's answers given in order; the loop
        also ends when they run out. What is dispatched left the queues and
        raised its agent's load; what the dispatcher refused is back in a
        queue, so no task is lost or doubled. With a lone ready task that has
        an agent and a dispatcher that keeps failing, only the end of the
        answers stops the loop: the Go loop never returns. */
    method DispatchTasks(outcomes: seq<bool>)
      returns (dispatched: seq<GoTask.Fields>, used: nat, ghost last: Attempt,
               ghost lastQueues: map<string, seq<GoTask.Fields>>, ghost lastLoads: map<string, AgentLoad>)
      requires Valid()
      modifies this
      ensures Valid() && used <= |outcomes|
      ensures used < |outcomes| ==>
        Halted(old(taskQueues), old(agentLoads), dispatched, lastQueues, lastLoads,
               KnownTasks(globalState), outcomes[used], taskQueues, agentLoads, last)
      ensures used < |outcomes| && last.NoTask? ==> NextReady(taskQueues, KnownTasks(globalState), Tiers, 0).None?
      ensures |dispatched| == Successes(outcomes[..used])
      ensures Dispatched(old(taskQueues), old(agentLoads), taskQueues, agentLoads, dispatched)
      ensures agentLoads.Keys == old(agentLoads).Keys
      ensures globalState == old(globalState) && tickInterval == old(tickInterval)
      ensures (forall k :: 0 <= k < |outcomes| ==> !outcomes[k]) &&
              old(Stuck(taskQueues, agentLoads, KnownTasks(globalState))) ==>
              used == |outcomes| && dispatched == []
    {
      ghost var known := KnownTasks(globalState);
      ghost var stuck := (forall k :: 0 <= k < |outcomes| ==> !outcomes[k]) && Stuck(taskQueues, agentLoads, known);
      ghost var tier := "";
      ghost var t := GoTask.Fields("", "", "", "", "", "", "", [], [], None, 0, 0, map[]);
      if stuck {
        tier, t :| LoneWithAgent(taskQueues, agentLoads, known, t, tier);
      }
      dispatched, used := [], 0;
      last, lastQueues, lastLoads := NoTask, taskQueues, agentLoads;
      while used < |outcomes|
        invariant Valid() && used <= |outcomes|
        invariant known == KnownTasks(globalState)
        invariant globalState == old(globalState) && tickInterval == old(tickInterval)
        invariant agentLoads.Keys == old(agentLoads).Keys
        invariant |dispatched| == Successes(outcomes[..used])
        invariant Dispatched(old(taskQueues), old(agentLoads), taskQueues, agentLoads, dispatched)
        invariant stuck ==> dispatched == [] && LoneWithAgent(taskQueues, agentLoads, known, t, tier)
        decreases |outcomes| - used
      {
        lastQueues, lastLoads := taskQueues, agentLoads;
        var res;
        res, dispatched, t, tier := Round(outcomes[used], dispatched, old(taskQueues), old(agentLoads), t, tier, stuck);
        last := res;
        if res.NoTask? || res.NoAgent? {
          break;
        }
        SuccessesSnoc(outcomes, used);
        used := used + 1;
      }
    }

    /** The body of the `dispatchTasks` loop, against the queues `q0` and
        loads `l0` the loop started from: the round's sent task joins
        `dispatched`. */
    method Round(ok: bool, dispatched: seq<GoTask.Fields>, ghost q0: map<string, seq<GoTask.Fields>>,
                 ghost l0: map<string, AgentLoad>, ghost t: GoTask.Fields, ghost tier: string, ghost stuck: bool)
      returns (res: Attempt, ds: seq<GoTask.Fields>, ghost t': GoTask.Fields, ghost tier': string)
      requires Valid() && Dispatched(q0, l0, taskQueues, agentLoads, dispatched)
      requires stuck ==> !ok && dispatched == [] && LoneWithAgent(taskQueues, agentLoads, KnownTasks(globalState), t, tier)
      modifies this
      ensures Valid() && agentLoads.Keys == old(agentLoads).Keys
      ensures globalState == old(globalState) && tickInterval == old(tickInterval)
      ensures Dispatched(q0, l0, taskQueues, agentLoads, ds)
      ensures (res.NoTask? || res.NoAgent?) ==>
        Halted(q0, l0, ds, old(taskQueues), old(agentLoads), KnownTasks(globalState), ok, taskQueues, agentLoads, res)
      ensures res.NoTask? ==> NextReady(taskQueues, KnownTasks(globalState), Tiers, 0).None?
      ensures ds == if res.Sent? then dispatched + [res.task] else dispatched
      ensures (res.Sent? ==> ok) && (res.Refused? ==> !ok)
      ensures stuck ==> res.Refused? && ds == [] && LoneWithAgent(taskQueues, agentLoads, KnownTasks(globalState), t', tier')
    {
      ghost var q1, l1 := taskQueues, agentLoads;
      res := DispatchOne(ok, t, tier);
      t', tier' := t, tier;
      if stuck {
        t', tier' := res.task, RequeueTier(t.priority);
      }
      NoTaskLeavesNone(q1, l1, KnownTasks(globalState), ok, taskQueues, agentLoads, res);
      if res.Sent? {
        DispatchedTrans(q0, l0, q1, l1, taskQueues, agentLoads, dispatched, [res.task]);
        ds := dispatched + [res.task];
      } else {
        DispatchedTrans(q0, l0, q1, l1, taskQueues, agentLoads, dispatched, []);
        assert dispatched + [] == dispatched;
        ds := dispatched;
      }
    }

    /** One round of the `dispatchTasks` loop, with the dispatcher's answer `ok`
        (used only when a task and an agent were found). Nothing ready: nothing
        changes. Otherwise the task `getNextReady` picks is placed as
        `Placed` says. */
    method DispatchOne(ok: bool, ghost t: GoTask.Fields, ghost tier: string) returns (res: Attempt)
      requires Valid()
      modifies this
      ensures Valid() && agentLoads.Keys == old(agentLoads).Keys
      ensures globalState == old(globalState) && tickInterval == old(tickInterval)
      ensures res.NoTask? <==> NextReady(old(taskQueues), KnownTasks(globalState), Tiers, 0).None?
      ensures res.NoTask? ==> taskQueues == old(taskQueues) && agentLoads == old(agentLoads)
      ensures NextReady(old(taskQueues), KnownTasks(globalState), Tiers, 0).Some? ==>
        var pk := NextReady(old(taskQueues), KnownTasks(globalState), Tiers, 0).value;
        Placed(Taken(old(taskQueues), pk), old(agentLoads), old(taskQueues)[pk.tier][pk.index], ok, taskQueues, agentLoads, res)
      ensures Dispatched(old(taskQueues), old(agentLoads), taskQueues, agentLoads, if res.Sent? then [res.task] else [])
      ensures res.Sent? ==> ok && res.task.assignedTo in agentLoads && res.task.status == GoTask.Assigned
      ensures res.Refused? ==> !ok && agentLoads == old(agentLoads) && res.task.status == GoTask.Assigned
      ensures old(LoneWithAgent(taskQueues, agentLoads, KnownTasks(globalState), t, tier)) && !ok ==>
        res.Refused? && LoneWithAgent(taskQueues, agentLoads, KnownTasks(globalState), res.task, RequeueTier(t.priority))
    {
      ghost var known := KnownTasks(globalState);
      ghost var q0, loads0 := taskQueues, agentLoads;
      var next := GetNextReady(known, t, tier);
      if next.None? {
        LoadsAfterOne(agentLoads, t);
        return NoTask;
      }
      ghost var pk := NextReady(q0, known, Tiers, 0).value;
      res := Place(next.value, ok, known);
      PlacedKeeps(q0, pk, loads0, ok, taskQueues, agentLoads, res);
    }

    /** The rest of the round for the task `getNextReady` took: `findBestAgent`,
        then `requeueTask` or the dispatcher and the agent's load. */
    method Place(task: GoTask.Fields, ok: bool, ghost known: Option<map<string, Task>>) returns (res: Attempt)
      requires Valid()
      modifies this
      ensures Valid() && agentLoads.Keys == old(agentLoads).Keys
      ensures globalState == old(globalState) && tickInterval == old(tickInterval)
      ensures Placed(old(taskQueues), old(agentLoads), task, ok, taskQueues, agentLoads, res)
      ensures QueueTotal(taskQueues) == old(QueueTotal(taskQueues)) + (if res.Sent? then 0 else 1)
      ensures res.Sent? ==> ok && res.task.assignedTo in agentLoads && res.task.status == GoTask.Assigned
      ensures res.Refused? ==> !ok && agentLoads == old(agentLoads) && res.task.status == GoTask.Assigned
      ensures old(AllEmpty(taskQueues)) && !NoAgentFor(task, old(agentLoads)) && !ok ==>
        res.Refused? && Lone(taskQueues, res.task, RequeueTier(task.priority))
        && Ready(res.task, known) == Ready(task, known) && !NoAgentFor(res.task, agentLoads)
    {
      var agent := FindBestAgent(task);
      if agent.None? {
        RequeueTask(task);
        return NoAgent;
      }
      var given := task.(assignedTo := agent.value, status := GoTask.Assigned);
      if !ok {
        AssignedKeepsAgent(task, agentLoads, agent.value, known);
        RequeueTask(given);
        return Refused(given);
      }
      Charge(agent.value);
      return Sent(given);
    }

    /** `agent.CurrentLoad++` for an agent with room: it stays within its limit. */
    method Charge(name: string)
      requires Valid() && Candidate(agentLoads, name)
      modifies this
      ensures agentLoads == old(agentLoads)[name := old(agentLoads)[name].(currentLoad := old(agentLoads)[name].currentLoad + 1)]
      ensures Valid() && agentLoads.Keys == old(agentLoads).Keys
      ensures taskQueues == old(taskQueues) && globalState == old(globalState) && tickInterval == old(tickInterval)
    {
      var a := agentLoads[name];
      agentLoads := agentLoads[name := a.(currentLoad := a.currentLoad + 1)];
    }
  }

  /** Every queue is empty. */
  predicate AllEmpty(m: map<string, seq<GoTask.Fields>>)
  {
    forall k :: k in m ==> m[k] == []
  }

  /** Assigning a task to the agent `findBestAgent` picked leaves it ready,
      and that agent is then the one it names and has room. */
  lemma AssignedKeepsAgent(t: GoTask.Fields, loads: map<string, AgentLoad>, a: string,
                           known: Option<map<string, Task>>)
    requires LoadsValid(loads) && IsBest(t, loads, a)
    ensures var u := t.(assignedTo := a, status := GoTask.Assigned);
      Ready(u, known) == Ready(t, known) && !NoAgentFor(u, loads)
  {
  }

  /** With a lone ready task, the scan finds it. */
  lemma LoneIsNext(queues: map<string, seq<GoTask.Fields>>, t: GoTask.Fields, tier: string,
                   known: Option<map<string, Task>>)
    requires Lone(queues, t, tier) && Ready(t, known)
    ensures var r := NextReady(queues, known, Tiers, 0);
      r.Some? && r.value.tier == tier && r.value.index == 0
  {
    var k := IndexOf(Tiers, tier);
    assert Tiers[k] == tier && FirstReady(queues[tier], known) == 0;
  }

  lemma EmptyTotal(m: map<string, seq<GoTask.Fields>>)
    requires forall k :: k in m ==> m[k] == []
    ensures QueueTotal(m) == 0
    decreases |m|
  {
    if m != map[] {
      var k := PickKey(m);
      assert |m - {k}| < |m| by { assert (m - {k}).Keys + {k} == m.Keys; }
      EmptyTotal(m - {k});
    }
  }
}
