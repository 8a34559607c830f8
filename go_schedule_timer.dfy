// scheduler/timer_engine.go: a list of named schedule entries. The callback
// each entry carries is not kept (see the README); `Start` does nothing.
module GoScheduleTimer {
  import opened Wrappers
  import opened GoTypes

  datatype ScheduleEntry = ScheduleEntry(id: string, expr: string)

  /** The position of the first entry with ID `id`, or `|s|`. */
  function FindEntry(s: seq<ScheduleEntry>, id: string): (i: nat)
    ensures i <= |s|
    ensures i < |s| ==> s[i].id == id
    ensures forall j :: 0 <= j < i ==> s[j].id != id
  {
    if s == [] then 0 else if s[0].id == id then 0 else 1 + FindEntry(s[1..], id)
  }

  /** No two entries share an ID. */
  predicate UniqueIds(s: seq<ScheduleEntry>)
  {
    forall i, j :: 0 <= i < j < |s| ==> s[i].id != s[j].id
  }

  class TimerEngine {
    var schedule: seq<ScheduleEntry>

    constructor ()
      ensures schedule == []
    {
      schedule := [];
    }

    /** A known ID is ignored without an error; a new one is appended.
        Either way no ID is listed twice. */
    method RegisterJob(id: string, expr: string) returns (err: Option<string>)
      modifies this
      ensures err == None
      ensures FindEntry(old(schedule), id) < |old(schedule)| ==> schedule == old(schedule)
      ensures FindEntry(old(schedule), id) == |old(schedule)| ==> schedule == old(schedule) + [ScheduleEntry(id, expr)]
      ensures UniqueIds(old(schedule)) ==> UniqueIds(schedule)
      ensures FindEntry(schedule, id) < |schedule|
    {
      var i := 0;
      while i < |schedule|
        invariant 0 <= i <= |schedule|
        invariant FindEntry(schedule, id) >= i
      {
        if schedule[i].id == id {
          return None;
        }
        i := i + 1;
      }
      schedule := schedule + [ScheduleEntry(id, expr)];
      assert schedule[|schedule| - 1].id == id;
      return None;
    }

    /** The first entry with the ID goes; an unknown ID changes nothing. */
    method UnregisterJob(id: string)
      modifies this
      ensures var i := FindEntry(old(schedule), id);
        schedule == if i == |old(schedule)| then old(schedule) else RemoveAt(old(schedule), i)
      ensures UniqueIds(old(schedule)) ==> UniqueIds(schedule) && FindEntry(schedule, id) == |schedule|
    {
      var i := 0;
      while i < |schedule|
        invariant 0 <= i <= |schedule|
        invariant FindEntry(schedule, id) >= i
      {
        if schedule[i].id == id {
          ghost var s0 := schedule;
          schedule := RemoveAt(schedule, i);
          if UniqueIds(s0) {
            RemoveUnique(s0, i);
          }
          return;
        }
        i := i + 1;
      }
    }

    /** The schedule becomes nil. */
    method Stop()
      modifies this
      ensures schedule == [] && UniqueIds(schedule)
    {
      schedule := [];
    }
  }

  /** Taking an entry out of a list with unique IDs keeps them unique and leaves
      no entry with the removed ID. */
  lemma RemoveUnique(s: seq<ScheduleEntry>, i: nat)
    requires UniqueIds(s) && i < |s|
    ensures UniqueIds(RemoveAt(s, i))
    ensures FindEntry(RemoveAt(s, i), s[i].id) == |RemoveAt(s, i)|
  {
    var r := RemoveAt(s, i);
    forall a, b | 0 <= a < b < |r|
      ensures r[a].id != r[b].id
    {
      var a', b' := if a < i then a else a + 1, if b < i then b else b + 1;
      assert r[a] == s[a'] && r[b] == s[b'];
    }
  }
}
