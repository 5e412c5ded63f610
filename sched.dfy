/**
 * The event queue of Python's sched.scheduler, as far as the engine uses it: entries ordered by
 * deadline, priority and entry number; enter, cancel, empty, and taking the next due entry.
 */
module Sched {
  import opened Wrappers

  /** What an entry runs when it is due; the engine only ever enters its check. */
  datatype Action = PerformCheck

  /** sched.Event: the deadline, the priority, the entry's sequence number and its action. */
  datatype Event = Event(time: int, priority: int, sequence: nat, action: Action)

  /** The heap order of events: by deadline, then priority, then sequence number. */
  predicate AtMost(a: Event, b: Event)
  {
    a.time < b.time || (a.time == b.time && (a.priority < b.priority || (a.priority == b.priority && a.sequence <= b.sequence)))
  }

  predicate Sorted(q: seq<Event>)
  {
    forall i, j {:trigger AtMost(q[i], q[j])} :: 0 <= i < j < |q| ==> AtMost(q[i], q[j])
  }

  /** The heap order is total and transitive. */
  lemma AtMostOrder(a: Event, b: Event, c: Event)
    ensures AtMost(a, b) || AtMost(b, a)
    ensures AtMost(a, b) && AtMost(b, c) ==> AtMost(a, c)
  {
  }

  /** The pending entries after heappush: e placed behind every entry that does not come after it. */
  function Insert(q: seq<Event>, e: Event): (r: seq<Event>)
    ensures |r| == |q| + 1 && e in r
  {
    if q == [] || !AtMost(q[0], e) then [e] + q
    else [q[0]] + Insert(q[1..], e)
  }

  /** Inserting adds exactly the new entry. */
  lemma {:induction false} InsertPermutes(q: seq<Event>, e: Event)
    ensures multiset(Insert(q, e)) == multiset(q) + multiset{e}
  {
    if q != [] && AtMost(q[0], e) {
      InsertPermutes(q[1..], e);
      assert q == [q[0]] + q[1..];
    }
  }

  /** Inserting keeps the queue in heap order. */
  lemma {:induction false} InsertSorted(q: seq<Event>, e: Event)
    requires Sorted(q)
    ensures Sorted(Insert(q, e))
  {
    var r := Insert(q, e);
    if q == [] {
    } else if !AtMost(q[0], e) {
      AtMostOrder(q[0], e, q[0]);
      forall j | 0 < j < |r| ensures AtMost(e, r[j]) {
        AtMostOrder(e, q[0], r[j]);
        assert r[j] == q[j - 1];
      }
      assert forall i, j :: 0 < i < j < |r| ==> r[i] == q[i - 1] && r[j] == q[j - 1];
    } else {
      var rest := Insert(q[1..], e);
      InsertSorted(q[1..], e);
      InsertPermutes(q[1..], e);
      assert r == [q[0]] + rest;
      forall j | 0 <= j < |rest| ensures AtMost(q[0], rest[j]) {
        assert rest[j] in multiset(rest);
        assert rest[j] in q[1..] || rest[j] == e;
      }
      SortedCons(q[0], rest);
    }
  }

  /** The pending entries after cancel(e): its first occurrence removed. */
  function Remove(q: seq<Event>, e: Event): (r: seq<Event>)
    ensures multiset(r) == multiset(q) - multiset{e}
    ensures e !in q ==> r == q
  {
    if q == [] then []
    else if q[0] == e then
      assert q == [q[0]] + q[1..];
      q[1..]
    else
      assert q == [q[0]] + q[1..];
      [q[0]] + Remove(q[1..], e)
  }

  /** Removing keeps the queue in heap order. */
  lemma {:induction false} RemoveSorted(q: seq<Event>, e: Event)
    requires Sorted(q)
    ensures Sorted(Remove(q, e))
  {
    if q != [] && q[0] != e {
      var rest := Remove(q[1..], e);
      RemoveSorted(q[1..], e);
      SortedHeadBelowTail(q);
      assert Remove(q, e) == [q[0]] + rest;
      forall j | 0 <= j < |rest| ensures AtMost(q[0], rest[j]) {
        assert rest[j] in multiset(rest);
        assert rest[j] in multiset(q[1..]);
      }
      SortedCons(q[0], rest);
    }
  }

  /** An entry no later than every entry of a sorted queue can be put in front of it. */
  lemma SortedCons(h: Event, rest: seq<Event>)
    requires Sorted(rest)
    requires forall j :: 0 <= j < |rest| ==> AtMost(h, rest[j])
    ensures Sorted([h] + rest)
  {
    var r := [h] + rest;
    forall i, j | 0 <= i < j < |r| ensures AtMost(r[i], r[j]) {
      assert r[j] == rest[j - 1];
      if i > 0 {
        assert r[i] == rest[i - 1];
      }
    }
  }

  /** In a sorted queue the head comes no later than any entry of the tail. */
  lemma SortedHeadBelowTail(q: seq<Event>)
    requires Sorted(q) && q != []
    ensures forall x :: x in multiset(q[1..]) ==> AtMost(q[0], x)
  {
    forall x | x in multiset(q[1..]) ensures AtMost(q[0], x) {
      var k :| 0 <= k < |q[1..]| && q[1..][k] == x;
      assert q[k + 1] == x;
    }
  }

  /** The first entry of a sorted queue is one with the earliest deadline. */
  lemma SortedHeadEarliest(q: seq<Event>, k: nat)
    requires Sorted(q) && k < |q|
    ensures q[0].time <= q[k].time
  {
    if k > 0 {
      assert AtMost(q[0], q[k]);
    }
  }

  /** Cancelling the first entry leaves the others, in order. */
  lemma RemoveHead(q: seq<Event>)
    requires q != []
    ensures Remove(q, q[0]) == q[1..]
  {
  }

  /** The reasons sched.scheduler raises. */
  datatype SchedError = NotPending   // ValueError from list.remove: the entry is not in the queue

  class Scheduler {
    /** The pending entries, in the order the scheduler will run them (the queue property). */
    var queue: seq<Event>
    /** The sequence number the next entry gets. */
    var nextSequence: nat

    ghost predicate Valid()
      reads this
    {
      Sorted(queue) && forall i :: 0 <= i < |queue| ==> queue[i].sequence < nextSequence
    }

    constructor ()
      ensures Valid() && queue == [] && nextSequence == 0
    {
      queue := [];
      nextSequence := 0;
    }

    /** enter(delay, priority, action), with now the clock reading at the call. */
    method Enter(delay: int, priority: int, action: Action, now: int) returns (e: Event)
      requires Valid()
      modifies this
      ensures Valid()
      ensures e == Event(now + delay, priority, old(nextSequence), action)
      ensures queue == Insert(old(queue), e) && nextSequence == old(nextSequence) + 1
    {
      e := Event(now + delay, priority, nextSequence, action);
      InsertSorted(queue, e);
      InsertPermutes(queue, e);
      queue := Insert(queue, e);
      nextSequence := nextSequence + 1;
      forall i | 0 <= i < |queue| ensures queue[i].sequence < nextSequence {
        assert queue[i] in multiset(queue);
        assert queue[i] in old(queue) || queue[i] == e;
      }
    }

    /** cancel(event): the entry leaves the queue; not pending is a ValueError. */
    method Cancel(e: Event) returns (r: Outcome<SchedError>)
      requires Valid()
      modifies this
      ensures Valid()
      ensures r.Pass? <==> e in old(queue)
      ensures queue == Remove(old(queue), e) && nextSequence == old(nextSequence)
    {
      if e in queue {
        RemoveSorted(queue, e);
        queue := Remove(queue, e);
        forall i | 0 <= i < |queue| ensures queue[i].sequence < nextSequence {
          assert queue[i] in multiset(queue);
          assert queue[i] in old(queue);
        }
        r := Pass;
      } else {
        r := Fail(NotPending);
      }
    }

    /** empty() */
    function Empty(): (b: bool)
      reads this
      ensures b <==> |queue| == 0
    {
      queue == []
    }

    /** The step of run() that takes the earliest entry off the queue when its deadline has come. */
    method PopDue(now: int) returns (e: Option<Event>)
      requires Valid()
      modifies this
      ensures Valid() && nextSequence == old(nextSequence)
      ensures old(queue) != [] && old(queue)[0].time <= now ==> e == Some(old(queue)[0]) && queue == old(queue)[1..]
      ensures !(old(queue) != [] && old(queue)[0].time <= now) ==> e == None && queue == old(queue)
    {
      if queue != [] && queue[0].time <= now {
        e := Some(queue[0]);
        queue := queue[1..];
        forall i | 0 <= i < |queue| ensures queue[i].sequence < nextSequence {
          assert queue[i] == old(queue)[i + 1];
        }
      } else {
        e := None;
      }
    }
  }
}
