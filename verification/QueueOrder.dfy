/** Which ready task is offered next when ids sort as text. */
module QueueOrder {
  import opened Wrappers
  import opened QueueTypes
  import opened IdOrder
  import opened QueueModel

  // The oldest of the ready tasks of the best priority.
  predicate OldestReady(q: Queue, o: TaskId) {
    && o in ReadyIds(q)
    && forall x :: x in ReadyIds(q) ==>
                     q.tasks[o].priority <= q.tasks[x].priority
                     && (q.tasks[o].priority == q.tasks[x].priority ==> o.n <= x.n)
  }

  // A ready task of the same priority.
  predicate Rivals(q: Queue, o: TaskId, x: TaskId) {
    o in ReadyIds(q) && x in ReadyIds(q) && x != o && q.tasks[o].priority == q.tasks[x].priority
  }

  lemma BeforeRivalIff(q: Queue, o: TaskId, x: TaskId)
    requires OldestReady(q, o) && Rivals(q, o, x)
    ensures Before(q, o, x) <==> FitsBelow(o, x)
  {
    assert o.n < x.n;
    OlderFirst(o, x);
  }

  lemma NextIsFirst(q: Queue, f: TaskId)
    requires f in ReadyIds(q)
    ensures NextTask(q) == Some(f) <==> FirstOf(q, ReadyIds(q), f)
  {
    FirstIsUnique(q, ReadyIds(q));
  }

  // The oldest ready task of the best priority is the next one if and only if its number does
  // not exceed that of any rival cut to its own width.
  lemma OldestIsNextIff(q: Queue, o: TaskId)
    requires OldestReady(q, o)
    ensures NextTask(q) == Some(o) <==> forall x :: Rivals(q, o, x) ==> FitsBelow(o, x)
  {
    NextIsFirst(q, o);
    forall x | Rivals(q, o, x)
      ensures Before(q, o, x) <==> FitsBelow(o, x)
    {
      BeforeRivalIff(q, o, x);
    }
    if forall x :: Rivals(q, o, x) ==> FitsBelow(o, x) {
      forall x | x in ReadyIds(q)
        ensures x == o || Before(q, o, x)
      {
        assert x != o && q.tasks[o].priority == q.tasks[x].priority ==> Rivals(q, o, x);
      }
    }
  }

  function PendingTask(): Task {
    Task(Pending, 1, {}, "", "", 0, 0, "", false, NotCompleted, None)
  }

  // Two ready tasks, the thousandth and the one before it.
  function Thousandth(): Queue {
    Queue(1, map[H(999) := PendingTask(), H(1000) := PendingTask()], [])
  }

  // The thousandth task is offered before the one before it.
  lemma ThousandthFirst()
    ensures ReadyIds(Thousandth()) == {H(999), H(1000)}
    ensures OldestReady(Thousandth(), H(999)) && NextTask(Thousandth()) == Some(H(1000))
  {
    var q := Thousandth();
    assert ReadyIds(q) == {H(999), H(1000)};
    assert Padded(1, 0) == [1] && Padded(10, 1) == [1, 0] && Padded(100, 2) == [1, 0, 0];
    assert Digits(1000) == [1, 0, 0, 0];
    assert Padded(9, 1) == [9] && Padded(99, 2) == [9, 9] && Digits(999) == [9, 9, 9];
    assert Before(q, H(1000), H(999));
    NextIsFirst(q, H(1000));
  }
}
