/** The compacting queue, a list of keys beside a table, and the ordered map it refines. */
module DeliveryQueue {
  import opened Options

  /** The latest function for a key, and everyone waiting for its outcome. */
  datatype Work = Work(func: nat, waiters: seq<nat>)

  datatype Queue = Queue(order: seq<string>, table: map<string, Work>)

  type Entries = seq<(string, Work)>

  ghost predicate QueueOk(q: Queue) {
    && (forall i, j | 0 <= i < j < |q.order| :: q.order[i] != q.order[j])
    && (forall k :: k in q.order <==> k in q.table)
  }

  function Merge(queued: Work, func: nat, waiters: seq<nat>): Work {
    Work(func, queued.waiters + waiters)
  }

  function Enqueue(q: Queue, func: nat, waiters: seq<nat>, key: string, front: bool): Queue {
    if key in q.table then q.(table := q.table[key := Merge(q.table[key], func, waiters)])
    else Queue(if front then [key] + q.order else q.order + [key], q.table[key := Work(func, waiters)])
  }

  /** The queue without its first key. */
  function Rest(q: Queue): Queue
    requires q.order != []
  {
    Queue(q.order[1..], q.table - {q.order[0]})
  }

  /** The ordered map `entries` is what the queue stands for. */
  ghost predicate Represents(q: Queue, entries: Entries) {
    && |entries| == |q.order|
    && forall i | 0 <= i < |entries| :: q.order[i] in q.table && entries[i] == (q.order[i], q.table[q.order[i]])
  }

  function Position(entries: Entries, key: string): (at: Option<nat>)
    ensures at.Some? ==> at.value < |entries| && entries[at.value].0 == key
    ensures forall i | 0 <= i < (if at.Some? then at.value else |entries|) :: entries[i].0 != key
  {
    if entries == [] then None
    else if entries[0].0 == key then Some(0)
    else match Position(entries[1..], key) case None => None case Some(i) => Some(i + 1)
  }

  /** The reference form: a key already queued keeps its place, takes the new function and
      gains the new waiters; a new key goes to one end. */
  function Put(entries: Entries, func: nat, waiters: seq<nat>, key: string, front: bool): Entries {
    match Position(entries, key)
    case Some(i) => entries[i := (key, Merge(entries[i].1, func, waiters))]
    case None => if front then [(key, Work(func, waiters))] + entries else entries + [(key, Work(func, waiters))]
  }

  /** Enqueueing on the list and the table is `Put` on the ordered map. */
  lemma EnqueueRefines(q: Queue, entries: Entries, func: nat, waiters: seq<nat>, key: string, front: bool)
    requires QueueOk(q) && Represents(q, entries)
    ensures QueueOk(Enqueue(q, func, waiters, key, front))
    ensures Represents(Enqueue(q, func, waiters, key, front), Put(entries, func, waiters, key, front))
  {
    if key in q.table {
      var i :| 0 <= i < |q.order| && q.order[i] == key;
      PositionAt(q, entries, i);
    } else {
      assert forall i | 0 <= i < |q.order| :: q.order[i] in q.order;
      EnqueueNewOk(q, func, waiters, key, front);
    }
  }

  lemma PositionAt(q: Queue, entries: Entries, i: nat)
    requires QueueOk(q) && Represents(q, entries) && i < |q.order|
    ensures Position(entries, q.order[i]) == Some(i)
  {
    assert entries[i].0 == q.order[i];
    var at := Position(entries, q.order[i]);
    assert at.Some? && entries[at.value].0 == q.order[at.value];
  }

  lemma EnqueueNewOk(q: Queue, func: nat, waiters: seq<nat>, key: string, front: bool)
    requires QueueOk(q) && key !in q.table
    ensures QueueOk(Enqueue(q, func, waiters, key, front))
  {
    var order := Enqueue(q, func, waiters, key, front).order;
    assert forall k :: k in order <==> k == key || k in q.order;
    assert forall i | 0 <= i < |q.order| :: q.order[i] in q.order;
  }

  lemma RestOk(q: Queue)
    requires QueueOk(q) && q.order != []
    ensures QueueOk(Rest(q)) && q.order[0] in q.table
  {
    forall k ensures k in q.order[1..] <==> k in q.order && k != q.order[0] {
      if k in q.order && k != q.order[0] {
        var i :| 0 <= i < |q.order| && q.order[i] == k;
        assert q.order[1..][i - 1] == k;
      }
    }
  }

  /** Popping the list and the table takes the first entry of the ordered map. */
  lemma RestRefines(q: Queue, entries: Entries)
    requires QueueOk(q) && Represents(q, entries) && q.order != []
    ensures QueueOk(Rest(q)) && Represents(Rest(q), entries[1..])
    ensures q.order[0] in q.table && entries[0] == (q.order[0], q.table[q.order[0]])
  {
    RestOk(q);
  }
}
