/** The in-memory queue storage: one ring buffer of job ids per task. */
module InMemQueue {
  import opened RingQueue

  /** What a task's queue holds; a task not seen yet has an empty one. */
  function Pending<K, V>(model: map<K, seq<V>>, task: K): seq<V> {
    if task in model then model[task] else []
  }

  /** The ring and its buffer belong to one task only. */
  ghost predicate Owned<K, V>(owner: map<object, K>, t: K, q: Queue<V>)
    reads q
  {
    q in owner && q.buf in owner && owner[q] == t && owner[q.buf] == t
  }

  ghost predicate Holding<V>(q: Queue<V>, ids: seq<V>, zero: V)
    reads q, q.buf
  {
    q.Valid() && q.zero == zero && q.contents == ids
  }

  /** K stands for task names and V for job ids, whose zero value is the empty id. */
  class InMemQueue<K(==, !new), V> {
    const zero: V
    var queue: map<K, Queue<V>>
    ghost var model: map<K, seq<V>>
    ghost var owner: map<object, K>

    ghost predicate Valid()
      reads this, owner.Keys
    {
      && this !in owner && queue.Keys == model.Keys && (forall t :: t in queue ==> queue[t] in owner)
      && (forall t :: t in queue ==> Owned(owner, t, queue[t]))
      && forall t :: t in queue ==> Holding(queue[t], model[t], zero)
    }

    constructor (zero: V)
      ensures Valid() && owner == map[] && model == map[] && this.zero == zero
    {
      this.zero := zero;
      queue := map[];
      model := map[];
      owner := map[];
    }

    /** A fresh ring for the task. */
    method Renew(task: K)
      requires Valid()
      modifies this
      ensures Valid() && fresh(owner.Keys - old(owner.Keys)) && task in queue
      ensures model == old(model)[task := []]
    {
      hide Queue.Valid;
      var q := new Queue<V>(zero);
      assert Holding(q, [], zero);
      queue := queue[task := q];
      model := model[task := []];
      owner := owner[q := task][q.buf := task];
      forall t | t in queue ensures Holding(queue[t], model[t], zero) && Owned(owner, t, queue[t]) {
        if t != task { assert old(Owned(owner, t, queue[t]) && Holding(queue[t], model[t], zero)); }
      }
    }

    /** The rings of all tasks but one are as recorded. */
    ghost predicate ValidBut(task: K)
      reads this, owner.Keys
    {
      && this !in owner && queue.Keys == model.Keys && (forall t :: t in queue ==> queue[t] in owner)
      && (forall t :: t in queue && t != task ==> Owned(owner, t, queue[t]))
      && forall t :: t in queue && t != task ==> Holding(queue[t], model[t], zero)
    }

    /** A change to one task's own ring leaves the other tasks' rings as recorded. */
    twostate lemma OthersKept(task: K)
      requires old(Valid()) && queue == old(queue) && model == old(model) && owner == old(owner)
      requires forall o :: o in owner && owner[o] != task ==> unchanged(o)
      ensures ValidBut(task)
    {
      hide Queue.Valid;
      forall t | t in queue && t != task ensures Owned(owner, t, queue[t]) && Holding(queue[t], model[t], zero) {
        assert old(Owned(owner, t, queue[t]) && Holding(queue[t], model[t], zero));
      }
    }

    /** That task's ring is then recorded again, with its buffer. */
    ghost method Record(task: K)
      requires ValidBut(task) && task in queue && owner[queue[task]] == task && Holding(queue[task], queue[task].contents, zero)
      requires queue[task].buf in owner ==> owner[queue[task].buf] == task
      modifies this`owner, this`model
      ensures Valid() && owner == old(owner)[queue[task].buf := task] && model == old(model)[task := queue[task].contents]
    {
      hide Holding;
      owner := owner[queue[task].buf := task];
      model := model[task := queue[task].contents];
    }

    method PushJob(task: K, id: V) returns (n: nat)
      requires Valid()
      modifies this, owner.Keys
      ensures Valid() && fresh(owner.Keys - old(owner.Keys))
      ensures model == old(model)[task := Pending(old(model), task) + [id]]
      ensures n == |Pending(model, task)|
    {
      hide Owned, Holding, Queue.Valid;
      if task !in queue {
        Renew(task);
      }
      n := PushTo(task, id);
    }

    method PushTo(task: K, id: V) returns (n: nat)
      requires Valid() && task in queue
      modifies this, owner.Keys
      ensures Valid() && fresh(owner.Keys - old(owner.Keys))
      ensures model == old(model)[task := old(model)[task] + [id]]
      ensures n == |model[task]|
    {
      hide Queue.Valid;
      var q := queue[task];
      assert Owned(owner, task, q) && Holding(q, model[task], zero);
      q.Push(id);
      n := q.Len();
      OthersKept(task);
      hide Owned;
      Record(task);
    }

    /** An empty queue answers with the empty id. */
    method PopJob(task: K) returns (id: V)
      requires Valid()
      modifies this, owner.Keys
      ensures Valid() && fresh(owner.Keys - old(owner.Keys))
      ensures var ids := Pending(old(model), task);
              if ids == [] then id == zero && model == old(model)[task := []]
              else id == ids[0] && model == old(model)[task := ids[1..]]
    {
      hide Owned, Holding, Queue.Valid;
      if task !in queue {
        Renew(task);
      }
      id := PopFrom(task);
    }

    method PopFrom(task: K) returns (id: V)
      requires Valid() && task in queue
      modifies this, owner.Keys
      ensures Valid() && fresh(owner.Keys - old(owner.Keys))
      ensures var ids := old(model)[task];
              if ids == [] then id == zero && model == old(model)
              else id == ids[0] && model == old(model)[task := ids[1..]]
    {
      hide Queue.Valid;
      var q := queue[task];
      assert Owned(owner, task, q) && Holding(q, model[task], zero);
      var ok;
      id, ok := q.Pop();
      OthersKept(task);
      hide Owned;
      Record(task);
    }

    method NextJob(task: K) returns (id: V)
      requires Valid()
      modifies this
      ensures Valid() && fresh(owner.Keys - old(owner.Keys))
      ensures var ids := Pending(old(model), task);
              id == (if ids == [] then zero else ids[0]) && model == old(model)[task := ids]
    {
      hide Queue.Valid;
      if task !in queue {
        Renew(task);
      }
      assert Holding(queue[task], model[task], zero);
      var ok;
      id, ok := queue[task].Peek();
    }

    method Clear(task: K)
      requires Valid()
      modifies this
      ensures Valid() && fresh(owner.Keys - old(owner.Keys)) && model == old(model)[task := []]
    {
      Renew(task);
    }
  }
}
