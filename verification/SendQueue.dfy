/** The send queue of the BR proxy: a linked list of tasks of which at most one is being sent. All calls come
    from the one JavaScript thread, so each handler runs to its end before the next. */
module SendQueue {
  type Task = nat

  /** What happened to a task that left the list. */
  datatype Entry = Started(task: Task) | Rejected(task: Task)

  /** `log` is what left the list, in order; `inFlight` the async works queued and not yet completed;
      `completed` those whose promise has been settled after sending. */
  datatype Q = Q(pending: seq<Task>, isProcessing: bool, inFlight: seq<Task>,
                 enqueued: seq<Task>, log: seq<Entry>, completed: seq<Task>)

  function Initial(): Q {
    Q([], false, [], [], [], [])
  }

  /** ProcessTaskQueue; `ok` says for which tasks an async work can be created and queued. */
  function Process(q: Q, ok: Task -> bool): Q
    decreases |q.pending|
  {
    if q.pending == [] || q.isProcessing then q
    else
      var t, rest := q.pending[0], q.pending[1..];
      if ok(t) then
        q.(pending := rest, isProcessing := true, inFlight := q.inFlight + [t], log := q.log + [Started(t)])
      else
        Process(q.(pending := rest, log := q.log + [Rejected(t)]), ok)
  }

  lemma ProcessUnfolds(q: Q, ok: Task -> bool)
    ensures q.pending == [] || q.isProcessing ==> Process(q, ok) == q
    ensures q.pending != [] && !q.isProcessing ==>
              var t := q.pending[0];
              var q1 := q.(pending := q.pending[1..], isProcessing := ok(t),
                           inFlight := q.inFlight + (if ok(t) then [t] else []),
                           log := q.log + [if ok(t) then Started(t) else Rejected(t)]);
              Process(q, ok) == Process(q1, ok)
  {
    assert q.inFlight + [] == q.inFlight;
  }

  function Send(q: Q, t: Task, ok: Task -> bool): Q {
    Process(q.(pending := q.pending + [t], enqueued := q.enqueued + [t]), ok)
  }

  /** AsyncWorkComplete for the `k`-th work in flight. */
  function Complete(q: Q, k: nat, ok: Task -> bool): Q
    requires k < |q.inFlight|
  {
    Process(q.(inFlight := q.inFlight[..k] + q.inFlight[k + 1..], isProcessing := false,
               completed := q.completed + [q.inFlight[k]]), ok)
  }

  datatype Input = InSend(task: Task, ok: Task -> bool) | InComplete(k: nat, ok: Task -> bool)

  function Step(q: Q, x: Input): Q {
    match x
    case InSend(t, ok) => Send(q, t, ok)
    case InComplete(k, ok) => if k < |q.inFlight| then Complete(q, k, ok) else q
  }

  function Run(q: Q, xs: seq<Input>): Q
    decreases |xs|
  {
    if xs == [] then q else Run(Step(q, xs[0]), xs[1..])
  }

  function Tasks(log: seq<Entry>): seq<Task> {
    if log == [] then [] else Tasks(log[..|log| - 1]) + [log[|log| - 1].task]
  }

  function Starts(log: seq<Entry>): seq<Task> {
    if log == [] then []
    else
      var e := log[|log| - 1];
      Starts(log[..|log| - 1]) + (if e.Started? then [e.task] else [])
  }

  /** Holds also between the steps of a handler. */
  ghost predicate Ordered(q: Q) {
    && Tasks(q.log) + q.pending == q.enqueued
    && Starts(q.log) == q.completed + q.inFlight
    && |q.inFlight| == (if q.isProcessing then 1 else 0)
  }

  /** And between handlers nothing waits unless something is being sent. */
  ghost predicate Inv(q: Q) {
    Ordered(q) && (q.pending != [] ==> q.isProcessing)
  }

  lemma LogGrows(log: seq<Entry>, e: Entry)
    ensures Tasks(log + [e]) == Tasks(log) + [e.task]
    ensures Starts(log + [e]) == Starts(log) + (if e.Started? then [e.task] else [])
  {
    assert (log + [e])[..|log|] == log;
  }

  lemma {:induction false} ProcessKeeps(q: Q, ok: Task -> bool)
    requires Ordered(q)
    ensures Inv(Process(q, ok))
    ensures Process(q, ok).enqueued == q.enqueued && Process(q, ok).completed == q.completed
    ensures var r := Process(q, ok); |r.pending| + |r.inFlight| <= |q.pending| + |q.inFlight|
    decreases |q.pending|
  {
    if q.pending != [] && !q.isProcessing {
      var t, rest := q.pending[0], q.pending[1..];
      assert Tasks(q.log) + [t] + rest == Tasks(q.log) + q.pending;
      LogGrows(q.log, Started(t));
      LogGrows(q.log, Rejected(t));
      if ok(t) {
        assert q.completed + (q.inFlight + [t]) == q.completed + q.inFlight + [t];
      } else {
        ProcessKeeps(q.(pending := rest, log := q.log + [Rejected(t)]), ok);
      }
    }
  }

  /** Entries are only added, and a new one says rejected exactly if no work could be created for its task. */
  ghost predicate Decided(was: seq<Entry>, now: seq<Entry>, ok: Task -> bool) {
    was <= now && forall k | |was| <= k < |now| :: now[k].Started? == ok(now[k].task)
  }

  lemma {:induction false} ProcessDecides(q: Q, ok: Task -> bool)
    ensures Decided(q.log, Process(q, ok).log, ok)
    decreases |q.pending|
  {
    if q.pending != [] && !q.isProcessing && !ok(q.pending[0]) {
      ProcessDecides(q.(pending := q.pending[1..], log := q.log + [Rejected(q.pending[0])]), ok);
    }
  }

  /** In every state: a task is rejected exactly if no work could be created for it when its turn came. */
  lemma StepDecides(q: Q, x: Input)
    ensures Decided(q.log, Step(q, x).log, x.ok)
  {
    match x
    case InSend(t, ok) => ProcessDecides(q.(pending := q.pending + [t], enqueued := q.enqueued + [t]), ok);
    case InComplete(k, ok) =>
      if k < |q.inFlight| {
        ProcessDecides(q.(inFlight := q.inFlight[..k] + q.inFlight[k + 1..], isProcessing := false,
                          completed := q.completed + [q.inFlight[k]]), ok);
      }
    hide Process;
  }

  lemma SendKeeps(q: Q, t: Task, ok: Task -> bool)
    requires Inv(q)
    ensures Inv(Send(q, t, ok)) && Send(q, t, ok).enqueued == q.enqueued + [t]
  {
    assert Tasks(q.log) + (q.pending + [t]) == Tasks(q.log) + q.pending + [t];
    ProcessKeeps(q.(pending := q.pending + [t], enqueued := q.enqueued + [t]), ok);
  }

  lemma CompleteKeeps(q: Q, k: nat, ok: Task -> bool)
    requires Inv(q) && k < |q.inFlight|
    ensures var r := Complete(q, k, ok);
            && Inv(r) && r.enqueued == q.enqueued && r.completed == q.completed + q.inFlight
            && |r.pending| + |r.inFlight| < |q.pending| + |q.inFlight|
  {
    assert q.inFlight == [q.inFlight[0]] && q.inFlight[..0] + q.inFlight[1..] == [];
    ProcessKeeps(q.(inFlight := [], isProcessing := false, completed := q.completed + q.inFlight), ok);
  }

  lemma {:induction false} RunKeeps(q: Q, xs: seq<Input>)
    requires Inv(q)
    ensures Inv(Run(q, xs))
    decreases |xs|
  {
    if xs != [] {
      hide Inv;
      match xs[0]
      case InSend(t, ok) =>
        SendKeeps(q, t, ok);
        RunKeeps(Step(q, xs[0]), xs[1..]);
      case InComplete(k, ok) =>
        if k < |q.inFlight| {
          CompleteKeeps(q, k, ok);
        }
        RunKeeps(Step(q, xs[0]), xs[1..]);
    }
  }

  /** At every rest point of every run: the tasks that left the list are exactly the earlier enqueued ones, each
      once and in order; those started completed in the same order, but for at most one; and the queue is never
      left waiting with nothing in flight. */
  lemma SendsInOrder(xs: seq<Input>)
    ensures var q := Run(Initial(), xs);
            && Tasks(q.log) + q.pending == q.enqueued
            && Starts(q.log) == q.completed + q.inFlight
            && |q.inFlight| <= 1
            && (q.isProcessing <==> q.inFlight != [])
            && (q.pending != [] ==> q.inFlight != [])
  {
    RunKeeps(Initial(), xs);
  }

  ghost predicate Completions(xs: seq<Input>) {
    forall x | x in xs :: x.InComplete? && x.k == 0
  }

  /** The queue never stalls: one completion per task still waiting or in flight settles everything. */
  lemma {:induction false} CompletionsDrain(q: Q, xs: seq<Input>)
    requires Inv(q) && Completions(xs) && |q.pending| + |q.inFlight| <= |xs|
    ensures var r := Run(q, xs);
            r.pending == [] && r.inFlight == [] && Tasks(r.log) == q.enqueued && Starts(r.log) == r.completed
    decreases |xs|
  {
    if xs == [] {
      assert Tasks(q.log) + q.pending == Tasks(q.log) && q.completed + q.inFlight == q.completed;
    } else {
      hide Complete;
      var q1 := Step(q, xs[0]);
      if q.inFlight != [] {
        CompleteKeeps(q, 0, xs[0].ok);
      }
      CompletionsDrain(q1, xs[1..]);
    }
  }

  // ---------- as it runs ----------

  class Node {
    const data: Task
    var next: Node?

    constructor (t: Task)
      ensures data == t && next == null
    {
      data, next := t, null;
    }
  }

  ghost function Data(ns: seq<Node>): (r: seq<Task>)
    ensures |r| == |ns| && forall i | 0 <= i < |ns| :: r[i] == ns[i].data
  {
    if ns == [] then [] else [ns[0].data] + Data(ns[1..])
  }

  class TaskQueue {
    var head: Node?
    var tail: Node?
    var isProcessing: bool
    var inFlight: seq<Task>
    var log: seq<Entry>
    var completed: seq<Task>
    ghost var enqueued: seq<Task>
    ghost var nodes: seq<Node>

    /** The list is well formed: the nodes are the cells from head to tail, all different. */
    ghost predicate Valid()
      reads this, nodes
    {
      && (nodes == [] ==> head == null && tail == null)
      && (nodes != [] ==> head == nodes[0] && tail == nodes[|nodes| - 1] && tail.next == null)
      && (forall i | 0 <= i < |nodes| - 1 :: nodes[i].next == nodes[i + 1])
      && (forall i, j | 0 <= i < j < |nodes| :: nodes[i] != nodes[j])
    }

    ghost function View(): Q
      reads this
    {
      Q(Data(nodes), isProcessing, inFlight, enqueued, log, completed)
    }

    constructor ()
      ensures Valid() && View() == Initial() && nodes == []
    {
      head, tail, isProcessing, nodes := null, null, false, [];
      inFlight, log, completed, enqueued := [], [], [], [];
    }

    /** The locked part at the top of the loop: unlink the first cell. */
    method PopHead() returns (t: Task)
      requires Valid() && head != null
      modifies this
      ensures Valid() && nodes == old(nodes)[1..] && t == old(nodes)[0].data
      ensures View() == old(View()).(pending := old(View()).pending[1..])
    {
      t := head.data;
      head := head.next;
      if head == null {
        tail := null;
      }
      nodes := nodes[1..];
      assert Data(nodes) == old(Data(nodes))[1..];
    }

    /** The rest of the loop body, for the task taken off the list. */
    method StartOrReject(t: Task, ok: bool)
      requires Valid()
      modifies this`isProcessing, this`inFlight, this`log
      ensures Valid()
      ensures isProcessing == (ok || old(isProcessing)) && inFlight == old(inFlight) + (if ok then [t] else [])
      ensures log == old(log) + [if ok then Started(t) else Rejected(t)]
    {
      if ok {
        isProcessing := true;
        inFlight := inFlight + [t];
        log := log + [Started(t)];
      } else {
        log := log + [Rejected(t)];
      }
    }

    method ProcessTaskQueue(ok: Task -> bool)
      requires Valid()
      modifies this
      ensures Valid() && View() == Process(old(View()), ok)
      ensures forall n | n in nodes :: n in old(nodes)
    {
      hide Process;
      var shouldExit := false;
      while !shouldExit
        invariant Valid() && Process(View(), ok) == Process(old(View()), ok)
        invariant shouldExit ==> Process(View(), ok) == View()
        invariant forall n | n in nodes :: n in old(nodes)
        decreases !shouldExit, |nodes|
      {
        ProcessUnfolds(View(), ok);
        if head == null || isProcessing {
          return;
        }
        var t := PopHead();
        StartOrReject(t, ok(t));
        shouldExit := head == null;
        ProcessUnfolds(View(), ok);
      }
    }

    /** The locked part of SendDataAsync: link a new cell at the tail. */
    method Append(node: Node)
      requires Valid() && node !in nodes && node.next == null
      modifies this, tail
      ensures Valid() && nodes == old(nodes) + [node]
      ensures var q := old(View());
              View() == q.(pending := q.pending + [node.data], enqueued := q.enqueued + [node.data])
    {
      if tail == null {
        head := node;
      } else {
        tail.next := node;
      }
      tail := node;
      nodes, enqueued := nodes + [node], enqueued + [node.data];
      assert Data(nodes) == old(Data(nodes)) + [node.data];
    }

    method SendDataAsync(t: Task, ok: Task -> bool)
      requires Valid()
      modifies this, tail
      ensures Valid() && View() == Send(old(View()), t, ok)
      ensures forall n | n in nodes :: n in old(nodes) || fresh(n)
    {
      hide Data;
      var node := new Node(t);
      Append(node);
      ProcessTaskQueue(ok);
    }

    method AsyncWorkComplete(k: nat, ok: Task -> bool)
      requires Valid() && k < |inFlight|
      modifies this
      ensures Valid() && View() == Complete(old(View()), k, ok)
      ensures forall n | n in nodes :: n in old(nodes)
    {
      completed := completed + [inFlight[k]];
      inFlight := inFlight[..k] + inFlight[k + 1..];
      isProcessing := false;
      ProcessTaskQueue(ok);
    }
  }
}
