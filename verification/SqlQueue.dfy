/** The write-behind queue of SQL statements: statements are dealt out to several queues by
    session, and one worker per queue executes them in batches over its own connection. */
module SqlQueue {
  import opened Common

  datatype Item = Item(statement: string, session: Option<string>, rollbackOnFail: bool)

  /** What executing one statement leads to.  `Lost` is a failure after which the connection had
      to be re-established, whether or not that worked. */
  datatype Outcome = Done | Failed | Lost(restored: bool)

  /** A connection's database: what is durable, and what is executed but not yet committed. */
  datatype Db = Db(committed: seq<Item>, pending: seq<Item>)

  function Commit(db: Db): Db {
    Db(db.committed + db.pending, [])
  }

  /** Rolling back and losing the connection have one effect on the database. */
  function Discard(db: Db): Db {
    db.(pending := [])
  }

  const MAX_UNCOMMITTED := 100
  const MIN_TIMED_COMMIT := 10

  /** Between two passes, in the middle of one, or past a lost connection within one. */
  datatype Phase = Idle | Draining | Broken

  /** A statement that left its queue, and whether it succeeded. */
  datatype Departure = Departure(item: Item, ok: bool)

  /** A worker with its queue; the last three fields record its history. */
  datatype Worker = Worker(queue: seq<Item>, db: Db, count: nat, shouldCommit: bool, phase: Phase,
                           arrived: seq<Item>, left: seq<Departure>, lost: seq<Item>)

  const NEW_WORKER := Worker([], Db([], []), 0, false, Idle, [], [], [])

  function Enqueue(w: Worker, item: Item): Worker {
    w.(queue := w.queue + [item], arrived := w.arrived + [item])
  }

  function Begin(w: Worker): Worker {
    w.(count := 0, shouldCommit := false, phase := Draining)
  }

  predicate HasWork(w: Worker) {
    w.phase.Draining? && w.queue != []
  }

  /** One turn of the inner loop; `late` says that enough time has passed since the last timed
      commit. */
  function Exec(w: Worker, outcome: Outcome, late: bool): Worker
    requires HasWork(w)
  {
    var item := w.queue[0];
    var db := if item.rollbackOnFail then Commit(w.db) else w.db;
    match outcome
    case Done =>
      var executed := db.(pending := db.pending + [item]);
      var n := w.count + 1;
      var full := n > MAX_UNCOMMITTED;
      var commit := full || (n > MIN_TIMED_COMMIT && late);
      w.(queue := w.queue[1..], left := w.left + [Departure(item, true)],
         db := if commit then Commit(executed) else executed,
         shouldCommit := !commit, count := if full then 0 else n)
    case Failed =>
      w.(queue := w.queue[1..], left := w.left + [Departure(item, false)],
         db := if item.rollbackOnFail then Discard(db) else db)
    case Lost(_) =>
      w.(db := Discard(db), lost := w.lost + db.pending, phase := Broken)
  }

  function End(w: Worker): Worker {
    w.(db := if w.shouldCommit then Commit(w.db) else w.db, phase := Idle)
  }

  function Successes(left: seq<Departure>): seq<Item> {
    if left == [] then []
    else (if left[0].ok then [left[0].item] else []) + Successes(left[1..])
  }

  function Departed(left: seq<Departure>): seq<Item> {
    seq(|left|, i requires 0 <= i < |left| => left[i].item)
  }

  lemma {:induction false} SuccessesConcat(a: seq<Departure>, b: seq<Departure>)
    ensures Successes(a + b) == Successes(a) + Successes(b)
  {
    if a == [] {
      assert a + b == b;
    } else {
      assert (a + b)[1..] == a[1..] + b;
      SuccessesConcat(a[1..], b);
      Associates(if a[0].ok then [a[0].item] else [], Successes(a[1..]), Successes(b));
    }
  }

  /** Nothing is forgotten, and without a lost connection nothing is even reordered. */
  ghost predicate Accounted(db: Db, lost: seq<Item>, successes: seq<Item>) {
    && multiset(db.committed + db.pending + lost) == multiset(successes)
    && (lost == [] ==> db.committed + db.pending == successes)
  }

  ghost predicate Inv(w: Worker) {
    // dequeued statements followed by queued ones are the enqueue history
    && Departed(w.left) + w.queue == w.arrived
    // what the last commit has not covered is small, and will be committed
    && |w.db.pending| <= w.count <= MAX_UNCOMMITTED
    && (w.db.pending != [] ==> w.shouldCommit && w.phase.Draining?)
    && Accounted(w.db, w.lost, Successes(w.left))
  }

  lemma NewWorkerInv()
    ensures Inv(NEW_WORKER)
  {
  }

  lemma EnqueueKeepsInv(w: Worker, item: Item)
    requires Inv(w)
    ensures Inv(Enqueue(w, item))
  {
    assert Departed(w.left) + (w.queue + [item]) == (Departed(w.left) + w.queue) + [item];
  }

  lemma BeginKeepsInv(w: Worker)
    requires Inv(w) && w.phase.Idle?
    ensures Inv(Begin(w)) && Begin(w).count == 0 && Begin(w).phase.Draining?
    ensures Begin(w).queue == w.queue && Begin(w).db == w.db
  {
  }

  /** A pass ends with nothing pending and nothing lost by ending. */
  lemma EndKeepsInv(w: Worker)
    requires Inv(w) && !HasWork(w)
    ensures Inv(End(w)) && End(w).db.pending == [] && End(w).phase.Idle?
    ensures End(w).db.committed == w.db.committed + w.db.pending
  {
    assert w.db.pending == [] ==> w.db.committed + w.db.pending == w.db.committed;
    assert (w.db.committed + w.db.pending) + [] == w.db.committed + w.db.pending;
  }

  lemma LeavesInOrder(w: Worker, ok: bool)
    requires w.queue != [] && Departed(w.left) + w.queue == w.arrived
    ensures Departed(w.left + [Departure(w.queue[0], ok)]) + w.queue[1..] == w.arrived
  {
    assert Departed(w.left + [Departure(w.queue[0], ok)]) == Departed(w.left) + [w.queue[0]];
    assert w.queue == [w.queue[0]] + w.queue[1..];
  }

  lemma OneMore(db: Db, db': Db, lost: seq<Item>, successes: seq<Item>, item: Item)
    requires Accounted(db, lost, successes)
    requires db'.committed + db'.pending == (db.committed + db.pending) + [item]
    ensures Accounted(db', lost, successes + [item])
  {
    assert multiset(db'.committed + db'.pending + lost)
        == multiset(db.committed + db.pending) + multiset{item} + multiset(lost);
  }

  lemma SuccessesGrow(left: seq<Departure>, item: Item)
    ensures Successes(left + [Departure(item, true)]) == Successes(left) + [item]
    ensures Successes(left + [Departure(item, false)]) == Successes(left)
  {
    SuccessesConcat(left, [Departure(item, true)]);
    SuccessesConcat(left, [Departure(item, false)]);
  }

  lemma DoneContents(w: Worker, late: bool)
    requires HasWork(w)
    ensures var db := Exec(w, Done, late).db;
            db.committed + db.pending == (w.db.committed + w.db.pending) + [w.queue[0]]
  {
  }

  lemma DoneKeepsInv(w: Worker, late: bool)
    requires Inv(w) && HasWork(w)
    ensures Inv(Exec(w, Done, late))
  {
    hide Departed, Successes, Accounted;
    LeavesInOrder(w, true);
    SuccessesGrow(w.left, w.queue[0]);
    DoneContents(w, late);
    OneMore(w.db, Exec(w, Done, late).db, w.lost, Successes(w.left), w.queue[0]);
  }

  /** A failing statement that asks for a rollback undoes nothing but itself. */
  lemma FailedKeepsInv(w: Worker, late: bool)
    requires Inv(w) && HasWork(w)
    ensures Inv(Exec(w, Failed, late))
    ensures var w' := Exec(w, Failed, late);
            && w'.db.committed + w'.db.pending == w.db.committed + w.db.pending
            && (!w.queue[0].rollbackOnFail ==> w'.db == w.db) && w'.count == w.count
  {
    hide Departed, Successes, Accounted;
    LeavesInOrder(w, false);
    SuccessesGrow(w.left, w.queue[0]);
    FailedContents(w, late);
    SameAccount(w.db, Exec(w, Failed, late).db, w.lost, Successes(w.left));
  }

  lemma FailedContents(w: Worker, late: bool)
    requires HasWork(w)
    ensures var db := Exec(w, Failed, late).db;
            db.committed + db.pending == w.db.committed + w.db.pending
  {
  }

  lemma SameAccount(db: Db, db': Db, lost: seq<Item>, successes: seq<Item>)
    requires Accounted(db, lost, successes) && db'.committed + db'.pending == db.committed + db.pending
    ensures Accounted(db', lost, successes)
  {
  }

  lemma LostAccount(db: Db, lost: seq<Item>, successes: seq<Item>)
    requires Accounted(db, lost, successes)
    ensures Accounted(Discard(db), lost + db.pending, successes)
  {
    assert multiset(db.committed + db.pending + lost) == multiset(db.committed + [] + (lost + db.pending));
    assert lost + db.pending == [] ==> lost == [] && db.pending == [];
  }

  /** One lost connection costs at most 100 executed statements, and none if the statement in
      hand had asked for a rollback; the statement itself stays at the head of the queue, and the pass
      is over. */
  lemma LostKeepsInv(w: Worker, restored: bool, late: bool)
    requires Inv(w) && HasWork(w)
    ensures var w' := Exec(w, Lost(restored), late);
            && Inv(w') && w'.queue == w.queue && w'.db.pending == [] && !w'.phase.Draining?
            && |w.lost| <= |w'.lost| <= |w.lost| + 100
            && (w.queue[0].rollbackOnFail ==> w'.lost == w.lost)
  {
    hide Departed, Successes, Accounted;
    var db := if w.queue[0].rollbackOnFail then Commit(w.db) else w.db;
    assert db.committed + db.pending == w.db.committed + w.db.pending;
    SameAccount(w.db, db, w.lost, Successes(w.left));
    LostAccount(db, w.lost, Successes(w.left));
  }

  /** Whatever a statement leads to, what is committed stays; and if the statement asks for a rollback
      should it fail, all that was pending is committed. */
  lemma ExecKeepsInv(w: Worker, outcome: Outcome, late: bool)
    requires Inv(w) && HasWork(w)
    ensures Inv(Exec(w, outcome, late))
    ensures w.db.committed <= Exec(w, outcome, late).db.committed
    ensures w.queue[0].rollbackOnFail ==> w.db.committed + w.db.pending <= Exec(w, outcome, late).db.committed
  {
    CommittedStays(w, outcome, late);
    hide Inv, Exec;
    match outcome
    case Done => DoneKeepsInv(w, late);
    case Failed => FailedKeepsInv(w, late);
    case Lost(r) => LostKeepsInv(w, r, late);
  }

  lemma CommittedStays(w: Worker, outcome: Outcome, late: bool)
    requires HasWork(w)
    ensures w.db.committed <= Exec(w, outcome, late).db.committed
    ensures w.queue[0].rollbackOnFail ==> w.db.committed + w.db.pending <= Exec(w, outcome, late).db.committed
  {
  }

  // ----- The worker thread

  /** One iteration's circumstances: how the statement fares, the clock, and what other threads
      append meanwhile. */
  datatype Turn = Turn(outcome: Outcome, late: bool, arrivals: seq<Item>)

  function EnqueueAll(w: Worker, items: seq<Item>): Worker
    decreases |items|
  {
    if items == [] then w else EnqueueAll(Enqueue(w, items[0]), items[1..])
  }

  function AfterTurn(w: Worker, turn: Turn): Worker
    requires HasWork(w)
  {
    EnqueueAll(Exec(w, turn.outcome, turn.late), turn.arrivals)
  }

  /** The inner loop while work and circumstances last. */
  function Turns(w: Worker, script: seq<Turn>): Worker
    decreases |script|
  {
    if !HasWork(w) || script == [] then w
    else Turns(AfterTurn(w, script[0]), script[1..])
  }

  lemma TurnsStep(w: Worker, script: seq<Turn>, i: nat)
    requires HasWork(w) && i < |script|
    ensures Turns(w, script[i..]) == Turns(AfterTurn(w, script[i]), script[i + 1..])
  {
    assert script[i..][1..] == script[i + 1..];
  }

  lemma TurnsStop(w: Worker, script: seq<Turn>)
    requires !HasWork(w) || script == []
    ensures Turns(w, script) == w
  {
  }

  class QueueWorker {
    var queue: seq<Item>
    var db: Db
    var count: nat
    var shouldCommit: bool
    var phase: Phase
    ghost var arrived: seq<Item>
    ghost var left: seq<Departure>
    ghost var lost: seq<Item>

    ghost function State(): Worker
      reads this
    {
      Worker(queue, db, count, shouldCommit, phase, arrived, left, lost)
    }

    constructor ()
      ensures State() == NEW_WORKER && Inv(State())
    {
      queue, db, count, shouldCommit, phase := [], Db([], []), 0, false, Idle;
      arrived, left, lost := [], [], [];
    }

    method Push(item: Item)
      modifies this
      ensures State() == Enqueue(old(State()), item) && queue == old(queue) + [item]
    {
      queue := queue + [item];
      arrived := arrived + [item];
    }

    method PushAll(items: seq<Item>)
      modifies this
      ensures State() == EnqueueAll(old(State()), items)
    {
      var i := 0;
      while i < |items|
        invariant i <= |items|
        invariant EnqueueAll(State(), items[i..]) == EnqueueAll(old(State()), items)
      {
        assert items[i..][1..] == items[i + 1..];
        Push(items[i]);
        i := i + 1;
      }
    }

    /** Executes the statement at the head of the queue. */
    method ExecuteHead(outcome: Outcome, late: bool)
      requires HasWork(State())
      modifies this
      ensures State() == Exec(old(State()), outcome, late)
    {
      var item := queue[0];
      if item.rollbackOnFail {
        db := Commit(db);
      }
      if outcome.Done? {
        db := db.(pending := db.pending + [item]);
        shouldCommit := true;
        count := count + 1;
        if count > MAX_UNCOMMITTED {
          db := Commit(db);
          shouldCommit := false;
          count := 0;
        } else if count > MIN_TIMED_COMMIT {
          if late {
            db := Commit(db);
            shouldCommit := false;
          }
        }
      } else {
        if item.rollbackOnFail {
          db := Discard(db);
        }
        if outcome.Lost? {
          lost := lost + db.pending;
          db := Discard(db);
          phase := Broken;
          return;
        }
      }
      queue := queue[1..];
      left := left + [Departure(item, outcome.Done?)];
    }

    method TakeTurn(turn: Turn)
      requires Inv(State()) && HasWork(State())
      modifies this
      ensures State() == AfterTurn(old(State()), turn) && Inv(State())
      ensures turn.outcome.Lost? || phase.Draining?
    {
      ExecKeepsInv(State(), turn.outcome, turn.late);
      ExecuteHead(turn.outcome, turn.late);
      EnqueueAllKeepsInv(State(), turn.arrivals);
      PushAll(turn.arrivals);
    }

    method EndPass()
      requires Inv(State()) && !HasWork(State())
      modifies this
      ensures State() == End(old(State())) && Inv(State())
      ensures phase.Idle? && db.pending == []
    {
      EndKeepsInv(State());
      if shouldCommit {
        db := Commit(db);
      }
      phase := Idle;
    }

    /** One pass over the queue; `complete` is false if the script ended before the pass did. */
    method Drain(script: seq<Turn>) returns (complete: bool)
      requires Inv(State()) && phase.Idle?
      modifies this
      ensures Inv(State())
      ensures var reached := Turns(Begin(old(State())), script);
              State() == if complete then End(reached) else reached
      ensures complete ==> phase.Idle? && db.pending == []
      ensures complete && (forall t | t in script :: !t.outcome.Lost?) ==> queue == []
    {
      hide Inv, Turns, AfterTurn;
      BeginKeepsInv(State());
      count, shouldCommit, phase := 0, false, Draining;
      ghost var start := State();
      var next := 0;
      while phase.Draining? && queue != [] && next < |script|
        invariant Inv(State()) && next <= |script|
        invariant Turns(State(), script[next..]) == Turns(start, script)
        invariant (forall t | t in script :: !t.outcome.Lost?) ==> phase.Draining?
        decreases |script| - next
      {
        TurnsStep(State(), script, next);
        TakeTurn(script[next]);
        next := next + 1;
      }
      complete := !phase.Draining? || queue == [];
      TurnsStop(State(), script[next..]);
      if complete {
        EndPass();
      }
    }
  }

  lemma {:induction false} EnqueueAllKeepsInv(w: Worker, items: seq<Item>)
    requires Inv(w)
    ensures Inv(EnqueueAll(w, items))
    ensures EnqueueAll(w, items).phase == w.phase
    decreases |items|
  {
    if items == [] {
    } else {
      EnqueueKeepsInv(w, items[0]);
      EnqueueAllKeepsInv(Enqueue(w, items[0]), items[1..]);
    }
  }
}
