/** How statements are dealt out to the queues, and what that promises for the statements of one
    session when all the workers run at once. */
module SqlShards {
  import opened Common
  import opened SqlQueue

  const LONG_MAX := 0x7FFF_FFFF_FFFF_FFFF
  const UNSIGNED_SPAN := 0x1_0000_0000
  /** A quarter of a pool size that is itself a signed 32-bit number. */
  const MAX_QUEUES := 0x2000_0000

  predicate IsSpace(c: char) {
    c == ' ' || 9 as char <= c <= 13 as char
  }

  predicate IsDigit(c: char) {
    '0' <= c <= '9'
  }

  function SkipSpaces(s: string): string {
    if s != "" && IsSpace(s[0]) then SkipSpaces(s[1..]) else s
  }

  function DigitsValue(s: string, acc: nat): nat {
    if s != "" && IsDigit(s[0]) then DigitsValue(s[1..], 10 * acc + (s[0] - '0') as nat) else acc
  }

  /** The C library's conversion: spaces, a sign, digits up to the first other character, clamped
      to the 64-bit range. */
  function Strtol(s: string): int {
    var t := SkipSpaces(s);
    var negative := t != "" && t[0] == '-';
    var v: int := DigitsValue(if t != "" && (t[0] == '-' || t[0] == '+') then t[1..] else t, 0);
    if negative then (if v > LONG_MAX then -LONG_MAX - 1 else -v)
    else if v > LONG_MAX then LONG_MAX else v
  }

  /** The part of a session id after its last ';'. */
  function AfterLastSemicolon(s: string): Option<string> {
    if s == "" then None
    else if s[|s| - 1] == ';' then Some("")
    else match AfterLastSemicolon(s[..|s| - 1])
      case None => None
      case Some(t) => Some(t + [s[|s| - 1]])
  }

  /** The remainder truncates toward zero, and a negative one is then read as an unsigned
      32-bit number. */
  function ShardOf(id: int, queues: nat): nat
    requires 0 < queues
  {
    if id >= 0 then id % queues
    else
      var k := (-id) % queues;
      if k == 0 then 0 else if k < UNSIGNED_SPAN then UNSIGNED_SPAN - k else 0
  }

  /** Queue number and next round-robin position for a statement of the given session. */
  function Route(session: Option<string>, round: nat, queues: nat): (nat, nat)
    requires 0 < queues
  {
    match session
    case Some(s) =>
      (match AfterLastSemicolon(s)
       case Some(id) => (ShardOf(Strtol(id), queues), round)
       case None => (round % queues, round % queues + 1))
    case None => (round % queues, round % queues + 1)
  }

  lemma {:induction false} HasSemicolon(s: string)
    ensures AfterLastSemicolon(s).Some? <==> ';' in s
  {
    if s == "" {
    } else {
      assert s == s[..|s| - 1] + [s[|s| - 1]];
      HasSemicolon(s[..|s| - 1]);
    }
  }

  /** Exactly when the computed number names a queue: the trailing id is not negative, or is a
      multiple of the number of queues.  A negative one can only name the first. */
  lemma RouteInRange(session: Option<string>, round: nat, queues: nat)
    requires 0 < queues <= MAX_QUEUES
    ensures Route(session, round, queues).0 < queues <==>
            match session
            case None => true
            case Some(s) =>
              match AfterLastSemicolon(s)
              case None => true
              case Some(id) => Strtol(id) >= 0 || (-Strtol(id)) % queues == 0
    ensures session.Some? && AfterLastSemicolon(session.value).Some? && Strtol(AfterLastSemicolon(session.value).value) < 0 ==>
              Route(session, round, queues).0 < queues ==> Route(session, round, queues).0 == 0
    ensures session.Some? ==> (AfterLastSemicolon(session.value).Some? <==> ';' in session.value)
  {
    if session.Some? {
      HasSemicolon(session.value);
    }
  }

  lemma LastCharacter(s: string, c: char)
    ensures AfterLastSemicolon(s + [c]) ==
            if c == ';' then Some("")
            else match AfterLastSemicolon(s) case None => None case Some(t) => Some(t + [c])
  {
    assert (s + [c])[..|s|] == s;
  }

  /** A session id that selects no queue: with two of them the number computed is the largest 32-bit
      one. */
  lemma NegativeIdSelectsNoQueue(round: nat)
    ensures Route(Some("a;-1"), round, 2) == (0xFFFF_FFFF, round)
  {
    LastCharacter("a", ';');
    LastCharacter("a;", '-');
    LastCharacter("a;-", '1');
    assert "a" + [';'] == "a;" && "a;" + ['-'] == "a;-" && "a;-" + ['1'] == "a;-1";
    assert [] + ['-'] == "-" && "-" + ['1'] == "-1";
    assert SkipSpaces("-1") == "-1" && "-1"[1..] == "1";
    assert DigitsValue("1", 0) == DigitsValue("1"[1..], 1) == 1;
    assert Strtol("-1") == -1;
  }

  // ----- All queues together

  /** `enqueued` and `completed` record, over all queues, in which order statements were handed in
      and left. */
  datatype System = System(workers: seq<Worker>, round: nat, enqueued: seq<Item>, completed: seq<Item>)

  datatype Event =
    | Submit(item: Item)
    | BeginPass(i: nat)
    | Execute(i: nat, outcome: Outcome, late: bool)
    | EndPass(i: nat)

  function InitSystem(queues: nat): System {
    System(seq(queues, i => NEW_WORKER), 0, [], [])
  }

  predicate Enabled(s: System, e: Event) {
    && s.workers != []
    && match e
       case Submit(item) => Route(item.session, s.round, |s.workers|).0 < |s.workers|
       case BeginPass(i) => i < |s.workers| && s.workers[i].phase.Idle?
       case Execute(i, _, _) => i < |s.workers| && HasWork(s.workers[i])
       case EndPass(i) => i < |s.workers| && !s.workers[i].phase.Idle? && !HasWork(s.workers[i])
  }

  function Next(s: System, e: Event): System
    requires Enabled(s, e)
  {
    match e
    case Submit(item) =>
      var (i, round) := Route(item.session, s.round, |s.workers|);
      s.(workers := s.workers[i := SqlQueue.Enqueue(s.workers[i], item)], round := round,
         enqueued := s.enqueued + [item])
    case BeginPass(i) => s.(workers := s.workers[i := Begin(s.workers[i])])
    case Execute(i, outcome, late) =>
      s.(workers := s.workers[i := Exec(s.workers[i], outcome, late)],
         completed := if outcome.Lost? then s.completed else s.completed + [s.workers[i].queue[0]])
    case EndPass(i) => s.(workers := s.workers[i := End(s.workers[i])])
  }

  function Run(s: System, events: seq<Event>): Option<System>
    decreases |events|
  {
    if events == [] then Some(s)
    else if Enabled(s, events[0]) then Run(Next(s, events[0]), events[1..])
    else None
  }

  function OfSession(items: seq<Item>, session: string): seq<Item> {
    if items == [] then []
    else (if items[0].session == Some(session) then [items[0]] else []) + OfSession(items[1..], session)
  }

  lemma {:induction false} OfSessionConcat(a: seq<Item>, b: seq<Item>, session: string)
    ensures OfSession(a + b, session) == OfSession(a, session) + OfSession(b, session)
  {
    if a == [] {
      assert a + b == b;
    } else {
      assert (a + b)[1..] == a[1..] + b;
      OfSessionConcat(a[1..], b, session);
      Associates(if a[0].session == Some(session) then [a[0]] else [], OfSession(a[1..], session), OfSession(b, session));
    }
  }

  lemma OfSessionGrow(a: seq<Item>, item: Item, session: string)
    ensures OfSession(a + [item], session) ==
            OfSession(a, session) + (if item.session == Some(session) then [item] else [])
  {
    OfSessionConcat(a, [item], session);
  }

  function Shard(session: string, queues: nat): nat
    requires 0 < queues
  {
    Route(Some(session), 0, queues).0
  }

  /** Where the statements of one session are: all at the session's queue, in order. */
  ghost predicate Routed(s: System, session: string)
    requires s.workers != []
  {
    var shard := Shard(session, |s.workers|);
    && (forall i | 0 <= i < |s.workers| ::
          OfSession(s.workers[i].arrived, session) == if i == shard then OfSession(s.enqueued, session) else [])
    && OfSession(s.completed, session) ==
         (if shard < |s.workers| then OfSession(Departed(s.workers[shard].left), session) else [])
    && (shard >= |s.workers| ==> OfSession(s.enqueued, session) == [])
  }

  ghost predicate SysInv(s: System) {
    && s.workers != []
    && (forall i | 0 <= i < |s.workers| :: Inv(s.workers[i]))
    && (forall session | ';' in session :: Routed(s, session))
  }

  lemma WorkersKeepInv(s: System, e: Event, i: nat)
    requires SysInv(s) && Enabled(s, e) && i < |s.workers|
    ensures Inv(Next(s, e).workers[i])
  {
    hide Inv;
    match e
    case Submit(item) => EnqueueKeepsInv(s.workers[i], item);
    case BeginPass(j) => if i == j { BeginKeepsInv(s.workers[i]); }
    case Execute(j, outcome, late) => if i == j { ExecKeepsInv(s.workers[i], outcome, late); }
    case EndPass(j) => if i == j { EndKeepsInv(s.workers[i]); }
  }

  lemma SubmitRouted(s: System, item: Item, session: string)
    requires SysInv(s) && Enabled(s, Submit(item)) && ';' in session
    ensures Routed(Next(s, Submit(item)), session)
  {
    assert Routed(s, session);
    SameShard(session, s.round, |s.workers|);
    var (i, round) := Route(item.session, s.round, |s.workers|);
    EnqueueRouted(s, item, i, round, session);
    hide Inv, Route, Routed, SysInv, Shard;
  }

  lemma EnqueueRouted(s: System, item: Item, i: nat, round: nat, session: string)
    requires i < |s.workers| && Routed(s, session)
    requires item.session == Some(session) ==> i == Shard(session, |s.workers|)
    ensures Routed(s.(workers := s.workers[i := SqlQueue.Enqueue(s.workers[i], item)], round := round,
                      enqueued := s.enqueued + [item]), session)
  {
    hide Shard, OfSession, Departed;
    OfSessionGrow(s.enqueued, item, session);
    OfSessionGrow(s.workers[i].arrived, item, session);
  }

  /** For an id with a ';' the round-robin position does not matter. */
  lemma SameShard(session: string, round: nat, queues: nat)
    requires 0 < queues && ';' in session
    ensures Route(Some(session), round, queues).0 == Shard(session, queues)
  {
    HasSemicolon(session);
  }

  /** A statement at the head of a queue reached that queue as its session's shard demands. */
  lemma HeadBelongs(s: System, i: nat, session: string)
    requires SysInv(s) && i < |s.workers| && s.workers[i].queue != [] && ';' in session
    requires s.workers[i].queue[0].session == Some(session)
    ensures i == Shard(session, |s.workers|)
  {
    var w := s.workers[i];
    assert Routed(s, session);
    OfSessionConcat(Departed(w.left), w.queue, session);
    assert OfSession(w.queue, session) != [];
  }

  lemma ExecHistory(w: Worker, outcome: Outcome, late: bool)
    requires HasWork(w)
    ensures Exec(w, outcome, late).arrived == w.arrived
    ensures Departed(Exec(w, outcome, late).left) ==
            Departed(w.left) + (if outcome.Lost? then [] else [w.queue[0]])
  {
  }

  lemma ExecuteRouted(s: System, i: nat, outcome: Outcome, late: bool, session: string)
    requires SysInv(s) && Enabled(s, Execute(i, outcome, late)) && ';' in session
    ensures Routed(Next(s, Execute(i, outcome, late)), session)
  {
    hide Inv, OfSession, Departed, Route;
    assert Routed(s, session);
    var w := s.workers[i];
    ExecHistory(w, outcome, late);
    if !outcome.Lost? {
      OfSessionGrow(Departed(w.left), w.queue[0], session);
      OfSessionGrow(s.completed, w.queue[0], session);
      if w.queue[0].session == Some(session) {
        HeadBelongs(s, i, session);
      }
      hide Exec;
    }
  }

  lemma StepKeepsInv(s: System, e: Event)
    requires SysInv(s) && Enabled(s, e)
    ensures SysInv(Next(s, e)) && |Next(s, e).workers| == |s.workers|
  {
    hide Inv;
    forall i | 0 <= i < |s.workers| ensures Inv(Next(s, e).workers[i]) {
      WorkersKeepInv(s, e, i);
    }
    forall session | ';' in session ensures Routed(Next(s, e), session) {
      match e
      case Submit(item) => SubmitRouted(s, item, session);
      case Execute(i, outcome, late) => ExecuteRouted(s, i, outcome, late, session);
      case _ => assert Routed(s, session);
    }
  }

  lemma {:induction false} RunKeepsInv(s: System, events: seq<Event>)
    requires SysInv(s) && Run(s, events).Some?
    ensures SysInv(Run(s, events).value) && |Run(s, events).value.workers| == |s.workers|
    decreases |events|
  {
    hide SysInv;
    if events == [] {
    } else {
      StepKeepsInv(s, events[0]);
      RunKeepsInv(Next(s, events[0]), events[1..]);
    }
  }

  lemma InitInv(queues: nat)
    requires 0 < queues
    ensures SysInv(InitSystem(queues))
  {
    NewWorkerInv();
    forall session ensures Routed(InitSystem(queues), session) {
    }
  }

  /** What the queues and logs say about one session. */
  ghost predicate InOrder(s: System, session: string)
    requires s.workers != []
  {
    var shard := Shard(session, |s.workers|);
    var queued := if shard < |s.workers| then OfSession(s.workers[shard].queue, session) else [];
    && OfSession(s.enqueued, session) == OfSession(s.completed, session) + queued
    && forall i | 0 <= i < |s.workers| && i != shard :: OfSession(s.workers[i].queue, session) == []
  }

  lemma ArrivedSplits(w: Worker, session: string)
    requires Inv(w)
    ensures OfSession(w.arrived, session) ==
            OfSession(Departed(w.left), session) + OfSession(w.queue, session)
  {
    OfSessionConcat(Departed(w.left), w.queue, session);
  }

  lemma RoutedInOrder(s: System, session: string)
    requires SysInv(s) && Routed(s, session)
    ensures InOrder(s, session)
  {
    hide Inv;
    forall i | 0 <= i < |s.workers|
      ensures OfSession(s.workers[i].arrived, session) ==
              OfSession(Departed(s.workers[i].left), session) + OfSession(s.workers[i].queue, session)
    {
      ArrivedSplits(s.workers[i], session);
    }
  }

  /** Every run of all the queues and workers together, for a session whose id contains ';': its
      statements complete in the order they were handed in, whatever the other sessions do. */
  lemma SessionsCompleteInOrder(queues: nat, events: seq<Event>, session: string)
    requires 0 < queues && Run(InitSystem(queues), events).Some? && ';' in session
    ensures Run(InitSystem(queues), events).value.workers != []
    ensures InOrder(Run(InitSystem(queues), events).value, session)
  {
    InitInv(queues);
    RunKeepsInv(InitSystem(queues), events);
    RoutedInOrder(Run(InitSystem(queues), events).value, session);
  }

  /** In every run, each worker's database holds exactly its successful statements in order unless
      a connection was lost, and between passes nothing waits to be committed. */
  lemma DatabasesAgree(queues: nat, events: seq<Event>, i: nat)
    requires i < queues && Run(InitSystem(queues), events).Some?
    ensures i < |Run(InitSystem(queues), events).value.workers|
    ensures var w := Run(InitSystem(queues), events).value.workers[i];
            && (w.lost == [] ==> w.db.committed + w.db.pending == Successes(w.left))
            && multiset(w.db.committed + w.db.pending + w.lost) == multiset(Successes(w.left))
            && |w.db.pending| <= 100
            && (!w.phase.Draining? ==> w.db.pending == [])
  {
    InitInv(queues);
    RunKeepsInv(InitSystem(queues), events);
    assert Inv(Run(InitSystem(queues), events).value.workers[i]);
  }

  /** The queues as callers see them, with the round-robin position for statements of no session. */
  class QueueSet {
    const queues: seq<QueueWorker>
    var round: nat

    ghost predicate Valid()
      reads this
    {
      queues != [] && forall i, j | 0 <= i < j < |queues| :: queues[i] != queues[j]
    }

    ghost function States(): seq<Worker>
      reads this, queues
    {
      seq(|queues|, i requires 0 <= i < |queues| reads this, queues => queues[i].State())
    }

    /** Computes the number of a queue and appends the statement there. A number that names no queue
        is reported; the source would go on past its array. */
    method Enqueue(item: Item) returns (index: nat, ok: bool)
      requires Valid()
      modifies this`round, queues
      ensures Valid() && (index, round) == Route(item.session, old(round), |queues|)
      ensures ok == (index < |queues|)
      ensures States() == if ok then old(States())[index := SqlQueue.Enqueue(old(States())[index], item)]
                          else old(States())
    {
      var tail := if item.session.Some? then AfterLastSemicolon(item.session.value) else None;
      if tail.Some? {
        index := ShardOf(Strtol(tail.value), |queues|);
      } else {
        round := round % |queues|;
        index := round;
        round := round + 1;
      }
      ok := index < |queues|;
      if ok {
        queues[index].Push(item);
      }
    }
  }
}
