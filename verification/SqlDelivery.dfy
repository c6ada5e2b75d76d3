/** Where statements handed in go, and that each of them arrives. */
module SqlDelivery {
  import opened Common
  import opened DecimalText
  import opened SqlQueue
  import opened SqlShards

  // ----- The number at the end of a session id

  lemma {:induction false} DigitsConcat(s: string, c: char, acc: nat)
    requires (forall x | x in s :: IsDigit(x)) && IsDigit(c)
    ensures DigitsValue(s + [c], acc) == 10 * DigitsValue(s, acc) + (c - '0') as nat
  {
    if s == "" {
      assert [c][1..] == "";
      assert DigitsValue([c], acc) == DigitsValue([c][1..], 10 * acc + (c - '0') as nat);
    } else {
      assert (s + [c])[1..] == s[1..] + [c];
      assert s[0] in s;
      DigitsConcat(s[1..], c, 10 * acc + (s[0] - '0') as nat);
    }
  }

  lemma {:induction false} DigitsOfDec(n: nat)
    ensures Dec(n) != "" && (forall x | x in Dec(n) :: IsDigit(x)) && DigitsValue(Dec(n), 0) == n
  {
    if n < 10 {
      var c := '0' + n as char;
      assert [c][1..] == "";
      assert DigitsValue([c], 0) == DigitsValue([c][1..], n);
    } else {
      DigitsOfDec(n / 10);
      DigitsConcat(Dec(n / 10), '0' + (n % 10) as char, 0);
    }
  }

  /** Decimal text is read as its number, with or without a sign, and clamped to 64 bits. */
  lemma StrtolOfDec(n: nat)
    ensures Strtol(Dec(n)) == Strtol("+" + Dec(n)) == if n <= 0x7FFF_FFFF_FFFF_FFFF then n else 0x7FFF_FFFF_FFFF_FFFF
    ensures Strtol("-" + Dec(n)) == if n <= 0x7FFF_FFFF_FFFF_FFFF then 0 - n else -0x8000_0000_0000_0000
  {
    DigitsOfDec(n);
    assert Dec(n)[0] in Dec(n);
    assert ("+" + Dec(n))[1..] == Dec(n) && ("-" + Dec(n))[1..] == Dec(n);
    hide Dec, DigitsValue;
    assert SkipSpaces(Dec(n)) == Dec(n) && SkipSpaces("+" + Dec(n)) == "+" + Dec(n) && SkipSpaces("-" + Dec(n)) == "-" + Dec(n);
  }

  lemma {:induction false} AfterSeparator(prefix: string, tail: string)
    requires ';' !in tail
    ensures AfterLastSemicolon(prefix + ";" + tail) == Some(tail)
  {
    if tail == "" {
      assert prefix + ";" + tail == prefix + [';'];
      LastCharacter(prefix, ';');
    } else {
      var n := |tail| - 1;
      AfterSeparator(prefix, tail[..n]);
      assert prefix + ";" + tail == (prefix + ";" + tail[..n]) + [tail[n]];
      LastCharacter(prefix + ";" + tail[..n], tail[n]);
      assert tail == tail[..n] + [tail[n]];
    }
  }

  /** Session ids that end in ";0", ";1", ";2", ... go round all the queues, and do not move the
      round-robin position. */
  lemma NumberedSessionsGoRound(prefix: string, n: nat, round: nat, queues: nat)
    requires 0 < queues && n <= 0x7FFF_FFFF_FFFF_FFFF
    ensures Route(Some(prefix + ";" + Dec(n)), round, queues) == (n % queues, round)
  {
    DigitsOfDec(n);
    StrtolOfDec(n);
    AfterSeparator(prefix, Dec(n));
  }

  // ----- Every run

  /** The statements handed in, in order. */
  function Submitted(events: seq<Event>): seq<Item> {
    if events == [] then []
    else (if events[0].Submit? then [events[0].item] else []) + Submitted(events[1..])
  }

  /** The statements dealt to queue `i`, in order, when the j-th of all goes to queue `at[j]`. */
  function Dealt(items: seq<Item>, at: seq<nat>, i: nat): seq<Item>
    requires |at| == |items|
  {
    if items == [] then []
    else
      var n := |items| - 1;
      Dealt(items[..n], at[..n], i) + (if at[n] == i then [items[n]] else [])
  }

  /** All that waits in the queues. */
  function Waiting(workers: seq<Worker>): multiset<Item> {
    if workers == [] then multiset{} else multiset(workers[0].queue) + Waiting(workers[1..])
  }

  /** Statements whose session has no number, or that have no session. */
  predicate Plain(item: Item) {
    item.session.None? || ';' !in item.session.value
  }

  function Plains(items: seq<Item>): nat {
    if items == [] then 0 else Plains(items[..|items| - 1]) + if Plain(items[|items| - 1]) then 1 else 0
  }

  /** The queue of the j-th statement: plain ones go round the queues, the others to their
      session's. */
  ghost predicate WellDealt(items: seq<Item>, at: seq<nat>, queues: nat)
    requires 0 < queues
  {
    && |at| == |items|
    && forall j | 0 <= j < |items| ::
         && at[j] < queues
         && at[j] == if Plain(items[j]) then Plains(items[..j]) % queues else Shard(items[j].session.value, queues)
  }

  ghost predicate Delivered(s: System, at: seq<nat>) {
    && s.workers != []
    && WellDealt(s.enqueued, at, |s.workers|)
    && (forall i | 0 <= i < |s.workers| :: s.workers[i].arrived == Dealt(s.enqueued, at, i))
    && s.round % |s.workers| == Plains(s.enqueued) % |s.workers|
    && multiset(s.completed) + Waiting(s.workers) == multiset(s.enqueued)
  }

  lemma {:induction false} WaitingAt(workers: seq<Worker>, i: nat, w: Worker)
    requires i < |workers|
    ensures Waiting(workers[i := w]) + multiset(workers[i].queue) == Waiting(workers) + multiset(w.queue)
  {
    if i == 0 {
      assert workers[0 := w][1..] == workers[1..];
    } else {
      WaitingAt(workers[1..], i - 1, w);
      assert workers[i := w][1..] == workers[1..][i - 1 := w];
      var first, rest := multiset(workers[0].queue), workers[1..];
      assert first + Waiting(rest[i - 1 := w]) + multiset(workers[i].queue)
          == first + (Waiting(rest[i - 1 := w]) + multiset(workers[i].queue));
      assert first + Waiting(rest) + multiset(w.queue) == first + (Waiting(rest) + multiset(w.queue));
    }
  }

  lemma DealtGrows(items: seq<Item>, at: seq<nat>, item: Item, to: nat, i: nat)
    requires |at| == |items|
    ensures Dealt(items + [item], at + [to], i) == Dealt(items, at, i) + if to == i then [item] else []
  {
    assert (items + [item])[..|items|] == items && (at + [to])[..|at|] == at;
  }

  lemma Modulo(r: nat, k: nat, q: nat)
    requires r < q
    ensures (q * k + r) % q == r
  {
    var x := q * k + r;
    var d := k - x / q;
    assert q * d == x % q - r by {
      assert x == q * (x / q) + x % q;
      assert q * d == q * k - q * (x / q);
    }
    Multiple(q, d);
  }

  lemma Multiple(q: nat, d: int)
    ensures d >= 1 ==> q * d >= q
    ensures d <= -1 ==> q * d <= 0 - q
  {
    if d >= 1 {
      assert q * d == q * (d - 1) + q;
    } else if d <= -1 {
      assert q * d == q * (d + 1) - q;
    }
  }

  lemma NextRound(count: nat, queues: nat)
    requires 0 < queues
    ensures (count + 1) % queues == if count % queues + 1 < queues then count % queues + 1 else 0
  {
    var k, r := count / queues, count % queues;
    assert count == queues * k + r;
    if r + 1 < queues {
      Modulo(r + 1, k, queues);
    } else {
      assert count + 1 == queues * (k + 1) + 0;
      Modulo(0, k + 1, queues);
    }
  }

  lemma RoundAdvances(round: nat, count: nat, queues: nat)
    requires 0 < queues && round % queues == count % queues
    ensures (round % queues + 1) % queues == (count + 1) % queues
  {
    NextRound(count, queues);
    Modulo(0, 1, queues);
    if count % queues + 1 < queues {
      Modulo(count % queues + 1, 0, queues);
    }
  }

  lemma RoutedTo(item: Item, round: nat, count: nat, queues: nat)
    requires 0 < queues && round % queues == count % queues
    ensures Route(item.session, round, queues).0 ==
            if Plain(item) then count % queues else Shard(item.session.value, queues)
    ensures Route(item.session, round, queues).1 % queues == (count + if Plain(item) then 1 else 0) % queues
  {
    hide Strtol, ShardOf, AfterLastSemicolon;
    if item.session.Some? {
      HasSemicolon(item.session.value);
    }
    if Plain(item) {
      RoundAdvances(round, count, queues);
    } else {
      SameShard(item.session.value, round, queues);
    }
  }

  lemma PlainsGrow(items: seq<Item>, item: Item)
    ensures Plains(items + [item]) == Plains(items) + if Plain(item) then 1 else 0
  {
    assert (items + [item])[..|items|] == items;
  }

  lemma WellDealtGrows(items: seq<Item>, at: seq<nat>, item: Item, to: nat, queues: nat)
    requires 0 < queues && WellDealt(items, at, queues) && to < queues
    requires to == if Plain(item) then Plains(items) % queues else Shard(item.session.value, queues)
    ensures WellDealt(items + [item], at + [to], queues)
  {
    hide Plains, Shard, Plain;
    assert (items + [item])[..|items|] == items;
    assert forall j | 0 <= j < |items| :: (items + [item])[..j] == items[..j];
  }

  lemma SubmitDealt(s: System, at: seq<nat>, item: Item)
    requires Delivered(s, at) && Enabled(s, Submit(item))
    ensures WellDealt(s.enqueued + [item], at + [Route(item.session, s.round, |s.workers|).0], |s.workers|)
    ensures Next(s, Submit(item)).round % |s.workers| == Plains(s.enqueued + [item]) % |s.workers|
  {
    hide Route, Plain, Plains, Shard, WellDealt, Waiting, Dealt;
    RoutedTo(item, s.round, Plains(s.enqueued), |s.workers|);
    PlainsGrow(s.enqueued, item);
    WellDealtGrows(s.enqueued, at, item, Route(item.session, s.round, |s.workers|).0, |s.workers|);
  }

  /** The queues dealt to so far, and that of a statement just handed in. */
  ghost function Extended(s: System, at: seq<nat>, e: Event): seq<nat> {
    if e.Submit? && s.workers != [] then at + [Route(e.item.session, s.round, |s.workers|).0] else at
  }

  lemma SubmitDelivers(s: System, at: seq<nat>, item: Item)
    requires Delivered(s, at) && Enabled(s, Submit(item))
    ensures Delivered(Next(s, Submit(item)), Extended(s, at, Submit(item)))
  {
    SubmitDealt(s, at, item);
    var (i, round) := Route(item.session, s.round, |s.workers|);
    var t := Next(s, Submit(item));
    assert t.workers == s.workers[i := SqlQueue.Enqueue(s.workers[i], item)];
    hide Route, WellDealt, Dealt, Plains, Waiting, Next, Enabled;
    forall k | 0 <= k < |s.workers|
      ensures t.workers[k].arrived == Dealt(s.enqueued + [item], at + [i], k)
    {
      DealtGrows(s.enqueued, at, item, i, k);
    }
    WaitingAt(s.workers, i, t.workers[i]);
    Moved(multiset(s.completed), Waiting(s.workers), multiset(s.workers[i].queue), multiset([item]));
  }

  /** Multisets: what is added to one part is added to the whole. */
  lemma Moved(a: multiset<Item>, b: multiset<Item>, c: multiset<Item>, d: multiset<Item>)
    ensures forall b' :: b' + c == b + (c + d) ==> a + b' == a + b + d
  {
    forall b' | b' + c == b + (c + d)
      ensures a + b' == a + b + d
    {
      forall x ensures b'[x] == b[x] + d[x] {
        assert (b' + c)[x] == (b + (c + d))[x];
      }
    }
  }

  lemma WorkDelivers(s: System, at: seq<nat>, i: nat, w: Worker, done: seq<Item>)
    requires Delivered(s, at) && i < |s.workers| && w.arrived == s.workers[i].arrived
    requires done + w.queue == s.workers[i].queue
    ensures Delivered(s.(workers := s.workers[i := w], completed := s.completed + done), at)
  {
    hide WellDealt, Dealt, Plains, Waiting;
    WaitingAt(s.workers, i, w);
    assert multiset(done + w.queue) == multiset(done) + multiset(w.queue);
    Handed(multiset(s.completed), Waiting(s.workers), Waiting(s.workers[i := w]), multiset(w.queue), multiset(done));
    assert multiset(s.completed + done) == multiset(s.completed) + multiset(done);
  }

  /** Multisets: what one part loses and another gains leaves the whole as it was. */
  lemma Handed(a: multiset<Item>, b: multiset<Item>, b': multiset<Item>, c: multiset<Item>, d: multiset<Item>)
    requires b' + (d + c) == b + c
    ensures a + d + b' == a + b
  {
    forall x ensures b'[x] + d[x] == b[x] {
      assert (b' + (d + c))[x] == (b + c)[x];
    }
  }

  lemma ExecuteDelivers(s: System, at: seq<nat>, i: nat, outcome: Outcome, late: bool)
    requires Delivered(s, at) && Enabled(s, Execute(i, outcome, late))
    ensures Delivered(Next(s, Execute(i, outcome, late)), at)
  {
    var w := s.workers[i];
    ExecHistory(w, outcome, late);
    ExecQueue(w, outcome, late);
    var done := if outcome.Lost? then [] else [w.queue[0]];
    assert s.completed + [] == s.completed;
    hide Delivered, Exec;
    WorkDelivers(s, at, i, Exec(w, outcome, late), done);
  }

  lemma ExecQueue(w: Worker, outcome: Outcome, late: bool)
    requires HasWork(w)
    ensures (if outcome.Lost? then [] else [w.queue[0]]) + Exec(w, outcome, late).queue == w.queue
  {
  }

  lemma StepSubmits(s: System, e: Event)
    requires Enabled(s, e)
    ensures Next(s, e).enqueued == s.enqueued + if e.Submit? then [e.item] else []
  {
    hide Route, Exec;
    assert s.enqueued + [] == s.enqueued;
  }

  lemma StepDelivers(s: System, at: seq<nat>, e: Event)
    requires Delivered(s, at) && Enabled(s, e)
    ensures Delivered(Next(s, e), Extended(s, at, e))
  {
    assert s.completed + [] == s.completed;
    hide Delivered, Route, Exec;
    match e
    case Submit(item) => SubmitDelivers(s, at, item);
    case BeginPass(i) => WorkDelivers(s, at, i, Begin(s.workers[i]), []);
    case Execute(i, outcome, late) => ExecuteDelivers(s, at, i, outcome, late);
    case EndPass(i) => WorkDelivers(s, at, i, End(s.workers[i]), []);
  }

  lemma {:induction false} RunDelivers(s: System, at: seq<nat>, events: seq<Event>) returns (at': seq<nat>)
    requires Delivered(s, at) && Run(s, events).Some?
    ensures Delivered(Run(s, events).value, at')
    decreases |events|
  {
    hide Delivered, Next, Enabled, Extended;
    if events == [] {
      at' := at;
    } else {
      StepDelivers(s, at, events[0]);
      at' := RunDelivers(Next(s, events[0]), Extended(s, at, events[0]), events[1..]);
    }
  }

  lemma {:induction false} RunSubmits(s: System, events: seq<Event>)
    requires Run(s, events).Some?
    ensures Run(s, events).value.enqueued == s.enqueued + Submitted(events)
    decreases |events|
  {
    hide Next, Enabled;
    if events == [] {
    } else {
      StepSubmits(s, events[0]);
      RunSubmits(Next(s, events[0]), events[1..]);
      Associates(s.enqueued, if events[0].Submit? then [events[0].item] else [], Submitted(events[1..]));
    }
  }

  lemma {:induction false} NothingWaits(workers: seq<Worker>)
    requires forall w | w in workers :: w.queue == []
    ensures Waiting(workers) == multiset{}
  {
    if workers == [] {
    } else {
      NothingWaits(workers[1..]);
    }
  }

  lemma InitDelivers(queues: nat)
    requires 0 < queues
    ensures Delivered(InitSystem(queues), [])
  {
    NothingWaits(InitSystem(queues).workers);
  }

  /** In every run every statement handed in arrives, whatever its session: `at` gives the queue of
      each.  What has left a queue followed by what waits there is what was dealt to it, in order, and
      what has completed anywhere together with what waits anywhere is what was handed in.  A
      statement of no session, or of one without ';', goes to the queue after that of the last such
      one; one of a session that ends in ";n" goes to queue n modulo their number. */
  lemma EveryStatementArrives(queues: nat, events: seq<Event>) returns (at: seq<nat>)
    requires 0 < queues && Run(InitSystem(queues), events).Some?
    ensures var s, items := Run(InitSystem(queues), events).value, Submitted(events);
            && |s.workers| == queues && |at| == |items|
            && (forall i | 0 <= i < queues ::
                  Departed(s.workers[i].left) + s.workers[i].queue == Dealt(items, at, i))
            && multiset(s.completed) + Waiting(s.workers) == multiset(items)
            && (forall j | 0 <= j < |items| :: at[j] < queues)
            && (forall j | 0 <= j < |items| && Plain(items[j]) :: at[j] == Plains(items[..j]) % queues)
    ensures forall j: nat, prefix: string, n: nat
              | j < |at| && n <= 0x7FFF_FFFF_FFFF_FFFF && Submitted(events)[j].session == Some(prefix + ";" + Dec(n)) ::
              at[j] == n % queues
  {
    InitDelivers(queues);
    InitInv(queues);
    RunKeepsInv(InitSystem(queues), events);
    at := RunDelivers(InitSystem(queues), [], events);
    RunSubmits(InitSystem(queues), events);
    var s, items := Run(InitSystem(queues), events).value, Submitted(events);
    assert s.enqueued == items;
    forall i | 0 <= i < queues
      ensures Departed(s.workers[i].left) + s.workers[i].queue == Dealt(items, at, i)
    {
      assert Inv(s.workers[i]);
    }
    forall j: nat, prefix: string, n: nat
      | j < |at| && n <= 0x7FFF_FFFF_FFFF_FFFF && items[j].session == Some(prefix + ";" + Dec(n))
      ensures at[j] == n % queues
    {
      NumberedSessionsGoRound(prefix, n, 0, queues);
      assert ';' in prefix + ";" + Dec(n);
    }
  }

  // ----- When statements are committed

  /** A success is committed at once exactly when more than 100 have succeeded since the count was
      last reset, or more than 10 have and it is late; only the former resets the count. */
  lemma CommitsWhen(w: Worker, late: bool)
    requires HasWork(w)
    ensures Exec(w, Done, late).db.pending == [] <==> w.count >= 100 || (w.count >= 10 && late)
    ensures Exec(w, Done, late).count == if w.count >= 100 then 0 else w.count + 1
  {
  }

  /** Turns that all succeed while the clock stands still. */
  function Successful(n: nat): seq<Turn> {
    seq(n, i => Turn(Done, false, []))
  }

  /** Over statements that ask for no rollback such a pass commits every time the count passes 100:
      the statements go to the database in order, and those not yet committed are as many as the count
      says. */
  lemma {:induction false} CommitsEvery101(w: Worker, n: nat)
    requires w.phase.Draining? && w.count <= 100 && n <= |w.queue|
    requires forall item | item in w.queue :: !item.rollbackOnFail
    ensures var w', m := Turns(w, Successful(n)), w.count + n;
            && w'.phase.Draining? && w'.queue == w.queue[n..] && w'.count == m % 101
            && w'.db.committed + w'.db.pending == w.db.committed + w.db.pending + w.queue[..n]
            && |w'.db.pending| == if m <= 100 then |w.db.pending| + n else m % 101
    decreases n
  {
    if n == 0 {
      assert w.db.committed + w.db.pending + w.queue[..0] == w.db.committed + w.db.pending;
    } else {
      OneSuccess(w);
      var v := Exec(w, Done, false);
      FirstTurn(w, n);
      hide Exec, Turns;
      CommitsEvery101(v, n - 1);
      assert w.queue[..n] == [w.queue[0]] + v.queue[..n - 1];
      Associates(w.db.committed + w.db.pending, [w.queue[0]], v.queue[..n - 1]);
      if w.count == 100 {
        assert (100 + n) % 101 == (n - 1) % 101;
      }
    }
  }

  lemma OneSuccess(w: Worker)
    requires HasWork(w) && w.count <= 100 && !w.queue[0].rollbackOnFail
    ensures var v := Exec(w, Done, false);
            && v.phase.Draining? && v.queue == w.queue[1..] && v.count == (if w.count == 100 then 0 else w.count + 1)
            && v.db.committed + v.db.pending == w.db.committed + w.db.pending + [w.queue[0]]
            && |v.db.pending| == if w.count == 100 then 0 else |w.db.pending| + 1
  {
  }

  lemma FirstTurn(w: Worker, n: nat)
    requires HasWork(w) && 0 < n
    ensures Turns(w, Successful(n)) == Turns(Exec(w, Done, false), Successful(n - 1))
  {
    assert Successful(n)[1..] == Successful(n - 1);
    assert Successful(n)[0] == Turn(Done, false, []);
    assert AfterTurn(w, Successful(n)[0]) == Exec(w, Done, false);
  }
}
