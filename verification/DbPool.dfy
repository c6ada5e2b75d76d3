/** The database connection pool: a counting semaphore and one lock per list node.

    A client takes a permit, scans the list from its head for a node whose lock is free, works,
    unlocks the node and only then returns the permit.  Clients interleave arbitrarily between
    these steps. */
module DbPool {
  import opened Common

  type Client = nat

  /** What a permit owner is doing.  `Leaving` is the gap between unlocking a node and posting
      the semaphore. */
  datatype Phase = Scanning(slot: nat) | Holding(slot: nat) | Leaving

  datatype Pool = Pool(size: nat, permits: nat, locked: seq<bool>, owners: map<Client, Phase>)

  datatype Event =
    | Wait(c: Client)      // the semaphore wait succeeds
    | WaitFails(c: Client) // the semaphore wait times out
    | TryLock(c: Client)   // one step of the scan
    | NotFound(c: Client)  // the scan ran past the last node: the permit is never given back
    | Unlock(c: Client)
    | Post(c: Client)

  const CODE_NOT_FOUND := -2222
  const CODE_TIMED_OUT := 110
  const DEFAULT_SIZE := 1

  function SizeOf(configured: nat): nat {
    if configured != 0 then configured else DEFAULT_SIZE
  }

  function Init(configured: nat): Pool {
    var n := SizeOf(configured);
    Pool(n, n, seq(n, i => false), map[])
  }

  predicate Enabled(p: Pool, e: Event) {
    match e
    case Wait(c) => p.permits > 0 && c !in p.owners
    case WaitFails(c) => c !in p.owners
    case TryLock(c) => c in p.owners && p.owners[c].Scanning? && p.owners[c].slot < |p.locked|
    case NotFound(c) => c in p.owners && p.owners[c].Scanning? && p.owners[c].slot >= |p.locked|
    case Unlock(c) => c in p.owners && p.owners[c].Holding? && p.owners[c].slot < |p.locked|
    case Post(c) => c in p.owners && p.owners[c].Leaving?
  }

  function Next(p: Pool, e: Event): Pool
    requires Enabled(p, e)
  {
    match e
    case Wait(c) => p.(permits := p.permits - 1, owners := p.owners[c := Scanning(0)])
    case WaitFails(c) => p
    case TryLock(c) =>
      var k := p.owners[c].slot;
      if p.locked[k] then p.(owners := p.owners[c := Scanning(k + 1)])
      else p.(locked := p.locked[k := true], owners := p.owners[c := Holding(k)])
    case NotFound(c) => p.(owners := p.owners - {c})
    case Unlock(c) =>
      p.(locked := p.locked[p.owners[c].slot := false], owners := p.owners[c := Leaving])
    case Post(c) => p.(permits := p.permits + 1, owners := p.owners - {c})
  }

  /** The state after a run, if every event of it was possible when it came. */
  function Run(p: Pool, events: seq<Event>): Option<Pool>
    decreases |events|
  {
    if events == [] then Some(p)
    else if Enabled(p, events[0]) then Run(Next(p, events[0]), events[1..])
    else None
  }

  /** Clients that hold, or have scanned as far as, slot `k` or a later one. */
  function Ahead(p: Pool, k: nat): set<Client> {
    set c | c in p.owners && !p.owners[c].Leaving? && p.owners[c].slot >= k
  }

  ghost predicate HeldBy(p: Pool, c: Client, k: nat) {
    c in p.owners && p.owners[c] == Holding(k)
  }

  ghost predicate Inv(p: Pool) {
    && |p.locked| == p.size
    && p.permits + |p.owners| == p.size
    && (forall c | c in p.owners && p.owners[c].Holding? ::
          p.owners[c].slot < p.size && p.locked[p.owners[c].slot])
    && (forall c, d | c in p.owners && d in p.owners && c != d && p.owners[c].Holding? ::
          p.owners[c] != p.owners[d])
    && (forall k | 0 <= k < p.size && p.locked[k] :: exists c :: HeldBy(p, c, k))
    // The scan argument: slots from k on never have more clients at or past them than slots.
    && (forall k | 0 <= k <= p.size :: |Ahead(p, k)| <= p.size - k)
  }

  lemma SubsetSize<T>(a: set<T>, b: set<T>)
    requires a <= b
    ensures |a| <= |b|
  {
    assert b == a + (b - a);
  }

  lemma InitInv(configured: nat)
    ensures Inv(Init(configured)) && Init(configured).size > 0
  {
    var p := Init(configured);
    forall k | 0 <= k <= p.size ensures |Ahead(p, k)| <= p.size - k {
      assert Ahead(p, k) == {};
    }
  }

  lemma WaitKeepsInv(p: Pool, c: Client)
    requires Inv(p) && Enabled(p, Wait(c))
    ensures Inv(Next(p, Wait(c)))
  {
    var q := Next(p, Wait(c));
    forall k | 0 <= k <= q.size ensures |Ahead(q, k)| <= q.size - k {
      if k == 0 {
        SubsetSize(Ahead(q, 0), q.owners.Keys);
      } else {
        assert Ahead(q, k) == Ahead(p, k);
      }
    }
    forall k | 0 <= k < q.size && q.locked[k] ensures exists d :: HeldBy(q, d, k) {
      var d :| HeldBy(p, d, k);
      assert HeldBy(q, d, k);
    }
  }

  /** A client steps past slot `j` only because another one holds it: both were at `j`, and
      neither was beyond it. */
  lemma StepPastCrowd(p: Pool, c: Client, k: nat)
    requires Inv(p) && Enabled(p, TryLock(c)) && p.locked[p.owners[c].slot] && k <= p.size
    ensures |Ahead(Next(p, TryLock(c)), k)| <= p.size - k
  {
    var q := Next(p, TryLock(c));
    var j := p.owners[c].slot;
    if k == j + 1 {
      var h :| HeldBy(p, h, j);
      assert Ahead(q, k) == Ahead(p, k) + {c};
      SubsetSize(Ahead(p, k) + {c} + {h}, Ahead(p, j));
    } else {
      assert Ahead(q, k) == Ahead(p, k);
    }
  }

  lemma StepPastKeepsInv(p: Pool, c: Client)
    requires Inv(p) && Enabled(p, TryLock(c)) && p.locked[p.owners[c].slot]
    ensures Inv(Next(p, TryLock(c)))
  {
    var q := Next(p, TryLock(c));
    assert q.owners.Keys == p.owners.Keys;
    forall k | 0 <= k <= q.size ensures |Ahead(q, k)| <= q.size - k {
      StepPastCrowd(p, c, k);
    }
    forall k | 0 <= k < q.size && q.locked[k] ensures exists d :: HeldBy(q, d, k) {
      var d :| HeldBy(p, d, k);
      assert HeldBy(q, d, k);
    }
  }

  lemma TakeKeepsInv(p: Pool, c: Client)
    requires Inv(p) && Enabled(p, TryLock(c)) && !p.locked[p.owners[c].slot]
    ensures Inv(Next(p, TryLock(c)))
  {
    var q := Next(p, TryLock(c));
    forall k | 0 <= k <= q.size ensures |Ahead(q, k)| <= q.size - k {
      assert Ahead(q, k) == Ahead(p, k);
    }
    forall k | 0 <= k < q.size && q.locked[k] ensures exists d :: HeldBy(q, d, k) {
      if k == p.owners[c].slot {
        assert HeldBy(q, c, k);
      } else {
        var d :| HeldBy(p, d, k);
        assert HeldBy(q, d, k);
      }
    }
  }

  lemma ReleaseKeepsInv(p: Pool, e: Event)
    requires Inv(p) && Enabled(p, e) && (e.Unlock? || e.Post?)
    ensures Inv(Next(p, e))
  {
    var q := Next(p, e);
    forall k | 0 <= k <= q.size ensures |Ahead(q, k)| <= q.size - k {
      SubsetSize(Ahead(q, k), Ahead(p, k));
    }
    forall k | 0 <= k < q.size && q.locked[k] ensures exists d :: HeldBy(q, d, k) {
      var d :| HeldBy(p, d, k);
      assert HeldBy(q, d, k);
    }
  }

  /** A client that won the semaphore never runs off the end of the list. */
  lemma ScanNeverFails(p: Pool, c: Client)
    requires Inv(p)
    ensures !Enabled(p, NotFound(c))
  {
    if Enabled(p, NotFound(c)) {
      SubsetSize({c}, Ahead(p, p.size));
    }
  }

  lemma StepKeepsInv(p: Pool, e: Event)
    requires Inv(p) && Enabled(p, e)
    ensures Inv(Next(p, e)) && Next(p, e).size == p.size && !e.NotFound?
  {
    match e
    case Wait(c) => WaitKeepsInv(p, c);
    case WaitFails(_) =>
    case TryLock(c) => if p.locked[p.owners[c].slot] { StepPastKeepsInv(p, c); } else { TakeKeepsInv(p, c); }
    case NotFound(c) => ScanNeverFails(p, c);
    case Unlock(_) => ReleaseKeepsInv(p, e);
    case Post(_) => ReleaseKeepsInv(p, e);
  }

  lemma {:induction false} RunKeepsInv(p: Pool, events: seq<Event>)
    requires Inv(p) && Run(p, events).Some?
    ensures Inv(Run(p, events).value) && Run(p, events).value.size == p.size
    ensures forall e | e in events :: !e.NotFound?
    decreases |events|
  {
    if events == [] {
    } else {
      StepKeepsInv(p, events[0]);
      RunKeepsInv(Next(p, events[0]), events[1..]);
    }
  }

  /** Safety of every interleaving of any number of clients. */
  lemma EveryRunIsSafe(configured: nat, events: seq<Event>)
    requires Run(Init(configured), events).Some?
    ensures var p := Run(Init(configured), events).value;
            && p.permits + |p.owners| == |p.locked| == (if configured == 0 then 1 else configured)
            && (forall k | 0 <= k < |p.locked| && p.locked[k] :: exists c :: HeldBy(p, c, k))
            && (forall c, d, k | HeldBy(p, c, k) && HeldBy(p, d, k) :: c == d)
            && (forall c | c in p.owners && p.owners[c].Scanning? :: p.owners[c].slot < |p.locked|)
            && (forall c :: !Enabled(p, NotFound(c)))
    ensures forall e | e in events :: !e.NotFound?
  {
    InitInv(configured);
    RunKeepsInv(Init(configured), events);
    var p := Run(Init(configured), events).value;
    forall c ensures !Enabled(p, NotFound(c))
             ensures c in p.owners && p.owners[c].Scanning? ==> p.owners[c].slot < |p.locked|
    {
      ScanNeverFails(p, c);
    }
  }

  /** When the last client has posted, the pool is as it was built, with every node unlocked and a
      permit for each: nothing leaks. */
  lemma QuiescentPoolIsFull(configured: nat, events: seq<Event>)
    requires Run(Init(configured), events).Some?
    requires Run(Init(configured), events).value.owners == map[]
    ensures var n, p := if configured == 0 then 1 else configured, Run(Init(configured), events).value;
            && p == Init(configured)
            && p.permits == |p.locked| == n && forall k | 0 <= k < n :: !p.locked[k]
  {
    InitInv(configured);
    RunKeepsInv(Init(configured), events);
    var p := Run(Init(configured), events).value;
    assert p.locked == Init(configured).locked;
  }

  // ----- Everybody gets through

  /** How many steps of its own a permit owner is at most away from being out again. */
  function StepsLeft(p: Pool, c: Client): nat {
    if c !in p.owners then 0
    else match p.owners[c]
      case Scanning(k) => (if k < |p.locked| then |p.locked| - k else 0) + 2
      case Holding(_) => 2
      case Leaving => 1
  }

  /** A permit owner can always step; each of its own steps brings it closer to the end, and no step of
      another holds it up.  A newcomer gets a permit exactly while there are fewer owners than nodes. */
  lemma OwnersGetThrough(p: Pool, c: Client)
    requires Inv(p)
    ensures c in p.owners ==> exists e :: Enabled(p, e) && e.c == c
    ensures c in p.owners ==> forall e | Enabled(p, e) ::
              if e.c == c then StepsLeft(Next(p, e), c) < StepsLeft(p, c) else StepsLeft(Next(p, e), c) == StepsLeft(p, c)
    ensures c !in p.owners ==> (Enabled(p, Wait(c)) <==> |p.owners| < |p.locked|)
  {
    if c in p.owners {
      ScanNeverFails(p, c);
      assert Enabled(p, match p.owners[c] case Scanning(_) => TryLock(c) case Holding(_) => Unlock(c) case Leaving => Post(c));
    }
  }

  /** Releasing a connection that is no longer held: the node is unlocked and the semaphore
      posted all the same. */
  function StrayRelease(p: Pool, slot: nat): Pool
    requires slot < |p.locked|
  {
    p.(permits := p.permits + 1, locked := p.locked[slot := false])
  }

  lemma {:induction false} RunConcat(p: Pool, a: seq<Event>, b: seq<Event>)
    requires Run(p, a).Some?
    ensures Run(p, a + b) == Run(Run(p, a).value, b)
    decreases |a|
  {
    if a == [] {
      assert a + b == b;
    } else {
      assert (a + b)[1..] == a[1..] + b;
      RunConcat(Next(p, a[0]), a[1..], b);
    }
  }

  /** A client scans past the locked nodes before slot `j`. */
  lemma {:induction false} ScanPast(p: Pool, c: Client, slot: nat, j: nat) returns (events: seq<Event>)
    requires c in p.owners && p.owners[c] == Scanning(slot) && slot <= j <= |p.locked|
    requires forall k | 0 <= k < j :: p.locked[k]
    ensures Run(p, events) == Some(p.(owners := p.owners[c := Scanning(j)]))
    decreases j - slot
  {
    if slot == j {
      events := [];
      assert p.owners[c := Scanning(j)] == p.owners;
    } else {
      var q := Next(p, TryLock(c));
      var rest := ScanPast(q, c, slot + 1, j);
      events := [TryLock(c)] + rest;
      assert events[1..] == rest;
      assert q.owners[c := Scanning(j)] == p.owners[c := Scanning(j)];
    }
  }

  /** Clients `0` to `j - 1` hold the first `j` nodes, and there is a permit more than nodes left. */
  ghost predicate OneTooMany(p: Pool, j: nat) {
    && j <= |p.locked|
    && p.permits == |p.locked| + 1 - j
    && (forall k | 0 <= k < |p.locked| :: p.locked[k] <==> k < j)
    && (forall c | c in p.owners :: c < j)
  }

  lemma {:induction false} ScanRunsOff(p: Pool, j: nat) returns (events: seq<Event>, c: Client)
    requires OneTooMany(p, j)
    ensures Run(p, events).Some? && Enabled(Run(p, events).value, NotFound(c))
    decreases |p.locked| - j
  {
    var waiting := Next(p, Wait(j));
    var scan := ScanPast(waiting, j, 0, j);
    var arrived := waiting.(owners := waiting.owners[j := Scanning(j)]);
    events := [Wait(j)] + scan;
    assert events[1..] == scan;
    assert Run(p, events) == Some(arrived);
    if j == |p.locked| {
      c := j;
    } else {
      var taken := Next(arrived, TryLock(j));
      assert OneTooMany(taken, j + 1);
      var rest;
      rest, c := ScanRunsOff(taken, j + 1);
      var more := [TryLock(j)] + rest;
      assert more[1..] == rest;
      RunConcat(p, events, more);
      events := events + more;
    }
  }

  /** Why every client must release exactly once: after a release of a connection that is not held
      the permits no longer match the nodes, and in a pool of any size a run leads off the end of
      the list. */
  lemma StrayReleaseBreaksTheScan(configured: nat, slot: nat) returns (events: seq<Event>, c: Client)
    requires slot < SizeOf(configured)
    ensures forall p: Pool | Inv(p) && slot < p.size :: !Inv(StrayRelease(p, slot))
    ensures var p := Run(StrayRelease(Init(configured), slot), events);
            p.Some? && Enabled(p.value, NotFound(c))
  {
    events, c := ScanRunsOff(StrayRelease(Init(configured), slot), 0);
  }

  /** The shared pool as the threads see it. */
  class ConnectionPool {
    var permits: nat
    const nodes: array<bool>        // each node's lock
    var owners: map<Client, Phase>  // where each permit owner is in its own code

    function State(): Pool
      reads this, nodes
    {
      Pool(nodes.Length, permits, nodes[..], owners)
    }

    constructor (configured: nat)
      ensures State() == Init(configured) && Inv(State())
      ensures permits == nodes.Length == (if configured == 0 then 1 else configured)
      ensures owners == map[] && forall k | 0 <= k < nodes.Length :: !nodes[k]
      ensures fresh(nodes)
    {
      var size := if configured != 0 then configured else DEFAULT_SIZE;
      permits := size;
      owners := map[];
      nodes := new bool[size];
      new;
      for i := 0 to size
        invariant permits == size && owners == map[]
        invariant forall j | 0 <= j < i :: !nodes[j]
      {
        nodes[i] := false;
      }
      assert nodes[..] == Init(configured).locked;
      InitInv(configured);
    }

    /** The semaphore wait: succeeds exactly when a permit is left. */
    method SemWait(c: Client) returns (ok: bool)
      requires c !in owners
      modifies this
      ensures ok == (old(permits) > 0)
      ensures State() == Next(old(State()), if ok then Wait(c) else WaitFails(c))
    {
      ok := permits > 0;
      if ok {
        permits := permits - 1;
        owners := owners[c := Scanning(0)];
      }
    }

    /** Tries the lock of the node the client has reached. */
    method TryLockNode(c: Client) returns (taken: bool)
      requires Enabled(State(), TryLock(c))
      modifies this, nodes
      ensures taken == !old(State()).locked[old(owners)[c].slot]
      ensures State() == Next(old(State()), TryLock(c))
    {
      var slot := owners[c].slot;
      taken := !nodes[slot];
      if taken {
        nodes[slot] := true;
        owners := owners[c := Holding(slot)];
      } else {
        owners := owners[c := Scanning(slot + 1)];
      }
    }

    /** First half of a release. */
    method UnlockNode(c: Client)
      requires Enabled(State(), Unlock(c))
      modifies this, nodes
      ensures State() == Next(old(State()), Unlock(c))
    {
      nodes[owners[c].slot] := false;
      owners := owners[c := Leaving];
    }

    /** Second half of a release. */
    method SemPost(c: Client)
      requires Enabled(State(), Post(c))
      modifies this
      ensures State() == Next(old(State()), Post(c))
    {
      permits := permits + 1;
      owners := owners - {c};
    }

    /** Other clients' steps, in the order given; a step that is not possible at its turn does
        not happen, and neither does one of `self`. */
    method Interfere(self: Client, others: seq<Event>)
      requires Inv(State())
      modifies this, nodes
      ensures Inv(State())
      ensures (self in owners) == (self in old(owners))
      ensures self in owners ==> owners[self] == old(owners[self])
      ensures others == [] ==> State() == old(State())
    {
      for i := 0 to |others|
        invariant Inv(State())
        invariant (self in owners) == (self in old(owners))
        invariant self in owners ==> owners[self] == old(owners[self])
        invariant i == 0 ==> State() == old(State())
      {
        if others[i].c != self && Enabled(State(), others[i]) {
          StepKeepsInv(State(), others[i]);
          match others[i]
          case Wait(c) => var _ := SemWait(c);
          case TryLock(c) => var _ := TryLockNode(c);
          case Unlock(c) => UnlockNode(c);
          case Post(c) => SemPost(c);
          case _ =>
        }
      }
    }

    /** Obtaining a connection while others interfere before every step of the scan: the result
        is a timeout or a node held by this client, never the error code; and no timeout if a permit is
        left and nobody comes before. */
    method Get(c: Client, before: seq<Event>, others: nat -> seq<Event>) returns (code: int, slot: nat)
      requires Inv(State()) && c !in owners
      modifies this, nodes
      ensures Inv(State())
      ensures code == 0 || code == 110
      ensures code == 0 ==> HeldBy(State(), c, slot)
      ensures code == 110 ==> c !in owners
      ensures before == [] && old(permits) > 0 ==> code == 0
    {
      hide Inv, Ahead;
      Interfere(c, before);
      slot := 0;
      StepKeepsInv(State(), if permits > 0 then Wait(c) else WaitFails(c));
      var ok := SemWait(c);
      if !ok {
        return CODE_TIMED_OUT, slot;
      }
      var found := false;
      while slot < nodes.Length && !found
        invariant Inv(State()) && c in owners && slot <= nodes.Length
        invariant owners[c] == if found then Holding(slot) else Scanning(slot)
        decreases nodes.Length - slot, !found
      {
        Interfere(c, others(slot));
        StepKeepsInv(State(), TryLock(c));
        found := TryLockNode(c);
        if !found {
          slot := slot + 1;
        }
      }
      code := if found then 0 else CODE_NOT_FOUND;
      ScanNeverFails(State(), c);
    }

    /** Giving the connection back; others may run between the unlock and the post. */
    method Release(c: Client, between: seq<Event>)
      requires Inv(State()) && Enabled(State(), Unlock(c))
      modifies this, nodes
      ensures Inv(State()) && c !in owners
    {
      StepKeepsInv(State(), Unlock(c));
      UnlockNode(c);
      Interfere(c, between);
      StepKeepsInv(State(), Post(c));
      SemPost(c);
    }
  }
}
