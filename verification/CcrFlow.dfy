/** How credit control requests use the session cache.

    A handler looks into the cache several times before it stores anything, and each look is a
    critical section of its own: other handlers may change the cache in between. */
module CcrFlow {
  import opened Common
  import opened SessionCache
  import opened SessionLinks
  import opened SessionStore

  /** Which dialect the peer with a given host and realm speaks. */
  type Peers = (string, string) -> Dialect

  function DialectOf(peers: Peers, i: SessionInfo): Dialect {
    peers(i.originHost.v, i.originRealm.v)
  }

  /** What the base protocol requires every request to carry. */
  predicate WellFormed(i: SessionInfo) {
    i.sessionId != "" && !i.originHost.isNull && !i.originRealm.isNull
  }

  /** `profile` is the subscriber that the profiles give for an initial request's subscription;
      `stored` tells whether an update's event triggers ask for the cache to be updated. */
  datatype Request = Initial(i: SessionInfo, q: RequestInfo, profile: string)
                   | Update(i: SessionInfo, q: RequestInfo, stored: bool)
                   | Termination(i: SessionInfo)

  /** A request's data once completed, and the core session it belongs to. */
  datatype Prepared = Prepared(info: SessionInfo, request: RequestInfo, core: Option<Id>)

  // ----- One handler, section by section

  /** The critical section a handler comes to next. */
  datatype Place =
    | ReadOwn(i: SessionInfo, q: RequestInfo)              // an update's own record
    | ReadList(i: SessionInfo, q: RequestInfo)             // the sessions listed at the address
    | CheckCore(i: SessionInfo, q: RequestInfo, core: Id)  // is the last one live, and of this subscriber?
    | TakeCore(i: SessionInfo, q: RequestInfo, core: Id)   // complete the request from it
    | Store(p: Prepared)
    | Drop(id: Id)

  datatype Handler = Handler(dialect: Dialect, stored: bool, at: Place)

  predicate SeeksCore(d: Dialect) {
    d.CiscoSce? || d.Procera?
  }

  function Seek(d: Dialect, i: SessionInfo, q: RequestInfo): Place {
    if SeeksCore(d) then ReadList(i, q) else Store(Prepared(i, q, None))
  }

  /** An initial request's data with the subscriber of the profile, where the profiles are asked. */
  function Identified(d: Dialect, i: SessionInfo, profile: string): SessionInfo {
    if d.HuaweiUgw? || d.Ericsson? || d.CiscoSce? then i.(subscriberId := profile) else i
  }

  function Begin(m: Request, peers: Peers): Handler {
    var d := DialectOf(peers, m.i);
    match m
    case Initial(i, q, profile) => Handler(d, true, Seek(d, Identified(d, i, profile), q))
    case Update(i, q, stored) => Handler(d, stored, ReadOwn(i, q))
    case Termination(i) => Handler(d, true, Drop(i.sessionId))
  }

  predicate Looks(at: Place) {
    !at.Store? && !at.Drop?
  }

  /** Where a look into the cache leads. A core session that has died since it was checked completes
      nothing but is kept as the one to link to. */
  function Look(c: Cache, h: Handler): Place
    requires Looks(h.at)
  {
    match h.at
    case ReadOwn(i, q) =>
      if i.sessionId in c.sessions then
        Seek(h.dialect, FillInfo(c.sessions[i.sessionId], i.sessionId, i), FillRequest(c.sessions[i.sessionId], q))
      else Seek(h.dialect, i, q)
    case ReadList(i, q) =>
      var ids := IpList(c, i.framedIp.v);
      if ids == [] then Store(Prepared(i, q, None)) else CheckCore(i, q, ids[|ids| - 1])
    case CheckCore(i, q, core) =>
      if core in c.sessions && (h.dialect.CiscoSce? ==> SubscriberText(c.sessions[core]) == i.subscriberId)
      then TakeCore(i, q, core) else Store(Prepared(i, q, None))
    case TakeCore(i, q, core) =>
      Store(if core in c.sessions
            then Prepared(FillInfo(c.sessions[core], core, i), FillRequest(c.sessions[core], q), Some(core))
            else Prepared(i, q, Some(core)))
  }

  function Stored(p: Prepared, peers: Peers): Event {
    Insert(p.info.sessionId, ToRecord(p.info, Some(p.request)), p.core, DialectOf(peers, p.info))
  }

  /** What the handler's next section does to the cache. */
  function Effect(h: Handler, peers: Peers): Option<Event> {
    match h.at
    case Store(p) => if h.stored && p.info.sessionId != "" then Some(Stored(p, peers)) else None
    case Drop(id) => Some(Remove(id))
    case _ => None
  }

  function Affected(c: Cache, e: Option<Event>): Cache {
    if e.Some? then Next(c, e.value) else c
  }

  function Rank(at: Place): nat {
    match at
    case ReadOwn(_, _) => 4
    case ReadList(_, _) => 3
    case CheckCore(_, _, _) => 2
    case TakeCore(_, _, _) => 1
    case _ => 0
  }

  /** The cache once the handler is through, when `others(k)` happens to it before the handler's
      section number `k`. */
  function Proceed(c: Cache, h: Handler, peers: Peers, others: nat -> seq<Event>, k: nat): Cache
    decreases Rank(h.at)
  {
    var c' := Run(c, others(k));
    if Looks(h.at) then Proceed(c', h.(at := Look(c', h)), peers, others, k + 1)
    else Affected(c', Effect(h, peers))
  }

  // ----- The handler in place

  /** The cache operations of other threads. */
  method Meanwhile(store: Store, events: seq<Event>)
    modifies store
    ensures store.State() == Run(old(store.State()), events)
  {
    hide InsertLocal, RemoveLocal;
    var i := 0;
    assert events[0..] == events;
    while i < |events|
      invariant i <= |events|
      invariant Run(store.State(), events[i..]) == Run(old(store.State()), events)
    {
      assert events[i..][1..] == events[i + 1..];
      match events[i] {
        case Insert(id, r, parent, dialect) => store.InsertLocal(id, r, parent, dialect);
        case Remove(id) => var _ := store.RemoveLocal(id);
      }
      i := i + 1;
    }
  }

  /** Finds the core session of a request: the last one listed at its address, if it is still live
      when it is looked up and, for SCE, of the same subscriber. */
  method FindCore(store: Store, ghost h: Handler, i: SessionInfo, q: RequestInfo, sameSubscriber: bool,
                  ghost peers: Peers, others: nat -> seq<Event>, k: nat) returns (core: Option<Id>, next: nat)
    requires h.at == ReadList(i, q) && sameSubscriber == h.dialect.CiscoSce?
    modifies store
    ensures Proceed(old(store.State()), h, peers, others, k) ==
            Proceed(store.State(), h.(at := if core.Some? then TakeCore(i, q, core.value) else Store(Prepared(i, q, None))),
                    peers, others, next)
  {
    hide Run;
    core, next := None, k + 1;
    Meanwhile(store, others(k));
    var ids := store.SessionList(i.framedIp.v);
    if ids == [] {
      return;
    }
    var last := ids[|ids| - 1];
    Meanwhile(store, others(k + 1));
    next := k + 2;
    var blank := SessionInfo("", "", NULL_FIELD, NULL_FIELD, NULL_FIELD, NULL_FIELD, NULL_FIELD, NULL_FIELD, NULL_FIELD);
    var ok, found, _, _ := store.Get(last, Some(blank), None, None);
    if ok && (!sameSubscriber || found.value.subscriberId == i.subscriberId) {
      core := Some(last);
    }
  }

  /** Finds the core session and completes the request from it. */
  method JoinCore(store: Store, ghost h: Handler, i: SessionInfo, q: RequestInfo, sameSubscriber: bool,
                  ghost peers: Peers, others: nat -> seq<Event>, k: nat) returns (p: Prepared, next: nat)
    requires h.at == ReadList(i, q) && sameSubscriber == h.dialect.CiscoSce?
    modifies store
    ensures Proceed(old(store.State()), h, peers, others, k) ==
            Proceed(store.State(), h.(at := Store(p)), peers, others, next)
  {
    hide Run, FillInfo, FillRequest;
    var core;
    core, next := FindCore(store, h, i, q, sameSubscriber, peers, others, k);
    p := Prepared(i, q, None);
    if core.Some? {
      Meanwhile(store, others(next));
      var ok, i', q', _ := store.Get(core.value, Some(i), Some(q), None);
      p := Prepared(i'.value, q'.value, core);
      next := next + 1;
    }
  }

  /** The initial request, with others at work before each of its sections. */
  method ServeInitial(store: Store, i: SessionInfo, q: RequestInfo, profile: string, peers: Peers,
                      others: nat -> seq<Event>)
    modifies store
    ensures store.State() == Proceed(old(store.State()), Begin(Initial(i, q, profile), peers), peers, others, 0)
  {
    var d := DialectOf(peers, i);
    var p, next := Prepared(i, q, None), 0;
    ghost var h := Begin(Initial(i, q, profile), peers);
    hide Proceed;
    match d {
      case HuaweiUgw | Ericsson => p := p.(info := i.(subscriberId := profile));
      case CiscoSce => p, next := JoinCore(store, h, i.(subscriberId := profile), q, true, peers, others, 0);
      case Procera => p, next := JoinCore(store, h, i, q, false, peers, others, 0);
      case _ =>
    }
    StorePrepared(store, h.(at := Store(p)), p, peers, others, next);
  }

  method StorePrepared(store: Store, ghost h: Handler, p: Prepared, peers: Peers, others: nat -> seq<Event>, k: nat)
    requires h.at == Store(p) && h.stored
    modifies store
    ensures store.State() == Proceed(old(store.State()), h, peers, others, k)
  {
    hide Run, InsertLocal, ToRecord;
    Meanwhile(store, others(k));
    store.Insert(p.info.sessionId, p.info, Some(p.request), p.core, peers);
  }

  method ServeUpdate(store: Store, i: SessionInfo, q: RequestInfo, stored: bool, peers: Peers,
                     others: nat -> seq<Event>)
    modifies store
    ensures store.State() == Proceed(old(store.State()), Begin(Update(i, q, stored), peers), peers, others, 0)
  {
    hide Run, FillInfo, FillRequest;
    var d := DialectOf(peers, i);
    ghost var h := Begin(Update(i, q, stored), peers);
    Meanwhile(store, others(0));
    var ok, i', q', _ := store.Get(i.sessionId, Some(i), Some(q), None);
    var i1, q1 := i'.value, q'.value;
    h := h.(at := Look(store.State(), h));
    assert Proceed(old(store.State()), Begin(Update(i, q, stored), peers), peers, others, 0)
        == Proceed(store.State(), h, peers, others, 1);
    hide Proceed, Look;
    var p, next := Prepared(i1, q1, None), 1;
    match d {
      case CiscoSce => p, next := JoinCore(store, h, i1, q1, true, peers, others, 1);
      case Procera => p, next := JoinCore(store, h, i1, q1, false, peers, others, 1);
      case _ =>
    }
    if stored {
      StorePrepared(store, h.(at := Store(p)), p, peers, others, next);
    } else {
      Meanwhile(store, others(next));
      NothingStored(h.(at := Store(p)), peers, others, next);
    }
  }

  lemma NothingStored(h: Handler, peers: Peers, others: nat -> seq<Event>, k: nat)
    requires h.at.Store? && !h.stored
    ensures forall c :: Proceed(c, h, peers, others, k) == Run(c, others(k))
  {
    hide Run;
  }

  method ServeTermination(store: Store, i: SessionInfo, peers: Peers, others: nat -> seq<Event>)
    modifies store
    ensures store.State() == Proceed(old(store.State()), Begin(Termination(i), peers), peers, others, 0)
  {
    hide Run;
    Meanwhile(store, others(0));
    var _ := store.RemoveLocal(i.sessionId);
  }

  // ----- A handler that nobody disturbs

  function Join(c: Cache, i: SessionInfo, q: RequestInfo, core: Option<Id>): Prepared
    requires core.Some? ==> core.value in c.sessions
  {
    match core
    case None => Prepared(i, q, None)
    case Some(p) => Prepared(FillInfo(c.sessions[p], p, i), FillRequest(c.sessions[p], q), core)
  }

  /** The core session of a request: for SCE at its address and of its subscriber, for Procera at
      its address. */
  function CoreFor(c: Cache, d: Dialect, subscriber: string, ip: string): (core: Option<Id>)
    ensures core.Some? ==> core.value in c.sessions && core == FindCoreByIp(c, ip) && SeeksCore(d)
    ensures core.Some? && d.CiscoSce? ==> SubscriberText(c.sessions[core.value]) == subscriber
    ensures d.Procera? ==> core == FindCoreByIp(c, ip)
    ensures d.CiscoSce? ==> core == FindCoreOfSubscriber(c, subscriber, ip)
  {
    match d
    case CiscoSce => FindCoreOfSubscriber(c, subscriber, ip)
    case Procera => FindCoreByIp(c, ip)
    case _ => None
  }

  /** A request's data before its core session is sought. */
  function Asked(c: Cache, m: Request, peers: Peers): SessionInfo {
    match m
    case Initial(i, _, profile) => Identified(DialectOf(peers, i), i, profile)
    case Update(i, _, _) => if i.sessionId in c.sessions then FillInfo(c.sessions[i.sessionId], i.sessionId, i) else i
    case Termination(i) => i
  }

  function AskedRequest(c: Cache, m: Request): RequestInfo
    requires !m.Termination?
  {
    if m.Update? && m.i.sessionId in c.sessions then FillRequest(c.sessions[m.i.sessionId], m.q) else m.q
  }

  function CoreOf(c: Cache, m: Request, peers: Peers): (core: Option<Id>)
    ensures core.Some? ==> core.value in c.sessions
  {
    CoreFor(c, DialectOf(peers, m.i), Asked(c, m, peers).subscriberId, Asked(c, m, peers).framedIp.v)
  }

  function Prepare(c: Cache, m: Request, peers: Peers): Prepared
    requires !m.Termination?
  {
    Join(c, Asked(c, m, peers), AskedRequest(c, m), CoreOf(c, m, peers))
  }

  /** What an undisturbed handler does to the cache. */
  function EventOf(c: Cache, m: Request, peers: Peers): Option<Event> {
    match m
    case Initial(_, _, _) => Effect(Handler(DialectOf(peers, m.i), true, Store(Prepare(c, m, peers))), peers)
    case Update(_, _, stored) => Effect(Handler(DialectOf(peers, m.i), stored, Store(Prepare(c, m, peers))), peers)
    case Termination(i) => Some(Remove(i.sessionId))
  }

  /** The three looks for a core session in one. */
  lemma SeekIsJoin(c: Cache, h: Handler, i: SessionInfo, q: RequestInfo, peers: Peers, k: nat)
    requires h.at == Seek(h.dialect, i, q)
    ensures Proceed(c, h, peers, n => [], k) ==
            Affected(c, Effect(h.(at := Store(Join(c, i, q, CoreFor(c, h.dialect, i.subscriberId, i.framedIp.v)))), peers))
  {
    hide Affected, Effect, FillInfo, FillRequest;
    assert Run(c, []) == c;
    if SeeksCore(h.dialect) && IpList(c, i.framedIp.v) != [] {
      var h1 := h.(at := Look(c, h));
      var h2 := h1.(at := Look(c, h1));
      assert Proceed(c, h, peers, n => [], k) == Proceed(c, h1, peers, n => [], k + 1) == Proceed(c, h2, peers, n => [], k + 2);
      if h2.at.TakeCore? {
        assert Proceed(c, h2, peers, n => [], k + 2) == Proceed(c, h2.(at := Look(c, h2)), peers, n => [], k + 3);
      }
    }
  }

  /** A handler that nobody disturbs acts as if it were a single step. */
  lemma AloneIsAtomic(c: Cache, m: Request, peers: Peers)
    ensures Proceed(c, Begin(m, peers), peers, n => [], 0) == Affected(c, EventOf(c, m, peers))
  {
    var h := Begin(m, peers);
    assert m.Termination? ==> Effect(h, peers) == EventOf(c, m, peers);
    hide Affected, Effect, FillInfo, FillRequest, CoreFor, Join;
    assert Run(c, []) == c;
    if m.Initial? {
      SeekIsJoin(c, h, Asked(c, m, peers), m.q, peers, 0);
    } else if m.Update? {
      var h1 := h.(at := Look(c, h));
      assert Proceed(c, h, peers, n => [], 0) == Proceed(c, h1, peers, n => [], 1);
      SeekIsJoin(c, h1, Asked(c, m, peers), AskedRequest(c, m), peers, 1);
    }
  }
}
