/** Requests served one after another, each without disturbance. */
module CcrOrderly {
  import opened Common
  import opened SessionCache
  import opened SessionIndexes
  import opened SessionLinks
  import opened SessionRecords
  import opened SessionRuns
  import opened CcrFlow
  import opened CcrRuns
  import opened CcrDiscipline

  function Serve(w: World, m: Request, peers: Peers): World {
    Changed(w, EventOf(w.c, m, peers))
  }

  /** Whether serving the request stores something. */
  predicate Stores(m: Request) {
    m.Initial? || (m.Update? && m.stored)
  }

  lemma StoredIsPrepared(w: World, m: Request, peers: Peers)
    requires Stores(m) && WellFormed(m.i)
    ensures EventOf(w.c, m, peers) == Some(Stored(Prepare(w.c, m, peers), peers))
    ensures WellFormed(Prepare(w.c, m, peers).info) && Prepare(w.c, m, peers).info.sessionId == m.i.sessionId
    ensures Prepare(w.c, m, peers).core.Some? ==> !IsCore(DialectOf(peers, Prepare(w.c, m, peers).info))
  {
    AskedKeepsIdentity(w.c, m, peers);
    JoinKeepsIdentity(w.c, Asked(w.c, m, peers), AskedRequest(w.c, m), CoreOf(w.c, m, peers));
    hide Join, Asked, AskedRequest, Stored;
  }

  /** Serving a request that stores something keeps all five maps right if and only if it keeps the
      keys; of a new session nothing is asked. */
  lemma ServeKeepsInvIff(w: World, m: Request, peers: Peers)
    requires Inv(w) && Stores(m) && WellFormed(m.i)
    ensures Inv(Serve(w, m, peers)) <==> KeepsKeys(w, m, peers)
  {
    StoredIsPrepared(w, m, peers);
    PreparedFitsIff(w, m, peers);
    StoreKeepsInvIff(w, Handler(DialectOf(peers, m.i), true, Store(Prepare(w.c, m, peers))), peers);
    hide Inv, Step, Prepare, KeepsKeys, StoreOk, EventOf, Stored;
  }

  /** An initial request of a live session, in particular. */
  lemma InitialOfKnownIsLegalIff(w: World, i: SessionInfo, q: RequestInfo, profile: string, peers: Peers)
    requires Inv(w) && WellFormed(i) && i.sessionId in w.c.sessions
    ensures Legal(w, Stored(Prepare(w.c, Initial(i, q, profile), peers), peers)) <==>
            RepeatKeepsKeys(w, i, profile, DialectOf(peers, i))
  {
    var m := Initial(i, q, profile);
    ServeKeepsInvIff(w, m, peers);
    StoredIsPrepared(w, m, peers);
    StepKeepsInvIff(w, EventOf(w.c, m, peers).value);
    hide Inv, Step, Prepare, RepeatKeepsKeys, Legal, EventOf, Stored;
  }

  /** Checked before the request is served. */
  predicate Orderly(w: World, m: Request, peers: Peers) {
    WellFormed(m.i) && (Stores(m) ==> KeepsKeys(w, m, peers))
  }

  lemma OrderlyKeepsInv(w: World, m: Request, peers: Peers)
    requires Inv(w) && WellFormed(m.i)
    ensures Inv(Serve(w, m, peers)) <==> Orderly(w, m, peers)
  {
    if Stores(m) {
      ServeKeepsInvIff(w, m, peers);
    } else if m.Termination? {
      StepKeepsInvIff(w, Remove(m.i.sessionId));
    }
    hide Inv, Step, KeepsKeys, Prepare;
  }

  function ServeAll(w: World, ms: seq<Request>, peers: Peers): World
    decreases |ms|
  {
    if ms == [] then w else ServeAll(Serve(w, ms[0], peers), ms[1..], peers)
  }

  ghost predicate OrderlyRun(w: World, ms: seq<Request>, peers: Peers)
    decreases |ms|
  {
    ms == [] || (Orderly(w, ms[0], peers) && OrderlyRun(Serve(w, ms[0], peers), ms[1..], peers))
  }

  lemma {:induction false} OrderlyRunKeepsInv(w: World, ms: seq<Request>, peers: Peers)
    requires Inv(w) && OrderlyRun(w, ms, peers)
    ensures Inv(ServeAll(w, ms, peers))
    decreases |ms|
  {
    if ms == [] {
    } else {
      OrderlyKeepsInv(w, ms[0], peers);
      assert WellFormed(ms[0].i);
      hide Inv, Serve, Orderly;
      OrderlyRunKeepsInv(Serve(w, ms[0], peers), ms[1..], peers);
    }
  }

  /** Every orderly run of requests, one served after another, leaves the cache right. */
  lemma EveryOrderlyRun(ms: seq<Request>, peers: Peers)
    requires OrderlyRun(START, ms, peers)
    ensures Inv(ServeAll(START, ms, peers))
  {
    StartInv();
    OrderlyRunKeepsInv(START, ms, peers);
  }

  // ----- From a core session to its children

  /** A new session of a UGW or Ericsson peer is what the next look-up at its address finds. */
  lemma CoreIsFoundByItsAddress(w: World, i: SessionInfo, q: RequestInfo, profile: string, peers: Peers)
    requires Inv(w) && WellFormed(i) && i.sessionId !in w.c.sessions
    requires DialectOf(peers, i) in {HuaweiUgw, Ericsson}
    ensures var c := Serve(w, Initial(i, q, profile), peers).c;
            && FindCoreByIp(c, i.framedIp.v) == Some(i.sessionId)
            && i.sessionId in c.sessions && SubscriberText(c.sessions[i.sessionId]) == profile
  {
    var m := Initial(i, q, profile);
    var p := Prepare(w.c, m, peers);
    assert p == Prepared(i.(subscriberId := profile), q, None);
    StoredIsPrepared(w, m, peers);
    var e := Stored(p, peers);
    assert e == Insert(i.sessionId, ToRecord(p.info, Some(q)), None, DialectOf(peers, i));
    CreateIndexes(w.c, e.id, e.r, None, e.dialect, i.framedIp.v);
    CreateParts(w.c, e.id, e.r, None, e.dialect);
    hide InsertLocal, EventOf, Prepare, Inv;
  }

  /** A new session of any other peer leaves every look-up as it was. */
  lemma OthersAreNotFound(w: World, i: SessionInfo, q: RequestInfo, profile: string, peers: Peers, ip: string)
    requires Inv(w) && WellFormed(i) && i.sessionId !in w.c.sessions
    requires DialectOf(peers, i) !in {HuaweiUgw, Ericsson}
    ensures FindCoreByIp(Serve(w, Initial(i, q, profile), peers).c, ip) == FindCoreByIp(w.c, ip)
  {
    hide InsertLocal, EventOf, Prepare, Inv, CoreAt;
    var m := Initial(i, q, profile);
    StoredIsPrepared(w, m, peers);
    var e := Stored(Prepare(w.c, m, peers), peers);
    StoredDialect(w, m, peers);
    NotCoreNotFound(w, e, ip);
  }

  lemma NotCoreNotFound(w: World, e: Event, ip: string)
    requires Inv(w) && e.Insert? && e.id !in w.c.sessions && e.dialect !in {HuaweiUgw, Ericsson}
    ensures FindCoreByIp(Next(w.c, e), ip) == FindCoreByIp(w.c, ip)
  {
    CreateIndexes(w.c, e.id, e.r, e.parent, e.dialect, ip);
    CreateParts(w.c, e.id, e.r, e.parent, e.dialect);
    CoreAtMembers(w.log, w.c.sessions, ip);
    var ids := IpList(w.c, ip);
    assert ids == CoreAt(w.log, w.c.sessions, ip);
    assert ids != [] ==> ids[|ids| - 1] in ids;
    hide InsertLocal, Inv, IpList, CoreAt;
  }

  lemma StoredDialect(w: World, m: Request, peers: Peers)
    requires Stores(m) && WellFormed(m.i)
    ensures var e := Stored(Prepare(w.c, m, peers), peers);
            e.id == m.i.sessionId && e.dialect == DialectOf(peers, m.i) && e.parent == CoreOf(w.c, m, peers)
  {
    AskedKeepsIdentity(w.c, m, peers);
    JoinKeepsIdentity(w.c, Asked(w.c, m, peers), AskedRequest(w.c, m), CoreOf(w.c, m, peers));
    hide Join, Asked, AskedRequest, CoreOf, ToRecord;
  }

  lemma CreatedChild(w: World, e: Event)
    requires Inv(w) && e.Insert? && e.id !in w.c.sessions
    ensures if e.parent.Some?
            then Linked(Next(w.c, e), e.id, e.parent.value) && e.id in Children(Next(w.c, e), e.parent.value)
            else e.id !in Next(w.c, e).parent
  {
    NoLinkToAbsent(w, e.id);
    CreateLinks(w.c, e.id, e.r, e.parent, e.dialect);
    hide InsertLocal, Inv;
  }

  lemma InitialCore(c: Cache, i: SessionInfo, q: RequestInfo, profile: string, peers: Peers)
    ensures var d, core := DialectOf(peers, i), FindCoreByIp(c, i.framedIp.v);
            CoreOf(c, Initial(i, q, profile), peers) ==
            if core.Some? && (d == Procera || (d == CiscoSce && SubscriberText(c.sessions[core.value]) == profile))
            then core else None
  {
    hide FindCoreByIp;
  }

  /** A new session of a Procera or SCE peer is linked to the newest core session at its address: for
      SCE if the profile's subscriber is that session's. Otherwise, and for any other peer, it is
      linked to none. */
  lemma ChildIsLinked(w: World, i: SessionInfo, q: RequestInfo, profile: string, peers: Peers)
    requires Inv(w) && WellFormed(i) && i.sessionId !in w.c.sessions
    ensures var d, core := DialectOf(peers, i), FindCoreByIp(w.c, i.framedIp.v);
            var c := Serve(w, Initial(i, q, profile), peers).c;
            if core.Some? && (d == Procera || (d == CiscoSce && SubscriberText(w.c.sessions[core.value]) == profile))
            then Linked(c, i.sessionId, core.value) && i.sessionId in Children(c, core.value)
            else i.sessionId !in c.parent
  {
    hide InsertLocal, EventOf, Prepare, Inv, FindCoreByIp, CoreOf, ToRecord;
    var m := Initial(i, q, profile);
    StoredIsPrepared(w, m, peers);
    StoredDialect(w, m, peers);
    InitialCore(w.c, i, q, profile, peers);
    CreatedChild(w, Stored(Prepare(w.c, m, peers), peers));
  }

  /** A terminated session occurs nowhere. */
  lemma TerminationLeavesNoTrace(w: World, i: SessionInfo, peers: Peers)
    requires Inv(w)
    ensures !Occurs(Serve(w, Termination(i), peers).c, i.sessionId)
  {
    RemovedLeavesNoTrace(w, i.sessionId);
    hide Inv, RemoveLocal, Occurs;
  }

  /** An update that is not to be stored changes nothing. */
  lemma UnstoredUpdateChangesNothing(w: World, i: SessionInfo, q: RequestInfo, peers: Peers)
    ensures Serve(w, Update(i, q, false), peers) == w
  {
    hide Prepare;
  }

  // ----- What a request stores

  /** The record stored for an initial request tells what the message told, and for the rest what the
      core session knows. */
  lemma InitialStoresWhatIsTold(w: World, i: SessionInfo, q: RequestInfo, profile: string, peers: Peers, k: nat)
    requires WellFormed(i) && k < 11
    ensures var m := Initial(i, q, profile);
            var e, core := EventOf(w.c, m, peers), CoreRecord(w.c, m, peers);
            && e.Some? && e.value.Insert? && e.value.id == i.sessionId
            && Known(e.value.r)[k] == (if !MessageFields(i, q)[k].isNull || core.None? then MessageFields(i, q)[k]
                                       else Known(core.value)[k])
            && Location(e.value.r) == (if !Unlocated(MessageLocation(q)) || core.None? then MessageLocation(q)
                                       else Location(core.value))
            && e.value.r.ipCanNumber == (if core.Some? then core.value.ipCanNumber else q.ipCanNumber)
            && e.value.r.ratNumber == (if core.Some? then core.value.ratNumber else q.ratNumber)
  {
    var m := Initial(i, q, profile);
    StoredIsPrepared(w, m, peers);
    var asked := Asked(w.c, m, peers);
    assert MessageFields(asked, q) == MessageFields(i, q);
    JoinFields(w.c, asked, q, CoreOf(w.c, m, peers));
    StoredFields(Prepare(w.c, m, peers), peers);
    hide Join, CoreOf, ToRecord, Known, MessageFields, Asked, Location, MessageLocation;
  }

  /** Its subscriber is the profile's for UGW and Ericsson peers and for SCE; for Procera it is the core
      session's, if there is one; and else the one it came with. */
  lemma InitialStoresItsSubscriber(w: World, i: SessionInfo, q: RequestInfo, profile: string, peers: Peers)
    requires WellFormed(i)
    ensures var d, core := DialectOf(peers, i), FindCoreByIp(w.c, i.framedIp.v);
            var e := EventOf(w.c, Initial(i, q, profile), peers);
            && e.Some? && e.value.Insert?
            && (d in {HuaweiUgw, Ericsson, CiscoSce} ==> SubscriberKey(e.value.r) == Some(profile))
            && (d == Procera && core.Some? ==> SubscriberKey(e.value.r) == Some(SubscriberText(w.c.sessions[core.value])))
            && (d !in {HuaweiUgw, Ericsson, CiscoSce} && (d != Procera || core.None?) ==>
                  SubscriberKey(e.value.r) == Some(i.subscriberId))
  {
    var m := Initial(i, q, profile);
    StoredIsPrepared(w, m, peers);
    JoinKeepsIdentity(w.c, Asked(w.c, m, peers), q, CoreOf(w.c, m, peers));
    hide Join, FindCoreByIp;
  }

  // ----- What an update stores

  /** The record of the core session that an update is completed from, or nothing known. */
  function CoreRecord(c: Cache, m: Request, peers: Peers): Option<Record> {
    var core := CoreOf(c, m, peers);
    if core.Some? then Some(c.sessions[core.value]) else None
  }

  lemma JoinFields(c: Cache, i: SessionInfo, q: RequestInfo, core: Option<Id>)
    requires core.Some? ==> core.value in c.sessions
    ensures var p := Join(c, i, q, core);
            forall k | 0 <= k < 11 ::
              MessageFields(p.info, p.request)[k] ==
              if core.Some? then Either(MessageFields(i, q)[k], Known(c.sessions[core.value])[k]) else MessageFields(i, q)[k]
    ensures var p := Join(c, i, q, core);
            MessageLocation(p.request) ==
            if core.Some? && Unlocated(MessageLocation(q)) then Location(c.sessions[core.value]) else MessageLocation(q)
    ensures var p := Join(c, i, q, core);
            && p.request.ipCanNumber == (if core.Some? then c.sessions[core.value].ipCanNumber else q.ipCanNumber)
            && p.request.ratNumber == (if core.Some? then c.sessions[core.value].ratNumber else q.ratNumber)
  {
    assert q.cgi in MessageLocation(q) && q.ecgi in MessageLocation(q) && q.tai in MessageLocation(q);
  }

  predicate Unlocated(location: seq<Field>) {
    forall f | f in location :: f.isNull
  }

  /** The record stored for an update of a live session: each field is the message's if told, else
      the record's if known, else the core session's; so nothing known is forgotten. */
  lemma UpdateKeepsWhatIsKnown(c: Cache, i: SessionInfo, q: RequestInfo, peers: Peers, k: nat)
    requires WellFormed(i) && i.sessionId in c.sessions && k < 11
    ensures EventOf(c, Update(i, q, true), peers).Some?
    ensures var e := EventOf(c, Update(i, q, true), peers).value;
            var core := CoreRecord(c, Update(i, q, true), peers);
            var told, known := MessageFields(i, q)[k], Known(c.sessions[i.sessionId])[k];
            && e.Insert? && e.id == i.sessionId
            && Known(e.r)[k] == (if !told.isNull then told
                                 else if known.isNull && core.Some? then Known(core.value)[k] else known)
            && (!known.isNull ==> !Known(e.r)[k].isNull)
  {
    var m := Update(i, q, true);
    var r := c.sessions[i.sessionId];
    var i1, q1 := FillInfo(r, i.sessionId, i), FillRequest(r, q);
    StoredIsPrepared(World(c, []), m, peers);
    RefreshKeepsWhatIsKnown(r, i.sessionId, i, q);
    JoinFields(c, i1, q1, CoreOf(c, m, peers));
    var p := Prepare(c, m, peers);
    StoredFields(p, peers);
    StoredFields(Prepared(i1, q1, None), peers);
    hide FillInfo, FillRequest, Join, CoreOf, ToRecord, Known, MessageFields;
  }

  lemma StoredFields(p: Prepared, peers: Peers)
    ensures Known(ToRecord(p.info, Some(p.request))) == MessageFields(p.info, p.request)
    ensures Location(ToRecord(p.info, Some(p.request))) == MessageLocation(p.request)
    ensures ToRecord(p.info, Some(p.request)).ipCanNumber == p.request.ipCanNumber
    ensures ToRecord(p.info, Some(p.request)).ratNumber == p.request.ratNumber
  {
  }

  /** And its location is, as a whole, the message's if it tells one, else the record's if it has one,
      else the core session's. */
  lemma UpdateLocatesAsAUnit(c: Cache, i: SessionInfo, q: RequestInfo, peers: Peers)
    requires WellFormed(i) && i.sessionId in c.sessions
    ensures EventOf(c, Update(i, q, true), peers).Some?
    ensures var e := EventOf(c, Update(i, q, true), peers).value;
            var core := CoreRecord(c, Update(i, q, true), peers);
            var r := c.sessions[i.sessionId];
            && e.Insert?
            && Location(e.r) == if !Unlocated(MessageLocation(q)) then MessageLocation(q)
                                else if Unlocated(Location(r)) && core.Some? then Location(core.value) else Location(r)
  {
    var m := Update(i, q, true);
    var r := c.sessions[i.sessionId];
    var i1, q1 := FillInfo(r, i.sessionId, i), FillRequest(r, q);
    StoredIsPrepared(World(c, []), m, peers);
    RefreshLocatesAsAUnit(r, i.sessionId, i, q);
    JoinFields(c, i1, q1, CoreOf(c, m, peers));
    StoredFields(Prepare(c, m, peers), peers);
    StoredFields(Prepared(i1, q1, None), peers);
    hide FillInfo, FillRequest, Join, CoreOf, ToRecord, Location, MessageLocation;
  }

  /** Its subscriber is the core session's if there is one, and else the record's. */
  lemma UpdateStoresItsSubscriber(c: Cache, i: SessionInfo, q: RequestInfo, peers: Peers)
    requires WellFormed(i) && i.sessionId in c.sessions
    ensures var e, core := EventOf(c, Update(i, q, true), peers), CoreRecord(c, Update(i, q, true), peers);
            && e.Some? && e.value.Insert?
            && SubscriberKey(e.value.r) == Some(SubscriberText(if core.Some? then core.value else c.sessions[i.sessionId]))
  {
    var m := Update(i, q, true);
    StoredIsPrepared(World(c, []), m, peers);
    hide CoreOf;
  }

  /** The core session an update is completed from and stored under: the newest at the address told, or
      else at the record's; for SCE if its subscriber is the record's. */
  lemma UpdateSeeksItsCore(c: Cache, i: SessionInfo, q: RequestInfo, peers: Peers)
    requires WellFormed(i) && i.sessionId in c.sessions
    ensures var d, r := DialectOf(peers, i), c.sessions[i.sessionId];
            var core := FindCoreByIp(c, if i.framedIp.isNull then r.framedIp.v else i.framedIp.v);
            var e := EventOf(c, Update(i, q, true), peers);
            && e.Some? && e.value.Insert? && e.value.dialect == d
            && e.value.parent == if core.Some? && (d == Procera || (d == CiscoSce && SubscriberText(c.sessions[core.value]) == SubscriberText(r)))
                                 then core else None
  {
    var m := Update(i, q, true);
    StoredIsPrepared(World(c, []), m, peers);
    StoredDialect(World(c, []), m, peers);
    hide FindCoreByIp, Prepare, ToRecord;
  }
}
