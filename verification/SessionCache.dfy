/** The session cache: the records of the live sessions and four secondary maps kept beside them.

    This module describes each operation as a function of the maps; `SessionStore` holds the
    operations themselves and `SessionRuns` what they keep over whole runs. */
module SessionCache {
  import opened Common

  type Id = string

  datatype Record = Record(
    subscriberId: Field, framedIp: Field, calledStationId: Field, ipCanType: Field, sgsnMccMnc: Field,
    sgsnIp: Field, ratType: Field, originHost: Field, originRealm: Field, cgi: Field, ecgi: Field,
    tai: Field, imeisv: Field, imsi: Field, e164: Field, ipCanNumber: int, ratNumber: int)

  datatype Cache = Cache(
    sessions: map<Id, Record>,
    byIp: map<string, seq<Id>>,        // core sessions by Framed-IP-Address
    bySubscriber: map<string, set<Id>>,
    children: map<Id, seq<Id>>,        // parent to child links
    parent: map<Id, Id>)               // child to parent links

  const EMPTY := Cache(map[], map[], map[], map[], map[])

  function IpList(c: Cache, ip: string): seq<Id> {
    if ip in c.byIp then c.byIp[ip] else []
  }

  function SubscriberSet(c: Cache, s: string): set<Id> {
    if s in c.bySubscriber then c.bySubscriber[s] else {}
  }

  function Children(c: Cache, p: Id): seq<Id> {
    if p in c.children then c.children[p] else []
  }

  // ----- Indexes

  function AddIp(c: Cache, ip: string, id: Id): Cache {
    c.(byIp := c.byIp[ip := IpList(c, ip) + [id]])
  }

  function DropIp(c: Cache, ip: string, id: Id): Cache {
    if ip in c.byIp then c.(byIp := c.byIp[ip := Without(c.byIp[ip], id)]) else c
  }

  function AddSubscriber(c: Cache, s: string, id: Id): Cache {
    c.(bySubscriber := c.bySubscriber[s := SubscriberSet(c, s) + {id}])
  }

  function DropSubscriber(c: Cache, s: string, id: Id): Cache {
    if s in c.bySubscriber then c.(bySubscriber := c.bySubscriber[s := c.bySubscriber[s] - {id}]) else c
  }

  // ----- Links

  function AddChild(c: Cache, id: Id, p: Id): Cache {
    c.(children := c.children[p := Children(c, p) + [id]])
  }

  function DropChild(c: Cache, id: Id, p: Id): Cache {
    if p in c.children then c.(children := c.children[p := Without(c.children[p], id)]) else c
  }

  /** The child is appended to the parent's list before anything is known about an older link, and
      once more if there was one to another parent. */
  function LinkToParent(c: Cache, id: Id, p: Id): Cache {
    var c1 := AddChild(c, id, p);
    if id !in c1.parent then c1.(parent := c1.parent[id := p])
    else if c1.parent[id] == p then c1
    else AddChild(DropChild(c1, id, c1.parent[id]).(parent := c1.parent[id := p]), id, p)
  }

  /** A session with a child list loses its children; only one without is looked up as a child. */
  function RemoveLink(c: Cache, id: Id): Cache {
    if id in c.children then
      c.(parent := map x | x in c.parent && !(x in c.children[id] && c.parent[x] == id) :: c.parent[x],
         children := c.children - {id})
    else if id in c.parent then
      var c1 := DropChild(c, id, c.parent[id]);
      c1.(parent := c1.parent - {id})
    else c
  }

  // ----- Records

  function Either(told: Field, known: Field): Field {
    if told.isNull then known else told
  }

  /** What a child takes over from its parent's new record. */
  function Overlay(r: Record, n: Record): Record {
    var located := !n.cgi.isNull || !n.ecgi.isNull || !n.tai.isNull;
    r.(subscriberId := Either(n.subscriberId, r.subscriberId),
       framedIp := Either(n.framedIp, r.framedIp),
       calledStationId := Either(n.calledStationId, r.calledStationId),
       ipCanType := Either(n.ipCanType, r.ipCanType), ipCanNumber := n.ipCanNumber,
       sgsnMccMnc := Either(n.sgsnMccMnc, r.sgsnMccMnc),
       sgsnIp := Either(n.sgsnIp, r.sgsnIp),
       ratType := Either(n.ratType, r.ratType), ratNumber := n.ratNumber,
       cgi := if located then n.cgi else r.cgi,
       ecgi := if located then n.ecgi else r.ecgi,
       tai := if located then n.tai else r.tai)
  }

  /** The records after everyone in `ids` who is live has taken over `n`. */
  function OverlayAll(m: map<Id, Record>, ids: seq<Id>, n: Record): map<Id, Record> {
    map x | x in m :: if x in ids then Overlay(m[x], n) else m[x]
  }

  /** Inserting a record: a live session's is replaced and passed on to its children without
      touching an index; a new session is indexed and linked. */
  function InsertLocal(c: Cache, id: Id, r: Record, parent: Option<Id>, dialect: Dialect): Cache {
    if id in c.sessions then
      c.(sessions := OverlayAll(c.sessions[id := r], Children(c, id), r))
    else
      var c1 := c.(sessions := c.sessions[id := r]);
      var c2 := if IsCore(dialect) then AddIp(c1, r.framedIp.v, id) else c1;
      var c3 := if r.subscriberId.isNull then c2 else AddSubscriber(c2, r.subscriberId.v, id);
      if parent.Some? then LinkToParent(c3, id, parent.value) else c3
  }

  predicate IsCore(d: Dialect) {
    d.HuaweiUgw? || d.Ericsson?
  }

  function RemoveLocal(c: Cache, id: Id): Cache {
    var c1 := RemoveLink(c, id);
    if id !in c1.sessions then c1
    else
      var r := c1.sessions[id];
      var c2 := if r.subscriberId.isNull then c1 else DropSubscriber(c1, r.subscriberId.v, id);
      var c3 := DropIp(c2, r.framedIp.v, id);
      c3.(sessions := c3.sessions - {id})
  }

  /** The most recently indexed core session at an address. */
  function FindCoreByIp(c: Cache, ip: string): Option<Id> {
    var ids := IpList(c, ip);
    if ids != [] && ids[|ids| - 1] in c.sessions then Some(ids[|ids| - 1]) else None
  }

  /** The same, provided it belongs to the subscriber. */
  function FindCoreOfSubscriber(c: Cache, subscriber: string, ip: string): Option<Id> {
    match FindCoreByIp(c, ip)
    case None => None
    case Some(id) => if SubscriberText(c.sessions[id]) == subscriber then Some(id) else None
  }

  /** A null subscriber is handed out as the empty text. */
  function SubscriberText(r: Record): string {
    if r.subscriberId.isNull then "" else r.subscriberId.v
  }

  // ----- Requests and the cache

  datatype SessionInfo = SessionInfo(
    sessionId: Id, subscriberId: string, framedIp: Field, calledStationId: Field, originHost: Field,
    originRealm: Field, imei: Field, imsi: Field, e164: Field)

  datatype RequestInfo = RequestInfo(
    ipCanType: Field, ipCanNumber: int, sgsnMccMnc: Field, sgsnAddress: Field, ratType: Field,
    ratNumber: int, cgi: Field, ecgi: Field, tai: Field)

  /** Completing a request's session data from the cache. */
  function FillInfo(r: Record, id: Id, i: SessionInfo): SessionInfo {
    SessionInfo(if i.sessionId == "" then id else i.sessionId, SubscriberText(r),
                Either(i.framedIp, r.framedIp), Either(i.calledStationId, r.calledStationId),
                Either(i.originHost, r.originHost), Either(i.originRealm, r.originRealm),
                Either(i.imei, r.imeisv), Either(i.imsi, r.imsi), Either(i.e164, r.e164))
  }

  function FillRequest(r: Record, q: RequestInfo): RequestInfo {
    var unlocated := q.cgi.isNull && q.ecgi.isNull && q.tai.isNull;
    RequestInfo(Either(q.ipCanType, r.ipCanType), r.ipCanNumber, Either(q.sgsnMccMnc, r.sgsnMccMnc),
                Either(q.sgsnAddress, r.sgsnIp), Either(q.ratType, r.ratType), r.ratNumber,
                if unlocated then r.cgi else q.cgi, if unlocated then r.ecgi else q.ecgi,
                if unlocated then r.tai else q.tai)
  }

  const NO_REQUEST := RequestInfo(NULL_FIELD, 0, NULL_FIELD, NULL_FIELD, NULL_FIELD, 0, NULL_FIELD, NULL_FIELD, NULL_FIELD)

  /** The record stored for a session. */
  function ToRecord(i: SessionInfo, request: Option<RequestInfo>): Record {
    var q := if request.Some? then request.value else NO_REQUEST;
    Record(NonNull(i.subscriberId), i.framedIp, i.calledStationId, q.ipCanType, q.sgsnMccMnc, q.sgsnAddress,
           q.ratType, i.originHost, i.originRealm, q.cgi, q.ecgi, q.tai, i.imei, i.imsi, i.e164,
           q.ipCanNumber, q.ratNumber)
  }
}
