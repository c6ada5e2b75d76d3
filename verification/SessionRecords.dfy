/** What a session's record goes through: completing a request from it, storing the result back,
    and taking over a parent's new record. */
module SessionRecords {
  import opened Common
  import opened SessionCache
  import opened SessionIndexes

  /** The fields a child takes over one by one. */
  function Propagated(r: Record): seq<Field> {
    [r.subscriberId, r.framedIp, r.calledStationId, r.ipCanType, r.sgsnMccMnc, r.sgsnIp, r.ratType]
  }

  /** The fields that stay with the session. */
  function Own(r: Record): seq<Field> {
    [r.originHost, r.originRealm, r.imeisv, r.imsi, r.e164]
  }

  /** The fields that change only together. */
  function Location(r: Record): seq<Field> {
    [r.cgi, r.ecgi, r.tai]
  }

  predicate Located(r: Record) {
    exists f | f in Location(r) :: !f.isNull
  }

  function MessageFields(i: SessionInfo, q: RequestInfo): seq<Field> {
    [i.framedIp, i.calledStationId, q.ipCanType, q.sgsnMccMnc, q.sgsnAddress, q.ratType,
     i.originHost, i.originRealm, i.imei, i.imsi, i.e164]
  }

  function MessageLocation(q: RequestInfo): seq<Field> {
    [q.cgi, q.ecgi, q.tai]
  }

  /** What is stored for a known session after completing a request from its record. */
  function Refreshed(r: Record, id: Id, i: SessionInfo, q: RequestInfo): Record {
    ToRecord(FillInfo(r, id, i), Some(FillRequest(r, q)))
  }

  /** The same fields of a record, in the same order. */
  function Known(r: Record): seq<Field> {
    [r.framedIp, r.calledStationId, r.ipCanType, r.sgsnMccMnc, r.sgsnIp, r.ratType,
     r.originHost, r.originRealm, r.imeisv, r.imsi, r.e164]
  }

  /** Nothing known is forgotten and nothing told is ignored, but for the two numbers beside the access
      types, which are always the record's. */
  lemma RefreshKeepsWhatIsKnown(r: Record, id: Id, i: SessionInfo, q: RequestInfo)
    ensures var known, told, now := Known(r), MessageFields(i, q), Known(Refreshed(r, id, i, q));
            forall k | 0 <= k < 11 ::
              now[k] == (if told[k].isNull then known[k] else told[k]) && (!known[k].isNull ==> !now[k].isNull)
    ensures Refreshed(r, id, i, q).ipCanNumber == r.ipCanNumber && Refreshed(r, id, i, q).ratNumber == r.ratNumber
  {
    var i', q' := FillInfo(r, id, i), FillRequest(r, q);
    assert Known(Refreshed(r, id, i, q)) == MessageFields(i', q');
    forall k | 0 <= k < 11
      ensures MessageFields(i', q')[k] == Either(MessageFields(i, q)[k], Known(r)[k])
    {
    }
  }

  /** The location is the message's or the record's as a whole, and is not forgotten either. */
  lemma RefreshLocatesAsAUnit(r: Record, id: Id, i: SessionInfo, q: RequestInfo)
    ensures var n := Refreshed(r, id, i, q);
            && Location(n) == (if forall f | f in MessageLocation(q) :: f.isNull then Location(r) else MessageLocation(q))
            && (Located(r) ==> Located(n))
  {
    assert q.cgi in MessageLocation(q) && q.ecgi in MessageLocation(q) && q.tai in MessageLocation(q);
    var n := Refreshed(r, id, i, q);
    assert Location(n) == Location(r) || Location(n) == MessageLocation(q);
    assert n.cgi in Location(n) && n.ecgi in Location(n) && n.tai in Location(n);
  }

  /** The subscriber is kept if and only if the record has one: a null one comes back as the empty
      text, which is a subscriber like any other. */
  lemma RefreshKeepsSubscriberIff(r: Record, id: Id, i: SessionInfo, q: RequestInfo)
    ensures SubscriberKey(Refreshed(r, id, i, q)) == SubscriberKey(r) <==> !r.subscriberId.isNull
    ensures SubscriberKey(Refreshed(r, id, i, q)) == Some(if r.subscriberId.isNull then "" else r.subscriberId.v)
  {
  }

  /** Completing a request twice is the same as once, whatever the session id. */
  lemma CompletionIsIdempotent(r: Record, id: Id, i: SessionInfo, q: RequestInfo)
    ensures FillInfo(r, id, FillInfo(r, id, i)) == FillInfo(r, id, i)
    ensures FillRequest(r, FillRequest(r, q)) == FillRequest(r, q)
    ensures FillInfo(r, id, i).sessionId == if i.sessionId == "" then id else i.sessionId
  {
  }

  /** So a repeated request changes nothing more. */
  lemma RefreshIsIdempotent(r: Record, id: Id, i: SessionInfo, q: RequestInfo)
    ensures var n := Refreshed(r, id, i, q); Refreshed(n, id, i, q) == n
  {
  }

  const SILENT_INFO := SessionInfo("", "", NULL_FIELD, NULL_FIELD, NULL_FIELD, NULL_FIELD, NULL_FIELD, NULL_FIELD, NULL_FIELD)

  /** A message that tells nothing leaves the record as it was, provided it has a subscriber: storing
      undoes completing. */
  lemma SilentRefreshIff(r: Record, id: Id)
    ensures Refreshed(r, id, SILENT_INFO, NO_REQUEST) == r <==>
            r.subscriberId == NonNull(r.subscriberId.v)
  {
  }

  // ----- Parents and children

  /** The child says what the parent says wherever the parent says anything. */
  ghost predicate Agrees(child: Record, parent: Record) {
    && (forall k | 0 <= k < |Propagated(parent)| && !Propagated(parent)[k].isNull ::
          Propagated(child)[k] == Propagated(parent)[k])
    && (Located(parent) ==> Location(child) == Location(parent))
    && child.ipCanNumber == parent.ipCanNumber && child.ratNumber == parent.ratNumber
  }

  lemma OverlayAgrees(r: Record, n: Record)
    ensures Agrees(Overlay(r, n), n) && Own(Overlay(r, n)) == Own(r)
  {
    assert n.cgi in Location(n) && n.ecgi in Location(n) && n.tai in Location(n);
  }

  /** Taking over a record is the least change that agrees with it: what the parent leaves open and
      what is the child's own stay. */
  lemma OverlayIsLeast(r: Record, n: Record)
    ensures var o := Overlay(r, n);
            && Agrees(o, n)
            && Own(o) == Own(r)
            && (forall k | 0 <= k < |Propagated(n)| && Propagated(n)[k].isNull :: Propagated(o)[k] == Propagated(r)[k])
            && (!Located(n) ==> Location(o) == Location(r))
            && (Agrees(r, n) ==> o == r)
  {
    OverlayAgrees(r, n);
    hide Own;
    assert n.cgi in Location(n) && n.ecgi in Location(n) && n.tai in Location(n);
    assert Propagated(n)[0] == n.subscriberId && Propagated(r)[0] == r.subscriberId;
    assert Propagated(n)[1] == n.framedIp && Propagated(r)[1] == r.framedIp;
    assert Propagated(n)[2] == n.calledStationId && Propagated(r)[2] == r.calledStationId;
    assert Propagated(n)[3] == n.ipCanType && Propagated(r)[3] == r.ipCanType;
    assert Propagated(n)[4] == n.sgsnMccMnc && Propagated(r)[4] == r.sgsnMccMnc;
    assert Propagated(n)[5] == n.sgsnIp && Propagated(r)[5] == r.sgsnIp;
    assert Propagated(n)[6] == n.ratType && Propagated(r)[6] == r.ratType;
    assert Location(r)[0] == r.cgi && Location(r)[1] == r.ecgi && Location(r)[2] == r.tai;
    assert Location(n)[0] == n.cgi && Location(n)[1] == n.ecgi && Location(n)[2] == n.tai;
  }

  /** After a live session is inserted again, each live child agrees with it, and nobody else's
      record has changed. */
  lemma ChildrenFollow(c: Cache, id: Id, r: Record, parent: Option<Id>, dialect: Dialect)
    requires id in c.sessions
    ensures var c' := InsertLocal(c, id, r, parent, dialect);
            && c'.sessions.Keys == c.sessions.Keys
            && c'.sessions[id] == r
            && (forall x | x in c.sessions && x != id && x in Children(c, id) ::
                  Agrees(c'.sessions[x], r) && Own(c'.sessions[x]) == Own(c.sessions[x]))
            && (forall x | x in c.sessions && x != id && x !in Children(c, id) :: c'.sessions[x] == c.sessions[x])
  {
    UpdateRecord(c, id, r, parent, dialect, id);
    var c' := InsertLocal(c, id, r, parent, dialect);
    hide InsertLocal;
    forall x | x in c.sessions && x != id
      ensures if x in Children(c, id) then Agrees(c'.sessions[x], r) && Own(c'.sessions[x]) == Own(c.sessions[x])
              else c'.sessions[x] == c.sessions[x]
    {
      UpdateRecord(c, id, r, parent, dialect, x);
      OverlayIsLeast(c.sessions[x], r);
    }
  }
}
