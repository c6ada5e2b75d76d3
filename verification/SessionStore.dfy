/** The session cache as it is stored and updated in place. */
module SessionStore {
  import opened Common
  import opened SessionCache

  lemma OverlayTwice(r: Record, n: Record)
    ensures Overlay(Overlay(r, n), n) == Overlay(r, n)
  {
  }

  /** Passing the record on to one more listed child. */
  lemma OverlayNext(m: map<Id, Record>, ids: seq<Id>, n: Record, i: nat)
    requires i < |ids|
    ensures var done := OverlayAll(m, ids[..i], n);
            OverlayAll(m, ids[..i + 1], n) ==
            if ids[i] in done then done[ids[i] := Overlay(done[ids[i]], n)] else done
  {
    assert ids[..i + 1] == ids[..i] + [ids[i]];
    if ids[i] in m {
      OverlayTwice(m[ids[i]], n);
    }
  }

  class Store {
    var sessions: map<Id, Record>
    var byIp: map<string, seq<Id>>
    var bySubscriber: map<string, set<Id>>
    var children: map<Id, seq<Id>>
    var parent: map<Id, Id>

    function State(): Cache
      reads this
    {
      Cache(sessions, byIp, bySubscriber, children, parent)
    }

    constructor ()
      ensures State() == EMPTY
    {
      sessions, byIp, bySubscriber, children, parent := map[], map[], map[], map[], map[];
    }

    method IndexIp(ip: string, id: Id)
      modifies this`byIp
      ensures State() == AddIp(old(State()), ip, id)
    {
      if ip in byIp {
        byIp := byIp[ip := byIp[ip] + [id]];
      } else {
        assert [] + [id] == [id];
        byIp := byIp[ip := [id]];
      }
    }

    method UnindexIp(ip: string, id: Id)
      modifies this`byIp
      ensures State() == DropIp(old(State()), ip, id)
    {
      if ip in byIp {
        var list := EraseAll(byIp[ip], id);
        byIp := byIp[ip := list];
      }
    }

    /** Erases while walking the list, as both indexes of lists do. */
    method EraseAll(ids: seq<Id>, id: Id) returns (list: seq<Id>)
      ensures list == Without(ids, id)
    {
      list := ids;
      var i := 0;
      while i < |list|
        invariant i <= |list|
        invariant list[..i] + Without(list[i..], id) == Without(ids, id)
        decreases |list| - i
      {
        if list[i] == id {
          ghost var before := list;
          list := list[..i] + list[i + 1..];
          assert list[..i] == before[..i] && list[i..] == before[i..][1..];
        } else {
          assert list[..i + 1] == list[..i] + [list[i]] && list[i..][1..] == list[i + 1..];
          i := i + 1;
        }
      }
      assert list[..i] == list && list + [] == list;
    }

    method IndexSubscriber(s: string, id: Id)
      modifies this`bySubscriber
      ensures State() == AddSubscriber(old(State()), s, id)
    {
      if s !in bySubscriber {
        assert {} + {id} == {id};
        bySubscriber := bySubscriber[s := {id}];
      } else {
        bySubscriber := bySubscriber[s := bySubscriber[s] + {id}];
      }
    }

    method UnindexSubscriber(s: string, id: Id)
      modifies this`bySubscriber
      ensures State() == DropSubscriber(old(State()), s, id)
    {
      if s in bySubscriber {
        if id in bySubscriber[s] {
          bySubscriber := bySubscriber[s := bySubscriber[s] - {id}];
        } else {
          assert bySubscriber[s] - {id} == bySubscriber[s];
        }
      }
    }

    method AppendChild(id: Id, p: Id)
      modifies this`children
      ensures State() == AddChild(old(State()), id, p)
    {
      if p in children {
        children := children[p := children[p] + [id]];
      } else {
        assert [] + [id] == [id];
        children := children[p := [id]];
      }
    }

    method EraseChild(id: Id, p: Id)
      modifies this`children
      ensures State() == DropChild(old(State()), id, p)
    {
      if p in children {
        var list := EraseAll(children[p], id);
        children := children[p := list];
      }
    }

    method MakeLink(id: Id, p: Id)
      modifies this`children, this`parent
      ensures State() == LinkToParent(old(State()), id, p)
    {
      AppendChild(id, p);
      if id !in parent {
        parent := parent[id := p];
      } else if parent[id] != p {
        EraseChild(id, parent[id]);
        parent := parent[id := p];
        AppendChild(id, p);
      }
    }

    method Unlink(id: Id)
      modifies this`children, this`parent
      ensures State() == RemoveLink(old(State()), id)
    {
      if id in children {
        ghost var before := parent;
        var list := children[id];
        var i := 0;
        while i < |list|
          invariant i <= |list|
          invariant children == old(children)
          invariant parent == map x | x in before && !(x in list[..i] && before[x] == id) :: before[x]
        {
          var kid := list[i];
          assert list[..i + 1] == list[..i] + [kid];
          if kid in parent && parent[kid] == id {
            parent := parent - {kid};
          }
          i := i + 1;
        }
        assert list[..i] == list;
        children := children - {id};
      } else if id in parent {
        EraseChild(id, parent[id]);
        parent := parent - {id};
      }
    }

    /** The first half of an update's fields. */
    static method TakeIdentity(r: Record, n: Record) returns (o: Record)
      ensures o == r.(subscriberId := Either(n.subscriberId, r.subscriberId),
                      framedIp := Either(n.framedIp, r.framedIp),
                      calledStationId := Either(n.calledStationId, r.calledStationId),
                      ipCanType := Either(n.ipCanType, r.ipCanType), ipCanNumber := n.ipCanNumber)
    {
      o := r;
      if !n.subscriberId.isNull { o := o.(subscriberId := n.subscriberId); }
      if !n.framedIp.isNull { o := o.(framedIp := n.framedIp); }
      if !n.calledStationId.isNull { o := o.(calledStationId := n.calledStationId); }
      if !n.ipCanType.isNull { o := o.(ipCanType := n.ipCanType); }
      o := o.(ipCanNumber := n.ipCanNumber);
    }

    /** The second half, with the location as a unit. */
    static method TakeAccess(r: Record, n: Record) returns (o: Record)
      ensures var located := !n.cgi.isNull || !n.ecgi.isNull || !n.tai.isNull;
              o == r.(sgsnMccMnc := Either(n.sgsnMccMnc, r.sgsnMccMnc), sgsnIp := Either(n.sgsnIp, r.sgsnIp),
                      ratType := Either(n.ratType, r.ratType), ratNumber := n.ratNumber,
                      cgi := if located then n.cgi else r.cgi,
                      ecgi := if located then n.ecgi else r.ecgi,
                      tai := if located then n.tai else r.tai)
    {
      o := r;
      if !n.sgsnMccMnc.isNull { o := o.(sgsnMccMnc := n.sgsnMccMnc); }
      if !n.sgsnIp.isNull { o := o.(sgsnIp := n.sgsnIp); }
      if !n.ratType.isNull { o := o.(ratType := n.ratType); }
      o := o.(ratNumber := n.ratNumber);
      if !n.cgi.isNull || !n.ecgi.isNull || !n.tai.isNull {
        o := o.(cgi := n.cgi, ecgi := n.ecgi, tai := n.tai);
      }
    }

    method UpdateSomeValues(id: Id, n: Record)
      modifies this`sessions
      ensures sessions == if id in old(sessions) then old(sessions)[id := Overlay(old(sessions)[id], n)] else old(sessions)
    {
      if id in sessions {
        var r := TakeIdentity(sessions[id], n);
        r := TakeAccess(r, n);
        sessions := sessions[id := r];
      }
    }

    method UpdateChildren(id: Id, n: Record)
      modifies this`sessions
      ensures sessions == OverlayAll(old(sessions), Children(old(State()), id), n)
    {
      if id in children {
        var list := children[id];
        var i := 0;
        assert OverlayAll(sessions, list[..0], n) == sessions;
        while i < |list|
          invariant i <= |list|
          invariant sessions == OverlayAll(old(sessions), list[..i], n)
        {
          OverlayNext(old(sessions), list, n, i);
          UpdateSomeValues(list[i], n);
          i := i + 1;
        }
        assert list[..i] == list;
      } else {
        assert OverlayAll(sessions, [], n) == sessions;
      }
    }

    method InsertLocal(id: Id, r: Record, parentId: Option<Id>, dialect: Dialect)
      modifies this
      ensures State() == SessionCache.InsertLocal(old(State()), id, r, parentId, dialect)
    {
      if id in sessions {
        sessions := sessions[id := r];
        UpdateChildren(id, r);
      } else {
        sessions := sessions[id := r];
        match dialect {
          case HuaweiUgw | Ericsson => IndexIp(r.framedIp.v, id);
          case _ =>
        }
        if !r.subscriberId.isNull {
          IndexSubscriber(r.subscriberId.v, id);
        }
        if parentId.Some? {
          MakeLink(id, parentId.value);
        }
      }
    }

    /** `peers` tells which dialect the peer with a given host and realm speaks. */
    method Insert(id: Id, info: SessionInfo, request: Option<RequestInfo>, parentId: Option<Id>,
                  peers: (string, string) -> Dialect)
      modifies this
      ensures State() ==
              if id == "" then old(State())
              else SessionCache.InsertLocal(old(State()), id, ToRecord(info, request), parentId,
                                            peers(info.originHost.v, info.originRealm.v))
    {
      if |id| == 0 {
        return;
      }
      InsertLocal(id, ToRecord(info, request), parentId, peers(info.originHost.v, info.originRealm.v));
    }

    /** Completes the caller's session data, field by field. */
    static method CompleteInfo(r: Record, id: Id, i: SessionInfo) returns (i': SessionInfo)
      ensures i' == FillInfo(r, id, i)
    {
      i' := i;
      if !r.subscriberId.isNull {
        i' := i'.(subscriberId := r.subscriberId.v);
      } else {
        i' := i'.(subscriberId := "");
      }
      if |i'.sessionId| == 0 { i' := i'.(sessionId := id); }
      if i'.framedIp.isNull { i' := i'.(framedIp := r.framedIp); }
      if i'.calledStationId.isNull { i' := i'.(calledStationId := r.calledStationId); }
      if i'.originHost.isNull { i' := i'.(originHost := r.originHost); }
      if i'.originRealm.isNull { i' := i'.(originRealm := r.originRealm); }
      if i'.imei.isNull { i' := i'.(imei := r.imeisv); }
      if i'.imsi.isNull { i' := i'.(imsi := r.imsi); }
      if i'.e164.isNull { i' := i'.(e164 := r.e164); }
    }

    static method CompleteRequest(r: Record, q: RequestInfo) returns (q': RequestInfo)
      ensures q' == FillRequest(r, q)
    {
      q' := q;
      if q'.ipCanType.isNull { q' := q'.(ipCanType := r.ipCanType); }
      q' := q'.(ipCanNumber := r.ipCanNumber);
      if q'.sgsnMccMnc.isNull { q' := q'.(sgsnMccMnc := r.sgsnMccMnc); }
      if q'.sgsnAddress.isNull { q' := q'.(sgsnAddress := r.sgsnIp); }
      if q'.ratType.isNull { q' := q'.(ratType := r.ratType); }
      q' := q'.(ratNumber := r.ratNumber);
      if q'.cgi.isNull && q'.ecgi.isNull && q'.tai.isNull {
        q' := q'.(cgi := r.cgi, ecgi := r.ecgi, tai := r.tai);
      }
    }

    /** Looks a session up; each piece of data is completed only if the caller asked for it. */
    method Get(id: Id, info: Option<SessionInfo>, request: Option<RequestInfo>, linked: Option<Id>)
      returns (ok: bool, info': Option<SessionInfo>, request': Option<RequestInfo>, linked': Option<Id>)
      ensures ok <==> id in sessions
      ensures ok && info.Some? ==> info' == Some(FillInfo(sessions[id], id, info.value))
      ensures ok && request.Some? ==> request' == Some(FillRequest(sessions[id], request.value))
      ensures ok ==> linked' == if id in parent then Some(parent[id]) else linked
      ensures !ok || info.None? ==> info' == info
      ensures !ok || request.None? ==> request' == request
      ensures !ok ==> linked' == linked
    {
      info', request', linked' := info, request, linked;
      ok := id in sessions;
      if ok {
        if info.Some? {
          var i := CompleteInfo(sessions[id], id, info.value);
          info' := Some(i);
        }
        if request.Some? {
          var q := CompleteRequest(sessions[id], request.value);
          request' := Some(q);
        }
        if id in parent {
          linked' := Some(parent[id]);
        }
      }
    }

    method RemoveLocal(id: Id) returns (ok: bool)
      modifies this
      ensures ok <==> id in old(sessions)
      ensures State() == SessionCache.RemoveLocal(old(State()), id)
    {
      Unlink(id);
      ok := id in sessions;
      if ok {
        var r := sessions[id];
        if !r.subscriberId.isNull {
          UnindexSubscriber(r.subscriberId.v, id);
        }
        UnindexIp(r.framedIp.v, id);
        sessions := sessions - {id};
      }
    }

    /** The sessions listed for an address. */
    method SessionList(ip: string) returns (ids: seq<Id>)
      ensures ids == IpList(State(), ip)
    {
      ids := [];
      if ip in byIp {
        ids := byIp[ip];
      }
    }
  }
}
