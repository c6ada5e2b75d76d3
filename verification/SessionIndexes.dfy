/** The two indexes of the session cache: exactly when each stays exact, one operation at a time. */
module SessionIndexes {
  import opened Common
  import opened SessionCache
  import opened SessionLinks

  // ----- By subscriber

  function SubscriberKey(r: Record): Option<string> {
    if r.subscriberId.isNull then None else Some(r.subscriberId.v)
  }

  /** Each subscriber's set holds exactly the live sessions with that subscriber. */
  ghost predicate SubscriberExact(c: Cache) {
    forall s, id :: id in SubscriberSet(c, s) <==> id in c.sessions && SubscriberKey(c.sessions[id]) == Some(s)
  }

  /** An update that leaves everybody's subscriber alone: the session's own, and through a
      non-null one that of each live child. */
  ghost predicate KeepsSubscriber(c: Cache, id: Id, r: Record)
    requires id in c.sessions
  {
    && SubscriberKey(r) == SubscriberKey(c.sessions[id])
    && (SubscriberKey(r).Some? ==>
          forall x | x in Children(c, id) && x in c.sessions :: SubscriberKey(c.sessions[x]) == SubscriberKey(r))
  }

  lemma UpdateRecord(c: Cache, id: Id, r: Record, parent: Option<Id>, dialect: Dialect, x: Id)
    requires id in c.sessions && x in c.sessions
    ensures var c' := InsertLocal(c, id, r, parent, dialect);
            && c'.sessions.Keys == c.sessions.Keys
            && c' == c.(sessions := c'.sessions)
            && c'.sessions[x] == if x == id then r
                                 else if x in Children(c, id) then Overlay(c.sessions[x], r) else c.sessions[x]
  {
  }

  /** An index that is not touched stays exact if and only if nobody's key has changed. */
  lemma SameIndexSameKeys(c: Cache, c': Cache)
    requires SubscriberExact(c) && c'.bySubscriber == c.bySubscriber && c'.sessions.Keys == c.sessions.Keys
    ensures SubscriberExact(c') <==>
            forall x | x in c.sessions :: SubscriberKey(c'.sessions[x]) == SubscriberKey(c.sessions[x])
  {
    forall s ensures SubscriberSet(c', s) == SubscriberSet(c, s) {
    }
    if SubscriberExact(c') {
      forall x | x in c.sessions ensures SubscriberKey(c'.sessions[x]) == SubscriberKey(c.sessions[x]) {
        var before, after := SubscriberKey(c.sessions[x]), SubscriberKey(c'.sessions[x]);
        assert before.Some? ==> x in SubscriberSet(c', before.value);
        assert after.Some? ==> x in SubscriberSet(c, after.value);
      }
    }
  }

  /** Inserting keeps the subscriber index exact if and only if the session is new, or the update
      leaves everybody's subscriber alone. */
  lemma InsertSubscriberExactIff(c: Cache, id: Id, r: Record, parent: Option<Id>, dialect: Dialect)
    requires SubscriberExact(c)
    ensures SubscriberExact(InsertLocal(c, id, r, parent, dialect)) <==>
            (id !in c.sessions || KeepsSubscriber(c, id, r))
  {
    if id in c.sessions {
      UpdateSubscriberExactIff(c, id, r, parent, dialect);
    } else {
      CreateSubscriber(c, id, r, parent, dialect);
    }
    hide InsertLocal, KeepsSubscriber;
  }

  lemma UpdatedKeys(c: Cache, id: Id, r: Record, parent: Option<Id>, dialect: Dialect)
    requires id in c.sessions
    ensures var c' := InsertLocal(c, id, r, parent, dialect);
            && c'.bySubscriber == c.bySubscriber && c'.sessions.Keys == c.sessions.Keys
            && forall x | x in c.sessions ::
                 SubscriberKey(c'.sessions[x]) ==
                 if x == id || (x in Children(c, id) && SubscriberKey(r).Some?) then SubscriberKey(r)
                 else SubscriberKey(c.sessions[x])
  {
    var c' := InsertLocal(c, id, r, parent, dialect);
    UpdateRecord(c, id, r, parent, dialect, id);
    forall x | x in c.sessions
      ensures SubscriberKey(c'.sessions[x]) ==
              if x == id || (x in Children(c, id) && SubscriberKey(r).Some?) then SubscriberKey(r)
              else SubscriberKey(c.sessions[x])
    {
      UpdateRecord(c, id, r, parent, dialect, x);
    }
  }

  lemma UpdateSubscriberExactIff(c: Cache, id: Id, r: Record, parent: Option<Id>, dialect: Dialect)
    requires SubscriberExact(c) && id in c.sessions
    ensures SubscriberExact(InsertLocal(c, id, r, parent, dialect)) <==> KeepsSubscriber(c, id, r)
  {
    UpdatedKeys(c, id, r, parent, dialect);
    SameIndexSameKeys(c, InsertLocal(c, id, r, parent, dialect));
    hide InsertLocal, SubscriberExact, SubscriberKey;
  }

  lemma LinkTouchesLinksOnly(c: Cache, id: Id, p: Id)
    ensures var c' := LinkToParent(c, id, p); c' == c.(children := c'.children, parent := c'.parent)
  {
  }

  lemma UnlinkTouchesLinksOnly(c: Cache, id: Id)
    ensures var c' := RemoveLink(c, id); c' == c.(children := c'.children, parent := c'.parent)
  {
  }

  /** What creating a session does to the records and to the indexes. */
  lemma CreateParts(c: Cache, id: Id, r: Record, parent: Option<Id>, dialect: Dialect)
    requires id !in c.sessions
    ensures var c' := InsertLocal(c, id, r, parent, dialect);
            && c'.sessions == c.sessions[id := r]
            && c'.byIp == (if IsCore(dialect) then AddIp(c, r.framedIp.v, id) else c).byIp
            && c'.bySubscriber == (if r.subscriberId.isNull then c else AddSubscriber(c, r.subscriberId.v, id)).bySubscriber
  {
    hide LinkToParent;
    if parent.Some? {
      LinkTouchesLinksOnly(InsertLocal(c, id, r, None, dialect), id, parent.value);
    }
  }

  /** What removing one does to them. */
  lemma RemoveParts(c: Cache, id: Id)
    ensures var c' := RemoveLocal(c, id);
            && c'.sessions == c.sessions - {id}
            && (id !in c.sessions ==> c'.byIp == c.byIp && c'.bySubscriber == c.bySubscriber)
            && (id in c.sessions ==>
                  && c'.byIp == DropIp(c, c.sessions[id].framedIp.v, id).byIp
                  && c'.bySubscriber == (if c.sessions[id].subscriberId.isNull then c
                                         else DropSubscriber(c, c.sessions[id].subscriberId.v, id)).bySubscriber)
  {
    RemoveSessions(c, id);
    RemoveByIp(c, id);
    RemoveBySubscriber(c, id);
    hide RemoveLocal;
  }

  lemma RemoveSessions(c: Cache, id: Id)
    ensures RemoveLocal(c, id).sessions == c.sessions - {id}
  {
    UnlinkTouchesLinksOnly(c, id);
    hide RemoveLink, Without;
  }

  lemma RemoveByIp(c: Cache, id: Id)
    ensures RemoveLocal(c, id).byIp ==
            if id in c.sessions then DropIp(c, c.sessions[id].framedIp.v, id).byIp else c.byIp
  {
    UnlinkTouchesLinksOnly(c, id);
    hide RemoveLink, Without;
  }

  lemma RemoveBySubscriber(c: Cache, id: Id)
    ensures RemoveLocal(c, id).bySubscriber ==
            if id in c.sessions && !c.sessions[id].subscriberId.isNull
            then DropSubscriber(c, c.sessions[id].subscriberId.v, id).bySubscriber else c.bySubscriber
  {
    UnlinkTouchesLinksOnly(c, id);
    hide RemoveLink, Without;
  }

  lemma CreateSubscriber(c: Cache, id: Id, r: Record, parent: Option<Id>, dialect: Dialect)
    requires id !in c.sessions
    ensures var c' := InsertLocal(c, id, r, parent, dialect);
            && c'.sessions == c.sessions[id := r]
            && forall s :: SubscriberSet(c', s) ==
                 if SubscriberKey(r) == Some(s) then SubscriberSet(c, s) + {id} else SubscriberSet(c, s)
  {
    CreateParts(c, id, r, parent, dialect);
    hide InsertLocal;
  }

  lemma RemoveSubscriberExact(c: Cache, id: Id)
    requires SubscriberExact(c)
    ensures SubscriberExact(RemoveLocal(c, id))
  {
    RemoveParts(c, id);
    hide RemoveLocal;
    var c' := RemoveLocal(c, id);
    forall s, x
      ensures x in SubscriberSet(c', s) <==> x in c'.sessions && SubscriberKey(c'.sessions[x]) == Some(s)
    {
      assert x in SubscriberSet(c, s) <==> x in c.sessions && SubscriberKey(c.sessions[x]) == Some(s);
      if id in c.sessions && SubscriberKey(c.sessions[id]) == Some(s) {
        assert SubscriberSet(c', s) == SubscriberSet(c, s) - {id};
      } else {
        assert SubscriberSet(c', s) == SubscriberSet(c, s);
      }
    }
  }

  // ----- By address

  /** A live session with the dialect of the peer that created it; UGW and Ericsson gateways are the
      core peers. */
  datatype Birth = Birth(id: Id, dialect: Dialect) {
    predicate Core() {
      dialect.HuaweiUgw? || dialect.Ericsson?
    }
  }

  function Ids(log: seq<Birth>): set<Id> {
    set b | b in log :: b.id
  }

  ghost predicate LogOk(log: seq<Birth>, sessions: map<Id, Record>) {
    && Ids(log) == sessions.Keys
    && Distinct(log)
  }

  ghost predicate Distinct(log: seq<Birth>) {
    forall i, j | 0 <= i < j < |log| :: log[i].id != log[j].id
  }

  predicate IsCoreSession(log: seq<Birth>, id: Id) {
    Birth(id, HuaweiUgw) in log || Birth(id, Ericsson) in log
  }

  /** The core sessions at an address, in order of creation. */
  function CoreAt(log: seq<Birth>, sessions: map<Id, Record>, ip: string): seq<Id> {
    if log == [] then []
    else (if log[0].Core() && log[0].id in sessions && sessions[log[0].id].framedIp.v == ip then [log[0].id] else [])
         + CoreAt(log[1..], sessions, ip)
  }

  /** Each address's list is exactly the core sessions with that address, in order of creation. */
  ghost predicate IpExact(c: Cache, log: seq<Birth>) {
    forall ip :: IpList(c, ip) == CoreAt(log, c.sessions, ip)
  }

  lemma {:induction false} CoreAtMembers(log: seq<Birth>, sessions: map<Id, Record>, ip: string)
    ensures forall x :: x in CoreAt(log, sessions, ip) <==>
              IsCoreSession(log, x) && x in sessions && sessions[x].framedIp.v == ip
  {
    if log == [] {
    } else {
      CoreAtMembers(log[1..], sessions, ip);
      assert log == [log[0]] + log[1..];
    }
  }

  lemma {:induction false} CoreAtConcat(a: seq<Birth>, b: seq<Birth>, sessions: map<Id, Record>, ip: string)
    ensures CoreAt(a + b, sessions, ip) == CoreAt(a, sessions, ip) + CoreAt(b, sessions, ip)
  {
    if a == [] {
      assert a + b == b;
    } else {
      assert (a + b)[1..] == a[1..] + b;
      CoreAtConcat(a[1..], b, sessions, ip);
      var head := if a[0].Core() && a[0].id in sessions && sessions[a[0].id].framedIp.v == ip then [a[0].id] else [];
      Associates(head, CoreAt(a[1..], sessions, ip), CoreAt(b, sessions, ip));
    }
  }

  /** Only the core sessions' addresses matter. */
  lemma {:induction false} CoreAtDepends(log: seq<Birth>, m: map<Id, Record>, m': map<Id, Record>, ip: string)
    requires forall b | b in log && b.Core() ::
               (b.id in m <==> b.id in m') && (b.id in m ==> m[b.id].framedIp.v == m'[b.id].framedIp.v)
    ensures CoreAt(log, m, ip) == CoreAt(log, m', ip)
  {
    if log == [] {
    } else {
      assert log[0] in log;
      CoreAtDepends(log[1..], m, m', ip);
    }
  }

  /** An update that leaves every core session's address alone: its own if it is one, and through
      a non-null one that of each child that is one. */
  ghost predicate KeepsAddress(c: Cache, log: seq<Birth>, id: Id, r: Record)
    requires id in c.sessions
  {
    && (IsCoreSession(log, id) ==> r.framedIp.v == c.sessions[id].framedIp.v)
    && (!r.framedIp.isNull ==>
          forall x | x in Children(c, id) && x != id && x in c.sessions && IsCoreSession(log, x) ::
            c.sessions[x].framedIp.v == r.framedIp.v)
  }

  lemma SameIndexSameAddresses(c: Cache, c': Cache, log: seq<Birth>)
    requires IpExact(c, log) && c'.byIp == c.byIp && c'.sessions.Keys == c.sessions.Keys
    ensures IpExact(c', log) <==>
            forall x | x in c.sessions && IsCoreSession(log, x) ::
              c'.sessions[x].framedIp.v == c.sessions[x].framedIp.v
  {
    forall ip ensures IpList(c', ip) == IpList(c, ip) == CoreAt(log, c.sessions, ip) {
    }
    if IpExact(c', log) {
      forall x | x in c.sessions && IsCoreSession(log, x)
        ensures c'.sessions[x].framedIp.v == c.sessions[x].framedIp.v
      {
        var ip := c.sessions[x].framedIp.v;
        CoreAtMembers(log, c.sessions, ip);
        CoreAtMembers(log, c'.sessions, ip);
        assert x in IpList(c, ip) && IpList(c', ip) == CoreAt(log, c'.sessions, ip);
      }
    } else if forall x | x in c.sessions && IsCoreSession(log, x) ::
                c'.sessions[x].framedIp.v == c.sessions[x].framedIp.v {
      forall ip ensures CoreAt(log, c'.sessions, ip) == CoreAt(log, c.sessions, ip) {
        forall b | b in log && b.Core() ensures b == Birth(b.id, b.dialect) && IsCoreSession(log, b.id) {
        }
        CoreAtDepends(log, c.sessions, c'.sessions, ip);
      }
    }
  }

  /** Updating keeps the address index exact if and only if it leaves every core session's address
      alone. */
  lemma UpdateIpExactIff(c: Cache, log: seq<Birth>, id: Id, r: Record, parent: Option<Id>, dialect: Dialect)
    requires IpExact(c, log) && id in c.sessions
    ensures IpExact(InsertLocal(c, id, r, parent, dialect), log) <==> KeepsAddress(c, log, id, r)
  {
    var c' := InsertLocal(c, id, r, parent, dialect);
    UpdateRecord(c, id, r, parent, dialect, id);
    SameIndexSameAddresses(c, c', log);
    forall x | x in c.sessions
      ensures c'.sessions[x].framedIp.v ==
              if x == id || (x in Children(c, id) && !r.framedIp.isNull) then r.framedIp.v
              else c.sessions[x].framedIp.v
    {
      UpdateRecord(c, id, r, parent, dialect, x);
    }
  }

  /** A new session always keeps it so. */
  lemma CreateIpExact(c: Cache, log: seq<Birth>, id: Id, r: Record, parent: Option<Id>, dialect: Dialect)
    requires IpExact(c, log) && LogOk(log, c.sessions) && id !in c.sessions
    ensures IpExact(InsertLocal(c, id, r, parent, dialect), log + [Birth(id, dialect)])
    ensures LogOk(log + [Birth(id, dialect)], InsertLocal(c, id, r, parent, dialect).sessions)
  {
    hide InsertLocal, CoreAt, IpList;
    var c' := InsertLocal(c, id, r, parent, dialect);
    var b := Birth(id, dialect);
    CreateParts(c, id, r, parent, dialect);
    NewInLog(log, c.sessions, b);
    forall ip ensures IpList(c', ip) == CoreAt(log + [b], c'.sessions, ip) {
      CreateIpList(c, id, r, parent, dialect, ip);
      CoreAtConcat(log, [b], c'.sessions, ip);
      CoreAtDepends(log, c.sessions, c'.sessions, ip);
      CoreAtOne(b, c'.sessions, ip);
    }
  }

  lemma NewInLog(log: seq<Birth>, sessions: map<Id, Record>, b: Birth)
    requires LogOk(log, sessions) && b.id !in sessions
    ensures forall x | x in log :: x.id != b.id
    ensures Ids(log + [b]) == sessions.Keys + {b.id}
    ensures Distinct(log + [b])
  {
    forall x | x in log ensures x.id != b.id {
      assert x.id in Ids(log);
    }
    assert Ids(log + [b]) == Ids(log) + {b.id};
  }

  lemma CoreAtOne(b: Birth, m: map<Id, Record>, ip: string)
    ensures CoreAt([b], m, ip) == if b.Core() && b.id in m && m[b.id].framedIp.v == ip then [b.id] else []
  {
  }

  /** A new session of a UGW or Ericsson peer is appended to the list of its address and to no other;
      one of any other peer changes no list. */
  lemma CreateIndexes(c: Cache, id: Id, r: Record, parent: Option<Id>, dialect: Dialect, ip: string)
    requires id !in c.sessions
    ensures IpList(InsertLocal(c, id, r, parent, dialect), ip) ==
            if dialect in {HuaweiUgw, Ericsson} && ip == r.framedIp.v then IpList(c, ip) + [id] else IpList(c, ip)
  {
    CreateIpList(c, id, r, parent, dialect, ip);
    assert IpList(c, ip) + [] == IpList(c, ip);
    hide InsertLocal, IpList;
  }

  lemma CreateIpList(c: Cache, id: Id, r: Record, parent: Option<Id>, dialect: Dialect, ip: string)
    requires id !in c.sessions
    ensures var c' := InsertLocal(c, id, r, parent, dialect);
            && c'.sessions == c.sessions[id := r]
            && IpList(c', ip) == IpList(c, ip) + (if IsCore(dialect) && r.framedIp.v == ip then [id] else [])
  {
    CreateParts(c, id, r, parent, dialect);
    hide InsertLocal;
  }

  function WithoutBirth(log: seq<Birth>, id: Id): seq<Birth> {
    if log == [] then []
    else (if log[0].id == id then [] else [log[0]]) + WithoutBirth(log[1..], id)
  }

  lemma {:induction false} WithoutBirthMembers(log: seq<Birth>, id: Id)
    ensures forall b :: b in WithoutBirth(log, id) <==> b in log && b.id != id
  {
    if log == [] {
    } else {
      WithoutBirthMembers(log[1..], id);
      assert log == [log[0]] + log[1..];
    }
  }

  lemma {:induction false} WithoutBirthDistinct(log: seq<Birth>, id: Id)
    requires Distinct(log)
    ensures Distinct(WithoutBirth(log, id))
  {
    if log == [] {
    } else {
      WithoutBirthDistinct(log[1..], id);
      WithoutBirthMembers(log[1..], id);
      var rest := WithoutBirth(log[1..], id);
      forall j | 0 <= j < |rest| ensures rest[j].id != log[0].id {
        assert rest[j] in log[1..];
      }
    }
  }

  lemma {:induction false} CoreAtWithout(log: seq<Birth>, m: map<Id, Record>, id: Id, ip: string)
    ensures CoreAt(WithoutBirth(log, id), m - {id}, ip) == Without(CoreAt(log, m, ip), id)
  {
    if log == [] {
    } else {
      var b := log[0];
      CoreAtWithout(log[1..], m, id, ip);
      var head := if b.Core() && b.id in m && m[b.id].framedIp.v == ip then [b.id] else [];
      WithoutConcat(head, CoreAt(log[1..], m, ip), id);
      CoreAtConcat(if b.id == id then [] else [b], WithoutBirth(log[1..], id), m - {id}, ip);
    }
  }

  /** Removing a session keeps the address index exact, whatever the session. */
  lemma RemoveIpExact(c: Cache, log: seq<Birth>, id: Id)
    requires IpExact(c, log) && LogOk(log, c.sessions)
    ensures IpExact(RemoveLocal(c, id), WithoutBirth(log, id))
    ensures LogOk(WithoutBirth(log, id), RemoveLocal(c, id).sessions)
  {
    hide RemoveLocal, CoreAt, Without, WithoutBirth;
    var c' := RemoveLocal(c, id);
    RemoveParts(c, id);
    OutOfLog(log, c.sessions, id);
    forall ip ensures IpList(c', ip) == CoreAt(WithoutBirth(log, id), c'.sessions, ip) {
      assert IpList(c, ip) == CoreAt(log, c.sessions, ip);
      CoreAtWithout(log, c.sessions, id, ip);
      CoreAtMembers(log, c.sessions, ip);
      if id !in IpList(c, ip) {
        WithoutAbsent(IpList(c, ip), id);
      }
    }
  }

  lemma OutOfLog(log: seq<Birth>, sessions: map<Id, Record>, id: Id)
    requires LogOk(log, sessions)
    ensures LogOk(WithoutBirth(log, id), sessions - {id})
  {
    WithoutBirthMembers(log, id);
    WithoutBirthDistinct(log, id);
    assert Ids(WithoutBirth(log, id)) == Ids(log) - {id} by {
      forall x | x in Ids(log) - {id} ensures x in Ids(WithoutBirth(log, id)) {
        var b :| b in log && b.id == x;
        assert b in WithoutBirth(log, id);
      }
    }
  }
}
