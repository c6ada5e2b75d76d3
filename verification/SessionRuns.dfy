/** Whole runs of the session cache. The indexes and the links stay right together, and exactly as
    long as the callers keep to a discipline that can be read off the cache before each call. */
module SessionRuns {
  import opened Common
  import opened SessionCache
  import opened SessionLinks
  import opened SessionIndexes

  /** The cache, and the live sessions in order of creation. */
  datatype World = World(c: Cache, log: seq<Birth>)

  const START := World(EMPTY, [])

  function Step(w: World, e: Event): World {
    World(Next(w.c, e),
          match e
          case Insert(id, _, _, dialect) => if id in w.c.sessions then w.log else w.log + [Birth(id, dialect)]
          case Remove(id) => WithoutBirth(w.log, id))
  }

  /** Parents are live core sessions and children live sessions of other peers. */
  ghost predicate TwoLevel(w: World) {
    && (forall p | p in w.c.children :: p in w.c.sessions && IsCoreSession(w.log, p))
    && (forall x | x in w.c.parent :: x in w.c.sessions && !IsCoreSession(w.log, x))
  }

  /** A child has its parent's subscriber, if the parent has one. */
  ghost predicate Shared(c: Cache) {
    forall x | x in c.parent && x in c.sessions && c.parent[x] in c.sessions ::
      SharesSubscriber(SubscriberKey(c.sessions[x]), SubscriberKey(c.sessions[c.parent[x]]))
  }

  predicate SharesSubscriber(child: Option<string>, parent: Option<string>) {
    parent.Some? ==> child == parent
  }

  ghost predicate Inv(w: World) {
    && LogOk(w.log, w.c.sessions)
    && LinksInverse(w.c)
    && SubscriberExact(w.c)
    && IpExact(w.c, w.log)
    && TwoLevel(w)
    && Shared(w.c)
  }

  /** What a caller can check beforehand: an update keeps the session's subscriber and, for a core
      session, its address; a new session is linked only to a live core session of its subscriber,
      and only if it is not a core session itself. */
  predicate Legal(w: World, e: Event) {
    match e
    case Remove(_) => true
    case Insert(id, r, parent, dialect) =>
      if id in w.c.sessions then
        && SubscriberKey(r) == SubscriberKey(w.c.sessions[id])
        && (IsCoreSession(w.log, id) ==> r.framedIp.v == w.c.sessions[id].framedIp.v)
      else
        parent.Some? ==>
          && parent.value in w.c.sessions
          && IsCoreSession(w.log, parent.value)
          && !IsCore(dialect)
          && SharesSubscriber(SubscriberKey(r), SubscriberKey(w.c.sessions[parent.value]))
  }

  // ----- Updates

  lemma LegalUpdateKeeps(w: World, id: Id, r: Record, parent: Option<Id>, dialect: Dialect)
    requires Inv(w) && id in w.c.sessions && Legal(w, Insert(id, r, parent, dialect))
    ensures KeepsSubscriber(w.c, id, r) && KeepsAddress(w.c, w.log, id, r)
  {
    forall x | x in Children(w.c, id) && x in w.c.sessions
      ensures !IsCoreSession(w.log, x)
      ensures SharesSubscriber(SubscriberKey(w.c.sessions[x]), SubscriberKey(w.c.sessions[id]))
    {
      assert Linked(w.c, x, id);
    }
  }

  lemma SameKeysKeepLinks(w: World, c': Cache)
    requires TwoLevel(w) && Shared(w.c)
    requires c' == w.c.(sessions := c'.sessions) && c'.sessions.Keys == w.c.sessions.Keys
    requires forall x | x in w.c.sessions :: SubscriberKey(c'.sessions[x]) == SubscriberKey(w.c.sessions[x])
    ensures TwoLevel(World(c', w.log)) && Shared(c')
  {
    forall x | x in c'.parent && x in c'.sessions && c'.parent[x] in c'.sessions
      ensures SharesSubscriber(SubscriberKey(c'.sessions[x]), SubscriberKey(c'.sessions[c'.parent[x]]))
    {
      assert x in w.c.sessions && w.c.parent[x] in w.c.sessions;
    }
  }

  lemma UpdateStep(w: World, id: Id, r: Record, parent: Option<Id>, dialect: Dialect)
    requires Inv(w) && id in w.c.sessions
    ensures var e := Insert(id, r, parent, dialect); Inv(Step(w, e)) <==> Legal(w, e)
  {
    var c' := InsertLocal(w.c, id, r, parent, dialect);
    InsertSubscriberExactIff(w.c, id, r, parent, dialect);
    UpdateIpExactIff(w.c, w.log, id, r, parent, dialect);
    UpdateRecord(w.c, id, r, parent, dialect, id);
    InsertKeepsInverse(w.c, id, r, parent, dialect);
    hide InsertLocal, SubscriberExact, IpExact, LinksInverse, TwoLevel, Shared, IsCoreSession;
    if Legal(w, Insert(id, r, parent, dialect)) {
      LegalUpdateKeeps(w, id, r, parent, dialect);
      SameIndexSameKeys(w.c, c');
      SameKeysKeepLinks(w, c');
    }
  }

  // ----- New sessions

  lemma CreateLinks(c: Cache, id: Id, r: Record, parent: Option<Id>, dialect: Dialect)
    requires id !in c.sessions && id !in c.parent
    ensures var c' := InsertLocal(c, id, r, parent, dialect);
            && c'.children == (match parent case None => c.children
                                            case Some(p) => c.children[p := Children(c, p) + [id]])
            && c'.parent == (match parent case None => c.parent case Some(p) => c.parent[id := p])
  {
  }

  lemma BirthMembers(log: seq<Birth>, b: Birth)
    ensures forall x :: IsCoreSession(log + [b], x) <==> IsCoreSession(log, x) || (b.id == x && b.Core())
  {
  }

  lemma CreateTwoLevel(w: World, id: Id, r: Record, parent: Option<Id>, dialect: Dialect)
    requires Inv(w) && id !in w.c.sessions
    ensures TwoLevel(Step(w, Insert(id, r, parent, dialect))) <==>
            parent.None? || (parent.value in w.c.sessions && IsCoreSession(w.log, parent.value) && !IsCore(dialect))
  {
    CreateLinks(w.c, id, r, parent, dialect);
    CreateParts(w.c, id, r, parent, dialect);
    BirthMembers(w.log, Birth(id, dialect));
    NotInLog(w, id);
    hide InsertLocal, LinksInverse, SubscriberExact, IpExact, IsCoreSession, Shared, LogOk;
    var w' := Step(w, Insert(id, r, parent, dialect));
    assert w'.log == w.log + [Birth(id, dialect)];
    hide Step;
    if parent.Some? {
      assert parent.value in w'.c.children && id in w'.c.parent;
    }
  }

  lemma NotInLog(w: World, id: Id)
    requires LogOk(w.log, w.c.sessions) && id !in w.c.sessions
    ensures !IsCoreSession(w.log, id)
  {
    assert Birth(id, HuaweiUgw) in w.log || Birth(id, Ericsson) in w.log ==> id in Ids(w.log);
  }

  lemma CreateShared(w: World, id: Id, r: Record, parent: Option<Id>, dialect: Dialect)
    requires Inv(w) && id !in w.c.sessions
    requires parent.Some? ==> parent.value in w.c.sessions
    ensures Shared(InsertLocal(w.c, id, r, parent, dialect)) <==>
            parent.None? || SharesSubscriber(SubscriberKey(r), SubscriberKey(w.c.sessions[parent.value]))
  {
    CreateLinks(w.c, id, r, parent, dialect);
    CreateParts(w.c, id, r, parent, dialect);
    NoLinkToAbsent(w, id);
    hide InsertLocal, LinksInverse, SubscriberExact, IpExact, IsCoreSession, LogOk, SharesSubscriber, SubscriberKey;
    var c' := InsertLocal(w.c, id, r, parent, dialect);
    if parent.Some? {
      assert id in c'.parent && id in c'.sessions && c'.parent[id] in c'.sessions;
    }
  }

  lemma NoLinkToAbsent(w: World, id: Id)
    requires LinksInverse(w.c) && TwoLevel(w) && id !in w.c.sessions
    ensures forall x | x in w.c.parent :: x != id && w.c.parent[x] != id
  {
    forall x | x in w.c.parent ensures x != id && w.c.parent[x] != id {
      assert Linked(w.c, x, w.c.parent[x]);
      assert x in Children(w.c, w.c.parent[x]);
    }
  }

  lemma CreateStep(w: World, id: Id, r: Record, parent: Option<Id>, dialect: Dialect)
    requires Inv(w) && id !in w.c.sessions
    ensures var e := Insert(id, r, parent, dialect); Inv(Step(w, e)) <==> Legal(w, e)
  {
    CreateTwoLevel(w, id, r, parent, dialect);
    InsertKeepsInverse(w.c, id, r, parent, dialect);
    InsertSubscriberExactIff(w.c, id, r, parent, dialect);
    CreateIpExact(w.c, w.log, id, r, parent, dialect);
    if parent.Some? ==> parent.value in w.c.sessions {
      CreateShared(w, id, r, parent, dialect);
    }
    hide InsertLocal, LinksInverse, SubscriberExact, IpExact, IsCoreSession, LogOk, TwoLevel, Shared, SharesSubscriber;
  }

  // ----- Removals

  lemma RemoveLinksParts(c: Cache, id: Id)
    ensures RemoveLocal(c, id).children == RemoveLink(c, id).children
    ensures RemoveLocal(c, id).parent == RemoveLink(c, id).parent
  {
    hide RemoveLink, Without;
  }

  lemma UnlinkKeys(c: Cache, id: Id)
    ensures RemoveLink(c, id).children.Keys == c.children.Keys - {id}
  {
  }

  /** The links that are left, among the sessions that are left. */
  lemma LinksLeft(w: World, id: Id)
    requires LinksInverse(w.c) && TwoLevel(w)
    ensures var c' := RemoveLocal(w.c, id);
            && c'.children.Keys == w.c.children.Keys - {id}
            && forall x | x in c'.parent ::
                 x in w.c.parent && c'.parent[x] == w.c.parent[x] && x != id && w.c.parent[x] != id
  {
    RemoveLinksParts(w.c, id);
    UnlinkKeys(w.c, id);
    UnlinkKeepsInverse(w.c, id);
    var c' := RemoveLocal(w.c, id);
    var l := RemoveLink(w.c, id);
    hide RemoveLocal, RemoveLink;
    forall x | x in c'.parent
      ensures x in w.c.parent && c'.parent[x] == w.c.parent[x] && x != id && w.c.parent[x] != id
    {
      assert Linked(l, x, l.parent[x]);
      assert Linked(w.c, x, l.parent[x]);
      assert x in Children(w.c, w.c.parent[x]);
    }
  }

  lemma RemoveTwoLevel(w: World, id: Id)
    requires LinksInverse(w.c) && TwoLevel(w)
    ensures TwoLevel(Step(w, Remove(id)))
  {
    LinksLeft(w, id);
    RemoveSessions(w.c, id);
    CoreSessionsLeft(w.log, id);
    hide RemoveLocal, LinksInverse, WithoutBirth, IsCoreSession;
  }

  lemma CoreSessionsLeft(log: seq<Birth>, id: Id)
    ensures forall x :: IsCoreSession(WithoutBirth(log, id), x) <==> IsCoreSession(log, x) && x != id
  {
    WithoutBirthMembers(log, id);
    hide WithoutBirth;
  }

  lemma RemoveShared(w: World, id: Id)
    requires LinksInverse(w.c) && TwoLevel(w) && Shared(w.c)
    ensures Shared(RemoveLocal(w.c, id))
  {
    LinksLeft(w, id);
    RemoveSessions(w.c, id);
    hide RemoveLocal, LinksInverse, SubscriberKey, SharesSubscriber, IsCoreSession;
  }

  lemma RemoveStep(w: World, id: Id)
    requires Inv(w)
    ensures Inv(Step(w, Remove(id)))
  {
    RemoveTwoLevel(w, id);
    RemoveShared(w, id);
    RemoveKeepsInverse(w.c, id);
    RemoveSubscriberExact(w.c, id);
    RemoveIpExact(w.c, w.log, id);
    hide RemoveLocal, LinksInverse, SubscriberExact, IpExact, LogOk, TwoLevel, Shared;
  }

  // ----- Runs

  /** One step keeps every index and link right if and only if it is legal. */
  lemma StepKeepsInvIff(w: World, e: Event)
    requires Inv(w)
    ensures Inv(Step(w, e)) <==> Legal(w, e)
  {
    hide Inv;
    match e {
      case Insert(id, r, parent, dialect) =>
        if id in w.c.sessions {
          UpdateStep(w, id, r, parent, dialect);
        } else {
          CreateStep(w, id, r, parent, dialect);
        }
      case Remove(id) =>
        RemoveStep(w, id);
    }
  }

  function RunFrom(w: World, events: seq<Event>): World
    decreases |events|
  {
    if events == [] then w else RunFrom(Step(w, events[0]), events[1..])
  }

  ghost predicate LegalRun(w: World, events: seq<Event>)
    decreases |events|
  {
    events == [] || (Legal(w, events[0]) && LegalRun(Step(w, events[0]), events[1..]))
  }

  lemma {:induction false} RunKeepsInv(w: World, events: seq<Event>)
    requires Inv(w) && LegalRun(w, events)
    ensures Inv(RunFrom(w, events))
    decreases |events|
  {
    if events == [] {
    } else {
      StepKeepsInvIff(w, events[0]);
      hide Inv, Legal, Step;
      RunKeepsInv(Step(w, events[0]), events[1..]);
    }
  }

  lemma {:induction false} SameCache(w: World, events: seq<Event>)
    ensures RunFrom(w, events).c == Run(w.c, events)
    decreases |events|
  {
    if events == [] {
    } else {
      SameCache(Step(w, events[0]), events[1..]);
    }
  }

  lemma StartInv()
    ensures Inv(START)
  {
    assert Ids([]) == {};
  }

  /** In every legal run from the empty cache, both indexes are exact, the link maps are inverse,
      links join live sessions of two levels and one subscriber. */
  lemma EveryLegalRun(events: seq<Event>)
    requires LegalRun(START, events)
    ensures Inv(RunFrom(START, events))
    ensures RunFrom(START, events).c == Run(EMPTY, events)
  {
    StartInv();
    RunKeepsInv(START, events);
    SameCache(START, events);
  }

  // ----- What follows

  lemma BothEndsLive(w: World, x: Id, p: Id)
    requires Inv(w) && (x in Children(w.c, p) || Linked(w.c, x, p))
    ensures x in w.c.sessions && p in w.c.sessions && x != p
    ensures IsCoreSession(w.log, p) && !IsCoreSession(w.log, x)
    ensures SharesSubscriber(SubscriberKey(w.c.sessions[x]), SubscriberKey(w.c.sessions[p]))
  {
    assert Linked(w.c, x, p);
    assert x in Children(w.c, p);
  }

  /** Whether an id occurs in any of the five maps. */
  ghost predicate Occurs(c: Cache, id: Id) {
    || id in c.sessions
    || (exists ip :: id in IpList(c, ip))
    || (exists s :: id in SubscriberSet(c, s))
    || InLinks(c, id)
  }

  /** A removed session occurs in none of the five maps. */
  lemma RemovedLeavesNoTrace(w: World, id: Id)
    requires Inv(w)
    ensures !Occurs(RemoveLocal(w.c, id), id)
  {
    RemoveStep(w, id);
    RemoveSessions(w.c, id);
    DeadLeaveNoTrace(Step(w, Remove(id)), id);
    hide RemoveLocal, WithoutBirth, Inv, Occurs;
  }

  /** Only live sessions occur anywhere in the five maps. */
  lemma DeadLeaveNoTrace(w: World, id: Id)
    requires Inv(w) && id !in w.c.sessions
    ensures !Occurs(w.c, id)
  {
    forall ip ensures id !in IpList(w.c, ip) {
      CoreAtMembers(w.log, w.c.sessions, ip);
    }
    hide CoreAt, LogOk;
    forall x, p | Linked(w.c, x, p) || x in Children(w.c, p) ensures x != id && p != id {
      BothEndsLive(w, x, p);
    }
    forall x | x in w.c.parent ensures x != id {
      BothEndsLive(w, x, w.c.parent[x]);
    }
  }

  lemma {:induction false} CoreAtOrder(log: seq<Birth>, m: map<Id, Record>, ip: string, i: nat, j: nat)
    returns (k: nat, l: nat)
    requires i < j < |CoreAt(log, m, ip)|
    ensures k < l < |log| && log[k].id == CoreAt(log, m, ip)[i] && log[l].id == CoreAt(log, m, ip)[j]
  {
    var rest := CoreAt(log[1..], m, ip);
    var skipped := |CoreAt(log, m, ip)| - |rest|;
    if i < skipped {
      CoreAtMembers(log[1..], m, ip);
      assert rest[j - 1] in rest;
      l :| 0 <= l < |log[1..]| && log[1..][l].id == rest[j - 1];
      k, l := 0, l + 1;
    } else {
      k, l := CoreAtOrder(log[1..], m, ip, i - skipped, j - skipped);
      k, l := k + 1, l + 1;
    }
  }

  /** An address's list names nobody twice, and an earlier session before a later one. */
  lemma ListsAreInOrderOfCreation(w: World, ip: string, i: nat, j: nat) returns (k: nat, l: nat)
    requires Inv(w) && i < j < |IpList(w.c, ip)|
    ensures IpList(w.c, ip)[i] != IpList(w.c, ip)[j]
    ensures k < l < |w.log| && w.log[k].id == IpList(w.c, ip)[i] && w.log[l].id == IpList(w.c, ip)[j]
  {
    assert IpList(w.c, ip) == CoreAt(w.log, w.c.sessions, ip);
    k, l := CoreAtOrder(w.log, w.c.sessions, ip, i, j);
    hide CoreAt;
  }

  ghost predicate CoreSessionAt(w: World, id: Id, ip: string) {
    && (Birth(id, HuaweiUgw) in w.log || Birth(id, Ericsson) in w.log)
    && id in w.c.sessions && w.c.sessions[id].framedIp.v == ip
  }

  lemma {:induction false} LastCoreAt(log: seq<Birth>, m: map<Id, Record>, ip: string) returns (k: nat)
    ensures CoreAt(log, m, ip) != [] ==>
              && k < |log|
              && log[k].Core() && log[k].id in m && m[log[k].id].framedIp.v == ip
              && log[k].id == CoreAt(log, m, ip)[|CoreAt(log, m, ip)| - 1]
              && forall j | k < j < |log| :: !(log[j].Core() && log[j].id in m && m[log[j].id].framedIp.v == ip)
  {
    k := 0;
    if log == [] {
    } else {
      var n := |log| - 1;
      var init := log[..n];
      k := LastCoreAt(init, m, ip);
      assert log == init + [log[n]];
      CoreAtConcat(init, [log[n]], m, ip);
      CoreAtOne(log[n], m, ip);
      hide CoreAt;
      if log[n].Core() && log[n].id in m && m[log[n].id].framedIp.v == ip {
        k := n;
      } else {
        assert CoreAt(log, m, ip) == CoreAt(init, m, ip);
      }
    }
  }

  /** Looking up an address finds the most recently created live core session there, and fails if
      and only if there is none. */
  lemma FindsTheNewestCore(w: World, ip: string)
    requires Inv(w)
    ensures match FindCoreByIp(w.c, ip)
            case None => forall id :: !CoreSessionAt(w, id, ip)
            case Some(id) =>
              && CoreSessionAt(w, id, ip)
              && exists k :: 0 <= k < |w.log| && w.log[k].id == id
                   && forall j | k < j < |w.log| :: !CoreSessionAt(w, w.log[j].id, ip)
  {
    CoreAtMembers(w.log, w.c.sessions, ip);
    var k := LastCoreAt(w.log, w.c.sessions, ip);
    var ids := IpList(w.c, ip);
    assert ids == CoreAt(w.log, w.c.sessions, ip);
    hide CoreAt;
    if ids != [] {
      assert ids[|ids| - 1] in ids;
      forall j | k < j < |w.log| ensures !CoreSessionAt(w, w.log[j].id, ip) {
        OneBirthEach(w, j);
      }
    }
  }

  lemma OneBirthEach(w: World, j: nat)
    requires Distinct(w.log) && j < |w.log|
    ensures IsCoreSession(w.log, w.log[j].id) <==> w.log[j].Core()
  {
    assert w.log[j].Core() ==> w.log[j] == Birth(w.log[j].id, w.log[j].dialect);
    if IsCoreSession(w.log, w.log[j].id) {
      var i :| 0 <= i < |w.log| && w.log[i].id == w.log[j].id && w.log[i].Core();
      assert !(i < j) && !(j < i);
    }
  }
}
