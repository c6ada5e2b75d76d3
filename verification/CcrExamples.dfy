/** Runs in which the cache goes wrong, one for each way it can. */
module CcrExamples {
  import opened Common
  import opened SessionCache
  import opened SessionLinks
  import opened SessionIndexes
  import opened SessionRuns
  import opened CcrFlow
  import opened CcrRuns
  import opened CcrDiscipline
  import opened CcrOrderly

  function Hello(id: Id, host: string): SessionInfo {
    SessionInfo(id, "", NonNull("10.0.0.1"), NULL_FIELD, NonNull(host), NonNull("realm"), NULL_FIELD, NULL_FIELD, NULL_FIELD)
  }

  function TwoPeers(host: string, realm: string): Dialect {
    if host == "ugw" then HuaweiUgw else Procera
  }

  const FIRST := Initial(Hello("A", "ugw"), NO_REQUEST, "1")
  const CHILD := Initial(Hello("P", "procera"), NO_REQUEST, "")
  const SECOND := Initial(Hello("B", "ugw"), NO_REQUEST, "2")
  const CHANGE := Update(Hello("P", "procera"), NO_REQUEST, true)
  const MOVE := Update(Hello("A", "ugw").(framedIp := NonNull("10.0.0.2")), NO_REQUEST, true)
  const END := Termination(Hello("A", "ugw"))

  /** What matters here about the records: who is live, for whom, and who is listed at the address. */
  ghost predicate Shows(c: Cache, subscribers: map<Id, string>, listed: seq<Id>) {
    && c.sessions.Keys == subscribers.Keys
    && (forall id | id in subscribers :: SubscriberKey(c.sessions[id]) == Some(subscribers[id]))
    && IpList(c, "10.0.0.1") == listed
  }

  lemma StartCore(w: World, m: Request, subscribers: map<Id, string>, listed: seq<Id>)
    requires Shows(w.c, subscribers, listed)
    requires m == FIRST || m == SECOND
    requires m.i.sessionId !in subscribers
    ensures Orderly(w, m, TwoPeers)
    ensures Shows(Serve(w, m, TwoPeers).c, subscribers[m.i.sessionId := m.profile], listed + [m.i.sessionId])
  {
    var r := ToRecord(m.i.(subscriberId := m.profile), Some(NO_REQUEST));
    assert EventOf(w.c, m, TwoPeers) == Some(Insert(m.i.sessionId, r, None, HuaweiUgw));
    CreateParts(w.c, m.i.sessionId, r, None, HuaweiUgw);
    CreateIpList(w.c, m.i.sessionId, r, None, HuaweiUgw, "10.0.0.1");
    hide InsertLocal, EventOf, IpList;
  }

  // ----- An address that has passed to another subscriber

  lemma StartChild(w: World)
    requires Shows(w.c, map["A" := "1"], ["A"])
    ensures Orderly(w, CHILD, TwoPeers)
    ensures Shows(Serve(w, CHILD, TwoPeers).c, map["A" := "1", "P" := "1"], ["A"])
  {
    assert CoreOf(w.c, CHILD, TwoPeers) == Some("A");
    JoinKeepsIdentity(w.c, CHILD.i, NO_REQUEST, Some("A"));
    var p := Join(w.c, CHILD.i, NO_REQUEST, Some("A"));
    var e := Stored(p, TwoPeers);
    assert EventOf(w.c, CHILD, TwoPeers) == Some(e);
    CreateParts(w.c, e.id, e.r, e.parent, e.dialect);
    CreateIpList(w.c, e.id, e.r, e.parent, e.dialect, "10.0.0.1");
    hide InsertLocal, EventOf, IpList, Join, CoreOf;
  }

  lemma ThreeStart(w1: World, w2: World)
    requires w1 == Serve(START, FIRST, TwoPeers) && w2 == Serve(w1, CHILD, TwoPeers)
    ensures Orderly(START, FIRST, TwoPeers) && Orderly(w1, CHILD, TwoPeers) && Orderly(w2, SECOND, TwoPeers)
    ensures Shows(w1.c, map["A" := "1"], ["A"])
    ensures Shows(Serve(w2, SECOND, TwoPeers).c, map["A" := "1", "P" := "1", "B" := "2"], ["A", "B"])
  {
    hide Serve, Orderly;
    StartCore(START, FIRST, map[], []);
    assert map[]["A" := "1"] == map["A" := "1"] && [] + ["A"] == ["A"];
    StartChild(w1);
    StartCore(w2, SECOND, map["A" := "1", "P" := "1"], ["A"]);
    assert ["A"] + ["B"] == ["A", "B"];
  }

  lemma ThreeServed(w: World, a: Request, b: Request, d: Request)
    requires Orderly(w, a, TwoPeers) && Orderly(Serve(w, a, TwoPeers), b, TwoPeers)
    requires Orderly(Serve(Serve(w, a, TwoPeers), b, TwoPeers), d, TwoPeers)
    ensures OrderlyRun(w, [a, b, d], TwoPeers)
    ensures ServeAll(w, [a, b, d], TwoPeers) == Serve(Serve(Serve(w, a, TwoPeers), b, TwoPeers), d, TwoPeers)
  {
    hide Serve, Orderly;
    var w1 := Serve(w, a, TwoPeers);
    var w2 := Serve(w1, b, TwoPeers);
    assert [a, b, d][1..] == [b, d] && [b, d][1..] == [d] && [d][1..] == [];
    assert OrderlyRun(w2, [d], TwoPeers) && ServeAll(w2, [d], TwoPeers) == Serve(w2, d, TwoPeers);
    assert OrderlyRun(w1, [b, d], TwoPeers) && ServeAll(w1, [b, d], TwoPeers) == Serve(w2, d, TwoPeers);
  }

  lemma ChangeMovesTheSession(w: World)
    requires Inv(w) && Shows(w.c, map["A" := "1", "P" := "1", "B" := "2"], ["A", "B"])
    ensures var w' := Serve(w, CHANGE, TwoPeers);
            && !Inv(w')
            && "P" in SubscriberSet(w'.c, "1")
            && "P" in w'.c.sessions && SubscriberKey(w'.c.sessions["P"]) == Some("2")
  {
    var p := Prepare(w.c, CHANGE, TwoPeers);
    FilledKeepsPeer(w.c.sessions["P"], "P", CHANGE.i);
    hide FillInfo, FillRequest;
    assert CoreOf(w.c, CHANGE, TwoPeers) == Some("B");
    JoinKeepsIdentity(w.c, Asked(w.c, CHANGE, TwoPeers), AskedRequest(w.c, CHANGE), Some("B"));
    StoredIsPrepared(w, CHANGE, TwoPeers);
    var e := Stored(p, TwoPeers);
    assert e.id == "P" && SubscriberKey(e.r) == Some("2");
    UpdateRecord(w.c, e.id, e.r, e.parent, e.dialect, "P");
    StepKeepsInvIff(w, e);
    hide InsertLocal, EventOf, IpList, Join, Prepare, CoreOf, Asked;
  }

  /** Procera's next stored update gives its session the newcomer's subscriber, while the index still
      lists the session under the old one. */
  lemma ReassignedAddressBreaksTheIndex()
    ensures OrderlyRun(START, [FIRST, CHILD, SECOND], TwoPeers)
    ensures var w := Serve(ServeAll(START, [FIRST, CHILD, SECOND], TwoPeers), CHANGE, TwoPeers);
            && !Inv(w)
            && "P" in SubscriberSet(w.c, "1")
            && "P" in w.c.sessions && SubscriberKey(w.c.sessions["P"]) == Some("2")
  {
    hide Serve, Orderly, Shows, FIRST, CHILD, SECOND, CHANGE, Inv, ServeAll, OrderlyRun;
    var w1 := Serve(START, FIRST, TwoPeers);
    var w2 := Serve(w1, CHILD, TwoPeers);
    ThreeStart(w1, w2);
    ThreeServed(START, FIRST, CHILD, SECOND);
    EveryOrderlyRun([FIRST, CHILD, SECOND], TwoPeers);
    ChangeMovesTheSession(Serve(w2, SECOND, TwoPeers));
  }

  // ----- A core session that moves to another address

  /** The moved session is still listed where it was, and nowhere else. */
  lemma MovedAddressBreaksTheIndex()
    ensures var w := Serve(Serve(START, FIRST, TwoPeers), MOVE, TwoPeers);
            && Orderly(START, FIRST, TwoPeers) && !Inv(w)
            && "A" in w.c.sessions && w.c.sessions["A"].framedIp == NonNull("10.0.0.2")
            && IpList(w.c, "10.0.0.1") == ["A"] && IpList(w.c, "10.0.0.2") == []
  {
    var w := Serve(START, FIRST, TwoPeers);
    StartCore(START, FIRST, map[], []);
    assert [] + ["A"] == ["A"];
    StartInv();
    OrderlyKeepsInv(START, FIRST, TwoPeers);
    var r := ToRecord(FIRST.i.(subscriberId := "1"), Some(NO_REQUEST));
    CreateIpList(EMPTY, "A", r, None, HuaweiUgw, "10.0.0.2");
    CreateParts(EMPTY, "A", r, None, HuaweiUgw);
    MoveKeepsTheList(w, r);
    hide Serve, Orderly, Inv, InsertLocal, IpList;
  }

  lemma MoveKeepsTheList(w: World, r: Record)
    requires Inv(w) && w.c.sessions == map["A" := r] && IpList(w.c, "10.0.0.1") == ["A"]
    requires r.framedIp.v == "10.0.0.1"
    ensures var w' := Serve(w, MOVE, TwoPeers);
            && !Inv(w') && w'.c.byIp == w.c.byIp
            && "A" in w'.c.sessions && w'.c.sessions["A"].framedIp == NonNull("10.0.0.2")
  {
    FilledKeepsPeer(r, "A", MOVE.i);
    hide FillInfo, FillRequest;
    StoredIsPrepared(w, MOVE, TwoPeers);
    var e := Stored(Prepare(w.c, MOVE, TwoPeers), TwoPeers);
    assert e.id == "A" && e.r.framedIp == NonNull("10.0.0.2");
    UpdateRecord(w.c, "A", e.r, e.parent, e.dialect, "A");
    CoreAtMembers(w.log, w.c.sessions, "10.0.0.1");
    assert IpList(w.c, "10.0.0.1") == CoreAt(w.log, w.c.sessions, "10.0.0.1");
    assert "A" in IpList(w.c, "10.0.0.1");
    StepKeepsInvIff(w, e);
    hide InsertLocal, EventOf, IpList, CoreAt, Prepare, Inv;
  }

  // ----- A session started again under another subscriber

  const AGAIN := Initial(Hello("A", "ugw"), NO_REQUEST, "2")

  /** The session has the new profile's subscriber but is still indexed under the old one. */
  lemma RepeatBreaksTheIndex()
    ensures var w := Serve(Serve(START, FIRST, TwoPeers), AGAIN, TwoPeers);
            && Orderly(START, FIRST, TwoPeers) && !Inv(w)
            && "A" in SubscriberSet(w.c, "1") && "A" !in SubscriberSet(w.c, "2")
            && "A" in w.c.sessions && SubscriberKey(w.c.sessions["A"]) == Some("2")
  {
    StartCore(START, FIRST, map[], []);
    StartInv();
    OrderlyKeepsInv(START, FIRST, TwoPeers);
    RepeatKeepsTheIndex(Serve(START, FIRST, TwoPeers));
    hide Serve, Orderly, Inv;
  }

  lemma RepeatKeepsTheIndex(w: World)
    requires Inv(w) && Shows(w.c, map["A" := "1"], ["A"])
    ensures var w' := Serve(w, AGAIN, TwoPeers);
            && !Inv(w')
            && "A" in SubscriberSet(w'.c, "1") && "A" !in SubscriberSet(w'.c, "2")
            && "A" in w'.c.sessions && SubscriberKey(w'.c.sessions["A"]) == Some("2")
  {
    StoredIsPrepared(w, AGAIN, TwoPeers);
    var e := Stored(Prepare(w.c, AGAIN, TwoPeers), TwoPeers);
    assert e.id == "A" && SubscriberKey(e.r) == Some("2");
    UpdateRecord(w.c, "A", e.r, e.parent, e.dialect, "A");
    StepKeepsInvIff(w, e);
    assert "A" in SubscriberSet(w.c, "1") && "A" !in SubscriberSet(w.c, "2");
    hide InsertLocal, EventOf, IpList, Prepare, Inv;
  }

  // ----- A core session that ends while a request is between its looks and its store

  const LOOKED := [Arrive(0, FIRST), Move(0), Arrive(1, CHILD), Move(1), Move(1), Move(1)]
  const LATE := [Arrive(2, END), Move(2), Move(1)]

  lemma OneAction(s: Server, a: Action, rest: seq<Action>)
    requires CanHappen(s, a)
    ensures Interleave(s, [a] + rest, TwoPeers) == Interleave(After(s, a, TwoPeers), rest, TwoPeers)
  {
    assert ([a] + rest)[1..] == rest;
  }

  /** The child has been prepared: it is to be linked to "A". */
  ghost predicate ChildPrepared(s: Server) {
    && s.w == Serve(START, FIRST, TwoPeers)
    && s.handlers.Keys == {1}
    && s.handlers[1].at.Store? && s.handlers[1].stored && HandlerOk(s.handlers[1], TwoPeers)
    && s.handlers[1].at.p.info.sessionId == "P" && s.handlers[1].at.p.core == Some("A")
  }

  lemma FirstArrives() returns (s: Server)
    ensures s == Server(Serve(START, FIRST, TwoPeers), map[])
    ensures Interleave(IDLE, [Arrive(0, FIRST), Move(0)], TwoPeers) == Some(s)
  {
    var s1 := After(IDLE, Arrive(0, FIRST), TwoPeers);
    s := After(s1, Move(0), TwoPeers);
    assert EventOf(EMPTY, FIRST, TwoPeers) == Effect(s1.handlers[0], TwoPeers);
    assert s.handlers == map[];
    OneAction(IDLE, Arrive(0, FIRST), [Move(0)]);
    OneAction(s1, Move(0), []);
    assert [Arrive(0, FIRST)] + [Move(0)] == [Arrive(0, FIRST), Move(0)] && [Move(0)] + [] == [Move(0)];
    hide After, Effect, EventOf;
  }

  lemma ChildLooks(s: Server) returns (t: Server)
    requires s == Server(Serve(START, FIRST, TwoPeers), map[]) && Shows(s.w.c, map["A" := "1"], ["A"])
    ensures ChildPrepared(t)
    ensures Interleave(s, [Arrive(1, CHILD), Move(1), Move(1), Move(1)], TwoPeers) == Some(t)
  {
    hide Serve;
    var s1 := After(s, Arrive(1, CHILD), TwoPeers);
    var s2 := After(s1, Move(1), TwoPeers);
    assert s2.handlers[1].at == CheckCore(CHILD.i, NO_REQUEST, "A");
    var s3 := After(s2, Move(1), TwoPeers);
    assert s3.handlers[1].at == TakeCore(CHILD.i, NO_REQUEST, "A");
    t := After(s3, Move(1), TwoPeers);
    LookKeepsOk(s3.w.c, s3.handlers[1], TwoPeers);
    FilledKeepsPeer(s3.w.c.sessions["A"], "A", CHILD.i);
    OneAction(s, Arrive(1, CHILD), [Move(1), Move(1), Move(1)]);
    OneAction(s1, Move(1), [Move(1), Move(1)]);
    OneAction(s2, Move(1), [Move(1)]);
    OneAction(s3, Move(1), []);
    assert [Arrive(1, CHILD)] + [Move(1), Move(1), Move(1)] == [Arrive(1, CHILD), Move(1), Move(1), Move(1)];
    assert [Move(1)] + [Move(1), Move(1)] == [Move(1), Move(1), Move(1)];
    assert [Move(1)] + [Move(1)] == [Move(1), Move(1)] && [Move(1)] + [] == [Move(1)];
    hide After, FillInfo, FillRequest;
  }

  lemma CoreEnds(s: Server) returns (t: Server)
    requires ChildPrepared(s) && Inv(s.w) && s.w.c.sessions.Keys == {"A"}
    ensures t == Server(Step(s.w, Remove("A")), s.handlers)
    ensures Inv(t.w) && t.w.c.sessions == map[]
    ensures Interleave(s, [Arrive(2, END), Move(2)], TwoPeers) == Some(t)
  {
    hide Serve, RemoveLocal, WithoutBirth, LogOk, LinksInverse, SubscriberExact, IpExact, TwoLevel, Shared;
    var s1 := After(s, Arrive(2, END), TwoPeers);
    t := After(s1, Move(2), TwoPeers);
    assert t.handlers == s.handlers;
    OneAction(s, Arrive(2, END), [Move(2)]);
    OneAction(s1, Move(2), []);
    assert [Arrive(2, END)] + [Move(2)] == [Arrive(2, END), Move(2)] && [Move(2)] + [] == [Move(2)];
    RemoveStep(s.w, "A");
    RemoveSessions(s.w.c, "A");
    hide After, Inv;
  }

  lemma ChildStores(s: Server) returns (t: Server)
    requires Inv(s.w) && s.w.c.sessions == map[] && s.handlers.Keys == {1}
    requires s.handlers[1].at.Store? && s.handlers[1].stored && HandlerOk(s.handlers[1], TwoPeers)
    requires s.handlers[1].at.p.info.sessionId == "P" && s.handlers[1].at.p.core == Some("A")
    ensures Interleave(s, [Move(1)], TwoPeers) == Some(t)
    ensures !Inv(t.w) && t.w.c.sessions.Keys == {"P"} && Linked(t.w.c, "P", "A")
  {
    t := After(s, Move(1), TwoPeers);
    OneAction(s, Move(1), []);
    assert [Move(1)] + [] == [Move(1)];
    StoreKeepsInvIff(s.w, s.handlers[1], TwoPeers);
    var e := Stored(s.handlers[1].at.p, TwoPeers);
    CreateParts(s.w.c, "P", e.r, Some("A"), e.dialect);
    assert "P" !in s.w.c.parent;
    CreateLinks(s.w.c, "P", e.r, Some("A"), e.dialect);
    hide InsertLocal, ToRecord, Inv;
  }

  lemma {:induction false} InterleaveConcat(s: Server, a: seq<Action>, b: seq<Action>, t: Server)
    requires Interleave(s, a, TwoPeers) == Some(t)
    ensures Interleave(s, a + b, TwoPeers) == Interleave(t, b, TwoPeers)
    decreases |a|
  {
    hide After, CanHappen;
    if a == [] {
      assert a + b == b;
    } else {
      assert (a + b)[1..] == a[1..] + b;
      InterleaveConcat(After(s, a[0], TwoPeers), a[1..], b, t);
    }
  }

  lemma LatePieces() returns (s0: Server, s1: Server, s2: Server, s3: Server)
    ensures Interleave(IDLE, [Arrive(0, FIRST), Move(0)], TwoPeers) == Some(s0)
    ensures Interleave(s0, [Arrive(1, CHILD), Move(1), Move(1), Move(1)], TwoPeers) == Some(s1)
    ensures Interleave(s1, [Arrive(2, END), Move(2)], TwoPeers) == Some(s2)
    ensures Interleave(s2, [Move(1)], TwoPeers) == Some(s3)
    ensures !Inv(s3.w) && s3.w.c.sessions.Keys == {"P"} && Linked(s3.w.c, "P", "A")
  {
    hide Interleave, Serve, Orderly, LinksInverse, LogOk, SubscriberExact, IpExact, TwoLevel, Shared;
    s0 := FirstArrives();
    StartCore(START, FIRST, map[], []);
    assert [] + ["A"] == ["A"] && map[]["A" := "1"] == map["A" := "1"];
    StartInv();
    OrderlyKeepsInv(START, FIRST, TwoPeers);
    s1 := ChildLooks(s0);
    s2 := CoreEnds(s1);
    s3 := ChildStores(s2);
  }

  /** Three requests, each orderly when it comes: "A" ends after "P" has looked it up, and "P" is
      stored as the child of a session that is no longer there. */
  lemma LateStoreLinksToTheDead()
    ensures Interleave(IDLE, LOOKED + LATE, TwoPeers).Some?
    ensures var w := Interleave(IDLE, LOOKED + LATE, TwoPeers).value.w;
            && !Inv(w) && "A" !in w.c.sessions && "P" in w.c.sessions && Linked(w.c, "P", "A")
    ensures !AllFit(IDLE, LOOKED + LATE, TwoPeers)
  {
    hide Interleave, Inv, FIRST, CHILD, END, IDLE;
    var s0, s1, s2, s3 := LatePieces();
    InterleaveConcat(IDLE, [Arrive(0, FIRST), Move(0)], [Arrive(1, CHILD), Move(1), Move(1), Move(1)], s0);
    assert LOOKED == [Arrive(0, FIRST), Move(0)] + [Arrive(1, CHILD), Move(1), Move(1), Move(1)];
    InterleaveConcat(s1, [Arrive(2, END), Move(2)], [Move(1)], s2);
    assert LATE == [Arrive(2, END), Move(2)] + [Move(1)];
    InterleaveConcat(IDLE, LOOKED, LATE, s1);
    EveryInterleavingIff(LOOKED + LATE, TwoPeers);
    RightAtTheEnd(IDLE, LOOKED + LATE);
  }

  lemma {:induction false} RightAtTheEnd(s: Server, actions: seq<Action>)
    requires Interleave(s, actions, TwoPeers).Some?
    ensures StaysRight(s, actions, TwoPeers) ==> Inv(Interleave(s, actions, TwoPeers).value.w)
    decreases |actions|
  {
    hide Inv, After;
    if actions == [] {
    } else {
      RightAtTheEnd(After(s, actions[0], TwoPeers), actions[1..]);
    }
  }

  // ----- A session that is a parent and a child at once

  /** Such sessions come only from commands of another server, whose parent is taken as it is. A server
      names a parent only for the peers it knows as SCE or Procera, so the two servers must have
      configured the peer of "B" differently. */
  lemma BothRolesLeaveATrace(r: Record)
    ensures var c := Run(EMPTY, [Insert("A", r, None, HuaweiUgw), Insert("B", r, Some("A"), HuaweiUgw),
                                 Insert("C", r, Some("B"), Procera), Remove("B")]);
            "B" !in c.sessions && Linked(c, "B", "A") && "B" in Children(c, "A")
  {
    var a, b, d := Insert("A", r, None, HuaweiUgw), Insert("B", r, Some("A"), HuaweiUgw), Insert("C", r, Some("B"), Procera);
    var c1 := Next(EMPTY, a);
    var c2 := Next(c1, b);
    var c3 := Next(c2, d);
    RunOfFour(a, b, d, Remove("B"));
    hide InsertLocal, RemoveLocal, Run;
    CreateLinks(EMPTY, "A", r, None, HuaweiUgw);
    CreateParts(EMPTY, "A", r, None, HuaweiUgw);
    CreateLinks(c1, "B", r, Some("A"), HuaweiUgw);
    CreateParts(c1, "B", r, Some("A"), HuaweiUgw);
    CreateLinks(c2, "C", r, Some("B"), Procera);
    assert c3.parent == map["B" := "A", "C" := "B"];
    assert c3.children["A"] == ["B"] && "B" in c3.children;
    MiddleLeaves(c3);
  }

  lemma MiddleLeaves(c: Cache)
    requires c.parent == map["B" := "A", "C" := "B"]
    requires "A" in c.children && c.children["A"] == ["B"] && "B" in c.children
    ensures var c' := RemoveLocal(c, "B"); "B" !in c'.sessions && Linked(c', "B", "A") && "B" in Children(c', "A")
  {
    RemoveSessions(c, "B");
    RemoveLinksParts(c, "B");
    hide RemoveLocal;
  }

  lemma RunOfFour(a: Event, b: Event, d: Event, e: Event)
    ensures Run(EMPTY, [a, b, d, e]) == Next(Next(Next(Next(EMPTY, a), b), d), e)
  {
    hide Next;
    assert [a, b, d, e][1..] == [b, d, e] && [b, d, e][1..] == [d, e] && [d, e][1..] == [e] && [e][1..] == [];
    var c1 := Next(EMPTY, a);
    var c2 := Next(c1, b);
    var c3 := Next(c2, d);
    assert Run(c3, [e]) == Next(c3, e);
    assert Run(c2, [d, e]) == Next(c3, e);
    assert Run(c1, [b, d, e]) == Next(c3, e);
  }
}
