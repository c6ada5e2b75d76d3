/** What the handlers can rely on: a request that fits when it has been prepared still fits when it
    is stored, unless somebody ends a session it depends on in between. */
module CcrDiscipline {
  import opened Common
  import opened SessionCache
  import opened SessionLinks
  import opened SessionIndexes
  import opened SessionRuns
  import opened CcrFlow
  import opened CcrRuns

  // ----- What others leave alone

  /** A legal step keeps every session's subscriber and every core session's address, except the
      removed one's. */
  lemma LegalStepKeepsKeys(w: World, e: Event, x: Id)
    requires Inv(w) && Legal(w, e) && x in w.c.sessions && e != Remove(x)
    ensures var w' := Step(w, e);
            && x in w'.c.sessions
            && SubscriberKey(w'.c.sessions[x]) == SubscriberKey(w.c.sessions[x])
            && (IsCoreSession(w'.log, x) <==> IsCoreSession(w.log, x))
            && (IsCoreSession(w.log, x) ==> w'.c.sessions[x].framedIp.v == w.c.sessions[x].framedIp.v)
  {
    match e {
      case Remove(id) =>
        RemoveSessions(w.c, id);
        CoreSessionsLeft(w.log, id);
        hide RemoveLocal, WithoutBirth, Inv, IsCoreSession;
      case Insert(id, r, parent, dialect) =>
        if id in w.c.sessions {
          LegalUpdateKeeps(w, id, r, parent, dialect);
          UpdatedKeys(w.c, id, r, parent, dialect);
          UpdateRecord(w.c, id, r, parent, dialect, x);
          hide InsertLocal, Inv, SubscriberKey, IsCoreSession;
        } else {
          CreateParts(w.c, id, r, parent, dialect);
          BirthMembers(w.log, Birth(id, dialect));
          hide InsertLocal, Inv, IsCoreSession;
        }
    }
  }

  /** The step does not end the request's own session or its core session, and does not create the
      request's own session. */
  predicate Undisturbed(w: World, e: Event, p: Prepared) {
    match e
    case Remove(x) => x != p.info.sessionId && p.core != Some(x)
    case Insert(x, _, _, _) => x == p.info.sessionId ==> x in w.c.sessions
  }

  lemma LegalStepCreates(w: World, e: Event, x: Id)
    requires x !in w.c.sessions && (e.Insert? ==> e.id != x)
    ensures x !in Step(w, e).c.sessions
  {
    match e {
      case Remove(id) =>
        RemoveSessions(w.c, id);
        hide RemoveLocal;
      case Insert(id, r, parent, dialect) =>
        if id in w.c.sessions {
          UpdateRecord(w.c, id, r, parent, dialect, id);
        } else {
          CreateParts(w.c, id, r, parent, dialect);
        }
        hide InsertLocal;
    }
  }

  /** A prepared request that fits goes on fitting through any legal step that leaves its sessions
      alone. */
  lemma StepKeepsStoreOk(w: World, e: Event, p: Prepared)
    requires Inv(w) && Legal(w, e) && StoreOk(w, p) && Undisturbed(w, e, p)
    ensures StoreOk(Step(w, e), p)
  {
    var id := p.info.sessionId;
    if id in w.c.sessions {
      LegalStepKeepsKeys(w, e, id);
    } else {
      LegalStepCreates(w, e, id);
      if p.core.Some? {
        LegalStepKeepsKeys(w, e, p.core.value);
      }
    }
    hide Inv, Legal, Step, IsCoreSession;
  }

  /** And through any number of them. */
  ghost predicate UndisturbedRun(w: World, events: seq<Event>, p: Prepared)
    decreases |events|
  {
    events == [] || (Legal(w, events[0]) && Undisturbed(w, events[0], p)
                     && UndisturbedRun(Step(w, events[0]), events[1..], p))
  }

  lemma {:induction false} RunKeepsStoreOk(w: World, events: seq<Event>, p: Prepared)
    requires Inv(w) && StoreOk(w, p) && UndisturbedRun(w, events, p)
    ensures Inv(RunFrom(w, events)) && StoreOk(RunFrom(w, events), p)
    decreases |events|
  {
    if events == [] {
    } else {
      StepKeepsInvIff(w, events[0]);
      StepKeepsStoreOk(w, events[0], p);
      hide Inv, Legal, Step, StoreOk, Undisturbed;
      RunKeepsStoreOk(Step(w, events[0]), events[1..], p);
    }
  }

  // ----- A discipline checked when a request is prepared

  /** A request that has come to be stored fits at that moment. */
  predicate ReadyOk(w: World, h: Handler) {
    h.at.Store? && h.stored ==> StoreOk(w, h.at.p)
  }

  /** The change disturbs no request that waits to be stored, but for the one that makes it. */
  predicate DisturbsNobody(s: Server, e: Event, self: Option<nat>) {
    forall n | n in s.handlers && Some(n) != self && s.handlers[n].at.Store? && s.handlers[n].stored ::
      Undisturbed(s.w, e, s.handlers[n].at.p)
  }

  /** Requests fit when their preparation ends, and no change ends or creates a session that a
      prepared request depends on. Nothing is asked about a request at the moment it is stored. */
  predicate Disciplined(s: Server, a: Action, peers: Peers)
    requires CanHappen(s, a)
  {
    match a
    case Arrive(_, m) => ReadyOk(s.w, Begin(m, peers))
    case Move(n) =>
      var h := s.handlers[n];
      if Looks(h.at) then ReadyOk(s.w, h.(at := Look(s.w.c, h)))
      else Effect(h, peers).Some? ==> DisturbsNobody(s, Effect(h, peers).value, Some(n))
    case Elsewhere(e) => Legal(s.w, e) && DisturbsNobody(s, e, None)
  }

  ghost predicate AllReady(s: Server) {
    forall n | n in s.handlers :: ReadyOk(s.w, s.handlers[n])
  }

  lemma ChangeKeepsReady(s: Server, e: Event, self: Option<nat>, n: nat)
    requires Inv(s.w) && Legal(s.w, e) && DisturbsNobody(s, e, self)
    requires n in s.handlers && Some(n) != self && ReadyOk(s.w, s.handlers[n])
    ensures ReadyOk(Step(s.w, e), s.handlers[n])
  {
    var h := s.handlers[n];
    if h.at.Store? && h.stored {
      StepKeepsStoreOk(s.w, e, h.at.p);
    }
    hide Inv, Legal, Step, StoreOk, Undisturbed;
  }

  lemma DisciplinedFits(s: Server, a: Action, peers: Peers)
    requires AllReady(s) && CanHappen(s, a) && Disciplined(s, a, peers)
    ensures Fits(s, a)
  {
    hide Legal, StoreOk, DisturbsNobody;
  }

  lemma EffectIsLegal(s: Server, n: nat, peers: Peers)
    requires Inv(s.w) && n in s.handlers && ReadyOk(s.w, s.handlers[n]) && HandlerOk(s.handlers[n], peers)
    requires Effect(s.handlers[n], peers).Some?
    ensures Legal(s.w, Effect(s.handlers[n], peers).value)
  {
    var h := s.handlers[n];
    StepKeepsInvIff(s.w, Effect(h, peers).value);
    if h.at.Store? {
      StoreKeepsInvIff(s.w, h, peers);
    }
    hide Inv, Step, StoreOk;
  }

  lemma DisciplinedKeepsReady(s: Server, a: Action, peers: Peers)
    requires Inv(s.w) && AllReady(s) && HandlersOk(s, peers) && CanHappen(s, a) && Disciplined(s, a, peers)
    ensures AllReady(After(s, a, peers))
  {
    var s' := After(s, a, peers);
    hide Inv, Legal, Step, Look, HandlerOk, ReadyOk, Effect;
    forall n | n in s'.handlers ensures ReadyOk(s'.w, s'.handlers[n]) {
      if n in s.handlers && s'.handlers[n] == s.handlers[n] && s'.w != s.w {
        match a
        case Move(k) =>
          EffectIsLegal(s, k, peers);
          ChangeKeepsReady(s, Effect(s.handlers[k], peers).value, Some(k), n);
        case Elsewhere(e) =>
          ChangeKeepsReady(s, e, None, n);
        case Arrive(_, _) =>
      }
    }
  }

  ghost predicate DisciplinedRun(s: Server, actions: seq<Action>, peers: Peers)
    requires Interleave(s, actions, peers).Some?
    decreases |actions|
  {
    actions != [] ==>
      Disciplined(s, actions[0], peers) && DisciplinedRun(After(s, actions[0], peers), actions[1..], peers)
  }

  lemma {:induction false} DisciplinedFrom(s: Server, actions: seq<Action>, peers: Peers)
    requires Inv(s.w) && AllReady(s) && HandlersOk(s, peers)
    requires Interleave(s, actions, peers).Some? && DisciplinedRun(s, actions, peers)
    ensures AllFit(s, actions, peers) && Inv(Interleave(s, actions, peers).value.w)
    decreases |actions|
  {
    if actions == [] {
    } else {
      DisciplinedFits(s, actions[0], peers);
      ActionKeepsInvIff(s, actions[0], peers);
      ActionKeepsOk(s, actions[0], peers);
      DisciplinedKeepsReady(s, actions[0], peers);
      hide Inv, Fits, After, CanHappen, HandlersOk, AllReady, Disciplined;
      DisciplinedFrom(After(s, actions[0], peers), actions[1..], peers);
    }
  }

  /** Under every interleaving, if requests fit when they have been prepared and nobody disturbs a
      prepared one, the cache is right throughout. */
  lemma EveryDisciplinedRun(actions: seq<Action>, peers: Peers)
    requires Interleave(IDLE, actions, peers).Some? && DisciplinedRun(IDLE, actions, peers)
    ensures StaysRight(IDLE, actions, peers) && Inv(Interleave(IDLE, actions, peers).value.w)
  {
    StartInv();
    DisciplinedFrom(IDLE, actions, peers);
    EveryInterleavingIff(actions, peers);
  }

  // ----- Which requests fit when they have been prepared

  /** A core session that was looked up completes a new session's request to one that fits if and
      only if it is still a live core session when it is taken. */
  lemma TakenFitsIff(w: World, h: Handler)
    requires h.at.TakeCore? && WellFormed(h.at.i) && h.at.i.sessionId !in w.c.sessions
    ensures var at := Look(w.c, h);
            at.Store? && (StoreOk(w, at.p) <==> h.at.core in w.c.sessions && IsCoreSession(w.log, h.at.core))
  {
    if h.at.core in w.c.sessions {
      FilledKeepsPeer(w.c.sessions[h.at.core], h.at.core, h.at.i);
      hide FillInfo, FillRequest, IsCoreSession;
    }
  }

  /** The core session found in one go is one a session of that peer may be linked to. */
  lemma FoundCore(w: World, d: Dialect, subscriber: string, ip: string)
    requires Inv(w) && CoreFor(w.c, d, subscriber, ip).Some?
    ensures var p := CoreFor(w.c, d, subscriber, ip).value;
            p in w.c.sessions && IsCoreSession(w.log, p) && !IsCore(d)
  {
    FindsTheNewestCore(w, ip);
    hide Inv, IsCoreSession;
  }

  function Address(c: Cache, asked: Field, core: Option<Id>): string
    requires core.Some? ==> core.value in c.sessions
  {
    (if core.Some? then Either(asked, c.sessions[core.value].framedIp) else asked).v
  }

  /** What an initial request of a session that is already live must tell: the subscriber the session
      has, by its profile or, for Procera, by the core session at its address; and a core session's
      own address. */
  predicate RepeatKeepsKeys(w: World, i: SessionInfo, profile: string, d: Dialect)
    requires i.sessionId in w.c.sessions
  {
    var r := w.c.sessions[i.sessionId];
    var core := CoreFor(w.c, d, profile, i.framedIp.v);
    var subscriber := match d
      case HuaweiUgw | Ericsson | CiscoSce => profile
      case Procera => if core.Some? then SubscriberText(w.c.sessions[core.value]) else i.subscriberId
      case _ => i.subscriberId;
    && SubscriberKey(r) == Some(subscriber)
    && (IsCoreSession(w.log, i.sessionId) ==> Address(w.c, i.framedIp, core) == r.framedIp.v)
  }

  /** What an update of a live session must satisfy: the session has a subscriber; for Procera, whose
      core session is looked up by address alone, the newest core session there is of that same
      subscriber; and a core session is not moved to another address. */
  predicate UpdateKeepsKeys(w: World, i: SessionInfo, d: Dialect)
    requires i.sessionId in w.c.sessions
  {
    var r := w.c.sessions[i.sessionId];
    var told := Either(i.framedIp, r.framedIp);
    var core := CoreFor(w.c, d, r.subscriberId.v, told.v);
    && !r.subscriberId.isNull
    && (d.Procera? && core.Some? ==> SubscriberText(w.c.sessions[core.value]) == r.subscriberId.v)
    && (IsCoreSession(w.log, i.sessionId) ==> Address(w.c, told, core) == r.framedIp.v)
  }

  /** Checked before a request is looked at: nothing is asked of a new session. */
  predicate KeepsKeys(w: World, m: Request, peers: Peers)
    requires !m.Termination?
  {
    m.i.sessionId in w.c.sessions ==>
      if m.Initial? then RepeatKeepsKeys(w, m.i, m.profile, DialectOf(peers, m.i))
      else UpdateKeepsKeys(w, m.i, DialectOf(peers, m.i))
  }

  lemma JoinKeepsIdentity(c: Cache, i: SessionInfo, q: RequestInfo, core: Option<Id>)
    requires WellFormed(i) && (core.Some? ==> core.value in c.sessions)
    ensures var p := Join(c, i, q, core);
            && WellFormed(p.info) && p.info.sessionId == i.sessionId && p.core == core
            && p.info.originHost == i.originHost && p.info.originRealm == i.originRealm
            && p.info.subscriberId == (if core.Some? then SubscriberText(c.sessions[core.value]) else i.subscriberId)
            && p.info.framedIp.v == Address(c, i.framedIp, core)
  {
  }

  lemma AskedKeepsIdentity(c: Cache, m: Request, peers: Peers)
    requires WellFormed(m.i)
    ensures var i := Asked(c, m, peers);
            && WellFormed(i) && i.sessionId == m.i.sessionId
            && i.originHost == m.i.originHost && i.originRealm == m.i.originRealm
  {
  }

  /** A request of a new session fits when it is prepared without disturbance, whatever the peer. */
  lemma NewSessionFits(w: World, m: Request, peers: Peers)
    requires Inv(w) && !m.Termination? && WellFormed(m.i) && m.i.sessionId !in w.c.sessions
    ensures StoreOk(w, Prepare(w.c, m, peers))
  {
    var i := Asked(w.c, m, peers);
    var core := CoreOf(w.c, m, peers);
    AskedKeepsIdentity(w.c, m, peers);
    JoinKeepsIdentity(w.c, i, AskedRequest(w.c, m), core);
    if core.Some? {
      FoundCore(w, DialectOf(peers, m.i), i.subscriberId, i.framedIp.v);
    }
    hide Inv, Join, Asked, CoreFor, IsCoreSession;
  }

  /** A repeated initial request fits if and only if it keeps the keys. */
  lemma RepeatFitsIff(w: World, i: SessionInfo, q: RequestInfo, profile: string, peers: Peers)
    requires WellFormed(i) && i.sessionId in w.c.sessions
    ensures StoreOk(w, Prepare(w.c, Initial(i, q, profile), peers)) <==>
            RepeatKeepsKeys(w, i, profile, DialectOf(peers, i))
  {
    var m := Initial(i, q, profile);
    var asked, core := Asked(w.c, m, peers), CoreOf(w.c, m, peers);
    JoinKeepsIdentity(w.c, asked, q, core);
    assert core == CoreFor(w.c, DialectOf(peers, i), profile, i.framedIp.v);
    hide Join, CoreFor, IsCoreSession;
  }

  /** An update of a live session fits if and only if it keeps the keys. */
  lemma UpdateFitsIff(w: World, i: SessionInfo, q: RequestInfo, stored: bool, peers: Peers)
    requires WellFormed(i) && i.sessionId in w.c.sessions
    ensures StoreOk(w, Prepare(w.c, Update(i, q, stored), peers)) <==> UpdateKeepsKeys(w, i, DialectOf(peers, i))
  {
    var m := Update(i, q, stored);
    var asked, core := Asked(w.c, m, peers), CoreOf(w.c, m, peers);
    FilledKeepsPeer(w.c.sessions[i.sessionId], i.sessionId, i);
    JoinKeepsIdentity(w.c, asked, AskedRequest(w.c, m), core);
    hide Join, CoreFor, FillInfo, FillRequest, IsCoreSession;
  }

  /** A request prepared without disturbance fits if and only if it keeps the keys. */
  lemma PreparedFitsIff(w: World, m: Request, peers: Peers)
    requires Inv(w) && !m.Termination? && WellFormed(m.i)
    ensures StoreOk(w, Prepare(w.c, m, peers)) <==> KeepsKeys(w, m, peers)
  {
    hide Inv, StoreOk, Prepare, RepeatKeepsKeys, UpdateKeepsKeys;
    if m.i.sessionId !in w.c.sessions {
      NewSessionFits(w, m, peers);
    } else {
      match m
      case Initial(i, q, profile) => RepeatFitsIff(w, i, q, profile, peers);
      case Update(i, q, stored) => UpdateFitsIff(w, i, q, stored, peers);
    }
  }
}
