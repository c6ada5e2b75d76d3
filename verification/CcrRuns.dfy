/** Any number of request handlers at work on one session cache: exactly when it stays right. */
module CcrRuns {
  import opened Common
  import opened SessionCache
  import opened SessionLinks
  import opened SessionIndexes
  import opened SessionRuns
  import opened CcrFlow

  // ----- All handlers together

  /** The cache and the handlers under way. */
  datatype Server = Server(w: World, handlers: map<nat, Handler>)

  /** A request comes in, a handler goes through its next section, or something else on the server
      (a peer that no longer knows a session, a command from another server) changes the cache. */
  datatype Action = Arrive(n: nat, m: Request) | Move(n: nat) | Elsewhere(e: Event)

  const IDLE := Server(START, map[])

  predicate CanHappen(s: Server, a: Action) {
    match a
    case Arrive(n, m) => n !in s.handlers && WellFormed(m.i)
    case Move(n) => n in s.handlers
    case Elsewhere(_) => true
  }

  function Changed(w: World, e: Option<Event>): World {
    if e.Some? then Step(w, e.value) else w
  }

  function After(s: Server, a: Action, peers: Peers): Server
    requires CanHappen(s, a)
  {
    match a
    case Arrive(n, m) => s.(handlers := s.handlers[n := Begin(m, peers)])
    case Move(n) =>
      var h := s.handlers[n];
      if Looks(h.at) then s.(handlers := s.handlers[n := h.(at := Look(s.w.c, h))])
      else Server(Changed(s.w, Effect(h, peers)), s.handlers - {n})
    case Elsewhere(e) => s.(w := Step(s.w, e))
  }

  function Interleave(s: Server, actions: seq<Action>, peers: Peers): Option<Server>
    decreases |actions|
  {
    if actions == [] then Some(s)
    else if CanHappen(s, actions[0]) then Interleave(After(s, actions[0], peers), actions[1..], peers)
    else None
  }

  // ----- What a handler carries with it

  /** Whatever it has read, a handler works for its own session and peer, and names a core session
      only if its peer is not a core peer itself. */
  predicate HandlerOk(h: Handler, peers: Peers) {
    match h.at
    case ReadOwn(i, _) => WellFormed(i) && DialectOf(peers, i) == h.dialect
    case ReadList(i, _) => WellFormed(i) && DialectOf(peers, i) == h.dialect && SeeksCore(h.dialect)
    case CheckCore(i, _, _) => WellFormed(i) && DialectOf(peers, i) == h.dialect && SeeksCore(h.dialect)
    case TakeCore(i, _, _) => WellFormed(i) && DialectOf(peers, i) == h.dialect && SeeksCore(h.dialect)
    case Store(p) => WellFormed(p.info) && (p.core.Some? ==> !IsCore(DialectOf(peers, p.info)))
    case Drop(_) => true
  }

  ghost predicate HandlersOk(s: Server, peers: Peers) {
    forall n | n in s.handlers :: HandlerOk(s.handlers[n], peers)
  }

  lemma FilledKeepsPeer(r: Record, id: Id, i: SessionInfo)
    requires WellFormed(i)
    ensures var i' := FillInfo(r, id, i);
            && WellFormed(i') && i'.sessionId == i.sessionId
            && i'.originHost == i.originHost && i'.originRealm == i.originRealm
            && i'.subscriberId == SubscriberText(r) && i'.framedIp == Either(i.framedIp, r.framedIp)
  {
  }

  lemma LookKeepsOk(c: Cache, h: Handler, peers: Peers)
    requires HandlerOk(h, peers) && Looks(h.at)
    ensures HandlerOk(h.(at := Look(c, h)), peers)
  {
    match h.at
    case ReadOwn(i, _) =>
      if i.sessionId in c.sessions {
        FilledKeepsPeer(c.sessions[i.sessionId], i.sessionId, i);
        hide FillInfo;
      }
    case TakeCore(i, _, core) =>
      if core in c.sessions {
        FilledKeepsPeer(c.sessions[core], core, i);
        hide FillInfo;
      }
    case _ =>
  }

  lemma ActionKeepsOk(s: Server, a: Action, peers: Peers)
    requires HandlersOk(s, peers) && CanHappen(s, a)
    ensures HandlersOk(After(s, a, peers), peers)
  {
    if a.Move? && Looks(s.handlers[a.n].at) {
      LookKeepsOk(s.w.c, s.handlers[a.n], peers);
    }
    hide Look, Step, Effect;
  }

  // ----- Storing

  /** What must hold when a prepared request is stored: a live session keeps its subscriber and, if
      it is a core session, its address; a new one has its core session, if it found any, still
      live as a core session of the same subscriber. */
  predicate StoreOk(w: World, p: Prepared) {
    var id := p.info.sessionId;
    if id in w.c.sessions then
      && SubscriberKey(w.c.sessions[id]) == Some(p.info.subscriberId)
      && (IsCoreSession(w.log, id) ==> p.info.framedIp.v == w.c.sessions[id].framedIp.v)
    else p.core.Some? ==> LiveCoreOf(w, p.core.value, p.info.subscriberId)
  }

  predicate LiveCoreOf(w: World, core: Id, subscriber: string) {
    && core in w.c.sessions && IsCoreSession(w.log, core)
    && (w.c.sessions[core].subscriberId.isNull || w.c.sessions[core].subscriberId.v == subscriber)
  }

  /** A store keeps the cache right if and only if that holds when it comes. */
  lemma StoreKeepsInvIff(w: World, h: Handler, peers: Peers)
    requires Inv(w) && HandlerOk(h, peers) && h.at.Store? && h.stored
    ensures Inv(Changed(w, Effect(h, peers))) <==> StoreOk(w, h.at.p)
  {
    var e := Stored(h.at.p, peers);
    assert Effect(h, peers) == Some(e);
    StepKeepsInvIff(w, e);
    hide Inv, Step, IsCoreSession;
  }

  /** What must hold of an action before it happens: nothing of a look, of an arrival or of a
      termination. */
  predicate Fits(s: Server, a: Action)
    requires CanHappen(s, a)
  {
    match a
    case Arrive(_, _) => true
    case Move(n) => s.handlers[n].at.Store? && s.handlers[n].stored ==> StoreOk(s.w, s.handlers[n].at.p)
    case Elsewhere(e) => Legal(s.w, e)
  }

  lemma ActionKeepsInvIff(s: Server, a: Action, peers: Peers)
    requires Inv(s.w) && HandlersOk(s, peers) && CanHappen(s, a)
    ensures Inv(After(s, a, peers).w) <==> Fits(s, a)
  {
    match a {
      case Arrive(_, _) =>
      case Move(n) =>
        var h := s.handlers[n];
        if h.at.Store? && h.stored {
          StoreKeepsInvIff(s.w, h, peers);
        } else if h.at.Drop? {
          StepKeepsInvIff(s.w, Remove(h.at.id));
        }
      case Elsewhere(e) => StepKeepsInvIff(s.w, e);
    }
    hide Inv, Step, StoreOk, Look;
  }

  /** The cache is right before and after every action. */
  ghost predicate StaysRight(s: Server, actions: seq<Action>, peers: Peers)
    requires Interleave(s, actions, peers).Some?
    decreases |actions|
  {
    Inv(s.w) && (actions != [] ==> StaysRight(After(s, actions[0], peers), actions[1..], peers))
  }

  /** Every store and every other change fits when it comes. */
  ghost predicate AllFit(s: Server, actions: seq<Action>, peers: Peers)
    requires Interleave(s, actions, peers).Some?
    decreases |actions|
  {
    actions != [] ==> Fits(s, actions[0]) && AllFit(After(s, actions[0], peers), actions[1..], peers)
  }

  lemma {:induction false} StaysRightFrom(s: Server, actions: seq<Action>, peers: Peers)
    requires Inv(s.w) && HandlersOk(s, peers) && Interleave(s, actions, peers).Some?
    ensures StaysRight(s, actions, peers) <==> AllFit(s, actions, peers)
    decreases |actions|
  {
    if actions == [] {
    } else {
      ActionKeepsInvIff(s, actions[0], peers);
      ActionKeepsOk(s, actions[0], peers);
      hide Inv, Fits, After, CanHappen, HandlersOk;
      if Inv(After(s, actions[0], peers).w) {
        StaysRightFrom(After(s, actions[0], peers), actions[1..], peers);
      }
    }
  }

  /** For any number of handlers and any interleaving of their sections, from the empty cache: the
      cache is right throughout if and only if every request, when it is stored, still fits. */
  lemma EveryInterleavingIff(actions: seq<Action>, peers: Peers)
    requires Interleave(IDLE, actions, peers).Some?
    ensures StaysRight(IDLE, actions, peers) <==> AllFit(IDLE, actions, peers)
  {
    StartInv();
    StaysRightFrom(IDLE, actions, peers);
  }
}
