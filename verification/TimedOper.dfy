/** The handshake between a request handler and the thread that gathers a subscriber's data.

    Two mutexes, both locked when the shared object is built, serve as one-shot signals: the worker
    unlocks `ready` when its output is complete, the requester unlocks `copied` when it is through
    with the object.  The requester waits for `ready` only until a timeout; after that it raises
    the offline flag and answers with defaults.  The worker frees everything. */
module TimedOper {
  import opened Common

  datatype Quota = Quota(total: nat, output: nat, input: nat)

  /** The results a request needs: rule names, quotas by monitoring key, and the action set. */
  datatype Data = Data(rules: seq<string>, quotas: map<string, Quota>, actions: Actions)
  datatype Actions = Actions(updateQuota: bool, operateRule: bool, others: nat)

  datatype RequestType = Initial | Update | Termination
  datatype Code = Ok | TimedOut | Busy

  /** Where the requester is.  `Counted` and `Waiting` lie between the counter's increment and
      decrement, as does `Woken`. */
  datatype Requester =
    | Start
    | Counted
    | Waiting
    | Woken(code: Code)
    | CopyRules(next: nat)
    | CopyQuotas
    | CopyActions
    | GoOffline(code: Code)
    | AddDefaults(code: Code)
    | Unlock(code: Code)
    | Finished(code: Code)

  datatype Worker =
    | NotLaunched
    | GetConnection
    | LoadUsage
    | CheckUsage
    | LoadRules
    | CheckRules
    | CheckSelected
    | LoadQuotas
    | Publish
    | ReleaseConnection
    | AwaitCopied
    | Free
    | Gone

  /** One request: both threads, the shared object and the caller's data. */
  datatype Pair = Pair(
    kind: RequestType, defaultRules: seq<string>, defaultQuotas: map<string, Quota>,
    req: Requester, worker: Worker,
    readyLocked: bool, copiedLocked: bool, offline: bool, shared: Data,
    caller: Data,
    // history: the caller's data on entry, what the worker published, whether it ever saw the
    // flag, and how often the object was freed
    entry: Data, published: Option<Data>, sawOffline: bool, frees: nat)

  datatype Event =
    | Enter | Refuse | Launch | Acquire | TimeOut | Leave | CopyRule | EndRules | TakeQuotas
    | TakeActions | RaiseFlag | TakeDefaults | UnlockCopied
    | Connect(ok: bool) | Usage(quotas: map<string, Quota>, operateRule: bool) | CheckAfterUsage
    | Rules(rules: seq<string>) | CheckAfterRules | CheckAfterSelect | Quotas(quotas: map<string, Quota>)
    | UnlockReady | GiveBack | LockCopied | Destroy

  function NewPair(kind: RequestType, entry: Data, rules: seq<string>, quotas: map<string, Quota>): Pair {
    Pair(kind, rules, quotas, Start, NotLaunched, true, true, false, Data([], map[], entry.actions),
         entry, entry, None, false, 0)
  }

  /** Inserting into a map keeps the entries already there. */
  function Insert<K, V>(m: map<K, V>, more: map<K, V>): map<K, V> {
    more + m
  }

  predicate ByWorker(e: Event) {
    || e.Connect? || e.Usage? || e.CheckAfterUsage? || e.Rules? || e.CheckAfterRules? || e.CheckAfterSelect?
    || e.Quotas? || e.UnlockReady? || e.GiveBack? || e.LockCopied? || e.Destroy?
  }

  /** Whether the step reads or writes the shared object. */
  predicate TouchesShared(e: Event) {
    !(e.Enter? || e.Refuse? || e.Leave? || e.GiveBack?)
  }

  predicate Enabled(p: Pair, e: Event) {
    match e
    case Enter => p.req.Start?
    case Refuse => p.req.Start?
    case Launch => p.req.Counted?
    case Acquire => p.req.Waiting? && !p.readyLocked
    case TimeOut => p.req.Waiting?
    case Leave => p.req.Woken?
    case CopyRule => p.req.CopyRules? && p.req.next < |p.shared.rules|
    case EndRules => p.req.CopyRules? && p.req.next >= |p.shared.rules|
    case TakeQuotas => p.req.CopyQuotas?
    case TakeActions => p.req.CopyActions?
    case RaiseFlag => p.req.GoOffline?
    case TakeDefaults => p.req.AddDefaults?
    case UnlockCopied => p.req.Unlock?
    case Connect(_) => p.worker.GetConnection?
    case Usage(_, _) => p.worker.LoadUsage?
    case CheckAfterUsage => p.worker.CheckUsage?
    case Rules(_) => p.worker.LoadRules?
    case CheckAfterRules => p.worker.CheckRules?
    case CheckAfterSelect => p.worker.CheckSelected?
    case Quotas(_) => p.worker.LoadQuotas?
    case UnlockReady => p.worker.Publish?
    case GiveBack => p.worker.ReleaseConnection?
    case LockCopied => p.worker.AwaitCopied? && !p.copiedLocked
    case Destroy => p.worker.Free?
  }

  function Defaults(p: Pair): Data {
    match p.kind
    case Initial => p.caller.(rules := p.caller.rules + p.defaultRules)
    case Update => p.caller.(quotas := Insert(p.caller.quotas, p.defaultQuotas))
    case Termination => p.caller
  }

  /** The worker reads the flag: it goes on, or skips to publishing what it has. */
  function Check(p: Pair, onward: Worker): Worker {
    if p.offline then Publish else onward
  }

  function ReqStep(p: Pair, e: Event): Pair
    requires Enabled(p, e) && !ByWorker(e)
  {
    match e
    case Enter => p.(req := Counted)
    case Refuse => p.(req := GoOffline(Busy))
    case Launch => p.(req := Waiting, worker := GetConnection)
    case Acquire => p.(req := Woken(Ok), readyLocked := true)
    case TimeOut => p.(req := Woken(TimedOut))
    case Leave => p.(req := if p.req.code.Ok? then CopyRules(0) else GoOffline(p.req.code))
    case CopyRule =>
      p.(req := CopyRules(p.req.next + 1),
         caller := p.caller.(rules := p.caller.rules + [p.shared.rules[p.req.next]]))
    case EndRules => p.(req := CopyQuotas)
    case TakeQuotas =>
      p.(req := CopyActions, caller := p.caller.(quotas := Insert(p.caller.quotas, p.shared.quotas)))
    case TakeActions => p.(req := Unlock(Ok), caller := p.caller.(actions := p.shared.actions))
    case RaiseFlag => p.(req := AddDefaults(p.req.code), offline := true)
    case TakeDefaults => p.(req := Unlock(p.req.code), caller := Defaults(p))
    case UnlockCopied => p.(req := Finished(p.req.code), copiedLocked := false)
  }

  /** The steps of a worker that has finished gathering. */
  predicate Closing(e: Event) {
    e.UnlockReady? || e.GiveBack? || e.LockCopied? || e.Destroy?
  }

  /** Gathering: the worker's next place, its output, and whether it has seen the flag. */
  function Gather(p: Pair, e: Event): (Worker, Data, bool)
    requires Enabled(p, e) && ByWorker(e) && !Closing(e)
  {
    match e
    case Connect(ok) => (if ok then LoadUsage else Publish, p.shared, p.sawOffline)
    case Usage(quotas, operateRule) =>
      if !p.shared.actions.updateQuota then (CheckUsage, p.shared, p.sawOffline)
      else if !p.offline && !p.kind.Termination? then
        (CheckUsage,
         p.shared.(quotas := Insert(p.shared.quotas, quotas),
                   actions := p.shared.actions.(operateRule := p.shared.actions.operateRule || operateRule)),
         p.sawOffline)
      else (CheckUsage, p.shared, p.sawOffline || p.offline)
    case CheckAfterUsage => (Check(p, LoadRules), p.shared, p.sawOffline || p.offline)
    case Rules(rules) =>
      (CheckRules, if p.shared.actions.operateRule then p.shared.(rules := rules) else p.shared, p.sawOffline)
    case CheckAfterRules =>
      (Check(p, if p.shared.actions.operateRule then CheckSelected else Publish), p.shared, p.sawOffline || p.offline)
    case CheckAfterSelect => (Check(p, LoadQuotas), p.shared, p.sawOffline || p.offline)
    case Quotas(quotas) => (Publish, p.shared.(quotas := quotas), p.sawOffline)
  }

  function Close(p: Pair, e: Event): Pair
    requires Enabled(p, e) && Closing(e)
  {
    match e
    case UnlockReady => p.(worker := ReleaseConnection, readyLocked := false, published := Some(p.shared))
    case GiveBack => p.(worker := AwaitCopied)
    case LockCopied => p.(worker := Free, copiedLocked := true)
    case Destroy => p.(worker := Gone, frees := p.frees + 1)
  }

  function WorkerStep(p: Pair, e: Event): Pair
    requires Enabled(p, e) && ByWorker(e)
  {
    if Closing(e) then Close(p, e)
    else
      var (worker, shared, sawOffline) := Gather(p, e);
      p.(worker := worker, shared := shared, sawOffline := sawOffline)
  }

  function Next(p: Pair, e: Event): Pair
    requires Enabled(p, e)
  {
    if ByWorker(e) then WorkerStep(p, e) else ReqStep(p, e)
  }

  predicate BeforePublish(w: Worker) {
    w.NotLaunched? || w.GetConnection? || w.LoadUsage? || w.CheckUsage? || w.LoadRules? || w.CheckRules?
    || w.CheckSelected? || w.LoadQuotas? || w.Publish?
  }

  predicate PastCopied(w: Worker) {
    w.Free? || w.Gone?
  }

  /** Requesters that were handed the worker's output. */
  predicate Taking(r: Requester) {
    || (r.Woken? && r.code.Ok?) || r.CopyRules? || r.CopyQuotas? || r.CopyActions?
    || (r.Unlock? && r.code.Ok?) || (r.Finished? && r.code.Ok?)
  }

  predicate InCounter(r: Requester) {
    r.Counted? || r.Waiting? || r.Woken?
  }

  /** The worker's whole output added to what the caller came with. */
  function Merged(entry: Data, output: Data): Data {
    Data(entry.rules + output.rules, Insert(entry.quotas, output.quotas), output.actions)
  }

  function DefaultsOnly(p: Pair): Data {
    Defaults(p.(caller := p.entry))
  }

  /** What the caller's data must be at each point of the requester's code. */
  ghost predicate CallerOk(p: Pair) {
    match p.req
    case CopyRules(n) =>
      n <= |p.shared.rules| && p.caller == p.entry.(rules := p.entry.rules + p.shared.rules[..n])
    case CopyQuotas => p.caller == p.entry.(rules := p.entry.rules + p.shared.rules)
    case CopyActions => p.caller == Merged(p.entry, p.shared).(actions := p.entry.actions)
    case Unlock(code) => p.caller == if code.Ok? then Merged(p.entry, p.shared) else DefaultsOnly(p)
    case Finished(code) =>
      p.caller == if code.Ok? && p.published.Some? then Merged(p.entry, p.published.value) else DefaultsOnly(p)
    case _ => p.caller == p.entry
  }

  /** How the two threads' positions, the mutexes, the flag and the ownership hang together. */
  ghost predicate Control(p: Pair) {
    && (p.worker.NotLaunched? <==>
          p.req.Start? || p.req.Counted? || ((p.req.GoOffline? || p.req.AddDefaults? || p.req.Unlock? || p.req.Finished?)
                                             && p.req.code.Busy?))
    && (p.req.Woken? ==> !p.req.code.Busy?)
    && ((p.req.GoOffline? || p.req.AddDefaults?) ==> !p.req.code.Ok?)
    // the two one-shot signals
    && (p.published.Some? <==> !BeforePublish(p.worker))
    && (p.published.Some? ==> p.published.value == p.shared)
    && (!p.readyLocked ==> p.published.Some? && !Taking(p.req))
    && (Taking(p.req) ==> p.published.Some?)
    && (p.copiedLocked <==> !(p.req.Finished? && !PastCopied(p.worker)))
    && (PastCopied(p.worker) ==> p.req.Finished?)
    // ownership
    && p.frees == (if p.worker.Gone? then 1 else 0)
    // the flag is raised only by a requester that will use defaults
    && (p.sawOffline ==> p.offline)
    && (p.offline <==> (p.req.AddDefaults? || p.req.Unlock? || p.req.Finished?) && !p.req.code.Ok?)
  }

  ghost predicate Inv(p: Pair) {
    Control(p) && CallerOk(p)
  }

  lemma NewPairInv(kind: RequestType, entry: Data, rules: seq<string>, quotas: map<string, Quota>)
    ensures Inv(NewPair(kind, entry, rules, quotas))
  {
  }

  lemma ReqStepControl(p: Pair, e: Event)
    requires Control(p) && Enabled(p, e) && !ByWorker(e)
    ensures Control(ReqStep(p, e))
  {
    hide Defaults;
  }

  lemma ReqStepCaller(p: Pair, e: Event)
    requires Inv(p) && Enabled(p, e) && !ByWorker(e)
    ensures CallerOk(ReqStep(p, e))
  {
    if e.CopyRule? {
      var n := p.req.next;
      assert p.shared.rules[..n + 1] == p.shared.rules[..n] + [p.shared.rules[n]];
      assert p.entry.rules + p.shared.rules[..n + 1] == p.entry.rules + p.shared.rules[..n] + [p.shared.rules[n]];
    } else if e.EndRules? {
      assert p.shared.rules[..p.req.next] == p.shared.rules;
    } else if e.Leave? {
      assert p.entry.rules + p.shared.rules[..0] == p.entry.rules;
    }
  }

  lemma WorkerStepControl(p: Pair, e: Event)
    requires Control(p) && Enabled(p, e) && ByWorker(e)
    ensures Control(WorkerStep(p, e))
  {
    if !Closing(e) {
      GatheringStep(p, e);
    }
  }

  /** While it gathers data the worker touches nothing but its position, its output and its record
      of having seen the flag. */
  lemma GatheringStep(p: Pair, e: Event)
    requires Enabled(p, e) && ByWorker(e) && !Closing(e)
    ensures var q := WorkerStep(p, e);
            && q == p.(worker := q.worker, shared := q.shared, sawOffline := q.sawOffline)
            && BeforePublish(p.worker) && !p.worker.NotLaunched?
            && BeforePublish(q.worker) && !q.worker.NotLaunched? && !q.worker.GetConnection?
            && (q.sawOffline ==> p.sawOffline || p.offline)
            && WorkerRank(q.worker) < WorkerRank(p.worker)
  {
    GatheringMove(p, e);
    OnwardIsLater(p.worker, Gather(p, e).0);
    hide Gather, BeforePublish, WorkerRank, Onward, Enabled;
  }

  /** Where the worker can go from each place before it publishes. */
  function Onward(w: Worker): set<Worker> {
    match w
    case GetConnection => {LoadUsage, Publish}
    case LoadUsage => {CheckUsage}
    case CheckUsage => {LoadRules, Publish}
    case LoadRules => {CheckRules}
    case CheckRules => {CheckSelected, Publish}
    case CheckSelected => {LoadQuotas, Publish}
    case LoadQuotas => {Publish}
    case _ => {}
  }

  lemma OnwardIsLater(w: Worker, next: Worker)
    requires next in Onward(w)
    ensures BeforePublish(next) && !next.NotLaunched? && !next.GetConnection?
    ensures WorkerRank(next) < WorkerRank(w)
  {
  }

  lemma GatheringMove(p: Pair, e: Event)
    requires Enabled(p, e) && ByWorker(e) && !Closing(e)
    ensures var (worker, _, sawOffline) := Gather(p, e);
            worker in Onward(p.worker) && (sawOffline ==> p.sawOffline || p.offline)
    ensures BeforePublish(p.worker) && !p.worker.NotLaunched?
  {
    hide Insert;
  }

  lemma WorkerStepCaller(p: Pair, e: Event)
    requires Inv(p) && Enabled(p, e) && ByWorker(e)
    ensures CallerOk(WorkerStep(p, e))
  {
    if !Closing(e) {
      GatheringStep(p, e);
      assert !Taking(p.req);
      var q := WorkerStep(p, e);
      hide WorkerStep;
      CallerIgnores(p, q.worker, q.shared, q.sawOffline);
      hide CallerOk;
    } else {
      hide Defaults, Insert;
    }
  }

  /** A requester that has not been handed the output does not depend on it. */
  lemma CallerIgnores(p: Pair, worker: Worker, shared: Data, sawOffline: bool)
    requires CallerOk(p) && !Taking(p.req)
    ensures CallerOk(p.(worker := worker, shared := shared, sawOffline := sawOffline))
  {
    DefaultsIgnore(p, worker, shared, sawOffline);
    hide DefaultsOnly, Merged;
  }

  lemma DefaultsIgnore(p: Pair, worker: Worker, shared: Data, sawOffline: bool)
    ensures DefaultsOnly(p.(worker := worker, shared := shared, sawOffline := sawOffline)) == DefaultsOnly(p)
  {
    hide Insert;
  }

  lemma StepKeepsInv(p: Pair, e: Event)
    requires Inv(p) && Enabled(p, e)
    ensures Inv(Next(p, e))
  {
    if ByWorker(e) {
      WorkerStepControl(p, e);
      WorkerStepCaller(p, e);
    } else {
      ReqStepControl(p, e);
      ReqStepCaller(p, e);
    }
  }

  /** No step touches the object after it was freed, and it is freed at most once. */
  lemma NoUseAfterFree(p: Pair, e: Event)
    requires Inv(p) && Enabled(p, e) && TouchesShared(e)
    ensures p.frees == 0
  {
  }

  // ----- Nobody waits forever

  function WorkerRank(w: Worker): nat {
    match w
    case NotLaunched => 12 case GetConnection => 11 case LoadUsage => 10 case CheckUsage => 9
    case LoadRules => 8 case CheckRules => 7 case CheckSelected => 6 case LoadQuotas => 5
    case Publish => 4 case ReleaseConnection => 3 case AwaitCopied => 2 case Free => 1 case Gone => 0
  }

  function ReqRank(p: Pair): nat {
    var n := |p.shared.rules|;
    match p.req
    case Start => n + 9
    case Counted => n + 8
    case Waiting => n + 7
    case Woken(_) => n + 6
    case CopyRules(next) => if next < n then n - next + 5 else 5
    case CopyQuotas => 4
    case CopyActions => 3
    case GoOffline(_) => 3
    case AddDefaults(_) => 2
    case Unlock(_) => 1
    case Finished(_) => 0
  }

  predicate Done(p: Pair) {
    p.req.Finished? && (p.worker.Gone? || p.req.code.Busy?)
  }

  /** Every step of either thread makes progress: a run of one pair has an end. */
  lemma StepDecreases(p: Pair, e: Event)
    requires Inv(p) && Enabled(p, e)
    ensures var q := Next(p, e);
            || WorkerRank(q.worker) < WorkerRank(p.worker)
            || (WorkerRank(q.worker) == WorkerRank(p.worker) && ReqRank(q) < ReqRank(p))
  {
    if ByWorker(e) {
      WorkerDecreases(p, e);
    } else {
      RequesterDecreases(p, e);
    }
    hide Inv, Enabled, ByWorker, WorkerStep, ReqStep, WorkerRank, ReqRank;
  }

  lemma WorkerDecreases(p: Pair, e: Event)
    requires Control(p) && Enabled(p, e) && ByWorker(e)
    ensures WorkerRank(WorkerStep(p, e).worker) < WorkerRank(p.worker)
  {
    if !Closing(e) {
      GatheringStep(p, e);
      hide WorkerStep, Control, WorkerRank;
    }
  }

  lemma RequesterDecreases(p: Pair, e: Event)
    requires Control(p) && Enabled(p, e) && !ByWorker(e)
    ensures var q := ReqStep(p, e);
            || WorkerRank(q.worker) < WorkerRank(p.worker)
            || (q.worker == p.worker && ReqRank(q) < ReqRank(p))
  {
    hide Defaults, Insert;
  }

  /** And as long as a pair is not through, somebody can step: the requester always, the worker
      unless it waits for a requester that still can. */
  lemma NoDeadlock(p: Pair) returns (e: Event)
    requires Inv(p) && !Done(p)
    ensures Enabled(p, e)
    ensures !p.req.Finished? ==> !ByWorker(e)
  {
    match p.req
    case Start => e := Enter;
    case Counted => e := Launch;
    case Waiting => e := TimeOut;
    case Woken(_) => e := Leave;
    case CopyRules(n) => e := if n < |p.shared.rules| then CopyRule else EndRules;
    case CopyQuotas => e := TakeQuotas;
    case CopyActions => e := TakeActions;
    case GoOffline(_) => e := RaiseFlag;
    case AddDefaults(_) => e := TakeDefaults;
    case Unlock(_) => e := UnlockCopied;
    case Finished(_) => e := WorkerMove(p.worker);
  }

  /** The worker's next step, with some outcome where it has several. */
  function WorkerMove(w: Worker): Event
    requires !w.NotLaunched? && !w.Gone?
  {
    match w
    case GetConnection => Connect(false)
    case LoadUsage => Usage(map[], false)
    case CheckUsage => CheckAfterUsage
    case LoadRules => Rules([])
    case CheckRules => CheckAfterRules
    case CheckSelected => CheckAfterSelect
    case LoadQuotas => Quotas(map[])
    case Publish => UnlockReady
    case ReleaseConnection => GiveBack
    case AwaitCopied => LockCopied
    case Free => Destroy
  }

  /** The worker can step unless it waits for a requester that is not through. */
  lemma WorkerBlocksOnlyOnRequester(p: Pair)
    requires Inv(p) && !p.worker.NotLaunched? && !p.worker.Gone?
    ensures Enabled(p, WorkerMove(p.worker)) <==> !(p.worker.AwaitCopied? && !p.req.Finished?)
  {
  }

  // ----- All requests together

  /** The requests in flight and the global counter of handlers. */
  datatype System = System(pairs: map<nat, Pair>, count: int, max: nat)

  datatype Action =
    | Arrive(id: nat, kind: RequestType, entry: Data, rules: seq<string>, quotas: map<string, Quota>)
    | Step(id: nat, e: Event)

  predicate CanHappen(s: System, a: Action) {
    match a
    case Arrive(id, _, _, _, _) => id !in s.pairs
    case Step(id, e) =>
      && id in s.pairs && Enabled(s.pairs[id], e)
      && (e.Enter? ==> s.count < s.max)
      && (e.Refuse? ==> s.count >= s.max)
  }

  function After(s: System, a: Action): System
    requires CanHappen(s, a)
  {
    match a
    case Arrive(id, kind, entry, rules, quotas) =>
      s.(pairs := s.pairs[id := NewPair(kind, entry, rules, quotas)])
    case Step(id, e) =>
      s.(pairs := s.pairs[id := Next(s.pairs[id], e)],
         count := if e.Enter? then s.count + 1 else if e.Leave? then s.count - 1 else s.count)
  }

  function Run(s: System, actions: seq<Action>): Option<System>
    decreases |actions|
  {
    if actions == [] then Some(s)
    else if CanHappen(s, actions[0]) then Run(After(s, actions[0]), actions[1..])
    else None
  }

  function InFlight(s: System): set<nat> {
    set id | id in s.pairs && InCounter(s.pairs[id].req)
  }

  ghost predicate SysInv(s: System) {
    && (forall id | id in s.pairs :: Inv(s.pairs[id]))
    && s.count == |InFlight(s)| <= s.max
  }

  lemma CounterRange(p: Pair, e: Event)
    requires Inv(p) && Enabled(p, e)
    ensures InCounter(Next(p, e).req) <==> if e.Enter? then true else if e.Leave? then false else InCounter(p.req)
    ensures e.Enter? ==> !InCounter(p.req)
    ensures e.Leave? ==> InCounter(p.req)
  {
    hide CallerOk, Defaults, Insert;
    if ByWorker(e) && !Closing(e) {
      GatheringStep(p, e);
    }
  }

  lemma InFlightUpdate(s: System, id: nat, q: Pair)
    requires id in s.pairs
    ensures InFlight(s.(pairs := s.pairs[id := q])) ==
            if InCounter(q.req) then InFlight(s) + {id} else InFlight(s) - {id}
    ensures id in InFlight(s) <==> InCounter(s.pairs[id].req)
  {
    hide InCounter;
  }

  lemma CounterStep(s: System, id: nat, e: Event)
    requires SysInv(s) && CanHappen(s, Step(id, e))
    ensures var t := After(s, Step(id, e)); t.count == |InFlight(t)| <= t.max
  {
    hide Next, Inv, InCounter, InFlight;
    var p := s.pairs[id];
    assert Inv(p) && Enabled(p, e);
    CounterRange(p, e);
    InFlightUpdate(s, id, Next(p, e));
    var t := After(s, Step(id, e));
    assert InFlight(t) == InFlight(s.(pairs := s.pairs[id := Next(p, e)])) by {
      SameInFlight(t, s.(pairs := s.pairs[id := Next(p, e)]));
    }
  }

  lemma SameInFlight(s: System, t: System)
    requires s.pairs == t.pairs
    ensures InFlight(s) == InFlight(t)
  {
  }

  lemma ActionKeepsInv(s: System, a: Action)
    requires SysInv(s) && CanHappen(s, a)
    ensures SysInv(After(s, a)) && After(s, a).max == s.max
  {
    match a
    case Arrive(id, kind, entry, rules, quotas) =>
      NewPairInv(kind, entry, rules, quotas);
      assert InFlight(After(s, a)) == InFlight(s);
    case Step(id, e) =>
      StepKeepsInv(s.pairs[id], e);
      CounterStep(s, id, e);
  }

  lemma {:induction false} RunKeepsInv(s: System, actions: seq<Action>)
    requires SysInv(s) && Run(s, actions).Some?
    ensures SysInv(Run(s, actions).value) && Run(s, actions).value.max == s.max
    decreases |actions|
  {
    if actions == [] {
    } else {
      ActionKeepsInv(s, actions[0]);
      RunKeepsInv(After(s, actions[0]), actions[1..]);
    }
  }

  /** `m` has the entries of `first` as they are, and those of `more` whose keys `first` lacks. */
  ghost predicate Extends<K(!new), V>(m: map<K, V>, first: map<K, V>, more: map<K, V>) {
    && (forall k :: k in m <==> k in first || k in more)
    && forall k | k in m :: m[k] == if k in first then first[k] else more[k]
  }

  /** What one request amounts to once its handler has returned.  With the worker's data in time: all
      of it, added to what the caller came with.  Otherwise the flag is up, and an initial request has
      the default rules added, an update the default quotas, a termination nothing. */
  ghost predicate Outcome(p: Pair) {
    p.req.Finished? ==>
      if p.req.code == Ok then
        && p.published.Some? && !p.offline && !p.sawOffline
        && p.caller.rules == p.entry.rules + p.published.value.rules
        && Extends(p.caller.quotas, p.entry.quotas, p.published.value.quotas)
        && p.caller.actions == p.published.value.actions
      else
        && p.offline
        && p.caller.rules == p.entry.rules + (if p.kind == Initial then p.defaultRules else [])
        && Extends(p.caller.quotas, p.entry.quotas, if p.kind == Update then p.defaultQuotas else map[])
        && p.caller.actions == p.entry.actions
  }

  lemma FinishedOutcome(p: Pair)
    requires Inv(p)
    ensures Outcome(p)
  {
  }

  /** Over every interleaving of any number of requests: the counter is the number of handlers
      inside and within its limit; a finished handler has the worker's complete output or the
      defaults and nothing in between; the object is freed once, by the worker, and exactly the
      refused requests leak theirs. */
  lemma EveryRunIsSafe(max: nat, actions: seq<Action>)
    requires Run(System(map[], 0, max), actions).Some?
    ensures var s := Run(System(map[], 0, max), actions).value;
            && s.count == |InFlight(s)| <= max
            && forall id | id in s.pairs ::
                 var p := s.pairs[id];
                 && Outcome(p) && p.frees <= 1
                 && (forall e | Enabled(p, e) && TouchesShared(e) :: p.frees == 0)
                 && (Done(p) ==> (p.frees == 0 <==> p.req.code.Busy?))
  {
    var s0 := System(map[], 0, max);
    assert InFlight(s0) == {};
    RunKeepsInv(s0, actions);
    var s := Run(s0, actions).value;
    forall id | id in s.pairs
      ensures Outcome(s.pairs[id])
      ensures forall e | Enabled(s.pairs[id], e) && TouchesShared(e) :: s.pairs[id].frees == 0
    {
      FinishedOutcome(s.pairs[id]);
      forall e | Enabled(s.pairs[id], e) && TouchesShared(e) ensures s.pairs[id].frees == 0 {
        NoUseAfterFree(s.pairs[id], e);
      }
    }
  }

  /** A server with one pair and no room. */
  function Alone(p: Pair): System {
    System(map[7 := p], 0, 0)
  }

  predicate LeavesCounter(e: Event) {
    !e.Enter? && !e.Leave?
  }

  lemma OneStep(p: Pair, e: Event, rest: seq<Action>)
    requires Enabled(p, e) && LeavesCounter(e)
    ensures Run(Alone(p), [Step(7, e)] + rest) == Run(Alone(Next(p, e)), rest)
  {
    hide Next, Enabled;
    assert ([Step(7, e)] + rest)[1..] == rest;
    assert map[7 := p][7 := Next(p, e)] == map[7 := Next(p, e)];
  }

  lemma TwoSteps(p: Pair, a: Event, b: Event, rest: seq<Action>)
    requires Enabled(p, a) && LeavesCounter(a) && Enabled(Next(p, a), b) && LeavesCounter(b)
    ensures Run(Alone(p), [Step(7, a), Step(7, b)] + rest) == Run(Alone(Next(Next(p, a), b)), rest)
  {
    hide Next, Enabled, Run, LeavesCounter;
    OneStep(p, a, [Step(7, b)] + rest);
    OneStep(Next(p, a), b, rest);
    assert [Step(7, a)] + ([Step(7, b)] + rest) == [Step(7, a), Step(7, b)] + rest;
  }

  lemma PairArrives(kind: RequestType, entry: Data, rules: seq<string>, quotas: map<string, Quota>, rest: seq<Action>)
    ensures Run(System(map[], 0, 0), [Arrive(7, kind, entry, rules, quotas)] + rest) ==
            Run(Alone(NewPair(kind, entry, rules, quotas)), rest)
  {
    hide NewPair;
    assert ([Arrive(7, kind, entry, rules, quotas)] + rest)[1..] == rest;
    var m: map<nat, Pair> := map[];
    assert m[7 := NewPair(kind, entry, rules, quotas)] == map[7 := NewPair(kind, entry, rules, quotas)];
  }

  /** A request refused because the counter is full leaks the object it had prepared: its run is over
      and nobody has freed it. */
  lemma RefusedRequestLeaks(kind: RequestType, entry: Data, rules: seq<string>, quotas: map<string, Quota>)
    ensures var s := Run(System(map[], 0, 0), [Arrive(7, kind, entry, rules, quotas), Step(7, Refuse), Step(7, RaiseFlag),
                                               Step(7, TakeDefaults), Step(7, UnlockCopied)]);
            && s.Some? && 7 in s.value.pairs
            && Done(s.value.pairs[7]) && s.value.pairs[7].frees == 0
  {
    hide Run, Next, Enabled, Done, NewPair, LeavesCounter;
    var p := NewPair(kind, entry, rules, quotas);
    RefusedPair(kind, entry, rules, quotas);
    var r := Next(Next(p, Refuse), RaiseFlag);
    TwoSteps(r, TakeDefaults, UnlockCopied, []);
    TwoSteps(p, Refuse, RaiseFlag, [Step(7, TakeDefaults), Step(7, UnlockCopied)]);
    RunEnds(Alone(Next(Next(r, TakeDefaults), UnlockCopied)));
    var rest := [Step(7, Refuse), Step(7, RaiseFlag), Step(7, TakeDefaults), Step(7, UnlockCopied)];
    assert [Step(7, TakeDefaults), Step(7, UnlockCopied)] + [] == [Step(7, TakeDefaults), Step(7, UnlockCopied)];
    assert [Step(7, Refuse), Step(7, RaiseFlag)] + [Step(7, TakeDefaults), Step(7, UnlockCopied)] == rest;
    PairArrives(kind, entry, rules, quotas, rest);
    assert [Arrive(7, kind, entry, rules, quotas)] + rest ==
           [Arrive(7, kind, entry, rules, quotas), Step(7, Refuse), Step(7, RaiseFlag), Step(7, TakeDefaults), Step(7, UnlockCopied)];
  }

  lemma RunEnds(s: System)
    ensures Run(s, []) == Some(s)
  {
  }

  lemma RefusedPair(kind: RequestType, entry: Data, rules: seq<string>, quotas: map<string, Quota>)
    ensures var p := NewPair(kind, entry, rules, quotas);
            Enabled(p, Refuse) &&
            (var q := Next(p, Refuse);
             Enabled(q, RaiseFlag) &&
             (var r := Next(q, RaiseFlag);
              Enabled(r, TakeDefaults) &&
              (var s := Next(r, TakeDefaults);
               Enabled(s, UnlockCopied) &&
               (var t := Next(s, UnlockCopied);
                Done(t) && t.frees == 0))))
    ensures LeavesCounter(Refuse) && LeavesCounter(RaiseFlag) && LeavesCounter(TakeDefaults) && LeavesCounter(UnlockCopied)
  {
    hide Defaults;
  }
}
