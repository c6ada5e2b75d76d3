/** The handshake of `TimedOper` as the two threads carry it out on the object they share. */
module TimedExchange {
  import opened Common
  import opened TimedOper

  /** The number of handlers inside, and its limit; `inside` records which ones they are. */
  class HandlerCounter {
    var count: nat
    const max: nat
    var inside: set<nat>

    predicate Valid()
      reads this
    {
      count == |inside| && count <= max
    }

    constructor (max: nat)
      ensures Valid() && count == 0 && this.max == max
    {
      count, inside := 0, {};
      this.max := max;
    }

    method Increment(id: nat) returns (ok: bool)
      requires Valid() && id !in inside
      modifies this
      ensures Valid() && ok == (old(count) < max)
      ensures inside == if ok then old(inside) + {id} else old(inside)
    {
      ok := true;
      if count < max {
        count := count + 1;
        inside := inside + {id};
      } else {
        ok := false;
      }
    }

    method Decrement(id: nat)
      requires Valid() && id in inside
      modifies this
      ensures Valid() && inside == old(inside) - {id}
    {
      count := count - 1;
      inside := inside - {id};
    }

    /** Other handlers come and go. */
    method Others(self: nat, ids: seq<nat>)
      requires Valid()
      modifies this
      ensures Valid() && (self in inside <==> self in old(inside))
    {
      for i := 0 to |ids|
        invariant Valid() && (self in inside <==> self in old(inside))
      {
        if ids[i] != self {
          if ids[i] in inside {
            Decrement(ids[i]);
          } else {
            var _ := Increment(ids[i]);
          }
        }
      }
    }
  }

  class Exchange {
    const kind: RequestType
    const defaultRules: seq<string>
    const defaultQuotas: map<string, Quota>
    var req: Requester
    var worker: Worker
    var readyLocked: bool
    var copiedLocked: bool
    var offline: bool
    var shared: Data
    var caller: Data
    // history, as in `Pair`
    var entry: Data
    var published: Option<Data>
    var sawOffline: bool
    var frees: nat

    function State(): Pair
      reads this
    {
      Pair(kind, defaultRules, defaultQuotas, req, worker, readyLocked, copiedLocked, offline, shared, caller,
           entry, published, sawOffline, frees)
    }

    /** Both mutexes are locked from the start. */
    constructor (kind: RequestType, caller: Data, rules: seq<string>, quotas: map<string, Quota>)
      ensures State() == NewPair(kind, caller, rules, quotas) && Inv(State())
    {
      this.kind, defaultRules, defaultQuotas := kind, rules, quotas;
      req, worker, readyLocked, copiedLocked, offline := Start, NotLaunched, true, true, false;
      shared, this.caller := Data([], map[], caller.actions), caller;
      entry, published, sawOffline, frees := caller, None, false, 0;
      new;
      NewPairInv(kind, caller, rules, quotas);
    }

    /** The worker looks at the flag and either goes on or skips to publishing. */
    method LookAtFlag(onward: Worker)
      modifies this`worker, this`sawOffline
      ensures worker == Check(old(State()), onward) && sawOffline == (old(sawOffline) || offline)
    {
      if !offline {
        worker := onward;
      } else {
        worker := Publish;
        sawOffline := true;
      }
    }

    /** One step of the worker while it gathers. */
    method GatherTurn(e: Event)
      requires Enabled(State(), e) && ByWorker(e) && !Closing(e)
      modifies this`worker, this`shared, this`sawOffline
      ensures (worker, shared, sawOffline) == Gather(old(State()), e)
    {
      hide Insert;
      match e {
        case Connect(ok) => worker := if ok then LoadUsage else Publish;
        case Usage(quotas, operateRule) =>
          worker := CheckUsage;
          if shared.actions.updateQuota {
            if !offline && !kind.Termination? {
              shared := shared.(quotas := Insert(shared.quotas, quotas));
              if operateRule {
                shared := shared.(actions := shared.actions.(operateRule := true));
              }
            } else {
              sawOffline := sawOffline || offline;
            }
          }
        case CheckAfterUsage => LookAtFlag(LoadRules);
        case Rules(rules) =>
          worker := CheckRules;
          if shared.actions.operateRule {
            shared := shared.(rules := rules);
          }
        case CheckAfterRules => LookAtFlag(if shared.actions.operateRule then CheckSelected else Publish);
        case CheckAfterSelect => LookAtFlag(LoadQuotas);
        case Quotas(quotas) =>
          shared := shared.(quotas := quotas);
          worker := Publish;
      }
    }

    /** One step of the worker. */
    method WorkerTurn(e: Event)
      requires Enabled(State(), e) && ByWorker(e)
      modifies this
      ensures State() == WorkerStep(old(State()), e)
    {
      hide Gather;
      if !Closing(e) {
        GatherTurn(e);
        return;
      }
      match e {
        case UnlockReady =>
          readyLocked := false;
          published := Some(shared);
          worker := ReleaseConnection;
        case GiveBack => worker := AwaitCopied;
        case LockCopied =>
          copiedLocked := true;
          worker := Free;
        case Destroy =>
          frees := frees + 1;
          worker := Gone;
      }
    }

    /** The worker runs for a while; a step that is not possible at its turn does not happen. */
    method LetWorkerRun(events: seq<Event>)
      requires Inv(State())
      modifies this
      ensures Inv(State())
      ensures req == old(req) && caller == old(caller) && entry == old(entry) && offline == old(offline)
      ensures worker.NotLaunched? <==> old(worker).NotLaunched?
      ensures Taking(req) ==> shared == old(shared)
    {
      hide Inv, Enabled, Taking;
      for i := 0 to |events|
        invariant Inv(State())
        invariant req == old(req) && caller == old(caller) && entry == old(entry) && offline == old(offline)
        invariant worker.NotLaunched? <==> old(worker).NotLaunched?
        invariant Taking(req) ==> shared == old(shared)
      {
        if Enabled(State(), events[i]) && ByWorker(events[i]) {
          StepKeepsInv(State(), events[i]);
          WorkerLeavesRequester(State(), events[i]);
          WorkerTurn(events[i]);
        }
      }
    }

    /** One step of the requester. */
    method RequesterTurn(e: Event)
      requires Inv(State()) && Enabled(State(), e) && !ByWorker(e)
      modifies this
      ensures State() == ReqStep(old(State()), e) && Inv(State())
    {
      StepKeepsInv(State(), e);
      hide Inv, Insert;
      match e {
        case Enter => req := Counted;
        case Refuse => req := GoOffline(Busy);
        case Launch =>
          worker := GetConnection;
          req := Waiting;
        case Acquire =>
          readyLocked := true;
          req := Woken(Ok);
        case TimeOut => req := Woken(TimedOut);
        case Leave => req := if req.code.Ok? then CopyRules(0) else GoOffline(req.code);
        case CopyRule =>
          caller := caller.(rules := caller.rules + [shared.rules[req.next]]);
          req := CopyRules(req.next + 1);
        case EndRules => req := CopyQuotas;
        case TakeQuotas =>
          caller := caller.(quotas := Insert(caller.quotas, shared.quotas));
          req := CopyActions;
        case TakeActions =>
          caller := caller.(actions := shared.actions);
          req := Unlock(Ok);
        case RaiseFlag =>
          offline := true;
          req := AddDefaults(req.code);
        case TakeDefaults =>
          if kind.Initial? {
            caller := caller.(rules := caller.rules + defaultRules);
          } else if kind.Update? {
            caller := caller.(quotas := Insert(caller.quotas, defaultQuotas));
          }
          req := Unlock(req.code);
        case UnlockCopied =>
          copiedLocked := false;
          req := Finished(req.code);
      }
    }

    /** The request handler number `id`, start to end, with the worker running in between as it
        pleases and other handlers coming and going: it is refused if and only if the counter is full
        when it asks; the caller gets the whole published output or the defaults, added to what it
        came with; and the handler is no longer counted. */
    method Serve(id: nat, counter: HandlerCounter, between: nat -> seq<Event>, others: nat -> seq<nat>)
      returns (code: Code)
      requires Inv(State()) && req.Start? && counter.Valid() && id !in counter.inside
      modifies this, counter
      ensures Inv(State()) && req == Finished(code)
      ensures code.Busy? <==> old(counter.count) >= counter.max
      ensures counter.Valid() && id !in counter.inside
      ensures Outcome(State()) && entry == old(entry)
    {
      hide Inv, Enabled, ReqStep, Outcome, Defaults, Merged, Insert;
      var room := counter.Increment(id);
      counter.Others(id, others(0));
      if room {
        code := AwaitData(between);
        counter.Others(id, others(1));
        counter.Decrement(id);
        RequesterLeave();
      } else {
        code := Busy;
        RefuseRequest();
      }
      counter.Others(id, others(2));
      if code.Ok? {
        CopyBack(between);
      } else {
        FallBack(code, between);
      }
      LetWorkerRun(between(3));
      Finish(code);
      FinishedOutcome(State());
    }

    method RefuseRequest()
      requires Inv(State()) && req.Start?
      modifies this
      ensures Inv(State()) && req == GoOffline(Busy) && entry == old(entry)
    {
      hide Inv;
      RequesterTurn(Refuse);
    }

    /** Raises the flag and takes the defaults. */
    method FallBack(code: Code, between: nat -> seq<Event>)
      requires Inv(State()) && req == GoOffline(code)
      modifies this
      ensures Inv(State()) && req == Unlock(code) && entry == old(entry)
    {
      hide Inv, Defaults;
      Turn(RaiseFlag, GoOffline(code), AddDefaults(code));
      LetWorkerRun(between(2));
      Turn(TakeDefaults, AddDefaults(code), Unlock(code));
    }

    method Finish(code: Code)
      requires Inv(State()) && req == Unlock(code)
      modifies this
      ensures Inv(State()) && req == Finished(code) && entry == old(entry)
    {
      hide Inv;
      RequesterTurn(UnlockCopied);
    }

    /** A step that takes the requester from one place to another. */
    method Turn(e: Event, place: Requester, to: Requester)
      requires Inv(State()) && req == place && Enabled(State(), e) && !ByWorker(e)
      requires ReqStep(State(), e).req == to
      modifies this
      ensures State() == ReqStep(old(State()), e) && Inv(State()) && req == to && entry == old(entry)
    {
      hide Inv, Enabled;
      RequesterTurn(e);
    }

    /** Launches the worker and waits for its data until the timeout. */
    method AwaitData(between: nat -> seq<Event>) returns (code: Code)
      requires Inv(State()) && req.Start?
      modifies this
      ensures Inv(State()) && req == Woken(code) && !code.Busy? && entry == old(entry)
    {
      hide Inv, Defaults, Merged, Insert;
      Turn(Enter, Start, Counted);
      Turn(Launch, Counted, Waiting);
      LetWorkerRun(between(0));
      if !readyLocked {
        Turn(Acquire, Waiting, Woken(Ok));
        code := Ok;
      } else {
        Turn(TimeOut, Waiting, Woken(TimedOut));
        code := TimedOut;
      }
    }

    method RequesterLeave()
      requires Inv(State()) && req.Woken?
      modifies this
      ensures Inv(State()) && entry == old(entry)
      ensures req == if old(req).code.Ok? then CopyRules(0) else GoOffline(old(req).code)
    {
      hide Inv;
      RequesterTurn(Leave);
    }

    /** Copies the rules one by one, then the quotas and the action set. */
    method CopyBack(between: nat -> seq<Event>)
      requires Inv(State()) && req == CopyRules(0)
      modifies this
      ensures Inv(State()) && req == Unlock(Ok) && entry == old(entry)
    {
      hide Inv, Defaults, Merged, Insert;
      var next := 0;
      while next < |shared.rules|
        invariant Inv(State()) && req == CopyRules(next) && entry == old(entry)
        invariant next <= |shared.rules|
        decreases |shared.rules| - next
      {
        LetWorkerRun(between(next));
        CopyOne(next);
        next := next + 1;
      }
      Turn(EndRules, CopyRules(next), CopyQuotas);
      LetWorkerRun(between(next));
      CopyRest();
    }

    method CopyOne(next: nat)
      requires Inv(State()) && req == CopyRules(next) && next < |shared.rules|
      modifies this
      ensures Inv(State()) && req == CopyRules(next + 1) && entry == old(entry) && shared == old(shared)
    {
      hide Inv;
      RequesterTurn(CopyRule);
    }

    method CopyRest()
      requires Inv(State()) && req == CopyQuotas
      modifies this
      ensures Inv(State()) && req == Unlock(Ok) && entry == old(entry)
    {
      hide Inv, Insert;
      Turn(TakeQuotas, CopyQuotas, CopyActions);
      Turn(TakeActions, CopyActions, Unlock(Ok));
    }
  }

  lemma WorkerLeavesRequester(p: Pair, e: Event)
    requires Inv(p) && Enabled(p, e) && ByWorker(e)
    ensures var q := WorkerStep(p, e);
            && (Taking(p.req) ==> q.shared == p.shared)
            && q.req == p.req && q.caller == p.caller && q.entry == p.entry && q.offline == p.offline
            && !p.worker.NotLaunched? && !q.worker.NotLaunched?
  {
    if !Closing(e) {
      GatheringStep(p, e);
      hide WorkerStep, CallerOk;
    }
  }
}
