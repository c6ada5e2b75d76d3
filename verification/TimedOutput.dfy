/** What the worker of `TimedOper` publishes, told from the events that happened. */
module TimedOutput {
  import opened Common
  import opened TimedOper

  function PairRun(p: Pair, events: seq<Event>): Option<Pair>
    decreases |events|
  {
    if events == [] then Some(p)
    else if Enabled(p, events[0]) then PairRun(Next(p, events[0]), events[1..])
    else None
  }

  // ----- A record of the events

  /** What the worker was told, and whether the flag was up then. */
  datatype Answer = Answer(quotas: map<string, Quota>, operateRule: bool, up: bool)

  /** `up` tells whether the flag is up; each of the others what happened at that point, if anything. */
  datatype Story = Story(up: bool, connected: Option<bool>, usage: Option<Answer>, check1: Option<bool>,
                         rules: Option<seq<string>>, check2: Option<bool>, check3: Option<bool>,
                         quotas: Option<map<string, Quota>>)

  const UNTOLD := Story(false, None, None, None, None, None, None, None)

  function Hear(st: Story, e: Event): Story {
    match e
    case RaiseFlag => st.(up := true)
    case Connect(ok) => st.(connected := Some(ok))
    case Usage(quotas, operateRule) => st.(usage := Some(Answer(quotas, operateRule, st.up)))
    case CheckAfterUsage => st.(check1 := Some(st.up))
    case Rules(rules) => st.(rules := Some(rules))
    case CheckAfterRules => st.(check2 := Some(st.up))
    case CheckAfterSelect => st.(check3 := Some(st.up))
    case Quotas(quotas) => st.(quotas := Some(quotas))
    case _ => st
  }

  function HearAll(st: Story, events: seq<Event>): Story
    decreases |events|
  {
    if events == [] then st else HearAll(Hear(st, events[0]), events[1..])
  }

  /** One event changes its own entry of the record only. */
  lemma HearOne(st: Story, e: Event)
    ensures var st' := Hear(st, e);
            && (st'.up <==> st.up || e == RaiseFlag)
            && st'.connected == (if e.Connect? then Some(e.ok) else st.connected)
            && st'.rules == (if e.Rules? then Some(e.rules) else st.rules)
            && st'.usage == (if e.Usage? then Some(Answer(e.quotas, e.operateRule, st.up)) else st.usage)
            && st'.quotas == (if e.Quotas? then Some(e.quotas) else st.quotas)
  {
  }

  /** The record tells which of the worker's answers came, and what the last of each said. */
  lemma {:induction false} StoryTellsEvents(st: Story, events: seq<Event>)
    ensures var st' := HearAll(st, events);
            && (st'.up <==> st.up || RaiseFlag in events)
            && (if exists e | e in events :: e.Connect? then st'.connected.Some? && Connect(st'.connected.value) in events
                else st'.connected == st.connected)
            && (if exists e | e in events :: e.Rules? then st'.rules.Some? && Rules(st'.rules.value) in events
                else st'.rules == st.rules)
            && (if exists e | e in events :: e.Quotas? then st'.quotas.Some? && Quotas(st'.quotas.value) in events
                else st'.quotas == st.quotas)
            && (if exists e | e in events :: e.Usage? then
                  st'.usage.Some? && Event.Usage(st'.usage.value.quotas, st'.usage.value.operateRule) in events
                else st'.usage == st.usage)
    decreases |events|
  {
    hide Hear;
    if events == [] {
    } else {
      HearOne(st, events[0]);
      StoryTellsEvents(Hear(st, events[0]), events[1..]);
      assert forall e :: e in events <==> e == events[0] || e in events[1..];
    }
  }

  // ----- The output, from the record

  /** The usage answer counts if the action set asks for quotas, the request is no termination and the
      flag was not up. */
  predicate Took(kind: RequestType, entry: Data, st: Story) {
    st.usage.Some? && entry.actions.updateQuota && !kind.Termination? && !st.usage.value.up
  }

  /** Rules are asked for by the action set on entry or by a usage answer that counts. */
  predicate Operates(kind: RequestType, entry: Data, st: Story) {
    entry.actions.operateRule || (Took(kind, entry, st) && st.usage.value.operateRule)
  }

  function RulesTold(kind: RequestType, entry: Data, st: Story): seq<string> {
    if Operates(kind, entry, st) && st.rules.Some? then st.rules.value else []
  }

  function QuotasTold(kind: RequestType, entry: Data, st: Story): map<string, Quota> {
    if st.quotas.Some? then st.quotas.value
    else if Took(kind, entry, st) then st.usage.value.quotas
    else map[]
  }

  /** Which answers have come once the output is published: the next one is always sought until the
      flag is seen. */
  ghost predicate Complete(kind: RequestType, entry: Data, st: Story) {
    && st.connected.Some?
    && (st.usage.Some? <==> st.connected == Some(true)) && (st.check1.Some? <==> st.usage.Some?)
    && (st.rules.Some? <==> st.check1 == Some(false)) && (st.check2.Some? <==> st.rules.Some?)
    && (st.check3.Some? <==> st.check2 == Some(false) && Operates(kind, entry, st))
    && (st.quotas.Some? <==> st.check3 == Some(false))
  }

  /** The worker saw the flag at one of the points where it looks. */
  predicate Saw(entry: Data, st: Story) {
    || (st.usage.Some? && entry.actions.updateQuota && st.usage.value.up)
    || st.check1 == Some(true) || st.check2 == Some(true) || st.check3 == Some(true)
  }

  // ----- Every run

  ghost predicate Stage(p: Pair, st: Story) {
    match p.worker
    case NotLaunched => st == UNTOLD.(up := st.up)
    case GetConnection => st == UNTOLD.(up := st.up)
    case LoadUsage => st == UNTOLD.(up := st.up, connected := Some(true))
    case CheckUsage =>
      st.usage.Some? && st == UNTOLD.(up := st.up, connected := Some(true), usage := st.usage)
    case LoadRules =>
      st.usage.Some? && st == UNTOLD.(up := st.up, connected := Some(true), usage := st.usage, check1 := Some(false))
    case CheckRules =>
      && st.usage.Some? && st.rules.Some?
      && st == UNTOLD.(up := st.up, connected := Some(true), usage := st.usage, check1 := Some(false), rules := st.rules)
    case CheckSelected =>
      && st.usage.Some? && st.rules.Some? && Operates(p.kind, p.entry, st)
      && st == UNTOLD.(up := st.up, connected := Some(true), usage := st.usage, check1 := Some(false), rules := st.rules,
                       check2 := Some(false))
    case LoadQuotas =>
      && st.usage.Some? && st.rules.Some? && Operates(p.kind, p.entry, st)
      && st == UNTOLD.(up := st.up, connected := Some(true), usage := st.usage, check1 := Some(false), rules := st.rules,
                       check2 := Some(false), check3 := Some(false))
    case _ => Complete(p.kind, p.entry, st)
  }

  ghost predicate Told(p: Pair, st: Story) {
    && Stage(p, st)
    && p.offline == st.up
    && (p.sawOffline <==> Saw(p.entry, st))
    && p.shared == Data(RulesTold(p.kind, p.entry, st), QuotasTold(p.kind, p.entry, st),
                        p.entry.actions.(operateRule := Operates(p.kind, p.entry, st)))
    && (p.published.Some? <==> !BeforePublish(p.worker))
    && (p.published.Some? ==> p.published.value == p.shared)
  }

  lemma RequesterKeepsTold(p: Pair, e: Event, st: Story)
    requires Told(p, st) && Enabled(p, e) && !ByWorker(e)
    requires e.Launch? ==> p.worker.NotLaunched?
    ensures Told(ReqStep(p, e), Hear(st, e))
  {
    hide Defaults, Insert;
  }

  lemma AnswerTells(p: Pair, e: Event, st: Story)
    requires Told(p, st) && Enabled(p, e) && (e.Connect? || e.Rules? || e.Quotas?)
    ensures Told(WorkerStep(p, e), Hear(st, e))
  {
    hide Insert;
    match e {
      case Connect(_) =>
      case Rules(_) =>
      case Quotas(_) =>
    }
  }

  lemma UsageTells(p: Pair, e: Event, st: Story)
    requires Told(p, st) && Enabled(p, e) && e.Usage?
    ensures Told(WorkerStep(p, e), Hear(st, e))
  {
    assert Insert(map[], e.quotas) == e.quotas;
    hide Insert;
  }

  lemma CheckTells(p: Pair, e: Event, st: Story)
    requires Told(p, st) && Enabled(p, e) && (e.CheckAfterUsage? || e.CheckAfterRules? || e.CheckAfterSelect?)
    ensures Told(WorkerStep(p, e), Hear(st, e))
  {
    hide Insert;
    match e {
      case CheckAfterUsage =>
      case CheckAfterRules =>
      case CheckAfterSelect =>
    }
  }

  lemma CloseTells(p: Pair, e: Event, st: Story)
    requires Told(p, st) && Enabled(p, e) && Closing(e)
    ensures Told(WorkerStep(p, e), Hear(st, e))
  {
  }

  lemma LaunchesOnce(p: Pair)
    requires Inv(p) && Enabled(p, Launch)
    ensures p.worker.NotLaunched?
  {
  }

  predicate SameRequest(p: Pair, q: Pair) {
    q.kind == p.kind && q.entry == p.entry && q.defaultRules == p.defaultRules && q.defaultQuotas == p.defaultQuotas
  }

  lemma StepTells(p: Pair, e: Event, st: Story)
    requires Inv(p) && Told(p, st) && Enabled(p, e)
    ensures Told(Next(p, e), Hear(st, e)) && SameRequest(p, Next(p, e))
  {
    StepKeepsRequest(p, e);
    if e.Launch? {
      LaunchesOnce(p);
    }
    if !ByWorker(e) {
      RequesterKeepsTold(p, e, st);
    } else if Closing(e) {
      CloseTells(p, e, st);
    } else if e.Usage? {
      UsageTells(p, e, st);
    } else if e.Connect? || e.Rules? || e.Quotas? {
      AnswerTells(p, e, st);
    } else {
      CheckTells(p, e, st);
    }
    hide Inv, Told, Enabled, Hear, ReqStep, WorkerStep;
  }

  lemma StepKeepsRequest(p: Pair, e: Event)
    requires Enabled(p, e)
    ensures SameRequest(p, Next(p, e))
  {
    hide Defaults, Insert, Gather;
  }

  lemma {:induction false} RunTells(p: Pair, st: Story, events: seq<Event>)
    requires Inv(p) && Told(p, st) && PairRun(p, events).Some?
    ensures var q := PairRun(p, events).value;
            Inv(q) && Told(q, HearAll(st, events)) && SameRequest(p, q)
    decreases |events|
  {
    if events == [] {
    } else {
      StepKeepsInv(p, events[0]);
      StepTells(p, events[0], st);
      hide Inv, Told, Enabled, Hear, Next;
      RunTells(Next(p, events[0]), Hear(st, events[0]), events[1..]);
    }
  }

  lemma NewPairTold(kind: RequestType, entry: Data, rules: seq<string>, quotas: map<string, Quota>)
    ensures Told(NewPair(kind, entry, rules, quotas), UNTOLD)
  {
  }

  /** What any run publishes, from its events alone. The rules are those the rules answer told, if the
      action set on entry or a usage answer asked for rules; the quotas are those of the last answer
      about quotas; both as far as the worker had come when it saw the flag. */
  lemma WhatIsPublished(kind: RequestType, entry: Data, rules: seq<string>, quotas: map<string, Quota>, events: seq<Event>)
    requires PairRun(NewPair(kind, entry, rules, quotas), events).Some?
    requires PairRun(NewPair(kind, entry, rules, quotas), events).value.published.Some?
    ensures var p := PairRun(NewPair(kind, entry, rules, quotas), events).value;
            var output, st := p.published.value, HearAll(UNTOLD, events);
            var took := st.usage.Some? && entry.actions.updateQuota && kind != Termination && !st.usage.value.up;
            var operates := entry.actions.operateRule || (took && st.usage.value.operateRule);
            && Complete(kind, entry, st)
            && (p.sawOffline <==> Saw(entry, st))
            && output.rules == (if operates && st.rules.Some? then st.rules.value else [])
            && output.quotas == (if st.quotas.Some? then st.quotas.value else if took then st.usage.value.quotas else map[])
            && output.actions == entry.actions.(operateRule := operates)
  {
    NewPairInv(kind, entry, rules, quotas);
    NewPairTold(kind, entry, rules, quotas);
    RunTells(NewPair(kind, entry, rules, quotas), UNTOLD, events);
    AfterPublication(PairRun(NewPair(kind, entry, rules, quotas), events).value, HearAll(UNTOLD, events));
    hide Inv, PairRun, HearAll;
  }

  lemma AfterPublication(p: Pair, st: Story)
    requires Told(p, st) && p.published.Some?
    ensures Complete(p.kind, p.entry, st)
  {
  }

  /** In particular for a worker that got a connection and never saw the flag: every answer it should
      have sought has come. */
  lemma WhatIsPublishedUnhurried(kind: RequestType, entry: Data, rules: seq<string>, quotas: map<string, Quota>, events: seq<Event>)
    requires PairRun(NewPair(kind, entry, rules, quotas), events).Some?
    requires var p := PairRun(NewPair(kind, entry, rules, quotas), events).value; p.published.Some? && !p.sawOffline
    requires HearAll(UNTOLD, events).connected == Some(true)
    ensures var output, st := PairRun(NewPair(kind, entry, rules, quotas), events).value.published.value, HearAll(UNTOLD, events);
            && st.usage.Some? && st.rules.Some?
            && var took := entry.actions.updateQuota && kind != Termination;
               var operates := entry.actions.operateRule || (took && st.usage.value.operateRule);
            && output.rules == (if operates then st.rules.value else [])
            && (operates ==> st.quotas.Some? && output.quotas == st.quotas.value)
            && (!operates ==> output.quotas == if took then st.usage.value.quotas else map[])
  {
    WhatIsPublished(kind, entry, rules, quotas, events);
    NewPairInv(kind, entry, rules, quotas);
    NewPairTold(kind, entry, rules, quotas);
    RunTells(NewPair(kind, entry, rules, quotas), UNTOLD, events);
    UnhurriedAnswers(PairRun(NewPair(kind, entry, rules, quotas), events).value, HearAll(UNTOLD, events));
    hide Inv, Told, PairRun, HearAll, NewPair;
  }

  // ----- All requests together

  /** The events of one request among all actions. */
  function EventsOf(actions: seq<Action>, id: nat): seq<Event> {
    if actions == [] then []
    else (if actions[0].Step? && actions[0].id == id then [actions[0].e] else []) + EventsOf(actions[1..], id)
  }

  /** In any run of all requests, each one's part is a run of its own. */
  lemma {:induction false} EachPairRuns(s: System, actions: seq<Action>, id: nat)
    requires Run(s, actions).Some? && id in s.pairs
    ensures id in Run(s, actions).value.pairs
    ensures PairRun(s.pairs[id], EventsOf(actions, id)) == Some(Run(s, actions).value.pairs[id])
    decreases |actions|
  {
    hide Next, Enabled, NewPair;
    if actions == [] {
    } else {
      var rest := EventsOf(actions[1..], id);
      EachPairRuns(After(s, actions[0]), actions[1..], id);
      if actions[0].Step? && actions[0].id == id {
        assert ([actions[0].e] + rest)[1..] == rest;
      } else {
        assert EventsOf(actions, id) == rest;
      }
    }
  }

  /** So each request of a run from the empty server has arrived and then run on its own, and what is
      proved of one request's run holds of each. */
  lemma {:induction false} EveryPairIsARun(s: System, actions: seq<Action>, id: nat) returns (k: nat)
    requires Run(s, actions).Some? && id !in s.pairs && id in Run(s, actions).value.pairs
    ensures k < |actions| && actions[k].Arrive? && actions[k].id == id
    ensures var a := actions[k];
            PairRun(NewPair(a.kind, a.entry, a.rules, a.quotas), EventsOf(actions[k + 1..], id))
              == Some(Run(s, actions).value.pairs[id])
    decreases |actions|
  {
    hide Next, Enabled, NewPair;
    if actions[0].Arrive? && actions[0].id == id {
      k := 0;
      EachPairRuns(After(s, actions[0]), actions[1..], id);
    } else {
      k := EveryPairIsARun(After(s, actions[0]), actions[1..], id);
      k := k + 1;
      assert actions[1..][k - 1 + 1..] == actions[k + 1..];
    }
  }

  /** Each request of any run from the empty server, from the events of its own two threads alone.  A
      handler that got the worker's data returns with the rules the caller came with and, if the action
      set on entry or the usage answer asked for rules, the rules told after them; with the caller's
      quotas and those told; any other returns with the defaults of its kind, the flag raised. */
  lemma EveryRequestIsAnswered(max: nat, actions: seq<Action>, id: nat) returns (k: nat)
    requires Run(System(map[], 0, max), actions).Some? && id in Run(System(map[], 0, max), actions).value.pairs
    ensures k < |actions| && actions[k].Arrive? && actions[k].id == id
    ensures var a, p := actions[k], Run(System(map[], 0, max), actions).value.pairs[id];
            var events := EventsOf(actions[k + 1..], id);
            var st := HearAll(UNTOLD, events);
            var took := st.usage.Some? && a.entry.actions.updateQuota && a.kind != Termination && !st.usage.value.up;
            var operates := a.entry.actions.operateRule || (took && st.usage.value.operateRule);
            && (p.req == Finished(Ok) ==>
                  && RaiseFlag !in events
                  && st.connected.Some? && (st.connected.value ==> st.usage.Some? && st.rules.Some?)
                  && (st.connected.value && operates ==> st.quotas.Some?)
                  && p.caller.rules == a.entry.rules + (if operates && st.rules.Some? then st.rules.value else [])
                  && Extends(p.caller.quotas, a.entry.quotas,
                             if st.quotas.Some? then st.quotas.value else if took then st.usage.value.quotas else map[])
                  && p.caller.actions == a.entry.actions.(operateRule := operates))
            && (p.req.Finished? && p.req.code != Ok ==>
                  && RaiseFlag in events
                  && p.caller.rules == a.entry.rules + (if a.kind == Initial then a.rules else [])
                  && Extends(p.caller.quotas, a.entry.quotas, if a.kind == Update then a.quotas else map[])
                  && p.caller.actions == a.entry.actions)
  {
    k := EveryPairIsARun(System(map[], 0, max), actions, id);
    var a, p := actions[k], Run(System(map[], 0, max), actions).value.pairs[id];
    var events := EventsOf(actions[k + 1..], id);
    var p0 := NewPair(a.kind, a.entry, a.rules, a.quotas);
    hide Run, EventsOf;
    RunAnswers(p0, a, events, p);
    if p.req == Finished(Ok) {
      UnhurriedAnswers(p, HearAll(UNTOLD, events));
    }
  }

  /** A worker whose requester never raised the flag sought every answer it should have. */
  lemma UnhurriedAnswers(p: Pair, st: Story)
    requires Told(p, st) && p.published.Some? && !p.sawOffline
    ensures st.connected.Some? && (st.connected.value ==> st.usage.Some? && st.rules.Some?)
    ensures st.connected.value && Operates(p.kind, p.entry, st) ==> st.quotas.Some?
  {
    AfterPublication(p, st);
    hide Told, Operates;
    if st.connected.value {
      assert st.check1.value == false && st.check2.value == false && (st.check3.Some? ==> st.check3.value == false);
    }
  }

  lemma RunAnswers(p0: Pair, a: Action, events: seq<Event>, p: Pair)
    requires a.Arrive? && p0 == NewPair(a.kind, a.entry, a.rules, a.quotas) && PairRun(p0, events) == Some(p)
    ensures Outcome(p) && SameRequest(p0, p) && Told(p, HearAll(UNTOLD, events))
    ensures HearAll(UNTOLD, events).up <==> RaiseFlag in events
  {
    NewPairInv(a.kind, a.entry, a.rules, a.quotas);
    NewPairTold(a.kind, a.entry, a.rules, a.quotas);
    hide Inv, Told, Outcome, SameRequest, PairRun, HearAll, NewPair;
    RunTells(p0, UNTOLD, events);
    FinishedOutcome(p);
    StoryTellsEvents(UNTOLD, events);
  }
}
