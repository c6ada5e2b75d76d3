/** The refresh path at work while others change the rule cache.

    A refresh reads the session's rules in one critical section and then makes each change in a
    critical section of its own; request handlers, terminations and commands of other servers may
    change the cache in between. */
module RefreshFlow {
  import opened Common
  import opened RuleCache
  import opened RuleRefresh
  import RuleList

  /** What other threads change before section number `k`. */
  type Others = nat -> seq<Change>

  /** The cache after some changes of one's own, each with others' changes before it. */
  function Amid(m: Cache, own: seq<Change>, others: Others, k: nat): Cache
    decreases |own|
  {
    if own == [] then m else Amid(Changed(Replay(m, others(k)), own[0]), own[1..], others, k + 1)
  }

  lemma {:induction false} AmidConcat(m: Cache, a: seq<Change>, b: seq<Change>, others: Others, k: nat)
    ensures Amid(m, a + b, others, k) == Amid(Amid(m, a, others, k), b, others, k + |a|)
    decreases |a|
  {
    if a == [] {
      assert a + b == b;
    } else {
      assert (a + b)[1..] == a[1..] + b;
      AmidConcat(Changed(Replay(m, others(k)), a[0]), a[1..], b, others, k + 1);
    }
  }

  // ----- In place

  /** Makes the changes given, none or one, after others have made theirs. */
  method EraseRule(cache: SessionRuleCache, session: string, name: string, others: Others, k: nat) returns (next: nat)
    modifies cache
    ensures cache.rules == Amid(old(cache.rules), Named(session, name, Erase(session, name)), others, k)
    ensures next == k + |Named(session, name, Erase(session, name))|
  {
    hide Changed, Replay;
    next := k;
    if session != "" && name != "" {
      Meanwhile(cache, others(k));
      cache.RemoveRuleLocal(session, name);
      next := k + 1;
      OneAmid(old(cache.rules), Erase(session, name), others, k);
    }
  }

  method AddRule(cache: SessionRuleCache, session: string, name: string, others: Others, k: nat) returns (next: nat)
    modifies cache
    ensures cache.rules == Amid(old(cache.rules), Named(session, name, Add(session, name)), others, k)
    ensures next == k + |Named(session, name, Add(session, name))|
  {
    hide Changed, Replay;
    next := k;
    if session != "" && name != "" {
      Meanwhile(cache, others(k));
      cache.InsertLocal(session, name);
      next := k + 1;
      OneAmid(old(cache.rules), Add(session, name), others, k);
    }
  }

  lemma OneAmid(m: Cache, e: Change, others: Others, k: nat)
    ensures Amid(m, [e], others, k) == Changed(Replay(m, others(k)), e)
  {
    hide Changed, Replay;
    assert [e][1..] == [];
  }

  lemma ErasureStep(session: string, dialect: Dialect, active: seq<Rule>, i: nat)
    requires i < |active|
    ensures Erasures(session, dialect, active[i..]) ==
            (if Supported(dialect) && !active[i].isRelevant
             then Named(session, active[i].name, Erase(session, active[i].name)) else [])
            + Erasures(session, dialect, active[i + 1..])
    ensures InCRR(dialect, active[i..]) ==
            (if SpeaksGx(dialect) && !active[i].isRelevant then [active[i].name] else []) + InCRR(dialect, active[i + 1..])
  {
    hide Named;
    assert active[i..][1..] == active[i + 1..];
    assert [] + InCRR(dialect, active[i + 1..]) == InCRR(dialect, active[i + 1..]);
  }

  lemma AdditionStep(session: string, dialect: Dialect, wanted: seq<Rule>, i: nat)
    requires i < |wanted|
    ensures Additions(session, dialect, wanted[i..]) ==
            (if Supported(dialect) && !wanted[i].isActive
             then Named(session, wanted[i].name, Add(session, wanted[i].name)) else [])
            + Additions(session, dialect, wanted[i + 1..])
    ensures InCRI(dialect, wanted[i..]) ==
            (if SpeaksGx(dialect) && !wanted[i].isActive then [wanted[i].name] else []) + InCRI(dialect, wanted[i + 1..])
  {
    hide Named;
    assert wanted[i..][1..] == wanted[i + 1..];
    assert [] + InCRI(dialect, wanted[i + 1..]) == InCRI(dialect, wanted[i + 1..]);
  }

  /** Drops each irrelevant rule from the cache, in a section of its own, and names it in the message. */
  method MakeCRR(cache: SessionRuleCache, session: string, dialect: Dialect, active: seq<Rule>, others: Others, k: nat)
    returns (removed: seq<string>, next: nat)
    modifies cache
    ensures cache.rules == Amid(old(cache.rules), Erasures(session, dialect, active), others, k)
    ensures next == k + |Erasures(session, dialect, active)|
    ensures removed == InCRR(dialect, active)
  {
    hide Erasures, InCRR, Amid, Named;
    assert active[0..] == active;
    removed, next := [], k;
    var i := 0;
    while i < |active|
      invariant i <= |active|
      invariant next + |Erasures(session, dialect, active[i..])| == k + |Erasures(session, dialect, active)|
      invariant Amid(cache.rules, Erasures(session, dialect, active[i..]), others, next)
             == Amid(old(cache.rules), Erasures(session, dialect, active), others, k)
      invariant removed + InCRR(dialect, active[i..]) == InCRR(dialect, active)
    {
      ErasureStep(session, dialect, active, i);
      ghost var rest := Erasures(session, dialect, active[i + 1..]);
      Associates(removed, if SpeaksGx(dialect) && !active[i].isRelevant then [active[i].name] else [],
                 InCRR(dialect, active[i + 1..]));
      assert removed + [] == removed && [] + rest == rest;
      if !active[i].isRelevant {
        AmidConcat(cache.rules, Named(session, active[i].name, Erase(session, active[i].name)), rest, others, next);
        match dialect
        case HuaweiUgw | Procera | Ericsson =>
          removed := removed + [active[i].name];
          next := EraseRule(cache, session, active[i].name, others, next);
        case CiscoSce =>
          next := EraseRule(cache, session, active[i].name, others, next);
        case _ =>
      }
      i := i + 1;
    }
    assert active[i..] == [] && removed + [] == removed;
    NothingErased(session, dialect, cache.rules, others, next);
  }

  lemma NothingErased(session: string, dialect: Dialect, m: Cache, others: Others, k: nat)
    ensures Erasures(session, dialect, []) == [] && InCRR(dialect, []) == []
    ensures Additions(session, dialect, []) == [] && InCRI(dialect, []) == []
    ensures Amid(m, [], others, k) == m
  {
  }

  /** Adds each rule that is not installed, likewise. */
  method MakeCRI(cache: SessionRuleCache, session: string, dialect: Dialect, wanted: seq<Rule>, others: Others, k: nat)
    returns (installed: seq<string>, next: nat)
    modifies cache
    ensures cache.rules == Amid(old(cache.rules), Additions(session, dialect, wanted), others, k)
    ensures next == k + |Additions(session, dialect, wanted)|
    ensures installed == InCRI(dialect, wanted)
  {
    hide Additions, InCRI, Amid, Named;
    assert wanted[0..] == wanted;
    installed, next := [], k;
    var i := 0;
    while i < |wanted|
      invariant i <= |wanted|
      invariant next + |Additions(session, dialect, wanted[i..])| == k + |Additions(session, dialect, wanted)|
      invariant Amid(cache.rules, Additions(session, dialect, wanted[i..]), others, next)
             == Amid(old(cache.rules), Additions(session, dialect, wanted), others, k)
      invariant installed + InCRI(dialect, wanted[i..]) == InCRI(dialect, wanted)
    {
      AdditionStep(session, dialect, wanted, i);
      ghost var rest := Additions(session, dialect, wanted[i + 1..]);
      Associates(installed, if SpeaksGx(dialect) && !wanted[i].isActive then [wanted[i].name] else [],
                 InCRI(dialect, wanted[i + 1..]));
      assert installed + [] == installed && [] + rest == rest;
      if !wanted[i].isActive {
        AmidConcat(cache.rules, Named(session, wanted[i].name, Add(session, wanted[i].name)), rest, others, next);
        match dialect
        case HuaweiUgw | Procera | Ericsson =>
          installed := installed + [wanted[i].name];
          next := AddRule(cache, session, wanted[i].name, others, next);
        case CiscoSce =>
          next := AddRule(cache, session, wanted[i].name, others, next);
        case _ =>
      }
      i := i + 1;
    }
    assert wanted[i..] == [] && installed + [] == installed;
    NothingErased(session, dialect, cache.rules, others, next);
  }

  // ----- One session

  datatype Message = Rar(session: string, removed: seq<string>, installed: seq<string>) | Release(session: string)

  /** What one session's refresh, amid others, does to the cache; a session without wanted rules is
      released and not looked up. */
  function Pass(m: Cache, session: string, dialect: Dialect, wanted: seq<Rule>, others: Others): Cache {
    if wanted == [] then m
    else
      var read := Replay(m, others(0));
      Amid(read, Repairs(session, dialect, wanted, RulesOf(read, session)), others, 1)
  }

  /** What it sends, given the rules it reads. */
  function Sent(names: seq<string>, session: string, dialect: Dialect, wanted: seq<Rule>): seq<Message> {
    var active := Loaded(names);
    if wanted == [] then [Release(session)]
    else if NoChanges(wanted, active) then []
    else [Rar(session, InCRR(dialect, MarkedActive(wanted, active)), InCRI(dialect, MarkedWanted(wanted, active)))]
  }

  method RefreshSession(cache: SessionRuleCache, session: string, dialect: Dialect, list: seq<Rule>, others: Others)
    returns (sent: seq<Message>)
    requires list != []
    modifies cache
    ensures cache.rules == Pass(old(cache.rules), session, dialect, list, others)
    ensures sent == Sent(RulesOf(Replay(old(cache.rules), others(0)), session), session, dialect, list)
  {
    hide MarkedWanted, MarkedActive, Erasures, Additions, InCRR, InCRI, Loaded, Replay, Amid;
    sent := [];
    var wanted := new Rule[|list|](i requires 0 <= i < |list| => list[i]);
    Meanwhile(cache, others(0));
    ghost var read := cache.rules;
    var _, loaded := cache.Get(session, []);
    assert [] + Loaded(RulesOf(read, session)) == Loaded(RulesOf(read, session));
    var active := new Rule[|loaded|](i requires 0 <= i < |loaded| => loaded[i]);
    assert wanted[..] == list && active[..] == loaded;
    SelectNotRelevantActive(wanted, active);
    var changes := IsAnyChanges(active[..], wanted[..]);
    if changes != 0 {
      var removed, next := MakeCRR(cache, session, dialect, active[..], others, 1);
      AmidConcat(read, Erasures(session, dialect, active[..]), Additions(session, dialect, wanted[..]), others, 1);
      var installed;
      installed, next := MakeCRI(cache, session, dialect, wanted[..], others, next);
      sent := [Rar(session, removed, installed)];
    } else {
      NothingErased(session, dialect, read, others, 1);
    }
  }

  // ----- Who has the last word

  /** A change, and whether it is the refresh's own. */
  datatype Mark = Mark(e: Change, own: bool)

  function Foreign(changes: seq<Change>): seq<Mark> {
    seq(|changes|, i requires 0 <= i < |changes| => Mark(changes[i], false))
  }

  function Plain(trail: seq<Mark>): seq<Change> {
    seq(|trail|, i requires 0 <= i < |trail| => trail[i].e)
  }

  /** Everything that happens to the cache between the read and the last change of one's own. */
  function Trail(own: seq<Change>, others: Others, k: nat): seq<Mark>
    decreases |own|
  {
    if own == [] then [] else Foreign(others(k)) + [Mark(own[0], true)] + Trail(own[1..], others, k + 1)
  }

  lemma {:induction false} ReplayConcat(m: Cache, a: seq<Change>, b: seq<Change>)
    ensures Replay(m, a + b) == Replay(Replay(m, a), b)
    decreases |a|
  {
    hide Changed;
    if a == [] {
      assert a + b == b;
    } else {
      assert (a + b)[1..] == a[1..] + b;
      ReplayConcat(Changed(m, a[0]), a[1..], b);
    }
  }

  lemma {:induction false} AmidIsReplay(m: Cache, own: seq<Change>, others: Others, k: nat)
    ensures Amid(m, own, others, k) == Replay(m, Plain(Trail(own, others, k)))
    decreases |own|
  {
    hide Changed;
    if own == [] {
    } else {
      var rest := Trail(own[1..], others, k + 1);
      AmidIsReplay(Changed(Replay(m, others(k)), own[0]), own[1..], others, k + 1);
      assert Plain(Trail(own, others, k)) == others(k) + ([own[0]] + Plain(rest));
      ReplayConcat(m, others(k), [own[0]] + Plain(rest));
      assert ([own[0]] + Plain(rest))[1..] == Plain(rest);
    }
  }

  predicate Touches(e: Change, session: string, name: string) {
    e.session == session && (e.Forget? || e.name == name)
  }

  /** The last change to what the cache says about one rule of one session. */
  function LastWord(trail: seq<Mark>, session: string, name: string): Option<Mark> {
    if trail == [] then None
    else if Touches(trail[|trail| - 1].e, session, name) then Some(trail[|trail| - 1])
    else LastWord(trail[..|trail| - 1], session, name)
  }

  lemma ChangeDecides(m: Cache, e: Change, session: string, name: string)
    ensures name in RulesOf(Changed(m, e), session) <==>
            if Touches(e, session, name) then e.Add? else name in RulesOf(m, session)
  {
    match e
    case Add(_, _) =>
    case Erase(s, n) => WithoutMembers(RulesOf(m, s), n);
    case Forget(_) =>
  }

  lemma {:induction false} LastWordDecides(m: Cache, trail: seq<Mark>, session: string, name: string)
    ensures name in RulesOf(Replay(m, Plain(trail)), session) <==>
            match LastWord(trail, session, name)
            case None => name in RulesOf(m, session)
            case Some(x) => x.e.Add?
  {
    if trail == [] {
    } else {
      var n := |trail| - 1;
      LastWordDecides(m, trail[..n], session, name);
      assert Plain(trail) == Plain(trail[..n]) + [trail[n].e];
      ReplayConcat(m, Plain(trail[..n]), [trail[n].e]);
      OneChange(Replay(m, Plain(trail[..n])), trail[n].e);
      ChangeDecides(Replay(m, Plain(trail[..n])), trail[n].e, session, name);
      hide Replay, Changed, Plain;
    }
  }

  lemma OneChange(m: Cache, e: Change)
    ensures Replay(m, [e]) == Changed(m, e)
  {
    assert [e][1..] == [];
  }

  lemma {:induction false} LastWordIs(trail: seq<Mark>, session: string, name: string)
    ensures match LastWord(trail, session, name)
            case None => forall x | x in trail :: !Touches(x.e, session, name)
            case Some(x) => x in trail && Touches(x.e, session, name)
  {
    if trail == [] {
    } else {
      var n := |trail| - 1;
      LastWordIs(trail[..n], session, name);
      assert trail == trail[..n] + [trail[n]];
    }
  }

  lemma {:induction false} OwnMarks(own: seq<Change>, others: Others, k: nat)
    ensures forall e :: Mark(e, true) in Trail(own, others, k) <==> e in own
    decreases |own|
  {
    if own == [] {
    } else {
      OwnMarks(own[1..], others, k + 1);
      assert own == [own[0]] + own[1..];
      assert forall x | x in Foreign(others(k)) :: !x.own;
    }
  }

  lemma {:induction false} ForeignMarks(own: seq<Change>, others: Others, k: nat, e: Change)
    requires Mark(e, false) in Trail(own, others, k)
    ensures exists j :: k <= j < k + |own| && e in others(j)
    decreases |own|
  {
    if own == [] {
    } else if Mark(e, false) in Foreign(others(k)) {
      assert e in others(k);
    } else {
      ForeignMarks(own[1..], others, k + 1, e);
    }
  }

  // ----- When a refresh converges

  /** The trail of a refresh from its read on. */
  function PassTrail(m: Cache, session: string, dialect: Dialect, wanted: seq<Rule>, others: Others): seq<Mark> {
    Trail(Repairs(session, dialect, wanted, RulesOf(Replay(m, others(0)), session)), others, 1)
  }

  /** Nobody else has had the last word against the wanted list; and a blank name, which the refresh
      leaves alone, was not there to begin with. */
  ghost predicate Settled(x: Option<Mark>, name: string, read: seq<string>, wanted: seq<Rule>) {
    match x
    case None => name != "" || "" !in read
    case Some(Mark(e, own)) => own || (e.Add? <==> name in Names(wanted) - {""})
  }

  /** A rule's presence after the refresh is right if and only if the rule is settled. */
  lemma NameIsRightIff(m: Cache, session: string, dialect: Dialect, wanted: seq<Rule>, others: Others, name: string)
    requires session != "" && dialect in {HuaweiUgw, Ericsson, Procera, CiscoSce} && Fresh(wanted) && wanted != []
    ensures var read := RulesOf(Replay(m, others(0)), session);
            (name in RulesOf(Pass(m, session, dialect, wanted, others), session) <==> name in Names(wanted) - {""}) <==>
            Settled(LastWord(PassTrail(m, session, dialect, wanted, others), session, name), name, read, wanted)
  {
    var read := Replay(m, others(0));
    var names := RulesOf(read, session);
    var own := Repairs(session, dialect, wanted, names);
    var trail := Trail(own, others, 1);
    AmidIsReplay(read, own, others, 1);
    LastWordDecides(read, trail, session, name);
    LastWordIs(trail, session, name);
    OwnMarks(own, others, 1);
    RepairMembers(session, dialect, wanted, names);
    hide Replay, Amid, Trail, LastWord, Repairs, Plain;
    assert Mark(Erase(session, name), true) in trail <==> Erase(session, name) in own;
    assert Mark(Add(session, name), true) in trail <==> Add(session, name) in own;
    assert Touches(Mark(Erase(session, name), true).e, session, name) && Touches(Mark(Add(session, name), true).e, session, name);
    assert name in names <==> name in NameSet(names);
  }

  /** One refresh, amid any changes of others, makes the cached names the wanted ones if and only if
      every name is settled: whoever changed it last after the read was the refresh itself or agreed
      with the wanted list. */
  lemma PassConvergesIff(m: Cache, session: string, dialect: Dialect, wanted: seq<Rule>, others: Others)
    requires session != "" && dialect in {HuaweiUgw, Ericsson, Procera, CiscoSce} && Fresh(wanted) && wanted != []
    ensures var read := RulesOf(Replay(m, others(0)), session);
            var trail := PassTrail(m, session, dialect, wanted, others);
            NameSet(RulesOf(Pass(m, session, dialect, wanted, others), session)) == Names(wanted) - {""} <==>
            forall name :: Settled(LastWord(trail, session, name), name, read, wanted)
  {
    hide Pass, PassTrail, Replay, Settled;
    var after, goal := RulesOf(Pass(m, session, dialect, wanted, others), session), Names(wanted) - {""};
    var read, trail := RulesOf(Replay(m, others(0)), session), PassTrail(m, session, dialect, wanted, others);
    if NameSet(after) == goal {
      forall name ensures Settled(LastWord(trail, session, name), name, read, wanted) {
        NameIsRightIff(m, session, dialect, wanted, others, name);
        assert name in after <==> name in NameSet(after);
      }
    } else {
      var name :| !(name in after <==> name in goal);
      NameIsRightIff(m, session, dialect, wanted, others, name);
      assert !Settled(LastWord(trail, session, name), name, read, wanted);
    }
  }

  /** No change of others is about the session. */
  ghost predicate Spares(others: Others, session: string, from: nat) {
    forall k, e | k >= from && e in others(k) :: e.session != session
  }

  /** A refresh whose session nobody else touches after the read converges, whatever others do before
      the read and to other sessions. */
  lemma UndisturbedPassConverges(m: Cache, session: string, dialect: Dialect, wanted: seq<Rule>, others: Others)
    requires session != "" && dialect in {HuaweiUgw, Ericsson, Procera, CiscoSce} && Fresh(wanted) && wanted != []
    requires "" !in RulesOf(Replay(m, others(0)), session) && Spares(others, session, 1)
    ensures NameSet(RulesOf(Pass(m, session, dialect, wanted, others), session)) == Names(wanted) - {""}
  {
    var trail := PassTrail(m, session, dialect, wanted, others);
    PassConvergesIff(m, session, dialect, wanted, others);
    forall name ensures Settled(LastWord(trail, session, name), name, RulesOf(Replay(m, others(0)), session), wanted) {
      LastWordIs(trail, session, name);
      var x := LastWord(trail, session, name);
      if x.Some? && !x.value.own {
        assert x.value == Mark(x.value.e, false);
        ForeignMarks(Repairs(session, dialect, wanted, RulesOf(Replay(m, others(0)), session)), others, 1, x.value.e);
      }
    }
    hide Pass, PassTrail, Replay, LastWord;
  }

  /** A refresh makes all its erasures before its first addition. */
  lemma ErasesFirst(session: string, dialect: Dialect, wanted: seq<Rule>, names: seq<string>)
    ensures var repairs := Repairs(session, dialect, wanted, names);
            forall i, j | 0 <= i < j < |repairs| && repairs[j].Erase? :: repairs[i].Erase?
  {
    var repairs := Repairs(session, dialect, wanted, names);
    var erasures := Erasures(session, dialect, MarkedActive(wanted, Loaded(names)));
    var additions := Additions(session, dialect, MarkedWanted(wanted, Loaded(names)));
    ErasureMembers(session, dialect, MarkedActive(wanted, Loaded(names)));
    AdditionMembers(session, dialect, MarkedWanted(wanted, Loaded(names)));
    hide Erasures, Additions, MarkedActive, MarkedWanted, Loaded, NoChanges;
    forall k | 0 <= k < |repairs| ensures repairs[k].Erase? <==> k < |erasures| {
      if k < |erasures| {
        assert erasures[k] in erasures;
      } else {
        assert additions[k - |erasures|] in additions;
      }
    }
  }

  // ----- Other sessions

  ghost predicate SameAt(m: Cache, m': Cache, t: string) {
    (t in m <==> t in m') && (t in m ==> m[t] == m'[t])
  }

  /** All changes of others from section `k` on, over `n` sections. */
  function Gathered(others: Others, k: nat, n: nat): seq<Change>
    decreases n
  {
    if n == 0 then [] else others(k) + Gathered(others, k + 1, n - 1)
  }

  lemma {:induction false} ReplayAt(m: Cache, m': Cache, changes: seq<Change>, t: string)
    requires SameAt(m, m', t)
    ensures SameAt(Replay(m, changes), Replay(m', changes), t)
    decreases |changes|
  {
    if changes == [] {
    } else {
      ReplayAt(Changed(m, changes[0]), Changed(m', changes[0]), changes[1..], t);
    }
  }

  lemma {:induction false} AmidElsewhere(m: Cache, m': Cache, own: seq<Change>, others: Others, k: nat, t: string)
    requires SameAt(m, m', t) && forall e | e in own :: e.session != t
    ensures SameAt(Amid(m, own, others, k), Replay(m', Gathered(others, k, |own|)), t)
    decreases |own|
  {
    if own == [] {
    } else {
      var read, read' := Replay(m, others(k)), Replay(m', others(k));
      ReplayAt(m, m', others(k), t);
      assert own[0] in own && SameAt(Changed(read, own[0]), read', t);
      AmidElsewhere(Changed(read, own[0]), read', own[1..], others, k + 1, t);
      ReplayConcat(m', others(k), Gathered(others, k + 1, |own| - 1));
    }
  }

  /** A refresh leaves any other session as if only the others had been at work. */
  lemma PassLeavesOthers(m: Cache, session: string, dialect: Dialect, wanted: seq<Rule>, others: Others, t: string)
    requires t != session && wanted != []
    ensures var n := 1 + |Repairs(session, dialect, wanted, RulesOf(Replay(m, others(0)), session))|;
            SameAt(Pass(m, session, dialect, wanted, others), Replay(m, Gathered(others, 0, n)), t)
  {
    var read := Replay(m, others(0));
    var own := Repairs(session, dialect, wanted, RulesOf(read, session));
    RepairsAreOwn(session, dialect, wanted, RulesOf(read, session));
    AmidElsewhere(read, read, own, others, 1, t);
    ReplayConcat(m, others(0), Gathered(others, 1, |own|));
    assert Gathered(others, 0, |own| + 1) == others(0) + Gathered(others, 1, |own|);
  }

  lemma RepairsAreOwn(session: string, dialect: Dialect, wanted: seq<Rule>, names: seq<string>)
    ensures forall e | e in Repairs(session, dialect, wanted, names) :: e.session == session
  {
    ErasureMembers(session, dialect, MarkedActive(wanted, Loaded(names)));
    AdditionMembers(session, dialect, MarkedWanted(wanted, Loaded(names)));
    hide Erasures, Additions, MarkedActive, MarkedWanted, Loaded;
  }

  lemma {:induction false} SparedReplay(m: Cache, changes: seq<Change>, t: string)
    requires forall e | e in changes :: e.session != t
    ensures SameAt(Replay(m, changes), m, t)
    decreases |changes|
  {
    if changes == [] {
    } else {
      assert changes[0] in changes && SameAt(Changed(m, changes[0]), m, t);
      SparedReplay(Changed(m, changes[0]), changes[1..], t);
    }
  }

  lemma {:induction false} SparedAmid(m: Cache, own: seq<Change>, others: Others, k: nat, t: string)
    requires (forall e | e in own :: e.session != t) && Spares(others, t, k)
    ensures SameAt(Amid(m, own, others, k), m, t)
    decreases |own|
  {
    if own == [] {
    } else {
      SparedReplay(m, others(k), t);
      var next := Changed(Replay(m, others(k)), own[0]);
      assert own[0] in own && SameAt(next, m, t);
      SparedAmid(next, own[1..], others, k + 1, t);
    }
  }

  /** A session that neither the refresh nor anybody else is about keeps its rules. */
  lemma PassSpares(m: Cache, session: string, dialect: Dialect, wanted: seq<Rule>, others: Others, t: string)
    requires t != session && Spares(others, t, 0)
    ensures SameAt(Pass(m, session, dialect, wanted, others), m, t)
  {
    if wanted != [] {
      var read := Replay(m, others(0));
      RepairsAreOwn(session, dialect, wanted, RulesOf(read, session));
      SparedReplay(m, others(0), t);
      SparedAmid(read, Repairs(session, dialect, wanted, RulesOf(read, session)), others, 1, t);
    }
  }

  /** A session of any other dialect is left to the others, too. */
  lemma OtherDialectsAreLeft(m: Cache, session: string, dialect: Dialect, wanted: seq<Rule>, others: Others)
    requires dialect !in {HuaweiUgw, Ericsson, Procera, CiscoSce} && wanted != []
    ensures Pass(m, session, dialect, wanted, others) == Replay(m, others(0))
  {
    var active := Loaded(RulesOf(Replay(m, others(0)), session));
    NothingRepaired(session, dialect, MarkedActive(wanted, active));
    NothingRepaired(session, dialect, MarkedWanted(wanted, active));
    hide Erasures, Additions, MarkedActive, MarkedWanted, Loaded, Replay;
  }

  lemma {:induction false} NothingRepaired(session: string, dialect: Dialect, rules: seq<Rule>)
    requires dialect !in {HuaweiUgw, Ericsson, Procera, CiscoSce}
    ensures Erasures(session, dialect, rules) == [] && Additions(session, dialect, rules) == []
  {
    if rules == [] {
    } else {
      NothingRepaired(session, dialect, rules[1..]);
    }
  }

  // ----- A second refresh, and the peer

  /** The next refresh from the same list sends nothing and changes nothing, if and only if the rules it
      reads have exactly the wanted names. */
  lemma NothingToDoIff(m: Cache, session: string, dialect: Dialect, wanted: seq<Rule>, others: Others)
    requires Fresh(wanted) && wanted != []
    ensures var read := Replay(m, others(0));
            && (Sent(RulesOf(read, session), session, dialect, wanted) == [] <==> NameSet(RulesOf(read, session)) == Names(wanted))
            && (Sent(RulesOf(read, session), session, dialect, wanted) == [] ==> Pass(m, session, dialect, wanted, others) == read)
  {
    NoChangesIffSameNames(wanted, RulesOf(Replay(m, others(0)), session));
    hide NoChanges, Loaded, MarkedActive, MarkedWanted, Replay;
  }

  /** What goes out: a release without wanted rules, nothing if the names agree already, and otherwise
      one request that names what is to go and what is to come if the peer speaks Gx, and nothing if it
      does not. */
  lemma WhatIsSent(names: seq<string>, session: string, dialect: Dialect, wanted: seq<Rule>)
    requires Fresh(wanted)
    ensures var sent := Sent(names, session, dialect, wanted);
            if wanted == [] then sent == [Release(session)]
            else if NameSet(names) == Names(wanted) then sent == []
            else
              && |sent| == 1 && sent[0].Rar? && sent[0].session == session
              && if dialect in {HuaweiUgw, Ericsson, Procera} then
                   && NameSet(sent[0].removed) == NameSet(names) - Names(wanted)
                   && NameSet(sent[0].installed) == Names(wanted) - NameSet(names)
                 else sent[0].removed == [] && sent[0].installed == []
  {
    MarksSelect(wanted, names);
    NoChangesIffSameNames(wanted, names);
    hide MarkedActive, MarkedWanted, Loaded, NoChanges, Irrelevant, Inactive;
  }

  /** The peer applies the message: what it removes goes, what it installs comes. */
  function Applied(installed: set<string>, msg: Message): set<string> {
    match msg
    case Rar(_, gone, added) => (installed - NameSet(gone)) + NameSet(added)
    case Release(_) => {}
  }

  function AppliedAll(installed: set<string>, msgs: seq<Message>): set<string>
    decreases |msgs|
  {
    if msgs == [] then installed else AppliedAll(Applied(installed, msgs[0]), msgs[1..])
  }

  /** A peer that had the rules read has, after applying what the refresh sent, the wanted ones; so the
      cache agrees with it if and only if the refresh converges. */
  lemma PeerHasTheWanted(names: seq<string>, session: string, dialect: Dialect, wanted: seq<Rule>)
    requires dialect in {HuaweiUgw, Ericsson, Procera} && Fresh(wanted) && wanted != []
    ensures AppliedAll(NameSet(names), Sent(names, session, dialect, wanted)) == Names(wanted)
  {
    MarksSelect(wanted, names);
    NoChangesIffSameNames(wanted, names);
    var msgs := Sent(names, session, dialect, wanted);
    if msgs != [] {
      assert msgs == [msgs[0]] && msgs[1..] == [];
      assert AppliedAll(NameSet(names), msgs) == AppliedAll(Applied(NameSet(names), msgs[0]), []);
    }
    hide MarkedActive, MarkedWanted, Loaded, NoChanges;
  }

  /** So the cache agrees with a peer that had the rules read if and only if every name is settled. */
  lemma PeerMirrorsCacheIff(m: Cache, session: string, dialect: Dialect, wanted: seq<Rule>, others: Others)
    requires session != "" && dialect in {HuaweiUgw, Ericsson, Procera} && Fresh(wanted) && wanted != [] && "" !in Names(wanted)
    ensures var read := RulesOf(Replay(m, others(0)), session);
            var trail := PassTrail(m, session, dialect, wanted, others);
            AppliedAll(NameSet(read), Sent(read, session, dialect, wanted))
              == NameSet(RulesOf(Pass(m, session, dialect, wanted, others), session))
            <==> forall name :: Settled(LastWord(trail, session, name), name, read, wanted)
  {
    PeerHasTheWanted(RulesOf(Replay(m, others(0)), session), session, dialect, wanted);
    PassConvergesIff(m, session, dialect, wanted, others);
    assert Names(wanted) - {""} == Names(wanted);
    hide Pass, PassTrail, Replay, Settled, AppliedAll, Sent, LastWord;
  }

  // ----- From the list text to the cache

  /** The names in a subscriber's list text. */
  function NamesIn(text: string): seq<string> {
    RuleList.RowsResult(RuleList.Lines(text)).names
  }

  lemma TextIsNamed(text: string, dialect: Dialect, c: Catalogue, list: seq<Rule>)
    requires CatalogueOk(c) && LoadedFor(list, NamesIn(text), dialect, c)
    ensures Fresh(list) && Names(list) - {""} == Names(list)
    ensures !dialect.CiscoSce? ==> Names(list) == NameSet(NamesIn(text)) * c.Keys
  {
    RuleList.NamesAreNotEmpty(RuleList.Lines(text));
    LoadedIsFresh(list, NamesIn(text), dialect, c);
    assert "" !in NameSet(NamesIn(text));
  }

  /** From the text on: for any list text and catalogue that give the session rules, a refresh whose
      session nobody else touches after its read makes the cached names exactly the loaded ones; the
      next refresh from the same list, if nobody touches the session before it reads, changes and sends
      nothing. */
  lemma RefreshFromText(m: Cache, session: string, dialect: Dialect, text: string, c: Catalogue, list: seq<Rule>,
                        others: Others, later: Others)
    requires session != "" && dialect in {HuaweiUgw, Ericsson, Procera, CiscoSce} && "" !in RulesOf(Replay(m, others(0)), session)
    requires CatalogueOk(c) && LoadedFor(list, NamesIn(text), dialect, c) && list != []
    requires Spares(others, session, 1) && Spares(later, session, 0)
    ensures var m' := Pass(m, session, dialect, list, others);
            && NameSet(RulesOf(m', session)) == Names(list)
            && (!dialect.CiscoSce? ==> Names(list) == NameSet(NamesIn(text)) * c.Keys)
            && Pass(m', session, dialect, list, later) == Replay(m', later(0))
            && Sent(RulesOf(Replay(m', later(0)), session), session, dialect, list) == []
  {
    TextIsNamed(text, dialect, c, list);
    UndisturbedPassConverges(m, session, dialect, list, others);
    var m' := Pass(m, session, dialect, list, others);
    SparedReplay(m', later(0), session);
    NothingToDoIff(m', session, dialect, list, later);
    hide Pass, Sent, Replay, LoadedFor, NamesIn;
  }

  // ----- One record of the refresh queue: all sessions of a subscriber

  const ENOTCONN := 107

  /** What the refresh finds out about a session: whether the cache and the peer list know it,
      whether its peer is connected, and the rules its subscriber should have. */
  datatype Facts = Facts(cached: bool, peerKnown: bool, connected: bool, dialect: Dialect, wanted: seq<Rule>)

  predicate Skipped(f: Facts) {
    !f.cached || !f.peerKnown
  }

  predicate Stops(f: Facts) {
    !Skipped(f) && !f.connected
  }

  /** The sessions dealt with: all of them, up to the first whose peer is not connected. */
  function Reached(sessions: seq<string>, facts: string -> Facts): seq<string> {
    if sessions == [] || Stops(facts(sessions[0])) then []
    else [sessions[0]] + Reached(sessions[1..], facts)
  }

  predicate Refreshes(f: Facts, abort: bool) {
    !Skipped(f) && f.connected && !abort
  }

  function VisitCache(m: Cache, session: string, f: Facts, abort: bool, others: Others): Cache {
    if Refreshes(f, abort) then Pass(m, session, f.dialect, f.wanted, others) else m
  }

  function VisitSent(m: Cache, session: string, f: Facts, abort: bool, others: Others): seq<Message> {
    if Skipped(f) || !f.connected then []
    else if abort then [Release(session)]
    else Sent(RulesOf(Replay(m, others(0)), session), session, f.dialect, f.wanted)
  }

  /** `others(j)` is at work during visit number `j`. */
  function RecordCache(m: Cache, sessions: seq<string>, facts: string -> Facts, abort: bool, others: nat -> Others, j: nat): Cache
    decreases |sessions|
  {
    if sessions == [] then m
    else RecordCache(VisitCache(m, sessions[0], facts(sessions[0]), abort, others(j)), sessions[1..], facts, abort, others, j + 1)
  }

  function RecordSent(m: Cache, sessions: seq<string>, facts: string -> Facts, abort: bool, others: nat -> Others, j: nat): seq<Message>
    decreases |sessions|
  {
    if sessions == [] then []
    else VisitSent(m, sessions[0], facts(sessions[0]), abort, others(j))
         + RecordSent(VisitCache(m, sessions[0], facts(sessions[0]), abort, others(j)), sessions[1..], facts, abort, others, j + 1)
  }

  method VisitSession(cache: SessionRuleCache, session: string, f: Facts, abort: bool, others: Others)
    returns (code: int, sent: seq<Message>)
    modifies cache
    ensures code == if Stops(f) then ENOTCONN else 0
    ensures cache.rules == VisitCache(old(cache.rules), session, f, abort, others)
    ensures sent == VisitSent(old(cache.rules), session, f, abort, others)
  {
    code, sent := 0, [];
    if !f.cached || !f.peerKnown {
      return;
    }
    if !f.connected {
      code := ENOTCONN;
      return;
    }
    if abort || |f.wanted| == 0 {
      sent := [Release(session)];
      return;
    }
    sent := RefreshSession(cache, session, f.dialect, f.wanted, others);
  }

  method OperateRecord(cache: SessionRuleCache, sessions: seq<string>, facts: string -> Facts, abort: bool, others: nat -> Others)
    returns (code: int, sent: seq<Message>)
    modifies cache
    ensures code == if Reached(sessions, facts) == sessions then 0 else ENOTCONN
    ensures cache.rules == RecordCache(old(cache.rules), Reached(sessions, facts), facts, abort, others, 0)
    ensures sent == RecordSent(old(cache.rules), Reached(sessions, facts), facts, abort, others, 0)
  {
    hide VisitCache, VisitSent, RecordCache, RecordSent, Reached;
    code, sent := 0, [];
    assert sessions[0..] == sessions;
    var i := 0;
    while i < |sessions| && code == 0
      invariant i <= |sessions|
      invariant if code == 0 then forall k | 0 <= k < i :: !Stops(facts(sessions[k]))
                else code == ENOTCONN && i < |sessions| && Stops(facts(sessions[i]))
      invariant RecordCache(cache.rules, Reached(sessions[i..], facts), facts, abort, others, i)
             == RecordCache(old(cache.rules), Reached(sessions, facts), facts, abort, others, 0)
      invariant sent + RecordSent(cache.rules, Reached(sessions[i..], facts), facts, abort, others, i)
             == RecordSent(old(cache.rules), Reached(sessions, facts), facts, abort, others, 0)
      decreases |sessions| - i, code == 0
    {
      RecordStep(cache.rules, sessions, i, facts, abort, others);
      var answers;
      code, answers := VisitSession(cache, sessions[i], facts(sessions[i]), abort, others(i));
      if code == 0 {
        Associates(sent, answers, RecordSent(cache.rules, Reached(sessions[i + 1..], facts), facts, abort, others, i + 1));
        sent := sent + answers;
        i := i + 1;
      }
    }
    RecordEnd(cache.rules, sessions[i..], facts, abort, others, i);
    ReachedAll(sessions, facts);
    assert sent + [] == sent;
  }

  /** A record is worked off up to the first session that the cache and the peer list know but whose
      peer is not connected. */
  lemma {:induction false} ReachedAll(sessions: seq<string>, facts: string -> Facts)
    ensures var n := |Reached(sessions, facts)|;
            && n <= |sessions| && Reached(sessions, facts) == sessions[..n]
            && (forall k | 0 <= k < n :: !facts(sessions[k]).cached || !facts(sessions[k]).peerKnown || facts(sessions[k]).connected)
            && (n < |sessions| ==> facts(sessions[n]).cached && facts(sessions[n]).peerKnown && !facts(sessions[n]).connected)
  {
    if sessions == [] || Stops(facts(sessions[0])) {
    } else {
      ReachedAll(sessions[1..], facts);
      assert sessions == [sessions[0]] + sessions[1..];
    }
  }

  lemma RecordStep(m: Cache, sessions: seq<string>, i: nat, facts: string -> Facts, abort: bool, others: nat -> Others)
    requires i < |sessions|
    ensures var s := sessions[i]; var f := facts(s); var rest := Reached(sessions[i + 1..], facts);
            if Stops(f) then VisitCache(m, s, f, abort, others(i)) == m && Reached(sessions[i..], facts) == []
            else
              && Reached(sessions[i..], facts) == [s] + rest
              && RecordCache(m, Reached(sessions[i..], facts), facts, abort, others, i) ==
                 RecordCache(VisitCache(m, s, f, abort, others(i)), rest, facts, abort, others, i + 1)
              && RecordSent(m, Reached(sessions[i..], facts), facts, abort, others, i) ==
                 VisitSent(m, s, f, abort, others(i))
                 + RecordSent(VisitCache(m, s, f, abort, others(i)), rest, facts, abort, others, i + 1)
  {
    assert sessions[i..][1..] == sessions[i + 1..];
    var rest := Reached(sessions[i + 1..], facts);
    assert ([sessions[i]] + rest)[1..] == rest;
  }

  lemma RecordEnd(m: Cache, sessions: seq<string>, facts: string -> Facts, abort: bool, others: nat -> Others, j: nat)
    requires sessions == [] || Stops(facts(sessions[0]))
    ensures Reached(sessions, facts) == []
    ensures RecordCache(m, [], facts, abort, others, j) == m && RecordSent(m, [], facts, abort, others, j) == []
  {
  }

  /** What one visit does, by the facts found. */
  lemma WhatAVisitDoes(m: Cache, session: string, f: Facts, abort: bool, others: Others)
    ensures var m', sent := VisitCache(m, session, f, abort, others), VisitSent(m, session, f, abort, others);
            if !f.cached || !f.peerKnown || !f.connected then m' == m && sent == []
            else if abort || f.wanted == [] then m' == m && sent == [Release(session)]
            else
              && m' == Pass(m, session, f.dialect, f.wanted, others)
              && sent == Sent(RulesOf(Replay(m, others(0)), session), session, f.dialect, f.wanted)
  {
    hide Replay, Repairs, InCRR, InCRI, NoChanges;
  }

  /** A record releases exactly the sessions known, connected, and either to be aborted or without
      wanted rules; all else it sends are requests for sessions that are neither. */
  lemma {:induction false} WhoIsReleased(m: Cache, sessions: seq<string>, facts: string -> Facts, abort: bool,
                                         others: nat -> Others, j: nat)
    ensures forall msg | msg in RecordSent(m, sessions, facts, abort, others, j) ::
              var f := facts(msg.session);
              && msg.session in sessions && f.cached && f.peerKnown && f.connected
              && (msg.Release? <==> abort || f.wanted == [])
    ensures forall t | t in sessions && facts(t).cached && facts(t).peerKnown && facts(t).connected && (abort || facts(t).wanted == []) ::
              Release(t) in RecordSent(m, sessions, facts, abort, others, j)
    decreases |sessions|
  {
    if sessions == [] {
    } else {
      var s := sessions[0];
      WhatAVisitDoes(m, s, facts(s), abort, others(j));
      OneMessage(m, s, facts(s), others(j));
      WhoIsReleased(VisitCache(m, s, facts(s), abort, others(j)), sessions[1..], facts, abort, others, j + 1);
      assert sessions == [s] + sessions[1..];
      hide VisitCache, VisitSent, Pass, Sent, Replay;
    }
  }

  lemma OneMessage(m: Cache, session: string, f: Facts, others: Others)
    ensures forall msg | msg in Sent(RulesOf(Replay(m, others(0)), session), session, f.dialect, f.wanted) ::
              msg.session == session && (msg.Release? <==> f.wanted == [])
  {
  }

  /** Nobody else changes the session during the whole record. */
  ghost predicate SparesAll(others: nat -> Others, session: string) {
    forall j :: Spares(others(j), session, 0)
  }

  /** The facts under which a session is refreshed. */
  ghost predicate IsRefreshed(f: Facts, abort: bool) {
    && f.cached && f.peerKnown && f.connected && !abort
    && f.wanted != [] && f.dialect in {HuaweiUgw, Ericsson, Procera, CiscoSce}
  }

  lemma VisitAt(m: Cache, session: string, f: Facts, abort: bool, others: Others, t: string)
    requires t != "" && Fresh(f.wanted) && Spares(others, t, 0) && "" !in RulesOf(m, t)
    ensures var m' := VisitCache(m, session, f, abort, others);
            if t == session && IsRefreshed(f, abort) then
              NameSet(RulesOf(m', t)) == Names(f.wanted) - {""} && "" !in RulesOf(m', t)
            else SameAt(m', m, t)
  {
    WhatAVisitDoes(m, session, f, abort, others);
    if f.cached && f.peerKnown && f.connected && !abort && f.wanted != [] {
      if t != session {
        PassSpares(m, session, f.dialect, f.wanted, others, t);
      } else if IsRefreshed(f, abort) {
        SparedReplay(m, others(0), t);
        UndisturbedPassConverges(m, session, f.dialect, f.wanted, others);
        assert "" in RulesOf(Pass(m, session, f.dialect, f.wanted, others), t) ==>
               "" in NameSet(RulesOf(Pass(m, session, f.dialect, f.wanted, others), t));
      } else {
        SparedReplay(m, others(0), t);
        OtherDialectsAreLeft(m, session, f.dialect, f.wanted, others);
      }
      hide Pass, Replay;
    }
  }

  /** After a record has been worked off amid others, each session that nobody else touched meanwhile
      has exactly the rules it should have, if it was among those reached and could be refreshed, and
      otherwise what it had; whatever happened to the other sessions. */
  lemma {:induction false} RecordConverges(m: Cache, sessions: seq<string>, facts: string -> Facts, abort: bool,
                                           others: nat -> Others, j: nat, t: string)
    requires t != "" && "" !in RulesOf(m, t) && SparesAll(others, t)
    requires forall s :: Fresh(facts(s).wanted)
    ensures var m', f := RecordCache(m, sessions, facts, abort, others, j), facts(t);
            if t in sessions && f.cached && f.peerKnown && f.connected && !abort && f.wanted != []
               && f.dialect in {HuaweiUgw, Ericsson, Procera, CiscoSce}
            then NameSet(RulesOf(m', t)) == Names(f.wanted) - {""}
            else SameAt(m', m, t)
    decreases |sessions|
  {
    hide VisitCache, Fresh, Spares;
    if sessions == [] {
    } else {
      var s := sessions[0];
      assert sessions == [s] + sessions[1..];
      VisitAt(m, s, facts(s), abort, others(j), t);
      RecordConverges(VisitCache(m, s, facts(s), abort, others(j)), sessions[1..], facts, abort, others, j + 1, t);
    }
  }

  /** The same from the list texts on, without exception: each session that could be refreshed and that
      nobody else touched has exactly the rules loaded for its text. */
  lemma RecordFromTexts(m: Cache, sessions: seq<string>, facts: string -> Facts, abort: bool, others: nat -> Others,
                        texts: string -> string, c: Catalogue, t: string)
    requires t != "" && "" !in RulesOf(m, t) && SparesAll(others, t) && CatalogueOk(c)
    requires forall s :: LoadedFor(facts(s).wanted, NamesIn(texts(s)), facts(s).dialect, c)
    requires t in sessions && facts(t).cached && facts(t).peerKnown && facts(t).connected && !abort && facts(t).wanted != []
    requires facts(t).dialect in {HuaweiUgw, Ericsson, Procera, CiscoSce}
    ensures NameSet(RulesOf(RecordCache(m, sessions, facts, abort, others, 0), t)) == Names(facts(t).wanted)
  {
    forall s ensures Fresh(facts(s).wanted) {
      TextIsNamed(texts(s), facts(s).dialect, c, facts(s).wanted);
    }
    RecordConverges(m, sessions, facts, abort, others, 0, t);
    TextIsNamed(texts(t), facts(t).dialect, c, facts(t).wanted);
    hide RecordCache, LoadedFor;
  }

  // ----- Refreshes that go wrong

  const WANTED := [Rule("a", false, true, 0), Rule("b", false, true, 0)]

  /** A session that ends between the read and the change that adds "b" comes back with "b" alone. */
  lemma EndedSessionComesBack()
    ensures var others: Others := k => if k == 1 then [Forget("s")] else [];
            && Pass(map["s" := ["a"]], "s", HuaweiUgw, WANTED, others) == map["s" := ["b"]]
            && LastWord(PassTrail(map["s" := ["a"]], "s", HuaweiUgw, WANTED, others), "s", "a") == Some(Mark(Forget("s"), false))
  {
    var others: Others := k => if k == 1 then [Forget("s")] else [];
    var m: Cache := map["s" := ["a"]];
    OneAddition();
    assert Replay(m, others(0)) == m && RulesOf(m, "s") == ["a"];
    assert others(1) == [Forget("s")];
    hide Repairs, Replay, Amid, Trail, LastWord, Changed;
    OneAmid(m, Add("s", "b"), others, 1);
    OneChange(m, Forget("s"));
    ForgottenAndAdded();
    OneForeign(others);
  }

  lemma ForgottenAndAdded()
    ensures Changed(Changed(map["s" := ["a"]], Forget("s")), Add("s", "b")) == map["s" := ["b"]]
  {
    assert Changed(map["s" := ["a"]], Forget("s")) == map[];
    assert [] + ["b"] == ["b"];
  }

  lemma OneForeign(others: Others)
    requires others(1) == [Forget("s")]
    ensures LastWord(Trail([Add("s", "b")], others, 1), "s", "a") == Some(Mark(Forget("s"), false))
  {
    var trail := [Mark(Forget("s"), false), Mark(Add("s", "b"), true)];
    assert [Add("s", "b")][1..] == [];
    assert Foreign([Forget("s")]) == [Mark(Forget("s"), false)];
    assert Trail([Add("s", "b")], others, 1) == trail;
    assert trail[..1] == [Mark(Forget("s"), false)];
  }

  lemma OneAddition()
    ensures Repairs("s", HuaweiUgw, WANTED, ["a"]) == [Add("s", "b")]
  {
    var active := Loaded(["a"]);
    assert active == [Rule("a", true, false, 0)];
    assert active[0] in active && WANTED[0] in WANTED;
    var mw := MarkedWanted(WANTED, active);
    assert Names(active) == {"a"};
    assert mw == [Rule("a", true, true, 0), Rule("b", false, true, 0)];
    assert MarkedActive(WANTED, active) == [Rule("a", true, true, 0)];
    assert mw[1] in mw && ToInstall(mw[1]);
    assert mw[1..] == [Rule("b", false, true, 0)] && mw[1..][1..] == [];
  }

  /** A blank name that another server's command put into the cache stays there, and its session never
      converges. */
  lemma BlankNameStays(m: Cache, session: string, dialect: Dialect, wanted: seq<Rule>)
    requires session != "" && dialect in {HuaweiUgw, Ericsson, Procera, CiscoSce} && Fresh(wanted) && wanted != []
    ensures var m' := Pass(Changed(m, Add(session, "")), session, dialect, wanted, k => []);
            "" in RulesOf(m', session) && NameSet(RulesOf(m', session)) != Names(wanted) - {""}
  {
    var blank := Changed(m, Add(session, ""));
    var others: Others := k => [];
    assert RulesOf(blank, session)[|RulesOf(m, session)|] == "";
    assert Replay(blank, others(0)) == blank;
    NameIsRightIff(blank, session, dialect, wanted, others, "");
    var trail := PassTrail(blank, session, dialect, wanted, others);
    LastWordIs(trail, session, "");
    RepairMembers(session, dialect, wanted, RulesOf(blank, session));
    OwnMarks(Repairs(session, dialect, wanted, RulesOf(blank, session)), others, 1);
    forall x | x in trail ensures !Touches(x.e, session, "") {
      assert x == Mark(x.e, x.own);
      if !x.own {
        ForeignMarks(Repairs(session, dialect, wanted, RulesOf(blank, session)), others, 1, x.e);
      }
    }
    hide Pass, PassTrail, Replay, LastWord, Repairs;
  }
}
