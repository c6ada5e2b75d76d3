/** Reconciling the rules installed in a session with the rules its subscriber should have, on the
    refresh path. */
module RuleRefresh {
  import opened Common
  import opened RuleCache

  // ----- Loading the wanted rules

  type Catalogue = map<string, Rule>

  /** The rule catalogue holds each rule under its own name, wanted and not installed. */
  ghost predicate CatalogueOk(c: Catalogue) {
    forall n | n in c :: c[n].name == n && !c[n].isActive && c[n].isRelevant
  }

  function Known(names: seq<string>, c: Catalogue): seq<Rule> {
    if names == [] then []
    else (if names[0] in c then [c[names[0]]] else []) + Known(names[1..], c)
  }

  lemma {:induction false} KnownConcat(a: seq<string>, b: seq<string>, c: Catalogue)
    ensures Known(a + b, c) == Known(a, c) + Known(b, c)
  {
    if a == [] {
      assert a + b == b;
    } else {
      assert (a + b)[1..] == a[1..] + b;
      KnownConcat(a[1..], b, c);
      Associates(if a[0] in c then [c[a[0]]] else [], Known(a[1..], c), Known(b, c));
    }
  }

  lemma {:induction false} KnownRules(names: seq<string>, c: Catalogue)
    ensures forall r | r in Known(names, c) :: exists n :: n in names && n in c && c[n] == r
    ensures forall n | n in names && n in c :: c[n] in Known(names, c)
  {
    if names == [] {
    } else {
      KnownRules(names[1..], c);
      assert names == [names[0]] + names[1..];
    }
  }

  /** The first rule of the lowest precedence value. */
  ghost predicate IsBest(rules: seq<Rule>, r: Rule) {
    exists i :: 0 <= i < |rules| && rules[i] == r
             && (forall j | 0 <= j < |rules| :: r.precedence <= rules[j].precedence)
             && (forall j | 0 <= j < i :: r.precedence < rules[j].precedence)
  }

  /** What is loaded for a list of names: the known rules in order; for SCE the best one alone. */
  ghost predicate LoadedFor(list: seq<Rule>, names: seq<string>, dialect: Dialect, c: Catalogue) {
    if dialect.CiscoSce? && Known(names, c) != [] then |list| == 1 && IsBest(Known(names, c), list[0])
    else list == Known(names, c)
  }

  method LoadRuleInfo(names: seq<string>, dialect: Dialect, c: Catalogue) returns (list: seq<Rule>)
    ensures LoadedFor(list, names, dialect, c)
  {
    list := [];
    for i := 0 to |names|
      invariant list == Known(names[..i], c)
    {
      KnownConcat(names[..i], [names[i]], c);
      assert names[..i + 1] == names[..i] + [names[i]];
      if names[i] in c {
        list := list + [c[names[i]]];
      }
    }
    assert names[..|names|] == names;
    if list != [] && dialect.CiscoSce? {
      var best, next := list[0], 1;
      ghost var at := 0;
      while next < |list|
        invariant 0 <= at < next <= |list| && list[at] == best
        invariant forall j | 0 <= j < next :: best.precedence <= list[j].precedence
        invariant forall j | 0 <= j < at :: best.precedence < list[j].precedence
      {
        if best.precedence > list[next].precedence {
          best, at := list[next], next;
        }
        next := next + 1;
      }
      list := [best];
    }
  }

  /** Whatever is loaded is wanted, not installed, known, and has one of the names asked for. */
  lemma LoadedIsFresh(list: seq<Rule>, names: seq<string>, dialect: Dialect, c: Catalogue)
    requires CatalogueOk(c) && LoadedFor(list, names, dialect, c)
    ensures Fresh(list) && Names(list) <= NameSet(names) * c.Keys
    ensures list == [] <==> NameSet(names) !! c.Keys
    ensures !dialect.CiscoSce? ==> Names(list) == NameSet(names) * c.Keys
    ensures dialect.CiscoSce? ==> |list| <= 1 && forall n, r | n in names && n in c && r in list :: r.precedence <= c[n].precedence
  {
    KnownRules(names, c);
    forall r | r in list ensures r in Known(names, c) {
    }
    if Known(names, c) != [] {
      assert Known(names, c)[0] in Known(names, c);
    }
  }

  // ----- Comparing

  function MarkedWanted(wanted: seq<Rule>, active: seq<Rule>): seq<Rule> {
    seq(|wanted|, i requires 0 <= i < |wanted| =>
      if wanted[i].name in Names(active) then wanted[i].(isActive := true) else wanted[i])
  }

  function MarkedActive(wanted: seq<Rule>, active: seq<Rule>): seq<Rule> {
    seq(|active|, j requires 0 <= j < |active| =>
      if active[j].name in Names(wanted) then active[j].(isRelevant := true) else active[j])
  }

  lemma NamesGrow(rules: seq<Rule>, n: nat)
    requires n < |rules|
    ensures Names(rules[..n + 1]) == Names(rules[..n]) + {rules[n].name}
  {
    assert rules[..n + 1] == rules[..n] + [rules[n]];
  }

  /** The nested loops that mark, in place, each wanted rule found installed and each installed
      rule found wanted. */
  method SelectNotRelevantActive(wanted: array<Rule>, active: array<Rule>)
    requires wanted != active
    modifies wanted, active
    ensures wanted[..] == MarkedWanted(old(wanted[..]), old(active[..]))
    ensures active[..] == MarkedActive(old(wanted[..]), old(active[..]))
  {
    ghost var w, a := wanted[..], active[..];
    var i := 0;
    while i < wanted.Length
      invariant 0 <= i <= wanted.Length
      invariant forall k | 0 <= k < wanted.Length ::
                  wanted[k] == if k < i then MarkedWanted(w, a)[k] else w[k]
      invariant active[..] == MarkedActive(w[..i], a)
    {
      MarkOne(wanted, active, i, w, a);
      i := i + 1;
    }
    assert w[..i] == w;
  }

  /** The inner loop, for one wanted rule. */
  method MarkOne(wanted: array<Rule>, active: array<Rule>, i: nat, ghost w: seq<Rule>, ghost a: seq<Rule>)
    requires wanted != active && i < wanted.Length == |w|
    requires wanted[i] == w[i] && active[..] == MarkedActive(w[..i], a)
    modifies wanted, active
    ensures wanted[i] == MarkedWanted(w, a)[i]
    ensures forall k | 0 <= k < wanted.Length && k != i :: wanted[k] == old(wanted[k])
    ensures active[..] == MarkedActive(w[..i + 1], a)
  {
    NamesGrow(w, i);
    ghost var before := active[..];
    var j := 0;
    while j < active.Length
      invariant 0 <= j <= active.Length == |a|
      invariant forall k | 0 <= k < wanted.Length && k != i :: wanted[k] == old(wanted[k])
      invariant wanted[i] == if w[i].name in Names(a[..j]) then w[i].(isActive := true) else w[i]
      invariant forall k | j <= k < active.Length :: active[k] == before[k]
      invariant forall k | 0 <= k < j :: active[k] == MarkedActive(w[..i + 1], a)[k]
    {
      NamesGrow(a, j);
      if active[j].name == wanted[i].name {
        wanted[i] := wanted[i].(isActive := true);
        active[j] := active[j].(isRelevant := true);
      }
      j := j + 1;
    }
    assert a[..j] == a;
  }

  predicate ToRemove(r: Rule) {
    !r.isRelevant && r.isActive
  }

  predicate ToInstall(r: Rule) {
    !r.isActive && r.isRelevant
  }

  method IsAnyChanges(active: seq<Rule>, wanted: seq<Rule>) returns (changes: int)
    ensures changes == 0 || changes == 1
    ensures changes == 0 <==> (forall r | r in active :: !ToRemove(r)) && (forall r | r in wanted :: !ToInstall(r))
  {
    changes := 0;
    var i := 0;
    while i < |active| && changes == 0
      invariant 0 <= i <= |active| && (changes == 0 || changes == 1)
      invariant changes == 0 <==> forall k | 0 <= k < i :: !ToRemove(active[k])
      decreases |active| - i
    {
      if !active[i].isRelevant && active[i].isActive {
        changes := 1;
      }
      i := i + 1;
    }
    if changes != 0 {
      return;
    }
    i := 0;
    while i < |wanted| && changes == 0
      invariant 0 <= i <= |wanted| && (changes == 0 || changes == 1)
      invariant changes == 0 <==> forall k | 0 <= k < i :: !ToInstall(wanted[k])
      decreases |wanted| - i
    {
      if !wanted[i].isActive && wanted[i].isRelevant {
        changes := 1;
      }
      i := i + 1;
    }
  }

  /** Wanted rules as they come from the catalogue. */
  ghost predicate Fresh(wanted: seq<Rule>) {
    forall r | r in wanted :: !r.isActive && r.isRelevant
  }

  predicate NoChanges(wanted: seq<Rule>, active: seq<Rule>) {
    && (forall r | r in MarkedActive(wanted, active) :: !ToRemove(r))
    && (forall r | r in MarkedWanted(wanted, active) :: !ToInstall(r))
  }

  /** After the marking, "no changes" means that the two lists name the same rules, whatever their
      order and however often each name occurs. */
  lemma NoChangesIffSameNames(wanted: seq<Rule>, names: seq<string>)
    requires Fresh(wanted)
    ensures NoChanges(wanted, Loaded(names)) <==> Names(wanted) == NameSet(names)
  {
    var active := Loaded(names);
    LoadedNames(names);
    var ma, mw := MarkedActive(wanted, active), MarkedWanted(wanted, active);
    if NoChanges(wanted, active) {
      forall n | n in Names(active) ensures n in Names(wanted) {
        var j :| 0 <= j < |active| && active[j].name == n;
        assert ma[j] in ma;
      }
      forall n | n in Names(wanted) ensures n in Names(active) {
        var i :| 0 <= i < |wanted| && wanted[i].name == n;
        assert mw[i] in mw && wanted[i] in wanted;
      }
    }
  }

  lemma LoadedNames(names: seq<string>)
    ensures Names(Loaded(names)) == NameSet(names)
    ensures forall r | r in Loaded(names) :: r.isActive && !r.isRelevant
  {
    forall n | n in NameSet(names) ensures n in Names(Loaded(names)) {
      var i :| 0 <= i < |names| && names[i] == n;
      assert Loaded(names)[i] in Loaded(names);
    }
  }

  // ----- Removing and installing

  predicate SpeaksGx(d: Dialect) {
    d.HuaweiUgw? || d.Procera? || d.Ericsson?
  }

  predicate Supported(d: Dialect) {
    SpeaksGx(d) || d.CiscoSce?
  }

  function Irrelevant(rules: seq<Rule>): seq<string> {
    if rules == [] then []
    else (if rules[0].isRelevant then [] else [rules[0].name]) + Irrelevant(rules[1..])
  }

  function Inactive(rules: seq<Rule>): seq<string> {
    if rules == [] then []
    else (if rules[0].isActive then [] else [rules[0].name]) + Inactive(rules[1..])
  }

  /** The rules named in Charging-Rule-Remove. */
  function InCRR(dialect: Dialect, active: seq<Rule>): seq<string> {
    if SpeaksGx(dialect) then Irrelevant(active) else []
  }

  /** The rules named in Charging-Rule-Install. */
  function InCRI(dialect: Dialect, wanted: seq<Rule>): seq<string> {
    if SpeaksGx(dialect) then Inactive(wanted) else []
  }

  /** What making Charging-Rule-Remove does to the cache, change by change. */
  function Erasures(session: string, dialect: Dialect, active: seq<Rule>): seq<Change> {
    if active == [] then []
    else (if Supported(dialect) && !active[0].isRelevant
          then Named(session, active[0].name, Erase(session, active[0].name)) else [])
         + Erasures(session, dialect, active[1..])
  }

  /** What making Charging-Rule-Install does to it. */
  function Additions(session: string, dialect: Dialect, wanted: seq<Rule>): seq<Change> {
    if wanted == [] then []
    else (if Supported(dialect) && !wanted[0].isActive
          then Named(session, wanted[0].name, Add(session, wanted[0].name)) else [])
         + Additions(session, dialect, wanted[1..])
  }

  lemma {:induction false} ErasureMembers(session: string, dialect: Dialect, active: seq<Rule>)
    ensures forall e :: e in Erasures(session, dialect, active) <==>
              e.Erase? && e.session == session != "" && e.name != "" && Supported(dialect) && e.name in Irrelevant(active)
  {
    if active == [] {
    } else {
      ErasureMembers(session, dialect, active[1..]);
    }
  }

  lemma {:induction false} AdditionMembers(session: string, dialect: Dialect, wanted: seq<Rule>)
    ensures forall e :: e in Additions(session, dialect, wanted) <==>
              e.Add? && e.session == session != "" && e.name != "" && Supported(dialect) && e.name in Inactive(wanted)
  {
    if wanted == [] {
    } else {
      AdditionMembers(session, dialect, wanted[1..]);
    }
  }

  lemma {:induction false} IrrelevantSet(rules: seq<Rule>)
    ensures NameSet(Irrelevant(rules)) == set r | r in rules && !r.isRelevant :: r.name
  {
    if rules == [] {
    } else {
      IrrelevantSet(rules[1..]);
      assert rules == [rules[0]] + rules[1..];
      var tail := Irrelevant(rules[1..]);
      assert NameSet([rules[0].name] + tail) == {rules[0].name} + NameSet(tail);
      assert [] + tail == tail;
    }
  }

  lemma {:induction false} InactiveSet(rules: seq<Rule>)
    ensures NameSet(Inactive(rules)) == set r | r in rules && !r.isActive :: r.name
  {
    if rules == [] {
    } else {
      InactiveSet(rules[1..]);
      assert rules == [rules[0]] + rules[1..];
      var tail := Inactive(rules[1..]);
      assert NameSet([rules[0].name] + tail) == {rules[0].name} + NameSet(tail);
      assert [] + tail == tail;
    }
  }

  /** What the marks select: installed but not wanted, and wanted but not installed. */
  lemma MarksSelect(wanted: seq<Rule>, names: seq<string>)
    requires Fresh(wanted)
    ensures NameSet(Irrelevant(MarkedActive(wanted, Loaded(names)))) == NameSet(names) - Names(wanted)
    ensures NameSet(Inactive(MarkedWanted(wanted, Loaded(names)))) == Names(wanted) - NameSet(names)
  {
    var active := Loaded(names);
    var ma, mw := MarkedActive(wanted, active), MarkedWanted(wanted, active);
    LoadedNames(names);
    IrrelevantSet(ma);
    InactiveSet(mw);
    forall n | n in NameSet(names) - Names(wanted) ensures n in NameSet(Irrelevant(ma)) {
      var j :| 0 <= j < |active| && active[j].name == n;
      assert ma[j] in ma && !ma[j].isRelevant;
    }
    forall n | n in Names(wanted) - NameSet(names) ensures n in NameSet(Inactive(mw)) {
      var i :| 0 <= i < |wanted| && wanted[i].name == n;
      assert mw[i] in mw && wanted[i] in wanted && !mw[i].isActive;
    }
  }

  /** What a refresh changes in the cache once it has read the session's rules: it erases what is
      installed but not wanted, then adds what is wanted but not installed. */
  function Repairs(session: string, dialect: Dialect, wanted: seq<Rule>, names: seq<string>): seq<Change> {
    var active := Loaded(names);
    if wanted == [] || NoChanges(wanted, active) then []
    else Erasures(session, dialect, MarkedActive(wanted, active)) + Additions(session, dialect, MarkedWanted(wanted, active))
  }

  lemma RepairMembers(session: string, dialect: Dialect, wanted: seq<Rule>, names: seq<string>)
    requires session != "" && dialect in {HuaweiUgw, Ericsson, Procera, CiscoSce} && Fresh(wanted) && wanted != []
    ensures forall e :: e in Repairs(session, dialect, wanted, names) <==>
              && e.session == session && !e.Forget? && e.name != ""
              && e.name in (if e.Erase? then NameSet(names) - Names(wanted) else Names(wanted) - NameSet(names))
  {
    var active := Loaded(names);
    var ma, mw := MarkedActive(wanted, active), MarkedWanted(wanted, active);
    MarksSelect(wanted, names);
    NoChangesIffSameNames(wanted, names);
    ErasureMembers(session, dialect, ma);
    AdditionMembers(session, dialect, mw);
    hide MarkedActive, MarkedWanted, Erasures, Additions, Loaded, NoChanges, Irrelevant, Inactive;
    forall n ensures n in Irrelevant(ma) <==> n in NameSet(names) - Names(wanted) {
      assert n in Irrelevant(ma) <==> n in NameSet(Irrelevant(ma));
    }
    forall n ensures n in Inactive(mw) <==> n in Names(wanted) - NameSet(names) {
      assert n in Inactive(mw) <==> n in NameSet(Inactive(mw));
    }
  }
}
