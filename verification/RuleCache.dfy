/** The cache of the rules installed in each session. */
module RuleCache {
  import opened Common

  /** A policy rule as the reconciliation sees it. */
  datatype Rule = Rule(name: string, isActive: bool, isRelevant: bool, precedence: int)

  type Cache = map<string, seq<string>>

  function RulesOf(m: Cache, session: string): seq<string> {
    if session in m then m[session] else []
  }

  function Names(rules: seq<Rule>): set<string> {
    set r | r in rules :: r.name
  }

  function NameSet(names: seq<string>): set<string> {
    set n | n in names
  }

  /** Rules read from the cache are installed, and not yet known to be wanted. */
  function Loaded(names: seq<string>): seq<Rule> {
    seq(|names|, i requires 0 <= i < |names| => Rule(names[i], true, false, 0))
  }

  /** What is done to the cache under its lock, by this server or by a command of another one. */
  datatype Change = Add(session: string, name: string) | Erase(session: string, name: string) | Forget(session: string)

  function Changed(m: Cache, e: Change): Cache {
    match e
    case Add(s, n) => m[s := RulesOf(m, s) + [n]]
    case Erase(s, n) => if s in m then m[s := Without(m[s], n)] else m
    case Forget(s) => m - {s}
  }

  function Replay(m: Cache, changes: seq<Change>): Cache
    decreases |changes|
  {
    if changes == [] then m else Replay(Changed(m, changes[0]), changes[1..])
  }

  /** This server changes nothing for a session or a rule without a name. */
  function Named(session: string, name: string, e: Change): seq<Change> {
    if session != "" && name != "" then [e] else []
  }

  ghost predicate NoBlankNames(m: Cache) {
    forall s | s in m :: "" !in m[s]
  }

  /** A blank name gets into the cache only by being added, which this server never does; a command of
      another server is not checked. */
  lemma BlankNamesAreAdded(m: Cache, e: Change)
    requires NoBlankNames(m)
    ensures NoBlankNames(map[])
    ensures NoBlankNames(Changed(m, e)) <==> !(e.Add? && e.name == "")
    ensures forall session, name :: Named(session, name, Add(session, name)) != [Add(session, "")]
  {
    match e
    case Add(s, n) =>
      var added := Changed(m, e);
      assert added[s][|RulesOf(m, s)|] == n;
      assert "" in added[s] ==> n == "";
    case Erase(s, n) =>
      WithoutMembers(RulesOf(m, s), n);
    case Forget(_) =>
  }

  lemma WithoutSet(names: seq<string>, name: string)
    ensures NameSet(Without(names, name)) == NameSet(names) - {name}
  {
    WithoutMembers(names, name);
  }

  class SessionRuleCache {
    var rules: Cache

    constructor ()
      ensures rules == map[]
    {
      rules := map[];
    }

    /** Appends the session's rules to the caller's list; a session without rules is an error. */
    method Get(session: string, active: seq<Rule>) returns (ok: bool, r: seq<Rule>)
      ensures ok <==> RulesOf(rules, session) != []
      ensures r == active + Loaded(RulesOf(rules, session))
    {
      r := active;
      ok := session in rules && 0 < |rules[session]|;
      if ok {
        var names := rules[session];
        for i := 0 to |names|
          invariant r == active + Loaded(names[..i])
        {
          r := r + [Rule(names[i], true, false, 0)];
          assert Loaded(names[..i + 1]) == Loaded(names[..i]) + [Rule(names[i], true, false, 0)];
        }
        assert names[..|names|] == names;
      }
    }

    method InsertLocal(session: string, name: string)
      modifies this
      ensures rules == Changed(old(rules), Add(session, name))
      ensures RulesOf(rules, session) == RulesOf(old(rules), session) + [name]
    {
      if session in rules {
        rules := rules[session := rules[session] + [name]];
      } else {
        assert [] + [name] == [name];
        rules := rules[session := [name]];
      }
    }

    method RemoveSessionLocal(session: string)
      modifies this
      ensures rules == Changed(old(rules), Forget(session))
    {
      if session in rules {
        rules := rules - {session};
      }
    }

    /** Erases every occurrence while walking the list. */
    method RemoveRuleLocal(session: string, name: string)
      modifies this
      ensures rules == Changed(old(rules), Erase(session, name))
    {
      if session in rules {
        var list := rules[session];
        var i := 0;
        while i < |list|
          invariant i <= |list|
          invariant list[..i] + Without(list[i..], name) == Without(rules[session], name)
          decreases |list| - i
        {
          if list[i] == name {
            ghost var before := list;
            list := list[..i] + list[i + 1..];
            assert list[..i] == before[..i] && list[i..] == before[i..][1..];
          } else {
            assert list[..i + 1] == list[..i] + [list[i]] && list[i..][1..] == list[i + 1..];
            i := i + 1;
          }
        }
        assert list[..i] == list && Without([], name) == [] && list + [] == list;
        rules := rules[session := list];
      }
    }

    method Insert(session: string, name: string)
      modifies this
      ensures rules == Replay(old(rules), Named(session, name, Add(session, name)))
    {
      if 0 < |session| && 0 < |name| {
        InsertLocal(session, name);
      }
    }

    method RemoveRule(session: string, name: string)
      modifies this
      ensures rules == Replay(old(rules), Named(session, name, Erase(session, name)))
    {
      if 0 < |session| && 0 < |name| {
        RemoveRuleLocal(session, name);
      }
    }
  }

  /** The changes of other threads. */
  method Meanwhile(cache: SessionRuleCache, changes: seq<Change>)
    modifies cache
    ensures cache.rules == Replay(old(cache.rules), changes)
  {
    hide Changed;
    var i := 0;
    assert changes[0..] == changes;
    while i < |changes|
      invariant i <= |changes|
      invariant Replay(cache.rules, changes[i..]) == Replay(old(cache.rules), changes)
    {
      assert changes[i..][1..] == changes[i + 1..];
      match changes[i] {
        case Add(session, name) => cache.InsertLocal(session, name);
        case Erase(session, name) => cache.RemoveRuleLocal(session, name);
        case Forget(session) => cache.RemoveSessionLocal(session);
      }
      i := i + 1;
    }
  }
}
