/** The local refresh queue: entries filed under the time they fall due, drained by a thread that
    wakes now and then and takes everything whose time has come. */
module RefreshQueue {
  import opened Common

  datatype Entry = Entry(identifier: string, identifierType: string, action: Field)

  /** The record built from the caller's texts, of which the type and the action may be absent;
      an empty action counts as none. */
  function NewEntry(identifier: string, identifierType: Option<string>, action: Option<string>): (r: Entry)
    ensures r.identifier == identifier
    ensures identifierType == Some(r.identifierType) || (identifierType.None? && r.identifierType == "")
    ensures r.action.isNull <==> action.None? || action.value == ""
    ensures !r.action.isNull ==> action == Some(r.action.v)
  {
    var text := if action.Some? then action.value else "";
    Entry(identifier, if identifierType.Some? then identifierType.value else "", Field(|text| == 0, text))
  }

  /** An entry together with the time it was filed under. */
  datatype Due = Due(time: int, entry: Entry)

  /** The entries filed under one time, in order. */
  function At(s: seq<Due>, t: int): seq<Entry> {
    if s == [] then []
    else (if s[0].time == t then [s[0].entry] else []) + At(s[1..], t)
  }

  function Entries(s: seq<Due>): seq<Entry> {
    seq(|s|, i requires 0 <= i < |s| => s[i].entry)
  }

  ghost predicate Sorted(s: seq<Due>) {
    forall i, j | 0 <= i < j < |s| :: s[i].time <= s[j].time
  }

  /** How many entries are due by `t`: the position of the first later one. */
  function UpperBound(s: seq<Due>, t: int): (n: nat)
    ensures n <= |s|
    ensures forall i | 0 <= i < n :: s[i].time <= t
    ensures n < |s| ==> s[n].time > t
  {
    if s == [] || s[0].time > t then 0 else 1 + UpperBound(s[1..], t)
  }

  /** A new entry goes behind the ones filed under the same time. */
  function Added(s: seq<Due>, d: Due): seq<Due> {
    var n := UpperBound(s, d.time);
    s[..n] + [d] + s[n..]
  }

  lemma {:induction false} AtConcat(a: seq<Due>, b: seq<Due>, t: int)
    ensures At(a + b, t) == At(a, t) + At(b, t)
  {
    if a == [] {
      assert a + b == b;
    } else {
      assert (a + b)[1..] == a[1..] + b;
      AtConcat(a[1..], b, t);
      Associates(if a[0].time == t then [a[0].entry] else [], At(a[1..], t), At(b, t));
    }
  }

  lemma {:induction false} AtElsewhere(s: seq<Due>, t: int)
    requires forall i | 0 <= i < |s| :: s[i].time != t
    ensures At(s, t) == []
  {
    if s == [] {
    } else {
      AtElsewhere(s[1..], t);
    }
  }

  lemma AddedStaysSorted(s: seq<Due>, d: Due)
    requires Sorted(s)
    ensures Sorted(Added(s, d))
  {
  }

  lemma EmptyMiddle<T>(a: seq<T>, b: seq<T>, c: seq<T>)
    requires b == [] || c == []
    ensures (a + b) + c == (a + c) + b
  {
  }

  lemma FiledBetween(early: seq<Due>, d: Due, late: seq<Due>, t: int)
    requires forall x | x in late :: x.time != d.time
    ensures At(early + [d] + late, t) == At(early + late, t) + At([d], t)
  {
    AtConcat(early, late, t);
    AtConcat(early + [d], late, t);
    AtConcat(early, [d], t);
    if t == d.time {
      AtElsewhere(late, t);
    } else {
      AtElsewhere([d], t);
    }
    EmptyMiddle(At(early, t), At([d], t), At(late, t));
  }

  /** Under each time, filing is first in, first out. */
  lemma AddedFilesLast(s: seq<Due>, d: Due, t: int)
    requires Sorted(s)
    ensures At(Added(s, d), t) == At(s, t) + At([d], t)
  {
    var n := UpperBound(s, d.time);
    FiledBetween(s[..n], d, s[n..], t);
    assert s == s[..n] + s[n..];
  }

  // ----- Whole runs

  datatype Event = Add(due: Due) | Load(now: int)

  /** The queue, everything ever filed, and the batches handed out with the times of the loads. */
  datatype World = World(queue: seq<Due>, added: seq<Due>, batches: seq<(int, seq<Due>)>)

  const EMPTY := World([], [], [])

  function Next(w: World, e: Event): World {
    match e
    case Add(d) => w.(queue := Added(w.queue, d), added := w.added + [d])
    case Load(now) =>
      var n := UpperBound(w.queue, now);
      w.(queue := w.queue[n..], batches := w.batches + [(now, w.queue[..n])])
  }

  function Run(w: World, events: seq<Event>): World
    decreases |events|
  {
    if events == [] then w else Run(Next(w, events[0]), events[1..])
  }

  /** Everything handed out so far, batch after batch. */
  function Delivered(batches: seq<(int, seq<Due>)>): seq<Due> {
    if batches == [] then [] else batches[0].1 + Delivered(batches[1..])
  }

  lemma {:induction false} DeliveredConcat(a: seq<(int, seq<Due>)>, b: seq<(int, seq<Due>)>)
    ensures Delivered(a + b) == Delivered(a) + Delivered(b)
  {
    if a == [] {
      assert a + b == b;
    } else {
      assert (a + b)[1..] == a[1..] + b;
      DeliveredConcat(a[1..], b);
      Associates(a[0].1, Delivered(a[1..]), Delivered(b));
    }
  }

  /** For each time, what was handed out followed by what waits is what was filed, in order. */
  ghost predicate Conserved(w: World) {
    forall t :: At(Delivered(w.batches), t) + At(w.queue, t) == At(w.added, t)
  }

  ghost predicate Inv(w: World) {
    && Sorted(w.queue)
    && Conserved(w)
    && forall b | b in w.batches :: Sorted(b.1) && forall d | d in b.1 :: d.time <= b.0
  }

  lemma AddConserves(w: World, d: Due, t: int)
    requires Inv(w)
    ensures At(Delivered(w.batches), t) + At(Added(w.queue, d), t) == At(w.added + [d], t)
  {
    hide At, Delivered, Added;
    AddedFilesLast(w.queue, d, t);
    AtConcat(w.added, [d], t);
  }

  lemma MoveConserves(delivered: seq<Due>, taken: seq<Due>, left: seq<Due>, t: int)
    ensures At(delivered + taken, t) + At(left, t) == At(delivered, t) + At(taken + left, t)
  {
    AtConcat(delivered, taken, t);
    AtConcat(taken, left, t);
  }

  lemma LoadConserves(w: World, now: int, t: int)
    requires Inv(w)
    ensures var w' := Next(w, Load(now));
            At(Delivered(w'.batches), t) + At(w'.queue, t) == At(w.added, t)
  {
    var n := UpperBound(w.queue, now);
    var taken, left := w.queue[..n], w.queue[n..];
    assert w.queue == taken + left;
    DeliveredConcat(w.batches, [(now, taken)]);
    assert Delivered([(now, taken)]) == taken;
    MoveConserves(Delivered(w.batches), taken, left, t);
  }

  lemma StepKeepsInv(w: World, e: Event)
    requires Inv(w)
    ensures Inv(Next(w, e))
    ensures e.Load? ==> forall d | d in Next(w, e).queue :: d.time > e.now
  {
    hide At, Delivered;
    match e
    case Add(d) =>
      forall t ensures At(Delivered(w.batches), t) + At(Added(w.queue, d), t) == At(w.added + [d], t) {
        AddConserves(w, d, t);
      }
      AddedStaysSorted(w.queue, d);
    case Load(now) =>
      var w' := Next(w, e);
      forall t ensures At(Delivered(w'.batches), t) + At(w'.queue, t) == At(w.added, t) {
        LoadConserves(w, now, t);
      }
  }

  /** What the events file, in order. */
  function Filed(events: seq<Event>): seq<Due> {
    if events == [] then []
    else (if events[0].Add? then [events[0].due] else []) + Filed(events[1..])
  }

  lemma {:induction false} RunKeepsInv(w: World, events: seq<Event>)
    requires Inv(w)
    ensures Inv(Run(w, events)) && Run(w, events).added == w.added + Filed(events)
    decreases |events|
  {
    if events == [] {
    } else {
      StepKeepsInv(w, events[0]);
      hide Inv;
      RunKeepsInv(Next(w, events[0]), events[1..]);
      Associates(w.added, if events[0].Add? then [events[0].due] else [], Filed(events[1..]));
      assert w.added + [] == w.added;
    }
  }

  /** Over every run: no entry is lost, invented, duplicated or handed out early, and entries
      filed under one time leave in the order they came. */
  lemma EveryRunConserves(events: seq<Event>)
    ensures var w := Run(EMPTY, events);
            && (forall t :: At(Delivered(w.batches), t) + At(w.queue, t) == At(Filed(events), t))
            && (forall b | b in w.batches :: Sorted(b.1) && forall d | d in b.1 :: d.time <= b.0)
  {
    RunKeepsInv(EMPTY, events);
    assert [] + Filed(events) == Filed(events);
  }

  // ----- The same order, counted

  lemma {:induction false} CountByTime(s: seq<Due>, d: Due)
    ensures multiset(s)[d] == multiset(At(s, d.time))[d.entry]
  {
    if s == [] {
    } else {
      assert s == [s[0]] + s[1..];
      CountByTime(s[1..], d);
    }
  }

  /** Conservation as plain counting: each entry occurs among the delivered and the waiting ones
      exactly as often as it was filed. */
  lemma NothingLostOrInvented(events: seq<Event>)
    ensures var w := Run(EMPTY, events);
            multiset(Delivered(w.batches)) + multiset(w.queue) == multiset(Filed(events))
  {
    var w := Run(EMPTY, events);
    EveryRunConserves(events);
    forall d: Due
      ensures multiset(Delivered(w.batches))[d] + multiset(w.queue)[d] == multiset(Filed(events))[d]
    {
      CountByTime(Delivered(w.batches), d);
      CountByTime(w.queue, d);
      CountByTime(Filed(events), d);
      assert At(Delivered(w.batches), d.time) + At(w.queue, d.time) == At(Filed(events), d.time);
    }
  }

  /** What a load takes and appends: the entries due, one for one and in order, and none later. */
  lemma LoadTakesTheDue(queue: seq<Due>, now: int, list: seq<Entry>)
    ensures var n := UpperBound(queue, now);
            var r := list + Entries(queue[..n]);
            && |r| == |list| + n && r[..|list|] == list
            && (forall k | 0 <= k < n :: r[|list| + k] == queue[k].entry && queue[k].time <= now)
            && (n < |queue| ==> queue[n].time > now)
  {
    var taken := Entries(queue[..UpperBound(queue, now)]);
    assert forall k | 0 <= k < |taken| :: (list + taken)[|list| + k] == taken[k];
  }

  /** The queue shared by the request handlers and the refresh thread. */
  class LocalQueue {
    var queue: seq<Due>

    constructor ()
      ensures queue == []
    {
      queue := [];
    }

    method Add(time: int, identifier: string, identifierType: Option<string>, action: Option<string>)
      modifies this
      ensures queue == Added(old(queue), Due(time, NewEntry(identifier, identifierType, action)))
    {
      var n := 0;
      while n < |queue| && queue[n].time <= time
        invariant n <= |queue| && queue == old(queue)
        invariant UpperBound(queue, time) == n + UpperBound(queue[n..], time)
      {
        assert queue[n..][1..] == queue[n + 1..];
        n := n + 1;
      }
      queue := queue[..n] + [Due(time, NewEntry(identifier, identifierType, action))] + queue[n..];
    }

    /** Appends what is due to the caller's list and erases it here. */
    method Load(now: int, list: seq<Entry>) returns (r: seq<Entry>)
      modifies this
      ensures var n := UpperBound(old(queue), now);
              queue == old(queue)[n..] && r == list + Entries(old(queue)[..n])
    {
      r := list;
      var n := 0;
      while n < |queue| && queue[n].time <= now
        invariant n <= |queue| && queue == old(queue)
        invariant UpperBound(queue, now) == n + UpperBound(queue[n..], now)
        invariant r == list + Entries(queue[..n])
      {
        assert queue[n..][1..] == queue[n + 1..];
        r := r + [queue[n].entry];
        assert Entries(queue[..n + 1]) == Entries(queue[..n]) + [queue[n].entry];
        n := n + 1;
      }
      queue := queue[n..];
    }
  }
}
