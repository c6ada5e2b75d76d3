/** The links between sessions: what holds in every run, whatever the callers do. */
module SessionLinks {
  import opened Common
  import opened SessionCache

  ghost predicate Linked(c: Cache, x: Id, p: Id) {
    x in c.parent && c.parent[x] == p
  }

  /** The two link maps are inverse relations; a child may be listed more than once. */
  ghost predicate LinksInverse(c: Cache) {
    forall x, p :: x in Children(c, p) <==> Linked(c, x, p)
  }

  lemma AddChildMembers(c: Cache, id: Id, p: Id)
    ensures forall x, q :: x in Children(AddChild(c, id, p), q) <==> x in Children(c, q) || (x == id && q == p)
  {
  }

  lemma DropChildMembers(c: Cache, id: Id, p: Id)
    ensures forall x, q :: x in Children(DropChild(c, id, p), q) <==> x in Children(c, q) && !(x == id && q == p)
  {
    if p in c.children {
      WithoutMembers(c.children[p], id);
    }
  }

  lemma SameChildren(c: Cache, d: Cache)
    requires c.children == d.children
    ensures forall p :: Children(c, p) == Children(d, p)
  {
  }

  lemma LinkKeepsInverse(c: Cache, id: Id, p: Id)
    requires LinksInverse(c)
    ensures LinksInverse(LinkToParent(c, id, p))
    ensures forall x, q :: Linked(LinkToParent(c, id, p), x, q) <==> if x == id then q == p else Linked(c, x, q)
  {
    var c' := LinkToParent(c, id, p);
    var c1 := AddChild(c, id, p);
    AddChildMembers(c, id, p);
    if id in c.parent && c.parent[id] != p {
      var c2 := DropChild(c1, id, c1.parent[id]);
      DropChildMembers(c1, id, c1.parent[id]);
      var c3 := c2.(parent := c1.parent[id := p]);
      SameChildren(c2, c3);
      AddChildMembers(c3, id, p);
    } else {
      SameChildren(c1, c');
    }
  }

  lemma UnlinkKeepsInverse(c: Cache, id: Id)
    requires LinksInverse(c)
    ensures LinksInverse(RemoveLink(c, id))
    ensures forall x, q :: Linked(RemoveLink(c, id), x, q) <==>
              Linked(c, x, q) && (if id in c.children then q != id else x != id)
  {
    var c' := RemoveLink(c, id);
    if id in c.children {
      forall p ensures Children(c', p) == if p == id then [] else Children(c, p) {
      }
      forall x, q ensures Linked(c', x, q) <==> Linked(c, x, q) && q != id {
        assert x in Children(c, id) <==> Linked(c, x, id);
      }
      forall x, q ensures x in Children(c', q) <==> Linked(c', x, q) {
        assert x in Children(c, q) <==> Linked(c, x, q);
      }
    } else if id in c.parent {
      DropChildMembers(c, id, c.parent[id]);
      SameChildren(DropChild(c, id, c.parent[id]), c');
    }
  }

  /** Whether an id occurs anywhere in the link maps. */
  ghost predicate InLinks(c: Cache, id: Id) {
    || id in c.children || id in c.parent
    || (exists p :: id in Children(c, p))
    || (exists x :: Linked(c, x, id))
  }

  /** Removing a session's links leaves a trace of it exactly when it had a list of children and a
      parent other than itself: then only its role as a parent is cleared. */
  lemma UnlinkLeavesTraceIff(c: Cache, id: Id)
    requires LinksInverse(c)
    ensures InLinks(RemoveLink(c, id), id) <==> id in c.children && id in c.parent && c.parent[id] != id
  {
    UnlinkKeepsInverse(c, id);
    var c' := RemoveLink(c, id);
    if id in c.children && id in c.parent && c.parent[id] != id {
      assert Linked(c', id, c.parent[id]);
    } else {
      assert id in c.parent ==> Linked(c, id, c.parent[id]);
      assert id !in c'.children && id !in c'.parent;
      forall p ensures id !in Children(c', p) {
        assert !Linked(c', id, p);
      }
      forall x ensures !Linked(c', x, id) {
        assert x !in Children(c', id);
      }
    }
  }

  lemma InsertKeepsInverse(c: Cache, id: Id, r: Record, parent: Option<Id>, dialect: Dialect)
    requires LinksInverse(c)
    ensures LinksInverse(InsertLocal(c, id, r, parent, dialect))
  {
    if id !in c.sessions && parent.Some? {
      var c1 := c.(sessions := c.sessions[id := r]);
      var c2 := if IsCore(dialect) then AddIp(c1, r.framedIp.v, id) else c1;
      var c3 := if r.subscriberId.isNull then c2 else AddSubscriber(c2, r.subscriberId.v, id);
      SameChildren(c, c3);
      LinkKeepsInverse(c3, id, parent.value);
    } else {
      SameChildren(c, InsertLocal(c, id, r, parent, dialect));
    }
  }

  lemma RemoveKeepsInverse(c: Cache, id: Id)
    requires LinksInverse(c)
    ensures LinksInverse(RemoveLocal(c, id))
  {
    UnlinkKeepsInverse(c, id);
    SameChildren(RemoveLink(c, id), RemoveLocal(c, id));
  }

  datatype Event = Insert(id: Id, r: Record, parent: Option<Id>, dialect: Dialect) | Remove(id: Id)

  function Next(c: Cache, e: Event): Cache {
    match e
    case Insert(id, r, parent, dialect) => InsertLocal(c, id, r, parent, dialect)
    case Remove(id) => RemoveLocal(c, id)
  }

  function Run(c: Cache, events: seq<Event>): Cache
    decreases |events|
  {
    if events == [] then c else Run(Next(c, events[0]), events[1..])
  }

  lemma {:induction false} RunKeepsInverse(c: Cache, events: seq<Event>)
    requires LinksInverse(c)
    ensures LinksInverse(Run(c, events))
    decreases |events|
  {
    if events == [] {
    } else {
      match events[0] {
        case Insert(id, r, parent, dialect) => InsertKeepsInverse(c, id, r, parent, dialect);
        case Remove(id) => RemoveKeepsInverse(c, id);
      }
      RunKeepsInverse(Next(c, events[0]), events[1..]);
    }
  }

  /** In every run, with no assumption on the callers, the two link maps say the same. */
  lemma LinksAlwaysInverse(events: seq<Event>)
    ensures LinksInverse(Run(EMPTY, events))
  {
    RunKeepsInverse(EMPTY, events);
  }
}
