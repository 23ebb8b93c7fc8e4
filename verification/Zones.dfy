/** The copy-on-write zone table of the name server. */
module Zones {
  import opened Basics

  /** Labels, most specific first; the empty name is the root. */
  type Name = seq<string>
  type Authority = nat
  type Catalog = map<Name, Authority>

  /** The authority for the nearest enclosing zone. */
  function Find(zones: Catalog, name: Name): Option<Authority> {
    if name in zones then Some(zones[name])
    else if name == [] then None
    else Find(zones, name[1..])
  }

  /** The zone name made of the last `n` labels. */
  function Enclosing(name: Name, n: nat): Name {
    if n <= |name| then name[|name| - n..] else name
  }

  /** The last `n` labels of `name` name a zone, and no zone of the catalog encloses the name more closely. */
  ghost predicate Nearest(zones: Catalog, name: Name, n: nat) {
    && n <= |name| && Enclosing(name, n) in zones
    && forall m :: n < m <= |name| ==> Enclosing(name, m) !in zones
  }

  lemma {:induction false} FindIsNearest(zones: Catalog, name: Name) returns (n: nat)
    requires Find(zones, name).Some?
    ensures Nearest(zones, name, n) && Find(zones, name).value == zones[Enclosing(name, n)]
  {
    if name in zones {
      n := |name|;
    } else {
      n := FindIsNearest(zones, name[1..]);
      assert forall m: nat :: m < |name| ==> Enclosing(name[1..], m) == Enclosing(name, m);
      assert Enclosing(name, |name|) == name;
    }
  }

  lemma {:induction false} FindMisses(zones: Catalog, name: Name, n: nat)
    requires Find(zones, name).None? && n <= |name|
    ensures Enclosing(name, n) !in zones
  {
    if n < |name| {
      FindMisses(zones, name[1..], n);
      assert Enclosing(name[1..], n) == Enclosing(name, n);
    } else {
      assert Enclosing(name, n) == name;
    }
  }

  /** The search finds the authority of the nearest enclosing zone, and nothing exactly when none encloses the name. */
  lemma FindNearest(zones: Catalog, name: Name)
    ensures Find(zones, name).Some? <==> exists n :: Nearest(zones, name, n)
    ensures forall n: nat :: Nearest(zones, name, n) ==> Find(zones, name) == Some(zones[Enclosing(name, n)])
  {
    if Find(zones, name).Some? {
      var n := FindIsNearest(zones, name);
      forall m: nat | Nearest(zones, name, m)
        ensures m == n
      {
      }
    } else {
      forall n: nat
        ensures !Nearest(zones, name, n)
      {
        if n <= |name| {
          FindMisses(zones, name, n);
        }
      }
    }
  }

  /** What cloning rebuilds: each recorded name with whatever the search finds for it. */
  ghost function Rebuilt(zones: Catalog, names: set<Name>): Catalog {
    map n | n in names && Find(zones, n).Some? :: Find(zones, n).value
  }

  /** As long as every zone's name is recorded, the rebuilt catalog answers every query like the original. */
  lemma {:induction false} RebuiltAnswersAlike(zones: Catalog, names: set<Name>, query: Name)
    requires zones.Keys <= names
    ensures Find(Rebuilt(zones, names), query) == Find(zones, query)
  {
    if query !in Rebuilt(zones, names) && query != [] {
      RebuiltAnswersAlike(zones, names, query[1..]);
      if query in names {
        NothingBelow(zones, names, query);
      }
    }
  }

  /** A name for which nothing is found has nothing in the rebuilt catalog either. */
  lemma {:induction false} NothingBelow(zones: Catalog, names: set<Name>, query: Name)
    requires zones.Keys <= names && Find(zones, query).None?
    ensures Find(Rebuilt(zones, names), query).None?
  {
    if query != [] {
      NothingBelow(zones, names, query[1..]);
    }
  }

  /** A zone whose name was not recorded is lost by cloning unless an enclosing zone happens to answer the same. */
  lemma UnrecordedZoneLost(zones: Catalog, zone: Name)
    requires zone in zones && zone != []
    ensures Find(Rebuilt(zones, zones.Keys - {zone}), zone) == Find(zones, zone) <==>
            Find(zones, zone[1..]) == Some(zones[zone])
  {
    var names := zones.Keys - {zone};
    var up := zone[1..];
    assert zone !in Rebuilt(zones, names);
    ShorterUnaffected(zones, zone, up);
  }

  lemma {:induction false} ShorterUnaffected(zones: Catalog, zone: Name, query: Name)
    requires |query| < |zone|
    ensures Find(Rebuilt(zones, zones.Keys - {zone}), query) == Find(zones, query)
  {
    if query !in zones && query != [] {
      ShorterUnaffected(zones, zone, query[1..]);
    }
  }

  class ClonableZones {
    var zones: Catalog
    var names: set<Name>

    ghost predicate Valid()
      reads this
    {
      names == zones.Keys
    }

    constructor ()
      ensures Valid() && zones == map[]
    {
      zones, names := map[], {};
    }

    method Upsert(name: Name, authority: Authority)
      requires Valid()
      modifies this
      ensures Valid() && zones == old(zones)[name := authority]
    {
      zones := zones[name := authority];
      names := names + {name};
    }

    method Lookup(query: Name) returns (answer: Option<Authority>)
      ensures answer == Find(zones, query)
    {
      answer := Find(zones, query);
    }

    /** Walks the recorded names in any order, copying what the search finds. */
    method Clone() returns (copy: ClonableZones)
      requires Valid()
      ensures fresh(copy) && copy.Valid() && copy.zones == zones
      ensures forall query :: Find(copy.zones, query) == Find(zones, query)
    {
      copy := new ClonableZones();
      var rest := names;
      while rest != {}
        invariant fresh(copy) && rest <= names
        invariant copy.zones == Rebuilt(zones, names - rest)
        decreases rest
      {
        var name :| name in rest;
        var found := Find(zones, name);
        if found.Some? {
          copy.zones := copy.zones[name := found.value];
        }
        rest := rest - {name};
      }
      copy.names := names;
      assert copy.zones == zones;
    }
  }

  /** The server shares its current table with readers and replaces it when it must write while one is reading. */
  class NameServer {
    var current: ClonableZones
    var readers: multiset<ClonableZones>

    ghost predicate Valid()
      reads this, current, set z | z in readers
    {
      current.Valid() && forall z :: z in readers ==> z.Valid()
    }

    constructor ()
      ensures Valid() && fresh(current) && readers == multiset{} && current.zones == map[]
    {
      current := new ClonableZones();
      readers := multiset{};
    }

    /** A reader takes a share of the current table. */
    method Snapshot() returns (z: ClonableZones)
      requires Valid()
      modifies this`readers
      ensures Valid() && z == current && readers == old(readers) + multiset{z}
    {
      z := current;
      readers := readers + multiset{z};
    }

    method Release(z: ClonableZones)
      requires Valid() && z in readers
      modifies this`readers
      ensures Valid() && readers == old(readers) - multiset{z}
    {
      readers := readers - multiset{z};
    }

    /** The table to write to: the current one if nobody reads it, else a fresh copy that becomes current. */
    method MakeMut()
      requires Valid()
      modifies this`current
      ensures Valid() && current !in readers && readers == old(readers)
      ensures current == old(current) || fresh(current)
      ensures current.zones == old(current.zones)
    {
      if current in readers {
        current := current.Clone();
      }
    }

    /** Inserting or replacing a zone: the next reader sees it, and no table a reader holds changes. */
    method Upsert(name: Name, authority: Authority)
      requires Valid()
      modifies this`current, current
      ensures Valid() && readers == old(readers)
      ensures current.zones == old(current.zones)[name := authority]
      ensures forall z :: z in readers ==> z.zones == old(z.zones) && z.names == old(z.names)
    {
      MakeMut();
      current.Upsert(name, authority);
    }

    /** Forwarding is the zone of the root. */
    method Forward(authority: Authority)
      requires Valid()
      modifies this`current, current
      ensures Valid() && readers == old(readers)
      ensures current.zones == old(current.zones)[[] := authority]
      ensures forall z :: z in readers ==> z.zones == old(z.zones) && z.names == old(z.names)
    {
      Upsert([], authority);
    }
  }
}
