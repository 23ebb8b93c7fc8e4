/**
 Which names of the table are ever answered from it: the zone's check looks at the text of a name, the search for an
 authority at its labels.
 */
module NameLookup {
  import opened Basics
  import opened Peers
  import opened Requested
  import opened DnsNames
  import opened Zones

  // ---- Labels ----

  function Last<T>(s: seq<T>): T
    requires s != []
  {
    s[|s| - 1]
  }

  /** The text between dots. */
  function Split(s: string): (labels: seq<string>)
    ensures labels != []
  {
    if s == "" then [""]
    else
      var init, c := Split(s[..|s| - 1]), s[|s| - 1];
      if c == '.' then init + [""] else init[..|init| - 1] + [Last(init) + [c]]
  }

  /** A final dot only says that the name is complete. */
  function Stem(s: string): string {
    if s != "" && Last(s) == '.' then s[..|s| - 1] else s
  }

  function Labels(s: string): (labels: Name)
    ensures labels != []
  {
    Split(Stem(s))
  }

  lemma {:induction false} SplitPlain(s: string)
    requires '.' !in s
    ensures Split(s) == [s]
  {
    if s != "" {
      SplitPlain(s[..|s| - 1]);
      assert s == s[..|s| - 1] + [s[|s| - 1]];
    }
  }

  /** What stands before a dot does not matter to the last label. */
  lemma {:induction false} SplitAfterDot(a: string, b: string)
    ensures Last(Split(a + "." + b)) == Last(Split(b))
  {
    var s := a + "." + b;
    if b == "" {
      assert s[..|s| - 1] == a;
    } else {
      var init := b[..|b| - 1];
      SplitAfterDot(a, init);
      assert s[..|s| - 1] == a + "." + init && s[|s| - 1] == b[|b| - 1];
    }
  }

  /** The last label reaches back to the last dot. */
  lemma {:induction false} LastLabel(s: string) returns (pre: string)
    ensures var l := Last(Split(s)); s == l || s == pre + "." + l
  {
    if s == "" {
      pre := "";
    } else {
      var init, c := s[..|s| - 1], s[|s| - 1];
      assert s == init + [c];
      pre := LastLabel(init);
      var m := Last(Split(init));
      if c == '.' {
        pre := init;
      } else if init != m {
        assert s == pre + "." + (m + [c]);
      }
    }
  }

  /** A name lies in the zone by its labels. */
  predicate InZone(n: string) {
    Last(Labels(n)) == ZONE
  }

  lemma ZoneIsPlain()
    ensures '.' !in ZONE && Split(ZONE) == [ZONE]
  {
    assert ZONE == ['n', 'o', 'r', 'd'];
    SplitPlain(ZONE);
  }

  /** As text: it is the zone's name or ends in it after a dot. */
  lemma InZoneText(n: string)
    ensures InZone(n) <==> Stem(n) == ZONE || EndsWith(Stem(n), "." + ZONE)
  {
    hide Split;
    var s, end := Stem(n), "." + ZONE;
    ZoneIsPlain();
    if InZone(n) {
      var pre := LastLabel(s);
      if s != ZONE {
        assert s == pre + end;
      }
    }
    if EndsWith(s, end) {
      var pre := s[..|s| - |end|];
      assert s == pre + "." + ZONE;
      SplitAfterDot(pre, ZONE);
    }
  }

  // ---- The search ----

  /** Only the zone of the meshnet and the root are ever in the catalog. */
  ghost predicate MeshCatalog(zones: Catalog) {
    [ZONE] in zones && zones.Keys <= {[], [ZONE]}
  }

  lemma {:induction false} FindByLastLabel(zones: Catalog, name: Name)
    requires MeshCatalog(zones)
    ensures Find(zones, name) == if name != [] && Last(name) == ZONE then Some(zones[[ZONE]]) else Lookup(zones, [])
  {
    if name != [] && name !in zones {
      FindByLastLabel(zones, name[1..]);
      if |name| == 1 {
        assert name == [name[0]];
      }
    }
  }

  /** A query is answered from the meshnet's zone exactly when it lies in it by labels, and from the root otherwise. */
  lemma AnsweredFromZoneIff(zones: Catalog, n: string)
    requires MeshCatalog(zones)
    ensures Find(zones, Labels(n)) == if InZone(n) then Some(zones[[ZONE]]) else Lookup(zones, [])
  {
    FindByLastLabel(zones, Labels(n));
  }

  // ---- The table ----

  ghost predicate AllInZone(records: Records) {
    forall n :: n in records ==> InZone(n)
  }

  lemma WildcardInZone(n: string)
    requires InZone(n)
    ensures InZone(Wildcard(n))
  {
    hide Split;
    var w := Wildcard(n);
    EmptyOutside(n);
    assert Last(w) == Last(n) && w == "*" + "." + n;
    assert Stem(w) == "*" + "." + Stem(n);
    SplitAfterDot("*", Stem(n));
  }

  lemma EmptyOutside(n: string)
    requires InZone(n)
    ensures n != ""
  {
  }

  lemma NicknameInZone(nick: string)
    ensures InZone(nick + ".nord")
  {
    hide Split;
    var s := nick + ".nord";
    ZoneIsPlain();
    assert ".nord" == "." + ZONE && Last(s) == 'd';
    assert s == nick + "." + ZONE;
    SplitAfterDot(nick, ZONE);
  }

  /** Nicknames and wildcards lie in the zone whenever the hostnames do. */
  lemma TableInZoneIff(config: Option<Config>, nicknames: bool)
    ensures AllInZone(Table(config, nicknames)) <==> AllInZone(CollectDnsRecords(config))
  {
    hide InZone, HostRecords, NicknameRecords;
    var base, table, hosts := BaseRecords(config, nicknames), Table(config, nicknames), CollectDnsRecords(config);
    if AllInZone(hosts) {
      forall n | n in base
        ensures InZone(n)
      {
        if n !in hosts {
          NicknameKeys(ThisDevice(config) + NamedPeers(config), n);
          var c: nat :| FirstHolder(ThisDevice(config) + NamedPeers(config), c, n);
          NicknameInZone((ThisDevice(config) + NamedPeers(config))[c].nickname.value);
        }
      }
      forall n | n in table
        ensures InZone(n)
      {
        if n !in base {
          var m :| m in base && n == Wildcard(m);
          WildcardInZone(m);
        }
      }
    }
    if AllInZone(table) {
      assert forall n :: n in hosts ==> n in table;
    }
  }

  /**
   The zone accepts a table holding a name that is never answered from it exactly when every hostname contains the
   zone's name and some hostname does not lie in the zone.
   */
  lemma UnreachableAcceptedIff(config: Option<Config>, nicknames: bool)
    ensures ZoneAccepts(Table(config, nicknames)) && !AllInZone(Table(config, nicknames)) <==>
            && (forall n :: n in CollectDnsRecords(config) ==> ContainsText(n, ZONE))
            && (exists n :: n in CollectDnsRecords(config) && !InZone(n))
  {
    TableAcceptedIff(config, nicknames);
    TableInZoneIff(config, nicknames);
  }

  // ---- Such names ----

  lemma OneHost(d: Named)
    requires d.ips.Some?
    ensures HostRecords([d]) == map[d.hostname := d.ips.value]
  {
    assert [d][..|[d]| - 1] == [];
  }

  lemma OutsideText()
    ensures ContainsText("nord.x", ZONE) && !InZone("nord.x")
    ensures ContainsText("xnord", ZONE) && EndsWith("xnord", ZONE) && !InZone("xnord")
  {
    hide Split;
    assert "nord.x"[0..4] == ZONE && OccursAt("nord.x", ZONE, 0);
    assert "nord.x" == "nord" + "." + "x" && Last("nord.x") == 'x';
    SplitAfterDot("nord", "x");
    SplitPlain("x");
    assert "xnord"[1..5] == ZONE && OccursAt("xnord", ZONE, 1);
    assert "xnord" == ['x', 'n', 'o', 'r', 'd'] && Last("xnord") == 'd';
    SplitPlain("xnord");
    assert |"xnord"| != |ZONE| && |"x"| != |ZONE|;
  }

  function HostConfig(hostname: string): Option<Config> {
    Some(Config(hostname, None, Some([V4(1)]), None))
  }

  /** Both the zone's name at the start and the zone's name without a dot before it are accepted and never answered. */
  lemma OutsideNamesAccepted(zones: Catalog, hostname: string, nicknames: bool)
    requires MeshCatalog(zones) && (hostname == "nord.x" || hostname == "xnord")
    ensures ZoneAccepts(Table(HostConfig(hostname), nicknames)) && hostname in Table(HostConfig(hostname), nicknames)
    ensures Find(zones, Labels(hostname)) == Lookup(zones, [])
  {
    hide ContainsText, EndsWith, HostRecords, NicknameRecords, WildcardRecords, InZone, Find;
    var config, me := HostConfig(hostname), Named(hostname, None, Some([V4(1)]));
    assert NamedPeers(config) + ThisDevice(config) == [me];
    OneHost(me);
    OutsideText();
    TableAcceptedIff(config, nicknames);
    AnsweredFromZoneIff(zones, hostname);
  }
}
