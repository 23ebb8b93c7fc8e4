/** The name table served to the tunnel: hostnames over nicknames, and a wildcard for every name. */
module DnsNames {
  import opened Basics
  import opened Peers
  import opened Deduplication
  import opened Requested

  type Records = map<string, seq<IpAddr>>

  /** A device as far as its names are concerned. Strings are byte strings. */
  datatype Named = Named(hostname: string, nickname: Option<string>, ips: Option<seq<IpAddr>>)

  function NamedPeers(config: Option<Config>): seq<Named> {
    if config.None? then []
    else
      var peers := config.value.peers.GetOr([]);
      seq(|peers|, i requires 0 <= i < |peers| => Named(peers[i].hostname, peers[i].nickname, peers[i].ipAddresses))
  }

  function ThisDevice(config: Option<Config>): seq<Named> {
    if config.None? then []
    else [Named(config.value.thisHostname, config.value.thisNickname, config.value.thisIps)]
  }

  // ---- Hostnames: peers in order, then this device, later entries replacing earlier ones ----

  function HostRecords(devices: seq<Named>): Records {
    if devices == [] then map[]
    else
      var before, d := HostRecords(devices[..|devices| - 1]), devices[|devices| - 1];
      if d.ips.Some? then before[d.hostname := d.ips.value] else before
  }

  function CollectDnsRecords(config: Option<Config>): Records {
    HostRecords(NamedPeers(config) + ThisDevice(config))
  }

  // ---- Nicknames: this device, then peers in order, earlier entries winning ----

  predicate OccursAt(s: string, t: string, i: nat) {
    i + |t| <= |s| && s[i..i + |t|] == t
  }

  predicate ContainsText(s: string, t: string) {
    exists i :: 0 <= i <= |s| && OccursAt(s, t, i)
  }

  predicate EndsWith(s: string, t: string) {
    |t| <= |s| && s[|s| - |t|..] == t
  }

  predicate ValidateNickname(name: string) {
    && |name| <= 25
    && name != []
    && ' ' !in name
    && !ContainsText(name, "--")
    && !EndsWith(name, "-")
    && !EndsWith(name, ".nord")
    && !EndsWith(name, ".")
    && name[0] != '-'
  }

  predicate ClaimsNickname(d: Named, name: string) {
    d.nickname.Some? && d.ips.Some? && ValidateNickname(d.nickname.value) && d.nickname.value + ".nord" == name
  }

  function NicknameRecords(devices: seq<Named>): Records {
    if devices == [] then map[]
    else
      var before, d := NicknameRecords(devices[..|devices| - 1]), devices[|devices| - 1];
      if d.nickname.Some? && d.ips.Some? && ValidateNickname(d.nickname.value) && d.nickname.value + ".nord" !in before
      then before[d.nickname.value + ".nord" := d.ips.value]
      else before
  }

  function CollectDnsNicknameRecords(config: Option<Config>): Records {
    NicknameRecords(ThisDevice(config) + NamedPeers(config))
  }

  // ---- The upserted table ----

  function Wildcard(name: string): string {
    "*." + name
  }

  function BaseRecords(config: Option<Config>, nicknames: bool): Records {
    (if nicknames then CollectDnsNicknameRecords(config) else map[]) + CollectDnsRecords(config)
  }

  lemma WildcardInjective(a: string, b: string)
    requires Wildcard(a) == Wildcard(b)
    ensures a == b
  {
    assert Wildcard(a)[2..] == a && Wildcard(b)[2..] == b;
  }

  ghost function WildcardRecords(base: Records): Records {
    map w | w in (set n | n in base :: Wildcard(n)) :: base[w[2..]]
  }

  ghost function Table(config: Option<Config>, nicknames: bool): Records {
    BaseRecords(config, nicknames) + WildcardRecords(BaseRecords(config, nicknames))
  }

  lemma WildcardRecordsMeaning(base: Records, n: string)
    ensures Wildcard(n) in WildcardRecords(base) <==> n in base
    ensures n in base ==> WildcardRecords(base)[Wildcard(n)] == base[n]
  {
    assert Wildcard(n)[2..] == n;
    if Wildcard(n) in WildcardRecords(base) {
      var m :| m in base && Wildcard(m) == Wildcard(n);
      WildcardInjective(m, n);
    }
  }

  /** Some other served name's wildcard is this name, and points elsewhere. */
  ghost predicate Shadowed(base: Records, n: string) {
    n in base && exists m :: m in base && n == Wildcard(m) && base[m] != base[n]
  }

  /**
   The served names are exactly the base names and their wildcards, each wildcard with its base name's addresses; a base
   name keeps its own addresses exactly when it is not itself the wildcard of a base name with other addresses.
   */
  lemma TableMeaning(config: Option<Config>, nicknames: bool, n: string)
    requires n in BaseRecords(config, nicknames)
    ensures var base, table := BaseRecords(config, nicknames), Table(config, nicknames);
            && Wildcard(n) in table && table[Wildcard(n)] == base[n]
            && n in table && (table[n] == base[n] <==> !Shadowed(base, n))
            && (table[n] == table[Wildcard(n)] <==> !Shadowed(base, n))
            && table.Keys == base.Keys + set m | m in base :: Wildcard(m)
  {
    var base := BaseRecords(config, nicknames);
    WildcardRecordsMeaning(base, n);
    if n in WildcardRecords(base) {
      var m :| m in base && n == Wildcard(m);
      WildcardRecordsMeaning(base, m);
      forall m' | m' in base && n == Wildcard(m')
        ensures m' == m
      {
        WildcardInjective(m, m');
      }
    } else {
      forall m | m in base
        ensures n != Wildcard(m)
      {
        WildcardRecordsMeaning(base, m);
      }
    }
  }

  lemma NoDoubleHyphen(s: string)
    requires '-' !in s
    ensures !ContainsText(s, "--")
  {
    forall i: nat | i <= |s|
      ensures !OccursAt(s, "--", i)
    {
      if i + 2 <= |s| {
        assert s[i..i + 2][0] == s[i] && "--"[0] == '-';
      }
    }
  }

  // ---- Who gets a name ----

  ghost predicate LastHolder(devices: seq<Named>, c: nat, n: string) {
    && c < |devices| && devices[c].hostname == n && devices[c].ips.Some?
    && forall i :: c < i < |devices| ==> !(devices[i].hostname == n && devices[i].ips.Some?)
  }

  ghost predicate FirstHolder(devices: seq<Named>, c: nat, n: string) {
    c < |devices| && ClaimsNickname(devices[c], n) && forall i :: 0 <= i < c ==> !ClaimsNickname(devices[i], n)
  }

  /** A hostname belongs to the last device carrying it. */
  lemma {:induction false} HostKeys(devices: seq<Named>, n: string)
    ensures n in HostRecords(devices) <==> exists c: nat :: LastHolder(devices, c, n)
    ensures forall c: nat :: LastHolder(devices, c, n) ==>
                          n in HostRecords(devices) && HostRecords(devices)[n] == devices[c].ips.value
  {
    if devices != [] {
      var init, d := devices[..|devices| - 1], devices[|devices| - 1];
      HostKeys(init, n);
      if d.hostname == n && d.ips.Some? {
        assert LastHolder(devices, |devices| - 1, n);
      } else {
        forall c: nat
          ensures LastHolder(init, c, n) <==> LastHolder(devices, c, n)
        {
          assert c < |init| ==> init[c] == devices[c];
          assert LastHolder(init, c, n) ==> forall i :: c < i < |init| ==> init[i] == devices[i];
        }
      }
    }
  }

  /** A nickname belongs to the first device validly claiming it. */
  lemma {:induction false} NicknameKeys(devices: seq<Named>, n: string)
    ensures n in NicknameRecords(devices) <==> exists c: nat :: FirstHolder(devices, c, n)
    ensures forall c: nat :: FirstHolder(devices, c, n) ==>
                          n in NicknameRecords(devices) && NicknameRecords(devices)[n] == devices[c].ips.value
  {
    if devices != [] {
      var init, d := devices[..|devices| - 1], devices[|devices| - 1];
      NicknameKeys(init, n);
      forall c: nat | c < |init|
        ensures FirstHolder(init, c, n) <==> FirstHolder(devices, c, n)
      {
        assert forall i :: 0 <= i <= c ==> init[i] == devices[i];
      }
      if n in NicknameRecords(init) {
        var c: nat :| FirstHolder(init, c, n);
        assert FirstHolder(devices, c, n);
        assert forall b: nat :: FirstHolder(devices, b, n) ==> b == c;
      } else if ClaimsNickname(d, n) {
        NoHolder(init, n);
        assert forall i :: 0 <= i < |init| ==> init[i] == devices[i];
        assert FirstHolder(devices, |devices| - 1, n);
      }
    }
  }

  lemma {:induction false} NoHolder(devices: seq<Named>, n: string)
    requires forall c: nat :: !FirstHolder(devices, c, n)
    ensures forall i :: 0 <= i < |devices| ==> !ClaimsNickname(devices[i], n)
  {
    for i := 0 to |devices|
      invariant forall j :: 0 <= j < i ==> !ClaimsNickname(devices[j], n)
    {
      if ClaimsNickname(devices[i], n) {
        assert FirstHolder(devices, i, n);
      }
    }
  }

  /**
   The base table in full: a name carried as a hostname has the addresses of its last carrier, the device itself coming
   last; any other name is a nickname and has those of its first valid claimant, the device itself coming first.
   */
  lemma BaseMeaning(config: Option<Config>, n: string)
    ensures var hosts, nicks := NamedPeers(config) + ThisDevice(config), ThisDevice(config) + NamedPeers(config);
            var base := BaseRecords(config, true);
            && (n in base <==>
                  (exists c: nat :: LastHolder(hosts, c, n)) || (exists c: nat :: FirstHolder(nicks, c, n)))
            && (forall c: nat :: LastHolder(hosts, c, n) ==> n in base && base[n] == hosts[c].ips.value)
            && (forall c: nat :: FirstHolder(nicks, c, n) && (forall b: nat :: !LastHolder(hosts, b, n)) ==>
                              n in base && base[n] == nicks[c].ips.value)
  {
    HostKeys(NamedPeers(config) + ThisDevice(config), n);
    NicknameKeys(ThisDevice(config) + NamedPeers(config), n);
  }

  /** This device nicknamed `*.a`, next to a peer nicknamed `a`. */
  function ShadowingConfig(): Option<Config> {
    Some(Config("c.nord", Some("*.a"), Some([V4(1)]),
                Some([ConfigPeer(1, "b.nord", Some("a"), Some([V4(2)]), true, false, false, false, false)])))
  }

  lemma SampleNicknames()
    ensures ValidateNickname("*.a") && ValidateNickname("a")
    ensures "*.a" + ".nord" == "*.a.nord" && "a" + ".nord" == "a.nord" && Wildcard("a.nord") == "*.a.nord"
    ensures "*.a.nord" != "a.nord"
  {
    NoDoubleHyphen("*.a");
    NoDoubleHyphen("a");
    assert "*.a.nord"[0] == '*' && "a.nord"[0] == 'a';
  }

  lemma SampleHolders(mine: Named, theirs: Named)
    requires mine == Named("c.nord", Some("*.a"), Some([V4(1)])) && theirs == Named("b.nord", Some("a"), Some([V4(2)]))
    ensures FirstHolder([mine, theirs], 0, "*.a.nord") && FirstHolder([mine, theirs], 1, "a.nord")
    ensures forall c: nat :: !LastHolder([theirs, mine], c, "*.a.nord") && !LastHolder([theirs, mine], c, "a.nord")
  {
    SampleNicknames();
    hide ValidateNickname;
    assert "*.a.nord"[0] == '*' && "a.nord"[0] == 'a' && "b.nord"[0] == 'b' && "c.nord"[0] == 'c';
  }

  /** A nickname may be another nickname's wildcard: this device's own name then resolves to the other device. */
  lemma NicknameShadowed()
    ensures Shadowed(BaseRecords(ShadowingConfig(), true), "*.a.nord")
  {
    hide BaseRecords, LastHolder, FirstHolder, Wildcard;
    var config := ShadowingConfig();
    var mine, theirs := Named("c.nord", Some("*.a"), Some([V4(1)])), Named("b.nord", Some("a"), Some([V4(2)]));
    assert ThisDevice(config) + NamedPeers(config) == [mine, theirs];
    assert NamedPeers(config) + ThisDevice(config) == [theirs, mine];
    SampleNicknames();
    SampleHolders(mine, theirs);
    BaseMeaning(config, "*.a.nord");
    BaseMeaning(config, "a.nord");
    assert [V4(1)][0] != [V4(2)][0];
  }

  // ---- The zone's own check ----

  const ZONE: string := "nord"

  /** The zone refuses all records as soon as one name does not contain the zone's name anywhere. */
  ghost predicate ZoneAccepts(records: Records) {
    forall n :: n in records ==> ContainsText(n, ZONE)
  }

  lemma NicknamePasses(nick: string)
    ensures ContainsText(nick + ".nord", ZONE)
  {
    var s := nick + ".nord";
    assert OccursAt(s, ZONE, |nick| + 1);
  }

  lemma WildcardPasses(n: string)
    ensures ContainsText(Wildcard(n), ZONE) <== ContainsText(n, ZONE)
  {
    if ContainsText(n, ZONE) {
      var i: nat :| i <= |n| && OccursAt(n, ZONE, i);
      assert Wildcard(n)[i + 2..i + 2 + |ZONE|] == n[i..i + |ZONE|];
      assert OccursAt(Wildcard(n), ZONE, i + 2);
    }
  }

  /** Nicknames and wildcards never make the zone refuse the table: only a hostname without the zone's name does. */
  lemma TableAcceptedIff(config: Option<Config>, nicknames: bool)
    ensures ZoneAccepts(Table(config, nicknames)) <==> ZoneAccepts(CollectDnsRecords(config))
  {
    var base, table := BaseRecords(config, nicknames), Table(config, nicknames);
    if ZoneAccepts(CollectDnsRecords(config)) {
      forall n | n in base
        ensures ContainsText(n, ZONE)
      {
        if n !in CollectDnsRecords(config) {
          NicknameKeys(ThisDevice(config) + NamedPeers(config), n);
          var c: nat :| FirstHolder(ThisDevice(config) + NamedPeers(config), c, n);
          NicknamePasses((ThisDevice(config) + NamedPeers(config))[c].nickname.value);
        }
      }
      forall n | n in table
        ensures ContainsText(n, ZONE)
      {
        if n !in base {
          var m :| m in base && n == Wildcard(m);
          WildcardPasses(m);
        }
      }
    }
    if ZoneAccepts(table) {
      forall n | n in CollectDnsRecords(config)
        ensures ContainsText(n, ZONE)
      {
        assert n in table;
      }
    }
  }
}
