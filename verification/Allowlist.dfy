/** The egress allowlist: the worker's validator (pkg/worker/net_allowlist.go), the proxy's
    loader and its decision (cmd/net-policy-proxy/main.go). Trimming, lower-casing, parsing of
    prefixes and addresses and name resolution are functions handed in. */
module Allowlist {
  import opened Sequences

  datatype RawRule = RawRule(host: string, cidr: string, protocol: string, ports: seq<int>)

  datatype Address = V4(n: nat) | V4InV6(n: nat) | V6
  /** An address and a number of leading bits; v4 says whether the address is an IPv4 one. */
  datatype Prefix = Prefix(v4: bool, addr: nat, bits: nat)

  datatype Net = Net(
    trim: string -> string,
    lower: string -> string,
    parsePrefix: string -> Option<Prefix>,
    parseAddress: string -> Option<Address>,
    resolve: string -> Option<seq<Address>>)
  {
    function Name(s: string): string { lower(trim(s)) }
  }

  /** All that is asked of lower-casing: it does not make text vanish or appear. */
  ghost predicate TextOk(net: Net) {
    forall s :: net.lower(s) == "" <==> s == ""
  }

  datatype Problem = BadProtocol | BadPort(port: int) | NoTarget | TwoTargets | BadCidr

  datatype HostRule = HostRule(exact: string, wildcard: string, ports: set<int>)
  datatype CidrRule = CidrRule(prefix: Prefix, ports: set<int>)
  datatype Rules = Rules(hosts: seq<HostRule>, cidrs: seq<CidrRule>)

  // ---------------------------------------------------------------------------------------
  // Text
  // ---------------------------------------------------------------------------------------

  predicate HasPrefix(s: string, p: string) {
    |p| <= |s| && s[..|p|] == p
  }

  predicate HasSuffix(s: string, p: string) {
    |p| <= |s| && s[|s| - |p|..] == p
  }

  // ---------------------------------------------------------------------------------------
  // What a rule means, said without reference to how it is stored or scanned
  // ---------------------------------------------------------------------------------------

  function Ports(r: RawRule): set<int> {
    if r.ports == [] then {443} else set p | p in r.ports
  }

  /** The low k bits dropped. */
  function ShiftRight(n: nat, k: nat): nat {
    if k == 0 then n else ShiftRight(n / 2, k - 1)
  }

  /** The address and the prefix's own are the same once the bits past the prefix are dropped. */
  predicate Covers(p: Prefix, n: nat) {
    p.v4 && p.bits <= 32 && ShiftRight(n, 32 - p.bits) == ShiftRight(p.addr, 32 - p.bits)
  }

  predicate PermitsAddress(net: Net, r: RawRule, n: nat, port: int) {
    var host, prefix := net.Name(r.host), net.parsePrefix(net.trim(r.cidr));
    host == "" && prefix.Some? && Covers(prefix.value, n) && port in Ports(r)
  }

  predicate PermitsName(net: Net, r: RawRule, name: string, port: int) {
    var host := net.Name(r.host);
    && host != "" && port in Ports(r)
    && if HasPrefix(host, "*.") then
         var base := host[2..];
         base != "" && (name == base || HasSuffix(name, "." + base))
       else name == host
  }

  /** An IPv4 literal is matched against address rules only; a name by a host rule, or by an
      address rule on one of the IPv4 addresses it resolves to. */
  predicate Permits(net: Net, r: RawRule, host: string, port: int) {
    var name := net.Name(host);
    && name != "" && 0 < port <= 65535
    && match net.parseAddress(name)
       case Some(V4(n)) => PermitsAddress(net, r, n, port)
       case _ =>
         || PermitsName(net, r, name, port)
         || var found := net.resolve(name);
            found.Some? && exists a | a in found.value :: a.V4? && PermitsAddress(net, r, a.n, port)
  }

  ghost predicate Allows(net: Net, rules: seq<RawRule>, host: string, port: int) {
    exists r | r in rules :: Permits(net, r, host, port)
  }

  // ---------------------------------------------------------------------------------------
  // Checking rules: the loader's and the validator's own versions
  // ---------------------------------------------------------------------------------------

  predicate GoodProtocol(net: Net, r: RawRule) {
    var p := net.Name(r.protocol); p == "" || p == "tcp"
  }

  /** The first port out of range. */
  function BadPortIn(ports: seq<int>): Option<int> {
    if ports == [] then None
    else if ports[0] <= 0 || ports[0] > 65535 then Some(ports[0])
    else BadPortIn(ports[1..])
  }

  function LoaderProblem(net: Net, r: RawRule): Option<Problem> {
    var host, cidr := net.Name(r.host), net.trim(r.cidr);
    if !GoodProtocol(net, r) then Some(BadProtocol)
    else if BadPortIn(r.ports).Some? then Some(BadPort(BadPortIn(r.ports).value))
    else if host == "" && cidr == "" then Some(NoTarget)
    else if host != "" && cidr != "" then Some(TwoTargets)
    else if host != "" then None
    else if net.parsePrefix(cidr).None? then Some(BadCidr)
    else None
  }

  function ValidatorProblem(net: Net, r: RawRule): Option<Problem> {
    var host, cidr := net.trim(r.host), net.trim(r.cidr);
    if !GoodProtocol(net, r) then Some(BadProtocol)
    else if BadPortIn(r.ports).Some? then Some(BadPort(BadPortIn(r.ports).value))
    else if host == "" && cidr == "" then Some(NoTarget)
    else if host != "" && cidr != "" then Some(TwoTargets)
    else if cidr != "" && net.parsePrefix(cidr).None? then Some(BadCidr)
    else None
  }

  function FirstLoaderProblem(net: Net, rules: seq<RawRule>): Option<Problem> {
    if rules == [] then None
    else if LoaderProblem(net, rules[0]).Some? then LoaderProblem(net, rules[0])
    else FirstLoaderProblem(net, rules[1..])
  }

  function FirstValidatorProblem(net: Net, rules: seq<RawRule>): Option<Problem> {
    if rules == [] then None
    else if ValidatorProblem(net, rules[0]).Some? then ValidatorProblem(net, rules[0])
    else FirstValidatorProblem(net, rules[1..])
  }

  /** The worker accepts a rule list exactly when the proxy will, and for the same reason. */
  lemma {:induction false} ValidatorAgreesWithLoader(net: Net, rules: seq<RawRule>)
    requires TextOk(net)
    ensures FirstValidatorProblem(net, rules) == FirstLoaderProblem(net, rules)
    ensures FirstLoaderProblem(net, rules).None? <==> forall r | r in rules :: LoaderProblem(net, r).None?
  {
    if rules != [] {
      ValidatorAgreesWithLoader(net, rules[1..]);
      assert rules == [rules[0]] + rules[1..];
    }
  }

  /** What the loader keeps of the rules it accepts. */
  function HostRulesOf(net: Net, rules: seq<RawRule>): seq<HostRule> {
    if rules == [] then []
    else
      var last := rules[|rules| - 1];
      var host := net.Name(last.host);
      HostRulesOf(net, rules[..|rules| - 1]) + (if host == "" then [] else [CompileHost(host, Ports(last))])
  }

  function CompileHost(host: string, ports: set<int>): HostRule {
    if HasPrefix(host, "*.") then HostRule("", host[2..], ports) else HostRule(host, "", ports)
  }

  function CidrRulesOf(net: Net, rules: seq<RawRule>): seq<CidrRule> {
    if rules == [] then []
    else
      var last := rules[|rules| - 1];
      var prefix := net.parsePrefix(net.trim(last.cidr));
      CidrRulesOf(net, rules[..|rules| - 1])
      + (if net.Name(last.host) == "" && prefix.Some? && prefix.value.v4
           then [CidrRule(prefix.value, Ports(last))]
           else [])
  }

  predicate HostRuleMatches(r: HostRule, name: string, port: int) {
    && port in r.ports
    && ((r.exact != "" && name == r.exact)
        || (r.wildcard != "" && (name == r.wildcard || HasSuffix(name, "." + r.wildcard))))
  }

  predicate CidrRuleMatches(r: CidrRule, n: nat, port: int) {
    port in r.ports && Covers(r.prefix, n)
  }

  lemma {:induction false} HostRulesMean(net: Net, rules: seq<RawRule>, name: string, port: int)
    ensures (exists r | r in HostRulesOf(net, rules) :: HostRuleMatches(r, name, port)) <==>
            exists r | r in rules :: PermitsName(net, r, name, port)
  {
    if rules != [] {
      var init, last := rules[..|rules| - 1], rules[|rules| - 1];
      HostRulesMean(net, init, name, port);
      assert rules == init + [last];
      var host := net.Name(last.host);
      if host != "" {
        assert HostRuleMatches(CompileHost(host, Ports(last)), name, port) <==> PermitsName(net, last, name, port);
      }
    }
  }

  lemma {:induction false} CidrRulesMean(net: Net, rules: seq<RawRule>, n: nat, port: int)
    ensures (exists r | r in CidrRulesOf(net, rules) :: CidrRuleMatches(r, n, port)) <==>
            exists r | r in rules :: PermitsAddress(net, r, n, port)
  {
    if rules != [] {
      var init, last := rules[..|rules| - 1], rules[|rules| - 1];
      CidrRulesMean(net, init, n, port);
      assert rules == init + [last];
      var prefix := net.parsePrefix(net.trim(last.cidr));
      if net.Name(last.host) == "" && prefix.Some? && prefix.value.v4 {
        var compiled := CidrRule(prefix.value, Ports(last));
        assert compiled in CidrRulesOf(net, rules);
        assert CidrRuleMatches(compiled, n, port) <==> PermitsAddress(net, last, n, port);
      } else {
        assert !PermitsAddress(net, last, n, port);
        assert CidrRulesOf(net, rules) == CidrRulesOf(net, init);
      }
    }
  }

  function Loaded(net: Net, rules: seq<RawRule>): Rules {
    Rules(HostRulesOf(net, rules), CidrRulesOf(net, rules))
  }

  // ---------------------------------------------------------------------------------------
  // The decision on compiled rules
  // ---------------------------------------------------------------------------------------

  predicate AddressHit(loaded: Rules, n: nat, port: int) {
    exists r | r in loaded.cidrs :: CidrRuleMatches(r, n, port)
  }

  predicate NameHit(loaded: Rules, name: string, port: int) {
    exists r | r in loaded.hosts :: HostRuleMatches(r, name, port)
  }

  predicate ResolvedHit(loaded: Rules, found: Option<seq<Address>>, port: int) {
    found.Some? && exists a | a in found.value :: a.V4? && AddressHit(loaded, a.n, port)
  }

  predicate Decides(net: Net, loaded: Rules, host: string, port: int) {
    var name := net.Name(host);
    && name != "" && 0 < port <= 65535
    && match net.parseAddress(name)
       case Some(V4(n)) => AddressHit(loaded, n, port)
       case _ => NameHit(loaded, name, port) || ResolvedHit(loaded, net.resolve(name), port)
  }

  /** What the proxy decides on the compiled rules is the declared meaning of the raw ones. */
  lemma DecisionMeans(net: Net, rules: seq<RawRule>, host: string, port: int)
    ensures Decides(net, Loaded(net, rules), host, port) <==> Allows(net, rules, host, port)
  {
    var name := net.Name(host);
    var loaded := Loaded(net, rules);
    HostRulesMean(net, rules, name, port);
    forall n: nat ensures AddressHit(loaded, n, port) <==> exists r | r in rules :: PermitsAddress(net, r, n, port) {
      CidrRulesMean(net, rules, n, port);
    }
    if Allows(net, rules, host, port) {
      var r :| r in rules && Permits(net, r, host, port);
    }
  }

  /** The decisions of two proxies agree when their rule lists have the same rules, in whatever
      order and however often; with more rules a proxy never allows less. */
  lemma DecisionIsMonotone(net: Net, rules: seq<RawRule>, more: seq<RawRule>, host: string, port: int)
    requires forall r | r in rules :: r in more
    ensures Decides(net, Loaded(net, rules), host, port) ==> Decides(net, Loaded(net, more), host, port)
  {
    DecisionMeans(net, rules, host, port);
    DecisionMeans(net, more, host, port);
  }

  lemma DecisionIgnoresOrder(net: Net, rules: seq<RawRule>, other: seq<RawRule>, host: string, port: int)
    requires multiset(rules) == multiset(other)
    ensures Decides(net, Loaded(net, rules), host, port) <==> Decides(net, Loaded(net, other), host, port)
  {
    assert forall r :: r in rules <==> r in multiset(rules);
    assert forall r :: r in other <==> r in multiset(other);
    DecisionIsMonotone(net, rules, other, host, port);
    DecisionIsMonotone(net, other, rules, host, port);
  }

  // ---------------------------------------------------------------------------------------
  // The decision with nothing abbreviated
  // ---------------------------------------------------------------------------------------

  /** Bit i of n, counted from the lowest. */
  function Bit(n: nat, i: nat): nat {
    ShiftRight(n, i) % 2
  }

  /** Two 32-bit addresses have their first `bits` bits in common. */
  predicate TopBitsAgree(a: nat, b: nat, bits: nat) {
    forall i | 32 - bits <= i < 32 && 0 <= i :: Bit(a, i) == Bit(b, i)
  }

  lemma {:induction false} ShiftMore(n: nat, k: nat)
    ensures ShiftRight(n, k + 1) == ShiftRight(n, k) / 2
  {
    if k > 0 {
      ShiftMore(n / 2, k - 1);
    }
  }

  lemma {:induction false} ShiftAway(n: nat, k: nat, room: nat)
    requires n < room && IsPower(room, k)
    ensures ShiftRight(n, k) == 0
  {
    if k > 0 {
      ShiftAway(n / 2, k - 1, room / 2);
    }
  }

  /** room is 1, doubled k times. */
  predicate IsPower(room: nat, k: nat) {
    if k == 0 then room == 1 else room % 2 == 0 && IsPower(room / 2, k - 1)
  }

  lemma ShiftAllAway(n: nat)
    requires n < 0x1_0000_0000
    ensures ShiftRight(n, 32) == 0
  {
    assert IsPower(0x100, 8);
    PowerTimes(0x100, 8, 0x100, 8);
    PowerTimes(0x1_0000, 16, 0x1_0000, 16);
    ShiftAway(n, 32, 0x1_0000_0000);
  }

  lemma {:induction false} PowerTimes(a: nat, j: nat, b: nat, k: nat)
    requires IsPower(a, j) && IsPower(b, k)
    ensures IsPower(a * b, j + k)
  {
    if j > 0 {
      PowerTimes(a / 2, j - 1, b, k);
      assert a * b == 2 * (a / 2 * b);
    }
  }

  lemma {:induction false} ShiftsAgree(a: nat, b: nat, k: nat)
    requires a < 0x1_0000_0000 && b < 0x1_0000_0000 && k <= 32
    ensures ShiftRight(a, k) == ShiftRight(b, k) <==> forall i | k <= i < 32 :: Bit(a, i) == Bit(b, i)
    decreases 32 - k
  {
    if k == 32 {
      ShiftAllAway(a);
      ShiftAllAway(b);
    } else {
      ShiftMore(a, k);
      ShiftMore(b, k);
      ShiftsAgree(a, b, k + 1);
      assert ShiftRight(a, k) == 2 * ShiftRight(a, k + 1) + Bit(a, k);
      assert ShiftRight(b, k) == 2 * ShiftRight(b, k + 1) + Bit(b, k);
    }
  }

  /** A prefix covers the addresses that agree with it on its leading bits. */
  lemma CoversTopBits(p: Prefix, n: nat)
    requires p.addr < 0x1_0000_0000 && n < 0x1_0000_0000
    ensures Covers(p, n) <==> p.v4 && p.bits <= 32 && TopBitsAgree(p.addr, n, p.bits)
  {
    if p.bits <= 32 {
      ShiftsAgree(p.addr, n, 32 - p.bits);
    }
  }

  /** So all 32 bits pin one address, no bits cover all, and one bit less covers what the prefix
      and its sibling cover, the prefix that differs from it in its last bit only. */
  lemma CoversLaws(addr: nat, sibling: nat, bits: nat, n: nat)
    requires addr < 0x1_0000_0000 && sibling < 0x1_0000_0000 && n < 0x1_0000_0000 && 1 <= bits <= 32
    requires TopBitsAgree(addr, sibling, bits - 1) && Bit(addr, 32 - bits) != Bit(sibling, 32 - bits)
    ensures Covers(Prefix(true, addr, 32), n) <==> n == addr
    ensures Covers(Prefix(true, addr, 0), n)
    ensures Covers(Prefix(true, addr, bits - 1), n) <==>
            Covers(Prefix(true, addr, bits), n) || Covers(Prefix(true, sibling, bits), n)
    ensures !Covers(Prefix(false, addr, bits), n)
  {
    CoversTopBits(Prefix(true, addr, 0), n);
    CoversTopBits(Prefix(true, addr, bits), n);
    CoversTopBits(Prefix(true, sibling, bits), n);
    CoversTopBits(Prefix(true, addr, bits - 1), n);
    var i := 32 - bits;
    assert Bit(n, i) == Bit(addr, i) || Bit(n, i) == Bit(sibling, i);
    assert TopBitsAgree(addr, n, bits) <==> TopBitsAgree(addr, n, bits - 1) && Bit(n, i) == Bit(addr, i);
    assert TopBitsAgree(sibling, n, bits) <==> TopBitsAgree(sibling, n, bits - 1) && Bit(n, i) == Bit(sibling, i);
  }

  /** 10.0.0.0/8 and two addresses. */
  lemma TenSlashEight()
    ensures Covers(Prefix(true, 0x0A00_0000, 8), 0x0A01_0203) && !Covers(Prefix(true, 0x0A00_0000, 8), 0x0B01_0203)
  {
    Shift24(0x0A00_0000);
    Shift24(0x0A01_0203);
    Shift24(0x0B01_0203);
  }

  lemma Shift24(n: nat)
    ensures ShiftRight(n, 24) == n / 0x100_0000
  {
    Shift8(n);
    Shift8(n / 0x100);
    Shift8(n / 0x100 / 0x100);
    ShiftSum(n, 8, 16);
    ShiftSum(ShiftRight(n, 8), 8, 8);
  }

  lemma Shift8(n: nat)
    ensures ShiftRight(n, 8) == n / 0x100
  {
    ShiftMore(n, 0);
    ShiftMore(n, 1);
    ShiftMore(n, 2);
    ShiftMore(n, 3);
    ShiftMore(n, 4);
    ShiftMore(n, 5);
    ShiftMore(n, 6);
    ShiftMore(n, 7);
  }

  lemma {:induction false} ShiftSum(n: nat, j: nat, k: nat)
    ensures ShiftRight(n, j + k) == ShiftRight(ShiftRight(n, j), k)
  {
    if j > 0 {
      ShiftSum(n / 2, j - 1, k);
    }
  }

  /** Addresses come out of parsing and resolving in 32 bits. */
  ghost predicate InRange(net: Net) {
    && (forall s :: net.parseAddress(s).Some? && net.parseAddress(s).value.V4? ==>
          net.parseAddress(s).value.n < 0x1_0000_0000)
    && (forall s :: net.parsePrefix(s).Some? && net.parsePrefix(s).value.v4 ==>
          net.parsePrefix(s).value.addr < 0x1_0000_0000)
    && (forall s, a | net.resolve(s).Some? && a in net.resolve(s).value :: a.V4? ==> a.n < 0x1_0000_0000)
  }

  /** An address rule: no host, and an IPv4 prefix that has its leading bits in common with n. */
  predicate CoversAddress(net: Net, r: RawRule, n: nat) {
    var prefix := net.parsePrefix(net.trim(r.cidr));
    && net.lower(net.trim(r.host)) == ""
    && prefix.Some? && prefix.value.v4 && prefix.value.bits <= 32
    && TopBitsAgree(prefix.value.addr, n, prefix.value.bits)
  }

  /** A host rule: the name itself, or with "*." in front the name and everything that ends in a
      dot and the name. */
  ghost predicate CoversName(net: Net, r: RawRule, name: string) {
    var host := net.lower(net.trim(r.host));
    && host != ""
    && if |host| >= 2 && host[0] == '*' && host[1] == '.' then
         host[2..] != "" && (name == host[2..] || exists front :: name == front + "." + host[2..])
       else name == host
  }

  predicate OnPort(r: RawRule, port: int) {
    if r.ports == [] then port == 443 else port in r.ports
  }

  /** What one rule is meant to let through. */
  ghost predicate LetsThrough(net: Net, r: RawRule, name: string, port: int) {
    && OnPort(r, port)
    && match net.parseAddress(name)
       case Some(V4(n)) => CoversAddress(net, r, n)
       case _ =>
         || CoversName(net, r, name)
         || (net.resolve(name).Some? && exists a | a in net.resolve(name).value :: a.V4? && CoversAddress(net, r, a.n))
  }

  lemma SuffixIsFront(name: string, tail: string)
    ensures HasSuffix(name, tail) <==> exists front :: name == front + tail
  {
    if HasSuffix(name, tail) {
      assert name == name[..|name| - |tail|] + tail;
    }
    if front :| name == front + tail {
      assert name[|front|..] == tail;
    }
  }

  lemma NameRuleMeans(net: Net, r: RawRule, name: string, port: int)
    ensures PermitsName(net, r, name, port) <==> OnPort(r, port) && CoversName(net, r, name)
  {
    var host := net.Name(r.host);
    assert HasPrefix(host, "*.") <==> |host| >= 2 && host[0] == '*' && host[1] == '.' by {
      assert |host| >= 2 ==> host[..2] == [host[0], host[1]];
    }
    if HasPrefix(host, "*.") {
      SuffixIsFront(name, "." + host[2..]);
      assert forall front: string :: front + ("." + host[2..]) == front + "." + host[2..];
    }
  }

  lemma AddressRuleMeans(net: Net, r: RawRule, n: nat, port: int)
    requires InRange(net) && n < 0x1_0000_0000
    ensures PermitsAddress(net, r, n, port) <==> OnPort(r, port) && CoversAddress(net, r, n)
  {
    var prefix := net.parsePrefix(net.trim(r.cidr));
    if prefix.Some? && prefix.value.v4 {
      CoversTopBits(prefix.value, n);
    }
  }

  lemma RuleMeans(net: Net, r: RawRule, host: string, port: int)
    requires InRange(net)
    ensures Permits(net, r, host, port) <==>
            net.Name(host) != "" && 0 < port <= 65535 && LetsThrough(net, r, net.Name(host), port)
  {
    var name := net.Name(host);
    NameRuleMeans(net, r, name, port);
    forall n: nat | n < 0x1_0000_0000
      ensures PermitsAddress(net, r, n, port) <==> OnPort(r, port) && CoversAddress(net, r, n)
    {
      AddressRuleMeans(net, r, n, port);
    }
  }

  /** The proxy lets a request through exactly when its name is not empty, its port is a port, and
      some rule lets it through: on 443 unless the rule lists ports; an IPv4 address by an address
      rule with the same leading bits; any other name by a host rule, or by an address rule on one
      of the IPv4 addresses it resolves to. */
  lemma DecisionWrittenOut(net: Net, rules: seq<RawRule>, host: string, port: int)
    requires InRange(net)
    ensures Decides(net, Loaded(net, rules), host, port) <==>
            && net.lower(net.trim(host)) != "" && 1 <= port <= 65535
            && exists r | r in rules :: LetsThrough(net, r, net.lower(net.trim(host)), port)
  {
    DecisionMeans(net, rules, host, port);
    forall r | r in rules
      ensures Permits(net, r, host, port) <==>
              net.Name(host) != "" && 0 < port <= 65535 && LetsThrough(net, r, net.Name(host), port)
    {
      RuleMeans(net, r, host, port);
    }
  }

  /** What makes a rule acceptable. */
  predicate Sound(net: Net, r: RawRule) {
    var proto, host, cidr := net.lower(net.trim(r.protocol)), net.lower(net.trim(r.host)), net.trim(r.cidr);
    && (proto == "" || proto == "tcp")
    && (forall p | p in r.ports :: 1 <= p <= 65535)
    && (host == "" <==> cidr != "")
    && (host == "" ==> net.parsePrefix(cidr).Some?)
  }

  lemma {:induction false} BadPortIs(ports: seq<int>)
    ensures BadPortIn(ports).None? <==> forall p | p in ports :: 1 <= p <= 65535
    ensures BadPortIn(ports).Some? ==>
              exists i | 0 <= i < |ports| ::
                ports[i] == BadPortIn(ports).value && !(1 <= ports[i] <= 65535)
                && forall j | 0 <= j < i :: 1 <= ports[j] <= 65535
  {
    if ports != [] {
      BadPortIs(ports[1..]);
      assert ports == [ports[0]] + ports[1..] && ports[0] in ports;
      if !(1 <= ports[0] <= 65535) {
        assert ports[0] == BadPortIn(ports).value;
      } else if BadPortIn(ports).Some? {
        var i :| 0 <= i < |ports[1..]| && ports[1..][i] == BadPortIn(ports).value
                 && !(1 <= ports[1..][i] <= 65535) && forall j | 0 <= j < i :: 1 <= ports[1..][j] <= 65535;
        assert ports[i + 1] == ports[1..][i] && ports[i + 1] in ports;
        assert forall j | 0 < j < i + 1 :: ports[j] == ports[1..][j - 1];
      }
    }
  }

  /** The loader, and with it the validator, accepts exactly the lists of sound rules, and otherwise
      names the problem of the first rule that is not. */
  lemma {:induction false} AcceptedWrittenOut(net: Net, rules: seq<RawRule>)
    ensures FirstLoaderProblem(net, rules).None? <==> forall r | r in rules :: Sound(net, r)
    ensures FirstLoaderProblem(net, rules).Some? ==>
              exists i | 0 <= i < |rules| ::
                && !Sound(net, rules[i]) && (forall j | 0 <= j < i :: Sound(net, rules[j]))
                && FirstLoaderProblem(net, rules) == LoaderProblem(net, rules[i])
  {
    if rules != [] {
      var rest := rules[1..];
      BadPortIs(rules[0].ports);
      assert LoaderProblem(net, rules[0]).None? <==> Sound(net, rules[0]);
      AcceptedWrittenOut(net, rest);
      assert rules == [rules[0]] + rest;
      if LoaderProblem(net, rules[0]).Some? {
        assert !Sound(net, rules[0]);
      } else if FirstLoaderProblem(net, rest).Some? {
        var i :| 0 <= i < |rest| && !Sound(net, rest[i]) && (forall j | 0 <= j < i :: Sound(net, rest[j]))
                 && FirstLoaderProblem(net, rest) == LoaderProblem(net, rest[i]);
        assert rules[i + 1] == rest[i];
        assert forall j | 0 < j < i + 1 :: rules[j] == rest[j - 1];
      }
    }
  }

  /** The problem named is one the rule has, and the first of them in the order they are tested. */
  lemma ProblemIsReal(net: Net, r: RawRule)
    ensures var proto, host, cidr := net.lower(net.trim(r.protocol)), net.lower(net.trim(r.host)), net.trim(r.cidr);
            var goodProto, goodPorts := proto == "" || proto == "tcp", forall p | p in r.ports :: 1 <= p <= 65535;
            match LoaderProblem(net, r)
            case None => Sound(net, r)
            case Some(BadProtocol) => !goodProto
            case Some(BadPort(port)) => goodProto && port in r.ports && !(1 <= port <= 65535)
            case Some(NoTarget) => goodProto && goodPorts && host == "" && cidr == ""
            case Some(TwoTargets) => goodProto && goodPorts && host != "" && cidr != ""
            case Some(BadCidr) => goodProto && goodPorts && host == "" && cidr != "" && net.parsePrefix(cidr).None?
  {
    BadPortIs(r.ports);
  }

  // ---------------------------------------------------------------------------------------
  // The loops
  // ---------------------------------------------------------------------------------------

  method CheckPorts(ports: seq<int>) returns (bad: Option<int>)
    ensures bad == BadPortIn(ports)
  {
    var i := 0;
    while i < |ports|
      invariant 0 <= i <= |ports|
      invariant BadPortIn(ports) == BadPortIn(ports[i..])
    {
      if ports[i] <= 0 || ports[i] > 65535 {
        return Some(ports[i]);
      }
      i := i + 1;
    }
    bad := None;
  }

  method ValidateNetworkAllowlist(net: Net, rules: seq<RawRule>) returns (problem: Option<Problem>)
    ensures problem == FirstValidatorProblem(net, rules)
  {
    var i := 0;
    while i < |rules|
      invariant 0 <= i <= |rules|
      invariant FirstValidatorProblem(net, rules) == FirstValidatorProblem(net, rules[i..])
    {
      var r := rules[i];
      i := i + 1;
      var proto := net.Name(r.protocol);
      if proto == "" {
        proto := "tcp";
      }
      if proto != "tcp" {
        return Some(BadProtocol);
      }
      var ports := r.ports;
      if |ports| == 0 {
        ports := [443];
      }
      var bad := CheckPorts(ports);
      if bad.Some? {
        return Some(BadPort(bad.value));
      }
      var host, cidr := net.trim(r.host), net.trim(r.cidr);
      if host == "" && cidr == "" {
        return Some(NoTarget);
      }
      if host != "" && cidr != "" {
        return Some(TwoTargets);
      }
      if cidr != "" {
        if net.parsePrefix(cidr).None? {
          return Some(BadCidr);
        }
      }
    }
    problem := None;
  }

  /** Either the first problem, or the compiled rules. */
  method LoadAllowlist(net: Net, rules: seq<RawRule>) returns (problem: Option<Problem>, loaded: Rules)
    ensures problem == FirstLoaderProblem(net, rules)
    ensures problem.None? ==> loaded == Loaded(net, rules)
  {
    loaded := Rules([], []);
    var i := 0;
    while i < |rules|
      invariant 0 <= i <= |rules|
      invariant FirstLoaderProblem(net, rules) == FirstLoaderProblem(net, rules[i..])
      invariant loaded == Loaded(net, rules[..i])
    {
      var r := rules[i];
      assert rules[..i + 1][..i] == rules[..i];
      var problem' := CheckRule(net, r);
      if problem'.Some? {
        return problem', loaded;
      }
      i := i + 1;
      var ports := r.ports;
      if |ports| == 0 {
        ports := [443];
      }
      var portSet := set p | p in ports;
      assert portSet == Ports(r);
      var host, cidr := net.Name(r.host), net.trim(r.cidr);
      if host != "" {
        loaded := loaded.(hosts := loaded.hosts + [CompileHost(host, portSet)]);
        continue;
      }
      var prefix := net.parsePrefix(cidr);
      if !prefix.value.v4 {
        continue;
      }
      loaded := loaded.(cidrs := loaded.cidrs + [CidrRule(prefix.value, portSet)]);
    }
    assert rules[..i] == rules;
    problem := None;
  }

  method CheckRule(net: Net, r: RawRule) returns (problem: Option<Problem>)
    ensures problem == LoaderProblem(net, r)
  {
    var proto := net.Name(r.protocol);
    if proto == "" {
      proto := "tcp";
    }
    if proto != "tcp" {
      return Some(BadProtocol);
    }
    var ports := r.ports;
    if |ports| == 0 {
      ports := [443];
    }
    var bad := CheckPorts(ports);
    if bad.Some? {
      return Some(BadPort(bad.value));
    }
    var host, cidr := net.Name(r.host), net.trim(r.cidr);
    if host == "" && cidr == "" {
      return Some(NoTarget);
    }
    if host != "" && cidr != "" {
      return Some(TwoTargets);
    }
    if host == "" && net.parsePrefix(cidr).None? {
      return Some(BadCidr);
    }
    problem := None;
  }

  method AllowedAddress(loaded: Rules, n: nat, port: int) returns (yes: bool)
    ensures yes <==> AddressHit(loaded, n, port)
  {
    var i := 0;
    while i < |loaded.cidrs|
      invariant 0 <= i <= |loaded.cidrs|
      invariant forall j | 0 <= j < i :: !CidrRuleMatches(loaded.cidrs[j], n, port)
    {
      var r := loaded.cidrs[i];
      i := i + 1;
      if port !in r.ports {
        continue;
      }
      if Covers(r.prefix, n) {
        assert r in loaded.cidrs && CidrRuleMatches(r, n, port);
        return true;
      }
    }
    yes := false;
  }

  method MatchesHost(loaded: Rules, name: string, port: int) returns (yes: bool)
    ensures yes <==> NameHit(loaded, name, port)
  {
    var i := 0;
    while i < |loaded.hosts|
      invariant 0 <= i <= |loaded.hosts|
      invariant forall j | 0 <= j < i :: !HostRuleMatches(loaded.hosts[j], name, port)
    {
      var r := loaded.hosts[i];
      i := i + 1;
      if port !in r.ports {
        continue;
      }
      if r.exact != "" && name == r.exact {
        assert r in loaded.hosts && HostRuleMatches(r, name, port);
        return true;
      }
      if r.wildcard != "" && (name == r.wildcard || HasSuffix(name, "." + r.wildcard)) {
        assert r in loaded.hosts && HostRuleMatches(r, name, port);
        return true;
      }
    }
    yes := false;
  }

  method Allowed(net: Net, loaded: Rules, host: string, port: int) returns (yes: bool)
    ensures yes <==> Decides(net, loaded, host, port)
  {
    var name := net.Name(host);
    if name == "" || port <= 0 || port > 65535 {
      return false;
    }
    var literal := net.parseAddress(name);
    if literal.Some? && literal.value.V4? {
      yes := AllowedAddress(loaded, literal.value.n, port);
      return;
    }
    var named := MatchesHost(loaded, name, port);
    if named {
      return true;
    }
    var found := net.resolve(name);
    if found.None? {
      return false;
    }
    var i := 0;
    while i < |found.value|
      invariant 0 <= i <= |found.value|
      invariant forall j | 0 <= j < i :: !(found.value[j].V4? && AddressHit(loaded, found.value[j].n, port))
    {
      var a := found.value[i];
      i := i + 1;
      if !a.V4? {
        continue;
      }
      var ok := AllowedAddress(loaded, a.n, port);
      if ok {
        return true;
      }
    }
    yes := false;
  }
}
