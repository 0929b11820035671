/** Publishing an app on a domain (mcpPublishDomain in controllers/mcp_tools.go), down to the
    Ingress it rebuilds: domainsOf, validDomains and reconcileAppIngress in controllers/launchpad.go,
    buildIngressSpec in controllers/ingress.go with its map of hosts in any order. */
module PublishDomain {
  import opened Common

  datatype Path = Path(path: string, pathType: string, service: string, port: int)

  datatype Rule = Rule(host: string, paths: seq<Path>)

  datatype Tls = Tls(hosts: seq<string>, secret: string)

  datatype Ingress = Ingress(className: Option<string>, rules: seq<Rule>, tls: seq<Tls>, labels: map<string, string>)

  datatype Domain = Domain(host: string, port: int, className: string)

  const ManagedBy := "app.kubernetes.io/managed-by"
  const Instance := "app.kubernetes.io/instance"

  function OwnershipLabels(name: string): map<string, string> { map[ManagedBy := "casos"][Instance := name] }

  predicate Owned(ing: Ingress, name: string) {
    && ManagedBy in ing.labels && ing.labels[ManagedBy] == "casos"
    && Instance in ing.labels && ing.labels[Instance] == name
  }

  // ----- the domains an Ingress answers on -----

  function DomainOf(rule: Rule, className: Option<string>): Domain {
    Domain(rule.host, if rule.paths == [] then 0 else rule.paths[0].port,
           if className.Some? then className.value else "")
  }

  function Domains(ing: Option<Ingress>): seq<Domain> {
    if ing.None? then [] else DomainsOfRules(ing.value.rules, ing.value.className)
  }

  function DomainsOfRules(rules: seq<Rule>, className: Option<string>): seq<Domain> {
    if rules == [] then []
    else DomainsOfRules(rules[..|rules| - 1], className) + [DomainOf(rules[|rules| - 1], className)]
  }

  predicate IsValid(d: Domain) { !Blank(d.host) && d.port > 0 }

  function ValidOnly(ds: seq<Domain>): seq<Domain> {
    if ds == [] then []
    else ValidOnly(ds[..|ds| - 1]) + if IsValid(ds[|ds| - 1]) then [ds[|ds| - 1]] else []
  }

  function FirstClass(ds: seq<Domain>): string {
    if ds == [] then ""
    else if FirstClass(ds[..|ds| - 1]) != "" then FirstClass(ds[..|ds| - 1])
    else ds[|ds| - 1].className
  }

  function Ported(fold: string -> string, d: Domain, host: string, port: int): Domain {
    if fold(d.host) == fold(host) then d.(port := port) else d
  }

  function AllPorted(fold: string -> string, ds: seq<Domain>, host: string, port: int): seq<Domain> {
    if ds == [] then []
    else AllPorted(fold, ds[..|ds| - 1], host, port) + [Ported(fold, ds[|ds| - 1], host, port)]
  }

  predicate Mentions(fold: string -> string, ds: seq<Domain>, host: string) {
    exists i :: 0 <= i < |ds| && fold(ds[i].host) == fold(host)
  }

  /** The domain is given its new port wherever it is already listed, and added where it is not. */
  function Asked(fold: string -> string, ds: seq<Domain>, host: string, port: int): seq<Domain> {
    AllPorted(fold, ds, host, port) + if Mentions(fold, ds, host) then [] else [Domain(host, port, "")]
  }

  lemma {:induction false} DomainsOfRulesAt(rules: seq<Rule>, className: Option<string>)
    ensures var ds := DomainsOfRules(rules, className);
            |ds| == |rules| && forall i :: 0 <= i < |rules| ==> ds[i] == DomainOf(rules[i], className)
    decreases |rules|
  {
    if rules != [] { DomainsOfRulesAt(rules[..|rules| - 1], className); }
  }

  lemma {:induction false} AllPortedAt(fold: string -> string, ds: seq<Domain>, host: string, port: int)
    ensures var now := AllPorted(fold, ds, host, port);
            |now| == |ds| && forall i :: 0 <= i < |ds| ==> now[i] == Ported(fold, ds[i], host, port)
    decreases |ds|
  {
    if ds != [] { AllPortedAt(fold, ds[..|ds| - 1], host, port); }
  }

  function Route(name: string, port: int): Path { Path("/", "Prefix", name, port) }

  function PathsOf(ds: seq<Domain>, host: string, name: string): seq<Path> {
    if ds == [] then []
    else
      var last := ds[|ds| - 1];
      PathsOf(ds[..|ds| - 1], host, name) + if last.host == host then [Route(name, last.port)] else []
  }

  predicate Lists(ds: seq<Domain>, host: string) { exists i :: 0 <= i < |ds| && ds[i].host == host }

  /** One rule for each host, in any order, with every path listed for it. */
  ghost predicate Grouped(rules: seq<Rule>, ds: seq<Domain>, name: string) {
    && (forall i, j :: 0 <= i < j < |rules| ==> rules[i].host != rules[j].host)
    && (forall i :: 0 <= i < |rules| ==> Lists(ds, rules[i].host) && rules[i].paths == PathsOf(ds, rules[i].host, name))
    && (forall h :: Lists(ds, h) ==> Answers(rules, h))
  }

  ghost predicate Answers(rules: seq<Rule>, host: string) { exists i :: 0 <= i < |rules| && rules[i].host == host }

  /** What publishing leaves behind, whatever order the hosts come out in. */
  ghost predicate Published(fold: string -> string, name: string, before: Option<Ingress>, host: string, port: int,
                            after: Option<Ingress>) {
    Reconciled(name, before, Asked(fold, Domains(before), host, port), after)
  }

  class App {
    const name: string
    var ingress: Option<Ingress>

    constructor (name: string, ingress: Option<Ingress>)
      ensures this.name == name && this.ingress == ingress
    {
      this.name, this.ingress := name, ingress;
    }

    /** mcpPublishDomain. The container's own port serves when the caller gives none. answers and writes say
        whether the calls that read answer, and whether the one that changes the Ingress works. */
    method PublishDomain(fold: string -> string, host: string, asked: Option<int>, exposed: seq<int>, answers: bool,
                         writes: bool) returns (ok: bool)
      modifies this
      ensures var port := if asked.Some? then asked.value else if exposed != [] then exposed[0] else 0;
              && (ok <==> port != 0 && answers
                          && (Changes(name, old(ingress), Asked(fold, Domains(old(ingress)), host, port)) ==> writes))
              && (ok ==> Published(fold, name, old(ingress), host, port, ingress))
      ensures !ok ==> unchanged(this)
    {
      var port := 0;
      if asked.Some? { port := asked.value; } else if exposed != [] { port := exposed[0]; }
      if port == 0 || !answers { return false; }
      var domains := DomainsOf(ingress);
      domains := Repoint(fold, domains, host, port);
      ok := ReconcileIngress(domains, answers, writes);
    }

    static method Repoint(fold: string -> string, listed: seq<Domain>, host: string, port: int)
        returns (domains: seq<Domain>)
      ensures domains == Asked(fold, listed, host, port)
    {
      domains := listed;
      var replaced := false;
      AllPortedAt(fold, listed, host, port);
      for i := 0 to |domains|
        invariant |domains| == |listed|
        invariant forall k :: 0 <= k < i ==> domains[k] == AllPorted(fold, listed, host, port)[k]
        invariant forall k :: i <= k < |listed| ==> domains[k] == listed[k]
        invariant replaced <==> Mentions(fold, listed[..i], host)
      {
        if fold(domains[i].host) == fold(host) {
          domains := domains[i := domains[i].(port := port)];
          replaced := true;
        }
      }
      assert listed[..|listed|] == listed;
      assert domains == AllPorted(fold, listed, host, port);
      if !replaced { domains := domains + [Domain(host, port, "")]; }
    }

    static method DomainsOf(ing: Option<Ingress>) returns (ds: seq<Domain>)
      ensures ds == Domains(ing)
    {
      ds := [];
      if ing.None? { return; }
      var rules := ing.value.rules;
      for i := 0 to |rules|
        invariant ds == DomainsOfRules(rules[..i], ing.value.className)
      {
        assert rules[..i + 1][..i] == rules[..i];
        ds := ds + [DomainOf(rules[i], ing.value.className)];
      }
      assert rules[..|rules|] == rules;
    }

    /** reconcileAppIngress, for an app that names the domains. */
    method ReconcileIngress(domains: seq<Domain>, answers: bool, writes: bool) returns (ok: bool)
      modifies this
      ensures ok <==> answers && (Changes(name, old(ingress), domains) ==> writes)
      ensures !ok ==> unchanged(this)
      ensures ok ==> Reconciled(name, old(ingress), domains, ingress)
    {
      if !answers { return false; }
      var kept := ValidDomains(domains);
      if kept == [] {
        if ingress.Some? && Owned(ingress.value, name) {
          if !writes { return false; }
          ingress := None;
        }
        return true;
      }
      var className := "";
      for i := 0 to |kept|
        invariant className == FirstClass(kept[..i])
      {
        assert kept[..i + 1][..i] == kept[..i];
        if className == "" { className := kept[i].className; }
      }
      assert kept[..|kept|] == kept;
      var rules := BuildRules(kept, name);
      var named := if className == "" then None else Some(className);
      if !writes { return false; }
      if ingress.None? {
        ingress := Some(Ingress(named, rules, [], OwnershipLabels(name)));
        assert map[] + OwnershipLabels(name) == OwnershipLabels(name);
      } else {
        ingress := Some(Ingress(named, rules, ingress.value.tls, ingress.value.labels + OwnershipLabels(name)));
      }
      return true;
    }

    static method ValidDomains(ds: seq<Domain>) returns (kept: seq<Domain>)
      ensures kept == ValidOnly(ds)
    {
      kept := [];
      for i := 0 to |ds|
        invariant kept == ValidOnly(ds[..i])
      {
        assert ds[..i + 1][..i] == ds[..i];
        if IsValid(ds[i]) { kept := kept + [ds[i]]; }
      }
      assert ds[..|ds|] == ds;
    }

    /** buildIngressSpec: the rules are gathered by host, then listed in no particular order. */
    static method BuildRules(ds: seq<Domain>, name: string) returns (rules: seq<Rule>)
      ensures Grouped(rules, ds, name)
    {
      var byHost := PathsByHost(ds, name);
      rules := [];
      var left := byHost.Keys;
      while left != {}
        invariant left <= byHost.Keys && Listed(rules, byHost, left)
        decreases left
      {
        var host :| host in left;
        ListNext(rules, byHost, left, host);
        rules := rules + [Rule(host, byHost[host])];
        left := left - {host};
      }
      GroupedFrom(rules, byHost, ds, name);
    }

    static method PathsByHost(ds: seq<Domain>, name: string) returns (byHost: map<string, seq<Path>>)
      ensures Gathered(byHost, ds, name)
    {
      byHost := map[];
      for i := 0 to |ds|
        invariant Gathered(byHost, ds[..i], name)
      {
        var found := if ds[i].host in byHost then byHost[ds[i].host] else [];
        GatherNext(byHost, ds, i, name);
        byHost := byHost[ds[i].host := found + [Route(name, ds[i].port)]];
      }
      assert ds[..|ds|] == ds;
    }
  }

  /** It has something to create, rewrite or delete. */
  predicate Changes(name: string, before: Option<Ingress>, domains: seq<Domain>) {
    ValidOnly(domains) != [] || (before.Some? && Owned(before.value, name))
  }

  /** What reconcileAppIngress leaves behind. */
  ghost predicate Reconciled(name: string, before: Option<Ingress>, domains: seq<Domain>, after: Option<Ingress>) {
    var kept := ValidOnly(domains);
    if kept == [] then after == if before.Some? && Owned(before.value, name) then None else before
    else
      && after.Some?
      && Grouped(after.value.rules, kept, name)
      && after.value.className == (if FirstClass(kept) == "" then None else Some(FirstClass(kept)))
      && after.value.tls == (if before.Some? then before.value.tls else [])
      && after.value.labels == (if before.Some? then before.value.labels else map[]) + OwnershipLabels(name)
  }

  ghost predicate Gathered(byHost: map<string, seq<Path>>, ds: seq<Domain>, name: string) {
    forall h :: GatheredFor(byHost, ds, name, h)
  }

  ghost predicate GatheredFor(byHost: map<string, seq<Path>>, ds: seq<Domain>, name: string, h: string) {
    (h in byHost <==> Lists(ds, h)) && PathsOf(ds, h, name) == if h in byHost then byHost[h] else []
  }

  lemma ListsNext(ds: seq<Domain>, i: nat, h: string)
    requires i < |ds|
    ensures Lists(ds[..i + 1], h) <==> Lists(ds[..i], h) || h == ds[i].host
  {
    var (some, more) := (ds[..i], ds[..i + 1]);
    assert more[i] == ds[i];
    if Lists(some, h) {
      var k :| 0 <= k < i && some[k].host == h;
      assert more[k].host == h;
    }
    if Lists(more, h) && h != ds[i].host {
      var k :| 0 <= k < i + 1 && more[k].host == h;
      assert some[k].host == h;
    }
  }

  lemma GatherNext(byHost: map<string, seq<Path>>, ds: seq<Domain>, i: nat, name: string)
    requires i < |ds| && Gathered(byHost, ds[..i], name)
    ensures var found := if ds[i].host in byHost then byHost[ds[i].host] else [];
            Gathered(byHost[ds[i].host := found + [Route(name, ds[i].port)]], ds[..i + 1], name)
  {
    var found := if ds[i].host in byHost then byHost[ds[i].host] else [];
    var more := byHost[ds[i].host := found + [Route(name, ds[i].port)]];
    var sofar := ds[..i + 1];
    forall h ensures GatheredFor(more, sofar, name, h) {
      assert GatheredFor(byHost, ds[..i], name, h);
      ListsNext(ds, i, h);
      PathsNext(ds, i, h, name);
    }
  }

  lemma PathsNext(ds: seq<Domain>, i: nat, h: string, name: string)
    requires i < |ds|
    ensures PathsOf(ds[..i + 1], h, name)
          == PathsOf(ds[..i], h, name) + if ds[i].host == h then [Route(name, ds[i].port)] else []
  {
    assert ds[..i + 1][..i] == ds[..i] && ds[..i + 1][i] == ds[i];
  }

  ghost predicate Listed(rules: seq<Rule>, byHost: map<string, seq<Path>>, left: set<string>) {
    && (forall i, j :: 0 <= i < j < |rules| ==> rules[i].host != rules[j].host)
    && (forall i :: 0 <= i < |rules| ==>
          rules[i].host in byHost && rules[i].host !in left && rules[i].paths == byHost[rules[i].host])
    && (forall h :: h in byHost && h !in left ==> Answers(rules, h))
  }

  lemma ListNext(rules: seq<Rule>, byHost: map<string, seq<Path>>, left: set<string>, host: string)
    requires Listed(rules, byHost, left) && host in left && left <= byHost.Keys
    ensures Listed(rules + [Rule(host, byHost[host])], byHost, left - {host})
  {
    var more := rules + [Rule(host, byHost[host])];
    assert more[|rules|].host == host;
    forall h | h in byHost && h !in left - {host} ensures Answers(more, h) {
      if h != host {
        var i :| 0 <= i < |rules| && rules[i].host == h;
        assert more[i].host == h;
      }
    }
  }

  lemma GroupedFrom(rules: seq<Rule>, byHost: map<string, seq<Path>>, ds: seq<Domain>, name: string)
    requires Listed(rules, byHost, {}) && Gathered(byHost, ds, name)
    ensures Grouped(rules, ds, name)
  {
    forall i | 0 <= i < |rules| ensures Lists(ds, rules[i].host) && rules[i].paths == PathsOf(ds, rules[i].host, name) {
      assert GatheredFor(byHost, ds, name, rules[i].host);
    }
    forall h | Lists(ds, h) ensures Answers(rules, h) {
      assert GatheredFor(byHost, ds, name, h);
    }
  }

  // ----- one publish -----

  /** Hosts that differ beyond their case, none blank, each with a port that can be routed to. */
  ghost predicate Good(fold: string -> string, rules: seq<Rule>) {
    && (forall i, j :: 0 <= i < j < |rules| ==> fold(rules[i].host) != fold(rules[j].host))
    && (forall i :: 0 <= i < |rules| ==> GoodRule(rules[i]))
  }

  predicate GoodRule(rule: Rule) { !Blank(rule.host) && rule.paths != [] && rule.paths[0].port > 0 }

  function RulesOf(ing: Option<Ingress>): seq<Rule> { if ing.None? then [] else ing.value.rules }

  ghost predicate Serves(ing: Option<Ingress>, host: string, port: int) {
    exists i :: 0 <= i < |RulesOf(ing)| && RulesOf(ing)[i].host == host && FirstPort(RulesOf(ing)[i]) == port
  }

  function FirstPort(rule: Rule): int { if rule.paths == [] then 0 else rule.paths[0].port }

  ghost predicate Knows(fold: string -> string, ing: Option<Ingress>, host: string) {
    exists i :: 0 <= i < |RulesOf(ing)| && fold(RulesOf(ing)[i].host) == fold(host)
  }

  lemma {:induction false} ValidOnlyListed(ds: seq<Domain>, d: Domain)
    ensures d in ValidOnly(ds) <==> d in ds && IsValid(d)
    decreases |ds|
  {
    if ds != [] {
      var n := |ds| - 1;
      ValidOnlyListed(ds[..n], d);
      assert ds == ds[..n] + [ds[n]];
    }
  }

  lemma {:induction false} AllValidKept(ds: seq<Domain>)
    requires forall i :: 0 <= i < |ds| ==> IsValid(ds[i])
    ensures ValidOnly(ds) == ds
    decreases |ds|
  {
    if ds != [] {
      var n := |ds| - 1;
      AllValidKept(ds[..n]);
      assert ds == ds[..n] + [ds[n]];
    }
  }

  lemma {:induction false} NoPaths(ds: seq<Domain>, host: string, name: string)
    requires !Lists(ds, host)
    ensures PathsOf(ds, host, name) == []
    decreases |ds|
  {
    if ds != [] {
      var n := |ds| - 1;
      ListsNext(ds, n, host);
      assert ds[..n + 1] == ds;
      NoPaths(ds[..n], host, name);
    }
  }

  lemma {:induction false} OnePath(ds: seq<Domain>, i: nat, name: string)
    requires i < |ds| && forall a, b :: 0 <= a < b < |ds| ==> ds[a].host != ds[b].host
    ensures PathsOf(ds, ds[i].host, name) == [Route(name, ds[i].port)]
    decreases |ds|
  {
    var n := |ds| - 1;
    if i < n { OnePath(ds[..n], i, name); } else { NoPaths(ds[..n], ds[i].host, name); }
  }

  /** What the host answers with after a publish: the new port where only case sets it apart from
      the host published, and what it answered with before everywhere else. */
  ghost predicate NowServes(fold: string -> string, before: Option<Ingress>, host: string, port: int, h: string,
                            p: int) {
    if fold(h) != fold(host) then Serves(before, h, p)
    else p == port && (Answers(RulesOf(before), h) || (h == host && !Knows(fold, before, host)))
  }

  datatype Publish = Publish(host: string, port: int)

  ghost predicate PublishedStep(fold: string -> string, name: string, before: Option<Ingress>, op: Publish,
                                after: Option<Ingress>) {
    !Blank(op.host) && op.port > 0 && Published(fold, name, before, op.host, op.port, after)
  }

  /** What a publish is good for, on an Ingress in good order. */
  ghost predicate Effect(fold: string -> string, name: string, before: Option<Ingress>, op: Publish,
                         after: Option<Ingress>) {
    Good(fold, RulesOf(before)) ==>
      && after.Some? && Good(fold, RulesOf(after))
      && (forall i :: 0 <= i < |RulesOf(after)| ==> SingleRoute(RulesOf(after)[i], name))
      && (forall h, p :: Serves(after, h, p) <==> NowServes(fold, before, op.host, op.port, h, p))
  }

  /** From an Ingress in good order, publishing leaves one in good order: each host keeps one rule
      with one route, the port changes for the host published and for no other, nothing is lost. */
  lemma PublishKeepsGood(fold: string -> string, name: string, before: Option<Ingress>, op: Publish,
                         after: Option<Ingress>)
    ensures PublishedStep(fold, name, before, op, after) ==> Effect(fold, name, before, op, after)
  {
    if PublishedStep(fold, name, before, op, after) && Good(fold, RulesOf(before)) {
      AskedIsGood(fold, before, op.host, op.port);
      var ds := Asked(fold, Domains(before), op.host, op.port);
      GroupedIsGood(fold, ds, RulesOf(after), name);
      GroupedServes(fold, name, before, op.host, op.port, after);
    }
  }

  lemma GroupedServes(fold: string -> string, name: string, before: Option<Ingress>, host: string, port: int,
                      after: Option<Ingress>)
    requires Grouped(RulesOf(after), Asked(fold, Domains(before), host, port), name)
    requires GoodDomains(fold, Asked(fold, Domains(before), host, port))
    ensures forall h, p :: Serves(after, h, p) <==> NowServes(fold, before, host, port, h, p)
  {
    forall h, p ensures Serves(after, h, p) <==> NowServes(fold, before, host, port, h, p) {
      AfterServes(fold, Asked(fold, Domains(before), host, port), after, name, h, p);
      AskedOffers(fold, before, host, port, h, p);
    }
  }

  /** Of the rule of another host only the host and the first port come through a publish. */
  lemma OtherRuleBecomes(fold: string -> string, name: string, before: Option<Ingress>, op: Publish,
                         after: Option<Ingress>, i: nat)
    requires i < |RulesOf(before)| && fold(RulesOf(before)[i].host) != fold(op.host)
    ensures PublishedStep(fold, name, before, op, after) && Good(fold, RulesOf(before)) ==>
              var rule := RulesOf(before)[i];
              forall r :: r in RulesOf(after) && r.host == rule.host <==>
                   r == Rule(rule.host, [Route(name, FirstPort(rule))])
  {
    if PublishedStep(fold, name, before, op, after) && Good(fold, RulesOf(before)) {
      var ds := Asked(fold, Domains(before), op.host, op.port);
      AskedIsGood(fold, before, op.host, op.port);
      AskedHosts(fold, before, op.host, op.port);
      OneRule(fold, name, ds, RulesOf(after), i);
    }
  }

  lemma OneRule(fold: string -> string, name: string, ds: seq<Domain>, rules: seq<Rule>, k: nat)
    requires Grouped(rules, ds, name) && GoodDomains(fold, ds) && k < |ds|
    ensures forall r :: r in rules && r.host == ds[k].host <==> r == Rule(ds[k].host, [Route(name, ds[k].port)])
  {
    OnePath(ds, k, name);
    assert Lists(ds, ds[k].host);
    var i :| 0 <= i < |rules| && rules[i].host == ds[k].host;
    assert rules[i] == Rule(ds[k].host, [Route(name, ds[k].port)]);
  }

  /** The rule of another host is as it was exactly when it was one route from the root to the app's
      own Service: further paths, and other Services, are lost. */
  lemma OtherRuleKeptIff(fold: string -> string, name: string, before: Option<Ingress>, op: Publish,
                         after: Option<Ingress>, i: nat)
    requires i < |RulesOf(before)| && fold(RulesOf(before)[i].host) != fold(op.host)
    ensures PublishedStep(fold, name, before, op, after) && Good(fold, RulesOf(before)) ==>
              var rule := RulesOf(before)[i];
              rule in RulesOf(after) <==> rule.paths == [Route(name, FirstPort(rule))]
  {
    OtherRuleBecomes(fold, name, before, op, after, i);
  }

  // An Ingress that sends part of a host to another Service, and what publishing a second host makes of it.

  const SplitRule := Rule("a.example", [Path("/", "Prefix", "web", 80), Path("/api", "Prefix", "api", 8080)])

  const Split := Ingress(None, [SplitRule], [], map[])

  function SplitPublished(): Ingress {
    Ingress(None, [Rule("a.example", [Route("web", 80)]), Rule("b.example", [Route("web", 80)])], [],
            OwnershipLabels("web"))
  }

  /** The parts of a publish make one. */
  lemma PublishedIs(fold: string -> string, name: string, b: Ingress, op: Publish, ds: seq<Domain>, after: Ingress)
    requires ds == Asked(fold, Domains(Some(b)), op.host, op.port) && ValidOnly(ds) == ds && ds != []
    requires FirstClass(ds) == "" && after.className == None && after.tls == b.tls
    requires after.labels == b.labels + OwnershipLabels(name) && Grouped(after.rules, ds, name)
    ensures Published(fold, name, Some(b), op.host, op.port, Some(after))
  {
  }

  lemma {:induction false} SplitIsPublished(fold: string -> string)
    requires fold("a.example") != fold("b.example")
    ensures PublishedStep(fold, "web", Some(Split), Publish("b.example", 80), Some(SplitPublished()))
  {
    SplitAsked(fold);
    SplitHosts();
    assert map[] + OwnershipLabels("web") == OwnershipLabels("web");
    PairPublished(fold, "web", Split, Domain("a.example", 80, ""), Domain("b.example", 80, ""), SplitPublished());
  }

  lemma {:induction false} PairPublished(fold: string -> string, name: string, before: Ingress, a: Domain, d: Domain,
                                         after: Ingress)
    requires Asked(fold, Domains(Some(before)), d.host, d.port) == [a, d]
    requires IsValid(a) && IsValid(d) && a.host != d.host && a.className == d.className == ""
    requires after == Ingress(None, [Rule(a.host, [Route(name, a.port)]), Rule(d.host, [Route(name, d.port)])],
                              before.tls, before.labels + OwnershipLabels(name))
    ensures PublishedStep(fold, name, Some(before), Publish(d.host, d.port), Some(after))
  {
    AllValidKept([a, d]);
    PairGrouped(a, d, name);
    Unclassed([a, d]);
    PublishedIs(fold, name, before, Publish(d.host, d.port), [a, d], after);
  }

  lemma SplitAsked(fold: string -> string)
    requires fold("a.example") != fold("b.example")
    ensures Asked(fold, Domains(Some(Split)), "b.example", 80)
          == [Domain("a.example", 80, ""), Domain("b.example", 80, "")]
  {
    var a := Domain("a.example", 80, "");
    DomainOfOne(SplitRule, None);
    OneMoreAsked(fold, a, "b.example", 80);
  }

  lemma DomainOfOne(rule: Rule, className: Option<string>)
    ensures DomainsOfRules([rule], className) == [DomainOf(rule, className)]
  {
    assert [rule][..0] == [];
  }

  lemma OneMoreAsked(fold: string -> string, d: Domain, host: string, port: int)
    requires fold(d.host) != fold(host)
    ensures Asked(fold, [d], host, port) == [d, Domain(host, port, "")]
  {
    assert [d][..0] == [];
    assert AllPorted(fold, [d], host, port) == [d];
    assert !Mentions(fold, [d], host);
  }

  lemma SplitHosts()
    ensures !Blank("a.example") && !Blank("b.example") && "a.example" != "b.example"
  {
    assert !IsUnicodeSpace("a.example"[0]) && !IsUnicodeSpace("b.example"[0]);
    assert "a.example"[0] != "b.example"[0];
  }

  lemma SplitIsGoodAndLost(fold: string -> string)
    ensures Good(fold, Split.rules) && SplitRule !in SplitPublished().rules
  {
    SplitHosts();
    assert |SplitRule.paths| == 2;
  }

  lemma PairGrouped(a: Domain, b: Domain, name: string)
    requires a.host != b.host
    ensures Grouped([Rule(a.host, [Route(name, a.port)]), Rule(b.host, [Route(name, b.port)])], [a, b], name)
  {
    var (ds, rules) := ([a, b], [Rule(a.host, [Route(name, a.port)]), Rule(b.host, [Route(name, b.port)])]);
    OnePath(ds, 0, name);
    OnePath(ds, 1, name);
    assert Lists(ds, a.host) by { assert ds[0] == a; }
    assert Lists(ds, b.host) by { assert ds[1] == b; }
    forall h | Lists(ds, h) ensures Answers(rules, h) {
      assert rules[0].host == a.host && rules[1].host == b.host;
    }
  }

  ghost predicate SingleRoute(rule: Rule, name: string) { exists p :: rule.paths == [Route(name, p)] }

  ghost predicate Offers(ds: seq<Domain>, host: string, port: int) {
    exists k :: 0 <= k < |ds| && ds[k].host == host && ds[k].port == port
  }

  ghost predicate GoodDomains(fold: string -> string, ds: seq<Domain>) {
    && (forall i :: 0 <= i < |ds| ==> IsValid(ds[i]))
    && (forall i, j :: 0 <= i < j < |ds| ==> fold(ds[i].host) != fold(ds[j].host))
  }

  lemma AskedIsGood(fold: string -> string, before: Option<Ingress>, host: string, port: int)
    requires Good(fold, RulesOf(before)) && !Blank(host) && port > 0
    ensures var ds := Asked(fold, Domains(before), host, port); ds != [] && GoodDomains(fold, ds) && ValidOnly(ds) == ds
  {
    AskedAreGood(fold, before, host, port);
    AllValidKept(Asked(fold, Domains(before), host, port));
  }

  lemma AskedAreGood(fold: string -> string, before: Option<Ingress>, host: string, port: int)
    requires Good(fold, RulesOf(before)) && !Blank(host) && port > 0
    ensures var ds := Asked(fold, Domains(before), host, port); ds != [] && GoodDomains(fold, ds)
  {
    AskedHosts(fold, before, host, port);
    var (rules, ds) := (RulesOf(before), Asked(fold, Domains(before), host, port));
    forall i | 0 <= i < |ds| ensures IsValid(ds[i]) {
      if i < |rules| { assert GoodRule(rules[i]); }
    }
  }

  lemma GroupedIsGood(fold: string -> string, ds: seq<Domain>, rules: seq<Rule>, name: string)
    requires Grouped(rules, ds, name) && GoodDomains(fold, ds)
    ensures Good(fold, rules)
    ensures forall i :: 0 <= i < |rules| ==> SingleRoute(rules[i], name)
  {
    forall i | 0 <= i < |rules| ensures SingleRoute(rules[i], name) && GoodRule(rules[i]) {
      var k := GroupedFromOne(fold, ds, rules, name, i);
    }
    forall i, j | 0 <= i < j < |rules| ensures fold(rules[i].host) != fold(rules[j].host) {
      var k := GroupedFromOne(fold, ds, rules, name, i);
      var l := GroupedFromOne(fold, ds, rules, name, j);
    }
  }

  lemma GroupedFromOne(fold: string -> string, ds: seq<Domain>, rules: seq<Rule>, name: string, i: nat) returns (k: nat)
    requires Grouped(rules, ds, name) && GoodDomains(fold, ds) && i < |rules|
    ensures k < |ds| && ds[k].host == rules[i].host && IsValid(ds[k]) && rules[i].paths == [Route(name, ds[k].port)]
  {
    assert Lists(ds, rules[i].host);
    k :| 0 <= k < |ds| && ds[k].host == rules[i].host;
    OnePath(ds, k, name);
  }

  lemma AfterServes(fold: string -> string, ds: seq<Domain>, after: Option<Ingress>, name: string, h: string, p: int)
    requires Grouped(RulesOf(after), ds, name) && GoodDomains(fold, ds)
    ensures Serves(after, h, p) <==> Offers(ds, h, p)
  {
    var rules := RulesOf(after);
    if Serves(after, h, p) {
      var i :| 0 <= i < |rules| && rules[i].host == h && FirstPort(rules[i]) == p;
      var k := GroupedFromOne(fold, ds, rules, name, i);
    }
    if Offers(ds, h, p) {
      var k :| 0 <= k < |ds| && ds[k].host == h && ds[k].port == p;
      assert Lists(ds, h);
      var i :| 0 <= i < |rules| && rules[i].host == h;
      OnePath(ds, k, name);
      assert FirstPort(rules[i]) == p;
    }
  }

  lemma AskedOffers(fold: string -> string, before: Option<Ingress>, host: string, port: int, h: string, p: int)
    ensures Offers(Asked(fold, Domains(before), host, port), h, p) <==> NowServes(fold, before, host, port, h, p)
  {
    var (rules, ds) := (RulesOf(before), Asked(fold, Domains(before), host, port));
    AskedHosts(fold, before, host, port);
    if NowServes(fold, before, host, port, h, p) {
      if fold(h) != fold(host) {
        var i :| 0 <= i < |rules| && rules[i].host == h && FirstPort(rules[i]) == p;
        assert ds[i].host == h && ds[i].port == p;
      } else if Answers(rules, h) {
        var i :| 0 <= i < |rules| && rules[i].host == h;
        assert ds[i].host == h && ds[i].port == p;
      } else {
        assert ds[|rules|].host == h && ds[|rules|].port == p;
      }
    }
  }

  /** The domains asked for, one by one: those of the rules, and at most the new one. */
  lemma AskedHosts(fold: string -> string, before: Option<Ingress>, host: string, port: int)
    ensures var (rules, ds) := (RulesOf(before), Asked(fold, Domains(before), host, port));
            && |ds| == |rules| + (if Knows(fold, before, host) then 0 else 1)
            && (forall i :: 0 <= i < |rules| ==> ds[i].host == rules[i].host)
            && (forall i :: 0 <= i < |rules| ==>
                  ds[i].port == if fold(rules[i].host) == fold(host) then port else FirstPort(rules[i]))
            && (!Knows(fold, before, host) ==> ds[|rules|] == Domain(host, port, ""))
  {
    DomainsAt(before);
    AskedAt(fold, Domains(before), host, port);
  }

  lemma DomainsAt(ing: Option<Ingress>)
    ensures var (rules, ds) := (RulesOf(ing), Domains(ing));
            && |ds| == |rules|
            && forall i :: 0 <= i < |rules| ==> ds[i].host == rules[i].host && ds[i].port == FirstPort(rules[i])
  {
    if ing.Some? { DomainsOfRulesAt(ing.value.rules, ing.value.className); }
  }

  lemma AskedAt(fold: string -> string, was: seq<Domain>, host: string, port: int)
    ensures var ds := Asked(fold, was, host, port);
            && |ds| == |was| + (if Mentions(fold, was, host) then 0 else 1)
            && (forall i :: 0 <= i < |was| ==> ds[i] == Ported(fold, was[i], host, port))
            && (!Mentions(fold, was, host) ==> ds[|was|] == Domain(host, port, ""))
  {
    AllPortedAt(fold, was, host, port);
  }

  // ----- exactly what one publish keeps, whatever Ingress was there -----

  /** Changing a letter's case makes no host blank. */
  ghost predicate KeepsBlank(fold: string -> string) { forall s, t :: fold(s) == fold(t) ==> (Blank(s) <==> Blank(t)) }

  lemma SomethingIsKept(fold: string -> string, before: Option<Ingress>, host: string, port: int)
    requires KeepsBlank(fold) && !Blank(host) && port > 0
    ensures ValidOnly(Asked(fold, Domains(before), host, port)) != []
  {
    var ds := Asked(fold, Domains(before), host, port);
    AskedHosts(fold, before, host, port);
    var k := |RulesOf(before)|;
    if Knows(fold, before, host) { k :| 0 <= k < |RulesOf(before)| && fold(RulesOf(before)[k].host) == fold(host); }
    ValidOnlyListed(ds, ds[k]);
  }

  lemma ListsValid(ds: seq<Domain>, h: string)
    ensures Lists(ValidOnly(ds), h) <==> exists k :: 0 <= k < |ds| && ds[k].host == h && IsValid(ds[k])
  {
    var kept := ValidOnly(ds);
    if Lists(kept, h) {
      var k :| 0 <= k < |kept| && kept[k].host == h;
      ValidOnlyListed(ds, kept[k]);
    }
    if k :| 0 <= k < |ds| && ds[k].host == h && IsValid(ds[k]) {
      ValidOnlyListed(ds, ds[k]);
    }
  }

  /** Some rule of the host has a route to a port. */
  ghost predicate HasPort(rules: seq<Rule>, host: string) {
    exists i :: 0 <= i < |rules| && rules[i].host == host && FirstPort(rules[i]) > 0
  }

  /** A host the app answers on is still answered exactly when it is not blank and either is the
      host published or has a route with a port; a host added by hand without one is dropped. */
  lemma HostKeptIff(fold: string -> string, name: string, before: Option<Ingress>, host: string, port: int,
                    after: Option<Ingress>, h: string)
    requires Published(fold, name, before, host, port, after) && KeepsBlank(fold) && !Blank(host) && port > 0
    requires Answers(RulesOf(before), h)
    ensures Answers(RulesOf(after), h) <==>
              !Blank(h) && (fold(h) == fold(host) || HasPort(RulesOf(before), h))
  {
    var ds := Asked(fold, Domains(before), host, port);
    SomethingIsKept(fold, before, host, port);
    assert Answers(RulesOf(after), h) <==> Lists(ValidOnly(ds), h);
    ListsValid(ds, h);
    AskedHosts(fold, before, host, port);
    ValidIff(fold, RulesOf(before), ds, host, port, h);
  }

  lemma ValidIff(fold: string -> string, rules: seq<Rule>, ds: seq<Domain>, host: string, port: int, h: string)
    requires |ds| >= |rules| && Answers(rules, h) && port > 0
    requires forall i :: 0 <= i < |rules| ==> ds[i].host == rules[i].host
    requires forall i :: 0 <= i < |rules| ==>
               ds[i].port == if fold(rules[i].host) == fold(host) then port else FirstPort(rules[i])
    requires forall i :: |rules| <= i < |ds| ==> ds[i].host == host
    ensures (exists k :: 0 <= k < |ds| && ds[k].host == h && IsValid(ds[k])) <==>
              !Blank(h) && (fold(h) == fold(host) || HasPort(rules, h))
  {
    if !Blank(h) && fold(h) == fold(host) {
      var i :| 0 <= i < |rules| && rules[i].host == h;
      assert IsValid(ds[i]) && ds[i].host == h;
    } else if !Blank(h) && HasPort(rules, h) {
      var i :| 0 <= i < |rules| && rules[i].host == h && FirstPort(rules[i]) > 0;
      assert IsValid(ds[i]) && ds[i].host == h;
    }
    if k :| 0 <= k < |ds| && ds[k].host == h && IsValid(ds[k]) && fold(h) != fold(host) {
      assert rules[k].host == h && FirstPort(rules[k]) > 0;
    }
  }

  lemma {:induction false} FirstClassIs(ds: seq<Domain>, c: string)
    requires c != "" && forall i :: 0 <= i < |ds| ==> ds[i].className == c || ds[i].className == ""
    ensures FirstClass(ds) == c || FirstClass(ds) == ""
    ensures FirstClass(ds) == c <==> exists i :: 0 <= i < |ds| && ds[i].className == c
    decreases |ds|
  {
    if ds != [] {
      var n := |ds| - 1;
      FirstClassIs(ds[..n], c);
      if i :| 0 <= i < n && ds[i].className == c { assert ds[..n][i] == ds[i]; }
    }
  }

  predicate KeptRule(fold: string -> string, rule: Rule, host: string) {
    !Blank(rule.host) && (fold(rule.host) == fold(host) || FirstPort(rule) > 0)
  }

  lemma AskedClasses(fold: string -> string, b: Ingress, host: string, port: int, c: string)
    requires b.className == Some(c)
    ensures var ds := Asked(fold, Domains(Some(b)), host, port);
            forall i :: 0 <= i < |ds| ==> ds[i].className == if i < |b.rules| then c else ""
  {
    DomainsOfRulesAt(b.rules, b.className);
    AskedAt(fold, Domains(Some(b)), host, port);
  }

  lemma ValidOfClass(ds: seq<Domain>, n: nat, c: string)
    requires c != "" && n <= |ds| && forall i :: 0 <= i < |ds| ==> ds[i].className == if i < n then c else ""
    ensures FirstClass(ValidOnly(ds)) == c <==> exists i :: 0 <= i < n && IsValid(ds[i])
  {
    var kept := ValidOnly(ds);
    forall i | 0 <= i < |kept| ensures kept[i] in ds && IsValid(kept[i]) { ValidOnlyListed(ds, kept[i]); }
    FirstClassIs(kept, c);
    if i :| 0 <= i < n && IsValid(ds[i]) {
      ValidOnlyListed(ds, ds[i]);
    }
  }

  /** The Ingress keeps its class exactly when one of its rules is kept, there having been one. */
  lemma ClassKeptIff(fold: string -> string, name: string, b: Ingress, host: string, port: int, after: Option<Ingress>,
                     c: string)
    requires Published(fold, name, Some(b), host, port, after) && KeepsBlank(fold) && !Blank(host) && port > 0
    requires b.className == Some(c) && c != ""
    ensures after.Some?
    ensures (after.value.className == Some(c) <==> exists i :: 0 <= i < |b.rules| && KeptRule(fold, b.rules[i], host))
  {
    var ds := Asked(fold, Domains(Some(b)), host, port);
    SomethingIsKept(fold, Some(b), host, port);
    AskedClasses(fold, b, host, port, c);
    AskedHosts(fold, Some(b), host, port);
    ValidOfClass(ds, |b.rules|, c);
    assert forall i :: 0 <= i < |b.rules| ==> (IsValid(ds[i]) <==> KeptRule(fold, b.rules[i], host));
  }

  // ----- any run of publishes -----

  /** Publishes that went through, with the hosts and ports the callers let past. */
  ghost predicate IsRun(fold: string -> string, name: string, ings: seq<Option<Ingress>>, ops: seq<Publish>) {
    && |ings| == |ops| + 1
    && Good(fold, RulesOf(ings[0]))
    && forall i {:trigger ops[i]} :: 0 <= i < |ops| ==> PublishedStep(fold, name, ings[i], ops[i], ings[i + 1])
  }

  /** The port last published for the host in the first n publishes, or the one given where it never was. */
  function LastPort(fold: string -> string, ops: seq<Publish>, n: nat, host: string, otherwise: int): int
    requires n <= |ops|
  {
    if n == 0 then otherwise
    else if fold(ops[n - 1].host) == fold(host) then ops[n - 1].port
    else LastPort(fold, ops, n - 1, host, otherwise)
  }

  /** A host answered stays answered, with the new port when it is the one published. */
  lemma StepServes(fold: string -> string, name: string, before: Option<Ingress>, op: Publish, after: Option<Ingress>,
                   h: string, q: int)
    ensures Effect(fold, name, before, op, after) && Good(fold, RulesOf(before)) && Serves(before, h, q) ==>
              Serves(after, h, if fold(op.host) == fold(h) then op.port else q)
  {
    if Effect(fold, name, before, op, after) && Good(fold, RulesOf(before)) && Serves(before, h, q) {
      assert NowServes(fold, before, op.host, op.port, h, if fold(op.host) == fold(h) then op.port else q);
    }
  }

  /** Some spelling of the host is answered, with that port. */
  ghost predicate ServesSome(fold: string -> string, ing: Option<Ingress>, host: string, port: int) {
    exists h :: fold(h) == fold(host) && Serves(ing, h, port)
  }

  /** The host published is answered, the others go on being answered. */
  ghost predicate Carries(fold: string -> string, before: Option<Ingress>, op: Publish, after: Option<Ingress>) {
    && ServesSome(fold, after, op.host, op.port)
    && forall h, q :: ServesSome(fold, before, h, q) ==>
         ServesSome(fold, after, h, if fold(op.host) == fold(h) then op.port else q)
  }

  lemma StepCarries(fold: string -> string, name: string, before: Option<Ingress>, op: Publish, after: Option<Ingress>)
    requires Effect(fold, name, before, op, after) && Good(fold, RulesOf(before))
    ensures Carries(fold, before, op, after)
  {
    var h := op.host;
    if Knows(fold, before, h) {
      var i :| 0 <= i < |RulesOf(before)| && fold(RulesOf(before)[i].host) == fold(h);
      h := RulesOf(before)[i].host;
    }
    assert NowServes(fold, before, op.host, op.port, h, op.port);
    forall h, q | ServesSome(fold, before, h, q)
      ensures ServesSome(fold, after, h, if fold(op.host) == fold(h) then op.port else q)
    {
      var spelt :| fold(spelt) == fold(h) && Serves(before, spelt, q);
      StepServes(fold, name, before, op, after, spelt, q);
    }
  }

  lemma StepAddsOnlyPublished(fold: string -> string, name: string, before: Option<Ingress>, op: Publish,
                              after: Option<Ingress>, h: string)
    ensures Effect(fold, name, before, op, after) && Good(fold, RulesOf(before)) && Answers(RulesOf(after), h) ==>
              Answers(RulesOf(before), h) || h == op.host
  {
    if Effect(fold, name, before, op, after) && Good(fold, RulesOf(before)) && Answers(RulesOf(after), h) {
      var i :| 0 <= i < |RulesOf(after)| && RulesOf(after)[i].host == h;
      var p := FirstPort(RulesOf(after)[i]);
      assert Serves(after, h, p);
      assert NowServes(fold, before, op.host, op.port, h, p);
    }
  }

  ghost predicate HasEffects(fold: string -> string, name: string, ings: seq<Option<Ingress>>, ops: seq<Publish>) {
    && |ings| == |ops| + 1
    && Good(fold, RulesOf(ings[0]))
    && forall i {:trigger ops[i]} :: 0 <= i < |ops| ==> Effect(fold, name, ings[i], ops[i], ings[i + 1])
  }

  lemma RunHasEffects(fold: string -> string, name: string, ings: seq<Option<Ingress>>, ops: seq<Publish>)
    requires IsRun(fold, name, ings, ops)
    ensures HasEffects(fold, name, ings, ops)
  {
    forall i | 0 <= i < |ops| ensures Effect(fold, name, ings[i], ops[i], ings[i + 1]) {
      assert PublishedStep(fold, name, ings[i], ops[i], ings[i + 1]);
      PublishKeepsGood(fold, name, ings[i], ops[i], ings[i + 1]);
    }
  }

  lemma {:induction false} RunStaysGood(fold: string -> string, name: string, ings: seq<Option<Ingress>>,
                                        ops: seq<Publish>, n: nat)
    requires HasEffects(fold, name, ings, ops) && n <= |ops|
    ensures Good(fold, RulesOf(ings[n]))
  {
    if n > 0 {
      RunStaysGood(fold, name, ings, ops, n - 1);
      EffectIsGood(fold, name, ings[n - 1], ops[n - 1], ings[n]);
    }
  }

  lemma EffectIsGood(fold: string -> string, name: string, before: Option<Ingress>, op: Publish, after: Option<Ingress>)
    ensures Effect(fold, name, before, op, after) && Good(fold, RulesOf(before)) ==> Good(fold, RulesOf(after))
  {
  }

  /** After a publish every rule is one host with one route; no two are the same host. */
  lemma RunHasOneRouteEach(fold: string -> string, name: string, ings: seq<Option<Ingress>>, ops: seq<Publish>, n: nat)
    requires HasEffects(fold, name, ings, ops) && 0 < n <= |ops|
    ensures ings[n].Some? && Good(fold, RulesOf(ings[n]))
    ensures forall i :: 0 <= i < |RulesOf(ings[n])| ==> SingleRoute(RulesOf(ings[n])[i], name)
  {
    RunStaysGood(fold, name, ings, ops, n - 1);
    assert Effect(fold, name, ings[n - 1], ops[n - 1], ings[n]);
  }

  /** Nothing is lost over a run: a host goes on being answered, with the port last published for it. */
  lemma {:induction false} RunKeepsHosts(fold: string -> string, name: string, ings: seq<Option<Ingress>>,
                                         ops: seq<Publish>, n: nat, h: string, p: int)
    requires HasEffects(fold, name, ings, ops) && n <= |ops| && Serves(ings[0], h, p)
    ensures Serves(ings[n], h, LastPort(fold, ops, n, h, p))
  {
    if n > 0 {
      RunKeepsHosts(fold, name, ings, ops, n - 1, h, p);
      RunStaysGood(fold, name, ings, ops, n - 1);
      StepServes(fold, name, ings[n - 1], ops[n - 1], ings[n], h, LastPort(fold, ops, n - 1, h, p));
    }
  }

  ghost predicate AllCarry(fold: string -> string, ings: seq<Option<Ingress>>, ops: seq<Publish>) {
    |ings| == |ops| + 1 && forall i {:trigger ops[i]} :: 0 <= i < |ops| ==> Carries(fold, ings[i], ops[i], ings[i + 1])
  }

  lemma RunCarries(fold: string -> string, name: string, ings: seq<Option<Ingress>>, ops: seq<Publish>)
    requires HasEffects(fold, name, ings, ops)
    ensures AllCarry(fold, ings, ops)
  {
    forall i | 0 <= i < |ops| ensures Carries(fold, ings[i], ops[i], ings[i + 1]) {
      RunStaysGood(fold, name, ings, ops, i);
      StepCarries(fold, name, ings[i], ops[i], ings[i + 1]);
    }
  }

  /** Every host published is answered from then on, with the port last published for it. */
  lemma {:induction false} RunServesPublished(fold: string -> string, ings: seq<Option<Ingress>>, ops: seq<Publish>,
                                              k: nat, n: nat)
    requires AllCarry(fold, ings, ops) && k < n <= |ops|
    ensures ServesSome(fold, ings[n], ops[k].host, LastPort(fold, ops, n, ops[k].host, 0))
    decreases n
  {
    assert Carries(fold, ings[n - 1], ops[n - 1], ings[n]);
    if k < n - 1 { RunServesPublished(fold, ings, ops, k, n - 1); }
  }

  ghost predicate WasPublished(ops: seq<Publish>, n: nat, host: string)
    requires n <= |ops|
  {
    exists k :: 0 <= k < n && ops[k].host == host
  }

  /** No host is made up: each was there at the start or has been published. */
  lemma {:induction false} RunAddsOnlyPublished(fold: string -> string, name: string, ings: seq<Option<Ingress>>,
                                                ops: seq<Publish>, n: nat, h: string)
    requires HasEffects(fold, name, ings, ops) && n <= |ops| && Answers(RulesOf(ings[n]), h)
    ensures Answers(RulesOf(ings[0]), h) || WasPublished(ops, n, h)
  {
    if n > 0 {
      RunStaysGood(fold, name, ings, ops, n - 1);
      assert Effect(fold, name, ings[n - 1], ops[n - 1], ings[n]);
      StepAddsOnlyPublished(fold, name, ings[n - 1], ops[n - 1], ings[n], h);
      assert Answers(RulesOf(ings[n - 1]), h) || h == ops[n - 1].host;
      if Answers(RulesOf(ings[n - 1]), h) { RunAddsOnlyPublished(fold, name, ings, ops, n - 1, h); }
    }
  }

  /** There is a rule to read the class from. */
  ghost predicate Classed(ing: Option<Ingress>) {
    ing.Some? && ing.value.rules != [] && ing.value.className != Some("")
  }

  ghost predicate KeepsClass(before: Option<Ingress>, after: Option<Ingress>) {
    Classed(before) ==>
      Classed(after) && after.value.className == before.value.className && after.value.tls == before.value.tls
  }

  lemma StepKeepsClass(fold: string -> string, name: string, before: Option<Ingress>, op: Publish,
                       after: Option<Ingress>)
    requires KeepsBlank(fold)
    ensures PublishedStep(fold, name, before, op, after) && Good(fold, RulesOf(before)) ==> KeepsClass(before, after)
  {
    if PublishedStep(fold, name, before, op, after) && Good(fold, RulesOf(before)) && Classed(before) {
      var b := before.value;
      SomethingIsKept(fold, before, op.host, op.port);
      if b.className.Some? {
        assert KeptRule(fold, b.rules[0], op.host);
        ClassKeptIff(fold, name, b, op.host, op.port, after, b.className.value);
      } else {
        NoClass(fold, b, op.host, op.port);
      }
      PublishKeepsGood(fold, name, before, op, after);
      StepCarries(fold, name, before, op, after);
    }
  }

  ghost predicate AllKeepClass(ings: seq<Option<Ingress>>) {
    forall i :: 0 < i < |ings| ==> KeepsClass(ings[i - 1], ings[i])
  }

  lemma {:induction false} ClassKeptThroughout(ings: seq<Option<Ingress>>, n: nat)
    requires n < |ings| && Classed(ings[0]) && AllKeepClass(ings)
    ensures Classed(ings[n]) && ings[n].value.className == ings[0].value.className
    ensures ings[n].value.tls == ings[0].value.tls
  {
    if n > 0 { ClassKeptThroughout(ings, n - 1); }
  }

  /** The class and the certificates stay those of the Ingress the run began with. */
  lemma RunKeepsClassAndTls(fold: string -> string, name: string, ings: seq<Option<Ingress>>, ops: seq<Publish>, n: nat)
    requires IsRun(fold, name, ings, ops) && n <= |ops| && KeepsBlank(fold) && Classed(ings[0])
    ensures ings[n].Some? && ings[n].value.className == ings[0].value.className
    ensures ings[n].value.tls == ings[0].value.tls
  {
    RunGood(fold, name, ings, ops);
    StepsKeepClass(fold, name, ings, ops);
    ClassKeptThroughout(ings, n);
  }

  lemma RunGood(fold: string -> string, name: string, ings: seq<Option<Ingress>>, ops: seq<Publish>)
    requires IsRun(fold, name, ings, ops)
    ensures AllGood(fold, ings)
  {
    RunHasEffects(fold, name, ings, ops);
    forall i | 0 <= i < |ings| ensures Good(fold, RulesOf(ings[i])) { RunStaysGood(fold, name, ings, ops, i); }
  }

  ghost predicate AllGood(fold: string -> string, ings: seq<Option<Ingress>>) {
    forall i :: 0 <= i < |ings| ==> Good(fold, RulesOf(ings[i]))
  }

  lemma StepsKeepClass(fold: string -> string, name: string, ings: seq<Option<Ingress>>, ops: seq<Publish>)
    requires IsRun(fold, name, ings, ops) && KeepsBlank(fold)
    ensures AllGood(fold, ings) ==> AllKeepClass(ings)
  {
    if AllGood(fold, ings) {
      forall i | 0 < i < |ings| ensures KeepsClass(ings[i - 1], ings[i]) {
        StepKeepsClass(fold, name, ings[i - 1], ops[i - 1], ings[i]);
      }
    }
  }

  /** Over any run of publishes: each host answered at the start still is, and so is each one
      published, with the port last published for it; no other host is; each has one rule. */
  lemma RunPublishes(fold: string -> string, name: string, ings: seq<Option<Ingress>>, ops: seq<Publish>, n: nat)
    requires IsRun(fold, name, ings, ops) && n <= |ops|
    ensures Good(fold, RulesOf(ings[n]))
    ensures n > 0 ==> forall i :: 0 <= i < |RulesOf(ings[n])| ==> SingleRoute(RulesOf(ings[n])[i], name)
    ensures forall h, p | Serves(ings[0], h, p) :: Serves(ings[n], h, LastPort(fold, ops, n, h, p))
    ensures forall k | 0 <= k < n :: ServesSome(fold, ings[n], ops[k].host, LastPort(fold, ops, n, ops[k].host, 0))
    ensures forall h | Answers(RulesOf(ings[n]), h) :: Answers(RulesOf(ings[0]), h) || WasPublished(ops, n, h)
  {
    RunHasEffects(fold, name, ings, ops);
    RunStaysGood(fold, name, ings, ops, n);
    if n > 0 { RunHasOneRouteEach(fold, name, ings, ops, n); }
    forall h, p | Serves(ings[0], h, p) ensures Serves(ings[n], h, LastPort(fold, ops, n, h, p)) {
      RunKeepsHosts(fold, name, ings, ops, n, h, p);
    }
    RunCarries(fold, name, ings, ops);
    forall k | 0 <= k < n ensures ServesSome(fold, ings[n], ops[k].host, LastPort(fold, ops, n, ops[k].host, 0)) {
      RunServesPublished(fold, ings, ops, k, n);
    }
    forall h | Answers(RulesOf(ings[n]), h) ensures Answers(RulesOf(ings[0]), h) || WasPublished(ops, n, h) {
      RunAddsOnlyPublished(fold, name, ings, ops, n, h);
    }
  }

  lemma NoClass(fold: string -> string, b: Ingress, host: string, port: int)
    requires b.className.None?
    ensures FirstClass(ValidOnly(Asked(fold, Domains(Some(b)), host, port))) == ""
  {
    AskedUnclassed(fold, b, host, port);
    KeptUnclassed(Asked(fold, Domains(Some(b)), host, port));
  }

  lemma AskedUnclassed(fold: string -> string, b: Ingress, host: string, port: int)
    requires b.className.None?
    ensures AllUnclassed(Asked(fold, Domains(Some(b)), host, port))
  {
    DomainsOfRulesAt(b.rules, b.className);
    AskedAt(fold, Domains(Some(b)), host, port);
  }

  ghost predicate AllUnclassed(ds: seq<Domain>) { forall i :: 0 <= i < |ds| ==> ds[i].className == "" }

  lemma KeptUnclassed(ds: seq<Domain>)
    requires AllUnclassed(ds)
    ensures FirstClass(ValidOnly(ds)) == ""
  {
    var kept := ValidOnly(ds);
    forall i | 0 <= i < |kept| ensures kept[i].className == "" {
      ValidOnlyListed(ds, kept[i]);
      assert kept[i] in ds;
    }
    Unclassed(kept);
  }

  lemma {:induction false} Unclassed(ds: seq<Domain>)
    requires AllUnclassed(ds)
    ensures FirstClass(ds) == ""
    decreases |ds|
  {
    if ds != [] { Unclassed(ds[..|ds| - 1]); }
  }

  /** The class is the first one named. */
  lemma {:induction false} ClassIsFirst(ds: seq<Domain>, i: nat)
    requires i < |ds| && ds[i].className != "" && AllUnclassed(ds[..i])
    ensures FirstClass(ds) == ds[i].className
    decreases |ds|
  {
    var n := |ds| - 1;
    if i < n {
      assert ds[..n][..i] == ds[..i];
      ClassIsFirst(ds[..n], i);
    } else {
      Unclassed(ds[..n]);
    }
  }

  // ----- what is written -----

  /** With no domain left the Ingress goes, if it is marked as casos's and the app's, and that is a change. */
  lemma EmptiedIs(name: string, before: Option<Ingress>, domains: seq<Domain>, after: Option<Ingress>)
    requires Reconciled(name, before, domains, after) && ValidOnly(domains) == []
    ensures var ours := before.Some? && "app.kubernetes.io/managed-by" in before.value.labels
                        && before.value.labels["app.kubernetes.io/managed-by"] == "casos"
                        && "app.kubernetes.io/instance" in before.value.labels
                        && before.value.labels["app.kubernetes.io/instance"] == name;
            after == (if ours then None else before) && Changes(name, before, domains) == ours
  {
  }

  /** The domains kept are those with a host and a port, in order. */
  lemma {:induction false} ValidFilters(ds: seq<Domain>, keep: Domain -> bool)
    requires forall d :: keep(d) <==> !Blank(d.host) && d.port > 0
    ensures ValidOnly(ds) == Filter(ds, keep)
    decreases |ds|
  {
    if ds != [] { ValidFilters(ds[..|ds| - 1], keep); }
  }

  /** Every path is the root of a host and leads to the app's own Service, on a port there can be; the
      Ingress is marked as casos's and the app's, besides the labels it had. */
  lemma WrittenOut(name: string, before: Option<Ingress>, domains: seq<Domain>, after: Option<Ingress>)
    requires Reconciled(name, before, domains, after) && ValidOnly(domains) != []
    ensures after.Some? && Changes(name, before, domains)
    ensures forall r, p :: r in after.value.rules && p in r.paths ==>
              p.path == "/" && p.pathType == "Prefix" && p.service == name && p.port > 0
    ensures var labels := after.value.labels;
            && "app.kubernetes.io/managed-by" in labels && labels["app.kubernetes.io/managed-by"] == "casos"
            && "app.kubernetes.io/instance" in labels && labels["app.kubernetes.io/instance"] == name
    ensures before.Some? ==>
              forall k :: && k in before.value.labels
                          && k !in {"app.kubernetes.io/managed-by", "app.kubernetes.io/instance"}
                ==> k in after.value.labels && after.value.labels[k] == before.value.labels[k]
  {
    var kept := ValidOnly(domains);
    forall r, p | r in after.value.rules && p in r.paths
      ensures p.path == "/" && p.pathType == "Prefix" && p.service == name && p.port > 0
    {
      var i :| 0 <= i < |after.value.rules| && after.value.rules[i] == r;
      PathsAre(kept, r.host, name, p);
      var d :| d in kept && d.port == p.port;
      ValidOnlyListed(domains, d);
    }
  }

  lemma {:induction false} PathsAre(ds: seq<Domain>, host: string, name: string, p: Path)
    requires p in PathsOf(ds, host, name)
    ensures p.path == "/" && p.pathType == "Prefix" && p.service == name && exists d :: d in ds && d.port == p.port
    decreases |ds|
  {
    var n := |ds| - 1;
    if p in PathsOf(ds[..n], host, name) {
      PathsAre(ds[..n], host, name, p);
      var d :| d in ds[..n] && d.port == p.port;
      assert d in ds;
    } else {
      assert ds[n] in ds;
    }
  }
}
