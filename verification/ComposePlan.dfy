/** The end of planning a compose project: which service the app is named after (pickComposeMain) and
    what each request is given (planCompose, both in controllers/compose.go). */
module ComposePlan {
  import opened Common
  import opened ComposeDeploy
  import P = PublishDomain

  datatype ServicePlan = ServicePlan(name: string, image: string, published: bool, ports: seq<int>)

  /** How good a service is for the main one, best first; isDatabase tells by a name or an image. */
  function Rank(isDatabase: string -> bool, project: string, s: ServicePlan): nat {
    if s.name == project then 0
    else if s.published && !isDatabase(s.name) && !isDatabase(s.image) then 1
    else if s.published then 2
    else 3
  }

  ghost predicate FirstOfBest(isDatabase: string -> bool, project: string, services: seq<ServicePlan>, at: int) {
    && 0 <= at < |services|
    && (forall j :: 0 <= j < |services| ==>
          Rank(isDatabase, project, services[at]) <= Rank(isDatabase, project, services[j]))
    && (forall j :: 0 <= j < at ==> Rank(isDatabase, project, services[at]) < Rank(isDatabase, project, services[j]))
  }

  /** pickComposeMain: the first of the best. */
  method PickMain(isDatabase: string -> bool, project: string, services: seq<ServicePlan>) returns (main: string)
    requires services != []
    ensures exists at :: FirstOfBest(isDatabase, project, services, at) && services[at].name == main
  {
    for i := 0 to |services|
      invariant forall j :: 0 <= j < i ==> Rank(isDatabase, project, services[j]) > 0
    {
      if services[i].name == project {
        assert FirstOfBest(isDatabase, project, services, i);
        return services[i].name;
      }
    }
    for i := 0 to |services|
      invariant forall j :: 0 <= j < i ==> Rank(isDatabase, project, services[j]) > 1
    {
      if services[i].published && !isDatabase(services[i].name) && !isDatabase(services[i].image) {
        assert FirstOfBest(isDatabase, project, services, i);
        return services[i].name;
      }
    }
    for i := 0 to |services|
      invariant forall j :: 0 <= j < i ==> Rank(isDatabase, project, services[j]) > 2
    {
      if services[i].published {
        assert FirstOfBest(isDatabase, project, services, i);
        return services[i].name;
      }
    }
    assert FirstOfBest(isDatabase, project, services, 0);
    return services[0].name;
  }

  /** Which service that is: the project's namesake, or the first published one that is no database, or the first
      published one, or the first of all. */
  lemma MainIs(isDatabase: string -> bool, project: string, services: seq<ServicePlan>, at: nat)
    requires FirstOfBest(isDatabase, project, services, at)
    ensures (exists i :: 0 <= i < |services| && services[i].name == project) ==> services[at].name == project
    ensures var open := i => 0 <= i < |services| && services[i].published && !isDatabase(services[i].name) &&
                             !isDatabase(services[i].image);
            var shown := i => 0 <= i < |services| && services[i].published;
            (forall i :: 0 <= i < |services| ==> services[i].name != project) ==>
              && ((exists i :: open(i)) ==> open(at) && forall i :: 0 <= i < at ==> !open(i))
              && ((forall i :: !open(i)) && (exists i :: shown(i)) ==>
                    shown(at) && forall i :: 0 <= i < at ==> !shown(i))
              && ((forall i :: !shown(i)) ==> at == 0)
  {
    assert forall i :: 0 <= i < |services| ==>
        Rank(isDatabase, project, services[at]) <= Rank(isDatabase, project, services[i]);
    if forall i :: 0 <= i < |services| ==> !services[i].published {
      assert at > 0 ==> Rank(isDatabase, project, services[at]) < Rank(isDatabase, project, services[0]);
    }
  }

  /** A request as planComposeService leaves it. */
  predicate Drafted(s: ServicePlan, req: Request) {
    req.name == s.name && req.owner == "" && req.component == "" && req.domains == None
  }

  function HostFor(project: string, domain: string, name: string): string {
    if name == project then project + "." + domain else name + "-" + project + "." + domain
  }

  function Assigned(main: string, project: string, domain: string, s: ServicePlan, req: Request): Request {
    var owned := if s.name == main then req else req.(owner := main, component := s.name);
    if s.published && s.ports != [] then
      owned.(domains := Some([P.Domain(HostFor(project, domain, s.name), s.ports[0], "")]))
    else owned
  }

  /** What a request is given: every service but the main one is a component of the main one, and a published service
      has its first port under the project's host or under its own. */
  lemma GivenIs(main: string, project: string, domain: string, s: ServicePlan, req: Request, given: Request)
    requires given == Assigned(main, project, domain, s, req)
    ensures given == req.(owner := given.owner, component := given.component, domains := given.domains)
    ensures s.name == main ==> given.owner == req.owner && given.component == req.component
    ensures s.name != main ==> given.owner == main && given.component == s.name
    ensures s.published && s.ports != [] && s.name == project ==>
              given.domains == Some([P.Domain(project + "." + domain, s.ports[0], "")])
    ensures s.published && s.ports != [] && s.name != project ==>
              given.domains == Some([P.Domain(s.name + "-" + project + "." + domain, s.ports[0], "")])
    ensures !s.published || s.ports == [] ==> given.domains == req.domains
  {
  }

  /** The end of planCompose: every request is given its owner, and its domain if it is published. */
  method AssignOwners(isDatabase: string -> bool, project: string, domain: string, services: seq<ServicePlan>,
                      drafts: seq<Request>) returns (plan: Plan)
    requires services != [] && |drafts| == |services|
    requires forall i :: 0 <= i < |services| ==> Drafted(services[i], drafts[i]) && !Blank(services[i].name)
    requires forall i, p :: 0 <= i < |services| && p in services[i].ports ==> p > 0
    requires forall i, j :: 0 <= i < j < |services| ==> services[i].name != services[j].name
    ensures Planned(plan) && exists i :: 0 <= i < |services| && services[i].name == plan.main
    ensures |plan.requests| == |services|
    ensures forall i :: 0 <= i < |services| ==>
          plan.requests[i] == Assigned(plan.main, project, domain, services[i], drafts[i])
  {
    var main := PickMain(isDatabase, project, services);
    ghost var at :| FirstOfBest(isDatabase, project, services, at) && services[at].name == main;
    assert !Blank(services[at].name);
    var requests := drafts;
    for i := 0 to |services|
      invariant |requests| == |drafts|
      invariant forall k :: 0 <= k < i ==> requests[k] == Assigned(main, project, domain, services[k], drafts[k])
      invariant forall k :: i <= k < |drafts| ==> requests[k] == drafts[k]
    {
      var (s, req) := (services[i], requests[i]);
      if s.name != main { req := req.(owner := main, component := s.name); }
      if s.published && s.ports != [] {
        var host := s.name + "-" + project + "." + domain;
        if s.name == project { host := project + "." + domain; }
        req := req.(domains := Some([P.Domain(host, s.ports[0], "")]));
      }
      assert req == Assigned(main, project, domain, s, drafts[i]);
      requests := requests[i := req];
    }
    plan := Plan(main, requests);
    AssignedIsPlanned(main, project, domain, services, drafts, requests);
  }

  lemma AssignedIsPlanned(main: string, project: string, domain: string, services: seq<ServicePlan>,
                          drafts: seq<Request>, requests: seq<Request>)
    requires main != "" && |drafts| == |services| == |requests|
    requires forall i :: 0 <= i < |services| ==> Drafted(services[i], drafts[i]) && !Blank(services[i].name)
    requires forall i, p :: 0 <= i < |services| && p in services[i].ports ==> p > 0
    requires forall i, j :: 0 <= i < j < |services| ==> services[i].name != services[j].name
    requires forall i :: 0 <= i < |services| ==> requests[i] == Assigned(main, project, domain, services[i], drafts[i])
    ensures Planned(Plan(main, requests))
  {
    forall i | 0 <= i < |requests|
      ensures OwnerOf(requests[i]) == main && WellRouted(requests[i]) && requests[i].name == services[i].name
    {
      assert services[i].ports != [] ==> services[i].ports[0] in services[i].ports;
      AssignedIsRouted(main, project, domain, services[i], drafts[i]);
    }
  }

  lemma AssignedIsRouted(main: string, project: string, domain: string, s: ServicePlan, req: Request)
    requires Drafted(s, req) && main != "" && !Blank(s.name) && (s.ports != [] ==> s.ports[0] > 0)
    ensures OwnerOf(Assigned(main, project, domain, s, req)) == main
    ensures WellRouted(Assigned(main, project, domain, s, req))
  {
    var k :| 0 <= k < |s.name| && !IsUnicodeSpace(s.name[k]);
    var host := HostFor(project, domain, s.name);
    assert host[k] == s.name[k] && !Blank(host);
  }
}
