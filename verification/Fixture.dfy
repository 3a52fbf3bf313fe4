/** The domain store of the evaluation fixture. */
module Fixture {
  import opened Wrappers
  import opened TreeDiff
  import Decimal
  import Text

  // The synthetic domain store of the evaluation fixture
  // (backend/app/evals/fixture_api.py, `FixtureStore`): trials bound to threads,
  // and an idempotent "update display name" action on their sites.

  datatype Site = Site(id: string, displayName: string, version: string)

  datatype Project = Project(id: string, name: string, siteId: string, version: string)

  datatype Catalog = Catalog(sites: map<string, Site>, projects: map<string, Project>)

  /** A value passed as an action parameter: a string or something else. */
  datatype Param = StrParam(text: string) | OtherParam(repr: string)

  /** The body of a domain action; equality of bodies is equality of their JSON dumps. */
  datatype ActionRequest = ActionRequest(
    targetType: string, targetId: string, parameters: map<string, Param>,
    reason: Option<string>, expectedVersion: Option<string>,
    actor: string, scopeHash: string, actionId: string, actionVersion: string,
    compensation: bool, extra: map<string, string>)

  /** The part of a reset request the store reads. */
  datatype ResetRequest = ResetRequest(
    trialId: string, threadId: string, scenario: string,
    principalId: string, scopeHash: string, siteIds: seq<string>,
    expectedAfter: Tree<string>)

  datatype Refusal =
    | ThreadBoundElsewhere | TrialNotFound | PayloadChanged | DomainRejected
    | SiteNotFound | AuthorizationMismatch | InvalidName | UnreadableVersion

  datatype Outcome = Updated(version: string) | Refused(why: Refusal)

  datatype Trial = Trial(
    request: ResetRequest, initial: Catalog, state: Catalog,
    results: map<string, (ActionRequest, string)>) // idempotency key -> body and resulting version

  // ---- Seeding -----------------------------------------------------------------

  function SiteId(index: nat): string {
    "site-demo-" + Index3(index)
  }

  /** `{index:03d}` */
  function Index3(index: nat): string {
    var s := Decimal.Print(index);
    if |s| >= 3 then s else if |s| == 2 then "0" + s else "00" + s
  }

  function SeedSites(count: nat): map<string, Site> {
    if count == 0 then map[]
    else
      var name := if count == 1 then "Old Display Name" else "Site " + Decimal.Print(count);
      SeedSites(count - 1)[SiteId(count) := Site(SiteId(count), name, "1")]
  }

  function SeedProjects(count: nat): map<string, Project> {
    if count == 0 then map[]
    else
      var id := "project-demo-" + Index3(count);
      SeedProjects(count - 1)[id := Project(id, "Public Demo Project " + Decimal.Print(count), SiteId(count), "1")]
  }

  function SiteCount(scenario: string): nat {
    if scenario == "one_visible_one_hidden" then 2
    else if scenario == "two_visible_one_hidden" then 3
    else if scenario == "three_tenant_sites" then 3
    else if scenario == "two_visible_projects" then 2
    else 1
  }

  function ProjectCount(scenario: string): nat {
    if scenario == "two_visible_projects" then 2 else if scenario == "one_project_visible" then 1 else 0
  }

  function Seed(scenario: string): Catalog {
    Catalog(SeedSites(SiteCount(scenario)), SeedProjects(ProjectCount(scenario)))
  }

  lemma {:induction false} SeedsAreVersionOne(count: nat)
    ensures forall s :: s in SeedSites(count) ==> SeedSites(count)[s].version == "1"
  {
    if count > 0 {
      SeedsAreVersionOne(count - 1);
    }
  }

  /** The n-th site as seeded. */
  predicate SeededSite(sites: map<string, Site>, id: string, name: string) {
    id in sites && sites[id] == Site(id, name, "1")
  }

  lemma FirstIds()
    ensures SiteId(1) == "site-demo-001" && SiteId(2) == "site-demo-002" && SiteId(3) == "site-demo-003"
    ensures Index3(1) == "001" && Index3(2) == "002" && Index3(3) == "003"
  {
    Decimal.PrintIs(0, 1);
    Decimal.PrintIs(0, 2);
    Decimal.PrintIs(0, 3);
  }

  /** What the scenarios are seeded with: one site unless they say otherwise. */
  lemma SeedsAre(scenario: string)
    ensures SeededSite(Seed(scenario).sites, "site-demo-001", "Old Display Name")
    ensures "site-demo-002" in Seed(scenario).sites
            <==> scenario in ["one_visible_one_hidden", "two_visible_one_hidden", "three_tenant_sites", "two_visible_projects"]
    ensures "site-demo-002" in Seed(scenario).sites ==> SeededSite(Seed(scenario).sites, "site-demo-002", "Site 2")
    ensures "site-demo-003" in Seed(scenario).sites <==> scenario in ["two_visible_one_hidden", "three_tenant_sites"]
    ensures "site-demo-003" in Seed(scenario).sites ==> SeededSite(Seed(scenario).sites, "site-demo-003", "Site 3")
    ensures Seed(scenario).sites.Keys <= {"site-demo-001", "site-demo-002", "site-demo-003"}
  {
    FirstIds();
    Decimal.PrintIs(0, 2);
    Decimal.PrintIs(0, 3);
    SeedStep(1);
    SeedStep(2);
    SeedStep(3);
    assert SeedSites(0) == map[];
  }

  lemma SeedStep(count: nat)
    requires count > 0
    ensures SeedSites(count)
            == SeedSites(count - 1)[SiteId(count) := Site(SiteId(count), if count == 1 then "Old Display Name" else "Site " + Decimal.Print(count), "1")]
  {
  }

  lemma SeedProject(count: nat)
    requires count > 0
    ensures var id := "project-demo-" + Index3(count);
            SeedProjects(count)
            == SeedProjects(count - 1)[id := Project(id, "Public Demo Project " + Decimal.Print(count), SiteId(count), "1")]
  {
  }

  /** ... and the projects of the two scenarios that have any. */
  lemma ProjectsAre(scenario: string)
    ensures var one := Project("project-demo-001", "Public Demo Project 1", "site-demo-001", "1");
            var two := Project("project-demo-002", "Public Demo Project 2", "site-demo-002", "1");
            Seed(scenario).projects
            == if scenario == "two_visible_projects" then map[one.id := one, two.id := two]
               else if scenario == "one_project_visible" then map[one.id := one]
               else map[]
  {
    FirstIds();
    Decimal.PrintIs(0, 1);
    Decimal.PrintIs(0, 2);
    assert "project-demo-" + "001" == "project-demo-001" && "project-demo-" + "002" == "project-demo-002";
    assert "Public Demo Project " + "1" == "Public Demo Project 1" && "Public Demo Project " + "2" == "Public Demo Project 2";
    SeedProject(1);
    SeedProject(2);
    assert SeedProjects(0) == map[];
  }

  // ---- The store ---------------------------------------------------------------

  function NewTrial(request: ResetRequest): Trial {
    Trial(request, Seed(request.scenario), Seed(request.scenario), map[])
  }

  predicate Authorized(trial: Trial, siteId: string, request: ActionRequest) {
    && request.targetType == "Site"
    && request.targetId == siteId
    && request.actor == trial.request.principalId
    && request.scopeHash == trial.request.scopeHash
    && request.actionId == "site.update_display_name"
    && siteId in trial.request.siteIds
  }

  /** The new name a request carries, if it is a string that is not blank. */
  function NewName(request: ActionRequest): Option<string> {
    if "name" !in request.parameters then None
    else
      match request.parameters["name"]
      case OtherParam(_) => None
      case StrParam(text) => if Text.Strip(text) == "" then None else Some(Text.Strip(text))
  }

  /** What an update answers, given the trial bound to its thread. */
  function Answer(trial: Trial, siteId: string, key: string, request: ActionRequest): Outcome {
    if key in trial.results then
      if trial.results[key].0 != request then Refused(PayloadChanged) else Updated(trial.results[key].1)
    else if trial.request.scenario == "action_domain_rejected" then Refused(DomainRejected)
    else if siteId !in trial.state.sites then Refused(SiteNotFound)
    else if !Authorized(trial, siteId, request) then Refused(AuthorizationMismatch)
    else if NewName(request).None? then Refused(InvalidName)
    else
      var version := Decimal.Parse(trial.state.sites[siteId].version);
      if version.None? then Refused(UnreadableVersion) else Updated(Decimal.Print(version.value + 1))
  }

  /** The trial after an update: changed only by a first, accepted use of the key. */
  function Applied(trial: Trial, siteId: string, key: string, request: ActionRequest): Trial {
    var answer := Answer(trial, siteId, key, request);
    if key in trial.results || answer.Refused? then trial
    else
      var site := trial.state.sites[siteId].(displayName := NewName(request).value, version := answer.version);
      trial.(state := trial.state.(sites := trial.state.sites[siteId := site]),
             results := trial.results[key := (request, answer.version)])
  }

  datatype StoreState = StoreState(trials: map<string, Trial>, threads: map<string, string>)

  /** The trial a thread is bound to; an empty trial id counts as unbound. */
  function Bound(s: StoreState, thread: string): Option<string> {
    if thread in s.threads && s.threads[thread] != "" && s.threads[thread] in s.trials then Some(s.threads[thread]) else None
  }

  predicate ResetRefused(s: StoreState, request: ResetRequest) {
    && request.threadId in s.threads && s.threads[request.threadId] != ""
    && s.threads[request.threadId] != request.trialId
  }

  function AfterReset(s: StoreState, request: ResetRequest): StoreState {
    if ResetRefused(s, request) then s
    else StoreState(s.trials[request.trialId := NewTrial(request)], s.threads[request.threadId := request.trialId])
  }

  function AfterUpdate(s: StoreState, thread: string, siteId: string, key: string, request: ActionRequest): StoreState {
    var id := Bound(s, thread);
    if id.None? then s
    else s.(trials := s.trials[id.value := Applied(s.trials[id.value], siteId, key, request)])
  }

  class FixtureStore {
    var trials: map<string, Trial>
    var trialByThread: map<string, string>

    ghost function View(): StoreState
      reads this
    {
      StoreState(trials, trialByThread)
    }

    constructor ()
      ensures View() == StoreState(map[], map[])
    {
      trials, trialByThread := map[], map[];
    }

    method Reset(request: ResetRequest) returns (state: Option<Catalog>)
      modifies this
      ensures View() == AfterReset(old(View()), request)
      ensures state.None? <==> ResetRefused(old(View()), request)
      ensures state.Some? ==> state.value == Seed(request.scenario)
    {
      var seeded := Seed(request.scenario);
      var trial := Trial(request, seeded, seeded, map[]);
      if request.threadId in trialByThread {
        var previous := trialByThread[request.threadId];
        if previous != "" && previous != request.trialId {
          return None;
        }
      }
      trials := trials[request.trialId := trial];
      trialByThread := trialByThread[request.threadId := request.trialId];
      return Some(seeded);
    }

    method UpdateDisplayName(thread: string, siteId: string, key: string, request: ActionRequest) returns (outcome: Outcome)
      modifies this
      ensures View() == AfterUpdate(old(View()), thread, siteId, key, request)
      ensures outcome == if Bound(old(View()), thread).None? then Refused(TrialNotFound)
                         else Answer(old(trials)[Bound(old(View()), thread).value], siteId, key, request)
    {
      if thread !in trialByThread || trialByThread[thread] == "" || trialByThread[thread] !in trials {
        return Refused(TrialNotFound);
      }
      var id := trialByThread[thread];
      var trial := trials[id];
      if key in trial.results {
        var (body, version) := trial.results[key];
        return if body != request then Refused(PayloadChanged) else Updated(version);
      }
      if trial.request.scenario == "action_domain_rejected" {
        return Refused(DomainRejected);
      }
      if siteId !in trial.state.sites {
        return Refused(SiteNotFound);
      }
      var site := trial.state.sites[siteId];
      if !Authorized(trial, siteId, request) {
        return Refused(AuthorizationMismatch);
      }
      var name := NewName(request);
      if name.None? {
        return Refused(InvalidName);
      }
      var version := Decimal.Parse(site.version);
      if version.None? {
        return Refused(UnreadableVersion);
      }
      site := site.(displayName := name.value);
      site := site.(version := Decimal.Print(version.value + 1));
      trial := trial.(state := trial.state.(sites := trial.state.sites[siteId := site]),
                      results := trial.results[key := (request, site.version)]);
      trials := trials[id := trial];
      return Updated(site.version);
    }
  }

  // ---- What every run keeps ------------------------------------------------------

  /** The idempotency keys that changed site `s` of a trial. */
  function KeysOn(trial: Trial, s: string): set<string> {
    set k | k in trial.results && trial.results[k].0.targetId == s
  }

  ghost predicate SiteOk(trial: Trial, s: string)
    requires s in trial.state.sites && s in trial.initial.sites
  {
    var was, now := trial.initial.sites[s], trial.state.sites[s];
    && now.id == was.id
    && now.version == Decimal.Print(1 + |KeysOn(trial, s)|)
    && (KeysOn(trial, s) == {} ==> now.displayName == was.displayName)
    && (KeysOn(trial, s) != {} ==> s in trial.request.siteIds)
  }

  ghost predicate TrialOk(trial: Trial) {
    && trial.initial == Seed(trial.request.scenario)
    && trial.state.projects == trial.initial.projects
    && trial.state.sites.Keys == trial.initial.sites.Keys
    && (forall s :: s in trial.state.sites ==> SiteOk(trial, s))
  }

  lemma NothingUsedYet(request: ResetRequest, site: string)
    ensures KeysOn(NewTrial(request), site) == {}
  {
  }

  lemma NewTrialOk(request: ResetRequest)
    ensures TrialOk(NewTrial(request))
  {
    SeedsAreVersionOne(SiteCount(request.scenario));
    var trial := NewTrial(request);
    assert Decimal.Print(1) == "1";
    forall s | s in trial.state.sites
      ensures SiteOk(trial, s)
    {
      NothingUsedYet(request, s);
    }
  }

  /** The trial after a first use of `key` on `siteId`. */
  function Used(trial: Trial, siteId: string, key: string, request: ActionRequest, site: Site): Trial {
    trial.(state := trial.state.(sites := trial.state.sites[siteId := site]),
           results := trial.results[key := (request, site.version)])
  }

  lemma AppliedIsUse(trial: Trial, siteId: string, key: string, request: ActionRequest) returns (site: Site)
    requires key !in trial.results && Answer(trial, siteId, key, request).Updated?
    ensures siteId in trial.state.sites && siteId in trial.request.siteIds && request.targetId == siteId
    ensures Applied(trial, siteId, key, request) == Used(trial, siteId, key, request, site)
    ensures site.id == trial.state.sites[siteId].id
    ensures var v := Decimal.Parse(trial.state.sites[siteId].version);
            v.Some? && site.version == Decimal.Print(v.value + 1)
  {
    var answer := Answer(trial, siteId, key, request);
    site := trial.state.sites[siteId].(displayName := NewName(request).value, version := answer.version);
  }

  lemma UsedKeys(trial: Trial, siteId: string, key: string, request: ActionRequest, site: Site, s: string)
    requires key !in trial.results && request.targetId == siteId
    ensures KeysOn(Used(trial, siteId, key, request, site), s)
            == if s == siteId then KeysOn(trial, s) + {key} else KeysOn(trial, s)
    ensures key !in KeysOn(trial, s)
  {
  }

  /** A first use leaves the other sites alone. */
  lemma UseKeepsOther(trial: Trial, siteId: string, key: string, request: ActionRequest, site: Site, s: string)
    requires s in trial.state.sites && s in trial.initial.sites && SiteOk(trial, s)
    requires key !in trial.results && request.targetId == siteId && s != siteId
    ensures SiteOk(Used(trial, siteId, key, request, site), s)
  {
    UsedKeys(trial, siteId, key, request, site, s);
  }

  lemma UseKeepsSite(trial: Trial, siteId: string, key: string, request: ActionRequest, site: Site, s: string)
    requires s in trial.state.sites && s in trial.initial.sites && SiteOk(trial, s)
    requires key !in trial.results && request.targetId == siteId && siteId in trial.request.siteIds
    requires siteId in trial.state.sites && site.id == trial.state.sites[siteId].id
    requires var v := Decimal.Parse(trial.state.sites[siteId].version);
             v.Some? && site.version == Decimal.Print(v.value + 1)
    ensures SiteOk(Used(trial, siteId, key, request, site), s)
  {
    if s != siteId {
      UseKeepsOther(trial, siteId, key, request, site, s);
    } else {
      UsedKeys(trial, siteId, key, request, site, s);
      Decimal.ParsePrint(1 + |KeysOn(trial, s)|);
    }
  }

  lemma UpdateKeepsTrialOk(trial: Trial, siteId: string, key: string, request: ActionRequest)
    requires TrialOk(trial)
    ensures TrialOk(Applied(trial, siteId, key, request))
  {
    if key !in trial.results && Answer(trial, siteId, key, request).Updated? {
      var site := AppliedIsUse(trial, siteId, key, request);
      var trial' := Used(trial, siteId, key, request, site);
      assert trial'.state.sites.Keys == trial.state.sites.Keys;
      forall s | s in trial'.state.sites
        ensures SiteOk(trial', s)
      {
        assert SiteOk(trial, s);
        UseKeepsSite(trial, siteId, key, request, site, s);
      }
    }
  }

  datatype Op =
    | Reset(reset: ResetRequest)
    | Update(thread: string, siteId: string, key: string, request: ActionRequest)

  function Run(s: StoreState, ops: seq<Op>): StoreState {
    if ops == [] then s
    else
      var before := Run(s, ops[..|ops| - 1]);
      match ops[|ops| - 1]
      case Reset(r) => AfterReset(before, r)
      case Update(thread, siteId, key, request) => AfterUpdate(before, thread, siteId, key, request)
  }

  ghost predicate StoreOk(s: StoreState) {
    forall id :: id in s.trials ==> TrialOk(s.trials[id])
  }

  lemma UpdateKeepsStoreOk(s: StoreState, thread: string, siteId: string, key: string, request: ActionRequest)
    requires StoreOk(s)
    ensures StoreOk(AfterUpdate(s, thread, siteId, key, request))
  {
    if Bound(s, thread).Some? {
      UpdateKeepsTrialOk(s.trials[Bound(s, thread).value], siteId, key, request);
    }
  }

  lemma ResetKeepsStoreOk(s: StoreState, request: ResetRequest)
    requires StoreOk(s)
    ensures StoreOk(AfterReset(s, request))
  {
    NewTrialOk(request);
  }

  /** In every run, every trial's sites keep their ids, a site's version is one
      plus the number of distinct keys applied to it, a site no key was applied
      to is as seeded, and projects never change. */
  lemma {:induction false} RunKeepsTrialsOk(s: StoreState, ops: seq<Op>)
    requires StoreOk(s)
    ensures StoreOk(Run(s, ops))
  {
    if ops != [] {
      RunKeepsTrialsOk(s, ops[..|ops| - 1]);
      var before := Run(s, ops[..|ops| - 1]);
      match ops[|ops| - 1]
      case Reset(r) => ResetKeepsStoreOk(before, r);
      case Update(thread, siteId, key, request) => UpdateKeepsStoreOk(before, thread, siteId, key, request);
    }
  }

  // ---- Who may update, and to what name -----------------------------------------------

  const Empty := StoreState(map[], map[])

  /** `name` is the text without the whitespace around it, and not empty. */
  ghost predicate IsStripped(text: string, name: string) {
    && name != "" && !Text.IsSpace(name[0]) && !Text.IsSpace(name[|name| - 1])
    && exists a: nat, b: nat :: CutsOut(text, a, b, name)
  }

  predicate CutsOut(text: string, a: nat, b: nat, name: string) {
    && a <= b <= |text| && text[a..b] == name
    && (forall i :: 0 <= i < a ==> Text.IsSpace(text[i])) && (forall i :: b <= i < |text| ==> Text.IsSpace(text[i]))
  }

  /** The request asks for that name. */
  ghost predicate AsksFor(request: ActionRequest, name: string) {
    && "name" in request.parameters && request.parameters["name"].StrParam?
    && IsStripped(request.parameters["name"].text, name)
  }

  lemma {:induction false} StripLeftCuts(s: string)
    ensures var left := Text.StripLeft(s, Text.IsSpace);
            && left == s[|s| - |left|..] && (left != "" ==> !Text.IsSpace(left[0]))
            && forall i :: 0 <= i < |s| - |left| ==> Text.IsSpace(s[i])
    decreases |s|
  {
    if s != "" && Text.IsSpace(s[0]) {
      StripLeftCuts(s[1..]);
      var left := Text.StripLeft(s, Text.IsSpace);
      assert forall i :: 0 < i < |s| - |left| ==> s[i] == s[1..][i - 1];
    }
  }

  lemma {:induction false} StripRightCuts(s: string)
    ensures var r := Text.StripRight(s, Text.IsSpace);
            && r == s[..|r|] && (r != "" ==> !Text.IsSpace(r[|r| - 1]))
            && forall i :: |r| <= i < |s| ==> Text.IsSpace(s[i])
    decreases |s|
  {
    if s != "" && Text.IsSpace(s[|s| - 1]) {
      StripRightCuts(s[..|s| - 1]);
    }
  }

  /** What `strip` leaves, if anything. */
  lemma StripIs(text: string)
    requires Text.Strip(text) != ""
    ensures IsStripped(text, Text.Strip(text))
  {
    var left := Text.StripLeft(text, Text.IsSpace);
    var name := Text.StripRight(left, Text.IsSpace);
    StripLeftCuts(text);
    StripRightCuts(left);
    var a := |text| - |left|;
    assert name == left[..|name|] && text[a..a + |name|] == name;
    assert name[0] == left[0];
    forall i | a + |name| <= i < |text|
      ensures Text.IsSpace(text[i])
    {
      assert text[i] == left[i - a];
    }
    assert CutsOut(text, a, a + |name|, name);
  }

  lemma NewNameIsAskedFor(request: ActionRequest)
    ensures NewName(request).Some? ==> AsksFor(request, NewName(request).value)
  {
    if NewName(request).Some? {
      StripIs(request.parameters["name"].text);
    }
  }

  /** The body is what the trial's reset allows: a display-name action on that
      site, by the trial's principal and scope, on one of its sites. */
  predicate Allowed(trial: Trial, siteId: string, request: ActionRequest) {
    && request.targetType == "Site" && request.targetId == siteId && siteId in trial.request.siteIds
    && request.actor == trial.request.principalId && request.scopeHash == trial.request.scopeHash
    && request.actionId == "site.update_display_name"
  }

  lemma VersionReads(trial: Trial, siteId: string)
    requires TrialOk(trial) && siteId in trial.state.sites
    ensures Decimal.Parse(trial.state.sites[siteId].version) == Some(1 + |KeysOn(trial, siteId)|)
  {
    assert SiteOk(trial, siteId);
    Decimal.ParsePrint(1 + |KeysOn(trial, siteId)|);
  }

  lemma NameIff(request: ActionRequest)
    ensures NewName(request).Some? <==> exists name :: AsksFor(request, name)
    ensures NewName(request).Some? ==> AsksFor(request, NewName(request).value)
  {
    NewNameIsAskedFor(request);
    if name :| AsksFor(request, name) {
      StrippedHasText(request.parameters["name"].text, name);
    }
  }

  /** On a trial of any reachable store, an update with a fresh key is accepted
      exactly when the scenario does not reject, the site is there, the body is
      allowed and its name is a string that is not blank. */
  lemma AcceptedIff(trial: Trial, siteId: string, key: string, request: ActionRequest)
    requires TrialOk(trial) && key !in trial.results
    ensures Answer(trial, siteId, key, request).Updated?
            <==> && trial.request.scenario != "action_domain_rejected" && siteId in trial.state.sites
                 && Allowed(trial, siteId, request) && exists name :: AsksFor(request, name)
  {
    NameIff(request);
    if siteId in trial.state.sites {
      VersionReads(trial, siteId);
    }
  }

  /** It then answers the next version, and changes the name and version of that
      one site; a refused update changes nothing. */
  lemma AcceptedRenames(trial: Trial, siteId: string, key: string, request: ActionRequest)
    requires TrialOk(trial) && key !in trial.results
    ensures Answer(trial, siteId, key, request).Updated? ==>
              var after := Applied(trial, siteId, key, request);
              && siteId in trial.state.sites && siteId in after.state.sites
              && AsksFor(request, after.state.sites[siteId].displayName)
              && after.state.sites[siteId].id == trial.state.sites[siteId].id
              && after.state.sites[siteId].version == Decimal.Print(2 + |KeysOn(trial, siteId)|)
              && Answer(trial, siteId, key, request).version == after.state.sites[siteId].version
              && after.state.sites == trial.state.sites[siteId := after.state.sites[siteId]]
              && after.results == trial.results[key := (request, after.state.sites[siteId].version)]
    ensures !Answer(trial, siteId, key, request).Updated? ==> Applied(trial, siteId, key, request) == trial
  {
    NewNameIsAskedFor(request);
    if siteId in trial.state.sites {
      VersionReads(trial, siteId);
    }
  }

  /** Text with something in it does not strip to nothing. */
  lemma StrippedHasText(text: string, name: string)
    requires IsStripped(text, name)
    ensures Text.Strip(text) != ""
  {
    var a: nat, b: nat :| CutsOut(text, a, b, name);
    assert text[a] == name[0];
    StripLeftCuts(text);
    var left := Text.StripLeft(text, Text.IsSpace);
    assert |text| - |left| <= a;
    StripRightCuts(left);
    assert left[a - (|text| - |left|)] == text[a];
  }

  /** The update is the first use of its key on that site of the trial, and is accepted. */
  predicate FirstUse(s: StoreState, op: Op, id: string, siteId: string) {
    && op.Update? && op.siteId == siteId && Bound(s, op.thread) == Some(id)
    && op.key !in s.trials[id].results && Answer(s.trials[id], siteId, op.key, op.request).Updated?
  }

  /** A site of the trial, with the keys used on it. */
  ghost predicate Reaches(s: StoreState, id: string, siteId: string) {
    id in s.trials && siteId in s.trials[id].state.sites && KeysOn(s.trials[id], siteId) != {}
  }

  lemma FirstUseNames(s: StoreState, op: Op, id: string, siteId: string)
    requires StoreOk(s) && FirstUse(s, op, id, siteId)
    ensures var s' := AfterUpdate(s, op.thread, op.siteId, op.key, op.request);
            && Reaches(s', id, siteId) && AsksFor(op.request, s'.trials[id].state.sites[siteId].displayName)
            && Allowed(s.trials[id], siteId, op.request)
  {
    AcceptedIff(s.trials[id], siteId, op.key, op.request);
    AcceptedRenames(s.trials[id], siteId, op.key, op.request);
    var after := Applied(s.trials[id], siteId, op.key, op.request);
    assert op.key in KeysOn(after, siteId);
  }

  /** Why a fresh key is refused on a reachable trial, each reason named by what is wrong. */
  lemma RefusedBecause(trial: Trial, siteId: string, key: string, request: ActionRequest)
    requires TrialOk(trial) && key !in trial.results
    ensures var answer := Answer(trial, siteId, key, request);
            var rejects := trial.request.scenario == "action_domain_rejected";
            && (answer == Refused(DomainRejected) <==> rejects)
            && (answer == Refused(SiteNotFound) <==> !rejects && siteId !in trial.state.sites)
            && (answer == Refused(AuthorizationMismatch) <==>
                 !rejects && siteId in trial.state.sites && !Allowed(trial, siteId, request))
            && (answer == Refused(InvalidName) <==>
                 !rejects && siteId in trial.state.sites && Allowed(trial, siteId, request) && !exists name :: AsksFor(request, name))
            && answer != Refused(UnreadableVersion) && answer != Refused(PayloadChanged) && answer != Refused(TrialNotFound)
  {
    NameIff(request);
    if siteId in trial.state.sites {
      VersionReads(trial, siteId);
    }
  }

  /** A reset that is not refused starts the trial over, whatever it was before: the
      thread sees the seeded state, and no key has been used. */
  lemma ResetStartsOver(s: StoreState, request: ResetRequest)
    requires !ResetRefused(s, request)
    ensures var s' := AfterReset(s, request);
            && request.trialId in s'.trials && s'.trials[request.trialId].results == map[]
            && s'.trials[request.trialId].request == request
            && s'.trials[request.trialId].state == Seed(request.scenario)
            && s'.trials[request.trialId].initial == Seed(request.scenario)
            && Bound(s', request.threadId) == (if request.trialId == "" then None else Some(request.trialId))
            && (forall id :: id != request.trialId ==> (id in s'.trials <==> id in s.trials) && (id in s.trials ==> s'.trials[id] == s.trials[id]))
  {
  }

  function AfterOp(s: StoreState, op: Op): StoreState {
    match op
    case Reset(r) => AfterReset(s, r)
    case Update(thread, siteId, key, request) => AfterUpdate(s, thread, siteId, key, request)
  }

  lemma UpdateKeepsName(trial: Trial, target: string, key: string, request: ActionRequest, siteId: string)
    requires TrialOk(trial)
    requires !(target == siteId && key !in trial.results && Answer(trial, siteId, key, request).Updated?)
    ensures var after := Applied(trial, target, key, request);
            && (siteId in after.state.sites <==> siteId in trial.state.sites)
            && (siteId in trial.state.sites ==> after.state.sites[siteId] == trial.state.sites[siteId])
            && KeysOn(after, siteId) == KeysOn(trial, siteId)
  {
    if key !in trial.results && Answer(trial, target, key, request).Updated? {
      var site := AppliedIsUse(trial, target, key, request);
      UsedKeys(trial, target, key, request, site, siteId);
    }
  }

  lemma ResetKeepsName(s: StoreState, request: ResetRequest, id: string, siteId: string)
    requires Reaches(AfterReset(s, request), id, siteId)
    ensures Reaches(s, id, siteId) && AfterReset(s, request).trials[id] == s.trials[id]
  {
    NothingUsedYet(request, siteId);
  }

  lemma OtherUpdateKeepsName(s: StoreState, op: Op, id: string, siteId: string)
    requires StoreOk(s) && op.Update? && !FirstUse(s, op, id, siteId)
    requires Reaches(AfterUpdate(s, op.thread, op.siteId, op.key, op.request), id, siteId)
    ensures Reaches(s, id, siteId)
    ensures AfterUpdate(s, op.thread, op.siteId, op.key, op.request).trials[id].state.sites[siteId] == s.trials[id].state.sites[siteId]
  {
    if Bound(s, op.thread) == Some(id) {
      UpdateKeepsName(s.trials[id], op.siteId, op.key, op.request, siteId);
    }
  }

  /** Anything else that leaves the site reached leaves its name alone. */
  lemma OthersKeepName(s: StoreState, op: Op, id: string, siteId: string)
    requires StoreOk(s) && !FirstUse(s, op, id, siteId) && Reaches(AfterOp(s, op), id, siteId)
    ensures Reaches(s, id, siteId)
    ensures AfterOp(s, op).trials[id].state.sites[siteId].displayName == s.trials[id].state.sites[siteId].displayName
  {
    if op.Reset? {
      ResetKeepsName(s, op.reset, id, siteId);
    } else {
      OtherUpdateKeepsName(s, op, id, siteId);
    }
  }

  lemma RunSnoc(ops: seq<Op>)
    requires ops != []
    ensures Run(Empty, ops) == AfterOp(Run(Empty, ops[..|ops| - 1]), ops[|ops| - 1])
  {
  }

  /** No update from the i-th on is a first use on the site. */
  ghost predicate NoneAfter(ops: seq<Op>, i: nat, id: string, siteId: string) {
    forall j :: i <= j < |ops| ==> !FirstUse(Run(Empty, ops[..j]), ops[j], id, siteId)
  }

  lemma NoneAfterSnoc(ops: seq<Op>, i: nat, id: string, siteId: string)
    requires ops != [] && NoneAfter(ops[..|ops| - 1], i, id, siteId)
    requires !FirstUse(Run(Empty, ops[..|ops| - 1]), ops[|ops| - 1], id, siteId)
    ensures NoneAfter(ops, i, id, siteId)
  {
    var front := ops[..|ops| - 1];
    forall j | i <= j < |ops|
      ensures !FirstUse(Run(Empty, ops[..j]), ops[j], id, siteId)
    {
      if j < |front| {
        assert front[..j] == ops[..j] && front[j] == ops[j];
      }
    }
  }

  /** Update `i` is the last first use on the site, and its name is the site's. */
  ghost predicate NamedBy(ops: seq<Op>, i: nat, id: string, siteId: string) {
    && i < |ops| && Reaches(Run(Empty, ops), id, siteId)
    && FirstUse(Run(Empty, ops[..i]), ops[i], id, siteId) && NoneAfter(ops, i + 1, id, siteId)
    && AsksFor(ops[i].request, Run(Empty, ops).trials[id].state.sites[siteId].displayName)
  }

  lemma NamedByLast(ops: seq<Op>, id: string, siteId: string)
    requires ops != [] && FirstUse(Run(Empty, ops[..|ops| - 1]), ops[|ops| - 1], id, siteId)
    ensures NamedBy(ops, |ops| - 1, id, siteId)
  {
    RunKeepsTrialsOk(Empty, ops[..|ops| - 1]);
    RunSnoc(ops);
    FirstUseNames(Run(Empty, ops[..|ops| - 1]), ops[|ops| - 1], id, siteId);
  }

  lemma StillReached(ops: seq<Op>, id: string, siteId: string)
    requires ops != [] && Reaches(Run(Empty, ops), id, siteId)
    requires !FirstUse(Run(Empty, ops[..|ops| - 1]), ops[|ops| - 1], id, siteId)
    ensures var s := Run(Empty, ops[..|ops| - 1]);
            && Reaches(s, id, siteId)
            && Run(Empty, ops).trials[id].state.sites[siteId].displayName == s.trials[id].state.sites[siteId].displayName
  {
    RunKeepsTrialsOk(Empty, ops[..|ops| - 1]);
    RunSnoc(ops);
    OthersKeepName(Run(Empty, ops[..|ops| - 1]), ops[|ops| - 1], id, siteId);
  }

  lemma NamedByEarlier(ops: seq<Op>, i: nat, id: string, siteId: string)
    requires ops != [] && Reaches(Run(Empty, ops), id, siteId) && NamedBy(ops[..|ops| - 1], i, id, siteId)
    requires !FirstUse(Run(Empty, ops[..|ops| - 1]), ops[|ops| - 1], id, siteId)
    ensures NamedBy(ops, i, id, siteId)
  {
    StillReached(ops, id, siteId);
    StillFirst(ops, i, id, siteId);
    NoneAfterSnoc(ops, i + 1, id, siteId);
  }

  lemma StillFirst(ops: seq<Op>, i: nat, id: string, siteId: string)
    requires i < |ops| - 1 && FirstUse(Run(Empty, ops[..|ops| - 1][..i]), ops[..|ops| - 1][i], id, siteId)
    ensures ops[..|ops| - 1][i] == ops[i] && FirstUse(Run(Empty, ops[..i]), ops[i], id, siteId)
  {
    assert ops[..|ops| - 1][..i] == ops[..i];
  }

  /** After any run from an empty store, a site that some update reached bears the
      name asked for by the last update that first used its key there. */
  lemma {:induction false} NameOfLastUse(ops: seq<Op>, id: string, siteId: string) returns (i: nat)
    requires Reaches(Run(Empty, ops), id, siteId)
    ensures NamedBy(ops, i, id, siteId)
  {
    assert Run(Empty, []) == Empty;
    if FirstUse(Run(Empty, ops[..|ops| - 1]), ops[|ops| - 1], id, siteId) {
      i := |ops| - 1;
      NamedByLast(ops, id, siteId);
    } else {
      StillReached(ops, id, siteId);
      i := NameOfLastUse(ops[..|ops| - 1], id, siteId);
      NamedByEarlier(ops, i, id, siteId);
    }
  }

  // ---- Idempotency ----------------------------------------------------------------

  /** Resets of a trial in a run. */
  predicate Resets(ops: seq<Op>, id: string) {
    exists i :: 0 <= i < |ops| && ops[i].Reset? && ops[i].reset.trialId == id
  }

  /** Until the trial is reset, a used key keeps its body and answer, whatever else happens. */
  lemma {:induction false} UsedKeysPersist(s: StoreState, ops: seq<Op>, id: string, key: string)
    requires id in s.trials && key in s.trials[id].results && !Resets(ops, id)
    ensures var s' := Run(s, ops);
            && id in s'.trials && key in s'.trials[id].results
            && s'.trials[id].results[key] == s.trials[id].results[key]
  {
    if ops != [] {
      var front := ops[..|ops| - 1];
      assert forall i :: 0 <= i < |front| ==> front[i] == ops[i];
      UsedKeysPersist(s, front, id, key);
    }
  }

  /** Each key changes a trial at most once: after any run without a reset of
      the trial, the same body gets the original answer, another body is
      refused, and either way nothing changes. */
  lemma UsedKeyIsInert(s: StoreState, ops: seq<Op>, id: string, key: string, thread: string, site: string, again: ActionRequest)
    requires id in s.trials && key in s.trials[id].results && !Resets(ops, id)
    requires Bound(Run(s, ops), thread) == Some(id)
    ensures var s' := Run(s, ops);
            var (body, version) := s.trials[id].results[key];
            && AfterUpdate(s', thread, site, key, again) == s'
            && Answer(s'.trials[id], site, key, again) == (if again == body then Updated(version) else Refused(PayloadChanged))
  {
    UsedKeysPersist(s, ops, id, key);
    var s' := Run(s, ops);
    assert s'.trials[id := s'.trials[id]] == s'.trials;
  }

  /** No update of the run goes through a thread that `s` binds to the trial. */
  predicate Avoids(s: StoreState, ops: seq<Op>, id: string) {
    && !Resets(ops, id)
    && forall i :: 0 <= i < |ops| && ops[i].Update? ==> !(ops[i].thread in s.threads && s.threads[ops[i].thread] == id)
  }

  /** Updates of other trials, however they go, leave a trial as it was. */
  lemma {:induction false} OtherTrialsUnaffected(s: StoreState, ops: seq<Op>, id: string)
    requires id in s.trials && Avoids(s, ops, id)
    ensures id in Run(s, ops).trials && Run(s, ops).trials[id] == s.trials[id]
    ensures forall t :: t in Run(s, ops).threads && Run(s, ops).threads[t] == id ==> t in s.threads && s.threads[t] == id
  {
    if ops != [] {
      var front := ops[..|ops| - 1];
      assert forall i :: 0 <= i < |front| ==> front[i] == ops[i];
      OtherTrialsUnaffected(s, front, id);
    }
  }

  /** A reset moves a bound thread exactly when the thread was bound to the empty trial id. */
  lemma ResetMovesIff(s: StoreState, request: ResetRequest, thread: string)
    requires thread in s.threads
    ensures thread in AfterReset(s, request).threads
    ensures AfterReset(s, request).threads[thread] != s.threads[thread]
            <==> thread == request.threadId && s.threads[thread] == "" && request.trialId != ""
  {
  }

  /** A thread bound to a trial never moves to another one. */
  lemma {:induction false} BoundThreadStays(s: StoreState, ops: seq<Op>, thread: string)
    requires thread in s.threads && s.threads[thread] != ""
    ensures thread in Run(s, ops).threads && Run(s, ops).threads[thread] == s.threads[thread]
  {
    if ops != [] {
      BoundThreadStays(s, ops[..|ops| - 1], thread);
    }
  }

  lemma MovesFromEmpty(s: StoreState, thread: string) returns (ops: seq<Op>)
    requires thread in s.threads && s.threads[thread] == ""
    ensures thread in Run(s, ops).threads && Run(s, ops).threads[thread] == "t"
  {
    var request := ResetRequest("t", thread, "", "", "", [], Leaf(""));
    ops := [Reset(request)];
    assert ops[..0] == [] && Run(s, ops[..0]) == s;
    assert Run(s, ops) == AfterReset(s, request);
  }

  /** Some run moves a bound thread exactly when the thread was bound to the empty trial id. */
  lemma MovableIff(s: StoreState, thread: string)
    requires thread in s.threads
    ensures (exists ops :: thread in Run(s, ops).threads && Run(s, ops).threads[thread] != s.threads[thread])
            <==> s.threads[thread] == ""
  {
    if s.threads[thread] == "" {
      var ops := MovesFromEmpty(s, thread);
    } else {
      forall ops
        ensures thread in Run(s, ops).threads && Run(s, ops).threads[thread] == s.threads[thread]
      {
        BoundThreadStays(s, ops, thread);
      }
    }
  }

  /** The trial id of a reset request comes from a path segment, so it is not empty. */
  predicate Routed(ops: seq<Op>) {
    forall i :: 0 <= i < |ops| && ops[i].Reset? ==> ops[i].reset.trialId != ""
  }

  lemma {:induction false} RoutedBindsTrials(ops: seq<Op>, thread: string)
    requires Routed(ops) && thread in Run(StoreState(map[], map[]), ops).threads
    ensures var s := Run(StoreState(map[], map[]), ops); s.threads[thread] != "" && s.threads[thread] in s.trials
  {
    if ops != [] {
      var front := ops[..|ops| - 1];
      assert forall i :: 0 <= i < |front| ==> front[i] == ops[i];
      if thread in Run(StoreState(map[], map[]), front).threads {
        RoutedBindsTrials(front, thread);
      }
    }
  }

  lemma {:induction false} RunConcat(s: StoreState, a: seq<Op>, b: seq<Op>)
    ensures Run(s, a + b) == Run(Run(s, a), b)
  {
    if b == [] {
      assert a + b == a;
    } else {
      RunConcat(s, a, b[..|b| - 1]);
      assert (a + b)[..|a + b| - 1] == a + b[..|b| - 1];
    }
  }

  /** In every run of routed requests from an empty store, each binding is to an
      existing trial and final, whatever requests follow. */
  lemma BindingsAreFinal(ops: seq<Op>, more: seq<Op>, thread: string)
    requires Routed(ops) && thread in Run(StoreState(map[], map[]), ops).threads
    ensures var s, later := Run(StoreState(map[], map[]), ops), Run(StoreState(map[], map[]), ops + more);
            && s.threads[thread] in s.trials
            && thread in later.threads && later.threads[thread] == s.threads[thread]
  {
    RoutedBindsTrials(ops, thread);
    RunConcat(StoreState(map[], map[]), ops, more);
    BoundThreadStays(Run(StoreState(map[], map[]), ops), more, thread);
  }

  // ---- What the diff reports -------------------------------------------------------

  function SiteTree(site: Site): Tree<string> {
    Node(map["id" := Leaf(site.id), "display_name" := Leaf(site.displayName), "version" := Leaf(site.version)])
  }

  function ProjectTree(p: Project): Tree<string> {
    Node(map["id" := Leaf(p.id), "name" := Leaf(p.name), "site_id" := Leaf(p.siteId), "version" := Leaf(p.version)])
  }

  function SitesTree(sites: map<string, Site>): Tree<string> {
    Node(map s | s in sites :: SiteTree(sites[s]))
  }

  function CatalogTree(c: Catalog): Tree<string> {
    Node(map["sites" := SitesTree(c.sites), "projects" := Node(map p | p in c.projects :: ProjectTree(c.projects[p]))])
  }

  /** The dotted path of a site's field. */
  function SitePath(s: string, field: string): string {
    Child(Child("sites", s), field)
  }

  lemma SiteDiff(was: Site, now: Site, prefix: string)
    requires was.id == now.id && prefix != ""
    ensures ChangedPaths(SiteTree(was), SiteTree(now), prefix)
            == (if was.displayName != now.displayName then {Child(prefix, "display_name")} else {})
               + (if was.version != now.version then {Child(prefix, "version")} else {})
  {
    var b, a := SiteTree(was), SiteTree(now);
    assert b.kids.Keys == a.kids.Keys == {"id", "display_name", "version"};
    assert ChangedPaths(b.kids["id"], a.kids["id"], Child(prefix, "id")) == {};
    var d := ChangedPaths(b.kids["display_name"], a.kids["display_name"], Child(prefix, "display_name"));
    var v := ChangedPaths(b.kids["version"], a.kids["version"], Child(prefix, "version"));
    assert d == if was.displayName != now.displayName then {Child(prefix, "display_name")} else {};
    assert v == if was.version != now.version then {Child(prefix, "version")} else {};
    forall p
      ensures p in ChangedPaths(b, a, prefix) <==> p in d + v
    {
      if p in d {
        ShareIsReported(b, a, prefix, "display_name", p);
      } else if p in v {
        ShareIsReported(b, a, prefix, "version", p);
      }
    }
  }

  /** The paths of the fields in which two site tables differ. */
  ghost function SiteChanges(was: map<string, Site>, now: map<string, Site>): set<string>
    requires was.Keys == now.Keys
  {
    (set s | s in was && was[s].displayName != now[s].displayName :: SitePath(s, "display_name"))
    + (set s | s in was && was[s].version != now[s].version :: SitePath(s, "version"))
  }

  /** What is reported between two tables of sites is a change of some site. */
  lemma ReportedIsSiteChange(was: map<string, Site>, now: map<string, Site>, p: string)
    requires was.Keys == now.Keys && forall s :: s in was ==> was[s].id == now[s].id
    requires p in ChangedPaths(SitesTree(was), SitesTree(now), "sites")
    ensures p in SiteChanges(was, now)
  {
    var s := ReportedIsShare(SitesTree(was), SitesTree(now), "sites", p);
    SiteDiff(was[s], now[s], Child("sites", s));
  }

  /** Every change of a site is reported. */
  lemma SiteChangeIsReported(was: map<string, Site>, now: map<string, Site>, s: string, p: string)
    requires was.Keys == now.Keys && s in was && was[s].id == now[s].id
    requires || (was[s].displayName != now[s].displayName && p == SitePath(s, "display_name"))
             || (was[s].version != now[s].version && p == SitePath(s, "version"))
    ensures p in ChangedPaths(SitesTree(was), SitesTree(now), "sites")
  {
    SiteDiff(was[s], now[s], Child("sites", s));
    ShareIsReported(SitesTree(was), SitesTree(now), "sites", s, p);
  }

  lemma SitesDiff(was: map<string, Site>, now: map<string, Site>)
    requires was.Keys == now.Keys && forall s :: s in was ==> was[s].id == now[s].id
    ensures ChangedPaths(SitesTree(was), SitesTree(now), "sites") == SiteChanges(was, now)
  {
    forall p
      ensures p in ChangedPaths(SitesTree(was), SitesTree(now), "sites") <==> p in SiteChanges(was, now)
    {
      if p in ChangedPaths(SitesTree(was), SitesTree(now), "sites") {
        ReportedIsSiteChange(was, now, p);
      } else if p in SiteChanges(was, now) {
        var s :| s in was && ((was[s].displayName != now[s].displayName && p == SitePath(s, "display_name"))
                              || (was[s].version != now[s].version && p == SitePath(s, "version")));
        SiteChangeIsReported(was, now, s, p);
      }
    }
  }

  lemma CatalogDiff(was: Catalog, now: Catalog)
    requires was.sites.Keys == now.sites.Keys && was.projects == now.projects
    requires forall s :: s in was.sites ==> was.sites[s].id == now.sites[s].id
    ensures ChangedPaths(CatalogTree(was), CatalogTree(now), "") == SiteChanges(was.sites, now.sites)
  {
    SitesDiff(was.sites, now.sites);
    OnlySitesDiffer(SitesTree(was.sites), SitesTree(now.sites), CatalogTree(was).kids["projects"]);
  }

  /** With equal projects, the diff of two catalogs is that of their sites. */
  lemma OnlySitesDiffer(was: Tree<string>, now: Tree<string>, projects: Tree<string>)
    ensures var b, a := Node(map["sites" := was, "projects" := projects]), Node(map["sites" := now, "projects" := projects]);
            ChangedPaths(b, a, "") == ChangedPaths(was, now, "sites")
  {
    var b, a := Node(map["sites" := was, "projects" := projects]), Node(map["sites" := now, "projects" := projects]);
    EqualTreesDoNotDiffer(projects, "projects");
    forall p
      ensures p in ChangedPaths(b, a, "") <==> p in ChangedPaths(was, now, "sites")
    {
      if p in ChangedPaths(b, a, "") {
        var k := ReportedIsShare(b, a, "", p);
      } else if p in ChangedPaths(was, now, "sites") {
        ShareIsReported(b, a, "", "sites", p);
      }
    }
  }

  /** The sites a trial's updates have reached. */
  ghost function Reached(trial: Trial): set<string> {
    set s | s in trial.state.sites && KeysOn(trial, s) != {}
  }

  /** The sites whose name is no longer the seeded one. */
  ghost function Renamed(trial: Trial): set<string>
    requires trial.state.sites.Keys == trial.initial.sites.Keys
  {
    set s | s in trial.state.sites && trial.state.sites[s].displayName != trial.initial.sites[s].displayName
  }

  /** The paths of one field of the given sites. */
  ghost function PathsOf(sites: set<string>, field: string): set<string> {
    set s | s in sites :: SitePath(s, field)
  }

  lemma PrintedOne(n: nat)
    ensures Decimal.Print(1 + n) == "1" <==> n == 0
  {
    Decimal.ParsePrint(1 + n);
  }

  lemma VersionChangedIffReached(trial: Trial, s: string)
    requires TrialOk(trial) && s in trial.state.sites
    ensures trial.state.sites[s].version != trial.initial.sites[s].version <==> KeysOn(trial, s) != {}
  {
    assert SiteOk(trial, s);
    SeedsAreVersionOne(SiteCount(trial.request.scenario));
    PrintedOne(|KeysOn(trial, s)|);
  }

  /** After any run of resets and updates from an empty store, the paths the
      fixture reports as changed in a trial are exactly the version of every
      site some update reached and the name of every site that is renamed. */
  lemma ReportIsExact(ops: seq<Op>, id: string)
    requires id in Run(StoreState(map[], map[]), ops).trials
    ensures var trial := Run(StoreState(map[], map[]), ops).trials[id];
            && TrialOk(trial)
            && ChangedPaths(CatalogTree(trial.initial), CatalogTree(trial.state), "")
               == PathsOf(Reached(trial), "version") + PathsOf(Renamed(trial), "display_name")
            && Renamed(trial) <= Reached(trial)
            && (forall s :: s in Reached(trial) ==> s in trial.request.siteIds)
  {
    RunKeepsTrialsOk(StoreState(map[], map[]), ops);
    var trial := Run(StoreState(map[], map[]), ops).trials[id];
    assert TrialOk(trial);
    ReportOfTrial(trial);
  }

  lemma SiteReport(trial: Trial, s: string)
    requires TrialOk(trial) && s in trial.state.sites
    ensures trial.initial.sites[s].id == trial.state.sites[s].id
    ensures trial.state.sites[s].version != trial.initial.sites[s].version <==> KeysOn(trial, s) != {}
    ensures trial.state.sites[s].displayName != trial.initial.sites[s].displayName ==> KeysOn(trial, s) != {}
    ensures KeysOn(trial, s) != {} ==> s in trial.request.siteIds
  {
    assert SiteOk(trial, s);
    VersionChangedIffReached(trial, s);
  }

  lemma RenamedWereReached(trial: Trial)
    requires TrialOk(trial)
    ensures Renamed(trial) <= Reached(trial)
    ensures forall s :: s in Reached(trial) ==> s in trial.request.siteIds
  {
    forall s | s in trial.state.sites
      ensures s in Renamed(trial) ==> s in Reached(trial)
      ensures s in Reached(trial) ==> s in trial.request.siteIds
    {
      SiteReport(trial, s);
    }
  }

  lemma SiteChangesOfTrial(trial: Trial)
    requires TrialOk(trial)
    ensures SiteChanges(trial.initial.sites, trial.state.sites)
            == PathsOf(Reached(trial), "version") + PathsOf(Renamed(trial), "display_name")
  {
    forall s | s in trial.state.sites
      ensures trial.state.sites[s].version != trial.initial.sites[s].version <==> s in Reached(trial)
    {
      SiteReport(trial, s);
    }
  }

  lemma ReportOfTrial(trial: Trial)
    requires TrialOk(trial)
    ensures ChangedPaths(CatalogTree(trial.initial), CatalogTree(trial.state), "")
            == PathsOf(Reached(trial), "version") + PathsOf(Renamed(trial), "display_name")
    ensures Renamed(trial) <= Reached(trial)
    ensures forall s :: s in Reached(trial) ==> s in trial.request.siteIds
  {
    forall s | s in trial.state.sites
      ensures trial.initial.sites[s].id == trial.state.sites[s].id
    {
      SiteReport(trial, s);
    }
    CatalogDiff(trial.initial, trial.state);
    SiteChangesOfTrial(trial);
    RenamedWereReached(trial);
  }

  /** `unexpected_changes` of a trial. */
  function UnexpectedChanges(trial: Trial): set<string> {
    ChangedPaths(CatalogTree(trial.initial), CatalogTree(trial.state), "") - LeafPaths(trial.request.expectedAfter, "")
  }

  lemma NothingLeft(changed: set<string>, expected: set<string>, a: set<string>, b: set<string>)
    requires changed == a + b
    ensures changed - expected == {} <==> a <= expected && b <= expected
  {
    if changed - expected == {} {
      forall p | p in changed
        ensures p in expected
      {
        assert p !in changed - expected;
      }
    }
  }

  /** A trial reports no unexpected change exactly when the expectation names
      the version of every reached site and the name of every renamed one. */
  lemma NothingUnexpectedIff(trial: Trial)
    requires TrialOk(trial)
    ensures UnexpectedChanges(trial) == {} <==>
              && PathsOf(Reached(trial), "version") <= LeafPaths(trial.request.expectedAfter, "")
              && PathsOf(Renamed(trial), "display_name") <= LeafPaths(trial.request.expectedAfter, "")
  {
    ReportOfTrial(trial);
    NothingLeft(ChangedPaths(CatalogTree(trial.initial), CatalogTree(trial.state), ""),
                LeafPaths(trial.request.expectedAfter, ""),
                PathsOf(Reached(trial), "version"), PathsOf(Renamed(trial), "display_name"));
  }
}
