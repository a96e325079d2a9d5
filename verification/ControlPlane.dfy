// The control plane's in-memory store: deployments, their builds, secret bindings, runtime
// variables and revision logs
// (services/control-plane/internal/httpapi/httpapi.go, the branches without Postgres).

module ControlPlane {
  import opened Basics
  import Text

  type Id = nat

  datatype Deployment = Deployment(
    id: Id, project: string, repoURL: string, gitRef: string, repoPath: string,
    profile: string, mode: string, digest: string)

  datatype Build = Build(id: Id, deployment: Id, commit: string)

  datatype Binding = Binding(id: Id, deployment: Id, secret: string, target: string)

  datatype Variable = Variable(id: Id, deployment: Id, key: string, cipher: string, hidden: bool)

  datatype Reason = Created | Updated | RolledBack

  datatype Revision = Revision(id: Id, deployment: Id, revision: Id, digest: string, reason: Reason)

  datatype State = State(
    deployments: seq<Deployment>,
    builds: seq<Build>,
    secrets: seq<Binding>,
    variables: seq<Variable>,
    revisions: map<Id, seq<Revision>>,
    issued: nat)

  const EMPTY := State([], [], [], [], map[], 0)

  /** Unsynced: the change is stored, but the AgentDeployment could not be brought in line. */
  datatype Answer = Ok | Missing | Invalid | Unsynced

  /** The optional fields of an update. */
  datatype Patch = Patch(
    repoURL: Option<string>, gitRef: Option<string>, repoPath: Option<string>, profile: Option<string>, mode: Option<string>)

  datatype Draft = Draft(project: string, repoURL: string, gitRef: string, repoPath: string, profile: string, mode: string)

  predicate KnownMode(mode: string) { mode == "mode_a" || mode == "mode_b" }

  // ---------------------------------------------------------------------------
  // Lists
  // ---------------------------------------------------------------------------

  /** The first element that satisfies `p`. */
  function First<T>(s: seq<T>, p: T -> bool): (r: Option<nat>)
    ensures r.Some? ==> r.value < |s| && p(s[r.value]) && forall i :: 0 <= i < r.value ==> !p(s[i])
    ensures r.None? ==> forall i :: 0 <= i < |s| ==> !p(s[i])
  {
    if s == [] then None
    else if p(s[0]) then Some(0)
    else
      var later := First(s[1..], p);
      assert forall i :: 1 <= i < |s| ==> s[i] == s[1..][i - 1];
      if later.None? then None else Some(later.value + 1)
  }

  ghost predicate Distinct<T, K>(s: seq<T>, key: T -> K)
  {
    forall i, j :: 0 <= i < j < |s| ==> key(s[i]) != key(s[j])
  }

  lemma {:induction false} FilterDistinct<T, K>(s: seq<T>, p: T -> bool, key: T -> K)
    requires Distinct(s, key)
    ensures Distinct(Filter(s, p), key)
  {
    if s != [] {
      FilterDistinct(s[1..], p, key);
      assert forall x :: x in Filter(s[1..], p) ==> x in s[1..];
      assert forall x :: x in s[1..] ==> key(x) != key(s[0]);
    }
  }

  /** The loop that keeps what satisfies `p`. */
  method Keep<T>(s: seq<T>, p: T -> bool) returns (r: seq<T>)
    ensures r == Filter(s, p)
  {
    r := [];
    for i := 0 to |s|
      invariant r == Filter(s[..i], p)
    {
      FilterNext(s, i, p);
      if p(s[i]) {
        r := r + [s[i]];
      }
    }
    assert s[..|s|] == s;
  }

  /** The loop that stops at the first match. */
  method Search<T>(s: seq<T>, p: T -> bool) returns (r: Option<nat>)
    ensures r == First(s, p)
  {
    for i := 0 to |s|
      invariant forall j :: 0 <= j < i ==> !p(s[j])
    {
      if p(s[i]) {
        return Some(i);
      }
    }
    r := None;
  }

  // What the loops look for, and what they keep

  function WithId(d: Id): Deployment -> bool { (x: Deployment) => x.id == d }
  function OtherThan(d: Id): Deployment -> bool { (x: Deployment) => x.id != d }
  function BuildElsewhere(d: Id): Build -> bool { (x: Build) => x.deployment != d }
  function BindingElsewhere(d: Id): Binding -> bool { (x: Binding) => x.deployment != d }
  function VariableElsewhere(d: Id): Variable -> bool { (x: Variable) => x.deployment != d }
  function WithBindingId(b: Id): Binding -> bool { (x: Binding) => x.id == b }
  function OtherBinding(b: Id): Binding -> bool { (x: Binding) => x.id != b }
  function WithRevision(r: Id): Revision -> bool { (x: Revision) => x.revision == r }
  function SameVariable(d: Id, key: string): Variable -> bool { (x: Variable) => x.deployment == d && x.key == key }
  function OtherVariable(d: Id, key: string): Variable -> bool { (x: Variable) => x.deployment != d || x.key != key }

  function SameBinding(d: Id, secret: string, target: string): Binding -> bool
  {
    (x: Binding) => x.deployment == d && x.secret == secret && x.target == target
  }

  // The keys that must be unique

  function DeploymentKey(x: Deployment): Id { x.id }
  function BindingKey(x: Binding): (Id, string, string) { (x.deployment, x.secret, x.target) }
  function BindingId(x: Binding): Id { x.id }
  function VariableKey(x: Variable): (Id, string) { (x.deployment, x.key) }
  function RevisionKey(x: Revision): Id { x.revision }

  // ---------------------------------------------------------------------------
  // Requests
  // ---------------------------------------------------------------------------

  function Log(s: State, d: Id): seq<Revision> { if d in s.revisions then s.revisions[d] else [] }

  function Find(s: State, d: Id): Option<nat> { First(s.deployments, WithId(d)) }

  function Record(s: State, dep: Deployment, reason: Reason): State
  {
    var entry := Revision(s.issued, dep.id, s.issued + 1, Text.TrimSpace(dep.digest), reason);
    s.(revisions := s.revisions[dep.id := Log(s, dep.id) + [entry]], issued := s.issued + 2)
  }

  function Create(s: State, d: Draft): (State, Answer)
  {
    var mode := Text.OrElse(d.mode, "mode_a");
    if Text.TrimSpace(d.repoURL) == "" || !KnownMode(mode) then (s, Invalid)
    else
      var dep := Deployment(s.issued, Text.OrElse(Text.TrimSpace(d.project), "proj_default"), d.repoURL, Text.OrElse(d.gitRef, "main"),
                            Text.OrElse(d.repoPath, "/"), Text.OrElse(d.profile, "gvisor"), mode, "");
      (Record(s.(deployments := s.deployments + [dep], issued := s.issued + 1), dep, Created), Ok)
  }

  predicate EmptyPatch(p: Patch) { p.repoURL.None? && p.gitRef.None? && p.repoPath.None? && p.profile.None? && p.mode.None? }

  predicate GoodField(f: Option<string>) { f.Some? ==> Text.TrimSpace(f.value) != "" }

  predicate GoodPatch(p: Patch)
  {
    && GoodField(p.repoURL) && GoodField(p.gitRef) && GoodField(p.repoPath) && GoodField(p.profile)
    && (p.mode.Some? ==> KnownMode(Text.TrimSpace(p.mode.value)))
  }

  function Set(f: Option<string>, current: string): string { if f.Some? then Text.TrimSpace(f.value) else current }

  function Patched(dep: Deployment, p: Patch): Deployment
  {
    dep.(repoURL := Set(p.repoURL, dep.repoURL), gitRef := Set(p.gitRef, dep.gitRef), repoPath := Set(p.repoPath, dep.repoPath),
         profile := Set(p.profile, dep.profile), mode := Set(p.mode, dep.mode))
  }

  function Replace(s: State, at: nat, dep: Deployment): State
    requires at < |s.deployments|
  {
    s.(deployments := s.deployments[at := dep])
  }

  function Update(s: State, d: Id, p: Patch): (State, Answer)
  {
    if EmptyPatch(p) then (s, Invalid)
    else
      var at := Find(s, d);
      if at.None? then (s, Missing)
      else if !GoodPatch(p) then (s, Invalid)
      else
        var dep := Patched(s.deployments[at.value], p);
        (Record(Replace(s, at.value, dep), dep, Updated), Ok)
  }

  function RollbackByDigest(s: State, d: Id, digest: string): (State, Answer)
  {
    var at := Find(s, d);
    if at.None? then (s, Missing)
    else
      var dep := s.deployments[at.value].(digest := digest);
      (Record(Replace(s, at.value, dep), dep, RolledBack), Ok)
  }

  function Rollback(s: State, d: Id, digest: string): (State, Answer)
  {
    if Text.TrimSpace(digest) == "" then (s, Invalid) else RollbackByDigest(s, d, Text.TrimSpace(digest))
  }

  function FindRevision(s: State, d: Id, revision: Id): Option<nat> { First(Log(s, d), WithRevision(revision)) }

  function RollbackV2(s: State, d: Id, revision: Option<Id>, digest: string): (State, Answer)
  {
    if Text.TrimSpace(digest) != "" then RollbackByDigest(s, d, Text.TrimSpace(digest))
    else if revision.None? then (s, Invalid)
    else
      var at := FindRevision(s, d, revision.value);
      if at.None? then (s, Missing)
      else
        var recorded := Text.TrimSpace(Log(s, d)[at.value].digest);
        if recorded == "" then (s, Invalid) else RollbackByDigest(s, d, recorded)
  }

  function Delete(s: State, d: Id): (State, Answer)
  {
    if Find(s, d).None? then (s, Missing)
    else
      (s.(deployments := Filter(s.deployments, OtherThan(d)),
          builds := Filter(s.builds, BuildElsewhere(d)),
          secrets := Filter(s.secrets, BindingElsewhere(d)),
          variables := Filter(s.variables, VariableElsewhere(d)),
          revisions := s.revisions - {d}), Ok)
  }

  /** triggerBuild when the builder cannot be reached: a placeholder is stored here. */
  function QueueBuild(s: State, d: Id, commit: string, image: string): (State, Answer)
  {
    if Text.TrimSpace(commit) == "" || Text.TrimSpace(image) == "" then (s, Invalid)
    else if Find(s, d).None? then (s, Missing)
    else (s.(builds := s.builds + [Build(s.issued, d, commit)], issued := s.issued + 1), Ok)
  }

  function SetPolicy(s: State, d: Id, profile: string, mode: string): (State, Answer)
  {
    if !KnownMode(Text.OrElse(mode, "mode_a")) then (s, Invalid)
    else
      var at := Find(s, d);
      if at.None? then (s, Missing)
      else (Replace(s, at.value, s.deployments[at.value].(profile := Text.OrElse(profile, "gvisor"), mode := Text.OrElse(mode, "mode_a"))), Ok)
  }

  function Bind(s: State, d: Id, secret: string, target: string): (State, Answer)
  {
    if Text.TrimSpace(secret) == "" then (s, Invalid)
    else if Find(s, d).None? then (s, Missing)
    else if First(s.secrets, SameBinding(d, Text.TrimSpace(secret), Text.TrimSpace(target))).Some? then (s, Ok)
    else (s.(secrets := s.secrets + [Binding(s.issued, d, Text.TrimSpace(secret), Text.TrimSpace(target))], issued := s.issued + 1), Ok)
  }

  function Unbind(s: State, binding: Id): (State, Answer)
  {
    if First(s.secrets, WithBindingId(binding)).None? then (s, Missing)
    else (s.(secrets := Filter(s.secrets, OtherBinding(binding))), Ok)
  }

  function SetVariable(s: State, d: Id, key: string, cipher: string, hidden: bool): (State, Answer)
  {
    if Text.TrimSpace(key) == "" then (s, Invalid)
    else if Find(s, d).None? then (s, Missing)
    else
      var at := First(s.variables, SameVariable(d, Text.TrimSpace(key)));
      if at.Some?
      then (s.(variables := s.variables[at.value := Variable(s.variables[at.value].id, d, Text.TrimSpace(key), cipher, hidden)]), Ok)
      else (s.(variables := s.variables + [Variable(s.issued, d, Text.TrimSpace(key), cipher, hidden)], issued := s.issued + 1), Ok)
  }

  function DropVariable(s: State, d: Id, key: string): (State, Answer)
  {
    if Text.TrimSpace(key) == "" then (s, Invalid)
    else if Find(s, d).None? || First(s.variables, SameVariable(d, Text.TrimSpace(key))).None? then (s, Missing)
    else (s.(variables := Filter(s.variables, OtherVariable(d, Text.TrimSpace(key)))), Ok)
  }

  datatype Request =
    | CreateIt(draft: Draft)
    | UpdateIt(deployment: Id, patch: Patch)
    | RollbackIt(deployment: Id, digest: string)
    | RollbackItV2(deployment: Id, revision: Option<Id>, digest: string)
    | DeleteIt(deployment: Id)
    | QueueIt(deployment: Id, commit: string, image: string)
    | PolicyIt(deployment: Id, profile: string, mode: string)
    | BindIt(deployment: Id, secret: string, target: string)
    | UnbindIt(binding: Id)
    | SetIt(deployment: Id, key: string, cipher: string, hidden: bool)
    | DropIt(deployment: Id, key: string)

  function Handle(s: State, r: Request): (State, Answer)
  {
    match r
    case CreateIt(draft) => Create(s, draft)
    case UpdateIt(d, patch) => Update(s, d, patch)
    case RollbackIt(d, digest) => Rollback(s, d, digest)
    case RollbackItV2(d, revision, digest) => RollbackV2(s, d, revision, digest)
    case DeleteIt(d) => Delete(s, d)
    case QueueIt(d, commit, image) => QueueBuild(s, d, commit, image)
    case PolicyIt(d, profile, mode) => SetPolicy(s, d, profile, mode)
    case BindIt(d, secret, target) => Bind(s, d, secret, target)
    case UnbindIt(b) => Unbind(s, b)
    case SetIt(d, key, cipher, hidden) => SetVariable(s, d, key, cipher, hidden)
    case DropIt(d, key) => DropVariable(s, d, key)
  }

  /** The requests that end with a write of the AgentDeployment in the cluster. */
  predicate Syncs(r: Request)
  {
    r.CreateIt? || r.UpdateIt? || r.RollbackIt? || r.RollbackItV2? || r.DeleteIt? || r.PolicyIt?
  }

  /** That write comes last; `works` says whether it succeeds. */
  function Synced(result: (State, Answer), works: bool): (State, Answer)
  {
    if result.1 == Ok && !works then (result.0, Unsynced) else result
  }

  function Answered(s: State, r: Request, works: bool): (State, Answer)
  {
    if Syncs(r) then Synced(Handle(s, r), works) else Handle(s, r)
  }

  function Reach(s: State, rs: seq<Request>): State
    decreases |rs|
  {
    if rs == [] then s else Reach(Handle(s, rs[0]).0, rs[1..])
  }

  // ---------------------------------------------------------------------------
  // Invariant
  // ---------------------------------------------------------------------------

  ghost predicate Exists(s: State, d: Id) { exists i :: 0 <= i < |s.deployments| && s.deployments[i].id == d }

  ghost predicate DeploymentsHold(s: State)
  {
    && Distinct(s.deployments, DeploymentKey)
    && forall i :: 0 <= i < |s.deployments| ==> s.deployments[i].id < s.issued
  }

  ghost predicate BuildsHold(s: State) { forall x :: x in s.builds ==> Exists(s, x.deployment) }

  ghost predicate SecretsHold(s: State)
  {
    && (forall x :: x in s.secrets ==> Exists(s, x.deployment) && x.id < s.issued)
    && Distinct(s.secrets, BindingKey)
    && Distinct(s.secrets, BindingId)
  }

  ghost predicate VariablesHold(s: State)
  {
    && (forall x :: x in s.variables ==> Exists(s, x.deployment))
    && Distinct(s.variables, VariableKey)
  }

  /** Without white space around it. */
  predicate Clean(digest: string) { Text.TrimSpace(digest) == digest }

  /** Every deployment has a log, whose newest entry records the current digest as it is; a log names its
      deployment throughout, holds clean digests, and no revision identifier occurs twice in it. */
  ghost predicate LogHolds(s: State, d: Id)
  {
    var log := Log(s, d);
    && (forall i :: 0 <= i < |log| ==> log[i].deployment == d && log[i].revision < s.issued && Clean(log[i].digest))
    && Distinct(log, RevisionKey)
    && forall i :: 0 <= i < |s.deployments| && s.deployments[i].id == d ==>
         log != [] && log[|log| - 1].digest == s.deployments[i].digest
  }

  ghost predicate RevisionsHold(s: State)
  {
    && (forall d :: d in s.revisions ==> Exists(s, d))
    && (forall d :: LogHolds(s, d))
  }

  ghost predicate Valid(s: State) { DeploymentsHold(s) && BuildsHold(s) && SecretsHold(s) && VariablesHold(s) && RevisionsHold(s) }

  // What changes and what does not, for all requests ----------------------------------

  lemma FindIs(s: State, d: Id)
    ensures Find(s, d).Some? <==> Exists(s, d)
    ensures Find(s, d).Some? ==> s.deployments[Find(s, d).value].id == d
  {
  }

  /** The deployment at `at` is replaced by one of the same identifier, and a revision of it is recorded. */
  lemma RecordKeeps(s: State, at: nat, dep: Deployment, reason: Reason)
    requires Valid(s) && at < |s.deployments| && dep.id == s.deployments[at].id && Clean(dep.digest)
    ensures Valid(Record(Replace(s, at, dep), dep, reason))
  {
    hide Text.TrimSpace;
    var s1 := Replace(s, at, dep);
    var s2 := Record(s1, dep, reason);
    SameDeployments(s, s2, at);
    forall d ensures LogHolds(s2, d) {
      assert LogHolds(s, d);
      if d == dep.id {
        RecordedLogHolds(s, at, dep, reason);
      } else {
        OtherLogHolds(s, s2, at, d);
      }
    }
  }

  lemma SameDeployments(s: State, s': State, at: nat)
    requires at < |s.deployments| && |s'.deployments| == |s.deployments| && s.issued <= s'.issued
    requires forall i :: 0 <= i < |s.deployments| ==> s'.deployments[i].id == s.deployments[i].id
    ensures DeploymentsHold(s) ==> DeploymentsHold(s')
    ensures forall d :: Exists(s, d) <==> Exists(s', d)
  {
    forall d | Exists(s, d) ensures Exists(s', d) {
      var i :| 0 <= i < |s.deployments| && s.deployments[i].id == d;
      assert s'.deployments[i].id == d;
    }
  }

  lemma RecordedLogHolds(s: State, at: nat, dep: Deployment, reason: Reason)
    requires DeploymentsHold(s) && LogHolds(s, dep.id) && at < |s.deployments| && dep.id == s.deployments[at].id
    requires Clean(dep.digest)
    ensures LogHolds(Record(Replace(s, at, dep), dep, reason), dep.id)
  {
    hide Text.TrimSpace;
    var s2 := Record(Replace(s, at, dep), dep, reason);
    forall i | 0 <= i < |s2.deployments| && s2.deployments[i].id == dep.id ensures i == at {
      assert i != at ==> DeploymentKey(s.deployments[i]) != DeploymentKey(s.deployments[at]);
    }
  }

  lemma OtherLogHolds(s: State, s': State, at: nat, d: Id)
    requires LogHolds(s, d) && at < |s.deployments| && s.deployments[at].id != d
    requires |s'.deployments| == |s.deployments| && s'.deployments[at].id == s.deployments[at].id
    requires forall i :: 0 <= i < |s.deployments| && i != at ==> s'.deployments[i] == s.deployments[i]
    requires Log(s', d) == Log(s, d) && s.issued <= s'.issued
    ensures LogHolds(s', d)
  {
  }

  lemma CreateKeeps(s: State, draft: Draft)
    requires Valid(s)
    ensures Valid(Create(s, draft).0)
  {
    hide Text.TrimSpace, KnownMode, Text.OrElse;
    var s' := Create(s, draft).0;
    if s' != s {
      var dep := s'.deployments[|s.deployments|];
      assert s'.deployments == s.deployments + [dep] && dep.id == s.issued;
      forall d | Exists(s, d) ensures Exists(s', d) && d != dep.id {
        var i :| 0 <= i < |s.deployments| && s.deployments[i].id == d;
        assert s'.deployments[i].id == d;
      }
      assert Exists(s', dep.id);
      NewLog(s, s', dep);
    }
  }

  lemma NewLog(s: State, s': State, dep: Deployment)
    requires Valid(s) && dep.id == s.issued && dep.digest == ""
    requires s' == Record(s.(deployments := s.deployments + [dep], issued := s.issued + 1), dep, Created)
    ensures forall d :: LogHolds(s', d)
  {
    hide Text.TrimSpace, LogHolds;
    assert dep.id !in s.revisions;
    forall d ensures LogHolds(s', d) {
      if d == dep.id {
        FirstEntryHolds(s, s', dep);
      } else {
        assert LogHolds(s, d);
        OldLogHolds(s, s', dep, d);
      }
    }
  }

  lemma BlankIsClean()
    ensures Text.TrimSpace("") == ""
  {
  }

  lemma FirstEntryHolds(s: State, s': State, dep: Deployment)
    requires DeploymentsHold(s) && dep.id == s.issued && dep.digest == "" && dep.id !in s.revisions
    requires s' == Record(s.(deployments := s.deployments + [dep], issued := s.issued + 1), dep, Created)
    ensures LogHolds(s', dep.id)
  {
    BlankIsClean();
    hide Text.TrimSpace;
  }

  lemma OldLogHolds(s: State, s': State, dep: Deployment, d: Id)
    requires LogHolds(s, d) && d != dep.id
    requires s' == Record(s.(deployments := s.deployments + [dep], issued := s.issued + 1), dep, Created)
    ensures LogHolds(s', d)
  {
    hide Text.TrimSpace, Clean;
  }

  lemma DeleteKeeps(s: State, d: Id)
    requires Valid(s)
    ensures Valid(Delete(s, d).0)
  {
    var s' := Delete(s, d).0;
    if s' != s {
      FilterDistinct(s.deployments, OtherThan(d), DeploymentKey);
      FilterDistinct(s.secrets, BindingElsewhere(d), BindingKey);
      FilterDistinct(s.secrets, BindingElsewhere(d), BindingId);
      FilterDistinct(s.variables, VariableElsewhere(d), VariableKey);
      OthersRemain(s, d);
      forall i | 0 <= i < |s'.deployments| ensures s'.deployments[i].id < s.issued {
        assert s'.deployments[i] in s.deployments;
      }
      forall e ensures LogHolds(s', e) {
        LogRemains(s, d, e);
      }
    }
  }

  lemma OthersRemain(s: State, d: Id)
    requires Exists(s, d)
    ensures forall e :: Exists(Delete(s, d).0, e) <==> e != d && Exists(s, e)
    ensures forall x :: x in Delete(s, d).0.deployments ==> x in s.deployments
  {
    FindIs(s, d);
    var s' := Delete(s, d).0;
    forall e | e != d && Exists(s, e) ensures Exists(s', e) {
      var i :| 0 <= i < |s.deployments| && s.deployments[i].id == e;
      assert s.deployments[i] in s'.deployments;
    }
    forall e | Exists(s', e) ensures e != d && Exists(s, e) {
      var i :| 0 <= i < |s'.deployments| && s'.deployments[i].id == e;
      assert s'.deployments[i] in s.deployments;
    }
  }

  lemma LogRemains(s: State, d: Id, e: Id)
    requires Valid(s) && Exists(s, d)
    ensures LogHolds(Delete(s, d).0, e)
  {
    hide BuildsHold, SecretsHold, VariablesHold, Clean, Distinct;
    FindIs(s, d);
    assert LogHolds(s, e);
    FewerLogs(s, Delete(s, d).0, d, e);
  }

  lemma FewerLogs(s: State, s': State, d: Id, e: Id)
    requires LogHolds(s, e) && s'.issued == s.issued && s'.revisions == s.revisions - {d}
    requires forall x :: x in s'.deployments ==> x in s.deployments && x.id != d
    ensures LogHolds(s', e)
  {
    hide Clean;
    forall i | 0 <= i < |s'.deployments| && s'.deployments[i].id == e
      ensures e != d && exists j :: 0 <= j < |s.deployments| && s.deployments[j] == s'.deployments[i]
    {
      assert s'.deployments[i] in s'.deployments;
    }
  }

  /** Replacing a deployment without touching its digest. */
  lemma PolicyKeeps(s: State, d: Id, profile: string, mode: string)
    requires Valid(s)
    ensures Valid(SetPolicy(s, d, profile, mode).0)
  {
    hide Text.TrimSpace, KnownMode, Text.OrElse, Exists;
    var s' := SetPolicy(s, d, profile, mode).0;
    if s' != s {
      var at := Find(s, d).value;
      SameDeployments(s, s', at);
      forall e ensures LogHolds(s', e) {
        assert LogHolds(s, e);
      }
    }
  }

  lemma BindKeeps(s: State, d: Id, secret: string, target: string)
    requires Valid(s)
    ensures Valid(Bind(s, d, secret, target).0)
  {
    hide Text.TrimSpace, RevisionsHold, DeploymentsHold, Exists;
    FindIs(s, d);
    OnlyLists(s, Bind(s, d, secret, target).0);
  }

  lemma UnbindKeeps(s: State, b: Id)
    requires Valid(s)
    ensures Valid(Unbind(s, b).0)
  {
    FilterDistinct(s.secrets, OtherBinding(b), BindingKey);
    FilterDistinct(s.secrets, OtherBinding(b), BindingId);
    OnlyLists(s, Unbind(s, b).0);
  }

  lemma SetVariableKeeps(s: State, d: Id, key: string, cipher: string, hidden: bool)
    requires Valid(s)
    ensures Valid(SetVariable(s, d, key, cipher, hidden).0)
  {
    hide Text.TrimSpace;
    FindIs(s, d);
    OnlyLists(s, SetVariable(s, d, key, cipher, hidden).0);
  }

  lemma DropVariableKeeps(s: State, d: Id, key: string)
    requires Valid(s)
    ensures Valid(DropVariable(s, d, key).0)
  {
    hide Text.TrimSpace;
    FilterDistinct(s.variables, OtherVariable(d, Text.TrimSpace(key)), VariableKey);
    OnlyLists(s, DropVariable(s, d, key).0);
  }

  lemma QueueKeeps(s: State, d: Id, commit: string, image: string)
    requires Valid(s)
    ensures Valid(QueueBuild(s, d, commit, image).0)
  {
    hide Text.TrimSpace;
    FindIs(s, d);
    OnlyLists(s, QueueBuild(s, d, commit, image).0);
  }

  /** A request that touches neither deployments nor logs. */
  lemma OnlyLists(s: State, s': State)
    requires s'.deployments == s.deployments && s'.revisions == s.revisions && s.issued <= s'.issued
    ensures forall d :: Exists(s, d) <==> Exists(s', d)
    ensures DeploymentsHold(s) ==> DeploymentsHold(s')
    ensures RevisionsHold(s) ==> RevisionsHold(s')
  {
    hide Clean, Distinct;
    if RevisionsHold(s) {
      forall d ensures LogHolds(s', d) {
        assert LogHolds(s, d);
      }
    }
  }

  lemma ByDigestKeeps(s: State, d: Id, digest: string)
    requires Valid(s) && Clean(digest)
    ensures Valid(RollbackByDigest(s, d, digest).0)
  {
    hide Valid, Record, Replace;
    FindIs(s, d);
    var at := Find(s, d);
    if at.Some? {
      RecordKeeps(s, at.value, s.deployments[at.value].(digest := digest), RolledBack);
    }
  }

  lemma CurrentIsClean(s: State, at: nat)
    requires Valid(s) && at < |s.deployments|
    ensures Clean(s.deployments[at].digest)
  {
    hide Text.TrimSpace, BuildsHold, SecretsHold, VariablesHold;
    assert LogHolds(s, s.deployments[at].id);
  }

  lemma TrimmedIsClean(s: string)
    ensures Clean(Text.TrimSpace(s))
  {
  }

  lemma UpdateKeeps(s: State, d: Id, p: Patch)
    requires Valid(s)
    ensures Valid(Update(s, d, p).0)
  {
    hide Valid, Record, Replace, Set, GoodPatch, EmptyPatch, Clean, Text.TrimSpace;
    FindIs(s, d);
    var at := Find(s, d);
    if at.Some? {
      CurrentIsClean(s, at.value);
      RecordKeeps(s, at.value, Patched(s.deployments[at.value], p), Updated);
    }
  }

  lemma HandleKeeps(s: State, r: Request)
    requires Valid(s)
    ensures Valid(Handle(s, r).0)
  {
    hide Valid, Clean, Create, Update, RollbackByDigest, Delete, QueueBuild, SetPolicy, Bind, Unbind, SetVariable, DropVariable, Text.TrimSpace;
    match r
    case CreateIt(draft) => CreateKeeps(s, draft);
    case UpdateIt(d, patch) => UpdateKeeps(s, d, patch);
    case RollbackIt(d, digest) =>
      TrimmedIsClean(digest);
      ByDigestKeeps(s, d, Text.TrimSpace(digest));
    case RollbackItV2(d, revision, digest) =>
      TrimmedIsClean(digest);
      ByDigestKeeps(s, d, Text.TrimSpace(digest));
      if revision.Some? && FindRevision(s, d, revision.value).Some? {
        TrimmedIsClean(Log(s, d)[FindRevision(s, d, revision.value).value].digest);
        ByDigestKeeps(s, d, Text.TrimSpace(Log(s, d)[FindRevision(s, d, revision.value).value].digest));
      }
    case DeleteIt(d) => DeleteKeeps(s, d);
    case QueueIt(d, commit, image) => QueueKeeps(s, d, commit, image);
    case PolicyIt(d, profile, mode) => PolicyKeeps(s, d, profile, mode);
    case BindIt(d, secret, target) => BindKeeps(s, d, secret, target);
    case UnbindIt(b) => UnbindKeeps(s, b);
    case SetIt(d, key, cipher, hidden) => SetVariableKeeps(s, d, key, cipher, hidden);
    case DropIt(d, key) => DropVariableKeeps(s, d, key);
  }

  lemma {:induction false} ReachKeeps(s: State, rs: seq<Request>)
    requires Valid(s)
    ensures Valid(Reach(s, rs))
    decreases |rs|
  {
    hide Valid, Handle;
    if rs != [] {
      HandleKeeps(s, rs[0]);
      ReachKeeps(Handle(s, rs[0]).0, rs[1..]);
    }
  }

  /** Over every sequence of requests: references exist, keys are unique, every log ends with the current digest. */
  lemma StoreStaysValid(rs: seq<Request>)
    ensures Valid(Reach(EMPTY, rs))
  {
    hide Reach;
    ReachKeeps(EMPTY, rs);
  }

  // ---------------------------------------------------------------------------
  // Logs only grow
  // ---------------------------------------------------------------------------

  /** A deployment keeps its log as a prefix, and an identifier that was handed out is not handed out again. */
  ghost predicate Grows(s: State, s': State)
  {
    && s.issued <= s'.issued
    && (forall d: Id :: Exists(s', d) && d < s.issued ==> Exists(s, d))
    && (forall d: Id :: Exists(s', d) && Exists(s, d) ==> Log(s, d) <= Log(s', d))
  }

  lemma HandleGrows(s: State, r: Request)
    requires Valid(s)
    ensures Grows(s, Handle(s, r).0)
  {
    hide Valid, Grows, Create, Update, RollbackByDigest, Delete, QueueBuild, SetPolicy, Bind, Unbind, SetVariable, DropVariable, Text.TrimSpace;
    match r
    case CreateIt(draft) => CreateGrows(s, draft);
    case UpdateIt(d, patch) => UpdateGrows(s, d, patch);
    case RollbackIt(d, digest) =>
      ByDigestGrows(s, d, Text.TrimSpace(digest));
      NothingGrows(s);
    case RollbackItV2(d, revision, digest) =>
      ByDigestGrows(s, d, Text.TrimSpace(digest));
      NothingGrows(s);
      if revision.Some? && FindRevision(s, d, revision.value).Some? {
        ByDigestGrows(s, d, Text.TrimSpace(Log(s, d)[FindRevision(s, d, revision.value).value].digest));
      }
    case DeleteIt(d) => DeleteGrows(s, d);
    case PolicyIt(d, profile, mode) => PolicyGrows(s, d, profile, mode);
    case _ => ListsGrow(s, r);
  }

  lemma NothingGrows(s: State)
    ensures Grows(s, s)
  {
  }

  lemma CreateGrows(s: State, draft: Draft)
    requires Valid(s)
    ensures Grows(s, Create(s, draft).0)
  {
    hide Text.TrimSpace, Text.OrElse, KnownMode, BuildsHold, SecretsHold, VariablesHold, RevisionsHold;
    var s' := Create(s, draft).0;
    if s' != s {
      var dep := s'.deployments[|s.deployments|];
      assert s'.deployments == s.deployments + [dep];
      forall d: Id | Exists(s', d) && d < s.issued ensures Exists(s, d) {
        var i :| 0 <= i < |s'.deployments| && s'.deployments[i].id == d;
        assert s.deployments[i].id == d;
      }
    }
  }

  lemma UpdateGrows(s: State, d: Id, p: Patch)
    ensures Grows(s, Update(s, d, p).0)
  {
    hide Text.TrimSpace, GoodPatch, Set, Grows;
    ReplacedOnly(s, Update(s, d, p).0, d);
  }

  lemma ByDigestGrows(s: State, d: Id, digest: string)
    ensures Grows(s, RollbackByDigest(s, d, digest).0)
  {
    hide Text.TrimSpace, Grows;
    ReplacedOnly(s, RollbackByDigest(s, d, digest).0, d);
  }

  lemma PolicyGrows(s: State, d: Id, profile: string, mode: string)
    ensures Grows(s, SetPolicy(s, d, profile, mode).0)
  {
    hide Text.OrElse, KnownMode, Grows;
    ReplacedOnly(s, SetPolicy(s, d, profile, mode).0, d);
  }

  lemma DeleteGrows(s: State, d: Id)
    ensures Grows(s, Delete(s, d).0)
  {
    FindIs(s, d);
    if Find(s, d).Some? {
      OthersRemain(s, d);
    }
  }

  lemma ListsGrow(s: State, r: Request)
    requires r.QueueIt? || r.BindIt? || r.UnbindIt? || r.SetIt? || r.DropIt?
    ensures Grows(s, Handle(s, r).0)
  {
    hide Text.TrimSpace, Exists;
    OnlyLists(s, Handle(s, r).0);
  }

  lemma ReplacedOnly(s: State, s': State, d: Id)
    requires s.issued <= s'.issued
    requires s' == s || (Find(s, d).Some? && |s'.deployments| == |s.deployments| &&
                         (forall i :: 0 <= i < |s.deployments| ==> s'.deployments[i].id == s.deployments[i].id) &&
                         (forall e :: Log(s, e) <= Log(s', e)))
    ensures Grows(s, s')
  {
    if s' != s {
      SameDeployments(s, s', Find(s, d).value);
    }
  }

  lemma {:induction false} ReachGrows(s: State, rs: seq<Request>, d: Id)
    requires Valid(s) && Exists(s, d) && Exists(Reach(s, rs), d)
    ensures Log(s, d) <= Log(Reach(s, rs), d)
    decreases |rs|
  {
    hide Valid, Handle, Log;
    if rs != [] {
      var s1 := Handle(s, rs[0]).0;
      HandleKeeps(s, rs[0]);
      HandleGrows(s, rs[0]);
      if !Exists(s1, d) {
        Issued(s, d);
        GoneForGood(s1, rs[1..], d);
      }
      ReachGrows(s1, rs[1..], d);
    }
  }

  lemma Issued(s: State, d: Id)
    requires Valid(s) && Exists(s, d)
    ensures d < s.issued
  {
  }

  /** A deleted deployment never comes back. */
  lemma {:induction false} GoneForGood(s: State, rs: seq<Request>, d: Id)
    requires Valid(s) && d < s.issued && !Exists(s, d)
    ensures !Exists(Reach(s, rs), d)
    decreases |rs|
  {
    hide Valid, Handle;
    if rs != [] {
      HandleKeeps(s, rs[0]);
      HandleGrows(s, rs[0]);
      GoneForGood(Handle(s, rs[0]).0, rs[1..], d);
    }
  }

  /** While a deployment exists its revision log only grows, over every sequence of requests. */
  lemma LogsOnlyGrow(rs: seq<Request>, more: seq<Request>, d: Id)
    requires Exists(Reach(EMPTY, rs), d) && Exists(Reach(Reach(EMPTY, rs), more), d)
    ensures Log(Reach(EMPTY, rs), d) <= Log(Reach(Reach(EMPTY, rs), more), d)
  {
    StoreStaysValid(rs);
    ReachGrows(Reach(EMPTY, rs), more, d);
  }

  // ---------------------------------------------------------------------------
  // Rollback
  // ---------------------------------------------------------------------------

  function Current(s: State, d: Id): string { if Find(s, d).Some? then s.deployments[Find(s, d).value].digest else "" }

  /** Rolling back to revision `i` of the log restores exactly its digest and records it; it is refused, and
      nothing changes, exactly when that revision holds no digest. */
  lemma RollbackRestores(s: State, d: Id, i: nat, digest: string)
    requires Valid(s) && Exists(s, d) && i < |Log(s, d)| && Text.TrimSpace(digest) == ""
    ensures var (s', answer) := RollbackV2(s, d, Some(Log(s, d)[i].revision), digest);
            var wanted := Log(s, d)[i].digest;
            && (answer == Ok <==> wanted != "") && (answer != Ok ==> s' == s && answer == Invalid)
            && (answer == Ok ==> Current(s', d) == wanted && Recorded(s, s', d, RolledBack))
  {
    hide Text.TrimSpace, BuildsHold, SecretsHold, VariablesHold;
    FindIs(s, d);
    assert LogHolds(s, d);
    RevisionFound(s, d, i);
    assert Clean(Log(s, d)[i].digest);
    DigestIsCurrent(s, d, Log(s, d)[i].digest);
  }

  lemma RevisionFound(s: State, d: Id, i: nat)
    requires LogHolds(s, d) && i < |Log(s, d)|
    ensures FindRevision(s, d, Log(s, d)[i].revision) == Some(i)
  {
    var log := Log(s, d);
    var at := FindRevision(s, d, log[i].revision);
    assert at.Some? && at.value <= i;
    assert at.value < i ==> RevisionKey(log[at.value]) != RevisionKey(log[i]);
  }

  /** The log of `d` has one more entry, which records its current digest under a new identifier. */
  ghost predicate Recorded(s: State, s': State, d: Id, reason: Reason)
  {
    && |Log(s', d)| == |Log(s, d)| + 1 && Log(s, d) <= Log(s', d)
    && Log(s', d)[|Log(s, d)|].digest == Current(s', d) && Log(s', d)[|Log(s, d)|].reason == reason
    && Log(s', d)[|Log(s, d)|].deployment == d && s.issued <= Log(s', d)[|Log(s, d)|].revision < s'.issued == s.issued + 2
  }

  /** The deployment at `at`, which is `d`, is now `dep`; every other one is where and as it was. */
  predicate Became(s: State, s': State, at: nat, d: Id, dep: Deployment)
  {
    at < |s.deployments| && s.deployments[at].id == d && s'.deployments == s.deployments[at := dep]
  }

  /** Nothing but the deployment `d` and its log is different. */
  ghost predicate OthersSame(s: State, s': State, d: Id)
  {
    && |s'.deployments| == |s.deployments|
    && (forall i :: 0 <= i < |s.deployments| ==> s'.deployments[i].id == s.deployments[i].id)
    && (forall i :: 0 <= i < |s.deployments| && s.deployments[i].id != d ==> s'.deployments[i] == s.deployments[i])
    && (forall e: Id :: e != d ==> Log(s', e) == Log(s, e))
    && s'.builds == s.builds && s'.secrets == s.secrets && s'.variables == s.variables
  }

  lemma ReplacedIs(s: State, at: nat, dep: Deployment, reason: Reason)
    requires Find(s, dep.id) == Some(at) && Clean(dep.digest) && DeploymentsHold(s)
    ensures var s' := Record(Replace(s, at, dep), dep, reason);
            && Find(s', dep.id) == Some(at) && Current(s', dep.id) == dep.digest
            && Recorded(s, s', dep.id, reason) && OthersSame(s, s', dep.id) && Became(s, s', at, dep.id, dep)
  {
    hide Text.TrimSpace;
    var s' := Record(Replace(s, at, dep), dep, reason);
    forall i | 0 <= i < |s.deployments| && i != at ensures s.deployments[i].id != dep.id {
      assert DeploymentKey(s.deployments[i]) != DeploymentKey(s.deployments[at]);
    }
    assert s'.deployments[at].id == dep.id;
  }

  lemma DigestIsCurrent(s: State, d: Id, digest: string)
    requires Find(s, d).Some? && Clean(digest) && DeploymentsHold(s)
    ensures var (s', answer) := RollbackByDigest(s, d, digest);
            && answer == Ok && Current(s', d) == digest && Recorded(s, s', d, RolledBack) && OthersSame(s, s', d)
            && (var at := Find(s, d).value; Became(s, s', at, d, s.deployments[at].(digest := digest)))
  {
    hide Record, Replace, Recorded, OthersSame, Clean, Distinct;
    var at := Find(s, d).value;
    ReplacedIs(s, at, s.deployments[at].(digest := digest), RolledBack);
  }

  // ---------------------------------------------------------------------------
  // What each request does, and which answer it gives when
  // ---------------------------------------------------------------------------

  lemma NotIssuedYet(s: State)
    requires Valid(s)
    ensures !Exists(s, s.issued) && s.issued !in s.revisions
  {
    hide BuildsHold, SecretsHold, VariablesHold, LogHolds;
  }

  /** A creation needs a repository and a known mode, if it names one; blank fields get their defaults. The new
      deployment comes last, under a new identifier, without a digest and with a log of one entry. */
  lemma CreateDoes(s: State, draft: Draft)
    requires Valid(s)
    ensures var (s', answer) := Create(s, draft);
            && (answer == Ok <==> Text.TrimSpace(draft.repoURL) != "" && (draft.mode == "" || draft.mode == "mode_a" || draft.mode == "mode_b"))
            && (answer != Ok ==> answer == Invalid && s' == s)
            && s'.builds == s.builds && s'.secrets == s.secrets && s'.variables == s.variables
            && (answer == Ok ==>
                  |s'.deployments| == |s.deployments| + 1 &&
                  var dep := s'.deployments[|s.deployments|];
                  && s'.deployments == s.deployments + [dep] && !Exists(s, dep.id) && Log(s, dep.id) == []
                  && dep == Deployment(
                       dep.id,
                       if Text.TrimSpace(draft.project) == "" then "proj_default" else Text.TrimSpace(draft.project),
                       draft.repoURL,
                       if draft.gitRef == "" then "main" else draft.gitRef,
                       if draft.repoPath == "" then "/" else draft.repoPath,
                       if draft.profile == "" then "gvisor" else draft.profile,
                       if draft.mode == "" then "mode_a" else draft.mode,
                       "")
                  && |Log(s', dep.id)| == 1 && Log(s', dep.id)[0].digest == "" && Log(s', dep.id)[0].deployment == dep.id
                  && Log(s', dep.id)[0].reason.Created? && s.issued == dep.id < Log(s', dep.id)[0].revision < s'.issued
                  && (forall e: Id :: e != dep.id ==> Log(s', e) == Log(s, e)))
  {
    BlankIsClean();
    hide Text.TrimSpace, Valid, Exists;
    var (s', answer) := Create(s, draft);
    if answer == Ok {
      var dep := s'.deployments[|s.deployments|];
      assert s'.deployments == s.deployments + [dep];
      NotIssuedYet(s);
      assert Log(s', dep.id) == [Revision(s.issued + 1, dep.id, s.issued + 2, "", Created)];
    }
  }

  /** An update replaces exactly the fields it names, by their trimmed new values; the digest stays and is recorded. */
  lemma UpdateDoes(s: State, d: Id, p: Patch)
    requires Valid(s)
    ensures var (s', answer) := Update(s, d, p);
            var empty := p.repoURL.None? && p.gitRef.None? && p.repoPath.None? && p.profile.None? && p.mode.None?;
            var good := && (p.repoURL.Some? ==> Text.TrimSpace(p.repoURL.value) != "") && (p.gitRef.Some? ==> Text.TrimSpace(p.gitRef.value) != "")
                        && (p.repoPath.Some? ==> Text.TrimSpace(p.repoPath.value) != "") && (p.profile.Some? ==> Text.TrimSpace(p.profile.value) != "")
                        && (p.mode.Some? ==> Text.TrimSpace(p.mode.value) in {"mode_a", "mode_b"});
            && (answer == Missing <==> !empty && !Exists(s, d))
            && (answer == Invalid <==> empty || (Exists(s, d) && !good))
            && (answer == Missing || answer == Invalid ==> s' == s)
            && (answer == Ok || answer == Missing || answer == Invalid)
            && (answer == Ok ==>
                  Recorded(s, s', d, Updated) && OthersSame(s, s', d) && Find(s, d).Some? &&
                  var at := Find(s, d).value;
                  var rec := s.deployments[at];
                  Became(s, s', at, d, Deployment(
                    d, rec.project,
                    if p.repoURL.Some? then Text.TrimSpace(p.repoURL.value) else rec.repoURL,
                    if p.gitRef.Some? then Text.TrimSpace(p.gitRef.value) else rec.gitRef,
                    if p.repoPath.Some? then Text.TrimSpace(p.repoPath.value) else rec.repoPath,
                    if p.profile.Some? then Text.TrimSpace(p.profile.value) else rec.profile,
                    if p.mode.Some? then Text.TrimSpace(p.mode.value) else rec.mode,
                    rec.digest)))
  {
    hide Valid, Record, Replace, Recorded, OthersSame, Clean, Text.TrimSpace, Distinct;
    FindIs(s, d);
    ValidDeployments(s);
    var at := Find(s, d);
    if at.Some? {
      CurrentIsClean(s, at.value);
      ReplacedIs(s, at.value, Patched(s.deployments[at.value], p), Updated);
    }
  }

  lemma ValidDeployments(s: State)
    requires Valid(s)
    ensures DeploymentsHold(s)
  {
  }

  lemma RollbackDoes(s: State, d: Id, digest: string)
    requires Valid(s)
    ensures var (s', answer) := Rollback(s, d, digest);
            var wanted := Text.TrimSpace(digest);
            && (answer == Invalid <==> wanted == "") && (answer == Missing <==> wanted != "" && !Exists(s, d))
            && (answer != Ok ==> s' == s)
            && (answer == Ok ==>
                  && Current(s', d) == wanted && Recorded(s, s', d, RolledBack) && OthersSame(s, s', d) && Find(s, d).Some?
                  && (var at := Find(s, d).value; Became(s, s', at, d, s.deployments[at].(digest := wanted))))
  {
    hide Valid, Became, Recorded, OthersSame, Clean, Text.TrimSpace, Record, Replace, Distinct;
    FindIs(s, d);
    ValidDeployments(s);
    TrimmedIsClean(digest);
    if Exists(s, d) {
      DigestIsCurrent(s, d, Text.TrimSpace(digest));
    }
  }

  /** A rollback by revision takes the digest that is given, and only without one that of the named revision. */
  lemma RollbackV2Does(s: State, d: Id, revision: Option<Id>, digest: string)
    ensures var (s', answer) := RollbackV2(s, d, revision, digest);
            if Text.TrimSpace(digest) != "" then (s', answer) == Rollback(s, d, digest)
            else
              var named := revision.Some? && exists i :: 0 <= i < |Log(s, d)| && Log(s, d)[i].revision == revision.value;
              && (revision.None? ==> answer == Invalid && s' == s)
              && (revision.Some? && !named ==> answer == Missing && s' == s)
              && (named ==>
                    exists i :: 0 <= i < |Log(s, d)| && Log(s, d)[i].revision == revision.value &&
                      (forall j :: 0 <= j < i ==> Log(s, d)[j].revision != revision.value) &&
                      (s', answer) == Rollback(s, d, Log(s, d)[i].digest))
  {
    hide RollbackByDigest, Text.TrimSpace, Log;
    TrimTwice(digest);
    if revision.Some? && FindRevision(s, d, revision.value).Some? {
      TrimTwice(Log(s, d)[FindRevision(s, d, revision.value).value].digest);
    }
  }

  lemma TrimTwice(s: string)
    ensures Text.TrimSpace(Text.TrimSpace(s)) == Text.TrimSpace(s)
  {
  }

  /** A policy sets profile and mode of one deployment, blank ones to their defaults, and nothing else. */
  lemma PolicyDoes(s: State, d: Id, profile: string, mode: string)
    requires Valid(s)
    ensures var (s', answer) := SetPolicy(s, d, profile, mode);
            var known := mode == "" || mode == "mode_a" || mode == "mode_b";
            && (answer == Invalid <==> !known) && (answer == Missing <==> known && !Exists(s, d))
            && (answer != Ok ==> s' == s) && s' == s.(deployments := s'.deployments)
            && (answer == Ok ==>
                  OthersSame(s, s', d) && Find(s, d).Some? &&
                  var at := Find(s, d).value;
                  Became(s, s', at, d, s.deployments[at].(profile := if profile == "" then "gvisor" else profile,
                                                          mode := if mode == "" then "mode_a" else mode)))
  {
    hide BuildsHold, SecretsHold, VariablesHold, RevisionsHold;
    FindIs(s, d);
    var (s', answer) := SetPolicy(s, d, profile, mode);
    if answer == Ok {
      var at := Find(s, d).value;
      assert s'.deployments[at].id == d;
      forall i | 0 <= i < |s.deployments| && s.deployments[i].id != d ensures s'.deployments[i] == s.deployments[i] {
        assert i != at;
      }
    }
  }

  lemma QueueDoes(s: State, d: Id, commit: string, image: string)
    ensures var (s', answer) := QueueBuild(s, d, commit, image);
            var named := Text.TrimSpace(commit) != "" && Text.TrimSpace(image) != "";
            && (answer == Invalid <==> !named) && (answer == Missing <==> named && !Exists(s, d))
            && (answer != Ok ==> s' == s)
            && (answer == Ok ==> s' == s.(builds := s.builds + [Build(s.issued, d, commit)], issued := s.issued + 1))
  {
    hide Text.TrimSpace;
    FindIs(s, d);
  }

  predicate IsBound(s: State, d: Id, secret: string, target: string)
  {
    exists x :: x in s.secrets && BindingKey(x) == (d, secret, target)
  }

  /** Afterwards the secret is bound under its trimmed names, once; every other binding is as before. */
  lemma BindDoes(s: State, d: Id, secret: string, target: string)
    requires Valid(s)
    ensures var (s', answer) := Bind(s, d, secret, target);
            var (name, key) := (Text.TrimSpace(secret), Text.TrimSpace(target));
            && (answer == Invalid <==> name == "") && (answer == Missing <==> name != "" && !Exists(s, d))
            && (answer != Ok ==> s' == s)
            && (answer == Ok ==> IsBound(s', d, name, key) && s' == s.(secrets := s'.secrets, issued := s'.issued))
            && (answer == Ok && IsBound(s, d, name, key) ==> s' == s)
            && (answer == Ok && !IsBound(s, d, name, key) ==> Binding(s.issued, d, name, key) in s'.secrets && s'.issued == s.issued + 1)
            && (forall x :: x in s.secrets ==> x in s'.secrets)
            && (forall x :: x in s'.secrets && BindingKey(x) != (d, name, key) ==> x in s.secrets)
  {
    hide Text.TrimSpace, BuildsHold, VariablesHold, RevisionsHold, DeploymentsHold;
    FindIs(s, d);
    var (s', answer) := Bind(s, d, secret, target);
    var (name, key) := (Text.TrimSpace(secret), Text.TrimSpace(target));
    var at := First(s.secrets, SameBinding(d, name, key));
    if at.Some? {
      assert s.secrets[at.value] in s.secrets;
    }
    if answer == Ok && at.None? {
      assert s'.secrets[|s.secrets|] in s'.secrets;
    }
  }

  lemma UnbindDoes(s: State, b: Id)
    requires Valid(s)
    ensures var (s', answer) := Unbind(s, b);
            && (answer == Ok <==> exists x :: x in s.secrets && x.id == b) && (answer != Ok ==> answer == Missing && s' == s)
            && s' == s.(secrets := s'.secrets)
            && (forall x :: x in s'.secrets <==> x in s.secrets && x.id != b)
  {
    hide Valid;
    var at := First(s.secrets, WithBindingId(b));
    if at.Some? {
      assert s.secrets[at.value] in s.secrets;
    }
  }

  /** Afterwards the variable has the new value and flag, and every other variable is as before. */
  lemma SetVariableDoes(s: State, d: Id, key: string, cipher: string, hidden: bool)
    requires Valid(s)
    ensures var (s', answer) := SetVariable(s, d, key, cipher, hidden);
            var name := Text.TrimSpace(key);
            && (answer == Invalid <==> name == "") && (answer == Missing <==> name != "" && !Exists(s, d))
            && (answer != Ok ==> s' == s) && s' == s.(variables := s'.variables, issued := s'.issued)
            && (answer == Ok ==> exists x :: x in s'.variables && VariableKey(x) == (d, name) && x.cipher == cipher && x.hidden == hidden)
            && (forall x :: VariableKey(x) != (d, name) ==> (x in s'.variables <==> x in s.variables))
            && (answer == Ok && (forall x :: x in s.variables ==> VariableKey(x) != (d, name)) ==>
                  Variable(s.issued, d, name, cipher, hidden) in s'.variables && s'.issued == s.issued + 1)
            && (forall x, y :: x in s.variables && VariableKey(x) == (d, name) && y in s'.variables && VariableKey(y) == (d, name) ==> y.id == x.id)
  {
    hide Text.TrimSpace, BuildsHold, SecretsHold, RevisionsHold, DeploymentsHold;
    FindIs(s, d);
    var (s', answer) := SetVariable(s, d, key, cipher, hidden);
    var name := Text.TrimSpace(key);
    var at := First(s.variables, SameVariable(d, name));
    if answer == Ok {
      var i := if at.Some? then at.value else |s.variables|;
      assert s'.variables[i] in s'.variables;
      forall x | VariableKey(x) != (d, name) ensures x in s'.variables <==> x in s.variables {
        if x in s.variables {
          var j :| 0 <= j < |s.variables| && s.variables[j] == x;
          assert s'.variables[j] == x;
        }
      }
    }
  }

  lemma DropVariableDoes(s: State, d: Id, key: string)
    requires Valid(s)
    ensures var (s', answer) := DropVariable(s, d, key);
            var name := Text.TrimSpace(key);
            && (answer == Ok <==> exists x :: x in s.variables && VariableKey(x) == (d, name) && name != "")
            && (answer == Invalid <==> name == "") && (answer != Ok ==> s' == s)
            && s' == s.(variables := s'.variables)
            && (forall x :: x in s'.variables <==> x in s.variables && !(answer == Ok && VariableKey(x) == (d, name)))
  {
    hide Text.TrimSpace, BuildsHold, SecretsHold, RevisionsHold, DeploymentsHold;
    FindIs(s, d);
    var name := Text.TrimSpace(key);
    var at := First(s.variables, SameVariable(d, name));
    if at.Some? {
      assert s.variables[at.value] in s.variables;
    }
  }

  /** What every handler keeps: a valid store stays valid and its logs grow, and a refused request changes nothing. */
  ghost predicate Sound(s: State, s': State, answer: Answer)
  {
    (Valid(s) ==> Valid(s') && Grows(s, s')) && (answer == Missing || answer == Invalid ==> s' == s)
  }

  lemma HandleIsSound(s: State, r: Request, works: bool)
    ensures Sound(s, Answered(s, r, works).0, Answered(s, r, works).1)
  {
    RefusedChangesNothing(s, r);
    hide Valid, Grows, Handle;
    if Valid(s) {
      HandleKeeps(s, r);
      HandleGrows(s, r);
    }
  }

  /** Whether the write to the cluster works decides nothing but the answer: the store is what it would be anyway, and
      the caller is told of the failure exactly if the request writes to the cluster and was accepted. */
  lemma UnsyncedIff(s: State, r: Request, works: bool)
    ensures var (s', answer) := Answered(s, r, works);
            && s' == Handle(s, r).0
            && (answer == Unsynced <==> Syncs(r) && Handle(s, r).1 == Ok && !works)
            && (answer != Unsynced ==> answer == Handle(s, r).1)
  {
    HandleNeverUnsynced(s, r);
    hide Handle;
  }

  lemma HandleNeverUnsynced(s: State, r: Request)
    ensures Handle(s, r).1 != Unsynced
  {
    hide Text.TrimSpace, Text.OrElse, KnownMode, GoodPatch, EmptyPatch, Record, Replace, Find, FindRevision, First, Filter;
  }

  /** Rolling back to a digest that is given trimmed, as every caller does. */
  lemma ByDigestIsSound(s: State, d: Id, digest: string, works: bool)
    requires Clean(digest)
    ensures var (s', answer) := Synced(RollbackByDigest(s, d, digest), works); Sound(s, s', answer)
  {
    hide Valid, Grows, Record;
    if Valid(s) {
      ByDigestKeeps(s, d, digest);
      ByDigestGrows(s, d, digest);
    }
  }

  lemma RefusedChangesNothing(s: State, r: Request)
    ensures Handle(s, r).1 != Ok ==> Handle(s, r).0 == s
  {
    hide Text.TrimSpace, Text.OrElse, KnownMode, GoodPatch, EmptyPatch, Record, Replace, Find, FindRevision, First, Filter;
  }

  /** Deleting a deployment removes everything that refers to it and nothing else; an unknown one is reported missing. */
  lemma DeleteRemovesAll(s: State, d: Id)
    requires Valid(s)
    ensures !Exists(s, d) ==> Delete(s, d) == (s, Missing)
    ensures var s' := Delete(s, d).0;
            Exists(s, d) ==>
            && Delete(s, d).1 == Ok && !Exists(s', d) && d !in s'.revisions && s'.issued == s.issued
            && (forall x :: x in s'.deployments <==> x in s.deployments && x.id != d)
            && (forall x :: x in s'.builds <==> x in s.builds && x.deployment != d)
            && (forall x :: x in s'.secrets <==> x in s.secrets && x.deployment != d)
            && (forall x :: x in s'.variables <==> x in s.variables && x.deployment != d)
            && (forall e :: e != d ==> Log(s', e) == Log(s, e) && (Exists(s', e) <==> Exists(s, e)))
  {
    hide Text.TrimSpace, BuildsHold, SecretsHold, VariablesHold, RevisionsHold;
    FindIs(s, d);
    if Exists(s, d) {
      OthersRemain(s, d);
    }
  }
}
