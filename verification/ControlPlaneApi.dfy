// The handlers of the control plane over the fields they mutate, each proved to leave the
// state and to give the answer of its function in ControlPlane, and the in-place reversal
// that lists revisions newest first
// (services/control-plane/internal/httpapi/httpapi.go:303-787, 930-1050, 1427-1515, 1717-2228, 2313-2491).

module ControlPlaneApi {
  import opened Basics
  import opened ControlPlane
  import Text

  function Reversed<T>(s: seq<T>): (r: seq<T>)
    ensures |r| == |s|
  {
    seq(|s|, i requires 0 <= i < |s| => s[|s| - 1 - i])
  }

  class Api {
    var deployments: seq<Deployment>
    var builds: seq<Build>
    var secrets: seq<Binding>
    var variables: seq<Variable>
    var revisions: map<Id, seq<Revision>>
    var issued: nat

    constructor ()
      ensures View() == EMPTY
    {
      deployments, builds, secrets, variables, revisions, issued := [], [], [], [], map[], 0;
    }

    ghost function View(): State
      reads this
    {
      State(deployments, builds, secrets, variables, revisions, issued)
    }

    method NewID() returns (id: Id)
      modifies `issued
      ensures id == old(issued) && issued == old(issued) + 1
    {
      id := issued;
      issued := issued + 1;
    }

    /** getDeployment, by position */
    method GetDeployment(d: Id) returns (at: Option<nat>)
      ensures at == Find(View(), d)
    {
      at := Search(deployments, WithId(d));
    }

    /** recordDeploymentRevision */
    method RecordDeploymentRevision(dep: Deployment, reason: Reason)
      modifies `revisions, `issued
      ensures View() == Record(old(View()), dep, reason)
    {
      var digest := Text.TrimSpace(dep.digest);
      hide Text.TrimSpace;
      var id := NewID();
      var revision := NewID();
      var log := if dep.id in revisions then revisions[dep.id] else [];
      revisions := revisions[dep.id := log + [Revision(id, dep.id, revision, digest, reason)]];
    }

    method CreateDeployment(d: Draft, works: bool) returns (answer: Answer)
      modifies this
      ensures (View(), answer) == Synced(Create(old(View()), d), works)
      ensures Sound(old(View()), View(), answer)
    {
      hide Sound;
      HandleIsSound(View(), CreateIt(d), works);
      hide Text.TrimSpace, Record;
      if Text.TrimSpace(d.repoURL) == "" {
        return Invalid;
      }
      var project := Text.OrElse(Text.TrimSpace(d.project), "proj_default");
      var mode := Text.OrElse(d.mode, "mode_a");
      if !KnownMode(mode) {
        return Invalid;
      }
      var id := NewID();
      var dep := Deployment(id, project, d.repoURL, Text.OrElse(d.gitRef, "main"), Text.OrElse(d.repoPath, "/"),
                            Text.OrElse(d.profile, "gvisor"), mode, "");
      deployments := deployments + [dep];
      RecordDeploymentRevision(dep, Created);
      answer := if works then Ok else Unsynced;
    }

    method UpdateDeployment(d: Id, p: Patch, works: bool) returns (answer: Answer)
      modifies this
      ensures (View(), answer) == Synced(Update(old(View()), d, p), works)
      ensures Sound(old(View()), View(), answer)
    {
      hide Sound;
      HandleIsSound(View(), UpdateIt(d, p), works);
      hide Text.TrimSpace, Record, KnownMode;
      if EmptyPatch(p) {
        return Invalid;
      }
      var at := GetDeployment(d);
      if at.None? {
        return Missing;
      }
      var rec := deployments[at.value];
      if p.repoURL.Some? {
        if Text.TrimSpace(p.repoURL.value) == "" {
          return Invalid;
        }
        rec := rec.(repoURL := Text.TrimSpace(p.repoURL.value));
      }
      if p.gitRef.Some? {
        if Text.TrimSpace(p.gitRef.value) == "" {
          return Invalid;
        }
        rec := rec.(gitRef := Text.TrimSpace(p.gitRef.value));
      }
      if p.repoPath.Some? {
        if Text.TrimSpace(p.repoPath.value) == "" {
          return Invalid;
        }
        rec := rec.(repoPath := Text.TrimSpace(p.repoPath.value));
      }
      if p.profile.Some? {
        if Text.TrimSpace(p.profile.value) == "" {
          return Invalid;
        }
        rec := rec.(profile := Text.TrimSpace(p.profile.value));
      }
      if p.mode.Some? {
        if !KnownMode(Text.TrimSpace(p.mode.value)) {
          return Invalid;
        }
        rec := rec.(mode := Text.TrimSpace(p.mode.value));
      }
      assert rec == Patched(deployments[at.value], p);
      deployments := deployments[at.value := rec];
      RecordDeploymentRevision(rec, Updated);
      answer := if works then Ok else Unsynced;
    }

    method RollbackDeploymentByDigest(d: Id, digest: string, works: bool) returns (answer: Answer)
      modifies this
      ensures (View(), answer) == Synced(RollbackByDigest(old(View()), d, digest), works)
      ensures Clean(digest) ==> Sound(old(View()), View(), answer)
    {
      hide Record, Sound;
      if Clean(digest) {
        ByDigestIsSound(View(), d, digest, works);
      }
      var at := GetDeployment(d);
      if at.None? {
        return Missing;
      }
      var rec := deployments[at.value].(digest := digest);
      deployments := deployments[at.value := rec];
      RecordDeploymentRevision(rec, RolledBack);
      answer := if works then Ok else Unsynced;
    }

    method RollbackDeployment(d: Id, digest: string, works: bool) returns (answer: Answer)
      modifies this
      ensures (View(), answer) == Synced(Rollback(old(View()), d, digest), works)
      ensures Sound(old(View()), View(), answer)
    {
      hide Sound;
      HandleIsSound(View(), RollbackIt(d, digest), works);
      hide RollbackByDigest, Text.TrimSpace;
      if Text.TrimSpace(digest) == "" {
        return Invalid;
      }
      answer := RollbackDeploymentByDigest(d, Text.TrimSpace(digest), works);
    }

    /** getDeploymentRevisionByRevisionID, by position */
    method GetRevision(d: Id, revision: Id) returns (at: Option<nat>)
      ensures at == FindRevision(View(), d, revision)
    {
      var log := if d in revisions then revisions[d] else [];
      at := Search(log, WithRevision(revision));
    }

    method RollbackDeploymentV2(d: Id, revision: Option<Id>, digest: string, works: bool) returns (answer: Answer)
      modifies this
      ensures (View(), answer) == Synced(RollbackV2(old(View()), d, revision, digest), works)
      ensures Sound(old(View()), View(), answer)
    {
      hide Sound;
      HandleIsSound(View(), RollbackItV2(d, revision, digest), works);
      hide RollbackByDigest, Text.TrimSpace;
      var imageDigest := Text.TrimSpace(digest);
      if revision.None? && imageDigest == "" {
        return Invalid;
      }
      if imageDigest == "" {
        var at := GetRevision(d, revision.value);
        if at.None? {
          return Missing;
        }
        imageDigest := Text.TrimSpace(revisions[d][at.value].digest);
        if imageDigest == "" {
          return Invalid;
        }
      }
      answer := RollbackDeploymentByDigest(d, imageDigest, works);
    }

    method DeleteDeployment(d: Id, works: bool) returns (answer: Answer)
      modifies this
      ensures (View(), answer) == Synced(Delete(old(View()), d), works)
      ensures Sound(old(View()), View(), answer)
    {
      hide Sound;
      HandleIsSound(View(), DeleteIt(d), works);
      hide Filter, OtherThan, BuildElsewhere, BindingElsewhere, VariableElsewhere, WithId, First;
      var at := GetDeployment(d);
      if at.None? {
        return Missing;
      }
      deployments := Keep(deployments, OtherThan(d));
      builds := Keep(builds, BuildElsewhere(d));
      revisions := revisions - {d};
      secrets := Keep(secrets, BindingElsewhere(d));
      variables := Keep(variables, VariableElsewhere(d));
      answer := if works then Ok else Unsynced;
    }

    method TriggerBuildWithoutBuilder(d: Id, commit: string, image: string) returns (answer: Answer)
      modifies this
      ensures (View(), answer) == QueueBuild(old(View()), d, commit, image)
      ensures Sound(old(View()), View(), answer)
    {
      hide Sound;
      HandleIsSound(View(), QueueIt(d, commit, image), true);
      hide Text.TrimSpace;
      if Text.TrimSpace(commit) == "" || Text.TrimSpace(image) == "" {
        return Invalid;
      }
      var at := GetDeployment(d);
      if at.None? {
        return Missing;
      }
      var id := NewID();
      builds := builds + [Build(id, d, commit)];
      answer := Ok;
    }

    method SetRuntimePolicy(d: Id, profile: string, mode: string, works: bool) returns (answer: Answer)
      modifies this
      ensures (View(), answer) == Synced(SetPolicy(old(View()), d, profile, mode), works)
      ensures Sound(old(View()), View(), answer)
    {
      hide Sound;
      HandleIsSound(View(), PolicyIt(d, profile, mode), works);
      hide KnownMode, Text.OrElse;
      var wanted := Text.OrElse(mode, "mode_a");
      if !KnownMode(wanted) {
        return Invalid;
      }
      var at := GetDeployment(d);
      if at.None? {
        return Missing;
      }
      deployments := deployments[at.value := deployments[at.value].(profile := Text.OrElse(profile, "gvisor"), mode := wanted)];
      answer := if works then Ok else Unsynced;
    }

    method BindSecret(d: Id, secret: string, target: string) returns (answer: Answer)
      modifies this
      ensures (View(), answer) == Bind(old(View()), d, secret, target)
      ensures Sound(old(View()), View(), answer)
    {
      hide Sound;
      HandleIsSound(View(), BindIt(d, secret, target), true);
      hide Text.TrimSpace, SameBinding;
      var (name, key) := (Text.TrimSpace(secret), Text.TrimSpace(target));
      if name == "" {
        return Invalid;
      }
      var at := GetDeployment(d);
      if at.None? {
        return Missing;
      }
      var found := Search(secrets, SameBinding(d, name, key));
      if found.None? {
        var id := NewID();
        secrets := secrets + [Binding(id, d, name, key)];
      }
      answer := Ok;
    }

    method DeleteSecretBinding(b: Id) returns (answer: Answer)
      modifies this
      ensures (View(), answer) == Unbind(old(View()), b)
      ensures Sound(old(View()), View(), answer)
    {
      hide Sound;
      HandleIsSound(View(), UnbindIt(b), true);
      var found := Search(secrets, WithBindingId(b));
      if found.None? {
        return Missing;
      }
      secrets := Keep(secrets, OtherBinding(b));
      answer := Ok;
    }

    method UpsertDeploymentVariable(d: Id, key: string, cipher: string, hidden: bool) returns (answer: Answer)
      modifies this
      ensures (View(), answer) == SetVariable(old(View()), d, key, cipher, hidden)
      ensures Sound(old(View()), View(), answer)
    {
      hide Sound;
      HandleIsSound(View(), SetIt(d, key, cipher, hidden), true);
      hide Text.TrimSpace, SameVariable;
      var name := Text.TrimSpace(key);
      if name == "" {
        return Invalid;
      }
      var at := GetDeployment(d);
      if at.None? {
        return Missing;
      }
      var found := Search(variables, SameVariable(d, name));
      if found.Some? {
        variables := variables[found.value := Variable(variables[found.value].id, d, name, cipher, hidden)];
      } else {
        var id := NewID();
        variables := variables + [Variable(id, d, name, cipher, hidden)];
      }
      answer := Ok;
    }

    method DeleteDeploymentVariable(d: Id, key: string) returns (answer: Answer)
      modifies this
      ensures (View(), answer) == DropVariable(old(View()), d, key)
      ensures Sound(old(View()), View(), answer)
    {
      hide Sound;
      HandleIsSound(View(), DropIt(d, key), true);
      hide Text.TrimSpace, SameVariable, OtherVariable;
      var name := Text.TrimSpace(key);
      if name == "" {
        return Invalid;
      }
      var at := GetDeployment(d);
      if at.None? {
        return Missing;
      }
      var found := Search(variables, SameVariable(d, name));
      if found.None? {
        return Missing;
      }
      variables := Keep(variables, OtherVariable(d, name));
      answer := Ok;
    }

    /** listDeploymentRevisionsForDeployment: a copy of the log, reversed in place. */
    method ListRevisions(d: Id) returns (items: seq<Revision>)
      ensures items == Reversed(Log(View(), d))
    {
      var log := if d in revisions then revisions[d] else [];
      if log == [] {
        return [];
      }
      var a := new Revision[|log|](i requires 0 <= i < |log| => log[i]);
      ReverseInPlace(a);
      items := a[..];
    }
  }

  method ReverseInPlace<T>(a: array<T>)
    modifies a
    ensures a[..] == Reversed(old(a[..]))
  {
    var i, j := 0, a.Length - 1;
    while i < j
      invariant 0 <= i && i + j == a.Length - 1 && i <= j + 1
      invariant forall k :: 0 <= k < i || j < k < a.Length ==> a[k] == old(a[a.Length - 1 - k])
      invariant forall k :: i <= k <= j ==> a[k] == old(a[k])
    {
      a[i], a[j] := a[j], a[i];
      i, j := i + 1, j - 1;
    }
  }

  /** The newest revision, which records the current digest of the deployment, is listed first. */
  lemma NewestFirst(s: State, d: Id)
    requires Valid(s) && Exists(s, d)
    ensures var items := Reversed(Log(s, d));
            items != [] && items[0].digest == Current(s, d)
    ensures Reversed(Reversed(Log(s, d))) == Log(s, d)
  {
    hide Text.TrimSpace, BuildsHold, SecretsHold, VariablesHold;
    FindIs(s, d);
    assert LogHolds(s, d);
  }
}
