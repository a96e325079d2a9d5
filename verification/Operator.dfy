// The operator's reconciliation of one AgentDeployment against a cluster whose calls may
// fail before or after they take effect
// (services/operator/internal/controllers/agentdeployment_controller.go:53-360).

module Operator {
  import opened Basics
  import Text

  datatype Kind = Deployment | Service | NetworkPolicy | Ingress | SandboxTemplate | SandboxWarmPool

  datatype Key = Key(kind: Kind, namespace: string, name: string)

  datatype Role = Api | Worker(mode: string, sandbox: Option<string>)

  /** The parts of a spec that depend on the resource; the constant parts are left out. */
  datatype Spec =
    | DeploymentSpec(app: string, role: Role, image: string, runtimeClass: string, replicas: int)
    | ServiceSpec(app: string, clusterIP: string)
    | PolicySpec(app: string, egress: seq<string>)
    | IngressSpec(host: string, service: string, className: Option<string>, tls: Option<string>)
    | TemplateSpec(image: string, runtimeClass: string)
    | WarmPoolSpec(template: string, replicas: int)

  /** An AgentDeployment. */
  datatype Resource = Resource(
    namespace: string, name: string, generation: int,
    image: string, rollbackImage: string, mode: string, runtimeClassName: string, replicas: Option<int>,
    sandboxTemplate: string, warmPoolReplicas: Option<int>,
    ingressEnabled: bool, ingressHost: string, ingressClassName: string, ingressTLSSecretRef: string,
    egressAllowlist: seq<string>)

  datatype Message = Reconciled(image: string, mode: string, runtimeClass: string) | SandboxMissing

  datatype Status = Status(ready: bool, observedGeneration: int, message: Message)

  type Objects = map<Key, Spec>

  function Mode(dep: Resource): string { Text.OrElse(Text.TrimSpace(dep.mode), "mode_a") }

  function Image(dep: Resource): string { Text.OrElse(Text.TrimSpace(dep.rollbackImage), Text.TrimSpace(dep.image)) }

  function RuntimeClass(dep: Resource): string { Text.OrElse(dep.runtimeClassName, "gvisor") }

  function Replicas(dep: Resource): int { if dep.replicas.Some? then dep.replicas.value else 1 }

  function TemplateName(dep: Resource): string { Text.OrElse(Text.TrimSpace(dep.sandboxTemplate), dep.name + "-sandbox-template") }

  predicate InSandbox(dep: Resource) { Mode(dep) == "mode_b" }

  predicate WantsIngress(dep: Resource) { dep.ingressEnabled && Text.TrimSpace(dep.ingressHost) != "" }

  function NonBlank(s: string): Option<string> { if Text.TrimSpace(s) == "" then None else Some(Text.TrimSpace(s)) }

  // ---------------------------------------------------------------------------
  // Desired state
  // ---------------------------------------------------------------------------

  function ApiKey(dep: Resource): Key { Key(Deployment, dep.namespace, dep.name + "-api") }
  function WorkerKey(dep: Resource): Key { Key(Deployment, dep.namespace, dep.name + "-worker") }
  function ServiceKey(dep: Resource): Key { Key(Service, dep.namespace, dep.name) }
  function PolicyKey(dep: Resource): Key { Key(NetworkPolicy, dep.namespace, dep.name + "-egress") }
  function IngressKey(dep: Resource): Key { Key(Ingress, dep.namespace, dep.name) }
  function TemplateKey(dep: Resource): Key { Key(SandboxTemplate, dep.namespace, TemplateName(dep)) }
  function WarmPoolKey(dep: Resource): Key { Key(SandboxWarmPool, dep.namespace, dep.name + "-warm-pool") }

  function DesiredApi(dep: Resource): Spec
  {
    DeploymentSpec(dep.name, Api, Image(dep), RuntimeClass(dep), Replicas(dep))
  }

  function DesiredWorker(dep: Resource): Spec
  {
    DeploymentSpec(dep.name, Worker(Mode(dep), if InSandbox(dep) then Some(TemplateName(dep)) else None),
                   Image(dep), RuntimeClass(dep), Replicas(dep))
  }

  function DesiredService(dep: Resource): Spec { ServiceSpec(dep.name, "") }

  /** The allowed blocks: trimmed, not blank, and parsed by net.ParseCIDR. */
  function Blocks(allow: seq<string>, isCIDR: string -> bool): seq<string>
  {
    if allow == [] then []
    else
      var c := Text.TrimSpace(allow[|allow| - 1]);
      var front := Blocks(allow[..|allow| - 1], isCIDR);
      if c == "" || !isCIDR(c) then front else front + [c]
  }

  predicate Offered(allow: seq<string>, c: string) { exists i :: 0 <= i < |allow| && Text.TrimSpace(allow[i]) == c }

  /** Exactly the entries that are, trimmed, neither blank nor malformed. */
  lemma {:induction false} BlocksAre(allow: seq<string>, isCIDR: string -> bool, c: string)
    ensures c in Blocks(allow, isCIDR) <==> c != "" && isCIDR(c) && Offered(allow, c)
    decreases |allow|
  {
    hide Text.TrimSpace;
    if allow != [] {
      var front := allow[..|allow| - 1];
      BlocksAre(front, isCIDR, c);
      if Offered(front, c) {
        var i :| 0 <= i < |front| && Text.TrimSpace(front[i]) == c;
        assert Text.TrimSpace(allow[i]) == c;
      }
      if Offered(allow, c) {
        var i :| 0 <= i < |allow| && Text.TrimSpace(allow[i]) == c;
        assert i < |front| ==> Text.TrimSpace(front[i]) == c;
      }
    }
  }

  function DesiredPolicy(dep: Resource, isCIDR: string -> bool): Spec
  {
    PolicySpec(dep.name, Blocks(dep.egressAllowlist, isCIDR))
  }

  function DesiredIngress(dep: Resource): Spec
  {
    IngressSpec(dep.ingressHost, dep.name, NonBlank(dep.ingressClassName), NonBlank(dep.ingressTLSSecretRef))
  }

  /** The template carries the image of the spec, also while a rollback image is set. */
  function DesiredTemplate(dep: Resource): Spec { TemplateSpec(dep.image, RuntimeClass(dep)) }

  function DesiredWarmPool(dep: Resource): Spec
  {
    WarmPoolSpec(TemplateName(dep), if dep.warmPoolReplicas.Some? then dep.warmPoolReplicas.value else 1)
  }

  /** A spec as it is stored: a service keeps its cluster IP, or is given one when it is created. */
  function Stored(before: Option<Spec>, desired: Spec, ip: string): Spec
  {
    if desired.ServiceSpec? then
      desired.(clusterIP := match before case Some(ServiceSpec(_, kept)) => kept case _ => ip)
    else desired
  }

  datatype Op = Put(key: Key, spec: Spec) | Remove(key: Key)

  function Find(o: Objects, k: Key): Option<Spec> { if k in o then Some(o[k]) else None }

  function Do(o: Objects, op: Op, ip: string): Objects
  {
    match op
    case Put(k, spec) => o[k := Stored(Find(o, k), spec, ip)]
    case Remove(k) => o - {k}
  }

  function DoAll(o: Objects, ops: seq<Op>, ip: string): Objects
  {
    if ops == [] then o else Do(DoAll(o, ops[..|ops| - 1], ip), ops[|ops| - 1], ip)
  }

  function CoreOps(dep: Resource, isCIDR: string -> bool): seq<Op>
  {
    [Put(ApiKey(dep), DesiredApi(dep)), Put(WorkerKey(dep), DesiredWorker(dep)), Put(ServiceKey(dep), DesiredService(dep)),
     Put(PolicyKey(dep), DesiredPolicy(dep, isCIDR)),
     if WantsIngress(dep) then Put(IngressKey(dep), DesiredIngress(dep)) else Remove(IngressKey(dep))]
  }

  function SandboxOps(dep: Resource): seq<Op>
  {
    [Put(TemplateKey(dep), DesiredTemplate(dep)), Put(WarmPoolKey(dep), DesiredWarmPool(dep))]
  }

  /** What a reconcile does, in order. */
  function Ops(dep: Resource, isCIDR: string -> bool): seq<Op>
  {
    CoreOps(dep, isCIDR) + if InSandbox(dep) then SandboxOps(dep) else []
  }

  predicate Holds(o: Objects, k: Key, desired: Spec)
  {
    k in o && o[k] == Stored(Some(o[k]), desired, "") && (desired.ServiceSpec? ==> o[k].ServiceSpec?)
  }

  /** Every managed object is as desired, and the ingress exists exactly when it is wanted. */
  predicate Converged(o: Objects, dep: Resource, isCIDR: string -> bool)
  {
    && Holds(o, ApiKey(dep), DesiredApi(dep)) && Holds(o, WorkerKey(dep), DesiredWorker(dep))
    && Holds(o, ServiceKey(dep), DesiredService(dep)) && Holds(o, PolicyKey(dep), DesiredPolicy(dep, isCIDR))
    && (if WantsIngress(dep) then Holds(o, IngressKey(dep), DesiredIngress(dep)) else IngressKey(dep) !in o)
    && (InSandbox(dep) ==> Holds(o, TemplateKey(dep), DesiredTemplate(dep)) && Holds(o, WarmPoolKey(dep), DesiredWarmPool(dep)))
  }

  // ---------------------------------------------------------------------------
  // The cluster and the calls
  // ---------------------------------------------------------------------------

  datatype Failure = NotFound | NoMatch | Other

  /** How a call comes out: it works, or it reports a failure although it may have taken effect. */
  datatype Fate = Works | Breaks(done: bool, how: Failure)

  datatype Outcome = Gone | Done | WaitForSandbox | Failed

  class Cluster {
    var resources: map<(string, string), Resource>
    var objects: Objects
    var statuses: map<(string, string), Status>
    var calls: nat
    const fate: nat -> Fate
    const sandboxKinds: bool
    const isCIDR: string -> bool

    constructor (fate: nat -> Fate, sandboxKinds: bool, isCIDR: string -> bool)
      ensures this.fate == fate && this.sandboxKinds == sandboxKinds && this.isCIDR == isCIDR
      ensures objects == map[] && statuses == map[] && resources == map[]
    {
      this.fate, this.sandboxKinds, this.isCIDR := fate, sandboxKinds, isCIDR;
      resources, objects, statuses, calls := map[], map[], map[], 0;
    }

    /** Every call works. */
    ghost predicate Calm() { forall c: nat :: fate(c).Works? }

    /** The cluster knows the kind. */
    predicate Knows(k: Key) { k.kind.SandboxTemplate? || k.kind.SandboxWarmPool? ==> sandboxKinds }

    method NextFate() returns (f: Fate)
      modifies `calls
      ensures Calm() ==> f.Works?
    {
      f := fate(calls);
      calls := calls + 1;
    }

    /** A read can break, but it does not report an existing object as missing. */
    method Get(k: Key) returns (err: Option<Failure>, current: Option<Spec>)
      modifies `calls
      ensures err.None? ==> current == Find(objects, k) && current.Some?
      ensures err == Some(NotFound) ==> k !in objects
      ensures Calm() ==> err == if !Knows(k) then Some(NoMatch) else if k in objects then None else Some(NotFound)
    {
      current := None;
      var f := NextFate();
      if f.Breaks? {
        return Some(Other), None;
      }
      if (k.kind.SandboxTemplate? || k.kind.SandboxWarmPool?) && !sandboxKinds {
        return Some(NoMatch), None;
      }
      if k !in objects {
        return Some(NotFound), None;
      }
      return None, Some(objects[k]);
    }

    method Create(k: Key, spec: Spec, ip: string) returns (err: Option<Failure>, ghost did: bool)
      requires k !in objects
      modifies `objects, `calls
      ensures objects == if did then Do(old(objects), Put(k, spec), ip) else old(objects)
      ensures err.None? ==> did
      ensures Calm() ==> err.None?
    {
      var f := NextFate();
      if f.Works? || f.done {
        objects := objects[k := Stored(None, spec, ip)];
      }
      err := if f.Works? then None else Some(f.how);
      did := f.Works? || f.done;
    }

    method Update(k: Key, spec: Spec) returns (err: Option<Failure>, ghost did: bool)
      requires k in objects
      modifies `objects, `calls
      ensures objects == if did then old(objects)[k := spec] else old(objects)
      ensures err.None? ==> did
      ensures Calm() ==> err.None?
    {
      var f := NextFate();
      if f.Works? || f.done {
        objects := objects[k := spec];
      }
      err := if f.Works? then None else Some(f.how);
      did := f.Works? || f.done;
    }

    method Delete(k: Key) returns (err: Option<Failure>, ghost did: bool)
      modifies `objects, `calls
      ensures objects == if did then old(objects) - {k} else old(objects)
      ensures err.None? ==> did
      ensures Calm() ==> err.None?
    {
      var f := NextFate();
      if f.Works? || f.done {
        objects := objects - {k};
      }
      err := if f.Works? then None else Some(f.how);
      did := f.Works? || f.done;
    }

    // Get, then create or update ------------------------------------------------------

    /** reconcileDeployment, reconcileNetworkPolicy and reconcileIngress */
    method ReconcileObject(k: Key, desired: Spec, ip: string) returns (err: Option<Failure>, ghost did: bool)
      requires !desired.ServiceSpec?
      modifies `objects, `calls
      ensures objects == if did then Do(old(objects), Put(k, desired), ip) else old(objects)
      ensures err.None? ==> did
      ensures Calm() && Knows(k) ==> err.None?
    {
      var getErr, current := Get(k);
      if getErr == Some(NotFound) {
        err, did := Create(k, desired, ip);
        return;
      }
      if getErr.Some? {
        return getErr, false;
      }
      err, did := Update(k, desired);
    }

    method ReconcileService(k: Key, desired: Spec, ip: string) returns (err: Option<Failure>, ghost did: bool)
      requires desired.ServiceSpec?
      modifies `objects, `calls
      ensures objects == if did then Do(old(objects), Put(k, desired), ip) else old(objects)
      ensures err.None? ==> did
      ensures Calm() && Knows(k) ==> err.None?
    {
      var getErr, current := Get(k);
      if getErr == Some(NotFound) {
        err, did := Create(k, desired, ip);
        return;
      }
      if getErr.Some? {
        return getErr, false;
      }
      var clusterIP := match current.value case ServiceSpec(_, kept) => kept case _ => ip;
      err, did := Update(k, desired.(clusterIP := clusterIP));
    }

    method DeleteIngressIfExists(k: Key, ip: string) returns (err: Option<Failure>, ghost did: bool)
      modifies `objects, `calls
      ensures objects == if did then Do(old(objects), Remove(k), ip) else old(objects)
      ensures err.None? ==> did
      ensures Calm() && Knows(k) ==> err.None?
    {
      var getErr, current := Get(k);
      if getErr == Some(NotFound) {
        assert objects - {k} == objects;
        return None, true;
      }
      if getErr.Some? {
        return getErr, false;
      }
      err, did := Delete(k);
    }

    /** reconcileUnstructured: a created object is read back. */
    method ReconcileUnstructured(k: Key, desired: Spec, ip: string) returns (err: Option<Failure>, ghost did: bool)
      requires !desired.ServiceSpec?
      modifies `objects, `calls
      ensures objects == if did then Do(old(objects), Put(k, desired), ip) else old(objects)
      ensures err.None? ==> did
      ensures Calm() ==> if Knows(k) then err.None? else err == Some(NoMatch) && !did
    {
      var getErr, current := Get(k);
      if getErr == Some(NotFound) {
        err, did := Create(k, desired, ip);
        if err.Some? {
          return;
        }
        err, current := Get(k);
        return;
      }
      if getErr.Some? {
        return getErr, false;
      }
      err, did := Update(k, desired);
    }

    /** desiredNetworkPolicy's loop */
    method EgressBlocks(allow: seq<string>) returns (egress: seq<string>)
      ensures egress == Blocks(allow, isCIDR)
    {
      egress := [];
      for i := 0 to |allow|
        invariant egress == Blocks(allow[..i], isCIDR)
      {
        assert allow[..i + 1][..i] == allow[..i];
        var cidr := Text.TrimSpace(allow[i]);
        if cidr == "" {
          continue;
        }
        if !isCIDR(cidr) {
          continue;
        }
        egress := egress + [cidr];
      }
      assert allow[..|allow|] == allow;
    }

    /** The calls on the sandbox kinds; the last one reads the warm pool back. */
    method ReconcileSandboxResources(dep: Resource, ip: string) returns (err: Option<Failure>, ghost n: nat)
      modifies `objects, `calls
      ensures n <= 2
      ensures objects == DoAll(old(objects), SandboxOps(dep)[..n], ip)
      ensures err.None? ==> n == 2
      ensures Calm() ==> if sandboxKinds then err.None? else err == Some(NoMatch) && n == 0
    {
      ghost var ops := SandboxOps(dep);
      OpsInOrder(objects, ops, ip);
      KeyKinds(dep);
      SandboxOpsAre(dep);
      hide DoAll, Stored, SandboxOps, Calm, TemplateKey, WarmPoolKey, DesiredTemplate, DesiredWarmPool;
      n := 0;
      ghost var did;
      err, did := ReconcileUnstructured(TemplateKey(dep), DesiredTemplate(dep), ip);
      n := if did then 1 else 0;
      assert objects == DoAll(old(objects), ops[..n], ip);
      if err.Some? {
        return;
      }
      ghost var o1 := objects;
      assert DoAll(old(objects), ops[..1 + 1], ip) == Do(o1, ops[1], ip);
      err, did := ReconcileUnstructured(WarmPoolKey(dep), DesiredWarmPool(dep), ip);
      n := if did then 2 else 1;
      if err.Some? {
        return;
      }
      var observed: Option<Spec>;
      err, observed := Get(WarmPoolKey(dep));
    }

    /** The five kinds that every mode has, in the order of the source, up to the first failure. */
    method ReconcileCore(dep: Resource, ip: string) returns (err: Option<Failure>, ghost n: nat)
      modifies `objects, `calls
      ensures n <= |CoreOps(dep, isCIDR)| && objects == DoAll(old(objects), CoreOps(dep, isCIDR)[..n], ip)
      ensures err.None? ==> n == |CoreOps(dep, isCIDR)|
      ensures Calm() ==> err.None?
    {
      ghost var ops := CoreOps(dep, isCIDR);
      OpsInOrder(objects, ops, ip);
      OpsListed(dep, isCIDR);
      DesiredKinds(dep, isCIDR);
      KeyKinds(dep);
      ghost var did;
      hide Do, DoAll, CoreOps, DesiredApi, DesiredWorker, DesiredIngress, Blocks, Text.TrimSpace, Calm;
      hide ApiKey, WorkerKey, ServiceKey, PolicyKey, IngressKey;
      err, did := ReconcileObject(ApiKey(dep), DesiredApi(dep), ip);
      n := if did then 1 else 0;
      if err.Some? {
        return;
      }
      err, did := ReconcileObject(WorkerKey(dep), DesiredWorker(dep), ip);
      n := if did then 2 else 1;
      if err.Some? {
        return;
      }
      err, did := ReconcileService(ServiceKey(dep), DesiredService(dep), ip);
      n := if did then 3 else 2;
      if err.Some? {
        return;
      }
      var egress := EgressBlocks(dep.egressAllowlist);
      err, did := ReconcileObject(PolicyKey(dep), PolicySpec(dep.name, egress), ip);
      n := if did then 4 else 3;
      if err.Some? {
        return;
      }
      if dep.ingressEnabled && Text.TrimSpace(dep.ingressHost) != "" {
        err, did := ReconcileObject(IngressKey(dep), DesiredIngress(dep), ip);
      } else {
        err, did := DeleteIngressIfExists(IngressKey(dep), ip);
      }
      n := if did then 5 else 4;
    }

    method UpdateStatus(id: (string, string), status: Status) returns (err: Option<Failure>, ghost did: bool)
      modifies `statuses, `calls
      ensures statuses == if did then old(statuses)[id := status] else old(statuses)
      ensures err.None? ==> did
      ensures Calm() ==> err.None?
    {
      var f := NextFate();
      if f.Works? || f.done {
        statuses := statuses[id := status];
      }
      err := if f.Works? then None else Some(f.how);
      did := f.Works? || f.done;
    }

    /** All objects, up to the first failure; `sandbox` says that it came from the sandbox kinds. */
    method ReconcileObjects(dep: Resource, ip: string) returns (err: Option<Failure>, sandbox: bool, ghost n: nat)
      modifies `objects, `calls
      ensures n <= |Ops(dep, isCIDR)| && objects == DoAll(old(objects), Ops(dep, isCIDR)[..n], ip)
      ensures err.None? ==> n == |Ops(dep, isCIDR)|
      ensures sandbox ==> InSandbox(dep) && n >= 5
      ensures Calm() ==> if InSandbox(dep) && !sandboxKinds then err == Some(NoMatch) && sandbox && n == 5 else err.None?
    {
      hide DoAll, Ops, CoreOps, SandboxOps, Mode, Calm;
      hide DesiredApi, DesiredWorker, DesiredService, DesiredPolicy, DesiredIngress, DesiredTemplate, DesiredWarmPool;
      hide ApiKey, WorkerKey, ServiceKey, PolicyKey, IngressKey, TemplateKey, WarmPoolKey, WantsIngress;
      SplitOps(objects, dep, isCIDR, ip);
      OpsListed(dep, isCIDR);
      sandbox := false;
      err, n := ReconcileCore(dep, ip);
      if err.Some? {
        return;
      }
      if Mode(dep) == "mode_b" {
        sandbox := true;
        ghost var more: nat;
        err, more := ReconcileSandboxResources(dep, ip);
        n := n + more;
      }
    }

    /** Reconcile. Wherever it stops, the objects are those after the first `n` operations; they are those after
        all of them when it is done, and whenever it writes Ready=true. */
    method Reconcile(id: (string, string), ip: string) returns (res: Outcome, ghost n: nat, ghost written: Option<Status>)
      modifies `objects, `statuses, `calls
      ensures statuses == if written.Some? then old(statuses)[id := written.value] else old(statuses)
      ensures id !in resources ==> objects == old(objects) && written.None? && (res.Gone? || res.Failed?)
      ensures id in resources ==> n <= |Ops(resources[id], isCIDR)| && objects == DoAll(old(objects), Ops(resources[id], isCIDR)[..n], ip)
      ensures id in resources ==> Truthful(resources[id], isCIDR, res, n, written)
      ensures Calm() ==> res == if id !in resources then Gone else Due(resources[id], sandboxKinds)
    {
      hide DoAll, Ops, Truthful, Calm, Due;
      var f := NextFate();
      if f.Breaks? {
        if id in resources {
          NothingDone(objects, resources[id], isCIDR, ip);
        }
        return Failed, 0, None;
      }
      if id !in resources {
        return Gone, 0, None;
      }
      res, n, written := ReconcileFound(id, resources[id], ip);
    }

    method ReconcileFound(id: (string, string), dep: Resource, ip: string) returns (res: Outcome, ghost n: nat, ghost written: Option<Status>)
      modifies `objects, `statuses, `calls
      ensures statuses == if written.Some? then old(statuses)[id := written.value] else old(statuses)
      ensures n <= |Ops(dep, isCIDR)| && objects == DoAll(old(objects), Ops(dep, isCIDR)[..n], ip)
      ensures Truthful(dep, isCIDR, res, n, written)
      ensures Calm() ==> res == Due(dep, sandboxKinds)
    {
      hide DoAll, Ops, Mode, Image, RuntimeClass, InSandbox, Calm, Text.TrimSpace, NeedsSandbox;
      InForce(dep);
      var err, sandbox;
      err, sandbox, n := ReconcileObjects(dep, ip);
      if err.Some? {
        if sandbox && (err == Some(NoMatch) || err == Some(NotFound)) {
          var waiting := Status(false, dep.generation, SandboxMissing);
          ghost var told;
          err, told := UpdateStatus(id, waiting);
          return WaitForSandbox, n, if told then Some(waiting) else None;
        }
        return Failed, n, None;
      }
      var status := Status(true, dep.generation, Reconciled(Image(dep), Mode(dep), RuntimeClass(dep)));
      ghost var did;
      err, did := UpdateStatus(id, status);
      written := if did then Some(status) else None;
      res := if err.Some? then Failed else Done;
    }
  }

  predicate NeedsSandbox(dep: Resource) { Text.TrimSpace(dep.mode) == "mode_b" }

  /** How a reconcile comes out when every call works. */
  function Due(dep: Resource, sandboxKinds: bool): Outcome
  {
    if NeedsSandbox(dep) && !sandboxKinds then WaitForSandbox else Done
  }

  /** What the result and the status that was written tell about the `n` operations that were carried out. The
      message of Ready=true names the image, the mode and the runtime class in force. */
  ghost predicate Truthful(dep: Resource, isCIDR: string -> bool, res: Outcome, n: nat, written: Option<Status>)
  {
    && !res.Gone?
    && (res.Done? ==> n == |Ops(dep, isCIDR)| && written.Some? && written.value.ready)
    && (res.WaitForSandbox? ==> NeedsSandbox(dep) && n >= 5 && (written.Some? ==> !written.value.ready))
    && (res.Failed? && written.Some? ==> written.value.ready)
    && (written.Some? ==> written.value.observedGeneration == dep.generation)
    && (written.Some? && !written.value.ready ==> written.value.message == SandboxMissing)
    && (written.Some? && written.value.ready ==>
          && n == |Ops(dep, isCIDR)|
          && written.value.message == Reconciled(
               if Text.TrimSpace(dep.rollbackImage) != "" then Text.TrimSpace(dep.rollbackImage) else Text.TrimSpace(dep.image),
               if Text.TrimSpace(dep.mode) == "" then "mode_a" else Text.TrimSpace(dep.mode),
               if dep.runtimeClassName == "" then "gvisor" else dep.runtimeClassName))
  }

  /** Mode, image and runtime class spelled out. */
  lemma InForce(dep: Resource)
    ensures Image(dep) == if Text.TrimSpace(dep.rollbackImage) != "" then Text.TrimSpace(dep.rollbackImage) else Text.TrimSpace(dep.image)
    ensures Mode(dep) == if Text.TrimSpace(dep.mode) == "" then "mode_a" else Text.TrimSpace(dep.mode)
    ensures RuntimeClass(dep) == if dep.runtimeClassName == "" then "gvisor" else dep.runtimeClassName
    ensures InSandbox(dep) <==> NeedsSandbox(dep)
  {
    hide Text.TrimSpace;
  }

  lemma KeyKinds(dep: Resource)
    ensures ApiKey(dep).kind.Deployment? && WorkerKey(dep).kind.Deployment? && ServiceKey(dep).kind.Service?
    ensures PolicyKey(dep).kind.NetworkPolicy? && IngressKey(dep).kind.Ingress?
    ensures TemplateKey(dep).kind.SandboxTemplate? && WarmPoolKey(dep).kind.SandboxWarmPool?
    ensures !DesiredTemplate(dep).ServiceSpec? && !DesiredWarmPool(dep).ServiceSpec?
  {
  }

  lemma SandboxOpsAre(dep: Resource)
    ensures SandboxOps(dep) == [Put(TemplateKey(dep), DesiredTemplate(dep)), Put(WarmPoolKey(dep), DesiredWarmPool(dep))]
  {
  }

  lemma NothingDone(o: Objects, dep: Resource, isCIDR: string -> bool, ip: string)
    ensures DoAll(o, Ops(dep, isCIDR)[..0], ip) == o && Truthful(dep, isCIDR, Failed, 0, None)
  {
    hide Ops;
  }

  lemma {:induction false} DoAllAppend(o: Objects, a: seq<Op>, b: seq<Op>, ip: string)
    ensures DoAll(o, a + b, ip) == DoAll(DoAll(o, a, ip), b, ip)
    decreases |b|
  {
    hide Do;
    if b == [] {
      assert a + b == a;
    } else {
      assert (a + b)[..|a + b| - 1] == a + b[..|b| - 1];
      DoAllAppend(o, a, b[..|b| - 1], ip);
    }
  }

  /** A first part of the operations is one of the core ones, or all of these and one of the sandbox ones. */
  lemma SplitOps(o: Objects, dep: Resource, isCIDR: string -> bool, ip: string)
    ensures var (ops, core, sandbox) := (Ops(dep, isCIDR), CoreOps(dep, isCIDR), SandboxOps(dep));
            && |ops| == |core| + (if InSandbox(dep) then |sandbox| else 0)
            && (forall i :: 0 <= i <= |core| ==> ops[..i] == core[..i])
            && (InSandbox(dep) ==> forall i :: 0 <= i <= |sandbox| ==>
                  DoAll(o, ops[..|core| + i], ip) == DoAll(DoAll(o, core[..|core|], ip), sandbox[..i], ip))
  {
    hide DoAll, CoreOps, SandboxOps;
    var (ops, core, sandbox) := (Ops(dep, isCIDR), CoreOps(dep, isCIDR), SandboxOps(dep));
    assert core[..|core|] == core;
    if InSandbox(dep) {
      forall i | 0 <= i <= |sandbox| ensures DoAll(o, ops[..|core| + i], ip) == DoAll(DoAll(o, core, ip), sandbox[..i], ip) {
        assert ops[..|core| + i] == core + sandbox[..i];
        DoAllAppend(o, core, sandbox[..i], ip);
      }
    }
  }

  lemma OpsInOrder(o: Objects, ops: seq<Op>, ip: string)
    ensures DoAll(o, ops[..0], ip) == o
    ensures forall i :: 0 <= i < |ops| ==> DoAll(o, ops[..i + 1], ip) == Do(DoAll(o, ops[..i], ip), ops[i], ip)
  {
    hide Do;
    forall i | 0 <= i < |ops| ensures DoAll(o, ops[..i + 1], ip) == Do(DoAll(o, ops[..i], ip), ops[i], ip) {
      assert ops[..i + 1][..i] == ops[..i];
    }
  }

  // ---------------------------------------------------------------------------
  // Convergence
  // ---------------------------------------------------------------------------

  /** The state after a complete reconcile. */
  function Settled(o: Objects, dep: Resource, isCIDR: string -> bool, ip: string): Objects
  {
    DoAll(o, Ops(dep, isCIDR), ip)
  }

  function Touched(op: Op): Key { op.key }

  /** An operation leaves every other object alone. */
  lemma {:induction false} OthersUntouched(o: Objects, ops: seq<Op>, ip: string, k: Key)
    requires forall i :: 0 <= i < |ops| ==> Touched(ops[i]) != k
    ensures Find(DoAll(o, ops, ip), k) == Find(o, k)
    decreases |ops|
  {
    if ops != [] {
      OthersUntouched(o, ops[..|ops| - 1], ip, k);
      assert Touched(ops[|ops| - 1]) != k;
    }
  }

  /** The one operation on a key decides what is stored there. */
  lemma OneOpDecides(o: Objects, ops: seq<Op>, ip: string, i: nat)
    requires i < |ops| && forall j :: 0 <= j < |ops| && j != i ==> Touched(ops[j]) != Touched(ops[i])
    ensures Find(DoAll(o, ops, ip), Touched(ops[i])) == Find(Do(o, ops[i], ip), Touched(ops[i]))
  {
    hide DoAll;
    var (a, b) := (ops[..i], ops[i + 1..]);
    assert ops == a + [ops[i]] + b;
    DoAllAppend(o, a + [ops[i]], b, ip);
    DoAllAppend(o, a, [ops[i]], ip);
    OneOp(DoAll(o, a, ip), ops[i], ip);
    forall j | 0 <= j < |a| ensures Touched(a[j]) != Touched(ops[i]) { assert a[j] == ops[j]; }
    forall j | 0 <= j < |b| ensures Touched(b[j]) != Touched(ops[i]) { assert b[j] == ops[i + 1 + j]; }
    OthersUntouched(o, a, ip, Touched(ops[i]));
    OthersUntouched(DoAll(o, a + [ops[i]], ip), b, ip, Touched(ops[i]));
  }

  lemma OneOp(o: Objects, op: Op, ip: string)
    ensures DoAll(o, [op], ip) == Do(o, op, ip)
  {
    assert [op][..0] == [];
  }

  lemma KeysDiffer(dep: Resource)
    ensures ApiKey(dep) != WorkerKey(dep)
  {
    assert |(dep.name + "-api")| != |(dep.name + "-worker")|;
  }

  lemma KeysAtDiffer(dep: Resource, i: nat, j: nat)
    requires i < j < 7
    ensures KeyAt(dep, i) != KeyAt(dep, j)
  {
    KeysDiffer(dep);
    hide TemplateName;
  }

  lemma OpsTouchDifferentKeys(dep: Resource, isCIDR: string -> bool, i: nat, j: nat)
    requires i < |Ops(dep, isCIDR)| && j < |Ops(dep, isCIDR)| && i != j
    ensures Touched(Ops(dep, isCIDR)[i]) != Touched(Ops(dep, isCIDR)[j])
  {
    OpsListed(dep, isCIDR);
    hide Ops, KeyAt, Touched, InSandbox, CoreOps, SandboxOps;
    OpKeyAt(dep, isCIDR, i);
    OpKeyAt(dep, isCIDR, j);
    if i < j {
      KeysAtDiffer(dep, i, j);
    } else {
      KeysAtDiffer(dep, j, i);
    }
  }

  /** What a complete reconcile leaves under the key of its operation `i`. */
  lemma SettledAt(o: Objects, dep: Resource, isCIDR: string -> bool, ip: string, i: nat)
    requires i < |Ops(dep, isCIDR)|
    ensures var (op, o') := (Ops(dep, isCIDR)[i], Settled(o, dep, isCIDR, ip));
            match op
            case Put(k, spec) => k in o' && o'[k] == Stored(Find(o, k), spec, ip)
            case Remove(k) => k !in o'
  {
    hide DoAll, Ops;
    var ops := Ops(dep, isCIDR);
    forall j | 0 <= j < |ops| && j != i ensures Touched(ops[j]) != Touched(ops[i]) {
      OpsTouchDifferentKeys(dep, isCIDR, j, i);
    }
    OneOpDecides(o, ops, ip, i);
  }

  /** From any contents of the cluster, a complete reconcile leaves every managed object as desired, and the service
      with the address it had; a new service has the one that the cluster assigns. */
  lemma SettledIsConverged(o: Objects, dep: Resource, isCIDR: string -> bool, ip: string)
    ensures Converged(Settled(o, dep, isCIDR, ip), dep, isCIDR)
    ensures var (o', k) := (Settled(o, dep, isCIDR, ip), ServiceKey(dep));
            k in o' && o'[k] == ServiceSpec(dep.name, if k in o && o[k].ServiceSpec? then o[k].clusterIP else ip)
  {
    hide Ops, CoreOps, SandboxOps, Settled, DesiredApi, DesiredWorker, DesiredPolicy, DesiredIngress, DesiredTemplate, DesiredWarmPool;
    hide ApiKey, WorkerKey, ServiceKey, PolicyKey, IngressKey, TemplateKey, WarmPoolKey, InSandbox, WantsIngress;
    OpsListed(dep, isCIDR);
    DesiredKinds(dep, isCIDR);
    forall i | 0 <= i < |Ops(dep, isCIDR)|
      ensures match Ops(dep, isCIDR)[i]
              case Put(k, spec) => Find(Settled(o, dep, isCIDR, ip), k) == Some(Stored(Find(o, k), spec, ip))
              case Remove(k) => k !in Settled(o, dep, isCIDR, ip)
    {
      SettledAt(o, dep, isCIDR, ip, i);
    }
  }

  lemma OpsListed(dep: Resource, isCIDR: string -> bool)
    ensures var core := CoreOps(dep, isCIDR);
            && |core| == 5
            && core[0] == Put(ApiKey(dep), DesiredApi(dep)) && core[1] == Put(WorkerKey(dep), DesiredWorker(dep))
            && core[2] == Put(ServiceKey(dep), DesiredService(dep)) && core[3] == Put(PolicyKey(dep), DesiredPolicy(dep, isCIDR))
            && core[4] == if WantsIngress(dep) then Put(IngressKey(dep), DesiredIngress(dep)) else Remove(IngressKey(dep))
    ensures var sandbox := SandboxOps(dep);
            && |sandbox| == 2
            && sandbox[0] == Put(TemplateKey(dep), DesiredTemplate(dep)) && sandbox[1] == Put(WarmPoolKey(dep), DesiredWarmPool(dep))
    ensures var ops := Ops(dep, isCIDR);
            && |ops| == (if InSandbox(dep) then 7 else 5)
            && (forall i :: 0 <= i < 5 ==> ops[i] == CoreOps(dep, isCIDR)[i])
            && (InSandbox(dep) ==> ops[5] == SandboxOps(dep)[0] && ops[6] == SandboxOps(dep)[1])
  {
    hide DesiredApi, DesiredWorker, DesiredService, DesiredPolicy, DesiredIngress, DesiredTemplate, DesiredWarmPool;
    hide ApiKey, WorkerKey, ServiceKey, PolicyKey, IngressKey, TemplateKey, WarmPoolKey, InSandbox, WantsIngress;
  }

  function KeyAt(dep: Resource, i: nat): Key
  {
    match i
    case 0 => ApiKey(dep)
    case 1 => WorkerKey(dep)
    case 2 => ServiceKey(dep)
    case 3 => PolicyKey(dep)
    case 4 => IngressKey(dep)
    case 5 => TemplateKey(dep)
    case _ => WarmPoolKey(dep)
  }

  lemma OpKeyAt(dep: Resource, isCIDR: string -> bool, i: nat)
    requires i < |Ops(dep, isCIDR)|
    ensures Touched(Ops(dep, isCIDR)[i]) == KeyAt(dep, i)
  {
    hide DesiredApi, DesiredWorker, DesiredService, DesiredPolicy, DesiredIngress, DesiredTemplate, DesiredWarmPool;
    hide ApiKey, WorkerKey, ServiceKey, PolicyKey, IngressKey, TemplateKey, WarmPoolKey, InSandbox, WantsIngress;
    hide Ops, CoreOps, SandboxOps;
    OpsListed(dep, isCIDR);
  }

  lemma DesiredKinds(dep: Resource, isCIDR: string -> bool)
    ensures !DesiredApi(dep).ServiceSpec? && !DesiredWorker(dep).ServiceSpec? && !DesiredPolicy(dep, isCIDR).ServiceSpec?
    ensures !DesiredIngress(dep).ServiceSpec? && !DesiredTemplate(dep).ServiceSpec? && !DesiredWarmPool(dep).ServiceSpec?
  {
  }

  /** In a converged cluster a reconcile changes nothing. */
  lemma ConvergedIsStable(o: Objects, dep: Resource, isCIDR: string -> bool, ip: string, n: nat)
    requires Converged(o, dep, isCIDR) && n <= |Ops(dep, isCIDR)|
    ensures DoAll(o, Ops(dep, isCIDR)[..n], ip) == o
    decreases n
  {
    hide Ops, CoreOps, SandboxOps, DesiredApi, DesiredWorker, DesiredService, DesiredPolicy, DesiredIngress, DesiredTemplate, DesiredWarmPool;
    hide ApiKey, WorkerKey, ServiceKey, PolicyKey, IngressKey, TemplateKey, WarmPoolKey;
    if n > 0 {
      ConvergedIsStable(o, dep, isCIDR, ip, n - 1);
      var ops := Ops(dep, isCIDR);
      assert ops[..n][..n - 1] == ops[..n - 1];
      OpsListed(dep, isCIDR);
      StableOp(o, dep, isCIDR, ip, n - 1);
    }
  }

  lemma StableOp(o: Objects, dep: Resource, isCIDR: string -> bool, ip: string, i: nat)
    requires Converged(o, dep, isCIDR) && i < |Ops(dep, isCIDR)|
    ensures Do(o, Ops(dep, isCIDR)[i], ip) == o
  {
    hide Do;
    OpHolds(o, dep, isCIDR, i);
    DoneAlready(o, Ops(dep, isCIDR)[i], ip);
  }

  predicate IsDone(o: Objects, op: Op) { if op.Put? then Holds(o, op.key, op.spec) else op.key !in o }

  lemma OpHolds(o: Objects, dep: Resource, isCIDR: string -> bool, i: nat)
    requires Converged(o, dep, isCIDR) && i < |Ops(dep, isCIDR)|
    ensures IsDone(o, Ops(dep, isCIDR)[i])
  {
    hide Ops, CoreOps, SandboxOps, DesiredApi, DesiredWorker, DesiredService, DesiredPolicy, DesiredIngress, DesiredTemplate, DesiredWarmPool;
    hide ApiKey, WorkerKey, ServiceKey, PolicyKey, IngressKey, TemplateKey, WarmPoolKey, InSandbox, WantsIngress, Holds;
    OpsListed(dep, isCIDR);
  }

  lemma DoneAlready(o: Objects, op: Op, ip: string)
    requires IsDone(o, op)
    ensures Do(o, op, ip) == o
  {
    if op.Put? {
      assert o[op.key := o[op.key]] == o;
    } else {
      assert o - {op.key} == o;
    }
  }

  /** A second reconcile changes nothing, whatever cluster IP would be handed out and wherever it stops. */
  lemma SecondReconcileIsNoop(o: Objects, dep: Resource, isCIDR: string -> bool, ip: string, again: string, n: nat)
    requires n <= |Ops(dep, isCIDR)|
    ensures var settled := Settled(o, dep, isCIDR, ip);
            DoAll(settled, Ops(dep, isCIDR)[..n], again) == settled
  {
    SettledIsConverged(o, dep, isCIDR, ip);
    ConvergedIsStable(Settled(o, dep, isCIDR, ip), dep, isCIDR, again, n);
  }

  predicate HasIP(o: Objects, dep: Resource, ip: string)
  {
    ServiceKey(dep) in o && o[ServiceKey(dep)].ServiceSpec? && o[ServiceKey(dep)].clusterIP == ip
  }

  /** No part of a reconcile changes the cluster IP of an existing service. */
  lemma {:induction false} PartialKeepsIP(o: Objects, dep: Resource, isCIDR: string -> bool, kept: string, ip: string, n: nat)
    requires n <= |Ops(dep, isCIDR)| && HasIP(o, dep, kept)
    ensures HasIP(DoAll(o, Ops(dep, isCIDR)[..n], ip), dep, kept)
    decreases n
  {
    hide Ops, CoreOps, SandboxOps, KeyAt, DoAll, InSandbox;
    var ops := Ops(dep, isCIDR);
    OpsInOrder(o, ops, ip);
    if n > 0 {
      PartialKeepsIP(o, dep, isCIDR, kept, ip, n - 1);
      OpsListed(dep, isCIDR);
      OpKeyAt(dep, isCIDR, n - 1);
      if n - 1 < 2 {
        KeysAtDiffer(dep, n - 1, 2);
      } else if n - 1 > 2 {
        KeysAtDiffer(dep, 2, n - 1);
      }
      ServiceIsThird(dep);
      OneOpKeepsIP(DoAll(o, ops[..n - 1], ip), ops[n - 1], dep, kept, ip);
    }
  }

  lemma ServiceIsThird(dep: Resource)
    ensures KeyAt(dep, 2) == ServiceKey(dep)
  {
  }

  lemma OneOpKeepsIP(o: Objects, op: Op, dep: Resource, kept: string, ip: string)
    requires HasIP(o, dep, kept) && (Touched(op) != ServiceKey(dep) || op == Put(ServiceKey(dep), DesiredService(dep)))
    ensures HasIP(Do(o, op, ip), dep, kept)
  {
    hide ServiceKey;
  }

  /** Reconciles that stopped somewhere: after `parts[0]` operations, then after `parts[1]`, and so on. */
  function Attempts(o: Objects, dep: Resource, isCIDR: string -> bool, parts: seq<nat>, ip: string): Objects
    requires forall i :: 0 <= i < |parts| ==> parts[i] <= |Ops(dep, isCIDR)|
    decreases |parts|
  {
    if parts == [] then o else Attempts(DoAll(o, Ops(dep, isCIDR)[..parts[0]], ip), dep, isCIDR, parts[1..], ip)
  }

  /** From any contents and after any number of reconciles that failed anywhere, a complete one converges, and
      a service that was there from the start still has its cluster IP. */
  lemma {:induction false} ConvergesAfterFailures(o: Objects, dep: Resource, isCIDR: string -> bool, parts: seq<nat>, kept: string, ip: string)
    requires forall i :: 0 <= i < |parts| ==> parts[i] <= |Ops(dep, isCIDR)|
    ensures var o' := Settled(Attempts(o, dep, isCIDR, parts, ip), dep, isCIDR, ip);
            Converged(o', dep, isCIDR) && (HasIP(o, dep, kept) ==> HasIP(o', dep, kept))
    decreases |parts|
  {
    hide Ops, DoAll, Converged, HasIP;
    if parts == [] {
      SettledIsConverged(o, dep, isCIDR, ip);
      if HasIP(o, dep, kept) {
        PartialKeepsIP(o, dep, isCIDR, kept, ip, |Ops(dep, isCIDR)|);
        assert Ops(dep, isCIDR)[..|Ops(dep, isCIDR)|] == Ops(dep, isCIDR);
      }
    } else {
      if HasIP(o, dep, kept) {
        PartialKeepsIP(o, dep, isCIDR, kept, ip, parts[0]);
      }
      ConvergesAfterFailures(DoAll(o, Ops(dep, isCIDR)[..parts[0]], ip), dep, isCIDR, parts[1..], kept, ip);
    }
  }

  // ---------------------------------------------------------------------------
  // Two resources
  // ---------------------------------------------------------------------------

  lemma SuffixInjective(a: string, b: string, suffix: string)
    requires a + suffix == b + suffix
    ensures a == b
  {
    assert a == (a + suffix)[..|a|];
    assert b == (b + suffix)[..|b|];
  }

  lemma ApiIsNotWorker(a: string, b: string)
    ensures a + "-api" != b + "-worker"
  {
    var (x, y) := (a + "-api", b + "-worker");
    assert x[|x| - 1] == 'i';
    assert y[|y| - 1] == 'r';
  }

  lemma DifferentResources(d: Resource, e: Resource)
    requires (d.namespace, d.name) != (e.namespace, e.name)
    ensures ApiKey(d) != ApiKey(e) && ApiKey(d) != WorkerKey(e) && WorkerKey(d) != ApiKey(e) && WorkerKey(d) != WorkerKey(e)
    ensures ServiceKey(d) != ServiceKey(e) && PolicyKey(d) != PolicyKey(e) && IngressKey(d) != IngressKey(e)
  {
    ApiIsNotWorker(d.name, e.name);
    ApiIsNotWorker(e.name, d.name);
    if ApiKey(d) == ApiKey(e) {
      SuffixInjective(d.name, e.name, "-api");
    }
    if WorkerKey(d) == WorkerKey(e) {
      SuffixInjective(d.name, e.name, "-worker");
    }
    if PolicyKey(d) == PolicyKey(e) {
      SuffixInjective(d.name, e.name, "-egress");
    }
  }

  /** Different objects, or the same specification for the same object, which no cluster IP is kept of. */
  predicate Agree(a: Op, b: Op)
  {
    Touched(a) != Touched(b) || (a == b && a.Put? && !a.spec.ServiceSpec?)
  }

  predicate AllAgree(a: seq<Op>, b: seq<Op>)
  {
    forall i, j :: 0 <= i < |a| && 0 <= j < |b| ==> Agree(a[i], b[j])
  }

  /** Two resources that want different things of one sandbox template. */
  predicate Clash(d: Resource, e: Resource)
  {
    InSandbox(d) && InSandbox(e) && TemplateKey(d) == TemplateKey(e) && DesiredTemplate(d) != DesiredTemplate(e)
  }

  lemma KeysApart(d: Resource, e: Resource, i: nat, j: nat)
    requires (d.namespace, d.name) != (e.namespace, e.name) && i < 7 && j < 7 && !(i == 5 && j == 5)
    ensures KeyAt(d, i) != KeyAt(e, j)
  {
    hide TemplateName;
    DifferentResources(d, e);
    if WarmPoolKey(d) == WarmPoolKey(e) {
      SuffixInjective(d.name, e.name, "-warm-pool");
    }
  }

  lemma OpsAgree(d: Resource, e: Resource, isCIDR: string -> bool)
    requires (d.namespace, d.name) != (e.namespace, e.name) && !Clash(d, e)
    ensures AllAgree(Ops(d, isCIDR), Ops(e, isCIDR))
  {
    OpsListed(d, isCIDR);
    OpsListed(e, isCIDR);
    DesiredKinds(d, isCIDR);
    hide Ops, CoreOps, SandboxOps, KeyAt, Touched, InSandbox, DesiredTemplate, TemplateKey;
    forall i, j | 0 <= i < |Ops(d, isCIDR)| && 0 <= j < |Ops(e, isCIDR)|
      ensures Agree(Ops(d, isCIDR)[i], Ops(e, isCIDR)[j])
    {
      if i != 5 || j != 5 {
        OpKeyAt(d, isCIDR, i);
        OpKeyAt(e, isCIDR, j);
        KeysApart(d, e, i, j);
      } else if TemplateKey(d) != TemplateKey(e) {
        OpKeyAt(d, isCIDR, 5);
        OpKeyAt(e, isCIDR, 5);
        TemplateIsSixth(d);
        TemplateIsSixth(e);
      }
    }
  }

  lemma TemplateIsSixth(dep: Resource)
    ensures KeyAt(dep, 5) == TemplateKey(dep)
  {
  }

  lemma DoCommutes(o: Objects, a: Op, b: Op, ip: string, iq: string)
    requires Agree(a, b)
    ensures Do(Do(o, a, ip), b, iq) == Do(Do(o, b, iq), a, ip)
  {
    var (x, y) := (Do(Do(o, a, ip), b, iq), Do(Do(o, b, iq), a, ip));
    assert x.Keys == y.Keys;
  }

  lemma {:induction false} OpCommutesWithAll(o: Objects, a: seq<Op>, b: Op, ip: string, iq: string)
    requires forall i :: 0 <= i < |a| ==> Agree(a[i], b)
    ensures Do(DoAll(o, a, ip), b, iq) == DoAll(Do(o, b, iq), a, ip)
    decreases |a|
  {
    hide Do, Agree;
    if a != [] {
      var (front, last) := (a[..|a| - 1], a[|a| - 1]);
      OpCommutesWithAll(o, front, b, ip, iq);
      DoCommutes(DoAll(o, front, ip), last, b, ip, iq);
    }
  }

  lemma {:induction false} AllCommute(o: Objects, a: seq<Op>, b: seq<Op>, ip: string, iq: string)
    requires AllAgree(a, b)
    ensures DoAll(DoAll(o, a, ip), b, iq) == DoAll(DoAll(o, b, iq), a, ip)
    decreases |b|
  {
    hide Do, Agree;
    if b != [] {
      var (front, last) := (b[..|b| - 1], b[|b| - 1]);
      AllCommute(o, a, front, ip, iq);
      OpCommutesWithAll(DoAll(o, front, iq), a, last, ip, iq);
    }
  }

  /** Reconciles of two differently named resources commute exactly if they do not want different things of one
      sandbox template: always in mode_a or mixed modes, and in mode_b unless the template is shared and differs. */
  lemma ReconcilesCommuteIff(o: Objects, d: Resource, e: Resource, isCIDR: string -> bool, ip: string, iq: string)
    requires (d.namespace, d.name) != (e.namespace, e.name)
    ensures Settled(Settled(o, d, isCIDR, ip), e, isCIDR, iq) == Settled(Settled(o, e, isCIDR, iq), d, isCIDR, ip)
            <==> !Clash(d, e)
  {
    if Clash(d, e) {
      LastOneDecides(o, d, e, isCIDR, ip, iq);
    } else {
      hide Ops, AllAgree, DoAll, Clash;
      OpsAgree(d, e, isCIDR);
      AllCommute(o, Ops(d, isCIDR), Ops(e, isCIDR), ip, iq);
    }
  }

  lemma LastOneDecides(o: Objects, d: Resource, e: Resource, isCIDR: string -> bool, ip: string, iq: string)
    requires Clash(d, e)
    ensures Settled(Settled(o, d, isCIDR, ip), e, isCIDR, iq) != Settled(Settled(o, e, isCIDR, iq), d, isCIDR, ip)
  {
    hide DoAll, Ops, TemplateKey, Settled;
    SettledIsConverged(Settled(o, d, isCIDR, ip), e, isCIDR, iq);
    SettledIsConverged(Settled(o, e, isCIDR, iq), d, isCIDR, ip);
    DesiredKinds(d, isCIDR);
    DesiredKinds(e, isCIDR);
  }

  // ---------------------------------------------------------------------------
  // What a converged cluster runs
  // ---------------------------------------------------------------------------

  function Trimmings(allow: seq<string>): seq<string>
  {
    seq(|allow|, i requires 0 <= i < |allow| => Text.TrimSpace(allow[i]))
  }

  function Usable(isCIDR: string -> bool): string -> bool { c => c != "" && isCIDR(c) }

  /** The allow list in its order: every entry trimmed, without the blank ones and those that do not parse. */
  function Allowed(allow: seq<string>, isCIDR: string -> bool): seq<string> { Filter(Trimmings(allow), Usable(isCIDR)) }

  lemma {:induction false} BlocksInOrder(allow: seq<string>, isCIDR: string -> bool)
    ensures Blocks(allow, isCIDR) == Allowed(allow, isCIDR)
    decreases |allow|
  {
    hide Text.TrimSpace, Filter;
    if allow == [] {
      FilterNone(Trimmings(allow), Usable(isCIDR));
    } else {
      var n := |allow| - 1;
      var last := Text.TrimSpace(allow[n]);
      BlocksInOrder(allow[..n], isCIDR);
      assert Trimmings(allow) == Trimmings(allow[..n]) + [last];
      FilterAppend(Trimmings(allow[..n]), [last], Usable(isCIDR));
      FilterOne(last, Usable(isCIDR));
    }
  }

  lemma FilterOne<T>(x: T, p: T -> bool)
    ensures Filter([x], p) == if p(x) then [x] else []
  {
    assert [x][1..] == [];
  }

  /** Every converged cluster, in the terms of the resource: both deployments run the rollback image, or else the
      image of the spec, trimmed, under the runtime class, with the replicas asked for; the worker is told the mode,
      and in mode_b the template; the network policy allows the parsed blocks; the ingress is there exactly when
      wanted, for the host and the service, with class and TLS exactly when they are not blank; in mode_b the warm
      pool draws on the template that is there. */
  lemma ConvergedRuns(o: Objects, dep: Resource, isCIDR: string -> bool)
    requires Converged(o, dep, isCIDR)
    ensures var image := if Text.TrimSpace(dep.rollbackImage) != "" then Text.TrimSpace(dep.rollbackImage) else Text.TrimSpace(dep.image);
            var runtimeClass := if dep.runtimeClassName == "" then "gvisor" else dep.runtimeClassName;
            var replicas := if dep.replicas.Some? then dep.replicas.value else 1;
            var mode := if Text.TrimSpace(dep.mode) == "" then "mode_a" else Text.TrimSpace(dep.mode);
            var template := if Text.TrimSpace(dep.sandboxTemplate) == "" then dep.name + "-sandbox-template" else Text.TrimSpace(dep.sandboxTemplate);
            var sandbox := mode == "mode_b";
            && IsAt(o, Key(Deployment, dep.namespace, dep.name + "-api"), DeploymentSpec(dep.name, Api, image, runtimeClass, replicas))
            && IsAt(o, Key(Deployment, dep.namespace, dep.name + "-worker"),
                    DeploymentSpec(dep.name, Worker(mode, if sandbox then Some(template) else None), image, runtimeClass, replicas))
            && (var k := Key(Service, dep.namespace, dep.name); k in o && o[k] == ServiceSpec(dep.name, if o[k].ServiceSpec? then o[k].clusterIP else ""))
            && IsAt(o, Key(NetworkPolicy, dep.namespace, dep.name + "-egress"),
                    PolicySpec(dep.name, Allowed(dep.egressAllowlist, isCIDR)))
            && (var k := Key(Ingress, dep.namespace, dep.name);
                var (className, tls) := (Text.TrimSpace(dep.ingressClassName), Text.TrimSpace(dep.ingressTLSSecretRef));
                if dep.ingressEnabled && Text.TrimSpace(dep.ingressHost) != "" then
                  IsAt(o, k, IngressSpec(dep.ingressHost, dep.name, if className == "" then None else Some(className), if tls == "" then None else Some(tls)))
                else k !in o)
            && (sandbox ==>
                  && IsAt(o, Key(SandboxTemplate, dep.namespace, template), TemplateSpec(dep.image, runtimeClass))
                  && IsAt(o, Key(SandboxWarmPool, dep.namespace, dep.name + "-warm-pool"),
                          WarmPoolSpec(template, if dep.warmPoolReplicas.Some? then dep.warmPoolReplicas.value else 1)))
  {
    hide Text.TrimSpace, Blocks, Allowed;
    BlocksInOrder(dep.egressAllowlist, isCIDR);
  }

  predicate IsAt(o: Objects, k: Key, spec: Spec) { k in o && o[k] == spec }

  // ---------------------------------------------------------------------------
  // The image of the sandbox
  // ---------------------------------------------------------------------------

  /** The sandbox runs the image that the API and worker deployments run. */
  predicate SandboxIsCurrent(o: Objects, dep: Resource)
  {
    && ApiKey(dep) in o && WorkerKey(dep) in o && TemplateKey(dep) in o
    && o[ApiKey(dep)].DeploymentSpec? && o[WorkerKey(dep)].DeploymentSpec? && o[TemplateKey(dep)].TemplateSpec?
    && o[TemplateKey(dep)].image == o[ApiKey(dep)].image == o[WorkerKey(dep)].image
  }

  /** In a converged cluster it does if and only if there is no rollback image and the image of the spec has no white
      space around it, or the rollback image is that image. */
  lemma SandboxImageIff(o: Objects, dep: Resource, isCIDR: string -> bool)
    requires Converged(o, dep, isCIDR) && InSandbox(dep)
    ensures o[ApiKey(dep)].DeploymentSpec? && o[WorkerKey(dep)].DeploymentSpec? && o[TemplateKey(dep)].TemplateSpec?
    ensures SandboxIsCurrent(o, dep)
            <==> if Text.TrimSpace(dep.rollbackImage) == "" then Text.Trimmed(dep.image, Text.GoSpace)
                 else Text.TrimSpace(dep.rollbackImage) == dep.image
  {
    hide Text.Trim, Text.GoSpace, Blocks, ApiKey, WorkerKey, TemplateKey, ServiceKey, PolicyKey, WarmPoolKey, IngressKey;
    hide WantsIngress, InSandbox, DesiredPolicy, DesiredIngress, DesiredWarmPool, RuntimeClass, Mode, TemplateName;
  }

  const ROLLED_BACK := Resource("ns", "d", 1, "a", "b", "mode_b", "", None, "", None, false, "", "", "", [])

  /** That happens: while this rollback is in force, the sandbox is left on the image that was rolled back. */
  lemma SandboxKeepsOldImage(o: Objects, isCIDR: string -> bool, ip: string)
    ensures InSandbox(ROLLED_BACK)
    ensures var o' := Settled(o, ROLLED_BACK, isCIDR, ip);
            Converged(o', ROLLED_BACK, isCIDR) && !SandboxIsCurrent(o', ROLLED_BACK)
  {
    RolledBackIs();
    hide *;
    SettledIsConverged(o, ROLLED_BACK, isCIDR, ip);
    SandboxImageIff(Settled(o, ROLLED_BACK, isCIDR, ip), ROLLED_BACK, isCIDR);
  }

  lemma RolledBackIs()
    ensures InSandbox(ROLLED_BACK) && Text.TrimSpace(ROLLED_BACK.rollbackImage) == "b" && ROLLED_BACK.image == "a"
  {
    TrimsToItself("mode_b");
    TrimsToItself("b");
    hide Text.TrimSpace;
  }

  lemma TrimsToItself(s: string)
    requires Text.Trimmed(s, Text.GoSpace)
    ensures Text.TrimSpace(s) == s
  {
    hide Text.Trim;
  }
}
