/**
 The cluster store the reconciler talks to, as a value: the three kinds of
 object keyed by namespaced name, and the trace of every call made so far.
 Each operation appends its call to the trace. Whether a call fails for an
 infrastructure reason (network, store unavailable, a write conflict) is decided
 by an oracle: the set of trace positions whose calls fail.
 */
module Store {
  import opened Wrappers
  import opened Api

  datatype Verb = Get | Create | Update

  datatype Kind = MyAppKind | DeploymentKind | ServiceKind

  datatype Call = Call(verb: Verb, kind: Kind, key: Key)

  datatype Error =
    | Transient(call: nat)
    | NotFound(kind: Kind, key: Key)
    | AlreadyExists(kind: Kind, key: Key)
    | Invalid(kind: Kind, key: Key)

  datatype Result<T> = Ok(value: T) | Err(error: Error)

  datatype State = State(
    apps: map<Key, MyApp>,
    deployments: map<Key, Deployment>,
    services: map<Key, Service>,
    trace: seq<Call>)

  /**
   What the store's environment decides: which calls fail transiently, and the
   virtual address the platform assigns to a Service created by the call at a
   given trace position.
   */
  datatype Env = Env(faults: set<nat>, address: nat -> string)

  /** Every object is stored under its own namespace and name. */
  predicate WellKeyed(s: State) {
    && (forall k :: k in s.apps ==> KeyOf(s.apps[k].meta) == k)
    && (forall k :: k in s.deployments ==> KeyOf(s.deployments[k].meta) == k)
    && (forall k :: k in s.services ==> KeyOf(s.services[k].meta) == k)
  }

  /** The next call fails transiently. */
  predicate Faulty(s: State, env: Env) {
    |s.trace| in env.faults
  }

  function Issue(s: State, call: Call): State {
    s.(trace := s.trace + [call])
  }

  function Fetch<T>(m: map<Key, T>, s: State, env: Env, kind: Kind, k: Key): Result<T> {
    if Faulty(s, env) then Err(Transient(|s.trace|))
    else if k in m then Ok(m[k])
    else Err(NotFound(kind, k))
  }

  function CanCreate<T>(m: map<Key, T>, s: State, env: Env, kind: Kind, k: Key): Result<()> {
    if Faulty(s, env) then Err(Transient(|s.trace|))
    else if k in m then Err(AlreadyExists(kind, k))
    else Ok(())
  }

  /** `immutableKept` says that the update leaves the fields the platform fixes alone. */
  function CanUpdate<T>(m: map<Key, T>, s: State, env: Env, kind: Kind, k: Key, immutableKept: bool): Result<()> {
    if Faulty(s, env) then Err(Transient(|s.trace|))
    else if k !in m then Err(NotFound(kind, k))
    else if !immutableKept then Err(Invalid(kind, k))
    else Ok(())
  }

  function GetApp(s: State, env: Env, k: Key): (Result<MyApp>, State) {
    (Fetch(s.apps, s, env, MyAppKind, k), Issue(s, Call(Get, MyAppKind, k)))
  }

  function GetDeployment(s: State, env: Env, k: Key): (Result<Deployment>, State) {
    (Fetch(s.deployments, s, env, DeploymentKind, k), Issue(s, Call(Get, DeploymentKind, k)))
  }

  function GetService(s: State, env: Env, k: Key): (Result<Service>, State) {
    (Fetch(s.services, s, env, ServiceKind, k), Issue(s, Call(Get, ServiceKind, k)))
  }

  function CreateDeployment(s: State, env: Env, d: Deployment): (Result<()>, State) {
    var k := KeyOf(d.meta);
    var r := CanCreate(s.deployments, s, env, DeploymentKind, k);
    var s' := Issue(s, Call(Create, DeploymentKind, k));
    (r, if r.Ok? then s'.(deployments := s.deployments[k := d]) else s')
  }

  /** A Service created without a virtual address gets one from the platform. */
  function WithAddress(svc: Service, address: string): Service {
    if svc.spec.clusterIP == "" then svc.(spec := svc.spec.(clusterIP := address)) else svc
  }

  function CreateService(s: State, env: Env, svc: Service): (Result<()>, State) {
    var k := KeyOf(svc.meta);
    var r := CanCreate(s.services, s, env, ServiceKind, k);
    var s' := Issue(s, Call(Create, ServiceKind, k));
    (r, if r.Ok? then s'.(services := s.services[k := WithAddress(svc, env.address(|s.trace|))]) else s')
  }

  /** The platform refuses to change a Deployment's selector. */
  function UpdateDeployment(s: State, env: Env, d: Deployment): (Result<()>, State) {
    var k := KeyOf(d.meta);
    var kept := k in s.deployments ==> s.deployments[k].spec.selector == d.spec.selector;
    var r := CanUpdate(s.deployments, s, env, DeploymentKind, k, kept);
    var s' := Issue(s, Call(Update, DeploymentKind, k));
    (r, if r.Ok? then s'.(deployments := s.deployments[k := d]) else s')
  }

  /** The platform refuses to change a Service's assigned virtual address. */
  function UpdateService(s: State, env: Env, svc: Service): (Result<()>, State) {
    var k := KeyOf(svc.meta);
    var kept := k in s.services && s.services[k].spec.clusterIP != "" ==>
      svc.spec.clusterIP == s.services[k].spec.clusterIP;
    var r := CanUpdate(s.services, s, env, ServiceKind, k, kept);
    var s' := Issue(s, Call(Update, ServiceKind, k));
    (r, if r.Ok? then s'.(services := s.services[k := svc]) else s')
  }

  function UpdateApp(s: State, env: Env, app: MyApp): (Result<()>, State) {
    var k := KeyOf(app.meta);
    var r := CanUpdate(s.apps, s, env, MyAppKind, k, true);
    var s' := Issue(s, Call(Update, MyAppKind, k));
    (r, if r.Ok? then s'.(apps := s.apps[k := app]) else s')
  }
}
