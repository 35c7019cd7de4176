/**
 What one reconcile does, branch by branch, and what two reconciles in a row
 do, stated about `Controller.Run` (and so about `MyAppReconciler.Reconcile`,
 which is proved equal to it).
 */
module Properties {
  import opened Wrappers
  import opened Api
  import opened Snapshot
  import opened Synthesis
  import opened Store
  import opened Controller
  import opened Frame

  /** The primary exists and no deletion has been requested. */
  predicate Live(s: State, req: Key) {
    req in s.apps && !s.apps[req].meta.deleting
  }

  /** The snapshot currently stored on the primary. */
  function StoredSnapshot(app: MyApp): string {
    AnnotationValue(app.meta.annotations, SpecKey)
  }

  /** None of the calls creates or updates a Deployment or a Service. */
  predicate NoDependentWrites(calls: seq<Call>) {
    forall i :: 0 <= i < |calls| ==> calls[i].verb == Get || calls[i].kind == MyAppKind
  }

  /** None of the `count` calls from trace position `from` on fails transiently. */
  predicate FaultFree(env: Env, from: nat, count: nat) {
    forall i :: from <= i < from + count ==> i !in env.faults
  }


  /** The store after the two reads of a live reconcile. */
  function Fetched(s: State, req: Key): State {
    Issue(Issue(s, Call(Get, MyAppKind, req)), Call(Get, DeploymentKind, req))
  }

  /**
   Which branch runs: once both reads succeed on a live primary, a missing
   Deployment selects the create phase and a present one the converge phase,
   and either is followed by the persist step when it succeeds.
   */
  lemma RunOnLive(s: State, env: Env, req: Key)
    requires Live(s, req) && FaultFree(env, |s.trace|, 2)
    ensures Run(s, env, req) == ThenPersist(
      if req in s.deployments then Converge(Fetched(s, req), env, req, s.apps[req])
      else Bootstrap(Fetched(s, req), env, s.apps[req]),
      env, s.apps[req])
  {
    assert |s.trace| !in env.faults && |s.trace| + 1 !in env.faults;
  }

  /** A reconcile only ever appends to the trace. */
  lemma RunExtendsTrace(s: State, env: Env, req: Key)
    requires WellKeyed(s)
    ensures s.trace <= Run(s, env, req).1.trace
  {
    RunEvolves(s, env, req);
  }

  /**
   Terminal no-op: a missing primary, or one being deleted, ends the reconcile
   with success after the one read, and nothing is created or updated.
   */
  lemma TerminalNoOp(s: State, env: Env, req: Key)
    requires !Faulty(s, env)
    requires !Live(s, req)
    ensures Run(s, env, req) == (Done, Issue(s, Call(Get, MyAppKind, req)))
  {
  }

  /** Any other failure to read the primary is returned, and nothing else is attempted. */
  lemma PrimaryReadFailure(s: State, env: Env, req: Key)
    requires Faulty(s, env)
    ensures Run(s, env, req) == (StoreError(Transient(|s.trace|)), Issue(s, Call(Get, MyAppKind, req)))
  {
  }

  /**
   Bootstrap: with no Deployment, the reconcile creates the synthesized
   Deployment and then the synthesized Service, never consulting the snapshot.
   A failed Deployment create ends the run before any Service create.
   */
  lemma BootstrapOnMissingDeployment(s: State, env: Env, req: Key)
    requires WellKeyed(s) && Live(s, req) && req !in s.deployments
    requires FaultFree(env, |s.trace|, 2)
    ensures var (o, s') := Run(s, env, req);
      var n, app := |s.trace|, s.apps[req];
      && |s'.trace| >= n + 3
      && s'.trace[..n + 3] == s.trace + [Call(Get, MyAppKind, req), Call(Get, DeploymentKind, req), Call(Create, DeploymentKind, req)]
      && (n + 2 in env.faults ==>
            o == StoreError(Transient(n + 2)) && s' == s.(trace := s'.trace) && |s'.trace| == n + 3)
      && (n + 2 !in env.faults ==>
            && s'.deployments == s.deployments[req := NewDeployment(app)]
            && |s'.trace| >= n + 4 && s'.trace[n + 3] == Call(Create, ServiceKind, req))
      && (o.Done? ==>
            && s'.services == s.services[req := WithAddress(NewService(app), env.address(n + 3))]
            && s'.apps == s.apps[req := Persisted(app)])
      && !o.DecodeError?
  {
    var n, app := |s.trace|, s.apps[req];
    assert KeyOf(app.meta) == req;
    RunOnLive(s, env, req);
    var s2 := Fetched(s, req);
    var (created, s3) := CreateDeployment(s2, env, NewDeployment(app));
    var prefix := s.trace + [Call(Get, MyAppKind, req), Call(Get, DeploymentKind, req), Call(Create, DeploymentKind, req)];
    assert s3.trace == prefix;
    if created.Err? {
      assert Run(s, env, req) == (StoreError(created.error), s3);
      assert s3 == s.(trace := prefix);
    } else {
      var (createdService, s4) := CreateService(s3, env, NewService(app));
      assert s4.trace == prefix + [Call(Create, ServiceKind, req)];
      if createdService.Ok? {
        var s5 := Persist(s4, env, app).1;
        assert s5.trace == s4.trace + [Call(Update, MyAppKind, req)];
        assert Run(s, env, req) == Persist(s4, env, app);
      } else {
        assert Run(s, env, req) == (StoreError(createdService.error), s4);
      }
    }
  }

  /**
   A first reconcile of an app with image "app:v1", two replicas, container
   port 8080 and service port 80, in an empty namespace with no failures,
   creates a Deployment of two replicas and a Service mapping 80 to 8080, and
   stores exactly that spec as the snapshot.
   */
  lemma BootstrapExample(env: Env, namespace: string)
    requires FaultFree(env, 0, 5)
    ensures var spec := MyAppSpec("app:v1", Some(2), 8080, 80);
      var key := Key(namespace, "demo");
      var app := MyApp(TypeMeta(Group + "/" + Version, "MyApp"), ObjectMeta("demo", namespace, "u1", [], None, false), spec);
      var (o, s') := Run(State(map[key := app], map[], map[], []), env, key);
      && o == Done
      && key in s'.deployments && s'.deployments[key].spec.replicas == Some(2)
      && key in s'.services && s'.services[key].spec.ports == [ServicePort(TCP, 80, IntValue(8080))]
      && Decode(StoredSnapshot(s'.apps[key])) == Some(spec)
  {
    var spec := MyAppSpec("app:v1", Some(2), 8080, 80);
    var key := Key(namespace, "demo");
    var app := MyApp(TypeMeta(Group + "/" + Version, "MyApp"), ObjectMeta("demo", namespace, "u1", [], None, false), spec);
    var s := State(map[key := app], map[], map[], []);
    assert 2 !in env.faults && 3 !in env.faults && 4 !in env.faults;
    BootstrapOnMissingDeployment(s, env, key);
    RunOnLive(s, env, key);
    var s3 := CreateDeployment(Fetched(s, key), env, NewDeployment(app)).1;
    assert CreateService(s3, env, NewService(app)).0.Ok?;
    var s4 := CreateService(s3, env, NewService(app)).1;
    assert Persist(s4, env, app).0 == Done;
    PersistOnSuccess(s, env, key);
  }

  /**
   Decode failure is fatal: when the Deployment exists but the stored snapshot
   does not decode, the reconcile returns the error after the two reads and
   writes nothing.
   */
  lemma DecodeFailureIsFatal(s: State, env: Env, req: Key)
    requires Live(s, req) && req in s.deployments
    requires FaultFree(env, |s.trace|, 2)
    requires Decode(StoredSnapshot(s.apps[req])) == None
    ensures Run(s, env, req) ==
      (DecodeError(StoredSnapshot(s.apps[req])),
       s.(trace := s.trace + [Call(Get, MyAppKind, req), Call(Get, DeploymentKind, req)]))
  {
    RunOnLive(s, env, req);
    assert Fetched(s, req) == s.(trace := s.trace + [Call(Get, MyAppKind, req), Call(Get, DeploymentKind, req)]);
  }

  /** An absent snapshot (nil map or missing key) is one that does not decode. */
  lemma MissingSnapshotDoesNotDecode(app: MyApp)
    requires app.meta.annotations.None? || SpecKey !in app.meta.annotations.value
    ensures StoredSnapshot(app) == "" && Decode(StoredSnapshot(app)) == None
  {
  }

  /**
   No drift, no dependent writes: when the snapshot equals the spec, the only
   write is the update of the primary.
   */
  lemma NoDriftNoDependentWrites(s: State, env: Env, req: Key)
    requires WellKeyed(s) && Live(s, req) && req in s.deployments
    requires FaultFree(env, |s.trace|, 2)
    requires Decode(StoredSnapshot(s.apps[req])) == Some(s.apps[req].spec)
    ensures var (o, s') := Run(s, env, req);
      && s'.deployments == s.deployments
      && s'.services == s.services
      && s'.trace == s.trace + [Call(Get, MyAppKind, req), Call(Get, DeploymentKind, req), Call(Update, MyAppKind, req)]
      && (o.Done? <==> |s.trace| + 2 !in env.faults)
  {
    var app := s.apps[req];
    assert KeyOf(app.meta) == req;
    RunOnLive(s, env, req);
    var s2 := Fetched(s, req);
    assert Run(s, env, req) == Persist(s2, env, app);
  }

  /**
   Drift: the live Deployment's spec becomes the synthesized one, the live
   Service's spec becomes the synthesized one with its virtual address kept,
   and the primary records the new snapshot; everything else on the live
   objects (their metadata) is left as it was.
   */
  lemma DriftUpdatesDependents(s: State, env: Env, req: Key)
    requires WellKeyed(s) && Live(s, req) && req in s.deployments && req in s.services
    requires FaultFree(env, |s.trace|, 7)
    requires var snapshot := Decode(StoredSnapshot(s.apps[req])); snapshot.Some? && snapshot.value != s.apps[req].spec
    requires s.deployments[req].spec.selector == CanonicalSelector(req)
    ensures var (o, s') := Run(s, env, req);
      var app, liveService := s.apps[req], s.services[req];
      && o == Done
      && s'.deployments == s.deployments[req := s.deployments[req].(spec := NewDeployment(app).spec)]
      && s'.services == s.services[req := Carried(liveService, NewService(app))]
      && s'.services[req].spec.clusterIP == liveService.spec.clusterIP
      && s'.apps == s.apps[req := Persisted(app)]
      && s'.trace == s.trace + [
        Call(Get, MyAppKind, req), Call(Get, DeploymentKind, req),
        Call(Get, DeploymentKind, req), Call(Update, DeploymentKind, req),
        Call(Get, ServiceKind, req), Call(Update, ServiceKind, req),
        Call(Update, MyAppKind, req)]
  {
    var n, app := |s.trace|, s.apps[req];
    assert n + 2 !in env.faults && n + 3 !in env.faults && n + 4 !in env.faults;
    assert n + 5 !in env.faults && n + 6 !in env.faults;
    assert KeyOf(app.meta) == req;
    assert KeyOf(s.deployments[req].meta) == req;
    assert KeyOf(s.services[req].meta) == req;
    RunOnLive(s, env, req);
    var s2 := Fetched(s, req);
    var d := s.deployments[req].(spec := NewDeployment(app).spec);
    var s3 := Issue(s2, Call(Get, DeploymentKind, req));
    var s4 := UpdateDeployment(s3, env, d).1;
    assert UpdateDeployment(s3, env, d).0.Ok?;
    var s5 := Issue(s4, Call(Get, ServiceKind, req));
    var svc := Carried(s.services[req], NewService(app));
    var s6 := UpdateService(s5, env, svc).1;
    assert UpdateService(s5, env, svc).0.Ok?;
    assert UpdateDependents(s2, env, req, app) == (Done, s6);
    assert Run(s, env, req) == Persist(s6, env, app);
  }

  /**
   A Service missing at drift time is an error: the Deployment has already been
   updated, but the primary is not, so its snapshot stays stale and the next
   reconcile sees the drift again.
   */
  lemma MissingServiceOnDrift(s: State, env: Env, req: Key)
    requires WellKeyed(s) && Live(s, req) && req in s.deployments && req !in s.services
    requires FaultFree(env, |s.trace|, 5)
    requires var snapshot := Decode(StoredSnapshot(s.apps[req])); snapshot.Some? && snapshot.value != s.apps[req].spec
    requires s.deployments[req].spec.selector == CanonicalSelector(req)
    ensures var (o, s') := Run(s, env, req);
      && o == StoreError(NotFound(ServiceKind, req))
      && s'.deployments == s.deployments[req := s.deployments[req].(spec := NewDeployment(s.apps[req]).spec)]
      && s'.services == s.services
      && s'.apps == s.apps
  {
    var n, app := |s.trace|, s.apps[req];
    assert n + 2 !in env.faults && n + 3 !in env.faults && n + 4 !in env.faults;
    assert KeyOf(app.meta) == req;
    assert KeyOf(s.deployments[req].meta) == req;
    RunOnLive(s, env, req);
    var s2 := Fetched(s, req);
    var d := s.deployments[req].(spec := NewDeployment(app).spec);
    var s3 := Issue(s2, Call(Get, DeploymentKind, req));
    var s4 := UpdateDeployment(s3, env, d).1;
    assert UpdateDeployment(s3, env, d).0.Ok?;
    var s5 := Issue(s4, Call(Get, ServiceKind, req));
    assert UpdateDependents(s2, env, req, app) == (StoreError(NotFound(ServiceKind, req)), s5);
  }

  /**
   The Service update of the drift phase is never refused for changing the
   address: the payload carries the live Service's address forward.
   */
  lemma ServiceUpdateNeverInvalid(s: State, env: Env, req: Key, instance: MyApp)
    requires WellKeyed(s) && KeyOf(instance.meta) == req
    ensures var o := UpdateDependents(s, env, req, instance).0;
      !(o.StoreError? && o.error.Invalid? && o.error.kind == ServiceKind)
  {
    var s1 := Issue(s, Call(Get, DeploymentKind, req));
    if req in s.deployments && |s.trace| !in env.faults {
      var d := s.deployments[req].(spec := NewDeployment(instance).spec);
      var (updated, s2) := UpdateDeployment(s1, env, d);
      if updated.Ok? {
        assert s2.services == s.services;
        if req in s.services {
          var svc := Carried(s.services[req], NewService(instance));
          assert KeyOf(svc.meta) == req;
          assert svc.spec.clusterIP == s.services[req].spec.clusterIP;
        }
      }
    }
  }

  /** No reconcile has a Service update refused: the update it sends keeps the live address. */
  lemma NoServiceUpdateRefused(s: State, env: Env, req: Key)
    requires WellKeyed(s)
    ensures var o := Run(s, env, req).0;
      !(o.StoreError? && o.error.Invalid? && o.error.kind == ServiceKind)
  {
    var (got, s1) := GetApp(s, env, req);
    if got.Ok? && !got.value.meta.deleting {
      var instance := got.value;
      assert KeyOf(instance.meta) == req;
      var (live, s2) := GetDeployment(s1, env, req);
      if live.Ok? {
        var applied := Converge(s2, env, req, instance);
        ServiceUpdateNeverInvalid(s2, env, req, instance);
        assert !(applied.0.StoreError? && applied.0.error.Invalid? && applied.0.error.kind == ServiceKind);
      }
    }
  }

  /**
   ClusterIP preservation: whatever the faults and whichever branch runs, every
   Service keeps its virtual address, and the reconcile never has a Service
   update refused for changing it.
   */
  lemma ClusterIPPreserved(s: State, env: Env, req: Key)
    requires WellKeyed(s)
    ensures var s' := Run(s, env, req).1;
      forall k :: k in s.services ==> k in s'.services && s'.services[k].spec.clusterIP == s.services[k].spec.clusterIP
    ensures var o := Run(s, env, req).0;
      !(o.StoreError? && o.error.Invalid? && o.error.kind == ServiceKind)
  {
    RunEvolves(s, env, req);
    NoServiceUpdateRefused(s, env, req);
  }

  /**
   Selector stability: every Deployment keeps its selector, a Deployment the
   reconcile creates has the canonical selector {app: name}, and so does every
   Service the reconcile creates or rewrites, whatever the faults.
   */
  lemma SelectorsStable(s: State, env: Env, req: Key)
    requires WellKeyed(s)
    ensures var s' := Run(s, env, req).1;
      && (forall k :: k in s.deployments ==> k in s'.deployments && s'.deployments[k].spec.selector == s.deployments[k].spec.selector)
      && (req in s'.deployments && req !in s.deployments ==> s'.deployments[req].spec.selector == CanonicalSelector(req))
      && (req in s'.services && (req !in s.services || s'.services[req] != s.services[req]) ==>
            s'.services[req].spec.selector == AppLabels(req.name))
  {
    RunEvolves(s, env, req);
  }

  /** A reconcile changes nothing under any other name, and keeps the store well keyed. */
  lemma OnlyRequestedKeyChanges(s: State, env: Env, req: Key)
    requires WellKeyed(s)
    ensures var s' := Run(s, env, req).1;
      && WellKeyed(s')
      && s'.apps - {req} == s.apps - {req}
      && s'.deployments - {req} == s.deployments - {req}
      && s'.services - {req} == s.services - {req}
      && s'.apps.Keys == s.apps.Keys
  {
    RunEvolves(s, env, req);
  }

  /**
   The drift phase never has an update refused when the live Deployment's
   selector is canonical: the Deployment update keeps that selector and the
   Service update carries the address forward.
   */
  lemma UpdateDependentsNeverInvalid(s: State, env: Env, req: Key, instance: MyApp)
    requires WellKeyed(s) && KeyOf(instance.meta) == req
    requires req in s.deployments ==> s.deployments[req].spec.selector == CanonicalSelector(req)
    ensures var o := UpdateDependents(s, env, req, instance).0; !(o.StoreError? && o.error.Invalid?)
  {
    if req in s.deployments {
      assert KeyOf(s.deployments[req].meta) == req;
    }
    var s1 := Issue(s, Call(Get, DeploymentKind, req));
    if req in s.deployments && |s.trace| !in env.faults {
      var d := s.deployments[req].(spec := NewDeployment(instance).spec);
      var (updated, s2) := UpdateDeployment(s1, env, d);
      if updated.Ok? {
        assert s2.services == s.services;
        if req in s.services {
          assert KeyOf(s.services[req].meta) == req;
        }
      }
    }
  }

  /** No reconcile has an update refused, provided the live Deployment's selector is canonical. */
  lemma NoInvalidUpdate(s: State, env: Env, req: Key)
    requires WellKeyed(s)
    requires req in s.deployments ==> s.deployments[req].spec.selector == CanonicalSelector(req)
    ensures var o := Run(s, env, req).0; !(o.StoreError? && o.error.Invalid?)
  {
    var (got, s1) := GetApp(s, env, req);
    if got.Ok? && !got.value.meta.deleting {
      var instance := got.value;
      assert KeyOf(instance.meta) == req;
      var (live, s2) := GetDeployment(s1, env, req);
      if live.Ok? {
        var applied := Converge(s2, env, req, instance);
        UpdateDependentsNeverInvalid(s2, env, req, instance);
        assert !(applied.0.StoreError? && applied.0.error.Invalid?);
      }
    }
  }

  /** A transient failure is the outcome only of the last call issued, one the environment fails. */
  predicate FailsAtLastCall(r: (Outcome, State), env: Env) {
    r.0.StoreError? && r.0.error.Transient? ==>
      r.0.error.call + 1 == |r.1.trace| && r.0.error.call in env.faults
  }

  lemma PhasesFailAtLastCall(s: State, env: Env, req: Key, instance: MyApp)
    ensures FailsAtLastCall(Bootstrap(s, env, instance), env)
    ensures FailsAtLastCall(Converge(s, env, req, instance), env)
    ensures FailsAtLastCall(Persist(s, env, instance), env)
  {
    assert FailsAtLastCall(UpdateDependents(s, env, req, instance), env);
  }

  /** A transient failure ends the reconcile at the failing call: there is no retry. */
  lemma TransientFailureIsLastCall(s: State, env: Env, req: Key)
    ensures FailsAtLastCall(Run(s, env, req), env)
  {
    var (got, s1) := GetApp(s, env, req);
    if got.Ok? && !got.value.meta.deleting {
      var instance := got.value;
      var (live, s2) := GetDeployment(s1, env, req);
      if live.Ok? || live.error.NotFound? {
        var applied := if live.Err? then Bootstrap(s2, env, instance) else Converge(s2, env, req, instance);
        PhasesFailAtLastCall(s2, env, req, instance);
        if applied.0.Done? {
          PhasesFailAtLastCall(applied.1, env, req, instance);
        }
      }
    }
  }

  /**
   The create and converge phases leave the primaries alone, and when they
   succeed a Deployment named `req` exists.
   */
  lemma PhasesKeepApps(s: State, env: Env, req: Key, instance: MyApp)
    requires KeyOf(instance.meta) == req
    ensures var r := Bootstrap(s, env, instance); r.1.apps == s.apps && (r.0.Done? ==> req in r.1.deployments)
    ensures var r := Converge(s, env, req, instance);
      r.1.apps == s.apps && (r.0.Done? && req in s.deployments ==> req in r.1.deployments)
  {
    var r := UpdateDependents(s, env, req, instance);
    assert r.1.apps == s.apps && s.deployments.Keys <= r.1.deployments.Keys;
  }

  /**
   Persist: a successful reconcile of a live primary ends by updating it with
   the current spec as its snapshot (other annotations kept), and leaves a
   Deployment behind.
   */
  lemma PersistOnSuccess(s: State, env: Env, req: Key)
    requires WellKeyed(s) && Live(s, req)
    requires Run(s, env, req).0 == Done
    ensures var s' := Run(s, env, req).1;
      var app := s.apps[req];
      && s'.apps == s.apps[req := Persisted(app)]
      && req in s'.deployments
      && |s'.trace| > 0 && s'.trace[|s'.trace| - 1] == Call(Update, MyAppKind, req)
      && Decode(StoredSnapshot(s'.apps[req])) == Some(app.spec)
  {
    var app := s.apps[req];
    assert KeyOf(app.meta) == req;
    var n := |s.trace|;
    assert n !in env.faults && n + 1 !in env.faults;
    var s2 := Fetched(s, req);
    RunOnLive(s, env, req);
    var applied := if req in s.deployments then Converge(s2, env, req, app) else Bootstrap(s2, env, app);
    PhasesKeepApps(s2, env, req, app);
    assert applied.0.Done? && applied.1.apps == s.apps && req in applied.1.deployments;
    assert Run(s, env, req) == Persist(applied.1, env, app);
    DecodeEncode(app.spec);
  }

  /** A reconcile that does not succeed leaves every primary as it was. */
  lemma FailedRunKeepsApps(s: State, env: Env, req: Key)
    requires !Run(s, env, req).0.Done?
    ensures Run(s, env, req).1.apps == s.apps
  {
    var (got, s1) := GetApp(s, env, req);
    if got.Ok? && !got.value.meta.deleting {
      var instance := got.value;
      var (live, s2) := GetDeployment(s1, env, req);
      if live.Ok? || live.error.NotFound? {
        var applied := if live.Err? then Bootstrap(s2, env, instance) else Converge(s2, env, req, instance);
        assert applied.1.apps == s.apps by {
          var r := UpdateDependents(s2, env, req, instance);
          assert r.1.apps == s2.apps;
        }
      }
    }
  }

  /**
   The partial-bootstrap gap, as the source has it: when a first reconcile of a
   primary without a snapshot creates the Deployment but fails afterwards (the
   Service create or the persist step), the next reconcile finds the Deployment,
   finds no snapshot, and fails with a decode error; so does every one after
   it until something outside writes the annotation.
   */
  lemma PartialBootstrapThenDecodeError(s: State, env1: Env, env2: Env, req: Key)
    requires WellKeyed(s) && Live(s, req) && req !in s.deployments
    requires Decode(StoredSnapshot(s.apps[req])) == None
    requires var (o, s1) := Run(s, env1, req); o.StoreError? && req in s1.deployments
    requires FaultFree(env2, |Run(s, env1, req).1.trace|, 2)
    ensures var s1 := Run(s, env1, req).1;
      Run(s1, env2, req) ==
        (DecodeError(StoredSnapshot(s.apps[req])),
         s1.(trace := s1.trace + [Call(Get, MyAppKind, req), Call(Get, DeploymentKind, req)]))
  {
    var s1 := Run(s, env1, req).1;
    FailedRunKeepsApps(s, env1, req);
    assert s1.apps == s.apps;
    DecodeFailureIsFatal(s1, env2, req);
  }

  lemma PersistedIdempotent(app: MyApp)
    ensures Persisted(Persisted(app)) == Persisted(app)
  {
    var data := Encode(app.spec);
    match app.meta.annotations
    case None =>
      assert map[SpecKey := data][SpecKey := data] == map[SpecKey := data];
    case Some(m) =>
      assert m[SpecKey := data][SpecKey := data] == m[SpecKey := data];
  }

  /**
   The second run of the idempotence lemma: a live primary whose snapshot is
   already the encoding of its spec, with a Deployment present, is reconciled
   without a dependent write under any faults.
   */
  lemma SettledRunWritesNoDependents(s: State, env: Env, req: Key)
    requires WellKeyed(s) && Live(s, req) && req in s.deployments
    requires s.apps[req] == Persisted(s.apps[req])
    ensures var (o, s') := Run(s, env, req);
      && |s.trace| <= |s'.trace|
      && NoDependentWrites(s'.trace[|s.trace|..])
      && s'.deployments == s.deployments
      && s'.services == s.services
      && s'.apps == s.apps
      && !o.DecodeError?
      && (FaultFree(env, |s.trace|, 3) ==> o == Done)
  {
    var app := s.apps[req];
    var n := |s.trace|;
    assert KeyOf(app.meta) == req;
    assert StoredSnapshot(app) == Encode(app.spec);
    DecodeEncode(app.spec);
    var (o, s') := Run(s, env, req);
    if Faulty(s, env) {
      assert s'.trace[n..] == [Call(Get, MyAppKind, req)];
    } else if n + 1 in env.faults {
      assert s'.trace[n..] == [Call(Get, MyAppKind, req), Call(Get, DeploymentKind, req)];
    } else {
      RunOnLive(s, env, req);
      assert (o, s') == Persist(Fetched(s, req), env, app);
      assert s'.trace[n..] == [Call(Get, MyAppKind, req), Call(Get, DeploymentKind, req), Call(Update, MyAppKind, req)];
    }
  }

  /**
   Idempotence: after a successful reconcile, a second one with no external
   change in between creates and updates no Deployment and no Service, whatever
   fails in it; when its reads succeed it succeeds, and its update of the
   primary rewrites the same object.
   */
  lemma SecondReconcileWritesNoDependents(s: State, env1: Env, env2: Env, req: Key)
    requires WellKeyed(s)
    requires Run(s, env1, req).0 == Done
    ensures var s1 := Run(s, env1, req).1;
      var (o2, s2) := Run(s1, env2, req);
      && |s1.trace| <= |s2.trace|
      && NoDependentWrites(s2.trace[|s1.trace|..])
      && s2.deployments == s1.deployments
      && s2.services == s1.services
      && s2.apps == s1.apps
      && !o2.DecodeError?
      && (Live(s, req) && FaultFree(env2, |s1.trace|, 3) ==> o2 == Done)
  {
    var s1 := Run(s, env1, req).1;
    OnlyRequestedKeyChanges(s, env1, req);
    if Live(s, req) {
      PersistOnSuccess(s, env1, req);
      PersistedIdempotent(s.apps[req]);
      SettledRunWritesNoDependents(s1, env2, req);
    } else {
      assert s1 == Issue(s, Call(Get, MyAppKind, req)) by {
        if Faulty(s, env1) { PrimaryReadFailure(s, env1, req); } else { TerminalNoOp(s, env1, req); }
      }
      var s2 := Run(s1, env2, req).1;
      assert !Live(s1, req);
      assert s2 == Issue(s1, Call(Get, MyAppKind, req));
      assert s2.trace[|s1.trace|..] == [Call(Get, MyAppKind, req)];
    }
  }
}
