/**
 What every reconcile of one name leaves alone: the relation `Evolves` between
 the store before and after, proved for each store call the reconciler makes,
 then for each phase, then for the whole of `Controller.Run`.
 */
module Frame {
  import opened Wrappers
  import opened Api
  import opened Snapshot
  import opened Synthesis
  import opened Store
  import opened Controller

  /** The canonical selector of the Deployment named `req`. */
  function CanonicalSelector(req: Key): LabelSelector {
    LabelSelector(AppLabels(req.name))
  }

  /**
   From s to s' the trace only grows; nothing is deleted; only objects named
   `req` change; no Deployment's selector and no Service's virtual address
   changes; a Deployment that appears has the canonical selector; a Service
   that appears or is rewritten has the canonical selector {app: name}; and
   every object stays under its own name.
   */
  predicate Evolves(s: State, s': State, req: Key) {
    && s.trace <= s'.trace
    && s'.apps.Keys == s.apps.Keys
    && s.deployments.Keys <= s'.deployments.Keys
    && s.services.Keys <= s'.services.Keys
    && s'.apps - {req} == s.apps - {req}
    && s'.deployments - {req} == s.deployments - {req}
    && s'.services - {req} == s.services - {req}
    && (forall k :: k in s.deployments ==> s'.deployments[k].spec.selector == s.deployments[k].spec.selector)
    && (forall k :: k in s.services ==> s'.services[k].spec.clusterIP == s.services[k].spec.clusterIP)
    && (req in s'.deployments && req !in s.deployments ==> s'.deployments[req].spec.selector == CanonicalSelector(req))
    && (req in s'.services && (req !in s.services || s'.services[req] != s.services[req]) ==>
          s'.services[req].spec.selector == AppLabels(req.name))
    && WellKeyed(s')
  }

  lemma EvolvesTransitive(a: State, b: State, c: State, req: Key)
    requires Evolves(a, b, req) && Evolves(b, c, req)
    ensures Evolves(a, c, req)
  {
    assert a.apps - {req} == c.apps - {req};
    assert a.deployments - {req} == c.deployments - {req};
    assert a.services - {req} == c.services - {req};
  }

  lemma IssueEvolves(s: State, call: Call, req: Key)
    requires WellKeyed(s)
    ensures Evolves(s, Issue(s, call), req)
  {
  }

  lemma CreateDeploymentEvolves(s: State, env: Env, d: Deployment, req: Key)
    requires WellKeyed(s) && KeyOf(d.meta) == req && d.spec.selector == CanonicalSelector(req)
    ensures Evolves(s, CreateDeployment(s, env, d).1, req)
  {
    var s' := CreateDeployment(s, env, d).1;
    assert s'.deployments - {req} == s.deployments - {req};
    assert s'.services == s.services;
  }

  lemma CreateServiceEvolves(s: State, env: Env, svc: Service, req: Key)
    requires WellKeyed(s) && KeyOf(svc.meta) == req && svc.spec.selector == AppLabels(req.name)
    ensures Evolves(s, CreateService(s, env, svc).1, req)
  {
    var s' := CreateService(s, env, svc).1;
    assert s'.services - {req} == s.services - {req};
  }

  lemma UpdateDeploymentEvolves(s: State, env: Env, d: Deployment, req: Key)
    requires WellKeyed(s) && KeyOf(d.meta) == req
    ensures Evolves(s, UpdateDeployment(s, env, d).1, req)
  {
    var s' := UpdateDeployment(s, env, d).1;
    assert s'.deployments - {req} == s.deployments - {req};
    assert s'.services == s.services;
  }

  lemma UpdateServiceEvolves(s: State, env: Env, svc: Service, req: Key)
    requires WellKeyed(s) && KeyOf(svc.meta) == req && svc.spec.selector == AppLabels(req.name)
    requires req in s.services ==> svc.spec.clusterIP == s.services[req].spec.clusterIP
    ensures Evolves(s, UpdateService(s, env, svc).1, req)
  {
    var s' := UpdateService(s, env, svc).1;
    assert s'.services - {req} == s.services - {req};
  }

  lemma UpdateAppEvolves(s: State, env: Env, app: MyApp, req: Key)
    requires WellKeyed(s) && KeyOf(app.meta) == req
    ensures Evolves(s, UpdateApp(s, env, app).1, req)
  {
    var s' := UpdateApp(s, env, app).1;
    assert s'.apps - {req} == s.apps - {req};
    assert s'.services == s.services;
  }

  lemma BootstrapEvolves(s: State, env: Env, instance: MyApp, req: Key)
    requires WellKeyed(s) && KeyOf(instance.meta) == req
    ensures Evolves(s, Bootstrap(s, env, instance).1, req)
  {
    var (created, s1) := CreateDeployment(s, env, NewDeployment(instance));
    CreateDeploymentEvolves(s, env, NewDeployment(instance), req);
    if created.Ok? {
      CreateServiceEvolves(s1, env, NewService(instance), req);
      EvolvesTransitive(s, s1, CreateService(s1, env, NewService(instance)).1, req);
    }
  }

  lemma UpdateDependentsEvolves(s: State, env: Env, req: Key, instance: MyApp)
    requires WellKeyed(s) && KeyOf(instance.meta) == req
    ensures Evolves(s, UpdateDependents(s, env, req, instance).1, req)
  {
    var (currDeployment, s1) := GetDeployment(s, env, req);
    IssueEvolves(s, Call(Get, DeploymentKind, req), req);
    if currDeployment.Ok? {
      var d := currDeployment.value.(spec := NewDeployment(instance).spec);
      var (updated, s2) := UpdateDeployment(s1, env, d);
      UpdateDeploymentEvolves(s1, env, d, req);
      EvolvesTransitive(s, s1, s2, req);
      if updated.Ok? {
        var (currService, s3) := GetService(s2, env, req);
        IssueEvolves(s2, Call(Get, ServiceKind, req), req);
        EvolvesTransitive(s, s2, s3, req);
        if currService.Ok? {
          var svc := Carried(currService.value, NewService(instance));
          UpdateServiceEvolves(s3, env, svc, req);
          EvolvesTransitive(s, s3, UpdateService(s3, env, svc).1, req);
        }
      }
    }
  }

  lemma ConvergeEvolves(s: State, env: Env, req: Key, instance: MyApp)
    requires WellKeyed(s) && KeyOf(instance.meta) == req
    ensures Evolves(s, Converge(s, env, req, instance).1, req)
  {
    var oldSpec := Decode(AnnotationValue(instance.meta.annotations, SpecKey));
    if oldSpec.Some? && instance.spec != oldSpec.value {
      UpdateDependentsEvolves(s, env, req, instance);
    }
  }

  lemma ThenPersistEvolves(s: State, applied: (Outcome, State), env: Env, instance: MyApp, req: Key)
    requires WellKeyed(s) && KeyOf(instance.meta) == req && Evolves(s, applied.1, req)
    ensures Evolves(s, ThenPersist(applied, env, instance).1, req)
  {
    if applied.0.Done? {
      UpdateAppEvolves(applied.1, env, Persisted(instance), req);
      EvolvesTransitive(s, applied.1, Persist(applied.1, env, instance).1, req);
    }
  }

  /** Every reconcile of `req`, under any faults, keeps the frame. */
  lemma RunEvolves(s: State, env: Env, req: Key)
    requires WellKeyed(s)
    ensures Evolves(s, Run(s, env, req).1, req)
  {
    var (got, s1) := GetApp(s, env, req);
    IssueEvolves(s, Call(Get, MyAppKind, req), req);
    if got.Ok? && !got.value.meta.deleting {
      var instance := got.value;
      var (live, s2) := GetDeployment(s1, env, req);
      IssueEvolves(s1, Call(Get, DeploymentKind, req), req);
      EvolvesTransitive(s, s1, s2, req);
      if live.Ok? || live.error.NotFound? {
        var applied := if live.Err? then Bootstrap(s2, env, instance) else Converge(s2, env, req, instance);
        if live.Err? {
          BootstrapEvolves(s2, env, instance, req);
        } else {
          ConvergeEvolves(s2, env, req, instance);
        }
        EvolvesTransitive(s, s2, applied.1, req);
        ThenPersistEvolves(s, applied, env, instance, req);
      }
    }
  }
}
