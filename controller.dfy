/**
 The MyApp reconciler. `Run` is one reconcile of one resource name as a
 function of the store and its environment; `MyAppReconciler.Reconcile` is the
 same step written as the source writes it, a sequence of client calls over a
 store that changes in place, and is proved to do exactly what `Run` says.
 */
module Controller {
  import opened Wrappers
  import opened Api
  import opened Snapshot
  import opened Synthesis
  import opened Store
  import opened Client

  /** What a reconcile returns: success, a store error, or an undecodable snapshot. */
  datatype Outcome = Done | StoreError(error: Error) | DecodeError(snapshot: string)

  /** Go's `m[key]` on a possibly nil map: "" when the map is nil or lacks the key. */
  function AnnotationValue(annotations: Option<map<string, string>>, key: string): string {
    match annotations
    case None => ""
    case Some(m) => if key in m then m[key] else ""
  }

  /** The annotations with the snapshot set; a nil map becomes the singleton map. */
  function WithSnapshot(annotations: Option<map<string, string>>, data: string): (r: Option<map<string, string>>)
    ensures r.Some? && SpecKey in r.value && r.value[SpecKey] == data
    ensures annotations.None? ==> r.value == map[SpecKey := data]
    ensures annotations.Some? ==> r.value.Keys == annotations.value.Keys + {SpecKey}
    ensures forall k :: k != SpecKey && annotations.Some? && k in annotations.value ==>
      r.value[k] == annotations.value[k]
  {
    match annotations
    case None => Some(map[SpecKey := data])
    case Some(m) => Some(m[SpecKey := data])
  }

  /** The primary as the persist step writes it back: its own spec recorded as the snapshot. */
  function Persisted(app: MyApp): (r: MyApp)
    ensures r.typeMeta == app.typeMeta && r.spec == app.spec
    ensures r.meta == app.meta.(annotations := r.meta.annotations)
    ensures Decode(AnnotationValue(r.meta.annotations, SpecKey)) == Some(app.spec)
  {
    DecodeEncode(app.spec);
    app.(meta := app.meta.(annotations := WithSnapshot(app.meta.annotations, Encode(app.spec))))
  }

  /** The live Service with the synthesized spec, keeping the virtual address it already has. */
  function Carried(live: Service, synthesized: Service): (r: Service)
    ensures r.typeMeta == live.typeMeta && r.meta == live.meta
    ensures r.spec.clusterIP == live.spec.clusterIP
    ensures r.spec.serviceType == synthesized.spec.serviceType && r.spec.ports == synthesized.spec.ports
    ensures r.spec.selector == synthesized.spec.selector
  {
    live.(spec := synthesized.spec.(clusterIP := live.spec.clusterIP))
  }

  function Run(s: State, env: Env, req: Key): (Outcome, State) {
    var (got, s1) := GetApp(s, env, req);
    if got.Err? then
      (if got.error.NotFound? then Done else StoreError(got.error), s1)
    else if got.value.meta.deleting then
      (Done, s1)
    else
      var instance := got.value;
      var (live, s2) := GetDeployment(s1, env, req);
      if live.Err? && !live.error.NotFound? then
        (StoreError(live.error), s2)
      else
        ThenPersist(
          if live.Err? then Bootstrap(s2, env, instance) else Converge(s2, env, req, instance),
          env, instance)
  }

  /** The persist step runs after a create or converge phase that succeeded, and only then. */
  function ThenPersist(applied: (Outcome, State), env: Env, instance: MyApp): (Outcome, State) {
    if applied.0.Done? then Persist(applied.1, env, instance) else applied
  }

  /** No Deployment yet: create the Deployment, then the Service. */
  function Bootstrap(s: State, env: Env, instance: MyApp): (Outcome, State) {
    var (created, s1) := CreateDeployment(s, env, NewDeployment(instance));
    if created.Err? then
      (StoreError(created.error), s1)
    else
      var (createdService, s2) := CreateService(s1, env, NewService(instance));
      (if createdService.Err? then StoreError(createdService.error) else Done, s2)
  }

  /** The Deployment exists: compare the snapshot with the spec and update on drift. */
  function Converge(s: State, env: Env, req: Key, instance: MyApp): (Outcome, State) {
    var snapshot := AnnotationValue(instance.meta.annotations, SpecKey);
    var oldSpec := Decode(snapshot);
    if oldSpec.None? then
      (DecodeError(snapshot), s)
    else if instance.spec == oldSpec.value then
      (Done, s)
    else
      UpdateDependents(s, env, req, instance)
  }

  /** Drift: overwrite the live Deployment's spec, then the live Service's spec. */
  function UpdateDependents(s: State, env: Env, req: Key, instance: MyApp): (Outcome, State) {
    var (currDeployment, s1) := GetDeployment(s, env, req);
    if currDeployment.Err? then
      (StoreError(currDeployment.error), s1)
    else
      var (updated, s2) :=
        UpdateDeployment(s1, env, currDeployment.value.(spec := NewDeployment(instance).spec));
      if updated.Err? then
        (StoreError(updated.error), s2)
      else
        var (currService, s3) := GetService(s2, env, req);
        if currService.Err? then
          (StoreError(currService.error), s3)
        else
          var (updatedService, s4) := UpdateService(s3, env, Carried(currService.value, NewService(instance)));
          (if updatedService.Err? then StoreError(updatedService.error) else Done, s4)
  }

  /** Write the current spec back into the primary's snapshot annotation. */
  function Persist(s: State, env: Env, instance: MyApp): (Outcome, State) {
    var (updated, s1) := UpdateApp(s, env, Persisted(instance));
    (if updated.Err? then StoreError(updated.error) else Done, s1)
  }

  class MyAppReconciler {
    const client: ClusterClient

    constructor (client: ClusterClient)
      ensures this.client == client
    {
      this.client := client;
    }

    method Reconcile(req: Key) returns (outcome: Outcome)
      requires client.Valid()
      modifies client
      ensures client.Valid()
      ensures (outcome, client.Current()) == Run(old(client.Current()), client.env, req)
    {
      var got := client.GetApp(req);
      if got.Err? {
        if got.error.NotFound? {
          return Done;
        }
        return StoreError(got.error);
      }
      var instance := got.value;
      if instance.meta.deleting {
        return Done;
      }

      var live := client.GetDeployment(req);
      if live.Err? {
        if !live.error.NotFound? {
          return StoreError(live.error);
        }
        var deployment := NewDeployment(instance);
        var created := client.CreateDeployment(deployment);
        if created.Err? {
          return StoreError(created.error);
        }
        var svc := NewService(instance);
        created := client.CreateService(svc);
        if created.Err? {
          return StoreError(created.error);
        }
      } else {
        var snapshot := AnnotationValue(instance.meta.annotations, SpecKey);
        var oldSpec := Decode(snapshot);
        if oldSpec.None? {
          return DecodeError(snapshot);
        }
        if instance.spec != oldSpec.value {
          var newDeployment := NewDeployment(instance);
          var currDeployment := client.GetDeployment(req);
          if currDeployment.Err? {
            return StoreError(currDeployment.error);
          }
          var deployment := currDeployment.value;
          deployment := deployment.(spec := newDeployment.spec);
          var updated := client.UpdateDeployment(deployment);
          if updated.Err? {
            return StoreError(updated.error);
          }

          var newService := NewService(instance);
          var currService := client.GetService(req);
          if currService.Err? {
            return StoreError(currService.error);
          }
          var svc := currService.value;
          var currIP := svc.spec.clusterIP;
          svc := svc.(spec := newService.spec);
          svc := svc.(spec := svc.spec.(clusterIP := currIP));
          updated := client.UpdateService(svc);
          if updated.Err? {
            return StoreError(updated.error);
          }
        }
      }

      var data := Encode(instance.spec);
      if instance.meta.annotations.Some? {
        instance := instance.(meta := instance.meta.(annotations := Some(instance.meta.annotations.value[SpecKey := data])));
      } else {
        instance := instance.(meta := instance.meta.(annotations := Some(map[SpecKey := data])));
      }
      var persisted := client.UpdateApp(instance);
      if persisted.Err? {
        return StoreError(persisted.error);
      }
      return Done;
    }
  }
}
