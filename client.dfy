/**
 The cluster client as an object whose calls change the store in place. Each
 call does what the matching operation of module Store says, and keeps every
 object stored under its own name.
 */
module Client {
  import opened Wrappers
  import opened Api
  import opened Store

  class ClusterClient {
    var apps: map<Key, MyApp>
    var deployments: map<Key, Deployment>
    var services: map<Key, Service>
    var trace: seq<Call>
    const env: Env

    function Current(): State
      reads this
    {
      State(apps, deployments, services, trace)
    }

    ghost predicate Valid()
      reads this
    {
      WellKeyed(Current())
    }

    constructor (env: Env, initial: State)
      requires WellKeyed(initial)
      ensures Valid() && Current() == initial && this.env == env
    {
      apps, deployments, services, trace := initial.apps, initial.deployments, initial.services, initial.trace;
      this.env := env;
    }

    /** Records the call and says whether the environment fails it. */
    method Begin(call: Call) returns (index: nat, failed: bool)
      modifies this
      ensures index == |old(trace)| && failed == (index in env.faults)
      ensures Current() == Issue(old(Current()), call)
    {
      index := |trace|;
      failed := index in env.faults;
      trace := trace + [call];
    }

    method GetApp(k: Key) returns (r: Result<MyApp>)
      requires Valid()
      modifies this
      ensures Valid()
      ensures (r, Current()) == Store.GetApp(old(Current()), env, k)
    {
      var index, failed := Begin(Call(Get, MyAppKind, k));
      if failed {
        r := Err(Transient(index));
      } else if k in apps {
        r := Ok(apps[k]);
      } else {
        r := Err(NotFound(MyAppKind, k));
      }
    }

    method GetDeployment(k: Key) returns (r: Result<Deployment>)
      requires Valid()
      modifies this
      ensures Valid()
      ensures (r, Current()) == Store.GetDeployment(old(Current()), env, k)
    {
      var index, failed := Begin(Call(Get, DeploymentKind, k));
      if failed {
        r := Err(Transient(index));
      } else if k in deployments {
        r := Ok(deployments[k]);
      } else {
        r := Err(NotFound(DeploymentKind, k));
      }
    }

    method GetService(k: Key) returns (r: Result<Service>)
      requires Valid()
      modifies this
      ensures Valid()
      ensures (r, Current()) == Store.GetService(old(Current()), env, k)
    {
      var index, failed := Begin(Call(Get, ServiceKind, k));
      if failed {
        r := Err(Transient(index));
      } else if k in services {
        r := Ok(services[k]);
      } else {
        r := Err(NotFound(ServiceKind, k));
      }
    }

    method CreateDeployment(d: Deployment) returns (r: Result<()>)
      requires Valid()
      modifies this
      ensures Valid()
      ensures (r, Current()) == Store.CreateDeployment(old(Current()), env, d)
    {
      var k := KeyOf(d.meta);
      var index, failed := Begin(Call(Create, DeploymentKind, k));
      if failed {
        r := Err(Transient(index));
      } else if k in deployments {
        r := Err(AlreadyExists(DeploymentKind, k));
      } else {
        deployments := deployments[k := d];
        r := Ok(());
      }
    }

    method CreateService(svc: Service) returns (r: Result<()>)
      requires Valid()
      modifies this
      ensures Valid()
      ensures (r, Current()) == Store.CreateService(old(Current()), env, svc)
    {
      var k := KeyOf(svc.meta);
      var index, failed := Begin(Call(Create, ServiceKind, k));
      if failed {
        r := Err(Transient(index));
      } else if k in services {
        r := Err(AlreadyExists(ServiceKind, k));
      } else {
        var stored := svc;
        if stored.spec.clusterIP == "" {
          stored := stored.(spec := stored.spec.(clusterIP := env.address(index)));
        }
        services := services[k := stored];
        r := Ok(());
      }
    }

    method UpdateDeployment(d: Deployment) returns (r: Result<()>)
      requires Valid()
      modifies this
      ensures Valid()
      ensures (r, Current()) == Store.UpdateDeployment(old(Current()), env, d)
    {
      var k := KeyOf(d.meta);
      var index, failed := Begin(Call(Update, DeploymentKind, k));
      if failed {
        r := Err(Transient(index));
      } else if k !in deployments {
        r := Err(NotFound(DeploymentKind, k));
      } else if deployments[k].spec.selector != d.spec.selector {
        r := Err(Invalid(DeploymentKind, k));
      } else {
        deployments := deployments[k := d];
        r := Ok(());
      }
    }

    method UpdateService(svc: Service) returns (r: Result<()>)
      requires Valid()
      modifies this
      ensures Valid()
      ensures (r, Current()) == Store.UpdateService(old(Current()), env, svc)
    {
      var k := KeyOf(svc.meta);
      var index, failed := Begin(Call(Update, ServiceKind, k));
      if failed {
        r := Err(Transient(index));
      } else if k !in services {
        r := Err(NotFound(ServiceKind, k));
      } else if services[k].spec.clusterIP != "" && svc.spec.clusterIP != services[k].spec.clusterIP {
        r := Err(Invalid(ServiceKind, k));
      } else {
        services := services[k := svc];
        r := Ok(());
      }
    }

    method UpdateApp(app: MyApp) returns (r: Result<()>)
      requires Valid()
      modifies this
      ensures Valid()
      ensures (r, Current()) == Store.UpdateApp(old(Current()), env, app)
    {
      var k := KeyOf(app.meta);
      var index, failed := Begin(Call(Update, MyAppKind, k));
      if failed {
        r := Err(Transient(index));
      } else if k !in apps {
        r := Err(NotFound(MyAppKind, k));
      } else {
        apps := apps[k := app];
        r := Ok(());
      }
    }
  }
}
