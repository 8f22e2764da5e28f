/**
 * The service broker (broker.go): the catalog, the resource-name derivation,
 * Provision and Deprovision over the cluster, the in-memory registry of
 * instances per service, the removal helper, and the no-op stubs.
 */
module Broker {
  import opened Options
  import opened Objects
  import opened Render
  import opened Cluster
  import opened Kube
  import opened Registry

  // ---------------------------------------------------------------------
  // Resource names
  // ---------------------------------------------------------------------

  /** The name shared by the secret, deployment and service of one instance. */
  function ResourceName(serviceID: string, instanceID: string): (name: string)
    ensures |name| == |serviceID| + 1 + |instanceID|
    ensures name[..|serviceID|] == serviceID
    ensures name[|serviceID|] == '-'
    ensures name[|serviceID| + 1..] == instanceID
  {
    serviceID + "-" + instanceID
  }

  /** Under one service, distinct instances get distinct names. */
  lemma NameDeterminesInstance(serviceID: string, instanceID1: string, instanceID2: string)
    ensures ResourceName(serviceID, instanceID1) == ResourceName(serviceID, instanceID2) <==> instanceID1 == instanceID2
  {
    if ResourceName(serviceID, instanceID1) == ResourceName(serviceID, instanceID2) {
      assert instanceID1 == ResourceName(serviceID, instanceID1)[|serviceID| + 1..];
    }
  }

  /** Across services the name is not unique once an ID contains "-". */
  lemma NamesCollideAcrossServices(a: string, b: string, c: string)
    ensures ResourceName(a + "-" + b, c) == ResourceName(a, b + "-" + c)
    ensures (a + "-" + b, c) != (a, b + "-" + c)
  {
    assert |a + "-" + b| != |a|;
  }

  // ---------------------------------------------------------------------
  // Catalog
  // ---------------------------------------------------------------------

  datatype ServicePlan = ServicePlan(id: string, name: string, description: string)

  datatype CatalogService = CatalogService(
    id: string, name: string, description: string, bindable: bool, plans: seq<ServicePlan>)

  /** The catalog: redis and postgres, both bindable, each with one plan named after the service ID plus "-poc". */
  function Services(): (r: seq<CatalogService>)
    ensures |r| == 2 && r[0].id == "redis" && r[1].id == "postgres"
    ensures forall s :: s in r ==> s.bindable && |s.plans| == 1 && s.plans[0].id == s.id + "-poc"
    ensures forall s :: s in r ==> s.plans[0].name == "postgres" && s.plans[0].description == "poc"
  {
    [ CatalogService("redis", "redis", "a proof of concept redis", true,
                     [ServicePlan("redis-poc", "postgres", "poc")]),
      CatalogService("postgres", "postgres", "a proof of concept postgresql instance", true,
                     [ServicePlan("postgres-poc", "postgres", "poc")]) ]
  }

  // ---------------------------------------------------------------------
  // Requests and replies (the fields the broker library defines; all replies are zero values)
  // ---------------------------------------------------------------------

  datatype ProvisionDetails = ProvisionDetails(serviceID: string, planID: string)
  datatype DeprovisionDetails = DeprovisionDetails(serviceID: string, planID: string)

  datatype ProvisionedServiceSpec = ProvisionedServiceSpec(isAsync: bool, dashboardURL: string, operationData: string)
  datatype DeprovisionServiceSpec = DeprovisionServiceSpec(isAsync: bool, operationData: string)
  datatype Binding = Binding(credentials: map<string, string>, syslogDrainURL: string, routeServiceURL: string)
  datatype UnbindSpec = UnbindSpec(isAsync: bool, operationData: string)
  datatype UpdateServiceSpec = UpdateServiceSpec(isAsync: bool, dashboardURL: string, operationData: string)
  datatype OperationState = OperationState(state: string, description: string)

  // ---------------------------------------------------------------------
  // Call order
  // ---------------------------------------------------------------------

  const SecretFile := "secret.yml"
  const DeploymentFile := "deployment.yml"

  const CreationOrder := [SecretKind, DeploymentKind, ServiceKind]
  const DeletionOrder := [DeploymentKind, ServiceKind, SecretKind]

  /** The three objects of an instance. */
  function Refs(name: string): (refs: set<Ref>) {
    {Ref(Namespace, SecretKind, name), Ref(Namespace, DeploymentKind, name), Ref(Namespace, ServiceKind, name)}
  }

  /** Creates of secret, deployment, service, in that order, each issued only after the previous one succeeded. */
  ghost predicate CreatesInOrder(trace: seq<Call>, name: string) {
    && |trace| <= 3
    && (forall i :: 0 <= i < |trace| ==>
          trace[i].CreateCall? && trace[i].ref == Ref(Namespace, CreationOrder[i], name))
    && (forall i :: 0 <= i < |trace| - 1 ==> trace[i].ok)
  }

  /** Deletes of deployment, service, secret, in that order, each issued only after the previous one succeeded. */
  ghost predicate DeletesInOrder(trace: seq<Call>, name: string) {
    && |trace| <= 3
    && (forall i :: 0 <= i < |trace| ==>
          trace[i].DeleteCall? && trace[i].ref == Ref(Namespace, DeletionOrder[i], name))
    && (forall i :: 0 <= i < |trace| - 1 ==> trace[i].ok)
  }

  /** Deprovision addresses exactly the objects Provision creates for the same IDs. */
  lemma TeardownMatchesCreation(serviceID: string, instanceID: string)
    ensures var name := ResourceName(serviceID, instanceID);
      && (set i | 0 <= i < 3 :: Ref(Namespace, CreationOrder[i], name)) == Refs(name)
      && (set i | 0 <= i < 3 :: Ref(Namespace, DeletionOrder[i], name)) == Refs(name)
  {
    var name := ResourceName(serviceID, instanceID);
    assert Ref(Namespace, CreationOrder[0], name) == Ref(Namespace, SecretKind, name);
    assert Ref(Namespace, CreationOrder[1], name) == Ref(Namespace, DeploymentKind, name);
    assert Ref(Namespace, CreationOrder[2], name) == Ref(Namespace, ServiceKind, name);
    assert Ref(Namespace, DeletionOrder[0], name) == Ref(Namespace, DeploymentKind, name);
    assert Ref(Namespace, DeletionOrder[1], name) == Ref(Namespace, ServiceKind, name);
    assert Ref(Namespace, DeletionOrder[2], name) == Ref(Namespace, SecretKind, name);
  }

  /**
   * A complete provision followed by a deprovision whose first two deletes
   * succeed removes the instance's objects, except the secret when its
   * (ignored) delete failed.
   */
  lemma {:induction false} ProvisionDeprovisionRestores(objects: set<Ref>, name: string, created: seq<Call>, deleted: seq<Call>)
    requires CreatesInOrder(created, name) && |created| == 3 && created[2].ok
    requires DeletesInOrder(deleted, name) && |deleted| == 3
    ensures ApplyAll(objects, created + deleted)
            == (objects - Refs(name)) + (if deleted[2].ok then {} else {Ref(Namespace, SecretKind, name)})
  {
    ApplyAllConcat(objects, created, deleted);
    ApplyAllThree(objects, created);
    ApplyAllThree(ApplyAll(objects, created), deleted);
  }

  /**
   * The three creates of Provision: secret, deployment, service, each only
   * after the previous one succeeded; `halt` is how the request stops, if it
   * does. The arguments are the three objects as createSecret,
   * createDeployment and createService prepare them; preparing is free of
   * effects, so only the outcome of a step that is reached matters.
   */
  method CreateResources(kube: Backend, name: string, secret: Outcome<Object>, deployment: Outcome<Object>, service: Outcome<Object>)
    returns (halt: Option<Halt>, ghost trace: seq<Call>)
    requires kube.Valid()
    requires secret.Done? ==> secret.value.Kind() == SecretKind && secret.value.Name() == name
    requires deployment.Done? ==> deployment.value.Kind() == DeploymentKind && deployment.value.Name() == name
    requires service.Done? ==> service.value.Kind() == ServiceKind && service.value.Name() == name
    modifies kube
    ensures kube.Valid()
    ensures kube.log == old(kube.log) + trace
    ensures CreatesInOrder(trace, name)
    ensures (|trace| > 0 ==> secret.Done?) && (|trace| > 1 ==> deployment.Done?) && (|trace| > 2 ==> service.Done?)
    ensures forall r :: r in old(kube.store) && r in kube.store ==> kube.store[r] == old(kube.store)[r]
    ensures |trace| > 0 && trace[0].ok ==> trace[0].ref in kube.store && kube.store[trace[0].ref] == secret.value
    ensures |trace| > 1 && trace[1].ok ==> trace[1].ref in kube.store && kube.store[trace[1].ref] == deployment.value
    ensures |trace| > 2 && trace[2].ok ==> trace[2].ref in kube.store && kube.store[trace[2].ref] == service.value
    ensures halt.None? <==> |trace| == 3 && trace[2].ok
    ensures halt.Some? && |trace| > 0 && !trace[|trace| - 1].ok
            ==> halt.value == Exit(CreateFailed(CreationOrder[|trace| - 1]))
    ensures halt.Some? && (trace == [] || trace[|trace| - 1].ok) ==>
      || (|trace| == 0 && secret == Halted(halt.value))
      || (|trace| == 1 && deployment == Halted(halt.value))
      || (|trace| == 2 && service == Halted(halt.value))
  {
    ghost var log0 := kube.log;
    var s := Submit(kube, secret, SecretKind, name);
    if s.Halted? {
      halt, trace := Some(s.halt), [];
    } else {
      ghost var c0 := CreateCall(Ref(Namespace, SecretKind, name), s.value);
      if !s.value {
        halt, trace := Some(Exit(CreateFailed(SecretKind))), [c0];
      } else {
        var d := Submit(kube, deployment, DeploymentKind, name);
        if d.Halted? {
          halt, trace := Some(d.halt), [c0];
        } else {
          ghost var c1 := CreateCall(Ref(Namespace, DeploymentKind, name), d.value);
          if !d.value {
            halt, trace := Some(Exit(CreateFailed(DeploymentKind))), [c0, c1];
          } else {
            var v := Submit(kube, service, ServiceKind, name);
            if v.Halted? {
              halt, trace := Some(v.halt), [c0, c1];
            } else {
              ghost var c2 := CreateCall(Ref(Namespace, ServiceKind, name), v.value);
              trace := [c0, c1, c2];
              halt := if v.value then None else Some(Exit(CreateFailed(ServiceKind)));
            }
          }
        }
      }
    }
    assert CreatesInOrder(trace, name) && kube.log == log0 + trace;
  }

  /** The registry entry for a service; a missing key reads as an empty (nil) slice. */
  function Entry(deployments: map<string, seq<string>>, serviceID: string): (e: seq<string>)
    ensures serviceID in deployments ==> e == deployments[serviceID]
    ensures serviceID !in deployments ==> e == []
  {
    if serviceID in deployments then deployments[serviceID] else []
  }

  class Broker {
    /** Instance IDs per service ID, in provisioning order. */
    var deployments: map<string, seq<string>>
    /** The cluster client. */
    const kube: Backend

    constructor (kube: Backend)
      ensures this.kube == kube && deployments == map[]
    {
      this.kube := kube;
      deployments := map[];
    }

    /**
     * Create secret, deployment and service named serviceID-instanceID; any
     * failure ends the request before the next create and before the registry
     * is touched; on success append the instance to its service's entry.
     */
    method Provision(instanceID: string, details: ProvisionDetails, files: Files, gen: Option<Password>)
      returns (r: Outcome<ProvisionedServiceSpec>, ghost trace: seq<Call>)
      requires kube.Valid()
      modifies this, kube
      ensures kube.Valid()
      ensures kube.log == old(kube.log) + trace
      ensures kube.objects == ApplyAll(old(kube.objects), trace)
      ensures CreatesInOrder(trace, ResourceName(details.serviceID, instanceID))
      ensures forall ref :: ref in old(kube.store) && ref in kube.store ==> kube.store[ref] == old(kube.store)[ref]
      ensures var name := ResourceName(details.serviceID, instanceID);
        var secret := PrepareSecret(files, "secret.yml", name, gen);
        var deployment := PrepareDeployment(files, "deployment.yml", name, details.serviceID);
        var service := PrepareService(files, "service.yml", name, details.serviceID);
        && (|trace| > 0 ==> secret.Done?) && (|trace| > 1 ==> deployment.Done?) && (|trace| > 2 ==> service.Done?)
        && (|trace| > 0 && trace[0].ok ==> trace[0].ref in kube.store && kube.store[trace[0].ref] == secret.value)
        && (|trace| > 1 && trace[1].ok ==> trace[1].ref in kube.store && kube.store[trace[1].ref] == deployment.value)
        && (|trace| > 2 && trace[2].ok ==> trace[2].ref in kube.store && kube.store[trace[2].ref] == service.value)
        && (r.Halted? && (trace == [] || trace[|trace| - 1].ok) ==>
              || (|trace| == 0 && secret == Halted(r.halt))
              || (|trace| == 1 && deployment == Halted(r.halt))
              || (|trace| == 2 && service == Halted(r.halt)))
      ensures r.Done? <==> |trace| == 3 && trace[2].ok
      ensures r.Done? ==> r.value == ProvisionedServiceSpec(false, "", "")
      ensures r.Done? ==> deployments == old(deployments)[details.serviceID := Entry(old(deployments), details.serviceID) + [instanceID]]
      ensures r.Halted? ==> deployments == old(deployments)
      ensures r.Halted? && |trace| > 0 && !trace[|trace| - 1].ok
              ==> r.halt == Exit(CreateFailed(CreationOrder[|trace| - 1]))
    {
      var name := ResourceName(details.serviceID, instanceID);
      var halt;
      PreparedNames(files, SecretFile, name, gen, details.serviceID);
      ghost var log0 := kube.log;
      halt, trace := CreateResources(kube, name, PrepareSecret(files, SecretFile, name, gen),
                                     PrepareDeployment(files, DeploymentFile, name, details.serviceID),
                                     PrepareService(files, ServiceTemplateFile, name, details.serviceID));
      ApplyAllConcat({}, log0, trace);
      if halt.Some? {
        r := Halted(halt.value);
      } else {
        deployments := deployments[details.serviceID := Entry(deployments, details.serviceID) + [instanceID]];
        r := Done(ProvisionedServiceSpec(false, "", ""));
      }
    }

    /**
     * Delete deployment, service and secret named serviceID-instanceID
     * (failures of the first two end the request, the secret's answer is
     * ignored), then run the removal helper on the service's entry and
     * discard its result: the entry keeps its length.
     */
    method Deprovision(instanceID: string, details: DeprovisionDetails)
      returns (r: Outcome<DeprovisionServiceSpec>, ghost trace: seq<Call>)
      requires kube.Valid()
      modifies this, kube
      ensures kube.Valid()
      ensures kube.log == old(kube.log) + trace
      ensures kube.objects == ApplyAll(old(kube.objects), trace)
      ensures DeletesInOrder(trace, ResourceName(details.serviceID, instanceID))
      ensures forall ref :: ref in kube.store ==> ref in old(kube.store) && kube.store[ref] == old(kube.store)[ref]
      ensures r.Done? <==> |trace| == 3 && Entry(old(deployments), details.serviceID) != []
      ensures r.Done? ==> r.value == DeprovisionServiceSpec(false, "")
      ensures r.Done? ==> deployments == old(deployments)[details.serviceID := Forgotten(old(deployments)[details.serviceID], instanceID)]
      ensures r.Halted? ==> deployments == old(deployments)
      ensures r.Halted? && |trace| < 3 ==>
        |trace| > 0 && !trace[|trace| - 1].ok && r.halt == Exit(DeleteFailed(DeletionOrder[|trace| - 1]))
      ensures r.Halted? && |trace| == 3 ==>
        r.halt == Panic(IndexOutOfRange) && Entry(old(deployments), details.serviceID) == []
    {
      var name := ResourceName(details.serviceID, instanceID);
      ghost var log0 := kube.log;
      var ok := DeleteDeployment(kube, name);
      ghost var c0 := DeleteCall(Ref(Namespace, DeploymentKind, name), ok);
      if !ok {
        r, trace := Halted(Exit(DeleteFailed(DeploymentKind))), [c0];
        assert DeletesInOrder(trace, name);
      } else {
        ok := DeleteService(kube, name);
        ghost var c1 := DeleteCall(Ref(Namespace, ServiceKind, name), ok);
        if !ok {
          r, trace := Halted(Exit(DeleteFailed(ServiceKind))), [c0, c1];
          assert DeletesInOrder(trace, name);
        } else {
          ok := DeleteSecret(kube, name);
          trace := [c0, c1, DeleteCall(Ref(Namespace, SecretKind, name), ok)];
          assert DeletesInOrder(trace, name);
          assert kube.log == log0 + trace;
          var entry := Entry(deployments, details.serviceID);
          if |entry| == 0 {
            // indexing the empty (or nil) slice panics before anything is written
            r := Halted(Panic(IndexOutOfRange));
          } else {
            // the helper writes through the slice the map holds; its shorter result is dropped
            var slots := new string[|entry|](j requires 0 <= j < |entry| => entry[j]);
            assert slots[..] == entry;
            var _ := Fuhgettaboutit(slots, instanceID);
            assert slots[..] == Forgotten(old(deployments)[details.serviceID], instanceID);
            deployments := deployments[details.serviceID := slots[..]];
            r := Done(DeprovisionServiceSpec(false, ""));
          }
        }
      }
      ApplyAllConcat({}, log0, trace);
    }

    /**
     * Find the last slot holding `strToRemove` (slot 0 if none), copy the last
     * element into it, blank the last slot and return the slice without it.
     */
    method Fuhgettaboutit(s: array<string>, strToRemove: string) returns (r: seq<string>)
      requires s.Length > 0
      modifies s
      ensures s[..] == Forgotten(old(s[..]), strToRemove)
      ensures r == Removed(old(s[..]), strToRemove)
    {
      var i := 0;
      for p := 0 to s.Length
        invariant i == LastIndex(s[..p], strToRemove)
      {
        assert s[..p + 1][..p] == s[..p];
        if s[p] == strToRemove {
          i := p;
        }
      }
      assert s[..s.Length] == s[..];
      s[i] := s[s.Length - 1];
      s[s.Length - 1] := "";
      r := s[..s.Length - 1];
    }

    method Bind(instanceID: string, bindingID: string) returns (r: Outcome<Binding>)
      ensures r == Done(Binding(map[], "", ""))
    {
      r := Done(Binding(map[], "", ""));
    }

    method Unbind(instanceID: string, bindingID: string) returns (r: Outcome<UnbindSpec>)
      ensures r == Done(UnbindSpec(false, ""))
    {
      r := Done(UnbindSpec(false, ""));
    }

    method Update(instanceID: string) returns (r: Outcome<UpdateServiceSpec>)
      ensures r == Done(UpdateServiceSpec(false, "", ""))
    {
      r := Done(UpdateServiceSpec(false, "", ""));
    }

    method LastOperation(instanceID: string) returns (r: Outcome<OperationState>)
      ensures r == Done(OperationState("", ""))
    {
      r := Done(OperationState("", ""));
    }
  }

  /**
   * Deprovision of an instance that is the only one registered for its
   * service, on a cluster whose objects are what its creates left: when it
   * completes, the entry holds one blank slot and at most the secret is left.
   */
  method DeprovisionSole(broker: Broker, serviceID: string, instanceID: string, planID: string, ghost created: seq<Call>)
    returns (d: Outcome<DeprovisionServiceSpec>)
    requires broker.kube.Valid()
    requires broker.deployments == map[serviceID := [instanceID]]
    requires CreatesInOrder(created, ResourceName(serviceID, instanceID)) && |created| == 3 && created[2].ok
    requires broker.kube.objects == ApplyAll({}, created)
    modifies broker, broker.kube
    ensures d.Done? ==>
      && broker.deployments == map[serviceID := [""]]
      && broker.kube.objects <= {Ref(Namespace, SecretKind, ResourceName(serviceID, instanceID))}
  {
    ghost var deleted;
    d, deleted := broker.Deprovision(instanceID, DeprovisionDetails(serviceID, planID));
    if d.Done? {
      ForgetLastAppended([], instanceID);
      assert [] + [instanceID] == [instanceID];
      ApplyAllConcat({}, created, deleted);
      ProvisionDeprovisionRestores({}, ResourceName(serviceID, instanceID), created, deleted);
    }
  }

  /**
   * One instance provisioned and then deprovisioned on a fresh broker and an
   * empty cluster: when both requests complete, the registry entry is not
   * emptied but holds one blank slot, and at most the secret is left behind.
   */
  method ProvisionThenDeprovision(serviceID: string, instanceID: string, planID: string, files: Files, gen: Option<Password>)
    returns (provisioned: Outcome<ProvisionedServiceSpec>, deprovisioned: Option<Outcome<DeprovisionServiceSpec>>,
             registry: map<string, seq<string>>, remaining: set<Ref>)
    ensures provisioned.Halted? ==> deprovisioned.None? && registry == map[]
    ensures provisioned.Done? ==> deprovisioned.Some?
    ensures provisioned.Done? && deprovisioned.value.Done? ==>
      && registry == map[serviceID := [""]]
      && remaining <= {Ref(Namespace, SecretKind, ResourceName(serviceID, instanceID))}
  {
    var kube := new Backend();
    var broker := new Broker(kube);
    var p, created := broker.Provision(instanceID, ProvisionDetails(serviceID, planID), files, gen);
    provisioned := p;
    if p.Halted? {
      deprovisioned := None;
    } else {
      assert broker.deployments == map[serviceID := [] + [instanceID]];
      assert [] + [instanceID] == [instanceID];
      var d := DeprovisionSole(broker, serviceID, instanceID, planID, created);
      deprovisioned := Some(d);
    }
    registry := broker.deployments;
    remaining := kube.objects;
  }
}
