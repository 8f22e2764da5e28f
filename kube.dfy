/**
 * The cluster-facing functions of main.go: createSecret, createDeployment and
 * createService (read a template file and render it, then submit it), the
 * three deletes, and bailWith. Reading and parsing a template file is abstracted:
 * the working directory is a map from file name to the record the YAML
 * decoder produced together with whether it reported an error.
 */
module Kube {
  import opened Options
  import opened Objects
  import opened Render
  import opened Cluster

  /** Every create and delete targets this namespace. */
  const Namespace := "ahartpence"

  /** createService reads this file whatever file name it is given. */
  const ServiceTemplateFile := "service.yml"

  /** A template file that could be read: what the decoder filled in, and whether it reported an error. */
  datatype TemplateFile<T> = TemplateFile(parsed: T, parseOk: bool)

  /** The readable template files, by file name; a name that is missing cannot be read. */
  datatype Files = Files(
    secrets: map<string, TemplateFile<Secret>>,
    deployments: map<string, TemplateFile<Deployment>>,
    services: map<string, TemplateFile<Service>>)

  datatype Failure =
    | ReadFailed(file: string)
    | ParseFailed(file: string)
    | PasswordFailed
    | NilSecretData
    | NilSelector
    | CreateFailed(kind: Kind)
    | DeleteFailed(kind: Kind)
    | IndexOutOfRange

  /**
   * How a request handler stops early: `Exit` is bailWith, which ends the
   * process; `Panic` is a Go runtime panic, which unwinds the handler while
   * the HTTP server keeps running.
   */
  datatype Halt = Exit(failure: Failure) | Panic(failure: Failure)

  datatype Outcome<T> = Done(value: T) | Halted(halt: Halt)

  /**
   * The part of createSecret before the backend call: read the file (exit if
   * unreadable), decode it (a decoding error is ignored), render, generate the
   * password (exit on failure) and store it (panic on a nil data map).
   */
  function PrepareSecret(files: Files, fileName: string, uid: string, gen: Option<Password>): (r: Outcome<Object>)
    ensures fileName !in files.secrets ==> r == Halted(Exit(ReadFailed(fileName)))
    ensures fileName in files.secrets && gen.None? ==> r == Halted(Exit(PasswordFailed))
    ensures fileName in files.secrets && gen.Some? && files.secrets[fileName].parsed.data.None?
            ==> r == Halted(Panic(NilSecretData))
    ensures r.Done? <==> fileName in files.secrets && gen.Some? && files.secrets[fileName].parsed.data.Some?
    ensures r.Done? ==> r.value == SecretObject(RenderSecret(files.secrets[fileName].parsed, uid, gen.value))
  {
    if fileName !in files.secrets then Halted(Exit(ReadFailed(fileName)))
    else if gen.None? then Halted(Exit(PasswordFailed))
    else if files.secrets[fileName].parsed.data.None? then Halted(Panic(NilSecretData))
    else Done(SecretObject(RenderSecret(files.secrets[fileName].parsed, uid, gen.value)))
  }

  /**
   * The part of createDeployment before the backend call: read the file (exit
   * if unreadable), decode it (a decoding error is ignored) and render (panic
   * on a nil selector).
   */
  function PrepareDeployment(files: Files, fileName: string, uid: string, deployKind: string): (r: Outcome<Object>)
    ensures fileName !in files.deployments ==> r == Halted(Exit(ReadFailed(fileName)))
    ensures fileName in files.deployments && files.deployments[fileName].parsed.spec.selector.None?
            ==> r == Halted(Panic(NilSelector))
    ensures r.Done? <==> fileName in files.deployments && files.deployments[fileName].parsed.spec.selector.Some?
    ensures r.Done? ==> r.value == DeploymentObject(RenderDeployment(files.deployments[fileName].parsed, uid, deployKind))
  {
    if fileName !in files.deployments then Halted(Exit(ReadFailed(fileName)))
    else if files.deployments[fileName].parsed.spec.selector.None? then Halted(Panic(NilSelector))
    else Done(DeploymentObject(RenderDeployment(files.deployments[fileName].parsed, uid, deployKind)))
  }

  /**
   * The part of createService before the backend call: read "service.yml"
   * (not `fileName`; exit if unreadable), decode it (exit on a decoding
   * error) and render. `deployKind` is not used.
   */
  function PrepareService(files: Files, fileName: string, uid: string, deployKind: string): (r: Outcome<Object>)
    ensures "service.yml" !in files.services ==> r == Halted(Exit(ReadFailed("service.yml")))
    ensures "service.yml" in files.services && !files.services["service.yml"].parseOk
            ==> r == Halted(Exit(ParseFailed("service.yml")))
    ensures r.Done? <==> "service.yml" in files.services && files.services["service.yml"].parseOk
    ensures r.Done? ==> r.value == ServiceObject(RenderService(files.services["service.yml"].parsed, uid))
  {
    if ServiceTemplateFile !in files.services then Halted(Exit(ReadFailed(ServiceTemplateFile)))
    else if !files.services[ServiceTemplateFile].parseOk then Halted(Exit(ParseFailed(ServiceTemplateFile)))
    else Done(ServiceObject(RenderService(files.services[ServiceTemplateFile].parsed, uid)))
  }

  /** The file name handed to createService, and its image argument, make no difference. */
  lemma ServiceTemplateIsFixed(files: Files, fileName1: string, fileName2: string, uid: string, kind1: string, kind2: string)
    ensures PrepareService(files, fileName1, uid, kind1) == PrepareService(files, fileName2, uid, kind2)
  {
  }

  /** A prepared object is named `uid`, and its kind is the one asked for. */
  lemma PreparedNames(files: Files, fileName: string, uid: string, gen: Option<Password>, deployKind: string)
    ensures PrepareSecret(files, fileName, uid, gen).Done? ==>
      var o := PrepareSecret(files, fileName, uid, gen).value; o.Kind() == SecretKind && o.Name() == uid
    ensures PrepareDeployment(files, fileName, uid, deployKind).Done? ==>
      var o := PrepareDeployment(files, fileName, uid, deployKind).value; o.Kind() == DeploymentKind && o.Name() == uid
    ensures PrepareService(files, fileName, uid, deployKind).Done? ==>
      var o := PrepareService(files, fileName, uid, deployKind).value; o.Kind() == ServiceKind && o.Name() == uid
  {
  }

  /**
   * The backend call that ends createSecret, createDeployment and
   * createService: submit the prepared object, unless preparing it already
   * halted; `Done(ok)` carries the backend's answer.
   */
  method Submit(kube: Backend, prepared: Outcome<Object>, kind: Kind, uid: string) returns (r: Outcome<bool>)
    requires kube.Valid()
    requires prepared.Done? ==> prepared.value.Kind() == kind && prepared.value.Name() == uid
    modifies kube
    ensures kube.Valid()
    ensures prepared.Halted? ==>
      r == Halted(prepared.halt) && kube.log == old(kube.log) && kube.objects == old(kube.objects) && kube.store == old(kube.store)
    ensures prepared.Done? ==> r.Done? && kube.log == old(kube.log) + [CreateCall(Ref(Namespace, kind, uid), r.value)]
    ensures prepared.Done? && r.value ==> Ref(Namespace, kind, uid) !in old(kube.store)
    ensures prepared.Done? && r.value ==> kube.store == old(kube.store)[Ref(Namespace, kind, uid) := prepared.value]
    ensures prepared.Done? && !r.value ==> kube.store == old(kube.store)
  {
    if prepared.Halted? {
      return Halted(prepared.halt);
    }
    var ok := kube.Create(Namespace, prepared.value);
    r := Done(ok);
  }

  method DeleteDeployment(kube: Backend, uid: string) returns (ok: bool)
    requires kube.Valid()
    modifies kube
    ensures kube.Valid()
    ensures kube.log == old(kube.log) + [DeleteCall(Ref(Namespace, DeploymentKind, uid), ok)]
    ensures kube.store == if ok then old(kube.store) - {Ref(Namespace, DeploymentKind, uid)} else old(kube.store)
  {
    ok := kube.Delete(Namespace, DeploymentKind, uid);
  }

  method DeleteService(kube: Backend, uid: string) returns (ok: bool)
    requires kube.Valid()
    modifies kube
    ensures kube.Valid()
    ensures kube.log == old(kube.log) + [DeleteCall(Ref(Namespace, ServiceKind, uid), ok)]
    ensures kube.store == if ok then old(kube.store) - {Ref(Namespace, ServiceKind, uid)} else old(kube.store)
  {
    ok := kube.Delete(Namespace, ServiceKind, uid);
  }

  method DeleteSecret(kube: Backend, uid: string) returns (ok: bool)
    requires kube.Valid()
    modifies kube
    ensures kube.Valid()
    ensures kube.log == old(kube.log) + [DeleteCall(Ref(Namespace, SecretKind, uid), ok)]
    ensures kube.store == if ok then old(kube.store) - {Ref(Namespace, SecretKind, uid)} else old(kube.store)
  {
    ok := kube.Delete(Namespace, SecretKind, uid);
  }
}
