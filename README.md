# Kubernetes proof-of-concept service broker, modelled in Dafny

The system is a small Open Service Broker written in Go. A platform asks it to
provision a service instance. The broker then creates three Kubernetes
objects in the namespace `ahartpence`, all named `serviceID-instanceID`:

- a secret holding a freshly generated password;
- a deployment whose container reads that secret;
- a service that selects the deployment's pods.

It records the instance ID under its service ID in an in-memory map. To
deprovision, it deletes the three objects and runs a small helper,
`Fuhgettaboutit`, on the map entry. A failed file read, password
generation, create, or deployment or service delete stops the process
(`bailWith` calls `os.Exit`). The secret delete's error is ignored, and a
nil map or selector in a template or an empty registry entry panics.

The model has seven modules, one file each:

- `options.dfy` (`Options`): the `Option` type.
- `objects.dfy` (`Objects`): the Kubernetes records the broker renders. These are secrets, deployments, services and their metadata, selectors, containers and environment variables. It also defines label selection.
- `render.dfy` (`Render`): the rendering half of `createSecret`, `createDeployment` and `createService`, as pure functions. It also holds the password policy the secret's password is generated with, and the consistency lemmas across the three objects.
- `cluster.dfy` (`Cluster`): the cluster as an abstract backend class. It keeps the set of existing objects, their stored contents, and a log of every create and delete call with its answer. A call may succeed or fail. Which one is not up to the broker, so it is chosen nondeterministically. Creating an existing object and deleting a missing one always fail.
- `kube.dfy` (`Kube`): the rest of `main.go`:
  - the namespace;
  - reading and decoding the template files;
  - the error outcomes of `bailWith` and of Go runtime panics;
  - the backend call that ends every create;
  - the three deletes.
- `registry.dfy` (`Registry`): what `Fuhgettaboutit` does to a slice, as functions on sequences, and their multiset properties.
- `broker.dfy` (`Broker`): the resource name, the catalog, the `Broker` class, and an end-to-end scenario.
  - The class holds the registry map and the backend.
  - It has `Provision`, `Deprovision`, the in-place array method `Fuhgettaboutit`, and the no-op handlers.

A request handler stops early in one of two ways. `Exit` models `bailWith`, which ends the process. `Panic` models a Go runtime panic, such as writing into a nil map or indexing an empty slice. `net/http` recovers a panic per request, so the process keeps running and the effects made before the panic stay.

Both are modelled as outcomes, not as preconditions: the code reaches both paths and does not guard against either.

## Model

| member | source | states |
|---|---|---|
| Broker.ResourceName | broker.go:49 | The name is the service ID, then `-`, then the instance ID: its length, prefix, separator and suffix are given exactly. |
| Broker.NameDeterminesInstance | broker.go:49 | Under one service ID, two instance IDs get the same name if and only if they are equal. |
| Broker.NamesCollideAcrossServices | broker.go:49 | Across service IDs the name is not unique: (`a-b`, `c`) and (`a`, `b-c`) are different pairs with the same name. |
| Broker.TeardownMatchesCreation | broker.go:80-95 | For any name, the deletion order (deployment, service, secret) addresses the same three references as the creation order (secret, deployment, service), only in a different order. That Provision and Deprovision use the same name follows from both calling `ResourceName`. |
| Broker.Services | broker.go:17-42 | The catalog is always the same two services, `redis` then `postgres`. Both are bindable, each has one plan with ID `<service>-poc`, and both plans are named `postgres` and described as `poc`. |
| Broker.CreateResources | broker.go:50-66 | Creates secret, then deployment, then service, each only after the previous create succeeded. A failed create halts with `Exit(CreateFailed(kind))`, and a preparation that halted passes its halt on. It ends without a halt only when all three creates succeeded. Objects that existed before keep their contents, and each successful create stores the object as it was prepared. |
| Broker.Broker.Provision | broker.go:44-78 | Names the objects `serviceID-instanceID` and creates them in order. Each submitted object is the one its template renders to, and the reply is the empty spec. The registry changes only after all three creates succeed: the instance ID is appended to the end of its service's entry (a missing entry reads as empty) and every other key is unchanged. On any halt the registry is untouched. |
| Broker.Entry | broker.go:67 | A present key reads its stored entry. A missing key reads as the empty (nil) slice. |
| Broker.Broker.Deprovision | broker.go:80-102 | Deletes deployment, then service, then secret. A failed deployment or service delete halts before anything later, with `Exit(DeleteFailed(kind))`. The secret delete's error is ignored. Then the removal helper runs on the entry and its result is discarded: the entry becomes `Forgotten(entry, instanceID)` and keeps its length. An empty or missing entry panics after all three deletes, leaving the registry untouched. Every object still in the cluster existed before and keeps its stored contents. |
| Broker.Broker.Fuhgettaboutit | broker.go:132-142 | Works on the slice in place. Afterwards the slots equal `Forgotten(old slots, target)`, and the returned slice equals `Removed(old slots, target)`. The loop invariant proves that its index is `LastIndex`. |
| Broker.Broker.Bind | broker.go:104-106 | Returns the empty binding without error and changes no state. |
| Broker.Broker.Unbind | broker.go:108-110 | Returns the empty unbind spec without error and changes no state. |
| Broker.Broker.Update | broker.go:112-114 | Returns the empty update spec without error and changes no state. |
| Broker.Broker.LastOperation | broker.go:116-118 | Returns the empty last-operation reply without error and changes no state. |
| Broker.ProvisionDeprovisionRestores | broker.go:50-95 | A complete provision, then a deprovision whose first two deletes succeed, removes the instance's three objects and leaves every other object alone. The one exception is the secret, which remains when its ignored delete failed. |
| Broker.DeprovisionSole | broker.go:95-97 | Deprovisioning the only instance of a service leaves an entry that is not emptied: it holds one blank slot `[""]`. At most the secret remains in the cluster. |
| Broker.ProvisionThenDeprovision | broker.go:44-102 | On a fresh broker and an empty cluster, a provision that halts leaves the registry empty. Provision then deprovision, both completing, leaves the registry `{serviceID: [""]}` and at most the secret in the cluster. |
| Registry.LastIndex | broker.go:133-138 | The index the search loop ends with: the last position holding the target, with no later occurrence; 0 when the target is absent. It is a valid index of any non-empty slice. |
| Registry.Forgotten | broker.go:139-140 | The slots after the two writes have the same length and a blank last slot. The chosen slot holds the former last element, and every other slot is unchanged. |
| Registry.Removed | broker.go:141 | The returned slice is one shorter than its input. |
| Registry.RemovedIsMultisetMinus | broker.go:132-142 | As multisets, the returned slice is the input less the element at the chosen index. |
| Registry.RemovedDropsOneTarget | broker.go:132-142 | When the target occurs, exactly one copy of it is removed. |
| Registry.RemovedDropsFirstWhenAbsent | broker.go:132-142 | When the target is absent, the first element is removed instead. For length above one, the result is the last element followed by the middle ones. |
| Registry.ForgetLastAppended | broker.go:132-142 | Removing the most recently appended ID returns the slice from before the append. The slots keep their length and end in a blank. |
| Render.LowerOrDigitOnly | main.go:76 | A string with no symbols and no upper-case letters consists of lower-case letters and digits only. |
| Render.PasswordAlphabet | main.go:76 | A generated password (length 10, 2 digits, 0 symbols, no upper case) is 10 lower-case letters and digits, exactly two of them digits. |
| Render.PasswordBytes | main.go:80 | The byte conversion has 10 bytes, each the code of the corresponding password character. |
| Render.RenderSecret | main.go:67-80 | The secret is named `uid` and labelled exactly `{created_by: blacksmith, service: uid}`. Its `password` entry is the generated password's bytes. Every other data key of the template is kept with its value, and no key is added besides `password`. |
| Render.RenderDeployment | main.go:90-133 | The deployment is named `uid`. Object labels, selector match labels and pod labels are all `{service: uid}`. It has exactly one container, named `uid`, with image `deployKind` and no ports. The container's environment is exactly `POSTGRES_USER` and `POSTGRES_PASSWORD`, with no literal values, reading keys `username` and `password` of secret `uid`. Replicas, match expressions and restart policy are kept. |
| Render.RenderService | main.go:145-159 | The service is named `uid`, labelled `{created_by: blacksmith, service: uid}`, and its selector is `{service: uid}`. Ports and type of the template are kept. |
| Render.DeploymentSelectsOwnPods | main.go:99-105 | The rendered deployment's selector matches its own pod labels. |
| Render.ServiceSelectsOnlyItsDeployment | main.go:151-153 | The service rendered for one name selects the pods of a deployment rendered for another name if and only if the names are equal. |
| Render.EnvResolvesIffUsernameInTemplate | main.go:107-133 | Every environment reference of the deployment names the secret rendered with the same `uid`. All of them resolve in that secret if and only if the secret template carries a `username` key. The `password` key is always there. |
| Kube.PrepareSecret | main.go:60-80 | An unreadable file exits. A generator error exits. A template without a data map panics on the password write. Otherwise the result is the rendered secret, and these are the only cases. A decoding error is ignored. |
| Kube.PrepareDeployment | main.go:85-133 | An unreadable file exits. A template without a selector panics. Otherwise the result is the rendered deployment, and these are the only cases. A decoding error is ignored. |
| Kube.PrepareService | main.go:139-159 | Reads `service.yml`, whatever file name is passed. An unreadable file exits, and a decoding error exits. Otherwise the result is the rendered service. |
| Kube.ServiceTemplateIsFixed | main.go:141 | The service prepared does not depend on the file name or image argument passed to `createService`. |
| Kube.PreparedNames | main.go:70 | Every prepared object has the kind asked for and is named `uid`, which is what the deletes address. |
| Kube.Submit | main.go:82 | The create call that ends `createSecret`; the same call ends `createDeployment` (main.go:135) and `createService` (main.go:161). A prepared object is submitted to namespace `ahartpence` and one create call is logged. On success the store maps its reference to exactly that object, and the reference did not exist before. A halted preparation makes no call and changes nothing. |
| Kube.DeleteDeployment | main.go:164-173 | Exactly one delete of deployment `uid` in namespace `ahartpence` is logged. On success exactly that object's contents leave the store; every other stored object is unchanged. |
| Kube.DeleteService | main.go:175-184 | Exactly one delete of service `uid` in namespace `ahartpence` is logged. On success exactly that object's contents leave the store; every other stored object is unchanged. |
| Kube.DeleteSecret | main.go:186-195 | Exactly one delete of secret `uid` in namespace `ahartpence` is logged. On success exactly that object's contents leave the store; every other stored object is unchanged. |
| Cluster.Backend.Create | main.go:82 | Appends a create call to the log. It succeeds only if the object did not exist. On success the object exists and its contents are stored. The existing objects always equal the replay of the log. |
| Cluster.Backend.Delete | main.go:172 | Appends a delete call to the log. It succeeds only if the object existed. On success the object and its contents are gone. |

## Left out

- `main` (kubeconfig loading, client construction, broker credentials, `http.ListenAndServe`), `listDir` and `int32Ptr`: wiring and directory I/O.
- Every print: `ansi.Fprintf` inside `bailWith`, every `fmt.Println`, the credential print and the `secretMap` built only for it, and `GetServices`, which only prints.
- `ioutil.ReadFile` and `yaml.Unmarshal`. The working directory is an input map from file name to the decoded record and whether decoding reported an error. A missing name is a file that cannot be read.
- `password.Generate` is a foreign library. It is an input: either a password meeting the policy it is called with, or an error. The policy's "repeats allowed" flag places no constraint. The `[]byte` conversion is modelled only for the ASCII characters the policy allows.
- The Kubernetes `Create` and `Delete` calls are an abstract backend: a call's success is nondeterministic. Foreground deletion propagation, server-side defaulting and the object the API returns are not modelled.
- Concurrency: handlers run concurrently over the unguarded registry map. The model is sequential.
- The `context` parameters, the `asyncAllowed` flags, the plan ID and the unused `details` fields of the stubs are ignored.
- `GetBinding`, `GetInstance` and `LastBindingOperation` are empty stubs like `Bind`, and are not part of this model.
- Broker.Services: the nil error that accompanies the catalog is implicit.
- Broker.CreateResources: it receives the three objects already prepared. In the code, `createDeployment` reads its template only after the secret was created. Preparation has no effects, so the halts and objects are the same. Only the order of the file reads is not captured.
- Cluster.Backend.Create: no object is stored when a create fails, whatever the server might have done.
- Go panics (nil data map in `createSecret`, nil selector in `createDeployment`, index out of range in `Fuhgettaboutit` on an empty or missing entry) are outcomes, not preconditions. The handler's effects before the panic stay visible.
- The code has no safeguards around the lifecycle, and the model has none either:
  - A create that fails halts without deleting the objects created before it.
  - There is no per-instance lock.
  - A repeated provision of the same instance fails at the secret create, because that object already exists.
  - Deletes run deployment, then service, then secret, which is not the reverse of the creation order.
  - A deployment or service delete that fails halts, even when the object was already gone.
