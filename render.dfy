/**
 * The rendering half of createSecret, createDeployment and createService
 * (main.go): each overwrites the name, labels, selectors, container and
 * environment references of a parsed template with values derived from the
 * resource name `uid`. Also the password policy that the generated password
 * is taken to meet.
 */
module Render {
  import opened Options
  import opened Objects

  const CreatedBy := "blacksmith"
  const UsernameKey := "username"
  const PasswordKey := "password"

  /** The labels put on the secret and the service. */
  function OwnerLabels(uid: string): (labels: Labels) {
    map["created_by" := CreatedBy, "service" := uid]
  }

  /** The labels put on the deployment, its selector and its pods. */
  function PodLabels(uid: string): (labels: Labels) {
    map["service" := uid]
  }

  // ---------------------------------------------------------------------
  // Password policy. The generator is a foreign library; its output is only
  // taken to meet the policy it is called with.
  // ---------------------------------------------------------------------

  /** The arguments of the generator: length, digits, symbols, no upper case, repeats allowed. */
  datatype PasswordPolicy = PasswordPolicy(length: nat, digits: nat, symbols: nat, noUpper: bool, allowRepeat: bool)

  /** The policy the secret's password is generated with. */
  const SecretPolicy := PasswordPolicy(10, 2, 0, true, true)

  predicate IsDigit(c: char) { '0' <= c <= '9' }
  predicate IsLower(c: char) { 'a' <= c <= 'z' }
  predicate IsUpper(c: char) { 'A' <= c <= 'Z' }

  function CountDigits(s: string): (n: nat) {
    if s == [] then 0 else (if IsDigit(s[0]) then 1 else 0) + CountDigits(s[1..])
  }

  function CountUpper(s: string): (n: nat) {
    if s == [] then 0 else (if IsUpper(s[0]) then 1 else 0) + CountUpper(s[1..])
  }

  /** Characters that are neither letters nor digits: in a password the generator made, its symbols. */
  function CountSymbols(s: string): (n: nat) {
    if s == [] then 0
    else (if IsLower(s[0]) || IsUpper(s[0]) || IsDigit(s[0]) then 0 else 1) + CountSymbols(s[1..])
  }

  predicate Meets(p: PasswordPolicy, s: string) {
    && |s| == p.length
    && CountDigits(s) == p.digits
    && CountSymbols(s) == p.symbols
    && (p.noUpper ==> CountUpper(s) == 0)
  }

  /** A generated password, as the generator promises it. */
  type Password = s: string | Meets(SecretPolicy, s) witness "abcdefgh12"

  /** Without symbols and upper-case letters, only lower-case letters and digits are left. */
  lemma {:induction false} LowerOrDigitOnly(s: string)
    requires CountSymbols(s) == 0 && CountUpper(s) == 0
    ensures forall i :: 0 <= i < |s| ==> IsLower(s[i]) || IsDigit(s[i])
  {
    if s != [] {
      LowerOrDigitOnly(s[1..]);
      forall i | 1 <= i < |s| ensures IsLower(s[i]) || IsDigit(s[i]) {
        assert s[i] == s[1..][i - 1];
      }
    }
  }

  /** Every character of a generated password is a lower-case letter or a digit, exactly two of them digits. */
  lemma PasswordAlphabet(pw: Password)
    ensures |pw| == 10 && CountDigits(pw) == 2
    ensures forall i :: 0 <= i < |pw| ==> IsLower(pw[i]) || IsDigit(pw[i])
  {
    LowerOrDigitOnly(pw);
  }

  /** The bytes of a password (Go's []byte conversion; every character of the policy is ASCII). */
  function PasswordBytes(pw: Password): (b: seq<byte>)
    ensures |b| == |pw| == 10
    ensures forall i :: 0 <= i < |pw| ==> b[i] as int == pw[i] as int
  {
    PasswordAlphabet(pw);
    seq(|pw|, i requires 0 <= i < |pw| => pw[i] as int as byte)
  }

  // ---------------------------------------------------------------------
  // Rendering
  // ---------------------------------------------------------------------

  /** The environment of the single container: both variables read the secret named `uid`. */
  function SecretEnv(uid: string): (env: seq<EnvVar>) {
    [ EnvVar("POSTGRES_USER", "", Some(SecretKeyRef(uid, UsernameKey))),
      EnvVar("POSTGRES_PASSWORD", "", Some(SecretKeyRef(uid, PasswordKey))) ]
  }

  /** createSecret: name, owner labels and the password entry; every other data key of the template is kept. */
  function RenderSecret(tmpl: Secret, uid: string, pw: Password): (s: Secret)
    requires tmpl.data.Some?
    ensures s.meta.name == uid
    ensures s.meta.labels == map["created_by" := "blacksmith", "service" := uid]
    ensures s.meta.namespace == tmpl.meta.namespace && s.meta.annotations == tmpl.meta.annotations
    ensures s.secretType == tmpl.secretType
    ensures s.data.Some? && s.data.value.Keys == tmpl.data.value.Keys + {"password"}
    ensures s.data.value["password"] == PasswordBytes(pw)
    ensures forall k :: k in tmpl.data.value && k != "password" ==> s.data.value[k] == tmpl.data.value[k]
  {
    Secret(tmpl.meta.(name := uid, labels := OwnerLabels(uid)),
           tmpl.secretType,
           Some(tmpl.data.value[PasswordKey := PasswordBytes(pw)]))
  }

  /**
   * createDeployment: name and labels, selector labels, pod labels, and the
   * container list replaced by one container whose image is `deployKind`.
   */
  function RenderDeployment(tmpl: Deployment, uid: string, deployKind: string): (d: Deployment)
    requires tmpl.spec.selector.Some?
    ensures d.meta.name == uid && d.meta.labels == map["service" := uid]
    ensures d.meta.namespace == tmpl.meta.namespace && d.meta.annotations == tmpl.meta.annotations
    ensures d.spec.replicas == tmpl.spec.replicas
    ensures d.spec.selector.Some? && d.spec.selector.value.matchLabels == map["service" := uid]
    ensures d.spec.selector.value.matchExpressions == tmpl.spec.selector.value.matchExpressions
    ensures d.spec.template.meta.labels == map["service" := uid]
    ensures d.spec.template.meta.name == tmpl.spec.template.meta.name
    ensures d.spec.template.spec.restartPolicy == tmpl.spec.template.spec.restartPolicy
    ensures |d.spec.template.spec.containers| == 1
    ensures var c := d.spec.template.spec.containers[0];
      && c.name == uid && c.image == deployKind && c.ports == []
      && |c.env| == 2
      && c.env[0].name == "POSTGRES_USER" && c.env[0].value == "" && c.env[0].valueFrom == Some(SecretKeyRef(uid, "username"))
      && c.env[1].name == "POSTGRES_PASSWORD" && c.env[1].value == "" && c.env[1].valueFrom == Some(SecretKeyRef(uid, "password"))
  {
    var pod := tmpl.spec.template;
    var selector := tmpl.spec.selector.value.(matchLabels := PodLabels(uid));
    var podTemplate := pod.(meta := pod.meta.(labels := PodLabels(uid)),
                            spec := pod.spec.(containers := [Container(uid, deployKind, SecretEnv(uid), [])]));
    Deployment(tmpl.meta.(name := uid, labels := PodLabels(uid)),
               tmpl.spec.(selector := Some(selector), template := podTemplate))
  }

  /** createService: selector, name and owner labels; ports and type of the template are kept. */
  function RenderService(tmpl: Service, uid: string): (v: Service)
    ensures v.meta.name == uid
    ensures v.meta.labels == map["created_by" := "blacksmith", "service" := uid]
    ensures v.meta.namespace == tmpl.meta.namespace && v.meta.annotations == tmpl.meta.annotations
    ensures v.spec.selector == map["service" := uid]
    ensures v.spec.ports == tmpl.spec.ports && v.spec.serviceType == tmpl.spec.serviceType
  {
    Service(tmpl.meta.(name := uid, labels := OwnerLabels(uid)),
            tmpl.spec.(selector := PodLabels(uid)))
  }

  // ---------------------------------------------------------------------
  // Cross-resource consistency
  // ---------------------------------------------------------------------

  /** The pod labels of a deployment. */
  function PodLabelsOf(d: Deployment): (labels: Labels) {
    d.spec.template.meta.labels
  }

  /** Every environment variable of every container reads an existing key of secret `s`. */
  predicate EnvResolves(d: Deployment, s: Secret) {
    forall c, e :: c in d.spec.template.spec.containers && e in c.env ==>
      && e.valueFrom.Some?
      && e.valueFrom.value.secretName == s.meta.name
      && s.data.Some? && e.valueFrom.value.key in s.data.value
  }

  /** The rendered deployment's selector matches its own pods. */
  lemma DeploymentSelectsOwnPods(tmpl: Deployment, uid: string, deployKind: string)
    requires tmpl.spec.selector.Some?
    ensures var d := RenderDeployment(tmpl, uid, deployKind);
      d.spec.selector.Some? && Selects(d.spec.selector.value.matchLabels, PodLabelsOf(d))
  {
  }

  /**
   * A service rendered for `uidS` selects the pods of a deployment rendered for
   * `uidD` exactly when the two names agree: the service reaches its own
   * deployment and no other instance's.
   */
  lemma ServiceSelectsOnlyItsDeployment(svcTmpl: Service, depTmpl: Deployment, uidS: string, uidD: string, deployKind: string)
    requires depTmpl.spec.selector.Some?
    ensures Selects(RenderService(svcTmpl, uidS).spec.selector, PodLabelsOf(RenderDeployment(depTmpl, uidD, deployKind)))
            <==> uidS == uidD
  {
    var sel := RenderService(svcTmpl, uidS).spec.selector;
    var pods := PodLabelsOf(RenderDeployment(depTmpl, uidD, deployKind));
    if Selects(sel, pods) {
      assert "service" in sel;
    }
  }

  /**
   * The deployment's environment names the secret rendered with the same uid;
   * the password key is always there, the username key only when the secret
   * template carries one.
   */
  lemma EnvResolvesIffUsernameInTemplate(secTmpl: Secret, depTmpl: Deployment, uid: string, deployKind: string, pw: Password)
    requires secTmpl.data.Some? && depTmpl.spec.selector.Some?
    ensures EnvResolves(RenderDeployment(depTmpl, uid, deployKind), RenderSecret(secTmpl, uid, pw))
            <==> "username" in secTmpl.data.value
    ensures forall e :: e in RenderDeployment(depTmpl, uid, deployKind).spec.template.spec.containers[0].env ==>
      e.valueFrom.Some? && e.valueFrom.value.secretName == RenderSecret(secTmpl, uid, pw).meta.name
    ensures "password" in RenderSecret(secTmpl, uid, pw).data.value
  {
    var d := RenderDeployment(depTmpl, uid, deployKind);
    var s := RenderSecret(secTmpl, uid, pw);
    var c := d.spec.template.spec.containers[0];
    if EnvResolves(d, s) {
      assert c in d.spec.template.spec.containers && c.env[0] in c.env;
    } else {
      assert d.spec.template.spec.containers == [c];
      assert c.env == [c.env[0], c.env[1]];
    }
  }
}
