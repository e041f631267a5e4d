/** The Kubernetes API objects the asset builds, reduced to the fields it sets. */
module Kube {

  /** Serialised bytes, as returned by the YAML marshaller. */
  type Bytes = seq<bv8>

  datatype TypeMeta = TypeMeta(kind: string, apiVersion: string)

  datatype ObjectMeta = ObjectMeta(name: string, namespace: string)

  datatype ConfigMap = ConfigMap(typeMeta: TypeMeta, meta: ObjectMeta, data: map<string, string>)

  datatype PolicyRule = PolicyRule(
    verbs: seq<string>,
    apiGroups: seq<string>,
    resources: seq<string>,
    resourceNames: seq<string>)

  datatype Role = Role(typeMeta: TypeMeta, meta: ObjectMeta, rules: seq<PolicyRule>)

  datatype Subject = Subject(kind: string, name: string, namespace: string)

  datatype RoleRef = RoleRef(apiGroup: string, kind: string, name: string)

  datatype RoleBinding = RoleBinding(
    typeMeta: TypeMeta,
    meta: ObjectMeta,
    subjects: seq<Subject>,
    roleRef: RoleRef)

  datatype Secret = Secret(
    typeMeta: TypeMeta,
    meta: ObjectMeta,
    data: map<string, Bytes>,
    secretType: string)

  /** The group/version string of the core API ("v1"). */
  const CoreAPIVersion := "v1"
  const RbacAPIGroup := "rbac.authorization.k8s.io"
  const RbacAPIVersion := "rbac.authorization.k8s.io/v1"
  const SecretTypeOpaque := "Opaque"
}
