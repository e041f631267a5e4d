/** The "Cloud Provider Config" asset: it turns the install configuration,
    the platform credentials and the infra ID into the cloud-provider
    ConfigMap manifest and, in ARO mode, a Role, a RoleBinding and a Secret. */
module Manifests {
  import opened Wrappers
  import opened Kube
  import opened Platforms

  // Output file names (the directory they are joined to is left out).
  const CloudProviderConfigFileName := "cloud-provider-config.yaml"
  const AroRoleFileName := "aro-cloud-provider-secret-reader-role.yaml"
  const AroRoleBindingFileName := "aro-cloud-provider-secret-reader-rolebinding.yaml"
  const AroSecretFileName := "aro-cloud-provider-secret.yaml"

  /** The one data key of the cloud-provider ConfigMap. */
  const ConfigDataKey := "config"

  // Fixed names of the ARO objects.
  const KubeSystem := "kube-system"
  const SecretReaderRoleName := "aro-cloud-provider-secret-reader"
  const SecretReaderRoleBindingName := "aro-cloud-provider-secret-read"
  const CloudProviderName := "azure-cloud-provider"
  const SecretConfigKey := "cloud-config"

  /** Every file list Generate can leave behind is a prefix of this one. */
  const AllFileNames := [CloudProviderConfigFileName, AroRoleFileName, AroRoleBindingFileName, AroSecretFileName]

  /** A file of the asset's output. */
  datatype File = File(filename: string, data: Bytes)

  /** The inner record stored in the Secret: the legacy Azure cloud
      provider merges these two keys into its configuration. */
  datatype AADConfig = AADConfig(aadClientId: string, aadClientSecret: string)

  /** Every value this asset hands to the YAML marshaller. */
  datatype Document =
    | ConfigMapDoc(configMap: ConfigMap)
    | RoleDoc(role: Role)
    | RoleBindingDoc(roleBinding: RoleBinding)
    | SecretDoc(secret: Secret)
    | AADConfigDoc(aad: AADConfig)

  /** The library calls the asset makes, as functions that may fail:
      the YAML marshaller, the JSON form of the cloud-provider record and the
      naming rule for the cluster resource group. */
  datatype Libraries = Libraries(
    yamlMarshal: Document -> Result<Bytes>,
    configJSON: Platforms.CloudProviderConfig -> Result<string>,
    clusterResourceGroupName: string -> string)

  /** The upstream assets the asset depends on. */
  datatype Dependency = PlatformCredsAsset | InstallConfigAsset | ClusterIDAsset | PlatformCredsCheckAsset

  /** Marks the dependency that only orders the pipeline. This is a label:
      Generate takes the values of the other three as its parameters and
      has no parameter for this one. */
  predicate OrderingOnly(d: Dependency) {
    d.PlatformCredsCheckAsset?
  }

  function FileNames(files: seq<File>): (names: seq<string>)
    ensures |names| == |files|
    ensures forall k :: 0 <= k < |files| ==> names[k] == files[k].filename
  {
    seq(|files|, k requires 0 <= k < |files| => files[k].filename)
  }

  // ---------------------------------------------------------------------
  // The Azure cloud-provider record
  // ---------------------------------------------------------------------

  /** The user's override if one is set, the derived name otherwise. */
  function OverrideOr(user: string, derived: string): string {
    if user != "" then user else derived
  }

  /** The cloud-provider record for Azure. Each of the three network names
      is taken from its own user override when that is set and derived from
      the infra ID otherwise; the security group, the resource group and the
      resource prefix ignore every override. */
  function AzureProviderConfig(p: AzurePlatform, infraID: string, session: Session,
                               clusterResourceGroupName: string -> string): (c: Platforms.CloudProviderConfig)
    ensures p.networkResourceGroupName != "" ==> c.networkResourceGroupName == p.networkResourceGroupName
    ensures p.networkResourceGroupName == "" ==> c.networkResourceGroupName == clusterResourceGroupName(infraID)
    ensures p.virtualNetwork != "" ==> c.virtualNetworkName == p.virtualNetwork
    ensures p.virtualNetwork == "" ==> c.virtualNetworkName == infraID + "-vnet"
    ensures p.computeSubnet != "" ==> c.subnetName == p.computeSubnet
    ensures p.computeSubnet == "" ==> c.subnetName == infraID + "-worker-subnet"
    ensures c.networkSecurityGroupName == infraID + "-nsg"
    ensures c.resourceGroupName == clusterResourceGroupName(infraID)
    ensures c.resourcePrefix == infraID
    ensures c.cloudName == p.cloudName && c.groupLocation == p.region && c.aro == p.aro
    ensures c.subscriptionId == session.credentials.subscriptionId
    ensures c.tenantId == session.credentials.tenantId
  {
    Platforms.CloudProviderConfig(
      cloudName := p.cloudName,
      resourceGroupName := clusterResourceGroupName(infraID),
      groupLocation := p.region,
      resourcePrefix := infraID,
      subscriptionId := session.credentials.subscriptionId,
      tenantId := session.credentials.tenantId,
      networkResourceGroupName := OverrideOr(p.networkResourceGroupName, clusterResourceGroupName(infraID)),
      networkSecurityGroupName := infraID + "-nsg",
      virtualNetworkName := OverrideOr(p.virtualNetwork, infraID + "-vnet"),
      subnetName := OverrideOr(p.computeSubnet, infraID + "-worker-subnet"),
      aro := p.aro)
  }

  /** Without network overrides, the security group, virtual network and
      subnet of the record get three different names, none of them the
      resource prefix. */
  lemma DerivedNamesDistinct(p: AzurePlatform, infraID: string, session: Session, crg: string -> string)
    requires p.virtualNetwork == "" && p.computeSubnet == ""
    ensures var c := AzureProviderConfig(p, infraID, session, crg);
      && c.networkSecurityGroupName != c.virtualNetworkName
      && c.networkSecurityGroupName != c.subnetName
      && c.virtualNetworkName != c.subnetName
      && c.resourcePrefix != c.networkSecurityGroupName
      && c.resourcePrefix != c.virtualNetworkName
      && c.resourcePrefix != c.subnetName
  {
    var n := |infraID|;
    assert (infraID + "-nsg")[n + 1] == 'n';
    assert (infraID + "-vnet")[n + 1] == 'v';
    assert (infraID + "-worker-subnet")[n + 1] == 'w';
  }

  /** A user override of one network name changes that name only. */
  lemma OverrideChangesOnlyItsField(p: AzurePlatform, q: AzurePlatform, infraID: string, session: Session,
                                    crg: string -> string)
    ensures var c, d := AzureProviderConfig(p, infraID, session, crg), AzureProviderConfig(q, infraID, session, crg);
      && (q.networkResourceGroupName == p.networkResourceGroupName ==> d.networkResourceGroupName == c.networkResourceGroupName)
      && (q.virtualNetwork == p.virtualNetwork ==> d.virtualNetworkName == c.virtualNetworkName)
      && (q.computeSubnet == p.computeSubnet ==> d.subnetName == c.subnetName)
      && d.resourceGroupName == c.resourceGroupName
      && d.networkSecurityGroupName == c.networkSecurityGroupName
      && d.resourcePrefix == c.resourcePrefix
  {
  }

  // ---------------------------------------------------------------------
  // The primary ConfigMap
  // ---------------------------------------------------------------------

  /** The cloud-provider ConfigMap with the given data. */
  function NewConfigMap(data: map<string, string>): (cm: ConfigMap)
    ensures cm.typeMeta == TypeMeta("ConfigMap", CoreAPIVersion)
    ensures cm.meta == ObjectMeta("cloud-provider-config", "openshift-config")
    ensures cm.data == data
  {
    ConfigMap(TypeMeta("ConfigMap", CoreAPIVersion), ObjectMeta("cloud-provider-config", "openshift-config"), data)
  }

  /** The JSON of the Azure record, for an Azure platform and a session. */
  function AzureConfigJSON(p: AzurePlatform, infraID: string, session: Session, lib: Libraries): Result<string> {
    lib.configJSON(AzureProviderConfig(p, infraID, session, lib.clusterResourceGroupName))
  }

  /** Everything Generate does before it marshals the ConfigMap: the
      platform check, the session, and the cloud-provider record. */
  function PrimaryConfigMap(ic: InstallConfig, infraID: string, session: Result<Session>, lib: Libraries): (r: Result<ConfigMap>)
    ensures ic.platform.Other? ==> r == Failure(Error("invalid Platform"))
    ensures ic.platform.Azure? && session.Failure? ==>
      r == Failure(Wrapped("could not get azure session", session.error))
    ensures ic.platform.Azure? && session.Success? && AzureConfigJSON(ic.platform.azure, infraID, session.value, lib).Failure? ==>
      r == Failure(Wrapped("could not create cloud provider config", AzureConfigJSON(ic.platform.azure, infraID, session.value, lib).error))
    ensures r.Success? <==>
      ic.platform.Azure? && session.Success? && AzureConfigJSON(ic.platform.azure, infraID, session.value, lib).Success?
    ensures r.Success? ==>
      && r.value.typeMeta == TypeMeta("ConfigMap", CoreAPIVersion)
      && r.value.meta == ObjectMeta("cloud-provider-config", "openshift-config")
      && r.value.data.Keys == {ConfigDataKey}
      && r.value.data[ConfigDataKey] == AzureConfigJSON(ic.platform.azure, infraID, session.value, lib).value
  {
    match ic.platform
    case Other(_) => Failure(Error("invalid Platform"))
    case Azure(p) =>
      match session
      case Failure(e) => Failure(Wrapped("could not get azure session", e))
      case Success(s) =>
        match AzureConfigJSON(p, infraID, s, lib)
        case Failure(e) => Failure(Wrapped("could not create cloud provider config", e))
        case Success(json) => Success(NewConfigMap(map[ConfigDataKey := json]))
  }

  /** Whether Generate gets as far as assigning the asset's fields. */
  predicate Committed(ic: InstallConfig, infraID: string, session: Result<Session>, lib: Libraries) {
    var cm := PrimaryConfigMap(ic, infraID, session, lib);
    cm.Success? && lib.yamlMarshal(ConfigMapDoc(cm.value)).Success?
  }

  // ---------------------------------------------------------------------
  // The ARO manifests
  // ---------------------------------------------------------------------

  /** The Role grants one read-only verb on one named secret. */
  function SecretReaderRole(): (r: Role)
    ensures r.meta == ObjectMeta(SecretReaderRoleName, KubeSystem)
    ensures |r.rules| == 1 && r.rules[0].verbs == ["get"] && r.rules[0].resources == ["secrets"]
    ensures r.rules[0].resourceNames == [CloudProviderName]
  {
    Role(
      TypeMeta("Role", RbacAPIVersion),
      ObjectMeta(SecretReaderRoleName, KubeSystem),
      [PolicyRule(["get"], [""], ["secrets"], [CloudProviderName])])
  }

  /** The RoleBinding refers to the Role by kind and name, in the Role's
      namespace, and grants it to the cloud provider's service account. */
  function SecretReaderRoleBinding(): (rb: RoleBinding)
    ensures rb.roleRef.kind == SecretReaderRole().typeMeta.kind
    ensures rb.roleRef.name == SecretReaderRole().meta.name
    ensures rb.meta.namespace == SecretReaderRole().meta.namespace
    ensures rb.subjects == [Subject("ServiceAccount", CloudProviderName, KubeSystem)]
  {
    RoleBinding(
      TypeMeta("RoleBinding", RbacAPIVersion),
      ObjectMeta(SecretReaderRoleBindingName, KubeSystem),
      [Subject("ServiceAccount", CloudProviderName, KubeSystem)],
      RoleRef(RbacAPIGroup, "Role", SecretReaderRoleName))
  }

  /** The inner record of the Secret, from the platform credentials. */
  function SecretConfig(creds: PlatformCreds): AADConfig {
    AADConfig(creds.azure.clientId, creds.azure.clientSecret)
  }

  /** The Secret that holds an already serialised `AADConfig`. It is the
      one secret the Role lets its subject read. */
  function CloudProviderSecret(payload: Bytes): (s: Secret)
    ensures s.meta.name in SecretReaderRole().rules[0].resourceNames
    ensures s.meta.namespace == SecretReaderRole().meta.namespace
    ensures s.data.Keys == {SecretConfigKey} && s.data[SecretConfigKey] == payload
  {
    Secret(
      TypeMeta("Secret", CoreAPIVersion),
      ObjectMeta(CloudProviderName, KubeSystem),
      map[SecretConfigKey := payload],
      SecretTypeOpaque)
  }

  /** The three ARO objects refer to one another by their fixed names. */
  lemma AroObjectsAgree(payload: Bytes)
    ensures SecretReaderRole().meta.name == SecretReaderRoleBinding().roleRef.name == SecretReaderRoleName
    ensures SecretReaderRoleBinding().roleRef.kind == SecretReaderRole().typeMeta.kind
    ensures SecretReaderRole().rules == [PolicyRule(["get"], [""], ["secrets"], [CloudProviderName])]
    ensures SecretReaderRoleBinding().subjects == [Subject("ServiceAccount", CloudProviderName, KubeSystem)]
    ensures CloudProviderSecret(payload).meta.name == CloudProviderName
    ensures SecretReaderRole().meta.namespace == SecretReaderRoleBinding().meta.namespace
         == CloudProviderSecret(payload).meta.namespace == KubeSystem
    ensures CloudProviderSecret(payload).data.Keys == {SecretConfigKey}
  {
  }

  function AroRole(creds: PlatformCreds, lib: Libraries): Result<Bytes> {
    lib.yamlMarshal(RoleDoc(SecretReaderRole()))
  }

  function AroRoleBinding(creds: PlatformCreds, lib: Libraries): Result<Bytes> {
    lib.yamlMarshal(RoleBindingDoc(SecretReaderRoleBinding()))
  }

  /** The Secret manifest: the credentials are marshalled once on their
      own, and those bytes are the Secret's one value. A failure of the
      inner marshalling is returned as it is. */
  function AroSecret(creds: PlatformCreds, lib: Libraries): (r: Result<Bytes>)
    ensures lib.yamlMarshal(AADConfigDoc(SecretConfig(creds))).Failure? ==>
      r == Failure(lib.yamlMarshal(AADConfigDoc(SecretConfig(creds))).error)
  {
    match lib.yamlMarshal(AADConfigDoc(SecretConfig(creds)))
    case Failure(e) => Failure(e)
    case Success(b) => lib.yamlMarshal(SecretDoc(CloudProviderSecret(b)))
  }

  /** `decode` is a parser that reads back what `marshal` wrote. */
  ghost predicate Inverts(decode: Bytes -> Option<Document>, marshal: Document -> Result<Bytes>) {
    forall d :: marshal(d).Success? ==> decode(marshal(d).value) == Some(d)
  }

  /** Reading back the Secret and then its one value gives the client ID
      and the client secret of the credentials, and nothing else. */
  lemma AroSecretRoundTrip(creds: PlatformCreds, lib: Libraries, decode: Bytes -> Option<Document>)
    requires Inverts(decode, lib.yamlMarshal)
    requires AroSecret(creds, lib).Success?
    ensures var outer := decode(AroSecret(creds, lib).value);
      && outer.Some? && outer.value.SecretDoc?
      && outer.value.secret.meta == ObjectMeta(CloudProviderName, KubeSystem)
      && outer.value.secret.data.Keys == {SecretConfigKey}
      && decode(outer.value.secret.data[SecretConfigKey])
         == Some(AADConfigDoc(AADConfig(creds.azure.clientId, creds.azure.clientSecret)))
  {
  }

  /** Reading back the Role and the RoleBinding manifests gives the fixed
      objects, whatever the credentials. */
  lemma AroRbacRoundTrip(creds: PlatformCreds, lib: Libraries, decode: Bytes -> Option<Document>)
    requires Inverts(decode, lib.yamlMarshal)
    ensures AroRole(creds, lib).Success? ==> decode(AroRole(creds, lib).value) == Some(RoleDoc(SecretReaderRole()))
    ensures AroRoleBinding(creds, lib).Success? ==>
      decode(AroRoleBinding(creds, lib).value) == Some(RoleBindingDoc(SecretReaderRoleBinding()))
  {
  }

  /** One entry of the table the ARO loop walks through. */
  datatype AroManifest = AroRoleManifest | AroRoleBindingManifest | AroSecretManifest {
    /** An ARO file is one of the four output files, never the ConfigMap's. */
    function FileName(): (name: string)
      ensures name in AllFileNames && name != CloudProviderConfigFileName
    {
      match this
      case AroRoleManifest => AroRoleFileName
      case AroRoleBindingManifest => AroRoleBindingFileName
      case AroSecretManifest => AroSecretFileName
    }

    /** Runs the entry's builder. The Secret entry fails as soon as the
        credentials alone cannot be marshalled. */
    function Build(creds: PlatformCreds, lib: Libraries): (r: Result<Bytes>)
      ensures this == AroSecretManifest && lib.yamlMarshal(AADConfigDoc(SecretConfig(creds))).Failure? ==>
        r == Failure(lib.yamlMarshal(AADConfigDoc(SecretConfig(creds))).error)
    {
      match this
      case AroRoleManifest => AroRole(creds, lib)
      case AroRoleBindingManifest => AroRoleBinding(creds, lib)
      case AroSecretManifest => AroSecret(creds, lib)
    }
  }

  /** The ARO table, in the order the loop walks it. */
  const AroItems := [AroRoleManifest, AroRoleBindingManifest, AroSecretManifest]

  /** What a walk through part of the ARO table appends, and the error it stopped on. */
  datatype Run = Run(files: seq<File>, err: Option<Error>)

  /** Walks `items` in order, building each and stopping at the first failure. */
  function AroRun(items: seq<AroManifest>, creds: PlatformCreds, lib: Libraries): (r: Run)
    ensures |r.files| <= |items|
    ensures r.err.None? <==> |r.files| == |items|
    ensures forall k :: 0 <= k < |r.files| ==>
      items[k].Build(creds, lib).Success? && r.files[k] == File(items[k].FileName(), items[k].Build(creds, lib).value)
    ensures r.err.Some? ==>
      items[|r.files|].Build(creds, lib).Failure? && r.err.value == items[|r.files|].Build(creds, lib).error
    decreases |items|
  {
    if items == [] then Run([], None)
    else
      match items[0].Build(creds, lib)
      case Failure(e) => Run([], Some(e))
      case Success(b) =>
        var rest := AroRun(items[1..], creds, lib);
        Run([File(items[0].FileName(), b)] + rest.files, rest.err)
  }

  /** Walking one more item extends a walk that has not stopped. */
  lemma {:induction false} AroRunSnoc(items: seq<AroManifest>, item: AroManifest, creds: PlatformCreds, lib: Libraries)
    requires AroRun(items, creds, lib).err.None?
    ensures item.Build(creds, lib).Success? ==>
      AroRun(items + [item], creds, lib) == Run(AroRun(items, creds, lib).files + [File(item.FileName(), item.Build(creds, lib).value)], None)
    ensures item.Build(creds, lib).Failure? ==>
      AroRun(items + [item], creds, lib) == Run(AroRun(items, creds, lib).files, Some(item.Build(creds, lib).error))
  {
    if items == [] {
      assert [] + [item] == [item];
      assert [item][1..] == [];
    } else {
      assert (items + [item])[1..] == items[1..] + [item];
      AroRunSnoc(items[1..], item, creds, lib);
    }
  }

  /** Items after a failure are never built. */
  lemma {:induction false} AroRunStops(items: seq<AroManifest>, rest: seq<AroManifest>, creds: PlatformCreds, lib: Libraries)
    requires AroRun(items, creds, lib).err.Some?
    ensures AroRun(items + rest, creds, lib) == AroRun(items, creds, lib)
  {
    assert items != [];
    assert (items + rest)[0] == items[0];
    if items[0].Build(creds, lib).Success? {
      assert (items + rest)[1..] == items[1..] + rest;
      AroRunStops(items[1..], rest, creds, lib);
    }
  }

  /** One step of the walk over the whole table: after `i` items that all
      built, item `i` either extends the walk by its file or ends the
      whole walk with its error. */
  lemma AroRunStep(items: seq<AroManifest>, i: nat, creds: PlatformCreds, lib: Libraries)
    requires i < |items| && AroRun(items[..i], creds, lib).err.None?
    ensures items[i].Build(creds, lib).Success? ==>
      AroRun(items[..i + 1], creds, lib)
        == Run(AroRun(items[..i], creds, lib).files + [File(items[i].FileName(), items[i].Build(creds, lib).value)], None)
    ensures items[i].Build(creds, lib).Failure? ==>
      AroRun(items, creds, lib) == Run(AroRun(items[..i], creds, lib).files, Some(items[i].Build(creds, lib).error))
  {
    assert items[..i + 1] == items[..i] + [items[i]];
    AroRunSnoc(items[..i], items[i], creds, lib);
    if items[i].Build(creds, lib).Failure? {
      AroRunStops(items[..i + 1], items[i + 1..], creds, lib);
      assert items[..i + 1] + items[i + 1..] == items;
    }
  }

  // ---------------------------------------------------------------------
  // Generate, as a function of the inputs and the previous fields
  // ---------------------------------------------------------------------

  /** The asset's two fields. */
  datatype Snapshot = Snapshot(configMap: Option<ConfigMap>, fileList: seq<File>)

  /** The fields after Generate, and the error it returned. */
  datatype Generated = Generated(state: Snapshot, err: Option<Error>)

  /** The wrapping of an error met while producing a manifest: the cause
      kept, under a message naming the asset. */
  function ManifestError(e: Error): (w: Error)
    ensures w == Wrapped("failed to create Cloud Provider Config manifest", e)
  {
    var msg := "failed to create " + CloudProviderConfig.Name() + " manifest";
    assert msg == "failed to create Cloud Provider Config manifest";
    Wrapped(msg, e)
  }

  /** What Generate does to the fields `prev`, and what it returns. The
      fields are left alone unless the run gets past the ConfigMap's
      marshalling; from there on the ConfigMap is set and the file list
      holds between one and four files, the ConfigMap's first. */
  function GenerateSpec(prev: Snapshot, creds: PlatformCreds, ic: InstallConfig, infraID: string,
                        session: Result<Session>, lib: Libraries): (g: Generated)
    ensures !Committed(ic, infraID, session, lib) ==> g.state == prev && g.err.Some?
    ensures Committed(ic, infraID, session, lib) ==>
      && g.state.configMap == Some(PrimaryConfigMap(ic, infraID, session, lib).value)
      && 1 <= |g.state.fileList| <= |AllFileNames|
      && g.state.fileList[0].filename == CloudProviderConfigFileName
  {
    match PrimaryConfigMap(ic, infraID, session, lib)
    case Failure(e) => Generated(prev, Some(e))
    case Success(cm) =>
      match lib.yamlMarshal(ConfigMapDoc(cm))
      case Failure(e) => Generated(prev, Some(ManifestError(e)))
      case Success(b) =>
        var first := File(CloudProviderConfigFileName, b);
        if !ic.platform.azure.aro then Generated(Snapshot(Some(cm), [first]), None)
        else
          var run := AroRun(AroItems, creds, lib);
          Generated(Snapshot(Some(cm), [first] + run.files),
                    if run.err.Some? then Some(ManifestError(run.err.value)) else None)
  }

  /** A non-Azure platform fails with "invalid Platform" and leaves the fields as they were. */
  lemma NonAzureLeavesFieldsUntouched(prev: Snapshot, creds: PlatformCreds, ic: InstallConfig, infraID: string,
                                      session: Result<Session>, lib: Libraries)
    requires ic.platform.Name() != AzureName
    ensures GenerateSpec(prev, creds, ic, infraID, session, lib) == Generated(prev, Some(Error("invalid Platform")))
  {
  }

  /** The fields change exactly when the platform check, the session, the
      JSON of the record and the ConfigMap's marshalling all succeed; a
      failure among these leaves them as they were and returns that
      failure's own wrapped error. */
  lemma EarlyFailureLeavesFieldsUntouched(prev: Snapshot, creds: PlatformCreds, ic: InstallConfig,
                                          infraID: string, session: Result<Session>, lib: Libraries)
    ensures var g := GenerateSpec(prev, creds, ic, infraID, session, lib);
      !Committed(ic, infraID, session, lib) ==> g.err.Some? && g.state == prev
    ensures var g := GenerateSpec(prev, creds, ic, infraID, session, lib);
      var pc := PrimaryConfigMap(ic, infraID, session, lib);
      pc.Failure? ==> g.err == Some(pc.error)
    ensures var g := GenerateSpec(prev, creds, ic, infraID, session, lib);
      var pc := PrimaryConfigMap(ic, infraID, session, lib);
      pc.Success? && lib.yamlMarshal(ConfigMapDoc(pc.value)).Failure? ==>
        g.err == Some(ManifestError(lib.yamlMarshal(ConfigMapDoc(pc.value)).error))
    ensures var g := GenerateSpec(prev, creds, ic, infraID, session, lib);
      Committed(ic, infraID, session, lib) ==>
        var cm := PrimaryConfigMap(ic, infraID, session, lib).value;
        && g.state.configMap == Some(cm)
        && |g.state.fileList| >= 1
        && g.state.fileList[0] == File(CloudProviderConfigFileName, lib.yamlMarshal(ConfigMapDoc(cm)).value)
  {
  }

  /** Success without ARO: one file, the ConfigMap, whose one data key is "config". */
  lemma SuccessWithoutAro(prev: Snapshot, creds: PlatformCreds, ic: InstallConfig, infraID: string,
                          session: Result<Session>, lib: Libraries)
    requires ic.platform.Azure? && !ic.platform.azure.aro
    requires GenerateSpec(prev, creds, ic, infraID, session, lib).err.None?
    ensures var s := GenerateSpec(prev, creds, ic, infraID, session, lib).state;
      && FileNames(s.fileList) == [CloudProviderConfigFileName]
      && s.configMap.Some? && s.configMap.value.data.Keys == {ConfigDataKey}
      && s.fileList[0].data == lib.yamlMarshal(ConfigMapDoc(s.configMap.value)).value
  {
  }

  /** Success with ARO: four files, in the order ConfigMap, Role, RoleBinding, Secret. */
  lemma SuccessWithAro(prev: Snapshot, creds: PlatformCreds, ic: InstallConfig, infraID: string,
                       session: Result<Session>, lib: Libraries)
    requires ic.platform.Azure? && ic.platform.azure.aro
    requires GenerateSpec(prev, creds, ic, infraID, session, lib).err.None?
    ensures var s := GenerateSpec(prev, creds, ic, infraID, session, lib).state;
      && FileNames(s.fileList) == AllFileNames
      && s.configMap.Some? && s.configMap.value.data.Keys == {ConfigDataKey}
      && s.fileList[1].data == AroRole(creds, lib).value
      && s.fileList[2].data == AroRoleBinding(creds, lib).value
      && s.fileList[3].data == AroSecret(creds, lib).value
  {
  }

  /** Generate succeeds exactly when every step does: the fields are
      committed and, in ARO mode, all three ARO manifests are built. */
  lemma SucceedsIff(prev: Snapshot, creds: PlatformCreds, ic: InstallConfig, infraID: string,
                    session: Result<Session>, lib: Libraries)
    ensures GenerateSpec(prev, creds, ic, infraID, session, lib).err.None? <==>
      && Committed(ic, infraID, session, lib)
      && (ic.platform.azure.aro ==>
            AroRole(creds, lib).Success? && AroRoleBinding(creds, lib).Success? && AroSecret(creds, lib).Success?)
  {
  }

  /** A failure in the ARO loop still leaves the ConfigMap set and a strict
      prefix of the four files, which always starts with the ConfigMap's. */
  lemma AroFailureLeavesPrefix(prev: Snapshot, creds: PlatformCreds, ic: InstallConfig, infraID: string,
                               session: Result<Session>, lib: Libraries)
    requires Committed(ic, infraID, session, lib)
    requires GenerateSpec(prev, creds, ic, infraID, session, lib).err.Some?
    ensures ic.platform.azure.aro
    ensures var s := GenerateSpec(prev, creds, ic, infraID, session, lib).state;
      && s.configMap == Some(PrimaryConfigMap(ic, infraID, session, lib).value)
      && 1 <= |s.fileList| < |AllFileNames|
      && FileNames(s.fileList) == AllFileNames[..|s.fileList|]
      && GenerateSpec(prev, creds, ic, infraID, session, lib).err
         == Some(ManifestError(AroItems[|s.fileList| - 1].Build(creds, lib).error))
  {
  }

  /** Generating again from the same inputs changes nothing further: the
      fields and the error are those of the first run. */
  lemma GenerateIdempotent(prev: Snapshot, creds: PlatformCreds, ic: InstallConfig, infraID: string,
                           session: Result<Session>, lib: Libraries)
    ensures var g := GenerateSpec(prev, creds, ic, infraID, session, lib);
      GenerateSpec(g.state, creds, ic, infraID, session, lib) == g
  {
  }

  /** The file list is always a prefix of the four-file list, and it is
      empty exactly when the ConfigMap is unset. */
  ghost predicate ValidState(s: Snapshot) {
    && FileNames(s.fileList) <= AllFileNames
    && (s.configMap.None? <==> s.fileList == [])
  }

  /** Appending the ARO files to a list that holds only the ConfigMap's
      file keeps the fields valid. */
  lemma AroFilesKeepValid(s: Snapshot, creds: PlatformCreds, lib: Libraries)
    requires s.configMap.Some? && |s.fileList| == 1 && s.fileList[0].filename == CloudProviderConfigFileName
    ensures ValidState(Snapshot(s.configMap, s.fileList + AroRun(AroItems, creds, lib).files))
  {
  }

  /** Generate keeps the fields valid. */
  lemma GenerateKeepsValid(prev: Snapshot, creds: PlatformCreds, ic: InstallConfig, infraID: string,
                           session: Result<Session>, lib: Libraries)
    requires ValidState(prev)
    ensures ValidState(GenerateSpec(prev, creds, ic, infraID, session, lib).state)
  {
  }

  /** Reading back the first file gives the ConfigMap, whose one value is
      the JSON of the Azure record. */
  lemma ConfigMapRoundTrip(prev: Snapshot, creds: PlatformCreds, ic: InstallConfig, infraID: string,
                           session: Result<Session>, lib: Libraries, decode: Bytes -> Option<Document>)
    requires Inverts(decode, lib.yamlMarshal)
    requires Committed(ic, infraID, session, lib)
    ensures var s := GenerateSpec(prev, creds, ic, infraID, session, lib).state;
      && decode(s.fileList[0].data) == Some(ConfigMapDoc(s.configMap.value))
      && s.configMap.value.data
         == map[ConfigDataKey := AzureConfigJSON(ic.platform.azure, infraID, session.value, lib).value]
  {
  }

  // ---------------------------------------------------------------------
  // The asset
  // ---------------------------------------------------------------------

  /** The asset object. Its fields stay unset until Generate commits them. */
  class CloudProviderConfig {
    var configMap: Option<ConfigMap>
    var fileList: seq<File>

    constructor ()
      ensures configMap == None && fileList == []
      ensures Valid()
    {
      configMap := None;
      fileList := [];
    }

    ghost predicate Valid()
      reads this
    {
      ValidState(Snapshot(configMap, fileList))
    }

    /** The human-friendly name of the asset. */
    static function Name(): (n: string)
      ensures n == "Cloud Provider Config"
    {
      "Cloud Provider Config"
    }

    /** The upstream assets: all four kinds, each once, the ordering-only credentials check last. */
    static function Dependencies(): (ds: seq<Dependency>)
      ensures |ds| == 4 && forall i, j :: 0 <= i < j < |ds| ==> ds[i] != ds[j]
      ensures forall k :: 0 <= k < |ds| ==> (OrderingOnly(ds[k]) <==> k == 3)
    {
      [PlatformCredsAsset, InstallConfigAsset, ClusterIDAsset, PlatformCredsCheckAsset]
    }

    /** The asset never reloads from disk: whatever `persisted` holds, it
        reports "not found" without an error. */
    static function Load(persisted: map<string, Bytes>): (r: (bool, Option<Error>))
      ensures !r.0 && r.1.None?
    {
      (false, None)
    }

    /** The files Generate left. */
    function Files(): (fs: seq<File>)
      reads this
      ensures fs == fileList
      ensures Valid() ==> FileNames(fs) <= AllFileNames && (fs == [] <==> configMap.None?)
    {
      fileList
    }

    /** The ARO loop: builds the Role, RoleBinding and Secret in that order,
        appending each file, and returns at the first failure with its
        error wrapped. The ConfigMap is not touched. It runs right after
        the ConfigMap's file was committed, so the list holds that file
        alone on entry. */
    method AppendAroFiles(creds: PlatformCreds, lib: Libraries) returns (err: Option<Error>)
      requires configMap.Some? && |fileList| == 1 && fileList[0].filename == CloudProviderConfigFileName
      modifies this
      ensures Valid()
      ensures configMap == old(configMap)
      ensures fileList == old(fileList) + AroRun(AroItems, creds, lib).files
      ensures err == if AroRun(AroItems, creds, lib).err.Some?
                     then Some(ManifestError(AroRun(AroItems, creds, lib).err.value)) else None
    {
      ghost var start := Snapshot(configMap, fileList);
      for i := 0 to |AroItems|
        invariant configMap == old(configMap)
        invariant fileList == old(fileList) + AroRun(AroItems[..i], creds, lib).files
        invariant AroRun(AroItems[..i], creds, lib).err.None?
      {
        var f := AroItems[i];
        var b := f.Build(creds, lib);
        AroRunStep(AroItems, i, creds, lib);
        if b.Failure? {
          AroFilesKeepValid(start, creds, lib);
          return Some(ManifestError(b.error));
        }
        fileList := fileList + [File(f.FileName(), b.value)];
      }
      assert AroItems[..|AroItems|] == AroItems;
      AroFilesKeepValid(start, creds, lib);
      return None;
    }

    /** Generates the asset from the resolved credentials, install
        configuration and infra ID; `session` is the outcome of the Azure
        session negotiation and `lib` the library calls. */
    method Generate(creds: PlatformCreds, ic: InstallConfig, infraID: string, session: Result<Session>, lib: Libraries)
      returns (err: Option<Error>)
      modifies this
      ensures Generated(Snapshot(configMap, fileList), err)
           == GenerateSpec(old(Snapshot(configMap, fileList)), creds, ic, infraID, session, lib)
      ensures old(Valid()) ==> Valid()
    {
      ghost var prev := Snapshot(configMap, fileList);
      if ValidState(prev) {
        GenerateKeepsValid(prev, creds, ic, infraID, session, lib);
      }
      var cm := NewConfigMap(map[]);
      match ic.platform {
        case Other(_) =>
          return Some(Error("invalid Platform"));
        case Azure(p) =>
          if session.Failure? {
            return Some(Wrapped("could not get azure session", session.error));
          }
          var azureConfig := lib.configJSON(AzureProviderConfig(p, infraID, session.value, lib.clusterResourceGroupName));
          if azureConfig.Failure? {
            return Some(Wrapped("could not create cloud provider config", azureConfig.error));
          }
          cm := cm.(data := cm.data[ConfigDataKey := azureConfig.value]);
      }
      assert PrimaryConfigMap(ic, infraID, session, lib) == Success(cm);
      var cmData := lib.yamlMarshal(ConfigMapDoc(cm));
      if cmData.Failure? {
        return Some(ManifestError(cmData.error));
      }
      configMap := Some(cm);
      fileList := [File(CloudProviderConfigFileName, cmData.value)];
      if ic.platform.azure.aro {
        err := AppendAroFiles(creds, lib);
        return;
      }
      return None;
    }
  }
}
