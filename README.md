# Cloud Provider Config asset, modelled in Dafny

This project models the installer's "Cloud Provider Config" asset
(`pkg/asset/manifests/cloudproviderconfig.go`). The asset is one node of the
installer's asset graph. It reads three resolved dependencies: the platform
credentials, the install configuration and the cluster infra ID. From them
it builds the `cloud-provider-config` ConfigMap in `openshift-config`. For
Azure in ARO mode it also builds three more manifests in `kube-system`: a
Role that may read the `azure-cloud-provider` secret, a RoleBinding that
grants that Role to the `azure-cloud-provider` service account, and that
Secret. The Secret holds a separately marshalled record with the client ID
and client secret.

Layout:

- `wrappers.dfy`, module `Wrappers`: `Option`, `Result`, and `Error`. `Error`
  models the `New`/`Wrap` errors of `github.com/pkg/errors`.
- `kube.dfy`, module `Kube`: the Kubernetes objects, reduced to the fields
  the asset sets.
- `platforms.dfy`, module `Platforms`: the install configuration's platform
  section, the Azure credentials and session, and the Azure cloud-provider
  record.
- `cloudproviderconfig.dfy`, module `Manifests`: the asset itself.
  - Pure builders: the Azure record, the ConfigMap, the Role, the
    RoleBinding and the Secret.
  - `GenerateSpec`: a pure specification of `Generate` as a function of
    its inputs and the fields' previous values.
  - The class `CloudProviderConfig`, whose fields `configMap` and
    `fileList` stand for the Go fields `ConfigMap` and `FileList`.
    Its method `Generate` is imperative: it builds the ConfigMap, assigns
    the fields and hands over to `AppendAroFiles`. That method is the ARO
    loop, which appends the files one by one and returns early on a failure.
    `Generate` is proved equal to `GenerateSpec`.

The library calls are fields of a `Libraries` value passed to `Generate`, as
functions that may fail. These are the YAML marshaller, the JSON form of the
Azure record and `ClusterResourceGroupName`. The outcome of the Azure
session negotiation is a `Result<Session>` parameter. The round-trip lemmas
take a consumer-side `decode` function and assume only that it reads back
whatever the marshaller wrote (`Inverts`).

`Generate` assigns `ConfigMap` and `FileList` (lines 123-129) before the ARO
loop. A failure inside the loop therefore returns an error but leaves the
ConfigMap set and a prefix of the file list behind. `AroFailureLeavesPrefix`
states this.

## Model

| member | source | states |
|---|---|---|
| `Manifests.AzureProviderConfig` | pkg/asset/manifests/cloudproviderconfig.go:85-110 | The override-or-derive rule, field by field. The network resource group is the user's override if set, else `ClusterResourceGroupName(infraID)`. The vnet is the override, else `infraID-vnet`. The subnet is the override, else `infraID-worker-subnet`. The NSG is always `infraID-nsg`, the resource group always `ClusterResourceGroupName(infraID)` and the prefix always the infra ID. Region, cloud name, ARO flag, subscription and tenant pass through. |
| `Manifests.DerivedNamesDistinct` | pkg/asset/manifests/cloudproviderconfig.go:85-110 | With no vnet or subnet override, the record's security group, virtual network and subnet names are pairwise distinct. None of them equals the record's resource prefix. |
| `Manifests.OverrideChangesOnlyItsField` | pkg/asset/manifests/cloudproviderconfig.go:86-102 | For any two Azure platforms, a network override that is the same in both gives the same network name. The resource group, NSG and prefix never change with any override. |
| `Manifests.NewConfigMap` | pkg/asset/manifests/cloudproviderconfig.go:66-76 | The ConfigMap is `openshift-config/cloud-provider-config` of kind `ConfigMap` in API version `v1`, holding exactly the given data. |
| `Manifests.PrimaryConfigMap` | pkg/asset/manifests/cloudproviderconfig.go:66-117 | A non-Azure platform gives `invalid Platform`. A session failure is wrapped as `could not get azure session`. A JSON failure is wrapped as `could not create cloud provider config`. Success holds exactly when none of these happen. The ConfigMap is then `openshift-config/cloud-provider-config` of kind `ConfigMap`, version `v1`, with exactly one data key, `config`, holding the record's JSON. |
| `Platforms.Platform.Name` | pkg/asset/manifests/cloudproviderconfig.go:78-79 | The platform's name is `azure` exactly when the install configuration's platform is Azure. So the switch's `azure` case is the Azure variant. |
| `Manifests.ManifestError` | pkg/asset/manifests/cloudproviderconfig.go:121 | Keeps the cause under the message `failed to create Cloud Provider Config manifest`. The same wrapping is used at line 150. |
| `Manifests.GenerateSpec` | pkg/asset/manifests/cloudproviderconfig.go:60-160 | The functional model of Generate. It leaves the old fields and returns an error unless the ConfigMap's marshalling succeeds. Otherwise the ConfigMap is set and the file list holds one to four files, the ConfigMap's first. |
| `Manifests.NonAzureLeavesFieldsUntouched` | pkg/asset/manifests/cloudproviderconfig.go:78-117 | A platform whose name is not `azure` makes Generate return `invalid Platform` and leaves both fields as they were. |
| `Manifests.EarlyFailureLeavesFieldsUntouched` | pkg/asset/manifests/cloudproviderconfig.go:80-129 | If the session, the JSON or the ConfigMap marshalling fails, both fields are unchanged. The error is that failure's own: the wrapped error of `PrimaryConfigMap`, or the marshalling error wrapped as `failed to create Cloud Provider Config manifest`. Otherwise the ConfigMap field is set, and the first file is `cloud-provider-config.yaml` holding the marshalled ConfigMap. |
| `Manifests.SuccessWithoutAro` | pkg/asset/manifests/cloudproviderconfig.go:119-130 | On success without ARO, the file list is exactly `[cloud-provider-config.yaml]`. The ConfigMap it holds has the single data key `config`. |
| `Manifests.SuccessWithAro` | pkg/asset/manifests/cloudproviderconfig.go:124-157 | On success with ARO, the file list holds exactly four files, in the order config, role, rolebinding, secret. Each file holds the bytes of its builder. |
| `Manifests.SucceedsIff` | pkg/asset/manifests/cloudproviderconfig.go:60-160 | Generate returns no error exactly when the fields are committed and, in ARO mode, all three ARO builders succeed. |
| `Manifests.AroFailureLeavesPrefix` | pkg/asset/manifests/cloudproviderconfig.go:123-157 | A failure after the commit happens only in ARO mode. It leaves the ConfigMap set and a strict, non-empty prefix of the four-file list, starting with the config file. The error returned wraps the failing builder's error with the asset's name. |
| `Manifests.GenerateIdempotent` | pkg/asset/manifests/cloudproviderconfig.go:60-160 | Running Generate again with the same inputs, on the fields the first run left, gives the same fields and the same error. |
| `Manifests.AroFilesKeepValid` | pkg/asset/manifests/cloudproviderconfig.go:123-157 | Appending the ARO files to a list holding only the ConfigMap's file keeps the fields valid: the file names still form a prefix of the four names, and the ConfigMap stays set. |
| `Manifests.GenerateKeepsValid` | pkg/asset/manifests/cloudproviderconfig.go:119-157 | Generate preserves this invariant: the file names form a prefix of the four names, and the list is empty exactly when the ConfigMap is unset. |
| `Manifests.ConfigMapRoundTrip` | pkg/asset/manifests/cloudproviderconfig.go:114-129 | Once committed, reading back the first file gives the stored ConfigMap. Its data is exactly `{config: JSON of the Azure record}`. |
| `Manifests.AroManifest.FileName` | pkg/asset/manifests/cloudproviderconfig.go:131-146 | The file name of a loop-table entry is one of the four output names, never the ConfigMap's. |
| `Manifests.AroManifest.Build` | pkg/asset/manifests/cloudproviderconfig.go:131-148 | Each loop-table entry runs its own builder: `AroRole`, `AroRoleBinding` or `AroSecret`. The Secret entry fails with the inner error when the credentials alone cannot be marshalled. `SuccessWithAro` states which bytes land in which file. |
| `Manifests.AroRun` | pkg/asset/manifests/cloudproviderconfig.go:131-157 | Walks the ARO table in order and stops at the first failure. The walk appends one file per built item, each with the item's file name and bytes. It reports no error exactly when every item was built. A stop is at the first failing item, with that item's error. |
| `Manifests.AroRunSnoc` | pkg/asset/manifests/cloudproviderconfig.go:147-157 | One more loop iteration either appends that item's file or stops with its error. |
| `Manifests.AroRunStops` | pkg/asset/manifests/cloudproviderconfig.go:148-151 | After a failure no later item is built. |
| `Manifests.AroRunStep` | pkg/asset/manifests/cloudproviderconfig.go:147-156 | One pass of the loop body: after a run of successes, the next item either appends its file or ends the whole walk with its error. |
| `Manifests.SecretReaderRole` | pkg/asset/manifests/cloudproviderconfig.go:173-190 | The Role `kube-system/aro-cloud-provider-secret-reader` has a single rule. That rule grants only `get` on `secrets`, limited to the one resource name `azure-cloud-provider`. |
| `Manifests.SecretReaderRoleBinding` | pkg/asset/manifests/cloudproviderconfig.go:194-215 | The RoleBinding's `roleRef` names the Role by its kind and name, in the Role's namespace. Its only subject is the `kube-system/azure-cloud-provider` service account. |
| `Manifests.CloudProviderSecret` | pkg/asset/manifests/cloudproviderconfig.go:235-248 | The Secret is the one resource the Role lets its subject read, in the Role's namespace. Its data is exactly `{cloud-config: payload}`. |
| `Manifests.AroObjectsAgree` | pkg/asset/manifests/cloudproviderconfig.go:172-248 | The Role's name is the RoleBinding's `roleRef` name, `aro-cloud-provider-secret-reader`. The Role's only resource name, the RoleBinding's only subject and the Secret's name are all `azure-cloud-provider`. All three objects are in `kube-system`. The Secret's data has the single key `cloud-config`. |
| `Manifests.AroRole` | pkg/asset/manifests/cloudproviderconfig.go:172-191 | Marshals the fixed Role. `AroRbacRoundTrip` states what its bytes read back to. |
| `Manifests.AroRoleBinding` | pkg/asset/manifests/cloudproviderconfig.go:193-216 | Marshals the fixed RoleBinding. `AroRbacRoundTrip` states what its bytes read back to. |
| `Manifests.AroSecret` | pkg/asset/manifests/cloudproviderconfig.go:218-233 | A failure of the inner marshalling is returned unchanged. |
| `Manifests.AroSecretRoundTrip` | pkg/asset/manifests/cloudproviderconfig.go:218-248 | Read back, the Secret manifest is `kube-system/azure-cloud-provider` with the single key `cloud-config`. Reading that value back gives exactly the credentials' client ID and client secret. |
| `Manifests.AroRbacRoundTrip` | pkg/asset/manifests/cloudproviderconfig.go:172-216 | Read back, the Role and RoleBinding manifests are the fixed objects, whatever the credentials. |
| `Manifests.CloudProviderConfig.Generate` | pkg/asset/manifests/cloudproviderconfig.go:60-160 | The new fields and the returned error are exactly those of `GenerateSpec` applied to the old fields. The object invariant is preserved. |
| `Manifests.CloudProviderConfig.AppendAroFiles` | pkg/asset/manifests/cloudproviderconfig.go:130-157 | Called with the ConfigMap set and its file alone in the list, as at lines 123-129, it keeps the object valid. It leaves the ConfigMap as it was and appends exactly the files of `AroRun` over the table. It returns no error when the walk completes, and otherwise the walk's error wrapped with the asset's name. |
| `Manifests.CloudProviderConfig.constructor` | pkg/asset/manifests/cloudproviderconfig.go:33-36 | A new asset has no ConfigMap and an empty file list, which satisfies the invariant. |
| `Manifests.CloudProviderConfig.Name` | pkg/asset/manifests/cloudproviderconfig.go:41-43 | The name is `Cloud Provider Config`. |
| `Manifests.CloudProviderConfig.Dependencies` | pkg/asset/manifests/cloudproviderconfig.go:47-57 | Four dependencies, pairwise distinct. Only the last, the credentials check, is ordering-only. |
| `Manifests.CloudProviderConfig.Load` | pkg/asset/manifests/cloudproviderconfig.go:168-170 | Whatever was persisted, reports "not found" with no error. |
| `Manifests.CloudProviderConfig.Files` | pkg/asset/manifests/cloudproviderconfig.go:163-165 | Returns the file list. On a valid object its names are a prefix of the four names, and it is empty exactly when no ConfigMap was committed. |

## Left out

- YAML and JSON marshalling: external libraries. They are functions that may fail, so byte layout and key order are not modelled.
- The Azure session negotiation and its credential prompting: SDK and network calls. Only their outcome is modelled, as a parameter.
- `ClusterResourceGroupName` is defined outside this file. It is an uninterpreted function of the infra ID, and any fields of its receiver that it may read are not passed.
- `filepath.Join` and the manifest directory: the four file names are constants holding the base names only.
- The asset graph, `asset.Parents.Get` and the files written to disk. `Generate` takes the three resolved values directly, and `Load` takes the persisted files as a map it ignores.
- Go pointers and aliasing: `ConfigMap` and the files are values. The ConfigMap is not changed after it is stored, so sharing it cannot be observed.
- The platform credentials: only their Azure part is modelled, since the asset reads nothing else.
- TypeMeta strings are modelled, but the rest of each Kubernetes object is reduced to the fields the asset sets.
- Error messages are modelled as the `New`/`Wrap` structure. The final `"msg: cause"` strings are not.
