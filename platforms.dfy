/** The resolved inputs of the asset: install configuration, platform
    credentials, the Azure session, and the Azure cloud-provider record. */
module Platforms {

  const AzureName := "azure"

  /** The name of any platform other than Azure. */
  type OtherPlatformName = s: string | s != AzureName witness "aws"

  /** The Azure section of the install configuration. An empty string in
      the three network fields means "no user override". */
  datatype AzurePlatform = AzurePlatform(
    region: string,
    cloudName: string,
    networkResourceGroupName: string,
    virtualNetwork: string,
    computeSubnet: string,
    aro: bool)

  /** The platform section of the install configuration: Azure, whose
      settings this asset reads, or any other platform by name. */
  datatype Platform = Azure(azure: AzurePlatform) | Other(name: OtherPlatformName) {
    /** The platform's name, as the install configuration reports it. */
    function Name(): (n: string)
      ensures n == AzureName <==> Azure?
    {
      match this
      case Azure(_) => AzureName
      case Other(name) => name
    }
  }

  datatype InstallConfig = InstallConfig(platform: Platform)

  /** Azure service-principal credentials. */
  datatype Credentials = Credentials(
    subscriptionId: string,
    clientId: string,
    clientSecret: string,
    tenantId: string)

  datatype PlatformCreds = PlatformCreds(azure: Credentials)

  /** What a successful Azure session negotiation yields. */
  datatype Session = Session(credentials: Credentials)

  /** The configuration record of the in-cluster Azure cloud provider. */
  datatype CloudProviderConfig = CloudProviderConfig(
    cloudName: string,
    resourceGroupName: string,
    groupLocation: string,
    resourcePrefix: string,
    subscriptionId: string,
    tenantId: string,
    networkResourceGroupName: string,
    networkSecurityGroupName: string,
    virtualNetworkName: string,
    subnetName: string,
    aro: bool)
}
