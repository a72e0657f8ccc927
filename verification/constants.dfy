/** The process-wide constants of the extension. */
module Constants {

  const BaseEndpointUrl: string := "https://centraluseuap.management.azure.com/"
  const UserRpName: string := "Private.MarinerProvisioningInstaller"
  const DefaultApiVersion: string := "2023-10-01-privatepreview"
  const DefaultInstallerResourceName: string := "mariner-baremetal-installer"
}
