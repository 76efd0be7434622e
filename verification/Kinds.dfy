/** The kinds of provisioning resources. */
module Kinds {
  /** NoKind is the empty kind string, OtherKind any string that names none of the twelve kinds. */
  datatype Kind =
    | EntraUser
    | MinioBucket
    | KeycloakClient
    | AzureDatabase
    | AzureManagedDatabase
    | AzurePowerShellScript
    | HelmRelease
    | HelmReleaseV2
    | AzureVirtualMachine
    | AzureVirtualDesktop
    | MsSqlDatabase
    | LocalScript
    | NoKind
    | OtherKind(name: string)
  {
    predicate Known() {
      !NoKind? && !OtherKind?
    }
  }

  /** Handled whatever the configuration, in the order syncTarget lists them. */
  const BASE_KINDS := [HelmRelease, HelmReleaseV2, MsSqlDatabase, LocalScript, MinioBucket, KeycloakClient]

  /** Handled only when Azure is enabled. */
  const AZURE_KINDS := [AzureDatabase, AzureManagedDatabase, AzurePowerShellScript, AzureVirtualMachine,
                        AzureVirtualDesktop, EntraUser]

  function ActiveKinds(azureEnabled: bool): set<Kind> {
    (set k | k in BASE_KINDS) + if azureEnabled then set k | k in AZURE_KINDS else {}
  }

  /** The order in which a stack's program deploys its resources. */
  const DEPLOY_ORDER := [EntraUser, MinioBucket, KeycloakClient, AzureDatabase, AzureManagedDatabase,
                         AzurePowerShellScript, HelmRelease, HelmReleaseV2, AzureVirtualMachine,
                         AzureVirtualDesktop, MsSqlDatabase, LocalScript]

  /** Every kind that has a name of its own is deployed. */
  lemma EveryKindIsDeployed(kind: Kind)
    ensures kind in DEPLOY_ORDER <==> kind.Known()
  {
  }

  lemma EveryKindIsDeployedOnce(i: nat, j: nat)
    requires i < j < |DEPLOY_ORDER|
    ensures DEPLOY_ORDER[i] != DEPLOY_ORDER[j]
  {
  }

  /** With Azure every kind is active, without it the six that do not need Azure. */
  lemma ActiveKindsAre(kind: Kind)
    ensures kind in ActiveKinds(true) <==> kind.Known()
    ensures kind in ActiveKinds(false) <==>
      kind.HelmRelease? || kind.HelmReleaseV2? || kind.MsSqlDatabase? || kind.LocalScript? || kind.MinioBucket? || kind.KeycloakClient?
  {
  }
}
