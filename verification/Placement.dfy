/** What a managed service owns on a machine beyond the plan that describes it. */
module Placements {

  datatype VolumeMount = VolumeMount(host: string, container: string)

  datatype Placement = Placement(
    account: string,
    home: string,
    description: string,
    containerName: string,
    image: string,
    containerPort: int,
    writablePaths: seq<string>,
    dataDirectory: string,
    volumes: seq<VolumeMount>,
    snapshotDirectory: string,
    secretKeys: seq<string>,
    environment: seq<string>,
    originEnvironmentPrefix: string
  ) {
    predicate BearsData() { dataDirectory != "" }

    predicate BearsSecrets() { secretKeys != [] }

    function SecretsDirectory(): string { home + "/secrets" }

    function EnvironmentFilePath(): string { home + "/secrets.env" }
  }
}
