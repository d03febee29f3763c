/** The platform's resources, as the script reads and writes them (the JSON records of the
    Octopus Deploy REST API, reduced to the keys the script touches). */
module Entities {
  import opened Wrappers

  datatype Space = Space(id: string, name: string)

  datatype Environment = Environment(id: string, spaceId: string, name: string)

  datatype Phase = Phase(
    name: string,
    optionalDeploymentTargets: seq<string>,
    automaticDeploymentTargets: seq<string>,
    minimumEnvironmentsBeforePromotion: nat,
    isOptionalPhase: bool)

  datatype RetentionPolicy = RetentionPolicy(shouldKeepForever: bool, quantityToKeep: nat, unit: string)

  datatype Lifecycle = Lifecycle(
    id: string,
    spaceId: string,
    name: string,
    phases: seq<Phase>,
    releaseRetentionPolicy: RetentionPolicy,
    tentacleRetentionPolicy: RetentionPolicy)

  /** An action of a deployment step, with the names of the packages it deploys. */
  datatype StepAction = StepAction(packages: seq<string>)

  datatype DeploymentStep = DeploymentStep(name: string, actions: seq<StepAction>)

  /** A project and its deployment process (`/projects/{id}/deploymentprocesses`). */
  datatype Project = Project(id: string, spaceId: string, name: string, process: seq<DeploymentStep>)

  /** `{'DeploymentAction': …, 'PackageReference': …}`; the reference is `None` when no
      package name was given on the command line. */
  datatype ActionPackage = ActionPackage(deploymentAction: string, packageReference: Option<string>)

  datatype ChannelRule = ChannelRule(tag: string, actions: seq<string>, actionPackages: seq<ActionPackage>)

  datatype Channel = Channel(
    id: string,
    spaceId: string,
    projectId: string,
    name: string,
    isDefault: bool,
    lifecycleId: string,
    rules: seq<ChannelRule>)

  /** A deployment target. `environmentIds` is a list: its order is kept by every update. */
  datatype Machine = Machine(id: string, spaceId: string, name: string, roles: seq<string>, environmentIds: seq<string>)

  datatype Release = Release(id: string, spaceId: string, projectId: string, channelId: string)

  datatype Deployment = Deployment(id: string, spaceId: string, projectId: string, channelId: string, taskId: string)

  datatype ServerTask = ServerTask(id: string, spaceId: string, isCompleted: bool)

  // The platform-assigned identifier of each kind of resource, as a function value for Collections.UniqueBy.
  function SpaceKey(s: Space): string { s.id }
  function EnvironmentKey(e: Environment): string { e.id }
  function LifecycleKey(l: Lifecycle): string { l.id }
  function ProjectKey(p: Project): string { p.id }
  function ChannelKey(c: Channel): string { c.id }
  function MachineKey(m: Machine): string { m.id }
  function ReleaseKey(r: Release): string { r.id }
  function DeploymentKey(d: Deployment): string { d.id }
  function TaskKey(t: ServerTask): string { t.id }
}
