/** The data the operator works on: the Redkey object, its status, and the sequenced
    RedkeyConfig snapshots. Nil and empty maps are one value here, as they are for the
    semantic equality the operator compares objects with. */
module Types {

  datatype Option<+T> = None | Some(value: T)

  /** Keys of labels and annotations. The first four stand for `redkey.inditex.dev/cluster`,
      `redkey.inditex.dev/component`, `redkey.inditex.dev/cluster-generation` and
      `deployment.kubernetes.io/revision`; users may set those too. */
  datatype MetaKey = CLUSTER_LABEL | COMPONENT_LABEL | GENERATION_ANNOTATION | REVISION | OtherKey(text: string)

  type Labels = map<MetaKey, string>

  datatype Topology = Topology(primaries: nat, replicasPerPrimary: int)

  /** A pod specification as a tree; `Nil` and empty texts, lists and tables are unset. */
  datatype Tree =
    | Nil
    | Scalar(n: int)
    | Text(text: string)
    | Record(fields: seq<Tree>)
    | Items(items: seq<Tree>)
    | Table(entries: map<string, Tree>)

  datatype EnvVar = EnvVar(name: string, value: string)

  datatype RobinTemplate = RobinTemplate(labels: Labels, annotations: Labels, image: string, env: seq<EnvVar>,
                                         overrides: Tree)

  datatype RobinSpec = RobinSpec(image: string, template: Option<RobinTemplate>)

  datatype Mode = ClusterMode | StandaloneMode

  /** Settings that are only copied from the Redkey into each config. */
  datatype Workload = Workload(image: string, version: string, redisConfig: string, authSecret: string,
                               deletePVC: bool, extras: Tree)

  datatype Spec = Spec(
    mode: Mode,
    primaries: nat,
    replicasPerPrimary: int,
    ephemeral: bool,
    storage: Option<string>,
    storageClassName: string,
    accessModes: seq<string>,
    purgeKeysOnRebalance: bool,
    skipIfSuperseded: bool,
    labels: Labels,
    annotations: Labels,
    robin: RobinSpec,
    workload: Workload)
  {
    function Topo(): Topology {
      Topology(primaries, replicasPerPrimary)
    }
  }

  /** The operational status Robin reports. */
  datatype OpStatus = NoStatus | ReadyStatus | ErrorStatus | Operation(name: string)

  datatype Substatus = Substatus(status: string, upgradingPartition: int)

  datatype Node = Node(role: string, ip: string, replicationStatus: string)

  datatype ConditionType =
    | ReadyType | ConfigPendingType | ErrorType
    | Healthy | MembershipHealthy | SlotsCovered | SlotsBalanced | ReplicasBalanced | ClusterCheckPassing
    | ForeignType(name: string)

  datatype Truth = True | False | Unknown

  datatype Condition = Condition(kind: ConditionType, status: Truth, reason: string, message: string,
                                 lastTransition: nat)

  datatype Phase = NoPhase | PhaseReady | PhaseConfiguring | PhaseError

  datatype Status = Status(
    replicas: nat,
    phase: Phase,
    status: OpStatus,
    substatus: Substatus,
    nodes: map<string, Node>,
    conditions: seq<Condition>,
    lastUpdatedAt: nat,
    observedGeneration: nat,
    lastAppliedPrimaries: nat,
    lastAppliedReplicasPerPrimary: int)
  {
    function LastApplied(): Topology {
      Topology(lastAppliedPrimaries, lastAppliedReplicasPerPrimary)
    }
  }

  datatype Redkey = Redkey(name: string, namespace: string, generation: nat, resourceVersion: nat,
                           spec: Spec, status: Status)

  /** `OtherPhase("")` is a config Robin has not reported on yet. */
  datatype ConfigPhase = Pending | InProgress | Superseded | Applied | OtherPhase(text: string)

  datatype ConfigSpec = ConfigSpec(
    sequence: nat,
    skipIfSuperseded: bool,
    mode: Mode,
    primaries: nat,
    replicasPerPrimary: int,
    ephemeral: bool,
    storage: Option<string>,
    storageClassName: string,
    labels: Labels,
    annotations: Labels,
    purgeKeysOnRebalance: bool,
    workload: Workload)
  {
    function Topo(): Topology {
      Topology(primaries, replicasPerPrimary)
    }
  }

  datatype ConfigStatus = ConfigStatus(configPhase: ConfigPhase, status: OpStatus, substatus: Substatus,
                                       nodes: map<string, Node>, conditions: seq<Condition>)

  /** A RedkeyConfig, with the generation it was created for. Its name, labels and annotations
      follow from these; see module Identity. */
  datatype Config = Config(generation: nat, spec: ConfigSpec, status: ConfigStatus)

  const NO_SUBSTATUS := Substatus("", 0)
  const UNREPORTED := ConfigStatus(OtherPhase(""), NoStatus, NO_SUBSTATUS, map[], [])
  const FRESH_STATUS := Status(0, NoPhase, NoStatus, NO_SUBSTATUS, map[], [], 0, 0, 0, 0)

  const MAX_INT64: nat := 0x7FFF_FFFF_FFFF_FFFF
}
