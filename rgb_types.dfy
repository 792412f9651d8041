/**
 * The RGBResourceManager custom resource: its closed value domains and its
 * spec/status records.  The schema validates the enum fields and the count
 * at admission; the records below hold the raw strings, because the
 * controller only ever compares or copies those strings.
 */
module RGBTypes {
  import opened Common

  /** RGBColor: the colour stamped on the managed items. */
  datatype RGBColor = Red | Green | Blue

  function ColorName(c: RGBColor): string {
    match c
    case Red => "Red"
    case Green => "Green"
    case Blue => "Blue"
  }

  const ColorDomain: set<string> := {"Red", "Green", "Blue"}

  function ParseColor(s: string): (r: Option<RGBColor>)
    ensures r.Some? <==> s in ColorDomain
    ensures r.Some? ==> ColorName(r.value) == s
  {
    if s == "Red" then Some(Red)
    else if s == "Green" then Some(Green)
    else if s == "Blue" then Some(Blue)
    else None
  }

  /** RGBSupportedGroup: "core" or "apps". */
  datatype RGBSupportedGroup = Core | Apps

  function GroupName(g: RGBSupportedGroup): string {
    match g
    case Core => "core"
    case Apps => "apps"
  }

  const GroupDomain: set<string> := {"core", "apps"}

  function ParseGroup(s: string): (r: Option<RGBSupportedGroup>)
    ensures r.Some? <==> s in GroupDomain
    ensures r.Some? ==> GroupName(r.value) == s
  {
    if s == "core" then Some(Core) else if s == "apps" then Some(Apps) else None
  }

  /** RGBSupportedVersion: only "v1". */
  const VersionDomain: set<string> := {"v1"}

  /** RGBSupportedKind: which kind of child the record manages. */
  datatype RGBSupportedKind = PodKind | DeploymentKind

  const PodRc: string := "Pod"
  const DeploymentRc: string := "Deployment"

  function KindName(k: RGBSupportedKind): string {
    match k
    case PodKind => PodRc
    case DeploymentKind => DeploymentRc
  }

  const KindDomain: set<string> := {PodRc, DeploymentRc}

  /** The controller's dispatch on Spec.Kind, read as a parser into the closed set. */
  function ParseKind(s: string): (r: Option<RGBSupportedKind>)
    ensures r.Some? <==> s in KindDomain
    ensures r.Some? ==> KindName(r.value) == s
  {
    if s == PodRc then Some(PodKind)
    else if s == DeploymentRc then Some(DeploymentKind)
    else None
  }

  /** RGBStatus: the result the controller reports. */
  datatype RGBStatus = Initial | Ready

  const RGBInitial: string := "Initial"
  const RGBReady: string := "Ready"

  function StatusName(s: RGBStatus): string {
    match s
    case Initial => RGBInitial
    case Ready => RGBReady
  }

  const StatusDomain: set<string> := {RGBInitial, RGBReady}

  function ParseStatus(s: string): (r: Option<RGBStatus>)
    ensures r.Some? <==> s in StatusDomain
    ensures r.Some? ==> StatusName(r.value) == s
  {
    if s == RGBInitial then Some(Initial) else if s == RGBReady then Some(Ready) else None
  }

  /** Each closed domain's names read back as the value they name. */
  lemma NamesRoundTrip(c: RGBColor, g: RGBSupportedGroup, k: RGBSupportedKind, s: RGBStatus)
    ensures ParseColor(ColorName(c)) == Some(c)
    ensures ParseGroup(GroupName(g)) == Some(g)
    ensures ParseKind(KindName(k)) == Some(k)
    ensures ParseStatus(StatusName(s)) == Some(s)
  {
  }

  /** corev1.ObjectReference, reduced to the fields that identify an object. */
  datatype ObjectReference = ObjectReference(kind: string, namespace: string, name: string)

  /** RGBResourceManagerSpec; `count` is the Go int32 read as an unbounded integer. */
  datatype RGBResourceManagerSpec = RGBResourceManagerSpec(
    color: string,
    group: string,
    version: string,
    kind: string,
    count: int)

  /** RGBResourceManagerStatus: `active` is optional and `result` is required. */
  datatype RGBResourceManagerStatus = RGBResourceManagerStatus(
    active: seq<ObjectReference>,
    result: string)

  /** RGBResourceManager: object identity, spec and status. */
  datatype RGBResourceManager = RGBResourceManager(
    namespace: string,
    name: string,
    spec: RGBResourceManagerSpec,
    status: RGBResourceManagerStatus)

  /** What admission lets through: enum fields in their domains (colour may be
      omitted, which leaves the empty string), count within [2, 5]. */
  predicate Admitted(spec: RGBResourceManagerSpec) {
    && (spec.color == "" || spec.color in ColorDomain)
    && spec.group in GroupDomain
    && spec.version in VersionDomain
    && spec.kind in KindDomain
    && 2 <= spec.count <= 5
  }

  /** An admitted record always names a kind the controller supports. */
  lemma AdmittedKindIsSupported(spec: RGBResourceManagerSpec)
    requires Admitted(spec)
    ensures ParseKind(spec.kind).Some?
    ensures 0 < spec.count
  {
  }
}
