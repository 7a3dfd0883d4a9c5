/** The replica-set data model: the enumerations, one member's placement and
    role, the whole configuration, and the rules the model's validators
    enforce on them (identifier formats, numeric bounds, the cross-member
    invariant and the keyfile rule). */
module ReplicaSetModel {
  import opened Wrappers
  import opened Regex

  datatype NodeRole = Primary | Secondary | Arbiter

  datatype MongoDBVersion = V7_0 | V8_0

  datatype MachineType = E2Micro | E2Small | E2Medium | E2Standard2 | E2Standard4 | N2Standard2 | N2Standard4

  datatype DiskType = PdStandard | PdSsd | PdBalanced

  function RoleValue(r: NodeRole): string {
    match r
    case Primary => "primary"
    case Secondary => "secondary"
    case Arbiter => "arbiter"
  }

  function VersionValue(v: MongoDBVersion): string {
    match v
    case V7_0 => "7.0"
    case V8_0 => "8.0"
  }

  /** The enumeration's coercion from its string value; anything else is not
      a version. */
  function ParseVersion(s: string): (r: Option<MongoDBVersion>)
    ensures r.Some? ==> VersionValue(r.value) == s
    ensures forall v :: VersionValue(v) == s ==> r == Some(v)
  {
    if s == "7.0" then Some(V7_0) else if s == "8.0" then Some(V8_0) else None
  }

  function MachineTypeValue(t: MachineType): string {
    match t
    case E2Micro => "e2-micro"
    case E2Small => "e2-small"
    case E2Medium => "e2-medium"
    case E2Standard2 => "e2-standard-2"
    case E2Standard4 => "e2-standard-4"
    case N2Standard2 => "n2-standard-2"
    case N2Standard4 => "n2-standard-4"
  }

  function VersionName(v: MongoDBVersion): string {
    match v
    case V7_0 => "V7_0"
    case V8_0 => "V8_0"
  }

  function MachineTypeName(t: MachineType): string {
    match t
    case E2Micro => "E2_MICRO"
    case E2Small => "E2_SMALL"
    case E2Medium => "E2_MEDIUM"
    case E2Standard2 => "E2_STANDARD_2"
    case E2Standard4 => "E2_STANDARD_4"
    case N2Standard2 => "N2_STANDARD_2"
    case N2Standard4 => "N2_STANDARD_4"
  }

  function DiskTypeName(d: DiskType): string {
    match d
    case PdStandard => "PD_STANDARD"
    case PdSsd => "PD_SSD"
    case PdBalanced => "PD_BALANCED"
  }

  /** Python 3.12's `str()` of a `(str, Enum)` member, which f-strings also
      use: the class name, a dot and the member name. */
  function VersionStr(v: MongoDBVersion): string {
    "MongoDBVersion." + VersionName(v)
  }

  function MachineTypeStr(t: MachineType): string {
    "MachineType." + MachineTypeName(t)
  }

  function DiskTypeStr(d: DiskType): string {
    "DiskType." + DiskTypeName(d)
  }

  /** Python's `repr` of a machine-type member, as it appears inside a
      rendered list. */
  function MachineTypeRepr(t: MachineType): string {
    "<" + MachineTypeStr(t) + ": '" + MachineTypeValue(t) + "'>"
  }

  /** The rendered members name their member: distinct members render
      differently, and differently from their values. */
  lemma EnumStrInjective(v: MongoDBVersion, w: MongoDBVersion, t: MachineType, u: MachineType, d: DiskType, e: DiskType)
    ensures VersionStr(v) == VersionStr(w) ==> v == w
    ensures MachineTypeStr(t) == MachineTypeStr(u) ==> t == u
    ensures DiskTypeStr(d) == DiskTypeStr(e) ==> d == e
    ensures VersionStr(v) != VersionValue(v) && MachineTypeStr(t) != MachineTypeValue(t) && DiskTypeStr(d) != DiskTypeValue(d)
  {
    VersionStrInjective(v, w);
    MachineTypeStrInjective(t, u);
    DiskTypeStrInjective(d, e);
  }

  lemma VersionStrInjective(v: MongoDBVersion, w: MongoDBVersion)
    ensures VersionStr(v) == VersionStr(w) ==> v == w
    ensures VersionStr(v) != VersionValue(v)
  {
    assert VersionName(v) == VersionStr(v)[15..] && VersionName(w) == VersionStr(w)[15..];
    assert VersionStr(v)[0] == 'M' && VersionValue(v)[0] != 'M';
  }

  lemma MachineTypeStrInjective(t: MachineType, u: MachineType)
    ensures MachineTypeStr(t) == MachineTypeStr(u) ==> t == u
    ensures MachineTypeStr(t) != MachineTypeValue(t)
  {
    assert MachineTypeName(t) == MachineTypeStr(t)[12..] && MachineTypeName(u) == MachineTypeStr(u)[12..];
    assert MachineTypeStr(t)[0] == 'M' && MachineTypeValue(t)[0] != 'M';
  }

  lemma DiskTypeStrInjective(d: DiskType, e: DiskType)
    ensures DiskTypeStr(d) == DiskTypeStr(e) ==> d == e
    ensures DiskTypeStr(d) != DiskTypeValue(d)
  {
    assert DiskTypeName(d) == DiskTypeStr(d)[9..] && DiskTypeName(e) == DiskTypeStr(e)[9..];
    assert DiskTypeStr(d)[0] == 'D' && DiskTypeValue(d)[0] != 'D';
  }

  function DiskTypeValue(d: DiskType): string {
    match d
    case PdStandard => "pd-standard"
    case PdSsd => "pd-ssd"
    case PdBalanced => "pd-balanced"
  }

  /** One node. `priority` is a whole number here (the source's float field
      with whole values). */
  datatype ReplicaSetMember = ReplicaSetMember(
    name: string,
    role: NodeRole,
    zone: string,
    machineType: MachineType,
    diskSize: int,
    diskType: DiskType,
    priority: int,
    votes: int,
    arbiterOnly: bool,
    hidden: bool,
    slaveDelay: int)

  datatype NetworkConfig = NetworkConfig(
    vpcName: string,
    subnetName: string,
    subnetCidr: string,
    allowInternalTraffic: bool,
    mongodbPort: int,
    allowedSources: seq<string>)

  /** The configuration. `mongodbVersion` keeps the value as given, so that a
      value outside the enumeration can still be handed to the version
      validator; `labels` keeps the dictionary's insertion order. */
  datatype ReplicaSetConfig = ReplicaSetConfig(
    replicaSetName: string,
    mongodbVersion: string,
    members: seq<ReplicaSetMember>,
    projectId: string,
    region: string,
    network: NetworkConfig,
    authEnabled: bool,
    keyfileContent: Option<string>,
    rootPassword: string,
    backupEnabled: bool,
    backupSchedule: string,
    backupRetentionDays: int,
    labels: seq<(string, string)>)

  datatype ReplicaSetCreateRequest = ReplicaSetCreateRequest(
    config: ReplicaSetConfig,
    autoApprove: bool,
    destroyOnFailure: bool,
    notificationWebhook: Option<string>,
    notificationEmail: Option<string>)

  datatype ReplicaSetStatus =
    | Pending | Validating | TerraformPlanning | TerraformApplying | ConfiguringMongodb
    | InitializingReplicaSet | Ready | Failed | Destroying | Destroyed

  function StatusValue(s: ReplicaSetStatus): string {
    match s
    case Pending => "pending"
    case Validating => "validating"
    case TerraformPlanning => "terraform_planning"
    case TerraformApplying => "terraform_applying"
    case ConfiguringMongodb => "configuring_mongodb"
    case InitializingReplicaSet => "initializing_replica_set"
    case Ready => "ready"
    case Failed => "failed"
    case Destroying => "destroying"
    case Destroyed => "destroyed"
  }

  /** Different states have different string values, so comparing values (as
      the listing filter does) is comparing states. */
  lemma StatusValueInjective(a: ReplicaSetStatus, b: ReplicaSetStatus)
    ensures StatusValue(a) == StatusValue(b) <==> a == b
  {
  }

  datatype ReplicaSetDestroyRequest = ReplicaSetDestroyRequest(
    replicaSetName: string,
    force: bool,
    backupBeforeDestroy: bool)

  // ---- Identifier formats ----

  /** `[a-z]([a-z0-9\-]{0,61}[a-z0-9])?` */
  const NamePattern: Regex :=
    Cat(Char(LowerAlpha), Optional(Cat(UpTo(Char(LowerAlnumHyphen), 61), Char(LowerAlnum))))

  /** `[a-z]+-[a-z]+\d+-[a-z]` */
  const ZonePattern: Regex :=
    Cat(Plus(Char(LowerAlpha)), ZoneAfterRegion)
  const ZoneAfterRegion: Regex :=
    Cat(Char(Literal('-')), ZoneLocation)
  const ZoneLocation: Regex :=
    Cat(Plus(Char(LowerAlpha)), ZoneDigitsAndLetter)
  const ZoneDigitsAndLetter: Regex :=
    Cat(Plus(Char(Decimal)), ZoneSuffix)
  const ZoneSuffix: Regex :=
    Cat(Char(Literal('-')), Char(LowerAlpha))

  /** `[a-z][a-z0-9\-]*[a-z0-9]` */
  const ReplicaSetNamePattern: Regex :=
    Cat(Char(LowerAlpha), Cat(Star(Char(LowerAlnumHyphen)), Char(LowerAlnum)))

  /** `[a-z][a-z0-9\-]{4,28}[a-z0-9]` */
  const ProjectIdPattern: Regex :=
    Cat(Char(LowerAlpha), Cat(Repeat(Char(LowerAlnumHyphen), 4, 28), Char(LowerAlnum)))

  /** A DNS-style label: starts with a lowercase letter, ends with a
      lowercase letter or digit, and uses only lowercase letters, digits and
      hyphens. */
  predicate LabelShape(s: string) {
    |s| >= 1 && InClass(s[0], LowerAlpha) && InClass(s[|s| - 1], LowerAlnum) && AllIn(s, LowerAlnumHyphen)
  }

  /** The shape of a zone such as `asia-northeast3-a`: letters, a hyphen,
      letters, digits, a hyphen and one letter. */
  predicate ZoneShape(s: string) {
    exists p, q :: 1 <= p && p + 2 <= q && q + 3 <= |s| && ZoneSplitAt(s, p, q)
  }

  predicate ZoneSplitAt(s: string, p: nat, q: nat)
    requires 1 <= p && p + 2 <= q && q + 3 <= |s|
  {
    && AllIn(s[..p], LowerAlpha) && s[p] == '-' && AllIn(s[p + 1..q], LowerAlpha)
    && AllIn(s[q..|s| - 2], Decimal) && s[|s| - 2] == '-' && InClass(s[|s| - 1], LowerAlpha)
  }

  lemma LabelFromParts(s: string)
    requires |s| >= 2
    ensures AllIn(s, LowerAlnumHyphen) <==>
              InClass(s[0], LowerAlnumHyphen) && InClass(s[|s| - 1], LowerAlnumHyphen) && AllIn(s[1..|s| - 1], LowerAlnumHyphen)
  {
    if InClass(s[0], LowerAlnumHyphen) && InClass(s[|s| - 1], LowerAlnumHyphen) && AllIn(s[1..|s| - 1], LowerAlnumHyphen) {
      forall i | 0 <= i < |s| ensures InClass(s[i], LowerAlnumHyphen) {
        if 0 < i < |s| - 1 { assert s[i] == s[1..|s| - 1][i - 1]; }
      }
    }
  }

  /** The member-name pattern accepts exactly the labels of 1 to 63 characters. */
  lemma NamePatternShape(s: string)
    ensures Matches(NamePattern, s) <==> |s| <= 63 && LabelShape(s)
  {
    var inner := Cat(UpTo(Char(LowerAlnumHyphen), 61), Char(LowerAlnum));
    CatCharFirst(LowerAlpha, Optional(inner), s);
    if |s| >= 1 {
      var t := s[1..];
      OptionalMatches(inner, t);
      if t != [] {
        CatCharLast(UpTo(Char(LowerAlnumHyphen), 61), LowerAlnum, t);
        UpToClass(LowerAlnumHyphen, 61, t[..|t| - 1]);
        assert t[..|t| - 1] == s[1..|s| - 1];
        assert t[|t| - 1] == s[|s| - 1];
        LabelFromParts(s);
      }
    }
  }

  /** The replica-set-name pattern accepts exactly the labels of at least 2
      characters. */
  lemma ReplicaSetNamePatternShape(s: string)
    ensures Matches(ReplicaSetNamePattern, s) <==> |s| >= 2 && LabelShape(s)
  {
    var inner := Cat(Star(Char(LowerAlnumHyphen)), Char(LowerAlnum));
    CatCharFirst(LowerAlpha, inner, s);
    if |s| >= 1 {
      var t := s[1..];
      CatCharLast(Star(Char(LowerAlnumHyphen)), LowerAlnum, t);
      if t != [] {
        StarClass(LowerAlnumHyphen, t[..|t| - 1]);
        assert t[..|t| - 1] == s[1..|s| - 1];
        assert t[|t| - 1] == s[|s| - 1];
        LabelFromParts(s);
      }
    }
  }

  /** The project-id pattern accepts exactly the labels of 6 to 30 characters. */
  lemma ProjectIdPatternShape(s: string)
    ensures Matches(ProjectIdPattern, s) <==> 6 <= |s| <= 30 && LabelShape(s)
  {
    var middle := Repeat(Char(LowerAlnumHyphen), 4, 28);
    CatCharFirst(LowerAlpha, Cat(middle, Char(LowerAlnum)), s);
    if |s| >= 1 {
      var t := s[1..];
      CatCharLast(middle, LowerAlnum, t);
      if t != [] {
        RepeatClass(LowerAlnumHyphen, 4, 28, t[..|t| - 1]);
        assert t[..|t| - 1] == s[1..|s| - 1];
        assert t[|t| - 1] == s[|s| - 1];
        LabelFromParts(s);
      }
    }
  }

  lemma ZoneSuffixShape(x: string)
    ensures Matches(ZoneSuffix, x) <==> |x| == 2 && x[0] == '-' && InClass(x[1], LowerAlpha)
  {
    CatCharFirst(Literal('-'), Char(LowerAlpha), x);
  }

  /** Digits, a hyphen and one letter. */
  predicate DigitsTailShape(w: string) {
    |w| >= 3 && AllIn(w[..|w| - 2], Decimal) && w[|w| - 2] == '-' && InClass(w[|w| - 1], LowerAlpha)
  }

  /** Letters followed by a digits tail. */
  predicate LocationShape(v: string) {
    exists k :: 1 <= k <= |v| && AllIn(v[..k], LowerAlpha) && DigitsTailShape(v[k..])
  }

  lemma ZoneDigitsShape(w: string)
    ensures Matches(ZoneDigitsAndLetter, w) <==> DigitsTailShape(w)
  {
    PlusClassThen(Decimal, ZoneSuffix, w);
    if Matches(ZoneDigitsAndLetter, w) {
      var p :| 1 <= p <= |w| && AllIn(w[..p], Decimal) && Matches(ZoneSuffix, w[p..]);
      ZoneSuffixShape(w[p..]);
      assert p == |w| - 2;
    }
    if DigitsTailShape(w) {
      ZoneSuffixShape(w[|w| - 2..]);
    }
  }

  lemma ZoneLocationShape(v: string)
    ensures Matches(ZoneLocation, v) <==> LocationShape(v)
  {
    PlusClassThen(LowerAlpha, ZoneDigitsAndLetter, v);
    if Matches(ZoneLocation, v) {
      var k :| 1 <= k <= |v| && AllIn(v[..k], LowerAlpha) && Matches(ZoneDigitsAndLetter, v[k..]);
      ZoneDigitsShape(v[k..]);
    }
    if LocationShape(v) {
      var k :| 1 <= k <= |v| && AllIn(v[..k], LowerAlpha) && DigitsTailShape(v[k..]);
      ZoneDigitsShape(v[k..]);
    }
  }

  lemma ZoneAfterRegionShape(u: string)
    ensures Matches(ZoneAfterRegion, u) <==> |u| >= 1 && u[0] == '-' && LocationShape(u[1..])
  {
    CatCharFirst(Literal('-'), ZoneLocation, u);
    if |u| >= 1 {
      ZoneLocationShape(u[1..]);
    }
  }

  /** The zone shape read level by level, as the pattern is built: letters,
      then a hyphen at `p`, then a location. */
  predicate RegionThenLocation(s: string, p: nat) {
    1 <= p < |s| && AllIn(s[..p], LowerAlpha) && s[p] == '-' && LocationShape(s[p + 1..])
  }

  lemma ZoneShapeToLevels(s: string, p: nat, q: nat)
    requires 1 <= p && p + 2 <= q && q + 3 <= |s| && ZoneSplitAt(s, p, q)
    ensures RegionThenLocation(s, p)
  {
    var v := s[p + 1..];
    var k := q - p - 1;
    assert v[..k] == s[p + 1..q];
    assert v[k..] == s[q..];
    assert s[q..][..|s| - q - 2] == s[q..|s| - 2];
    assert DigitsTailShape(v[k..]);
  }

  lemma LevelsToZoneShape(s: string, p: nat)
    requires RegionThenLocation(s, p)
    ensures ZoneShape(s)
  {
    var v := s[p + 1..];
    var k :| 1 <= k <= |v| && AllIn(v[..k], LowerAlpha) && DigitsTailShape(v[k..]);
    var q := p + 1 + k;
    assert v[..k] == s[p + 1..q];
    assert v[k..] == s[q..];
    assert s[q..][..|s| - q - 2] == s[q..|s| - 2];
    assert ZoneSplitAt(s, p, q);
  }

  /** The zone pattern accepts exactly the strings of zone shape. */
  lemma ZonePatternShape(s: string)
    ensures Matches(ZonePattern, s) <==> ZoneShape(s)
  {
    PlusClassThen(LowerAlpha, ZoneAfterRegion, s);
    if Matches(ZonePattern, s) {
      var p :| 1 <= p <= |s| && AllIn(s[..p], LowerAlpha) && Matches(ZoneAfterRegion, s[p..]);
      ZoneAfterRegionShape(s[p..]);
      assert s[p..][1..] == s[p + 1..];
      LevelsToZoneShape(s, p);
    }
    if ZoneShape(s) {
      var p, q :| 1 <= p && p + 2 <= q && q + 3 <= |s| && ZoneSplitAt(s, p, q);
      ZoneShapeToLevels(s, p, q);
      ZoneAfterRegionShape(s[p..]);
      assert s[p..][1..] == s[p + 1..];
    }
  }

  /** The zone from the validator's own error message is accepted, and a
      zone without its trailing letter is not. */
  lemma ZoneExamples()
    ensures Matches(ZonePattern, "asia-northeast3-a")
    ensures !Matches(ZonePattern, "asia-northeast3")
  {
    var s := "asia-northeast3-a";
    assert ZoneSplitAt(s, 4, 14);
    ZonePatternShape(s);
    ZonePatternShape("asia-northeast3");
  }

  /** `\d` also takes the digits of other scripts: ARABIC-INDIC DIGIT THREE
      and FULLWIDTH DIGIT THREE pass where the `3` of a zone stands. */
  lemma ZoneOtherScriptDigits(d: char)
    requires d == '\U{0663}' || d == '\U{FF13}'
    ensures Matches(ZonePattern, "asia-northeast" + [d] + "-a")
  {
    var s := "asia-northeast" + [d] + "-a";
    assert IsDecimal(d);
    assert s[..4] == "asia" && s[5..14] == "northeast" && s[14..15] == [d];
    assert ZoneSplitAt(s, 4, 14);
    ZonePatternShape(s);
  }

  // ---- Field validators, each returning the value or raising ----

  const NameError := "인스턴스 이름은 소문자로 시작하고 소문자, 숫자, -만 포함할 수 있습니다"
  const ZoneError := "올바르지 않은 GCP 존 형식입니다 (예: asia-northeast3-a)"
  const ReplicaSetNameError := "ReplicaSet 이름은 소문자로 시작/끝나고 소문자, 숫자, -만 포함할 수 있습니다"
  const ProjectIdError := "올바르지 않은 GCP 프로젝트 ID 형식입니다"
  const KeyfileError := "keyfile은 최소 6자 이상이어야 합니다"

  /** A member name passes when it is a label of at most 63 characters. */
  function ValidateName(v: string): (r: Result<string, string>)
    ensures r.Success? <==> |v| <= 63 && LabelShape(v)
    ensures r.Success? ==> r.value == v
    ensures r.Failure? ==> r.error == NameError
  {
    NamePatternShape(v);
    if Matches(NamePattern, v) then Success(v) else Failure(NameError)
  }

  /** The member-name validator as the source writes it: `re.match` of a
      `^...$` pattern, whose `$` also matches before a final newline. */
  function ValidateNameAsWritten(v: string): (r: Result<string, string>)
    ensures r.Success? <==> ValidateName(v).Success? ||
                            (|v| > 0 && v[|v| - 1] == '\n' && ValidateName(v[..|v| - 1]).Success?)
  {
    if PythonFullMatch(NamePattern, v) then Success(v) else Failure(NameError)
  }

  /** The zone validator as the source writes it. */
  function ValidateZoneAsWritten(v: string): (r: Result<string, string>)
    ensures r.Success? <==> ValidateZone(v).Success? ||
                            (|v| > 0 && v[|v| - 1] == '\n' && ValidateZone(v[..|v| - 1]).Success?)
  {
    if PythonFullMatch(ZonePattern, v) then Success(v) else Failure(ZoneError)
  }

  /** The replica-set-name validator as the source writes it. */
  function ValidateReplicaSetNameAsWritten(v: string): (r: Result<string, string>)
    ensures r.Success? <==> ValidateReplicaSetName(v).Success? ||
                            (|v| > 0 && v[|v| - 1] == '\n' && ValidateReplicaSetName(v[..|v| - 1]).Success?)
  {
    if PythonFullMatch(ReplicaSetNamePattern, v) then Success(v) else Failure(ReplicaSetNameError)
  }

  /** The project-id validator as the source writes it. */
  function ValidateProjectIdAsWritten(v: string): (r: Result<string, string>)
    ensures r.Success? <==> ValidateProjectId(v).Success? ||
                            (|v| > 0 && v[|v| - 1] == '\n' && ValidateProjectId(v[..|v| - 1]).Success?)
  {
    if PythonFullMatch(ProjectIdPattern, v) then Success(v) else Failure(ProjectIdError)
  }

  /** A name, zone, replica-set name or project id with a trailing newline
      gets past the validators as written (and would reach the resources
      named after it), while the corrected validators refuse it. */
  lemma TrailingNewlineAcceptedAsWritten()
    ensures ValidateNameAsWritten("node1\n").Success? && ValidateName("node1\n").Failure?
    ensures ValidateZoneAsWritten("asia-northeast3-a\n").Success? && ValidateZone("asia-northeast3-a\n").Failure?
    ensures ValidateReplicaSetNameAsWritten("rs0\n").Success? && ValidateReplicaSetName("rs0\n").Failure?
    ensures ValidateProjectIdAsWritten("my-project\n").Success? && ValidateProjectId("my-project\n").Failure?
  {
    assert "node1\n"[..5] == "node1";
    assert LabelShape("node1");
    assert "asia-northeast3-a\n"[..17] == "asia-northeast3-a";
    ZoneExamples();
    assert "rs0\n"[..3] == "rs0";
    assert LabelShape("rs0");
    assert "my-project\n"[..10] == "my-project";
    assert LabelShape("my-project");
  }

  function ValidateZone(v: string): (r: Result<string, string>)
    ensures r.Success? <==> ZoneShape(v)
    ensures r.Success? ==> r.value == v
    ensures r.Failure? ==> r.error == ZoneError
  {
    ZonePatternShape(v);
    if Matches(ZonePattern, v) then Success(v) else Failure(ZoneError)
  }

  function ValidateReplicaSetName(v: string): (r: Result<string, string>)
    ensures r.Success? <==> |v| >= 2 && LabelShape(v)
    ensures r.Success? ==> r.value == v
    ensures r.Failure? ==> r.error == ReplicaSetNameError
  {
    ReplicaSetNamePatternShape(v);
    if Matches(ReplicaSetNamePattern, v) then Success(v) else Failure(ReplicaSetNameError)
  }

  function ValidateProjectId(v: string): (r: Result<string, string>)
    ensures r.Success? <==> 6 <= |v| <= 30 && LabelShape(v)
    ensures r.Success? ==> r.value == v
    ensures r.Failure? ==> r.error == ProjectIdError
  {
    ProjectIdPatternShape(v);
    if Matches(ProjectIdPattern, v) then Success(v) else Failure(ProjectIdError)
  }

  datatype MemberField = NameField | ZoneField | DiskSizeField | PriorityField | VotesField | SlaveDelayField

  /** The member fields whose constraints fail, in declaration order. */
  function MemberFieldErrors(m: ReplicaSetMember): seq<MemberField> {
    FailedFields(ValidateName(m.name).Failure?, ValidateZone(m.zone).Failure?, !(10 <= m.diskSize <= 1000),
                 !(0 <= m.priority <= 1000), !(0 <= m.votes <= 1), !(m.slaveDelay >= 0))
  }

  /** The fields flagged as failing, in declaration order. */
  function FailedFields(name: bool, zone: bool, disk: bool, priority: bool, votes: bool, delay: bool): seq<MemberField> {
    (if name then [NameField] else [])
    + (if zone then [ZoneField] else [])
    + (if disk then [DiskSizeField] else [])
    + (if priority then [PriorityField] else [])
    + (if votes then [VotesField] else [])
    + (if delay then [SlaveDelayField] else [])
  }

  lemma FailedFieldsMembership(name: bool, zone: bool, disk: bool, priority: bool, votes: bool, delay: bool)
    ensures var r := FailedFields(name, zone, disk, priority, votes, delay);
            && (r == [] <==> !name && !zone && !disk && !priority && !votes && !delay)
            && (NameField in r <==> name) && (ZoneField in r <==> zone) && (DiskSizeField in r <==> disk)
            && (PriorityField in r <==> priority) && (VotesField in r <==> votes) && (SlaveDelayField in r <==> delay)
  {
  }

  /** A member passes exactly when every field is within its constraint
      (all bounds inclusive), and each failing field is reported. */
  lemma MemberFieldErrorsMeaning(m: ReplicaSetMember)
    ensures var r := MemberFieldErrors(m);
            && (r == [] <==>
                  && |m.name| <= 63 && LabelShape(m.name) && ZoneShape(m.zone)
                  && 10 <= m.diskSize <= 1000 && 0 <= m.priority <= 1000
                  && 0 <= m.votes <= 1 && m.slaveDelay >= 0)
            && (NameField in r <==> !(|m.name| <= 63 && LabelShape(m.name)))
            && (ZoneField in r <==> !ZoneShape(m.zone))
            && (DiskSizeField in r <==> !(10 <= m.diskSize <= 1000))
            && (PriorityField in r <==> !(0 <= m.priority <= 1000))
            && (VotesField in r <==> !(0 <= m.votes <= 1))
            && (SlaveDelayField in r <==> m.slaveDelay < 0)
  {
    FailedFieldsMembership(ValidateName(m.name).Failure?, ValidateZone(m.zone).Failure?, !(10 <= m.diskSize <= 1000),
                           !(0 <= m.priority <= 1000), !(0 <= m.votes <= 1), !(m.slaveDelay >= 0));
  }

  // ---- The cross-member rules ----

  datatype MembersError = TooFewMembers | PrimaryCountNotOne | EvenVotingMembers | DuplicateNames | TooFewZones

  function MembersErrorMessage(e: MembersError): string {
    match e
    case TooFewMembers => "ReplicaSet은 최소 3개의 멤버가 필요합니다"
    case PrimaryCountNotOne => "정확히 1개의 Primary 노드가 필요합니다"
    case EvenVotingMembers => "투표권을 가진 멤버 수는 홀수여야 합니다"
    case DuplicateNames => "중복된 인스턴스 이름이 있습니다"
    case TooFewZones => "고가용성을 위해 최소 2개 이상의 존에 분산 배치하세요"
  }

  /** `sum(1 for member in v if member.role == PRIMARY)` */
  function PrimaryCount(ms: seq<ReplicaSetMember>): nat {
    if ms == [] then 0 else PrimaryCount(ms[..|ms| - 1]) + (if ms[|ms| - 1].role == Primary then 1 else 0)
  }

  /** `sum(1 for member in v if member.votes > 0)` */
  function VotingCount(ms: seq<ReplicaSetMember>): nat {
    if ms == [] then 0 else VotingCount(ms[..|ms| - 1]) + (if ms[|ms| - 1].votes > 0 then 1 else 0)
  }

  function NameSet(ms: seq<ReplicaSetMember>): set<string> {
    set i | 0 <= i < |ms| :: ms[i].name
  }

  function ZoneSet(ms: seq<ReplicaSetMember>): set<string> {
    set i | 0 <= i < |ms| :: ms[i].zone
  }

  /** `validate_members`: the first rule broken, in the order the source
      checks them, or the list unchanged. */
  function ValidateMembers(ms: seq<ReplicaSetMember>): (r: Result<seq<ReplicaSetMember>, MembersError>)
    ensures r == Failure(TooFewMembers) <==> |ms| < 3
    ensures r == Failure(PrimaryCountNotOne) <==> |ms| >= 3 && !ExactlyOnePrimary(ms)
    ensures r == Failure(EvenVotingMembers) <==> |ms| >= 3 && ExactlyOnePrimary(ms) && !OddVoters(ms)
    ensures r == Failure(DuplicateNames) <==>
              |ms| >= 3 && ExactlyOnePrimary(ms) && OddVoters(ms) && !NamesDistinct(ms)
    ensures r == Failure(TooFewZones) <==>
              |ms| >= 3 && ExactlyOnePrimary(ms) && OddVoters(ms) && NamesDistinct(ms) && !SpansTwoZones(ms)
    ensures r.Success? <==> MembersInvariant(ms)
    ensures r.Success? ==> r.value == ms
  {
    PrimaryCountMeaning(ms);
    VotingCountMeaning(ms);
    NameSetSize(ms);
    ZoneSetSize(ms);
    if |ms| < 3 then Failure(TooFewMembers)
    else if PrimaryCount(ms) != 1 then Failure(PrimaryCountNotOne)
    else if VotingCount(ms) % 2 == 0 then Failure(EvenVotingMembers)
    else if |NameSet(ms)| != |ms| then Failure(DuplicateNames)
    else if |ZoneSet(ms)| < 2 then Failure(TooFewZones)
    else Success(ms)
  }

  // The invariant stated without counters or set sizes.

  predicate ExactlyOnePrimary(ms: seq<ReplicaSetMember>) {
    exists i :: 0 <= i < |ms| && ms[i].role == Primary && forall j :: 0 <= j < |ms| && ms[j].role == Primary ==> j == i
  }

  function VoterIndices(ms: seq<ReplicaSetMember>): set<nat> {
    set i: nat | i < |ms| && ms[i].votes > 0
  }

  predicate OddVoters(ms: seq<ReplicaSetMember>) {
    |VoterIndices(ms)| % 2 == 1
  }

  predicate NamesDistinct(ms: seq<ReplicaSetMember>) {
    forall i, j :: 0 <= i < j < |ms| ==> ms[i].name != ms[j].name
  }

  predicate SpansTwoZones(ms: seq<ReplicaSetMember>) {
    exists i, j :: 0 <= i < |ms| && 0 <= j < |ms| && ms[i].zone != ms[j].zone
  }

  /** At least 3 members, exactly one primary, an odd number of voters,
      unique names and at least two zones. */
  predicate MembersInvariant(ms: seq<ReplicaSetMember>) {
    |ms| >= 3 && ExactlyOnePrimary(ms) && OddVoters(ms) && NamesDistinct(ms) && SpansTwoZones(ms)
  }

  function PrimaryIndices(ms: seq<ReplicaSetMember>): set<nat> {
    set i: nat | i < |ms| && ms[i].role == Primary
  }

  lemma {:induction false} PrimaryCountIsSize(ms: seq<ReplicaSetMember>)
    ensures PrimaryCount(ms) == |PrimaryIndices(ms)|
  {
    if ms != [] {
      var n := |ms| - 1;
      PrimaryCountIsSize(ms[..n]);
      if ms[n].role == Primary {
        assert PrimaryIndices(ms) == PrimaryIndices(ms[..n]) + {n};
      } else {
        assert PrimaryIndices(ms) == PrimaryIndices(ms[..n]);
      }
    }
  }

  lemma PrimaryCountMeaning(ms: seq<ReplicaSetMember>)
    ensures PrimaryCount(ms) == 1 <==> ExactlyOnePrimary(ms)
  {
    PrimaryCountIsSize(ms);
    var s := PrimaryIndices(ms);
    if |s| == 1 {
      var i :| i in s;
      assert |s - {i}| == 0;
      assert s == {i};
      assert forall j :: 0 <= j < |ms| && ms[j].role == Primary ==> j in s;
    }
    if ExactlyOnePrimary(ms) {
      var i :| 0 <= i < |ms| && ms[i].role == Primary && forall j :: 0 <= j < |ms| && ms[j].role == Primary ==> j == i;
      assert s == {i};
    }
  }

  lemma {:induction false} VotingCountMeaning(ms: seq<ReplicaSetMember>)
    ensures VotingCount(ms) == |VoterIndices(ms)|
  {
    if ms != [] {
      var n := |ms| - 1;
      VotingCountMeaning(ms[..n]);
      if ms[n].votes > 0 {
        assert VoterIndices(ms) == VoterIndices(ms[..n]) + {n};
      } else {
        assert VoterIndices(ms) == VoterIndices(ms[..n]);
      }
    }
  }

  /** Python's `len(names) != len(set(names))` is exactly "some name repeats". */
  lemma {:induction false} NameSetSize(ms: seq<ReplicaSetMember>)
    ensures |NameSet(ms)| <= |ms|
    ensures |NameSet(ms)| == |ms| <==> NamesDistinct(ms)
  {
    if ms != [] {
      var n := |ms| - 1;
      var init := ms[..n];
      NameSetSize(init);
      assert NameSet(ms) == NameSet(init) + {ms[n].name};
      if ms[n].name in NameSet(init) {
        var k :| 0 <= k < n && init[k].name == ms[n].name;
        assert ms[k].name == ms[n].name;
      } else {
        if NamesDistinct(ms) {
          assert NamesDistinct(init);
        } else {
          var i, j :| 0 <= i < j < |ms| && ms[i].name == ms[j].name;
          if j == n {
            assert init[i].name == ms[n].name;
          } else {
            assert init[i].name == init[j].name;
          }
        }
      }
    }
  }

  lemma ZoneSetSize(ms: seq<ReplicaSetMember>)
    ensures |ZoneSet(ms)| >= 2 <==> SpansTwoZones(ms)
  {
    var z := ZoneSet(ms);
    if |z| >= 2 {
      var a :| a in z;
      assert |z - {a}| >= 1;
      var b :| b in z - {a};
      var i :| 0 <= i < |ms| && ms[i].zone == a;
      var j :| 0 <= j < |ms| && ms[j].zone == b;
    }
    if SpansTwoZones(ms) {
      var i, j :| 0 <= i < |ms| && 0 <= j < |ms| && ms[i].zone != ms[j].zone;
      assert {ms[i].zone, ms[j].zone} <= z;
      assert |{ms[i].zone, ms[j].zone}| == 2;
      SubsetSize({ms[i].zone, ms[j].zone}, z);
    }
  }

  lemma SubsetSize<T>(a: set<T>, b: set<T>)
    requires a <= b
    ensures |a| <= |b|
  {
    assert b == a + (b - a);
  }

  // ---- The keyfile ----

  predicate IsAlnum(c: char) {
    ('a' <= c <= 'z') || ('A' <= c <= 'Z') || ('0' <= c <= '9')
  }

  /** The k-th character of `string.ascii_letters + string.digits`. */
  function AlphabetChar(k: nat): (c: char)
    requires k < 62
    ensures IsAlnum(c)
  {
    if k < 26 then ('a' as int + k) as char
    else if k < 52 then ('A' as int + k - 26) as char
    else ('0' as int + k - 52) as char
  }

  /** The generated keyfile: 756 characters, each `secrets.choice` of the
      alphabet; `draw(i)` stands for the random index of the i-th pick. */
  function GenerateKeyfile(draw: nat -> nat): (r: string)
    ensures |r| == 756
    ensures forall i :: 0 <= i < |r| ==> IsAlnum(r[i])
  {
    var r := seq(756, i requires 0 <= i < 756 => AlphabetChar(draw(i) % 62));
    assert forall i | 0 <= i < 756 :: r[i] == AlphabetChar(draw(i) % 62);
    r
  }

  /** `validate_keyfile_content`: with authentication on and no keyfile (None
      or empty), a generated one; a keyfile shorter than 6 raises; anything
      else passes unchanged. */
  function ValidateKeyfileContent(authEnabled: bool, v: Option<string>, draw: nat -> nat): (r: Result<Option<string>, string>)
    ensures authEnabled && (v == None || v == Some("")) ==>
              r.Success? && r.value.Some? && |r.value.value| == 756 &&
              forall i :: 0 <= i < 756 ==> IsAlnum(r.value.value[i])
    ensures r.Failure? <==> v.Some? && 0 < |v.value| < 6 && !(authEnabled && v.value == "")
    ensures r.Failure? ==> r.error == KeyfileError
    ensures r.Success? && !(authEnabled && (v == None || v == Some(""))) ==> r.value == v
  {
    if authEnabled && (v.None? || v.value == "") then Success(Some(GenerateKeyfile(draw)))
    else if v.Some? && v.value != "" && |v.value| < 6 then Failure(KeyfileError)
    else Success(v)
  }

  /** The keyfile a configuration ends up with. pydantic runs a plain
      `@validator` only on a field the request supplies: when
      `keyfile_content` is left out (`supplied == None`) its default None is
      kept, whatever `auth_enabled` says. */
  function KeyfileAsWritten(authEnabled: bool, supplied: Option<Option<string>>, draw: nat -> nat): (r: Result<Option<string>, string>)
    ensures supplied.None? ==> r == Success(None)
    ensures r.Failure? <==> supplied.Some? && supplied.value.Some? && 0 < |supplied.value.value| < 6
    ensures r.Success? && supplied.Some? && authEnabled ==> r.value.Some? && |r.value.value| >= 6
    ensures r.Success? && supplied.Some? && supplied.value.Some? && supplied.value.value != "" ==> r.value == supplied.value
  {
    match supplied
    case None => Success(None)
    case Some(v) => ValidateKeyfileContent(authEnabled, v, draw)
  }

  /** The keyfile with the validator run on the default too (`always=True`):
      an accepted configuration with authentication on always has a keyfile
      of at least 6 characters. */
  function KeyfileAlwaysValidated(authEnabled: bool, supplied: Option<Option<string>>, draw: nat -> nat): (r: Result<Option<string>, string>)
    ensures r.Success? && authEnabled ==> r.value.Some? && |r.value.value| >= 6
    ensures r.Success? && r.value.Some? && r.value.value != "" ==> |r.value.value| >= 6
    ensures r.Failure? <==> supplied.Some? && supplied.value.Some? && 0 < |supplied.value.value| < 6
  {
    ValidateKeyfileContent(authEnabled, if supplied.Some? then supplied.value else None, draw)
  }

  /** As written, the default request (authentication on, no keyfile) keeps
      no keyfile, and the text written for it, `None`, is a keyfile the
      validator itself refuses; run always, the validator generates one. */
  lemma OmittedKeyfileKeptAsWritten(draw: nat -> nat)
    ensures KeyfileAsWritten(true, None, draw) == Success(None)
    ensures ValidateKeyfileContent(true, Some("None"), draw).Failure?
    ensures KeyfileAlwaysValidated(true, None, draw).Success?
    ensures |KeyfileAlwaysValidated(true, None, draw).value.value| == 756
  {
  }

  // ---- Whole-configuration constraints ----

  datatype ConfigField = ReplicaSetNameField | MongodbVersionField | MembersField | ProjectIdField | RootPasswordField | RetentionField

  const ConfigFields: seq<ConfigField> :=
    [ReplicaSetNameField, MongodbVersionField, MembersField, ProjectIdField, RootPasswordField, RetentionField]

  /** The constraint each checked field of the configuration carries. */
  predicate ConfigFieldOk(c: ReplicaSetConfig, f: ConfigField) {
    match f
    case ReplicaSetNameField => 1 <= |c.replicaSetName| <= 50 && ValidateReplicaSetName(c.replicaSetName).Success?
    case MongodbVersionField => ParseVersion(c.mongodbVersion).Some?
    case MembersField => 3 <= |c.members| <= 50 && ValidateMembers(c.members).Success?
    case ProjectIdField => ValidateProjectId(c.projectId).Success?
    case RootPasswordField => |c.rootPassword| >= 8
    case RetentionField => 1 <= c.backupRetentionDays <= 365
  }

  function FailingFields(c: ReplicaSetConfig, fs: seq<ConfigField>): (r: seq<ConfigField>)
    ensures forall f :: f in r <==> f in fs && !ConfigFieldOk(c, f)
  {
    if fs == [] then []
    else (if ConfigFieldOk(c, fs[0]) then [] else [fs[0]]) + FailingFields(c, fs[1..])
  }

  /** The configuration fields that fail their constraints, in declaration
      order. */
  function ConfigFieldErrors(c: ReplicaSetConfig): (r: seq<ConfigField>)
    ensures forall f :: f in r <==> !ConfigFieldOk(c, f)
  {
    FailingFields(c, ConfigFields)
  }

  /** What each field constraint means once the patterns are taken apart: the
      name is a label of 2 to 50 characters, the project id one of 6 to 30,
      the members keep the cross-member invariant. */
  lemma ConfigFieldOkMeaning(c: ReplicaSetConfig)
    ensures ConfigFieldOk(c, ReplicaSetNameField) <==> 2 <= |c.replicaSetName| <= 50 && LabelShape(c.replicaSetName)
    ensures ConfigFieldOk(c, MongodbVersionField) <==> c.mongodbVersion in {"7.0", "8.0"}
    ensures ConfigFieldOk(c, MembersField) <==> |c.members| <= 50 && MembersInvariant(c.members)
    ensures ConfigFieldOk(c, ProjectIdField) <==> 6 <= |c.projectId| <= 30 && LabelShape(c.projectId)
  {
  }

  /** What a configuration that passed model validation satisfies. */
  predicate ConfigValid(c: ReplicaSetConfig) {
    && ConfigFieldErrors(c) == []
    && (forall i :: 0 <= i < |c.members| ==> MemberFieldErrors(c.members[i]) == [])
    && (c.keyfileContent.Some? && c.keyfileContent.value != "" ==> |c.keyfileContent.value| >= 6)
  }
}
