/** The MongoDB version validator: per-version requirement tables, the
    errors a configuration raises against them, the version-specific rules,
    the advisory recommendations, and the combined verdict. */
module MongoValidator {
  import opened Wrappers
  import opened Strings
  import opened ReplicaSetModel

  /** One row of the version-requirement table (the descriptive feature
      lists are not part of it). */
  datatype Requirement = Requirement(
    minMemoryGb: nat,
    minDiskGb: nat,
    supportedMachineTypes: seq<MachineType>,
    maxReplicaSetSize: nat,
    recommended: bool)

  function Requirements(v: MongoDBVersion): Requirement {
    match v
    case V7_0 => Requirement(2, 20, [E2Medium, E2Standard2, E2Standard4, N2Standard2, N2Standard4], 50, false)
    case V8_0 => Requirement(4, 20, [E2Standard2, E2Standard4, N2Standard2, N2Standard4], 50, true)
  }

  datatype MachineSpec = MachineSpec(cpu: nat, memoryGb: nat)

  /** The machine-type table; the two smallest types have no entry. */
  function MachineSpecOf(t: MachineType): Option<MachineSpec> {
    match t
    case E2Medium => Some(MachineSpec(2, 4))
    case E2Standard2 => Some(MachineSpec(2, 8))
    case E2Standard4 => Some(MachineSpec(4, 16))
    case N2Standard2 => Some(MachineSpec(2, 8))
    case N2Standard4 => Some(MachineSpec(4, 16))
    case _ => None
  }

  /** The memory and cpu of an optional table entry, 0 when absent. */
  function SpecMemory(spec: Option<MachineSpec>): nat {
    match spec
    case Some(m) => m.memoryGb
    case None => 0
  }

  function SpecCpu(spec: Option<MachineSpec>): nat {
    match spec
    case Some(m) => m.cpu
    case None => 0
  }

  /** Every type a version supports has a table entry providing at least the
      version's minimum memory. */
  lemma SupportedTypesMeetMemory(v: MongoDBVersion, t: MachineType)
    requires t in Requirements(v).supportedMachineTypes
    ensures MachineSpecOf(t).Some? && MachineSpecOf(t).value.memoryGb >= Requirements(v).minMemoryGb
  {
  }

  datatype ValidationError =
    | UnsupportedVersion(raw: string)
    | UnsupportedMachineType(version: MongoDBVersion, machineType: MachineType)
    | InsufficientMemory(version: MongoDBVersion, machineType: MachineType, memoryGb: nat)
    | InsufficientDisk(version: MongoDBVersion, node: string, diskSize: int)
    | TooManyMembers(version: MongoDBVersion, count: nat)
    | LowCpu(node: string, cpu: nat)
    | LargeSetOn8
    | StandardDiskOn8(node: string)

  datatype Recommendation =
    | SpreadZones(zoneCount: nat)
    | UseSsd(standardDisks: nat)
    | MoreMemory(totalMemoryGb: nat)
    | UpgradeTo8

  function MachineTypeList(ts: seq<MachineType>): string {
    "[" + Join(seq(|ts|, i requires 0 <= i < |ts| => MachineTypeRepr(ts[i])), ", ") + "]"
  }

  /** The message text of an error. Enumeration members are rendered as
      Python 3.12's f-strings render a `(str, Enum)` member
      (`MachineType.E2_MICRO`); the supported-types list shows each
      member's `repr`. */
  function ErrorText(e: ValidationError): (t: string)
    ensures |t| > 0 && t[0] != 'W'
  {
    match e
    case UnsupportedVersion(raw) => "지원하지 않는 MongoDB 버전: " + raw + ". 지원 버전: 7.0, 8.0"
    case UnsupportedMachineType(v, t) =>
      "MongoDB " + VersionStr(v) + "은 머신 타입 " + MachineTypeStr(t) + "을 지원하지 않습니다. "
      + "지원 타입: " + MachineTypeList(Requirements(v).supportedMachineTypes)
    case InsufficientMemory(v, t, mem) =>
      "MongoDB " + VersionStr(v) + "은 최소 " + NatToString(Requirements(v).minMemoryGb) + "GB 메모리가 필요합니다. "
      + MachineTypeStr(t) + "는 " + NatToString(mem) + "GB만 제공합니다."
    case InsufficientDisk(v, node, size) =>
      "MongoDB " + VersionStr(v) + "은 최소 " + NatToString(Requirements(v).minDiskGb) + "GB 디스크가 필요합니다. "
      + "노드 " + node + "의 디스크 크기: " + IntToString(size) + "GB"
    case TooManyMembers(v, n) =>
      "MongoDB " + VersionStr(v) + "은 최대 " + NatToString(Requirements(v).maxReplicaSetSize) + "개의 멤버를 지원합니다. "
      + "요청된 멤버 수: " + NatToString(n)
    case LowCpu(node, cpu) =>
      "MongoDB " + "7.0의 새로운 인덱싱 기능 사용 시 최소 2 vCPU 권장. 노드 " + node + ": " + NatToString(cpu) + " vCPU"
    case LargeSetOn8 => "MongoDB " + "8.0에서 7개 이상의 멤버 구성 시 추가 네트워크 최적화 필요"
    case StandardDiskOn8(node) =>
      "MongoDB " + "8.0의 성능 최적화를 위해 SSD 디스크(pd-ssd) 사용 권장. 노드 " + node + ": " + DiskTypeStr(PdStandard)
  }

  /** Two messages: the machine-type error and the 8.0 disk error name
      the members by class and member name. */
  lemma ErrorTextExamples()
    ensures ErrorText(UnsupportedMachineType(V8_0, E2Micro))
            == "MongoDB " + "MongoDBVersion.V8_0" + "은 머신 타입 " + "MachineType.E2_MICRO" + "을 지원하지 않습니다. "
               + "지원 타입: " + MachineTypeList([E2Standard2, E2Standard4, N2Standard2, N2Standard4])
    ensures ErrorText(StandardDiskOn8("node1"))
            == "MongoDB " + "8.0의 성능 최적화를 위해 SSD 디스크(pd-ssd) 사용 권장. 노드 " + "node1" + ": " + "DiskType.PD_STANDARD"
  {
    assert VersionStr(V8_0) == "MongoDBVersion.V8_0";
    assert MachineTypeStr(E2Micro) == "MachineType.E2_MICRO";
    assert DiskTypeStr(PdStandard) == "DiskType.PD_STANDARD";
  }

  function RecommendationText(r: Recommendation): string {
    match r
    case SpreadZones(k) => "고가용성을 위해 3개 이상의 가용성 존에 분산 배치 권장. 현재: " + NatToString(k) + "개 존"
    case UseSsd(k) =>
      "성능 향상을 위해 SSD 디스크(pd-ssd 또는 pd-balanced) 사용 권장. " + "표준 디스크 사용 노드: " + NatToString(k) + "개"
    case MoreMemory(total) => "대용량 데이터 처리를 위해 총 메모리 24GB 이상 권장. 현재: " + NatToString(total) + "GB"
    case UpgradeTo8 => "최신 기능 및 성능 향상을 위해 MongoDB 8.0 사용 권장"
  }

  // ---- Reference definitions ----

  /** The errors one member raises: an unsupported machine type, memory
      below the minimum (for types with a table entry) and a small disk, in
      that order. */
  function MemberErrors(v: MongoDBVersion, m: ReplicaSetMember): seq<ValidationError>
  {
    var req := Requirements(v);
    var spec := MachineSpecOf(m.machineType);
    (if m.machineType !in req.supportedMachineTypes then [UnsupportedMachineType(v, m.machineType)] else [])
    + (if spec.Some? && spec.value.memoryGb < req.minMemoryGb then [InsufficientMemory(v, m.machineType, SpecMemory(spec))] else [])
    + (if m.diskSize < req.minDiskGb then [InsufficientDisk(v, m.name, m.diskSize)] else [])
  }

  /** What `MemberErrors` holds: the machine-type error exactly when the
      type is outside the version's list, the disk error exactly when the
      disk is under 20 GB, and never a memory error. */
  lemma MemberErrorsMeaning(v: MongoDBVersion, m: ReplicaSetMember)
    ensures var r := MemberErrors(v, m);
            && (UnsupportedMachineType(v, m.machineType) in r <==> m.machineType !in Requirements(v).supportedMachineTypes)
            && (InsufficientDisk(v, m.name, m.diskSize) in r <==> m.diskSize < 20)
            && (forall e :: e in r ==> !e.InsufficientMemory?)
            && |r| == (if m.machineType in Requirements(v).supportedMachineTypes then 0 else 1) + (if m.diskSize < 20 then 1 else 0)
  {
    var spec := MachineSpecOf(m.machineType);
    assert !(spec.Some? && spec.value.memoryGb < Requirements(v).minMemoryGb) by {
      match m.machineType
      case E2Micro => case E2Small => case E2Medium => case E2Standard2 =>
      case E2Standard4 => case N2Standard2 => case N2Standard4 =>
    }
  }

  /** The per-member errors of all members, member by member. */
  function AllMemberErrors(v: MongoDBVersion, ms: seq<ReplicaSetMember>): seq<ValidationError> {
    if ms == [] then [] else AllMemberErrors(v, ms[..|ms| - 1]) + MemberErrors(v, ms[|ms| - 1])
  }

  lemma AllMemberErrorsStep(v: MongoDBVersion, ms: seq<ReplicaSetMember>, i: nat)
    requires i < |ms|
    ensures AllMemberErrors(v, ms[..i + 1]) == AllMemberErrors(v, ms[..i]) + MemberErrors(v, ms[i])
  {
    assert ms[..i + 1][..i] == ms[..i];
  }

  /** Appending a member's errors one check at a time appends
      `MemberErrors`. */
  lemma MemberErrorsAppended(v: MongoDBVersion, m: ReplicaSetMember, before: seq<ValidationError>, after: seq<ValidationError>)
    requires var req := Requirements(v);
             var spec := MachineSpecOf(m.machineType);
             after == before
                      + (if m.machineType !in req.supportedMachineTypes then [UnsupportedMachineType(v, m.machineType)] else [])
                      + (if spec.Some? && spec.value.memoryGb < req.minMemoryGb then [InsufficientMemory(v, m.machineType, SpecMemory(spec))] else [])
                      + (if m.diskSize < req.minDiskGb then [InsufficientDisk(v, m.name, m.diskSize)] else [])
    ensures after == before + MemberErrors(v, m)
  {
  }

  function CpuErrors(ms: seq<ReplicaSetMember>): seq<ValidationError> {
    if ms == [] then []
    else
      var m := ms[|ms| - 1];
      var spec := MachineSpecOf(m.machineType);
      CpuErrors(ms[..|ms| - 1]) + (if spec.Some? && spec.value.cpu < 2 then [LowCpu(m.name, SpecCpu(spec))] else [])
  }

  function StandardDiskErrors(ms: seq<ReplicaSetMember>): seq<ValidationError> {
    if ms == [] then []
    else StandardDiskErrors(ms[..|ms| - 1]) + (if ms[|ms| - 1].diskType == PdStandard then [StandardDiskOn8(ms[|ms| - 1].name)] else [])
  }

  function VersionSpecificErrors(v: MongoDBVersion, ms: seq<ReplicaSetMember>): seq<ValidationError> {
    match v
    case V7_0 => CpuErrors(ms)
    case V8_0 => (if |ms| > 7 then [LargeSetOn8] else []) + StandardDiskErrors(ms)
  }

  function StandardDiskCount(ms: seq<ReplicaSetMember>): nat {
    if ms == [] then 0 else StandardDiskCount(ms[..|ms| - 1]) + (if ms[|ms| - 1].diskType == PdStandard then 1 else 0)
  }

  /** The memory of every member whose type has a table entry, summed. */
  function TotalSpecMemory(ms: seq<ReplicaSetMember>): nat {
    if ms == [] then 0
    else
      var spec := MachineSpecOf(ms[|ms| - 1].machineType);
      TotalSpecMemory(ms[..|ms| - 1]) + (if spec.Some? then spec.value.memoryGb else 0)
  }

  function PerformanceRecommendations(v: MongoDBVersion, ms: seq<ReplicaSetMember>): seq<Recommendation> {
    RecommendationsFor(v, |ms|, |ZoneSet(ms)|, StandardDiskCount(ms), TotalSpecMemory(ms))
  }

  /** The recommendations given the member count, the number of distinct
      zones, the standard-disk count and the summed spec memory. */
  function RecommendationsFor(v: MongoDBVersion, members: nat, zones: nat, standard: nat, memory: nat): seq<Recommendation> {
    (if zones < 3 && members >= 3 then [SpreadZones(zones)] else [])
    + (if standard > 0 then [UseSsd(standard)] else [])
    + (if memory < 24 then [MoreMemory(memory)] else [])
    + (if v == V7_0 then [UpgradeTo8] else [])
  }

  /** All errors of a configuration: a version outside the table stops at
      one error; otherwise the member errors, the size error and the
      version-specific errors, in that order. */
  function Errors(c: ReplicaSetConfig): seq<ValidationError> {
    match ParseVersion(c.mongodbVersion)
    case None => [UnsupportedVersion(c.mongodbVersion)]
    case Some(v) =>
      AllMemberErrors(v, c.members)
      + (if |c.members| > Requirements(v).maxReplicaSetSize then [TooManyMembers(v, |c.members|)] else [])
      + VersionSpecificErrors(v, c.members)
  }

  function Warnings(c: ReplicaSetConfig): seq<Recommendation> {
    match ParseVersion(c.mongodbVersion)
    case None => []
    case Some(v) => PerformanceRecommendations(v, c.members)
  }

  function ErrorTexts(es: seq<ValidationError>): (r: seq<string>)
    ensures |r| == |es|
  {
    seq(|es|, i requires 0 <= i < |es| => ErrorText(es[i]))
  }

  function WarningTexts(ws: seq<Recommendation>): (r: seq<string>)
    ensures |r| == |ws|
  {
    seq(|ws|, i requires 0 <= i < |ws| => "WARNING: " + RecommendationText(ws[i]))
  }

  /** The message list a configuration yields: error texts, then prefixed
      warning texts. */
  function Messages(c: ReplicaSetConfig): seq<string> {
    ErrorTexts(Errors(c)) + WarningTexts(Warnings(c))
  }

  // ---- The validator as the source runs it ----

  /** `validate_mongodb_version` */
  method ValidateMongodbVersion(c: ReplicaSetConfig) returns (ok: bool, messages: seq<string>)
    ensures ok <==> Errors(c) == []
    ensures messages == Messages(c)
  {
    var version := ParseVersion(c.mongodbVersion);
    if version.None? {
      assert Errors(c) == [UnsupportedVersion(c.mongodbVersion)] && Warnings(c) == [];
      assert ErrorTexts(Errors(c)) == [ErrorText(UnsupportedVersion(c.mongodbVersion))];
      return false, [ErrorText(UnsupportedVersion(c.mongodbVersion))];
    }
    var v := version.value;
    var req := Requirements(v);
    var errors := CheckMembers(c.members, v);
    if |c.members| > req.maxReplicaSetSize {
      errors := errors + [TooManyMembers(v, |c.members|)];
    }
    var specific := ValidateVersionSpecific(c.members, v);
    errors := errors + specific;
    var warnings := GetPerformanceRecommendations(c.members, v);
    assert errors == Errors(c) && warnings == Warnings(c);
    ok := |errors| == 0;
    messages := ErrorTexts(errors) + WarningTexts(warnings);
  }

  /** The loop over the members in `validate_mongodb_version`. */
  method CheckMembers(ms: seq<ReplicaSetMember>, v: MongoDBVersion) returns (errors: seq<ValidationError>)
    ensures errors == AllMemberErrors(v, ms)
  {
    var req := Requirements(v);
    errors := [];
    var i := 0;
    while i < |ms|
      invariant 0 <= i <= |ms|
      invariant errors == AllMemberErrors(v, ms[..i])
    {
      var m := ms[i];
      AllMemberErrorsStep(v, ms, i);
      ghost var before := errors;
      if m.machineType !in req.supportedMachineTypes {
        errors := errors + [UnsupportedMachineType(v, m.machineType)];
      }
      var spec := MachineSpecOf(m.machineType);
      if spec.Some? && spec.value.memoryGb < req.minMemoryGb {
        errors := errors + [InsufficientMemory(v, m.machineType, SpecMemory(spec))];
      }
      if m.diskSize < req.minDiskGb {
        errors := errors + [InsufficientDisk(v, m.name, m.diskSize)];
      }
      MemberErrorsAppended(v, m, before, errors);
      i := i + 1;
    }
    assert ms[..|ms|] == ms;
  }

  /** `_validate_version_specific` */
  method ValidateVersionSpecific(ms: seq<ReplicaSetMember>, v: MongoDBVersion) returns (errors: seq<ValidationError>)
    ensures errors == VersionSpecificErrors(v, ms)
  {
    errors := [];
    if v == V7_0 {
      var i := 0;
      while i < |ms|
        invariant 0 <= i <= |ms|
        invariant errors == CpuErrors(ms[..i])
      {
        assert ms[..i + 1][..i] == ms[..i];
        var m := ms[i];
        var spec := MachineSpecOf(m.machineType);
        if spec.Some? && spec.value.cpu < 2 {
          errors := errors + [LowCpu(m.name, SpecCpu(spec))];
        }
        i := i + 1;
      }
      assert ms[..|ms|] == ms;
    } else {
      if |ms| > 7 {
        errors := errors + [LargeSetOn8];
      }
      var i := 0;
      while i < |ms|
        invariant 0 <= i <= |ms|
        invariant errors == (if |ms| > 7 then [LargeSetOn8] else []) + StandardDiskErrors(ms[..i])
      {
        assert ms[..i + 1][..i] == ms[..i];
        if ms[i].diskType == PdStandard {
          errors := errors + [StandardDiskOn8(ms[i].name)];
        }
        i := i + 1;
      }
      assert ms[..|ms|] == ms;
    }
  }

  /** `_get_performance_recommendations` */
  method GetPerformanceRecommendations(ms: seq<ReplicaSetMember>, v: MongoDBVersion) returns (recommendations: seq<Recommendation>)
    ensures recommendations == PerformanceRecommendations(v, ms)
  {
    recommendations := [];
    var uniqueZones := ZoneSet(ms);
    if |uniqueZones| < 3 && |ms| >= 3 {
      recommendations := recommendations + [SpreadZones(|uniqueZones|)];
    }
    var standardDiskCount := StandardDiskCount(ms);
    if standardDiskCount > 0 {
      recommendations := recommendations + [UseSsd(standardDiskCount)];
    }
    var totalMemory := 0;
    var i := 0;
    while i < |ms|
      invariant 0 <= i <= |ms|
      invariant totalMemory == TotalSpecMemory(ms[..i])
    {
      assert ms[..i + 1][..i] == ms[..i];
      var spec := MachineSpecOf(ms[i].machineType);
      if spec.Some? {
        totalMemory := totalMemory + spec.value.memoryGb;
      }
      i := i + 1;
    }
    assert ms[..|ms|] == ms;
    if totalMemory < 24 {
      recommendations := recommendations + [MoreMemory(totalMemory)];
    }
    if v == V7_0 {
      recommendations := recommendations + [UpgradeTo8];
    }
  }

  // ---- Properties of the validator ----

  /** A version outside the table yields one error and nothing else. */
  lemma UnsupportedVersionStops(c: ReplicaSetConfig)
    requires c.mongodbVersion != "7.0" && c.mongodbVersion != "8.0"
    ensures Errors(c) == [UnsupportedVersion(c.mongodbVersion)]
    ensures Messages(c) == ["지원하지 않는 MongoDB 버전: " + c.mongodbVersion + ". 지원 버전: 7.0, 8.0"]
  {
  }

  /** The verdict is true exactly when every message is a warning: warnings
      never affect it. */
  lemma OkIffOnlyWarnings(c: ReplicaSetConfig)
    ensures Errors(c) == [] <==> forall k :: 0 <= k < |Messages(c)| ==> StartsWith(Messages(c)[k], "WARNING: ")
  {
    var ms := Messages(c);
    assert ms == ErrorTexts(Errors(c)) + WarningTexts(Warnings(c));
    OnlyWarnings(Errors(c), Warnings(c));
  }

  lemma NotWarning(t: string)
    requires |t| > 0 && t[0] != 'W'
    ensures !StartsWith(t, "WARNING: ")
  {
    if |t| >= 9 {
      assert t[..9][0] == t[0];
    }
  }

  lemma OnlyWarnings(es: seq<ValidationError>, ws: seq<Recommendation>)
    ensures var ms := ErrorTexts(es) + WarningTexts(ws);
            es == [] <==> forall k :: 0 <= k < |ms| ==> StartsWith(ms[k], "WARNING: ")
  {
    var ms := ErrorTexts(es) + WarningTexts(ws);
    if es != [] {
      assert ms[0] == ErrorText(es[0]);
      NotWarning(ms[0]);
    } else {
      forall k | 0 <= k < |ms| ensures StartsWith(ms[k], "WARNING: ") {
        assert ms[k] == "WARNING: " + RecommendationText(ws[k]);
      }
    }
  }

  /** Under 7.0 the CPU rule never fires: every table entry has 2 or more
      vCPUs. */
  lemma {:induction false} CpuRuleNeverFires(ms: seq<ReplicaSetMember>)
    ensures CpuErrors(ms) == []
  {
    if ms != [] {
      CpuRuleNeverFires(ms[..|ms| - 1]);
    }
  }

  /** The memory rule never fires for either version either: every type with
      a table entry has at least 4 GB, and 4 GB is the largest minimum. */
  lemma {:induction false} MemoryRuleNeverFires(v: MongoDBVersion, ms: seq<ReplicaSetMember>)
    ensures forall e :: e in AllMemberErrors(v, ms) ==> !e.InsufficientMemory?
  {
    if ms != [] {
      MemoryRuleNeverFires(v, ms[..|ms| - 1]);
    }
  }

  /** How many members satisfy `p`, counted member by member. */
  function CountWhere(ms: seq<ReplicaSetMember>, p: ReplicaSetMember -> bool): nat {
    if ms == [] then 0 else CountWhere(ms[..|ms| - 1], p) + (if p(ms[|ms| - 1]) then 1 else 0)
  }

  function IndicesWhere(ms: seq<ReplicaSetMember>, p: ReplicaSetMember -> bool): set<nat> {
    set i: nat | i < |ms| && p(ms[i])
  }

  lemma {:induction false} CountWhereIsSize(ms: seq<ReplicaSetMember>, p: ReplicaSetMember -> bool)
    ensures CountWhere(ms, p) == |IndicesWhere(ms, p)|
  {
    if ms != [] {
      var n := |ms| - 1;
      CountWhereIsSize(ms[..n], p);
      if p(ms[n]) {
        assert IndicesWhere(ms, p) == IndicesWhere(ms[..n], p) + {n};
      } else {
        assert IndicesWhere(ms, p) == IndicesWhere(ms[..n], p);
      }
    }
  }

  predicate Unsupported(v: MongoDBVersion, m: ReplicaSetMember) {
    m.machineType !in Requirements(v).supportedMachineTypes
  }

  predicate SmallDisk(m: ReplicaSetMember) {
    m.diskSize < 20
  }

  lemma {:induction false} MemberErrorCountRec(v: MongoDBVersion, ms: seq<ReplicaSetMember>)
    ensures |AllMemberErrors(v, ms)| == CountWhere(ms, m => Unsupported(v, m)) + CountWhere(ms, SmallDisk)
  {
    if ms != [] {
      MemberErrorCountRec(v, ms[..|ms| - 1]);
      MemberErrorsMeaning(v, ms[|ms| - 1]);
    }
  }

  /** One error per member on an unsupported type plus one per member with
      a disk below 20 GB, and no others. */
  lemma MemberErrorCount(v: MongoDBVersion, ms: seq<ReplicaSetMember>)
    ensures |AllMemberErrors(v, ms)| ==
              |set i: nat | i < |ms| && Unsupported(v, ms[i])| + |set i: nat | i < |ms| && SmallDisk(ms[i])|
  {
    MemberErrorCountRec(v, ms);
    CountWhereIsSize(ms, m => Unsupported(v, m));
    CountWhereIsSize(ms, SmallDisk);
    assert IndicesWhere(ms, m => Unsupported(v, m)) == set i: nat | i < |ms| && Unsupported(v, ms[i]);
    assert IndicesWhere(ms, SmallDisk) == set i: nat | i < |ms| && SmallDisk(ms[i]);
  }

  /** Each membership of an error in the per-member list points at a member
      that raises it. */
  lemma {:induction false} MemberErrorsFromMembers(v: MongoDBVersion, ms: seq<ReplicaSetMember>, e: ValidationError)
    requires e in AllMemberErrors(v, ms)
    ensures exists i :: 0 <= i < |ms| && e in MemberErrors(v, ms[i])
  {
    var n := |ms| - 1;
    if e in AllMemberErrors(v, ms[..n]) {
      MemberErrorsFromMembers(v, ms[..n], e);
      var i :| 0 <= i < n && e in MemberErrors(v, ms[..n][i]);
      assert ms[..n][i] == ms[i];
    } else {
      assert e in MemberErrors(v, ms[n]);
    }
  }

  lemma {:induction false} StandardDiskErrorCount(ms: seq<ReplicaSetMember>)
    ensures |StandardDiskErrors(ms)| == StandardDiskCount(ms)
    ensures StandardDiskCount(ms) > 0 <==> exists i :: 0 <= i < |ms| && ms[i].diskType == PdStandard
  {
    if ms != [] {
      var n := |ms| - 1;
      StandardDiskErrorCount(ms[..n]);
      if StandardDiskCount(ms[..n]) > 0 {
        var i :| 0 <= i < n && ms[..n][i].diskType == PdStandard;
        assert ms[i].diskType == PdStandard;
      }
      if exists i :: 0 <= i < |ms| && ms[i].diskType == PdStandard {
        var i :| 0 <= i < |ms| && ms[i].diskType == PdStandard;
        if i < n { assert ms[..n][i].diskType == PdStandard; }
      }
    }
  }

  /** Under 8.0 more than 7 members, or any standard disk, is an error and
      blocks the verdict. */
  lemma Version8RulesBlock(c: ReplicaSetConfig)
    requires c.mongodbVersion == "8.0"
    requires |c.members| > 7 || exists i :: 0 <= i < |c.members| && c.members[i].diskType == PdStandard
    ensures Errors(c) != []
  {
    StandardDiskErrorCount(c.members);
  }

  /** Under 8.0 the standard-disk errors are one per standard-disk member,
      and they come after the member errors and the size error. */
  lemma Version8StandardDiskErrors(c: ReplicaSetConfig)
    requires c.mongodbVersion == "8.0"
    ensures |Errors(c)| == |set i: nat | i < |c.members| && Unsupported(V8_0, c.members[i])|
                          + |set i: nat | i < |c.members| && SmallDisk(c.members[i])|
                          + (if |c.members| > 50 then 1 else 0) + (if |c.members| > 7 then 1 else 0)
                          + StandardDiskCount(c.members)
  {
    MemberErrorCount(V8_0, c.members);
    StandardDiskErrorCount(c.members);
  }

  /** Under 7.0, the errors are only the member errors and the size error. */
  lemma Version7ErrorCount(c: ReplicaSetConfig)
    requires c.mongodbVersion == "7.0"
    ensures |Errors(c)| == |set i: nat | i < |c.members| && Unsupported(V7_0, c.members[i])|
                          + |set i: nat | i < |c.members| && SmallDisk(c.members[i])| + (if |c.members| > 50 then 1 else 0)
  {
    MemberErrorCount(V7_0, c.members);
    CpuRuleNeverFires(c.members);
  }

  function RecommendationRank(r: Recommendation): nat {
    match r
    case SpreadZones(_) => 0
    case UseSsd(_) => 1
    case MoreMemory(_) => 2
    case UpgradeTo8 => 3
  }

  /** The recommendations appear in a fixed order, so each at most once. */
  lemma RecommendationsOrdered(v: MongoDBVersion, ms: seq<ReplicaSetMember>)
    ensures forall i, j :: 0 <= i < j < |PerformanceRecommendations(v, ms)| ==>
              RecommendationRank(PerformanceRecommendations(v, ms)[i]) < RecommendationRank(PerformanceRecommendations(v, ms)[j])
  {
  }

  lemma RecommendationsForConditions(v: MongoDBVersion, members: nat, zones: nat, standard: nat, memory: nat)
    ensures var rs := RecommendationsFor(v, members, zones, standard, memory);
            && ((exists k :: SpreadZones(k) in rs) <==> zones < 3 && members >= 3)
            && ((exists k :: UseSsd(k) in rs) <==> standard > 0)
            && ((exists k :: MoreMemory(k) in rs) <==> memory < 24)
            && (UpgradeTo8 in rs <==> v == V7_0)
  {
    var rs := RecommendationsFor(v, members, zones, standard, memory);
    if zones < 3 && members >= 3 { assert SpreadZones(zones) in rs; }
    if standard > 0 { assert UseSsd(standard) in rs; }
    if memory < 24 { assert MoreMemory(memory) in rs; }
  }

  /** Each recommendation appears exactly when its condition holds. */
  lemma RecommendationConditions(v: MongoDBVersion, ms: seq<ReplicaSetMember>)
    ensures (exists k :: SpreadZones(k) in PerformanceRecommendations(v, ms)) <==> |ZoneSet(ms)| < 3 && |ms| >= 3
    ensures (exists k :: UseSsd(k) in PerformanceRecommendations(v, ms)) <==>
              exists i :: 0 <= i < |ms| && ms[i].diskType == PdStandard
    ensures (exists k :: MoreMemory(k) in PerformanceRecommendations(v, ms)) <==> TotalSpecMemory(ms) < 24
    ensures UpgradeTo8 in PerformanceRecommendations(v, ms) <==> v == V7_0
  {
    StandardDiskErrorCount(ms);
    RecommendationsForConditions(v, |ms|, |ZoneSet(ms)|, StandardDiskCount(ms), TotalSpecMemory(ms));
  }

  // ---- Table lookups ----

  function GetSupportedVersions(): (r: seq<MongoDBVersion>)
    ensures V7_0 in r && V8_0 in r && |r| == 2
    ensures r[0] == V7_0 && r[1] == V8_0
  {
    [V7_0, V8_0]
  }

  /** The recommended version is the one the table marks recommended. */
  function GetRecommendedVersion(): (r: MongoDBVersion)
    ensures Requirements(r).recommended
    ensures forall v :: Requirements(v).recommended ==> v == r
  {
    assert !Requirements(V7_0).recommended;
    V8_0
  }

  datatype Suggestion = Suggestion(mongodbVersion: MongoDBVersion, machineType: MachineType, diskSize: nat, memberCount: nat)

  /** The suggested shape for a data-size hint; an unknown hint gets the
      "medium" entry. The source's default hint is "small". */
  function SuggestOptimalConfiguration(hint: string): (r: Suggestion)
    ensures hint != "small" && hint != "large" ==> r.diskSize == 100 && r.memberCount == 3
    ensures r.mongodbVersion == GetRecommendedVersion()
    ensures r.machineType in Requirements(r.mongodbVersion).supportedMachineTypes
    ensures r.diskSize >= Requirements(r.mongodbVersion).minDiskGb && r.memberCount % 2 == 1
  {
    if hint == "small" then Suggestion(V8_0, E2Standard2, 50, 3)
    else if hint == "large" then Suggestion(V8_0, E2Standard4, 200, 5)
    else Suggestion(V8_0, E2Standard2, 100, 3)
  }

  /** The three entries of the table, and the fallback: an unknown hint gets
      exactly the "medium" entry. A larger hint never gets a smaller disk, a
      smaller machine or fewer members. */
  lemma SuggestionTable(hint: string)
    ensures SuggestOptimalConfiguration("small") == Suggestion(V8_0, E2Standard2, 50, 3)
    ensures SuggestOptimalConfiguration("medium") == Suggestion(V8_0, E2Standard2, 100, 3)
    ensures SuggestOptimalConfiguration("large") == Suggestion(V8_0, E2Standard4, 200, 5)
    ensures hint != "small" && hint != "large" ==> SuggestOptimalConfiguration(hint) == SuggestOptimalConfiguration("medium")
    ensures var s, m, l := SuggestOptimalConfiguration("small"), SuggestOptimalConfiguration("medium"), SuggestOptimalConfiguration("large");
            && s.diskSize < m.diskSize < l.diskSize && s.memberCount <= m.memberCount < l.memberCount
            && SpecMemory(MachineSpecOf(s.machineType)) <= SpecMemory(MachineSpecOf(m.machineType)) < SpecMemory(MachineSpecOf(l.machineType))
  {
  }
}
