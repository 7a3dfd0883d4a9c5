/** The pure helpers of the Terraform service: the `terraform.tfvars` text
    rendered from a configuration (with a reader for its member blocks, to
    show that nothing is lost in rendering), the argument lists of the
    Terraform commands, the outputs rule, and the topology and connection
    string built from the Terraform outputs. */
module TerraformRender {
  import opened Wrappers
  import opened Strings
  import opened Regex
  import opened ReplicaSetModel

  // ---- Rendering values ----

  /** Python's `str(b).lower()`. */
  function BoolLiteral(b: bool): string {
    if b then "true" else "false"
  }

  /** Python's `str(x)` of the float priority; the model's priorities are
      whole numbers, which Python prints with a trailing `.0`. */
  function PriorityText(p: int): string {
    IntToString(p) + ".0"
  }

  function Quoted(s: string): string {
    "\"" + s + "\""
  }

  /** Python's f-string rendering of an optional string: `None` prints as
      `None`. */
  function OptionalText(o: Option<string>): string {
    match o
    case Some(s) => s
    case None => "None"
  }

  /** The left-hand side of each line of a member block, keys padded to
      the same column. */
  const FieldPrefixes: seq<string> := [
    "    name         = ",
    "    role         = ",
    "    zone         = ",
    "    machine_type = ",
    "    disk_size    = ",
    "    disk_type    = ",
    "    priority     = ",
    "    votes        = ",
    "    arbiter_only = ",
    "    hidden       = ",
    "    slave_delay  = "]

  const PrefixLength: nat := 19

  lemma FieldPrefixesShape()
    ensures |FieldPrefixes| == 11
    ensures forall i :: 0 <= i < 11 ==> |FieldPrefixes[i]| == PrefixLength && '\n' !in FieldPrefixes[i] && ',' !in FieldPrefixes[i]
  {
  }

  /** The value of each member field as the block writes it: strings
      quoted, enumeration members by value, booleans in lower case. */
  function MemberValues(m: ReplicaSetMember): (vs: seq<string>)
    ensures |vs| == 11
  {
    [Quoted(m.name), Quoted(RoleValue(m.role)), Quoted(m.zone), Quoted(MachineTypeValue(m.machineType)),
     IntToString(m.diskSize), Quoted(DiskTypeValue(m.diskType)), PriorityText(m.priority),
     IntToString(m.votes), BoolLiteral(m.arbiterOnly), BoolLiteral(m.hidden), IntToString(m.slaveDelay)]
  }

  function MemberLines(m: ReplicaSetMember): (ls: seq<string>)
    ensures |ls| == 11
  {
    seq(11, i requires 0 <= i < 11 => FieldPrefixes[i] + MemberValues(m)[i])
  }

  /** One `{ ... }` block of the `members` list. */
  function MemberBlock(m: ReplicaSetMember): string {
    "  {\n" + Join(MemberLines(m), "\n") + "\n  }"
  }

  /** The labels value: `{}` when there are none, otherwise one
      `key = "value"` line per label, in insertion order. */
  function LabelsText(labels: seq<(string, string)>): string {
    if labels == [] then "{}"
    else "{\n" + Join(LabelLines(labels), "\n") + "\n  }"
  }

  function LabelLines(labels: seq<(string, string)>): (ls: seq<string>)
    ensures |ls| == |labels|
  {
    seq(|labels|, i requires 0 <= i < |labels| => "    " + labels[i].0 + " = " + Quoted(labels[i].1))
  }

  /** The whole `terraform.tfvars` text, given the member blocks and the
      labels text. */
  function TfvarsDocument(c: ReplicaSetConfig, blocks: seq<string>, labelsText: string): string {
    "# GCP 기본 설정\n"
    + "project_id  = " + Quoted(c.projectId) + "\n"
    + "region      = " + Quoted(c.region) + "\n"
    + "environment = \"prod\"\n"
    + "\n"
    + "# ReplicaSet 설정\n"
    + "replica_set_name = " + Quoted(c.replicaSetName) + "\n"
    + "mongodb_version  = " + Quoted(c.mongodbVersion) + "\n"
    + "\n"
    + "# 네트워크 설정\n"
    + "subnet_cidr         = " + Quoted(c.network.subnetCidr) + "\n"
    + "mongodb_port        = " + IntToString(c.network.mongodbPort) + "\n"
    + "ssh_allowed_sources = [" + Quoted(Join(c.network.allowedSources, "\", \"")) + "]\n"
    + "\n"
    + "# VM 설정\n"
    + "vm_image               = \"ubuntu-os-cloud/ubuntu-2204-lts\"\n"
    + "service_account_email  = \"\"\n"
    + "\n"
    + "# MongoDB 멤버 설정\n"
    + "members = [\n"
    + Join(blocks, ",") + "\n"
    + "]\n"
    + "\n"
    + "# MongoDB 인증 설정\n"
    + "auth_enabled    = " + BoolLiteral(c.authEnabled) + "\n"
    + "keyfile_content = " + Quoted(OptionalText(c.keyfileContent)) + "\n"
    + "root_password   = " + Quoted(c.rootPassword) + "\n"
    + "\n"
    + "# 백업 설정\n"
    + "backup_enabled       = " + BoolLiteral(c.backupEnabled) + "\n"
    + "backup_schedule      = " + Quoted(c.backupSchedule) + "\n"
    + "backup_retention_days = " + IntToString(c.backupRetentionDays) + "\n"
    + "\n"
    + "# 라벨 설정\n"
    + "labels = " + labelsText + "\n"
  }

  function MemberBlocks(ms: seq<ReplicaSetMember>): (bs: seq<string>)
    ensures |bs| == |ms|
    ensures forall i :: 0 <= i < |ms| ==> bs[i] == MemberBlock(ms[i])
  {
    seq(|ms|, i requires 0 <= i < |ms| => MemberBlock(ms[i]))
  }

  /** The text `_generate_tfvars` returns for a configuration. */
  function TfvarsText(c: ReplicaSetConfig): string {
    TfvarsDocument(c, MemberBlocks(c.members), LabelsText(c.labels))
  }

  /** `_generate_tfvars`: the member blocks and the label lines are
      collected in loops, then substituted into the document. */
  method GenerateTfvars(c: ReplicaSetConfig) returns (text: string)
    ensures text == TfvarsText(c)
  {
    var membersList: seq<string> := [];
    var i := 0;
    while i < |c.members|
      invariant 0 <= i <= |c.members|
      invariant membersList == MemberBlocks(c.members[..i])
    {
      membersList := membersList + [MemberBlock(c.members[i])];
      i := i + 1;
    }
    assert c.members[..|c.members|] == c.members;
    var labelsDict: seq<string> := [];
    var k := 0;
    while k < |c.labels|
      invariant 0 <= k <= |c.labels|
      invariant labelsDict == LabelLines(c.labels[..k])
    {
      labelsDict := labelsDict + ["    " + c.labels[k].0 + " = " + Quoted(c.labels[k].1)];
      k := k + 1;
    }
    assert c.labels[..|c.labels|] == c.labels;
    var labelsStr := if labelsDict != [] then "{\n" + Join(labelsDict, "\n") + "\n  }" else "{}";
    text := TfvarsDocument(c, membersList, labelsStr);
  }

  /** An empty allowed-sources list still renders a one-element list
      holding the empty string. */
  lemma EmptySourcesRenderEmptyString(c: ReplicaSetConfig)
    requires c.network.allowedSources == []
    ensures Quoted(Join(c.network.allowedSources, "\", \"")) == "\"\""
  {
  }

  /** A request that leaves out the keyfile, with authentication on,
      keeps `None`, which the tfvars line renders as the string `"None"`. */
  lemma OmittedKeyfileRenderedAsNone(draw: nat -> nat)
    ensures var k := KeyfileAsWritten(true, None, draw);
            k.Success? && Quoted(OptionalText(k.value)) == "\"None\""
  {
  }

  // ---- Reading member blocks back ----

  function Unquote(s: string): Option<string> {
    if |s| >= 2 && s[0] == '"' && s[|s| - 1] == '"' then Some(s[1..|s| - 1]) else None
  }

  /** Reads an optional minus sign followed by decimal digits. */
  function ParseInt(s: string): Option<int> {
    if |s| >= 2 && s[0] == '-' && AllDigits(s[1..]) then Some(0 - DigitsValue(s[1..]))
    else if |s| >= 1 && AllDigits(s) then Some(DigitsValue(s))
    else None
  }

  function ParsePriority(s: string): Option<int> {
    if |s| >= 2 && s[|s| - 2..] == ".0" then ParseInt(s[..|s| - 2]) else None
  }

  function ParseBool(s: string): Option<bool> {
    if s == "true" then Some(true) else if s == "false" then Some(false) else None
  }

  function ParseRole(s: string): Option<NodeRole> {
    if s == Quoted("primary") then Some(Primary)
    else if s == Quoted("secondary") then Some(Secondary)
    else if s == Quoted("arbiter") then Some(Arbiter)
    else None
  }

  function ParseMachineType(s: string): Option<MachineType> {
    if s == Quoted("e2-micro") then Some(E2Micro)
    else if s == Quoted("e2-small") then Some(E2Small)
    else if s == Quoted("e2-medium") then Some(E2Medium)
    else if s == Quoted("e2-standard-2") then Some(E2Standard2)
    else if s == Quoted("e2-standard-4") then Some(E2Standard4)
    else if s == Quoted("n2-standard-2") then Some(N2Standard2)
    else if s == Quoted("n2-standard-4") then Some(N2Standard4)
    else None
  }

  function ParseDiskType(s: string): Option<DiskType> {
    if s == Quoted("pd-standard") then Some(PdStandard)
    else if s == Quoted("pd-ssd") then Some(PdSsd)
    else if s == Quoted("pd-balanced") then Some(PdBalanced)
    else None
  }

  function ParseMemberValues(v: seq<string>): Option<ReplicaSetMember>
    requires |v| == 11
  {
    var name := Unquote(v[0]);
    var role := ParseRole(v[1]);
    var zone := Unquote(v[2]);
    var machineType := ParseMachineType(v[3]);
    var diskSize := ParseInt(v[4]);
    var diskType := ParseDiskType(v[5]);
    var priority := ParsePriority(v[6]);
    var votes := ParseInt(v[7]);
    var arbiterOnly := ParseBool(v[8]);
    var hidden := ParseBool(v[9]);
    var slaveDelay := ParseInt(v[10]);
    if && name.Some? && role.Some? && zone.Some? && machineType.Some? && diskSize.Some?
       && diskType.Some? && priority.Some? && votes.Some? && arbiterOnly.Some? && hidden.Some? && slaveDelay.Some?
    then Some(ReplicaSetMember(name.value, role.value, zone.value, machineType.value, diskSize.value,
                               diskType.value, priority.value, votes.value, arbiterOnly.value, hidden.value, slaveDelay.value))
    else None
  }

  predicate LinesHavePrefixes(lines: seq<string>)
    requires |lines| == 11
  {
    forall i :: 0 <= i < 11 ==> |lines[i]| >= PrefixLength && lines[i][..PrefixLength] == FieldPrefixes[i]
  }

  /** Reads one member block: the braces, eleven lines with the expected
      keys, and the values after them. */
  function ParseMemberBlock(t: string): Option<ReplicaSetMember> {
    if |t| < 8 || t[..4] != "  {\n" || t[|t| - 4..] != "\n  }" then None
    else
      var lines := Split(t[4..|t| - 4], '\n');
      if |lines| != 11 || !LinesHavePrefixes(lines) then None
      else ParseMemberValues(seq(11, i requires 0 <= i < 11 => lines[i][PrefixLength..]))
  }

  /** Reads the comma-separated member blocks of the `members` list. */
  function ParseMemberBlocks(t: string): Option<seq<ReplicaSetMember>> {
    if t == [] then Some([]) else ParseEach(Split(t, ','))
  }

  function ParseEach(pieces: seq<string>): Option<seq<ReplicaSetMember>> {
    if pieces == [] then Some([])
    else
      match (ParseMemberBlock(pieces[0]), ParseEach(pieces[1..]))
      case (Some(m), Some(rest)) => Some([m] + rest)
      case _ => None
  }

  // ---- The round trip ----

  lemma UnquoteQuoted(s: string)
    ensures Unquote(Quoted(s)) == Some(s)
  {
    assert Quoted(s)[1..|Quoted(s)| - 1] == s;
  }

  /** No newline and no comma: the two separators of the member list. */
  predicate Clean(s: string) {
    '\n' !in s && ',' !in s
  }

  lemma NatToStringNoSign(n: nat)
    ensures NatToString(n)[0] != '-' && Clean(NatToString(n))
  {
    var r := NatToString(n);
    forall i | 0 <= i < |r| ensures r[i] != '-' && r[i] != '\n' && r[i] != ',' {
      assert IsDigit(r[i]);
    }
  }

  lemma ParseIntRoundTrip(i: int)
    ensures ParseInt(IntToString(i)) == Some(i)
  {
    var s := IntToString(i);
    if i < 0 {
      NatToStringRoundTrip(-i);
      assert s[0] == '-' && s[1..] == NatToString(-i);
    } else {
      NatToStringNoSign(i);
      NatToStringRoundTrip(i);
    }
  }

  lemma IntToStringClean(i: int)
    ensures Clean(IntToString(i))
  {
    if i < 0 {
      NatToStringNoSign(-i);
      assert IntToString(i) == ['-'] + NatToString(-i);
    } else {
      NatToStringNoSign(i);
    }
  }

  lemma ParsePriorityRoundTrip(p: int)
    ensures ParsePriority(PriorityText(p)) == Some(p)
  {
    var s := PriorityText(p);
    assert s[|s| - 2..] == ".0";
    assert s[..|s| - 2] == IntToString(p);
    ParseIntRoundTrip(p);
  }

  lemma PriorityTextClean(p: int)
    ensures Clean(PriorityText(p))
  {
    IntToStringClean(p);
  }

  /** A member whose name and zone hold no newline and no comma: the two
      characters the block and list layouts use as separators. */
  predicate Renderable(m: ReplicaSetMember) {
    '\n' !in m.name && '\n' !in m.zone && ',' !in m.name && ',' !in m.zone
  }

  lemma ParseRoleRoundTrip(r: NodeRole)
    ensures ParseRole(Quoted(RoleValue(r))) == Some(r)
  {
    var q := Quoted(RoleValue(r));
    match r
    case Primary =>
    case Secondary =>
    case Arbiter => assert q != Quoted("primary") by { assert q[1] == 'a'; }
  }

  lemma ParseMachineTypeRoundTrip(t: MachineType)
    ensures ParseMachineType(Quoted(MachineTypeValue(t))) == Some(t)
  {
    var q := Quoted(MachineTypeValue(t));
    match t
    case E2Micro =>
    case E2Small => assert q != Quoted("e2-micro") by { assert q[4] == 's'; }
    case E2Medium =>
    case E2Standard2 =>
    case E2Standard4 => assert q != Quoted("e2-standard-2") by { assert q[13] == '4'; }
    case N2Standard2 =>
      assert q != Quoted("e2-standard-2") && q != Quoted("e2-standard-4") by { assert q[1] == 'n'; }
    case N2Standard4 =>
      assert q != Quoted("e2-standard-2") && q != Quoted("e2-standard-4") by { assert q[1] == 'n'; }
      assert q != Quoted("n2-standard-2") by { assert q[13] == '4'; }
  }

  lemma ParseDiskTypeRoundTrip(d: DiskType)
    ensures ParseDiskType(Quoted(DiskTypeValue(d))) == Some(d)
  {
    var q := Quoted(DiskTypeValue(d));
    match d
    case PdStandard =>
    case PdSsd =>
    case PdBalanced => assert q != Quoted("pd-standard") by { assert q[4] == 'b'; }
  }

  lemma MemberValuesRoundTrip(m: ReplicaSetMember)
    ensures ParseMemberValues(MemberValues(m)) == Some(m)
  {
    var v := MemberValues(m);
    UnquoteQuoted(m.name);
    UnquoteQuoted(m.zone);
    ParseIntRoundTrip(m.diskSize);
    ParseIntRoundTrip(m.votes);
    ParseIntRoundTrip(m.slaveDelay);
    ParsePriorityRoundTrip(m.priority);
    ParseRoleRoundTrip(m.role);
    ParseMachineTypeRoundTrip(m.machineType);
    ParseDiskTypeRoundTrip(m.diskType);
  }

  lemma QuotedClean(s: string)
    requires Clean(s)
    ensures Clean(Quoted(s))
  {
  }

  lemma EnumValuesClean(m: ReplicaSetMember)
    ensures Clean(RoleValue(m.role)) && Clean(MachineTypeValue(m.machineType)) && Clean(DiskTypeValue(m.diskType))
  {
    assert Clean(RoleValue(m.role)) by {
      match m.role case Primary => case Secondary => case Arbiter =>
    }
    assert Clean(MachineTypeValue(m.machineType)) by {
      match m.machineType
      case E2Micro => case E2Small => case E2Medium => case E2Standard2 =>
      case E2Standard4 => case N2Standard2 => case N2Standard4 =>
    }
    assert Clean(DiskTypeValue(m.diskType)) by {
      match m.diskType case PdStandard => case PdSsd => case PdBalanced =>
    }
  }

  lemma MemberValuesNoSeparators(m: ReplicaSetMember)
    requires Renderable(m)
    ensures forall i :: 0 <= i < 11 ==> Clean(MemberValues(m)[i])
  {
    IntToStringClean(m.diskSize);
    IntToStringClean(m.votes);
    IntToStringClean(m.slaveDelay);
    PriorityTextClean(m.priority);
    EnumValuesClean(m);
    QuotedClean(m.name);
    QuotedClean(m.zone);
    QuotedClean(RoleValue(m.role));
    QuotedClean(MachineTypeValue(m.machineType));
    QuotedClean(DiskTypeValue(m.diskType));
  }

  lemma MemberLinesShape(m: ReplicaSetMember)
    requires Renderable(m)
    ensures forall i :: 0 <= i < 11 ==> '\n' !in MemberLines(m)[i] && ',' !in MemberLines(m)[i]
    ensures forall i :: 0 <= i < 11 ==>
              |MemberLines(m)[i]| >= PrefixLength && MemberLines(m)[i][..PrefixLength] == FieldPrefixes[i]
              && MemberLines(m)[i][PrefixLength..] == MemberValues(m)[i]
  {
    FieldPrefixesShape();
    MemberValuesNoSeparators(m);
  }

  lemma {:induction false} JoinNoChar(parts: seq<string>, sep: string, c: char)
    requires c !in sep
    requires forall i :: 0 <= i < |parts| ==> c !in parts[i]
    ensures c !in Join(parts, sep)
  {
    if |parts| > 1 {
      JoinNoChar(parts[1..], sep, c);
    }
  }

  /** Reading a rendered member block gives back the member, field for
      field. */
  lemma MemberBlockRoundTrip(m: ReplicaSetMember)
    requires Renderable(m)
    ensures ParseMemberBlock(MemberBlock(m)) == Some(m)
  {
    var lines := MemberLines(m);
    var body := Join(lines, "\n");
    var t := MemberBlock(m);
    MemberLinesShape(m);
    MemberValuesRoundTrip(m);
    assert t[..4] == "  {\n";
    assert t[|t| - 4..] == "\n  }";
    assert t[4..|t| - 4] == body;
    SplitJoin(lines, '\n');
    assert Split(body, '\n') == lines;
    assert seq(11, i requires 0 <= i < 11 => lines[i][PrefixLength..]) == MemberValues(m);
  }

  /** A member block holds no comma, so the blocks of a list can be told
      apart at the commas. */
  lemma MemberBlockNoComma(m: ReplicaSetMember)
    requires Renderable(m)
    ensures ',' !in MemberBlock(m)
  {
    MemberLinesShape(m);
    JoinNoChar(MemberLines(m), "\n", ',');
  }

  lemma {:induction false} ParseEachBlocks(ms: seq<ReplicaSetMember>)
    requires forall i :: 0 <= i < |ms| ==> Renderable(ms[i])
    ensures ParseEach(MemberBlocks(ms)) == Some(ms)
  {
    if ms != [] {
      MemberBlockRoundTrip(ms[0]);
      ParseEachBlocks(ms[1..]);
      assert MemberBlocks(ms)[1..] == MemberBlocks(ms[1..]);
      assert [ms[0]] + ms[1..] == ms;
    }
  }

  /** The `members` list of the tfvars text reads back as the configured
      members, in order, field for field. */
  lemma MemberListRoundTrip(ms: seq<ReplicaSetMember>)
    requires forall i :: 0 <= i < |ms| ==> Renderable(ms[i])
    ensures ParseMemberBlocks(Join(MemberBlocks(ms), ",")) == Some(ms)
  {
    var bs := MemberBlocks(ms);
    if ms != [] {
      forall i | 0 <= i < |bs| ensures ',' !in bs[i] {
        MemberBlockNoComma(ms[i]);
      }
      assert |bs[0]| > 0 by { assert bs[0] == MemberBlock(ms[0]); }
      JoinNonEmpty(bs, ",");
      SplitJoin(bs, ',');
      ParseEachBlocks(ms);
    }
  }

  lemma JoinNonEmpty(parts: seq<string>, sep: string)
    requires |parts| >= 1 && |parts[0]| > 0
    ensures Join(parts, sep) != []
  {
    if |parts| > 1 {
      assert Join(parts, sep) == parts[0] + sep + Join(parts[1..], sep);
    }
  }

  lemma AllInExcludes(s: string, k: CharClass, c: char)
    requires AllIn(s, k) && !InClass(c, k)
    ensures c !in s
  {
    forall i | 0 <= i < |s| ensures s[i] != c {
      assert InClass(s[i], k);
    }
  }

  /** A zone holds letters, hyphens and decimal digits, and no decimal digit
      is a newline or a comma. */
  lemma ZoneChars(s: string)
    requires ZoneShape(s)
    ensures '\n' !in s && ',' !in s
  {
    var p, q :| 1 <= p && p + 2 <= q && q + 3 <= |s| && ZoneSplitAt(s, p, q);
    forall i | 0 <= i < |s| ensures s[i] != '\n' && s[i] != ',' {
      if i < p { assert s[i] == s[..p][i]; assert InClass(s[..p][i], LowerAlpha); }
      else if p < i < q { assert s[i] == s[p + 1..q][i - p - 1]; assert InClass(s[p + 1..q][i - p - 1], LowerAlpha); }
      else if q <= i < |s| - 2 {
        assert s[i] == s[q..|s| - 2][i - q];
        assert InClass(s[q..|s| - 2][i - q], Decimal);
        DecimalBounds(s[i]);
      }
    }
  }

  /** A member that passes the field validators can be rendered. */
  lemma ValidMemberRenderable(m: ReplicaSetMember)
    requires MemberFieldErrors(m) == []
    ensures Renderable(m)
  {
    MemberFieldErrorsMeaning(m);
    ZoneChars(m.zone);
    AllInExcludes(m.name, LowerAlnumHyphen, '\n');
    AllInExcludes(m.name, LowerAlnumHyphen, ',');
  }

  /** For a configuration that passed model validation, the `members` list
      written into the tfvars text reads back as exactly the configured
      members. */
  lemma TfvarsMembersRoundTrip(c: ReplicaSetConfig)
    requires ConfigValid(c)
    ensures ParseMemberBlocks(Join(MemberBlocks(c.members), ",")) == Some(c.members)
  {
    forall i | 0 <= i < |c.members| ensures Renderable(c.members[i]) {
      ValidMemberRenderable(c.members[i]);
    }
    MemberListRoundTrip(c.members);
  }

  /** A name read back from a block never holds a newline: the block is
      read line by line. */
  lemma ParsedNameHasNoNewline(t: string)
    requires ParseMemberBlock(t).Some?
    ensures '\n' !in ParseMemberBlock(t).value.name
  {
    var lines := Split(t[4..|t| - 4], '\n');
    var v := lines[0][PrefixLength..];
    assert '\n' !in lines[0];
    assert ParseMemberBlock(t).value.name == v[1..|v| - 1];
    forall i | 0 <= i < |v| ensures v[i] != '\n' {
      assert v[i] == lines[0][PrefixLength + i];
    }
  }

  /** A member name with a trailing newline, which the name validator as
      written accepts, does not survive the block layout: the block reads
      back as a different member or as nothing. */
  lemma NewlineNameBreaksBlock(m: ReplicaSetMember)
    requires m.name == "node1\n"
    ensures ValidateNameAsWritten(m.name).Success?
    ensures ParseMemberBlock(MemberBlock(m)) != Some(m)
  {
    TrailingNewlineAcceptedAsWritten();
    if ParseMemberBlock(MemberBlock(m)).Some? {
      ParsedNameHasNoNewline(MemberBlock(m));
      assert m.name[5] == '\n';
    }
  }

  // ---- Terraform command arguments ----

  function PlanArgs(): seq<string> {
    ["plan", "-out=tfplan"]
  }

  /** `_run_terraform_apply`: apply the saved plan unless auto-approval was
      asked for. */
  function ApplyArgs(autoApprove: bool): (args: seq<string>)
    ensures |args| == 2 && args[0] == "apply"
    ensures autoApprove <==> args[1] == "-auto-approve"
    ensures !autoApprove <==> args[1] == "tfplan"
  {
    ["apply"] + (if autoApprove then ["-auto-approve"] else ["tfplan"])
  }

  function OutputArgs(): seq<string> {
    ["output", "-json"]
  }

  function DestroyArgs(): seq<string> {
    ["destroy", "-auto-approve"]
  }

  function TerraformArgv(cmd: seq<string>): seq<string> {
    ["terraform"] + cmd
  }

  // ---- Outputs and topology ----

  /** The part of the parsed `terraform output -json` object the service
      reads: the instances under `mongodb_instances.value`, in the
      object's order (absent when the key is missing). */
  datatype InstanceData = InstanceData(role: string, internalIp: string)
  /** The parsed output of `terraform output -json`, as far as the service
      reads it. `malformed` is the exception `_initialize_replica_set`
      raises when the JSON has another shape than the one it reads (a list
      where an object is expected, an instance without `role` or
      `internal_ip`, a null address among the secondaries). A null address
      on the last primary does not raise; see `WithoutPrimaries`. */
  datatype TerraformOutputs = TerraformOutputs(mongodbInstances: Option<seq<InstanceData>>, malformed: Option<string>)

  const EmptyOutputs := TerraformOutputs(None, None)

  /** `_get_terraform_outputs`: the parsed output on a zero return code,
      the empty object otherwise. */
  function OutputsFor(returnCode: int, parsed: TerraformOutputs): (r: TerraformOutputs)
    ensures returnCode != 0 ==> r == EmptyOutputs
    ensures returnCode == 0 ==> r == parsed
  {
    if returnCode == 0 then parsed else EmptyOutputs
  }

  function Instances(o: TerraformOutputs): seq<InstanceData> {
    o.mongodbInstances.GetOr([])
  }

  datatype Endpoint = Endpoint(host: Option<string>, port: int)

  datatype ConnectionInfo = ConnectionInfo(
    primary: Endpoint,
    secondaries: seq<Endpoint>,
    connectionString: string,
    monitoringUrls: seq<(string, string)>)

  /** The address of the last instance whose role is `primary`. */
  function LastPrimary(xs: seq<InstanceData>): Option<string> {
    if xs == [] then None
    else if xs[|xs| - 1].role == "primary" then Some(xs[|xs| - 1].internalIp)
    else LastPrimary(xs[..|xs| - 1])
  }

  /** The addresses of the other instances, in order. */
  function SecondaryHosts(xs: seq<InstanceData>): seq<string> {
    if xs == [] then []
    else SecondaryHosts(xs[..|xs| - 1]) + (if xs[|xs| - 1].role == "primary" then [] else [xs[|xs| - 1].internalIp])
  }

  function ConnectionString(primary: Option<string>, port: int, secondaries: seq<string>, name: string): string {
    "mongodb://" + OptionalText(primary) + ":" + IntToString(port) + "," + Join(secondaries, ",") + "/?replicaSet=" + name
  }

  function TopologyOf(c: ReplicaSetConfig, primary: Option<string>, secondaries: seq<string>): ConnectionInfo {
    var port := c.network.mongodbPort;
    ConnectionInfo(
      Endpoint(primary, port),
      seq(|secondaries|, i requires 0 <= i < |secondaries| => Endpoint(Some(secondaries[i]), port)),
      ConnectionString(primary, port, secondaries, c.replicaSetName),
      [("grafana", "http://" + OptionalText(primary) + ":3000"),
       ("prometheus", "http://" + OptionalText(primary) + ":9090")])
  }

  /** `_initialize_replica_set`: one pass over the instances, keeping the
      last primary's address and collecting the others; outputs of another
      shape make it raise. */
  method InitializeReplicaSet(c: ReplicaSetConfig, outputs: TerraformOutputs) returns (r: Result<ConnectionInfo, string>)
    ensures outputs.malformed.Some? ==> r == Failure(outputs.malformed.value)
    ensures outputs.malformed.None? ==>
              r == Success(TopologyOf(c, LastPrimary(Instances(outputs)), SecondaryHosts(Instances(outputs))))
  {
    if outputs.malformed.Some? {
      return Failure(outputs.malformed.value);
    }
    var instances := Instances(outputs);
    var primaryHost: Option<string> := None;
    var secondaryHosts: seq<string> := [];
    var i := 0;
    while i < |instances|
      invariant 0 <= i <= |instances|
      invariant primaryHost == LastPrimary(instances[..i])
      invariant secondaryHosts == SecondaryHosts(instances[..i])
    {
      assert instances[..i + 1][..i] == instances[..i];
      if instances[i].role == "primary" {
        primaryHost := Some(instances[i].internalIp);
      } else {
        secondaryHosts := secondaryHosts + [instances[i].internalIp];
      }
      i := i + 1;
    }
    assert instances[..|instances|] == instances;
    r := Success(TopologyOf(c, primaryHost, secondaryHosts));
  }

  // ---- Properties of the topology ----

  /** The primary is the address of the last instance with role `primary`,
      and there is none exactly when no instance has that role. */
  lemma {:induction false} LastPrimaryMeaning(xs: seq<InstanceData>)
    ensures LastPrimary(xs).None? <==> forall i :: 0 <= i < |xs| ==> xs[i].role != "primary"
    ensures LastPrimary(xs).Some? ==>
              exists i :: 0 <= i < |xs| && xs[i].role == "primary" && xs[i].internalIp == LastPrimary(xs).value
                          && forall j :: i < j < |xs| ==> xs[j].role != "primary"
  {
    if xs != [] {
      var n := |xs| - 1;
      LastPrimaryMeaning(xs[..n]);
      if xs[n].role != "primary" {
        if LastPrimary(xs).Some? {
          var i :| 0 <= i < n && xs[..n][i].role == "primary" && xs[..n][i].internalIp == LastPrimary(xs).value
                   && forall j :: i < j < n ==> xs[..n][j].role != "primary";
          assert xs[i] == xs[..n][i];
          assert forall j :: i < j < |xs| ==> xs[j].role != "primary" by {
            forall j | i < j < |xs| ensures xs[j].role != "primary" {
              if j < n { assert xs[j] == xs[..n][j]; }
            }
          }
        } else {
          forall i | 0 <= i < |xs| ensures xs[i].role != "primary" {
            if i < n { assert xs[i] == xs[..n][i]; }
          }
        }
      }
    }
  }

  function PrimaryIndices(xs: seq<InstanceData>): set<int> {
    set i | 0 <= i < |xs| && xs[i].role == "primary"
  }

  /** Every instance gives either a secondary or has the primary role. */
  lemma {:induction false} SecondaryHostsCount(xs: seq<InstanceData>)
    ensures |SecondaryHosts(xs)| + |PrimaryIndices(xs)| == |xs|
  {
    if xs != [] {
      var n := |xs| - 1;
      SecondaryHostsCount(xs[..n]);
      if xs[n].role == "primary" {
        assert PrimaryIndices(xs) == PrimaryIndices(xs[..n]) + {n};
      } else {
        assert PrimaryIndices(xs) == PrimaryIndices(xs[..n]);
      }
    }
  }

  /** The secondaries are exactly the non-primary instances' addresses. */
  lemma {:induction false} SecondaryHostsMembers(xs: seq<InstanceData>, h: string)
    ensures h in SecondaryHosts(xs) <==> exists i :: 0 <= i < |xs| && xs[i].role != "primary" && xs[i].internalIp == h
  {
    if xs != [] {
      var n := |xs| - 1;
      SecondaryHostsMembers(xs[..n], h);
      if exists i :: 0 <= i < |xs| && xs[i].role != "primary" && xs[i].internalIp == h {
        var i :| 0 <= i < |xs| && xs[i].role != "primary" && xs[i].internalIp == h;
        if i < n { assert xs[..n][i] == xs[i]; }
      }
      if h in SecondaryHosts(xs[..n]) {
        var i :| 0 <= i < n && xs[..n][i].role != "primary" && xs[..n][i].internalIp == h;
        assert xs[i] == xs[..n][i];
      }
    }
  }

  /** The instances without the primaries, in order. An output whose last
      primary has a null address does not raise: `primary_host` becomes
      `None`, which is what this list gives. */
  function WithoutPrimaries(xs: seq<InstanceData>): seq<InstanceData> {
    if xs == [] then []
    else WithoutPrimaries(xs[..|xs| - 1]) + (if xs[|xs| - 1].role == "primary" then [] else [xs[|xs| - 1]])
  }

  /** Dropping the primaries leaves no primary and the same secondaries, so
      a null last-primary address renders as `None` beside the secondaries
      of the original list. */
  lemma {:induction false} NullPrimaryReadsAsNone(xs: seq<InstanceData>)
    ensures LastPrimary(WithoutPrimaries(xs)) == None
    ensures SecondaryHosts(WithoutPrimaries(xs)) == SecondaryHosts(xs)
  {
    if xs != [] {
      var n := |xs| - 1;
      var w := WithoutPrimaries(xs[..n]);
      NullPrimaryReadsAsNone(xs[..n]);
      if xs[n].role != "primary" {
        var w' := w + [xs[n]];
        assert WithoutPrimaries(xs) == w';
        assert w'[..|w'| - 1] == w;
        assert LastPrimary(w') == LastPrimary(w);
        assert SecondaryHosts(w') == SecondaryHosts(w) + [xs[n].internalIp];
      } else {
        assert WithoutPrimaries(xs) == w;
      }
    }
  }

  /** The connection string starts with the scheme and names the replica
      set as its last parameter. */
  lemma ConnectionStringShape(primary: Option<string>, port: int, secondaries: seq<string>, name: string)
    ensures var s := ConnectionString(primary, port, secondaries, name);
            StartsWith(s, "mongodb://") && |s| >= |name| + 13 && s[|s| - |name| - 13..] == "/?replicaSet=" + name
  {
  }

  /** Between the scheme and the `/?`, the host list splits on commas into
      `primary:port` followed by the secondaries (a lone empty piece when
      there are none), provided no address holds a comma. */
  lemma HostListSplits(primary: Option<string>, port: int, secondaries: seq<string>)
    requires ',' !in OptionalText(primary)
    requires forall i :: 0 <= i < |secondaries| ==> ',' !in secondaries[i]
    ensures Split(OptionalText(primary) + ":" + IntToString(port) + "," + Join(secondaries, ","), ',')
            == [OptionalText(primary) + ":" + IntToString(port)] + (if secondaries == [] then [""] else secondaries)
  {
    var head := OptionalText(primary) + ":" + IntToString(port);
    IntToStringClean(port);
    assert ',' !in head;
    assert head + "," + Join(secondaries, ",") == head + [','] + Join(secondaries, ",");
    SplitAppend(head, Join(secondaries, ","), ',');
    if secondaries == [] {
      assert Split("", ',') == [""];
    } else {
      SplitJoin(secondaries, ',');
    }
  }
}
