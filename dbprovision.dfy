/** The provisioning command line: parameter checks, the Terraform and
    Ansible variable sets, the Terraform variables file, the commands the
    `create` and `destroy` sub-commands run, and the confirmation gate of
    `destroy`. Every process, file and console call is a boundary: the
    model records the values handed to it (`CliEffect`) and takes the
    return codes and the user's answer as inputs. */
module DbProvision {
  import opened Wrappers
  import opened Strings
  import opened JsonText
  import TerraformRender

  // ---- Arguments ----

  datatype ClusterType = Standalone | ReplicaSetCluster | Sharded

  function ClusterTypeValue(t: ClusterType): string {
    match t
    case Standalone => "standalone"
    case ReplicaSetCluster => "replicaset"
    case Sharded => "sharded"
  }

  /** The parsed `create` arguments. Options without a default are
      `Option`s; `clusterType` is one of the parser's choices. */
  datatype Args = Args(
    clusterName: Option<string>,
    clusterType: ClusterType,
    projectId: string,
    region: string,
    zones: Option<string>,
    mongodbVersion: string,
    replicaNodes: int,
    replicaSetName: string,
    mongodbPort: Option<int>,
    shardCount: int,
    configServers: int,
    mongosCount: int,
    instanceType: string,
    diskSize: int,
    diskType: string,
    vpcName: Option<string>,
    subnetCidr: Option<string>,
    storageEngine: string,
    cacheSize: Option<string>,
    oplogSize: Option<string>,
    enableAuth: bool,
    enableTls: bool,
    authMechanism: string,
    monitoringEnabled: bool,
    backupEnabled: bool,
    backupSchedule: string)

  /** The arguments of `create --project-id p` with every other option at
      its default. */
  function DefaultArgs(projectId: string): Args {
    Args(None, ReplicaSetCluster, projectId, "asia-northeast3", None, "8.0", 3, "rs0", None, 3, 3, 2,
         "e2-standard-4", 100, "pd-ssd", None, None, "wiredTiger", None, None, true, false, "SCRAM-SHA-256",
         false, false, "0 2 * * *")
  }

  /** Python truthiness of an optional string: given and not empty. */
  predicate Present(o: Option<string>) {
    o.Some? && o.value != ""
  }

  /** Python truthiness of an optional port: given and not zero. */
  predicate PortGiven(o: Option<int>) {
    o.Some? && o.value != 0
  }

  // ---- Parameter checks ----

  /** The errors the parameter check can report. */
  datatype ParamError = NoMongos | NoShards | NoReplicas | PortOutOfRange | NoProject

  /** The message printed for each error. */
  function Message(e: ParamError): string {
    match e
    case NoMongos => "Sharded cluster requires at least 1 mongos instance"
    case NoShards => "Sharded cluster requires at least 1 shard"
    case NoReplicas => "Replica nodes must be at least 1"
    case PortOutOfRange => "MongoDB port must be between 1024 and 65535"
    case NoProject => "GCP project ID is required"
  }

  /** When each error applies. */
  predicate Fails(args: Args, e: ParamError) {
    match e
    case NoMongos => args.clusterType == Sharded && args.mongosCount < 1
    case NoShards => args.clusterType == Sharded && args.shardCount < 1
    case NoReplicas => args.replicaNodes < 1
    case PortOutOfRange => PortGiven(args.mongodbPort) && !(1024 <= args.mongodbPort.value <= 65535)
    case NoProject => args.projectId == ""
  }

  /** The errors in the order the check looks for them. */
  const CheckOrder: seq<ParamError> := [NoMongos, NoShards, NoReplicas, PortOutOfRange, NoProject]

  /** The errors of `es` that apply, in order. */
  function Select(es: seq<ParamError>, args: Args): seq<ParamError> {
    if es == [] then [] else (if Fails(args, es[0]) then [es[0]] else []) + Select(es[1..], args)
  }

  /** The errors of the parameter check, in the order they are found. */
  function ParameterErrors(args: Args): seq<ParamError> {
    Select(CheckOrder, args)
  }

  lemma {:induction false} SelectMeaning(es: seq<ParamError>, args: Args)
    ensures forall e :: e in Select(es, args) <==> e in es && Fails(args, e)
    ensures (forall i, j :: 0 <= i < j < |es| ==> es[i] != es[j]) ==>
              forall i, j :: 0 <= i < j < |Select(es, args)| ==> Select(es, args)[i] != Select(es, args)[j]
  {
    if es != [] {
      SelectMeaning(es[1..], args);
      var r := Select(es, args);
      var rest := Select(es[1..], args);
      if (forall i, j :: 0 <= i < j < |es| ==> es[i] != es[j]) && Fails(args, es[0]) {
        assert es[0] !in es[1..];
        assert es[0] !in rest;
        forall i, j | 0 <= i < j < |r| ensures r[i] != r[j] {
          if i == 0 {
            assert r[j] == rest[j - 1];
          } else {
            assert r[i] == rest[i - 1] && r[j] == rest[j - 1];
            assert forall x, y :: 0 <= x < y < |es[1..]| ==> es[1..][x] != es[1..][y];
          }
        }
      } else if forall i, j :: 0 <= i < j < |es| ==> es[i] != es[j] {
        assert forall x, y :: 0 <= x < y < |es[1..]| ==> es[1..][x] != es[1..][y];
      }
    }
  }

  lemma {:induction false} SelectAgrees(es: seq<ParamError>, a: Args, b: Args)
    requires forall e :: e in es ==> (Fails(a, e) <==> Fails(b, e))
    ensures Select(es, a) == Select(es, b)
  {
    if es != [] {
      assert forall e :: e in es[1..] ==> e in es;
      SelectAgrees(es[1..], a, b);
    }
  }

  /** Each error is reported exactly when it applies, and at most once. */
  lemma ParameterErrorsMeaning(args: Args)
    ensures forall e :: e in ParameterErrors(args) <==> Fails(args, e)
    ensures var r := ParameterErrors(args); forall i, j :: 0 <= i < j < |r| ==> r[i] != r[j]
  {
    SelectMeaning(CheckOrder, args);
    forall e ensures e in CheckOrder {
      match e
      case NoMongos =>
      case NoShards =>
      case NoReplicas =>
      case PortOutOfRange =>
      case NoProject =>
    }
  }

  /** An even node count only warns: for any positive count the errors
      are those of a single node. */
  lemma EvenNodeCountOnlyWarns(args: Args, n: int)
    requires n >= 1
    ensures ParameterErrors(args.(replicaNodes := n)) == ParameterErrors(args.(replicaNodes := 1))
  {
    SelectAgrees(CheckOrder, args.(replicaNodes := n), args.(replicaNodes := 1));
  }

  /** The error `e` as a list when it applies. */
  function Part(args: Args, e: ParamError): seq<ParamError> {
    if Fails(args, e) then [e] else []
  }

  /** The errors one by one, in the order the check appends them. */
  lemma ParameterErrorsInOrder(args: Args)
    ensures ParameterErrors(args)
            == Part(args, NoMongos) + Part(args, NoShards) + Part(args, NoReplicas)
               + Part(args, PortOutOfRange) + Part(args, NoProject)
  {
    var e5 := [NoProject];
    var e4 := [PortOutOfRange] + e5;
    var e3 := [NoReplicas] + e4;
    var e2 := [NoShards] + e3;
    assert CheckOrder == [NoMongos] + e2;
    assert CheckOrder[1..] == e2 && e2[1..] == e3 && e3[1..] == e4 && e4[1..] == e5 && e5[1..] == [];
    assert Select(e5, args) == Part(args, NoProject);
    assert Select(e4, args) == Part(args, PortOutOfRange) + Select(e5, args);
    assert Select(e3, args) == Part(args, NoReplicas) + Select(e4, args);
    assert Select(e2, args) == Part(args, NoShards) + Select(e3, args);
    assert Select(CheckOrder, args) == Part(args, NoMongos) + Select(e2, args);
    Associate(Part(args, NoMongos), Part(args, NoShards), Part(args, NoReplicas), Part(args, PortOutOfRange), Part(args, NoProject));
  }

  lemma Associate<T>(a: seq<T>, b: seq<T>, c: seq<T>, d: seq<T>, e: seq<T>)
    ensures a + (b + (c + (d + e))) == a + b + c + d + e
  {
  }

  /** The defaults pass the check, without the even-count warning, for
      any non-empty project; a sharded cluster with default counts does
      too. */
  lemma DefaultsPass(projectId: string)
    ensures ParameterErrors(DefaultArgs(projectId)) == if projectId == "" then [NoProject] else []
    ensures ParameterErrors(DefaultArgs(projectId).(clusterType := Sharded)) == ParameterErrors(DefaultArgs(projectId))
    ensures DefaultArgs(projectId).replicaNodes % 2 != 0
  {
    ParameterErrorsInOrder(DefaultArgs(projectId));
    ParameterErrorsInOrder(DefaultArgs(projectId).(clusterType := Sharded));
  }

  /** The parameter check: collects the errors, warns on an even node
      count, and asks to exit with status 1 when there is an error. */
  method ValidateParameters(args: Args) returns (errors: seq<ParamError>, evenWarning: bool, exits: bool)
    ensures errors == ParameterErrors(args)
    ensures evenWarning <==> args.replicaNodes % 2 == 0
    ensures exits <==> errors != []
  {
    errors := [];
    if args.clusterType == Sharded {
      if args.mongosCount < 1 {
        errors := errors + [NoMongos];
      }
      if args.shardCount < 1 {
        errors := errors + [NoShards];
      }
    }
    assert errors == Part(args, NoMongos) + Part(args, NoShards);
    if args.replicaNodes < 1 {
      errors := errors + [NoReplicas];
    }
    evenWarning := args.replicaNodes % 2 == 0;
    if PortGiven(args.mongodbPort) && !(1024 <= args.mongodbPort.value <= 65535) {
      errors := errors + [PortOutOfRange];
    }
    if args.projectId == "" {
      errors := errors + [NoProject];
    }
    exits := errors != [];
    ParameterErrorsInOrder(args);
  }

  // ---- Variable sets ----

  datatype VarValue = Str(s: string) | Int(i: int) | Bool(b: bool) | StrList(items: seq<string>)

  /** A dictionary in insertion order. */
  type Vars = seq<(string, VarValue)>

  function Keys(vars: Vars): (ks: seq<string>)
    ensures |ks| == |vars| && forall i :: 0 <= i < |vars| ==> ks[i] == vars[i].0
  {
    seq(|vars|, i requires 0 <= i < |vars| => vars[i].0)
  }

  predicate DistinctKeys(vars: Vars) {
    forall i, j :: 0 <= i < j < |vars| ==> vars[i].0 != vars[j].0
  }

  function Lookup(vars: Vars, key: string): Option<VarValue> {
    if vars == [] then None
    else if vars[0].0 == key then Some(vars[0].1)
    else Lookup(vars[1..], key)
  }

  const BaseTerraformKeys: seq<string> :=
    ["project_id", "region", "cluster_type", "mongodb_version", "replica_nodes", "instance_type",
     "disk_size", "disk_type", "enable_auth", "enable_tls", "monitoring_enabled", "backup_enabled"]

  const ShardKeys: seq<string> := ["shard_count", "config_servers", "mongos_count"]

  /** Pairs each key with the value at the same position. */
  function Zip(keys: seq<string>, values: seq<VarValue>): (vars: Vars)
    requires |keys| == |values|
    ensures Keys(vars) == keys
  {
    var vars := seq(|keys|, i requires 0 <= i < |keys| => (keys[i], values[i]));
    assert Keys(vars) == keys;
    vars
  }

  function BaseTerraformVars(args: Args): Vars {
    Zip(BaseTerraformKeys,
        [Str(args.projectId), Str(args.region), Str(ClusterTypeValue(args.clusterType)), Str(args.mongodbVersion),
         Int(args.replicaNodes), Str(args.instanceType), Int(args.diskSize), Str(args.diskType),
         Bool(args.enableAuth), Bool(args.enableTls), Bool(args.monitoringEnabled), Bool(args.backupEnabled)])
  }

  function ShardVars(args: Args): Vars {
    Zip(ShardKeys, [Int(args.shardCount), Int(args.configServers), Int(args.mongosCount)])
  }

  /** The Terraform variables: the base keys, the sharding keys for a
      sharded cluster, then the zones, network and subnet when given. */
  function TerraformVars(args: Args): Vars {
    BaseTerraformVars(args)
    + (if args.clusterType == Sharded then ShardVars(args) else [])
    + (if Present(args.zones) then [("zones", StrList(Split(args.zones.value, ',')))] else [])
    + (if Present(args.vpcName) then [("vpc_name", Str(args.vpcName.value))] else [])
    + (if Present(args.subnetCidr) then [("subnet_cidr", Str(args.subnetCidr.value))] else [])
  }

  method GenerateTerraformVars(args: Args) returns (vars: Vars)
    ensures vars == TerraformVars(args)
  {
    vars := BaseTerraformVars(args);
    if args.clusterType == Sharded {
      vars := vars + ShardVars(args);
    }
    if Present(args.zones) {
      vars := vars + [("zones", StrList(Split(args.zones.value, ',')))];
    }
    if Present(args.vpcName) {
      vars := vars + [("vpc_name", Str(args.vpcName.value))];
    }
    if Present(args.subnetCidr) {
      vars := vars + [("subnet_cidr", Str(args.subnetCidr.value))];
    }
  }

  /** The keys of the Terraform variables, in order: the twelve base
      keys, the sharding keys for a sharded cluster, then each optional key
      when its option is given. */
  lemma TerraformKeysList(args: Args)
    ensures Keys(TerraformVars(args))
            == KeyList(args.clusterType == Sharded, Present(args.zones), Present(args.vpcName), Present(args.subnetCidr))
  {
    var z: Vars := if Present(args.zones) then [("zones", StrList(Split(args.zones.value, ',')))] else [];
    var v: Vars := if Present(args.vpcName) then [("vpc_name", Str(args.vpcName.value))] else [];
    var c: Vars := if Present(args.subnetCidr) then [("subnet_cidr", Str(args.subnetCidr.value))] else [];
    var sh: Vars := if args.clusterType == Sharded then ShardVars(args) else [];
    KeysOfParts(BaseTerraformVars(args), sh, z, v, c);
    assert Keys(z) == if Present(args.zones) then ["zones"] else [];
    assert Keys(v) == if Present(args.vpcName) then ["vpc_name"] else [];
    assert Keys(c) == if Present(args.subnetCidr) then ["subnet_cidr"] else [];
  }

  lemma KeysOfParts(a: Vars, b: Vars, c: Vars, d: Vars, e: Vars)
    ensures Keys(a + b + c + d + e) == Keys(a) + Keys(b) + Keys(c) + Keys(d) + Keys(e)
  {
    KeysAppend(a, b);
    KeysAppend(a + b, c);
    KeysAppend(a + b + c, d);
    KeysAppend(a + b + c + d, e);
  }

  lemma KeysAppend(a: Vars, b: Vars)
    ensures Keys(a + b) == Keys(a) + Keys(b)
  {
  }

  /** Every key the Terraform variables can carry, each once. */
  const KnownTerraformKeys: seq<string> := BaseTerraformKeys + ShardKeys + ["zones", "vpc_name", "subnet_cidr"]

  lemma KnownKeysDistinct()
    ensures forall i, j :: 0 <= i < j < |KnownTerraformKeys| ==> KnownTerraformKeys[i] != KnownTerraformKeys[j]
  {
  }

  /** The key list of the Terraform variables, given which optional
      groups are there. */
  function KeyList(sharded: bool, zones: bool, vpc: bool, subnet: bool): seq<string> {
    BaseTerraformKeys
    + (if sharded then ShardKeys else [])
    + (if zones then ["zones"] else [])
    + (if vpc then ["vpc_name"] else [])
    + (if subnet then ["subnet_cidr"] else [])
  }

  lemma KeyListMembership(sharded: bool, zones: bool, vpc: bool, subnet: bool)
    ensures var ks := KeyList(sharded, zones, vpc, subnet);
            && ks[..12] == BaseTerraformKeys
            && (forall k :: k in ShardKeys ==> (k in ks <==> sharded))
            && ("zones" in ks <==> zones)
            && ("vpc_name" in ks <==> vpc)
            && ("subnet_cidr" in ks <==> subnet)
  {
    ShardKeysApart();
    OptionalKeysApart();
  }

  lemma ShardKeysApart()
    ensures forall k :: k in ShardKeys ==> k !in BaseTerraformKeys && k != "zones" && k != "vpc_name" && k != "subnet_cidr"
  {
    KnownKeysDistinct();
    var known := KnownTerraformKeys;
    forall k | k in ShardKeys
      ensures k !in BaseTerraformKeys && k != "zones" && k != "vpc_name" && k != "subnet_cidr"
    {
      var j :| 0 <= j < 3 && ShardKeys[j] == k;
      assert known[12 + j] == k;
      assert known[15] == "zones" && known[16] == "vpc_name" && known[17] == "subnet_cidr";
      assert forall i :: 0 <= i < 12 ==> known[i] == BaseTerraformKeys[i];
    }
  }

  lemma OptionalKeysApart()
    ensures "zones" !in BaseTerraformKeys + ShardKeys && "vpc_name" != "zones" && "subnet_cidr" != "zones"
    ensures "vpc_name" !in BaseTerraformKeys + ShardKeys && "subnet_cidr" != "vpc_name"
    ensures "subnet_cidr" !in BaseTerraformKeys + ShardKeys
  {
    KnownKeysDistinct();
    var known := KnownTerraformKeys;
    assert known[15] == "zones" && known[16] == "vpc_name" && known[17] == "subnet_cidr";
    assert forall i :: 0 <= i < 15 ==> known[i] == (BaseTerraformKeys + ShardKeys)[i];
  }

  /** Which keys the Terraform variables carry: the twelve base keys
      first, the sharding keys exactly for a sharded cluster and each
      optional key exactly when its option is given. */
  lemma TerraformVarsKeys(args: Args)
    ensures var ks := Keys(TerraformVars(args));
            && ks[..12] == BaseTerraformKeys
            && (forall k :: k in ShardKeys ==> (k in ks <==> args.clusterType == Sharded))
            && ("zones" in ks <==> Present(args.zones))
            && ("vpc_name" in ks <==> Present(args.vpcName))
            && ("subnet_cidr" in ks <==> Present(args.subnetCidr))
  {
    TerraformKeysList(args);
    KeyListMembership(args.clusterType == Sharded, Present(args.zones), Present(args.vpcName), Present(args.subnetCidr));
  }

  /** Keys drawn from the first `m` known keys, none twice. */
  predicate KnownPrefix(ks: seq<string>, m: nat) {
    m <= |KnownTerraformKeys|
    && (forall i, j :: 0 <= i < j < |ks| ==> ks[i] != ks[j])
    && (forall i :: 0 <= i < |ks| ==> ks[i] in KnownTerraformKeys[..m])
  }

  /** Appending the next known keys, or skipping them, keeps the keys
      distinct. */
  lemma ExtendKnown(ks: seq<string>, m: nat, n: nat, take: bool)
    requires KnownPrefix(ks, m) && m <= n <= |KnownTerraformKeys|
    ensures KnownPrefix(ks + (if take then KnownTerraformKeys[m..n] else []), n)
  {
    var piece := if take then KnownTerraformKeys[m..n] else [];
    ExtendKnownMembers(ks, m, n, piece);
    ExtendKnownDistinct(ks, m, n, piece);
  }

  lemma ExtendKnownMembers(ks: seq<string>, m: nat, n: nat, piece: seq<string>)
    requires KnownPrefix(ks, m) && m <= n <= |KnownTerraformKeys|
    requires piece == [] || piece == KnownTerraformKeys[m..n]
    ensures forall i :: 0 <= i < |ks + piece| ==> (ks + piece)[i] in KnownTerraformKeys[..n]
  {
    var known := KnownTerraformKeys;
    var r := ks + piece;
    forall i | 0 <= i < |r| ensures r[i] in known[..n] {
      if i < |ks| {
        assert ks[i] in known[..m];
        var x :| 0 <= x < m && known[..m][x] == ks[i];
        assert known[..n][x] == ks[i];
      } else {
        assert r[i] == known[m + i - |ks|] == known[..n][m + i - |ks|];
      }
    }
  }

  lemma ExtendKnownDistinct(ks: seq<string>, m: nat, n: nat, piece: seq<string>)
    requires KnownPrefix(ks, m) && m <= n <= |KnownTerraformKeys|
    requires piece == [] || piece == KnownTerraformKeys[m..n]
    ensures forall i, j :: 0 <= i < j < |ks + piece| ==> (ks + piece)[i] != (ks + piece)[j]
  {
    var known := KnownTerraformKeys;
    KnownKeysDistinct();
    var r := ks + piece;
    forall i, j | 0 <= i < j < |r| ensures r[i] != r[j] {
      if j >= |ks| {
        assert r[j] == known[m + j - |ks|];
        if i >= |ks| {
          assert r[i] == known[m + i - |ks|];
        } else {
          assert ks[i] in known[..m];
          var x :| 0 <= x < m && known[..m][x] == ks[i];
        }
      }
    }
  }

  lemma KeyListDistinct(sharded: bool, zones: bool, vpc: bool, subnet: bool)
    ensures KnownPrefix(KeyList(sharded, zones, vpc, subnet), 18)
  {
    var known := KnownTerraformKeys;
    assert KnownPrefix([], 0);
    ExtendKnown([], 0, 12, true);
    var k1 := known[..12];
    assert k1 == BaseTerraformKeys;
    ExtendKnown(k1, 12, 15, sharded);
    var k2 := k1 + (if sharded then known[12..15] else []);
    assert known[12..15] == ShardKeys;
    ExtendKnown(k2, 15, 16, zones);
    var k3 := k2 + (if zones then known[15..16] else []);
    assert known[15..16] == ["zones"];
    ExtendKnown(k3, 16, 17, vpc);
    var k4 := k3 + (if vpc then known[16..17] else []);
    assert known[16..17] == ["vpc_name"];
    ExtendKnown(k4, 17, 18, subnet);
    assert known[17..18] == ["subnet_cidr"];
  }

  /** No key of the Terraform variables appears twice. */
  lemma TerraformVarsDistinct(args: Args)
    ensures DistinctKeys(TerraformVars(args))
  {
    TerraformKeysList(args);
    KeyListDistinct(args.clusterType == Sharded, Present(args.zones), Present(args.vpcName), Present(args.subnetCidr));
  }

  /** The zones variable is the comma-split option, piece for piece. */
  lemma ZonesVariable(args: Args)
    requires Present(args.zones)
    ensures Lookup(TerraformVars(args), "zones") == Some(StrList(Split(args.zones.value, ',')))
    ensures |Split(args.zones.value, ',')| == Count(args.zones.value, ',') + 1
    ensures Join(Split(args.zones.value, ','), ",") == args.zones.value
  {
    SplitLength(args.zones.value, ',');
    JoinSplit(args.zones.value, ',');
    TerraformVarsDistinct(args);
    var vars := TerraformVars(args);
    var k := |vars| - 1 - (if Present(args.vpcName) then 1 else 0) - (if Present(args.subnetCidr) then 1 else 0);
    assert vars[k] == ("zones", StrList(Split(args.zones.value, ',')));
    LookupAt(vars, k);
  }

  /** Looking up the key at a position gives its value when no key repeats. */
  lemma {:induction false} LookupAt(vars: Vars, k: nat)
    requires k < |vars| && DistinctKeys(vars)
    ensures Lookup(vars, vars[k].0) == Some(vars[k].1)
  {
    if k > 0 {
      LookupAt(vars[1..], k - 1);
    }
  }

  const BaseAnsibleKeys: seq<string> :=
    ["mongodb_version", "replica_set_name", "storage_engine", "enable_auth", "enable_tls", "auth_mechanism"]

  function BaseAnsibleVars(args: Args): Vars {
    Zip(BaseAnsibleKeys,
        [Str(args.mongodbVersion), Str(args.replicaSetName), Str(args.storageEngine),
         Bool(args.enableAuth), Bool(args.enableTls), Str(args.authMechanism)])
  }

  /** The Ansible variables: six base keys, then cache size, oplog size
      and backup schedule when given and not empty. */
  function AnsibleVars(args: Args): Vars {
    BaseAnsibleVars(args)
    + (if Present(args.cacheSize) then [("cache_size", Str(args.cacheSize.value))] else [])
    + (if Present(args.oplogSize) then [("oplog_size", Str(args.oplogSize.value))] else [])
    + (if args.backupSchedule != "" then [("backup_schedule", Str(args.backupSchedule))] else [])
  }

  method GenerateAnsibleVars(args: Args) returns (vars: Vars)
    ensures vars == AnsibleVars(args)
  {
    vars := BaseAnsibleVars(args);
    if Present(args.cacheSize) {
      vars := vars + [("cache_size", Str(args.cacheSize.value))];
    }
    if Present(args.oplogSize) {
      vars := vars + [("oplog_size", Str(args.oplogSize.value))];
    }
    if args.backupSchedule != "" {
      vars := vars + [("backup_schedule", Str(args.backupSchedule))];
    }
  }

  /** The Ansible variables always start with the six base keys; each
      optional key is there exactly when its option is truthy. */
  lemma AnsibleVarsKeys(args: Args)
    ensures var ks := Keys(AnsibleVars(args));
            && ks[..6] == BaseAnsibleKeys
            && ("cache_size" in ks <==> Present(args.cacheSize))
            && ("oplog_size" in ks <==> Present(args.oplogSize))
            && ("backup_schedule" in ks <==> args.backupSchedule != "")
  {
    var c: Vars := if Present(args.cacheSize) then [("cache_size", Str(args.cacheSize.value))] else [];
    var o: Vars := if Present(args.oplogSize) then [("oplog_size", Str(args.oplogSize.value))] else [];
    var b: Vars := if args.backupSchedule != "" then [("backup_schedule", Str(args.backupSchedule))] else [];
    KeysAppend(BaseAnsibleVars(args), c);
    KeysAppend(BaseAnsibleVars(args) + c, o);
    KeysAppend(BaseAnsibleVars(args) + c + o, b);
    assert Keys(c) == if Present(args.cacheSize) then ["cache_size"] else [];
    assert Keys(o) == if Present(args.oplogSize) then ["oplog_size"] else [];
    assert Keys(b) == if args.backupSchedule != "" then ["backup_schedule"] else [];
    AnsibleKeyListMembership(Present(args.cacheSize), Present(args.oplogSize), args.backupSchedule != "");
  }

  function AnsibleKeyList(cache: bool, oplog: bool, backup: bool): seq<string> {
    BaseAnsibleKeys
    + (if cache then ["cache_size"] else [])
    + (if oplog then ["oplog_size"] else [])
    + (if backup then ["backup_schedule"] else [])
  }

  lemma AnsibleKeyListMembership(cache: bool, oplog: bool, backup: bool)
    ensures var ks := AnsibleKeyList(cache, oplog, backup);
            && ks[..6] == BaseAnsibleKeys
            && ("cache_size" in ks <==> cache)
            && ("oplog_size" in ks <==> oplog)
            && ("backup_schedule" in ks <==> backup)
  {
    var ks := AnsibleKeyList(cache, oplog, backup);
    assert ks[..6] == BaseAnsibleKeys;
    assert "cache_size" !in BaseAnsibleKeys && "oplog_size" !in BaseAnsibleKeys && "backup_schedule" !in BaseAnsibleKeys;
    assert "cache_size"[0] != "oplog_size"[0] && "oplog_size"[0] != "backup_schedule"[0] && "cache_size"[0] != "backup_schedule"[0];
  }

  // ---- The Terraform variables file ----

  /** A value as the file writer prints it: quoted strings, lists as
      JSON, and `str` of anything else, which prints booleans as `True`
      and `False`. */
  function ValueTextAsWritten(v: VarValue): string {
    match v
    case Str(s) => "\"" + s + "\""
    case StrList(xs) => JsonList(xs)
    case Int(i) => IntToString(i)
    case Bool(b) => if b then "True" else "False"
  }

  /** The same with booleans printed as the HCL literals `true` and
      `false`. */
  function ValueText(v: VarValue): string {
    match v
    case Str(s) => "\"" + s + "\""
    case StrList(xs) => JsonList(xs)
    case Int(i) => IntToString(i)
    case Bool(b) => if b then "true" else "false"
  }

  function TfvarsLineAsWritten(kv: (string, VarValue)): string {
    kv.0 + " = " + ValueTextAsWritten(kv.1) + "\n"
  }

  function TfvarsLine(kv: (string, VarValue)): string {
    kv.0 + " = " + ValueText(kv.1) + "\n"
  }

  function Concat(lines: seq<string>): string {
    if lines == [] then "" else lines[0] + Concat(lines[1..])
  }

  /** The lines the writer prints, one per variable, in order. */
  function LinesAsWritten(vars: Vars): (ls: seq<string>)
    ensures |ls| == |vars| && forall i :: 0 <= i < |vars| ==> ls[i] == TfvarsLineAsWritten(vars[i])
  {
    seq(|vars|, i requires 0 <= i < |vars| => TfvarsLineAsWritten(vars[i]))
  }

  function Lines(vars: Vars): (ls: seq<string>)
    ensures |ls| == |vars| && forall i :: 0 <= i < |vars| ==> ls[i] == TfvarsLine(vars[i])
  {
    seq(|vars|, i requires 0 <= i < |vars| => TfvarsLine(vars[i]))
  }

  function TfvarsTextAsWritten(vars: Vars): string {
    Concat(LinesAsWritten(vars))
  }

  function TfvarsText(vars: Vars): string {
    Concat(Lines(vars))
  }

  /** A `${` or `%{` starts a template sequence inside a quoted string. */
  predicate HasTemplate(s: string) {
    exists i :: 0 <= i < |s| - 1 && (s[i] == '$' || s[i] == '%') && s[i + 1] == '{'
  }

  /** The inside of a quoted string the reader takes literally: no quote,
      backslash or newline, and no template sequence. */
  predicate LiteralText(s: string) {
    '"' !in s && '\\' !in s && '\n' !in s && !HasTemplate(s)
  }

  /** A reader for the scalar literals of a variables file: a quoted
      literal string, `true` or `false`, or a decimal integer. Anything
      else (such as `True`) is not a value. */
  function HclScalar(text: string): Option<VarValue> {
    if |text| >= 2 && text[0] == '"' && text[|text| - 1] == '"' && LiteralText(text[1..|text| - 1]) then
      Some(Str(text[1..|text| - 1]))
    else if text == "true" then Some(Bool(true))
    else if text == "false" then Some(Bool(false))
    else match TerraformRender.ParseInt(text)
      case Some(i) => Some(Int(i))
      case None => None
  }

  /** Reads the line of `key`: `key = <value>` and a newline. */
  function ParseLine(key: string, line: string): Option<VarValue> {
    var prefix := key + " = ";
    if |line| >= |prefix| + 1 && line[..|prefix|] == prefix && line[|line| - 1] == '\n' then
      HclScalar(line[|prefix|..|line| - 1])
    else None
  }

  /** A scalar the reader can take back: not a list, and a string the
      reader takes literally. */
  predicate PlainScalar(v: VarValue) {
    !v.StrList? && (v.Str? ==> LiteralText(v.s))
  }

  /** With booleans as HCL literals every plain scalar line reads back as
      the value written. */
  lemma TfvarsLineRoundTrip(kv: (string, VarValue))
    requires PlainScalar(kv.1)
    ensures ParseLine(kv.0, TfvarsLine(kv)) == Some(kv.1)
  {
    var line := TfvarsLine(kv);
    var prefix := kv.0 + " = ";
    assert line[..|prefix|] == prefix;
    assert line[|prefix|..|line| - 1] == ValueText(kv.1);
    match kv.1
    case Str(s) =>
      assert ValueText(kv.1)[1..|ValueText(kv.1)| - 1] == s;
    case Int(i) =>
      TerraformRender.ParseIntRoundTrip(i);
      TerraformRender.IntToStringClean(i);
      var t := IntToString(i);
      assert t != [] && t[0] != '"' by {
        if i < 0 { assert t[0] == '-'; } else { TerraformRender.NatToStringNoSign(i); }
      }
      assert t != "true" && t != "false" by {
        if i < 0 { assert t[0] == '-'; } else { assert AllDigits(NatToString(i)); }
      }
    case Bool(b) =>
  }

  /** As written, a boolean line never reads back: `True` and `False`
      are not values of the file's language. */
  lemma TfvarsBoolLineAsWritten(key: string, b: bool)
    ensures ParseLine(key, TfvarsLineAsWritten((key, Bool(b)))) == None
    ensures TfvarsLineAsWritten((key, Bool(b))) == key + " = " + (if b then "True" else "False") + "\n"
  {
    var line := TfvarsLineAsWritten((key, Bool(b)));
    var prefix := key + " = ";
    var t := if b then "True" else "False";
    assert line[|prefix|..|line| - 1] == t;
    assert t != "true" && t != "false" by { assert t[0] == if b then 'T' else 'F'; }
    assert t[0] != '"' && !AllDigits(t) && !(t[0] == '-');
  }

  /** The file `create` writes as written: every variables file carries
      `enable_auth`, so it always holds, as a whole line, a line that does
      not read back. */
  lemma EveryAsWrittenFileHasABadLine(args: Args, root: string, fs: CliEffect -> bool, run: (string, seq<string>) -> int)
    ensures var vars := TerraformVars(args);
            var lines := LinesAsWritten(vars);
            && |lines| > 8
            && CreateCluster(args, root, fs, run).0[0] == WriteFile(TfvarsPath(root, ClusterName(args)), TfvarsTextAsWritten(vars))
            && TfvarsTextAsWritten(vars) == Concat(lines[..8]) + lines[8] + Concat(lines[9..])
            && lines[8] == "enable_auth" + " = " + (if args.enableAuth then "True" else "False") + "\n"
            && ParseLine("enable_auth", lines[8]) == None
  {
    var vars := TerraformVars(args);
    var lines := LinesAsWritten(vars);
    assert vars[8] == ("enable_auth", Bool(args.enableAuth));
    assert lines[8] == TfvarsLineAsWritten(("enable_auth", Bool(args.enableAuth)));
    TfvarsBoolLineAsWritten("enable_auth", args.enableAuth);
    ConcatAround(lines, 8);
    CreateClusterWrites(args, root, fs, run, TfvarsTextAsWritten(vars));
  }

  /** A text of lines is the lines before line `k`, line `k`, and the
      lines after it. */
  lemma {:induction false} ConcatAround(lines: seq<string>, k: nat)
    requires k < |lines|
    ensures Concat(lines) == Concat(lines[..k]) + lines[k] + Concat(lines[k + 1..])
    decreases k
  {
    if k == 0 {
      assert lines[..0] == [];
    } else {
      ConcatAround(lines[1..], k - 1);
      assert lines[..k][1..] == lines[1..][..k - 1];
      assert lines[1..][k..] == lines[k + 1..];
    }
  }

  /** The file the corrected `create` writes: the same lines with booleans
      as HCL literals, and every scalar line, `enable_auth` among them,
      reads back as the value of its variable. */
  lemma CorrectedFileReadsBack(args: Args, root: string, fs: CliEffect -> bool, run: (string, seq<string>) -> int)
    ensures var vars := TerraformVars(args);
            var lines := Lines(vars);
            && CreateClusterCorrected(args, root, fs, run).0[0] == WriteFile(TfvarsPath(root, ClusterName(args)), TfvarsText(vars))
            && TfvarsText(vars) == Concat(lines)
            && (forall i :: 0 <= i < |vars| && PlainScalar(vars[i].1) ==> ParseLine(vars[i].0, lines[i]) == Some(vars[i].1))
            && vars[8] == ("enable_auth", Bool(args.enableAuth))
            && ParseLine("enable_auth", lines[8]) == Some(Bool(args.enableAuth))
  {
    var vars := TerraformVars(args);
    var lines := Lines(vars);
    forall i | 0 <= i < |vars| && PlainScalar(vars[i].1) ensures ParseLine(vars[i].0, lines[i]) == Some(vars[i].1) {
      TfvarsLineRoundTrip(vars[i]);
    }
    assert vars[8] == ("enable_auth", Bool(args.enableAuth));
    CreateClusterWrites(args, root, fs, run, TfvarsText(vars));
  }

  // ---- Commands ----

  /** The Terraform command of an action; an unknown action is an error. */
  function TerraformCommand(action: string, varsFile: string): (r: Result<seq<string>, string>)
    ensures r.Success? <==> action in ["init", "plan", "apply", "destroy"]
    ensures r.Success? ==> |r.value| >= 2 && r.value[..2] == ["terraform", action]
    ensures r.Success? ==> ("-auto-approve" in r.value <==> action == "apply" || action == "destroy")
    ensures r.Success? ==> (("-var-file=" + varsFile) in r.value <==> action != "init")
    ensures r.Failure? ==> r.error == "Unknown terraform action: " + action
  {
    var file := "-var-file=" + varsFile;
    assert file != "-auto-approve" && file != "terraform" by { assert file[1] != "-auto-approve"[1]; }
    assert file != action || action !in ["init", "plan", "apply", "destroy"];
    if action == "init" then Success(["terraform", "init"])
    else if action == "plan" then Success(["terraform", "plan", file])
    else if action == "apply" then Success(["terraform", "apply", file, "-auto-approve"])
    else if action == "destroy" then Success(["terraform", "destroy", file, "-auto-approve"])
    else Failure("Unknown terraform action: " + action)
  }

  /** The `ansible-playbook` command of a playbook and an inventory; the
      variables file is passed with `-e @file` exactly when it is given. */
  function AnsibleCommand(playbook: string, inventory: string, varsFile: string): (r: seq<string>)
    ensures |r| >= 4 && r[0] == "ansible-playbook" && r[1] == "-i"
    ensures r[2] == "inventories/" + inventory && r[3] == "playbooks/" + playbook
    ensures ("-e" in r) <==> varsFile != ""
    ensures varsFile != "" ==> r[4..] == ["-e", "@" + varsFile]
    ensures varsFile == "" ==> |r| == 4
  {
    assert "inventories/" + inventory != "-e" by { assert ("inventories/" + inventory)[0] == 'i'; }
    assert "playbooks/" + playbook != "-e" by { assert ("playbooks/" + playbook)[0] == 'p'; }
    ["ansible-playbook", "-i", "inventories/" + inventory, "playbooks/" + playbook]
    + (if varsFile != "" then ["-e", "@" + varsFile] else [])
  }

  function DeployBook(tier: string): string { "deploy-" + tier + ".yml" }
  function InitBook(tier: string): string { "init-" + tier + ".yml" }
  const ConfigureSharding: string := "configure-sharding.yml"

  /** The playbooks of a cluster type, each with its inventory, in the
      order they run. */
  function Playbooks(t: ClusterType, clusterName: string): (r: seq<(string, string)>)
    ensures |r| == match t case Standalone => 1 case ReplicaSetCluster => 2 case Sharded => 6
  {
    match t
    case Standalone => [(DeployBook("standalone"), clusterName + ".ini")]
    case ReplicaSetCluster =>
      [(DeployBook("replicaset"), clusterName + ".ini"), (InitBook("replica-set"), clusterName + ".ini")]
    case Sharded =>
      [(DeployBook("config-servers"), "config-servers.ini"), (InitBook("config-replica-set"), "config-servers.ini"),
       (DeployBook("shard-servers"), "shard-servers.ini"), (InitBook("shard-replica-sets"), "shard-servers.ini"),
       (DeployBook("mongos"), "mongos.ini"), (ConfigureSharding, "mongos.ini")]
  }

  /** Every initialising playbook runs right after a deploying playbook
      of the same inventory, and the list starts with a deploying one. */
  predicate DeployBeforeInit(r: seq<(string, string)>) {
    |r| >= 1 && StartsWith(r[0].0, "deploy-")
    && forall i :: 0 <= i < |r| && StartsWith(r[i].0, "init-") ==>
         i > 0 && StartsWith(r[i - 1].0, "deploy-") && r[i - 1].1 == r[i].1
  }

  /** Which family a playbook name belongs to, read off its first letter. */
  lemma BookKinds(tier: string)
    ensures StartsWith(DeployBook(tier), "deploy-") && !StartsWith(DeployBook(tier), "init-")
    ensures StartsWith(InitBook(tier), "init-") && !StartsWith(InitBook(tier), "deploy-")
    ensures !StartsWith(ConfigureSharding, "init-")
    ensures DeployBook(tier) != ConfigureSharding && InitBook(tier) != ConfigureSharding
  {
    assert DeployBook(tier)[..7] == "deploy-";
    assert InitBook(tier)[..5] == "init-";
    assert DeployBook(tier)[0] == 'd' && InitBook(tier)[0] == 'i' && ConfigureSharding[0] == 'c';
  }

  /** The tiers of a sharded cluster come in the order config servers,
      shards, mongos: every playbook of an earlier tier's inventory runs
      before every playbook of a later one. */
  predicate TiersInOrder(r: seq<(string, string)>) {
    forall i, j :: 0 <= i < |r| && 0 <= j < |r| ==>
      && (r[i].1 == "config-servers.ini" && r[j].1 == "shard-servers.ini" ==> i < j)
      && (r[i].1 == "shard-servers.ini" && r[j].1 == "mongos.ini" ==> i < j)
      && (r[i].1 == "config-servers.ini" && r[j].1 == "mongos.ini" ==> i < j)
  }

  /** The playbooks of every cluster type deploy before they initialise;
      sharding is configured last, and only for a sharded cluster, after
      the config servers, the shards and the mongos routers, in that order. */
  lemma PlaybookOrder(t: ClusterType, clusterName: string)
    ensures DeployBeforeInit(Playbooks(t, clusterName))
    ensures var r := Playbooks(t, clusterName);
            forall i :: 0 <= i < |r| && r[i].0 == ConfigureSharding ==> i == |r| - 1 && t == Sharded
    ensures t == Sharded ==>
              var r := Playbooks(t, clusterName);
              && TiersInOrder(r) && r[|r| - 1].0 == ConfigureSharding
              && (forall i :: 0 <= i < |r| ==> r[i].1 in {"config-servers.ini", "shard-servers.ini", "mongos.ini"})
  {
    match t
    case Standalone => BookKinds("standalone");
    case ReplicaSetCluster => ReplicaSetPlaybookOrder(clusterName);
    case Sharded => ShardedPlaybookOrder(clusterName);
  }

  lemma ReplicaSetPlaybookOrder(clusterName: string)
    ensures DeployBeforeInit(Playbooks(ReplicaSetCluster, clusterName))
    ensures forall i :: 0 <= i < 2 ==> Playbooks(ReplicaSetCluster, clusterName)[i].0 != ConfigureSharding
  {
    BookKinds("replicaset");
    BookKinds("replica-set");
  }

  lemma ShardedPlaybookOrder(clusterName: string)
    ensures DeployBeforeInit(Playbooks(Sharded, clusterName))
    ensures forall i :: 0 <= i < 5 ==> Playbooks(Sharded, clusterName)[i].0 != ConfigureSharding
    ensures TiersInOrder(Playbooks(Sharded, clusterName))
  {
    var r := Playbooks(Sharded, clusterName);
    BookKinds("config-servers");
    BookKinds("config-replica-set");
    BookKinds("shard-servers");
    BookKinds("shard-replica-sets");
    BookKinds("mongos");
    forall i | 0 <= i < 6 && StartsWith(r[i].0, "init-")
      ensures i > 0 && StartsWith(r[i - 1].0, "deploy-") && r[i - 1].1 == r[i].1
    {
      assert i == 1 || i == 3;
    }
    assert "config-servers.ini"[0] == 'c' && "shard-servers.ini"[0] == 's' && "mongos.ini"[0] == 'm';
  }

  /** The cluster name, `mongodb-cluster` when none is given. */
  function ClusterName(args: Args): (name: string)
    ensures Present(args.clusterName) ==> name == args.clusterName.value
    ensures !Present(args.clusterName) ==> name == "mongodb-cluster"
  {
    if Present(args.clusterName) then args.clusterName.value else "mongodb-cluster"
  }

  function TerraformDir(root: string): string { root + "/infra/terraform" }
  function AnsibleDir(root: string): string { root + "/infra/ansible" }
  function TfvarsPath(root: string, name: string): string { TerraformDir(root) + "/" + name + ".tfvars" }
  function AnsibleVarsPath(root: string, name: string): string { AnsibleDir(root) + "/group_vars/" + name + ".yml" }

  /** What the command line asks of the outside world. */
  datatype CliEffect =
    | WriteFile(path: string, text: string)
    | MakeDir(path: string)
    | WriteYaml(path: string, vars: Vars)
    | Run(cwd: string, argv: seq<string>)
    | RemoveFile(path: string)

  /** The commands `create` runs, in order, each with its directory. */
  function CreateCommands(args: Args, root: string): (r: seq<(string, seq<string>)>)
    ensures var books := Playbooks(args.clusterType, ClusterName(args));
            var tfvars := TfvarsPath(root, ClusterName(args));
            && |r| == 3 + |books|
            && r[0] == (TerraformDir(root), ["terraform", "init"])
            && r[1] == (TerraformDir(root), ["terraform", "plan", "-var-file=" + tfvars])
            && r[2] == (TerraformDir(root), ["terraform", "apply", "-var-file=" + tfvars, "-auto-approve"])
            && forall i :: 0 <= i < |books| ==>
                 r[3 + i] == (AnsibleDir(root), AnsibleCommand(books[i].0, books[i].1, AnsibleVarsPath(root, ClusterName(args))))
  {
    var name := ClusterName(args);
    var tfvars := TfvarsPath(root, name);
    var ansibleVars := AnsibleVarsPath(root, name);
    var books := Playbooks(args.clusterType, name);
    [(TerraformDir(root), TerraformCommand("init", tfvars).value),
     (TerraformDir(root), TerraformCommand("plan", tfvars).value),
     (TerraformDir(root), TerraformCommand("apply", tfvars).value)]
    + seq(|books|, i requires 0 <= i < |books| => (AnsibleDir(root), AnsibleCommand(books[i].0, books[i].1, ansibleVars)))
  }

  /** Runs commands in order until one returns a non-zero code; `ok`
      says whether all of them returned zero. */
  function RunUntilFailure(cmds: seq<(string, seq<string>)>, run: (string, seq<string>) -> int)
    : (r: (seq<CliEffect>, bool))
  {
    if cmds == [] then ([], true)
    else
      var first := Run(cmds[0].0, cmds[0].1);
      if run(cmds[0].0, cmds[0].1) != 0 then ([first], false)
      else
        var (rest, ok) := RunUntilFailure(cmds[1..], run);
        ([first] + rest, ok)
  }

  function Runs(cmds: seq<(string, seq<string>)>): seq<CliEffect> {
    seq(|cmds|, i requires 0 <= i < |cmds| => Run(cmds[i].0, cmds[i].1))
  }

  /** Whatever stops it, the run's effects are the first commands, in
      order. */
  lemma {:induction false} RunUntilFailurePrefix(cmds: seq<(string, seq<string>)>, run: (string, seq<string>) -> int)
    ensures var effects := RunUntilFailure(cmds, run).0;
            |effects| <= |cmds| && forall j :: 0 <= j < |effects| ==> effects[j] == Run(cmds[j].0, cmds[j].1)
  {
    if cmds != [] && run(cmds[0].0, cmds[0].1) == 0 {
      RunUntilFailurePrefix(cmds[1..], run);
    }
  }

  /** All commands run and succeed exactly when every code is zero;
      otherwise the run stops at the first command with a non-zero code. */
  lemma {:induction false} RunUntilFailureStops(cmds: seq<(string, seq<string>)>, run: (string, seq<string>) -> int)
    ensures var (effects, ok) := RunUntilFailure(cmds, run);
            && (ok <==> forall i :: 0 <= i < |cmds| ==> run(cmds[i].0, cmds[i].1) == 0)
            && (ok ==> |effects| == |cmds|)
            && (!ok ==> 1 <= |effects| <= |cmds|
                        && run(cmds[|effects| - 1].0, cmds[|effects| - 1].1) != 0
                        && forall j :: 0 <= j < |effects| - 1 ==> run(cmds[j].0, cmds[j].1) == 0)
  {
    if cmds != [] && run(cmds[0].0, cmds[0].1) == 0 {
      RunUntilFailureStops(cmds[1..], run);
      assert forall i :: 1 <= i < |cmds| ==> cmds[i] == cmds[1..][i - 1];
    }
  }

  /** The three writes `create` makes before its first command. */
  function CreateWrites(args: Args, root: string, tfvarsText: string): seq<CliEffect> {
    var name := ClusterName(args);
    [WriteFile(TfvarsPath(root, name), tfvarsText),
     MakeDir(AnsibleDir(root) + "/group_vars"),
     WriteYaml(AnsibleVarsPath(root, name), AnsibleVars(args))]
  }

  /** Every file-system effect of `writes` succeeds under `fs`. */
  predicate WritesSucceed(writes: seq<CliEffect>, fs: CliEffect -> bool) {
    forall j :: 0 <= j < |writes| ==> fs(writes[j])
  }

  /** `create` with the variables file text given. `fs` says which
      file-system effects succeed: the writes sit outside the `try`, so a
      failing one (a missing `infra/terraform` or `infra/ansible`, say)
      raises and ends the program with status 1 before any command. After
      the writes the commands run until one fails; the exit status is 0
      when every command succeeded and 1 otherwise. */
  function CreateClusterWriting(args: Args, root: string, fs: CliEffect -> bool, run: (string, seq<string>) -> int, tfvarsText: string)
    : (seq<CliEffect>, int)
  {
    var writes := CreateWrites(args, root, tfvarsText);
    if !fs(writes[0]) then ([writes[0]], 1)
    else if !fs(writes[1]) then (writes[..2], 1)
    else if !fs(writes[2]) then (writes, 1)
    else
      var (effects, ok) := RunUntilFailure(CreateCommands(args, root), run);
      (writes + effects, if ok then 0 else 1)
  }

  /** The writes are attempted in order, first of all; a failing one ends
      `create` with status 1 and nothing after it. When all succeed, the
      commands follow them. */
  lemma CreateClusterWrites(args: Args, root: string, fs: CliEffect -> bool, run: (string, seq<string>) -> int, tfvarsText: string)
    ensures var (effects, code) := CreateClusterWriting(args, root, fs, run, tfvarsText);
            var writes := CreateWrites(args, root, tfvarsText);
            && 1 <= |effects| && effects[0] == writes[0]
            && (WritesSucceed(writes, fs) ==> |effects| >= 3 && effects[..3] == writes
                                              && effects[3..] == RunUntilFailure(CreateCommands(args, root), run).0
                                              && (code == 0 <==> RunUntilFailure(CreateCommands(args, root), run).1))
            && (!WritesSucceed(writes, fs) ==> var k := |effects|;
                                               && code == 1 && k <= 3 && effects == writes[..k]
                                               && !fs(writes[k - 1])
                                               && forall j :: 0 <= j < k - 1 ==> fs(writes[j]))
  {
    var writes := CreateWrites(args, root, tfvarsText);
    if WritesSucceed(writes, fs) {
      var effects := CreateClusterWriting(args, root, fs, run, tfvarsText).0;
      assert effects[3..] == RunUntilFailure(CreateCommands(args, root), run).0;
    } else if !fs(writes[0]) {
    } else if !fs(writes[1]) {
    } else {
      assert !fs(writes[2]) by { assert !forall j :: 0 <= j < 3 ==> fs(writes[j]); }
    }
  }

  /** `create` as written: the variables file prints booleans with `str`. */
  function CreateCluster(args: Args, root: string, fs: CliEffect -> bool, run: (string, seq<string>) -> int): (seq<CliEffect>, int) {
    CreateClusterWriting(args, root, fs, run, TfvarsTextAsWritten(TerraformVars(args)))
  }

  /** `create` with booleans written as HCL literals. */
  function CreateClusterCorrected(args: Args, root: string, fs: CliEffect -> bool, run: (string, seq<string>) -> int): (seq<CliEffect>, int) {
    CreateClusterWriting(args, root, fs, run, TfvarsText(TerraformVars(args)))
  }

  /** An argument vector that destroys the infrastructure. */
  predicate IsDestroy(argv: seq<string>) {
    |argv| >= 2 && argv[0] == "terraform" && argv[1] == "destroy"
  }

  lemma CreateCommandsNeverDestroy(args: Args, root: string)
    ensures forall i :: 0 <= i < |CreateCommands(args, root)| ==> !IsDestroy(CreateCommands(args, root)[i].1)
  {
    var cmds := CreateCommands(args, root);
    var tfvars := TfvarsPath(root, ClusterName(args));
    assert "destroy" != "init" && "destroy" != "plan" && "destroy" != "apply" by {
      assert "destroy"[0] != "init"[0] && "destroy"[0] != "plan"[0] && "destroy"[0] != "apply"[0];
    }
    forall i | 0 <= i < |cmds| ensures !IsDestroy(cmds[i].1) {
      if i >= 3 {
        assert cmds[i].1[0] == "ansible-playbook";
        assert "ansible-playbook"[0] != "terraform"[0];
      } else {
        assert cmds[i].1[1] == ["init", "plan", "apply"][i];
      }
    }
  }

  /** `create` exits with 0 exactly when its three writes and every
      command succeed, then having run all commands in order after the
      writes. A failing write ends it at that write; a failing command
      ends it at that command. */
  lemma CreateClusterMeaning(args: Args, root: string, fs: CliEffect -> bool, run: (string, seq<string>) -> int)
    ensures var (effects, code) := CreateCluster(args, root, fs, run);
            var cmds := CreateCommands(args, root);
            var name := ClusterName(args);
            var writes := [WriteFile(TfvarsPath(root, name), TfvarsTextAsWritten(TerraformVars(args))),
                           MakeDir(AnsibleDir(root) + "/group_vars"),
                           WriteYaml(AnsibleVarsPath(root, name), AnsibleVars(args))];
            && (code == 0 || code == 1)
            && (code == 0 <==> WritesSucceed(writes, fs) && forall i :: 0 <= i < |cmds| ==> run(cmds[i].0, cmds[i].1) == 0)
            && (!WritesSucceed(writes, fs) ==> var k := |effects|;
                                               && 1 <= k <= 3 && effects == writes[..k]
                                               && !fs(writes[k - 1]) && forall j :: 0 <= j < k - 1 ==> fs(writes[j]))
            && (WritesSucceed(writes, fs) ==> |effects| >= 3 && effects[..3] == writes)
            && (code == 0 ==> effects[3..] == Runs(cmds))
            && (code == 1 && WritesSucceed(writes, fs) ==> var k := |effects| - 3;
                              && 1 <= k <= |cmds| && effects[3..] == Runs(cmds[..k])
                              && run(cmds[k - 1].0, cmds[k - 1].1) != 0)
  {
    var cmds := CreateCommands(args, root);
    var text := TfvarsTextAsWritten(TerraformVars(args));
    var writes := CreateWrites(args, root, text);
    CreateClusterWrites(args, root, fs, run, text);
    if WritesSucceed(writes, fs) {
      RunUntilFailureStops(cmds, run);
      RunUntilFailurePrefix(cmds, run);
      var (effects, code) := CreateCluster(args, root, fs, run);
      var runs := RunUntilFailure(cmds, run).0;
      assert effects[3..] == runs;
      if code == 0 {
        assert runs == Runs(cmds);
      } else {
        assert runs == Runs(cmds[..|runs|]);
      }
    }
  }

  /** `create` never runs `terraform destroy`, whatever the writes and
      the commands return. */
  lemma CreateNeverDestroys(args: Args, root: string, fs: CliEffect -> bool, run: (string, seq<string>) -> int)
    ensures var effects := CreateCluster(args, root, fs, run).0;
            forall i :: 0 <= i < |effects| && effects[i].Run? ==> !IsDestroy(effects[i].argv)
  {
    var cmds := CreateCommands(args, root);
    var writes := CreateWrites(args, root, TfvarsTextAsWritten(TerraformVars(args)));
    RunUntilFailurePrefix(cmds, run);
    CreateCommandsNeverDestroy(args, root);
    CreateClusterWrites(args, root, fs, run, TfvarsTextAsWritten(TerraformVars(args)));
    var effects := CreateCluster(args, root, fs, run).0;
    var runs := RunUntilFailure(cmds, run).0;
    forall i | 0 <= i < |effects| && effects[i].Run? ensures !IsDestroy(effects[i].argv) {
      assert i >= 3 && effects[i] == runs[i - 3];
    }
  }

  /** The `create` sub-command: the parameter check, then the cluster. */
  function Provision(args: Args, root: string, fs: CliEffect -> bool, run: (string, seq<string>) -> int): (seq<CliEffect>, int) {
    if ParameterErrors(args) != [] then ([], 1) else CreateCluster(args, root, fs, run)
  }

  /** Nothing is written or run for parameters the check refuses; for the
      others the exit status is 0 exactly when the three writes and every
      command succeed. */
  lemma ProvisionChecksFirst(args: Args, root: string, fs: CliEffect -> bool, run: (string, seq<string>) -> int)
    ensures var (effects, code) := Provision(args, root, fs, run);
            var cmds := CreateCommands(args, root);
            var writes := CreateWrites(args, root, TfvarsTextAsWritten(TerraformVars(args)));
            && (ParameterErrors(args) != [] ==> effects == [] && code == 1)
            && (code == 0 <==> && ParameterErrors(args) == []
                               && WritesSucceed(writes, fs)
                               && forall i :: 0 <= i < |cmds| ==> run(cmds[i].0, cmds[i].1) == 0)
  {
    CreateClusterMeaning(args, root, fs, run);
  }

  // ---- Destroy ----

  /** The confirmation: the answer, lower-cased, is `yes`. */
  predicate Confirmed(answer: string) {
    AsciiLower(answer) == "yes"
  }

  /** The answers that confirm are the eight spellings of `yes` in any
      mix of cases, and nothing else. */
  lemma ConfirmedAnswers(answer: string)
    ensures Confirmed(answer) <==> |answer| == 3 && answer[0] in "yY" && answer[1] in "eE" && answer[2] in "sS"
  {
    if |answer| == 3 {
      var l := AsciiLower(answer);
      assert l == [AsciiLowerChar(answer[0]), AsciiLowerChar(answer[1]), AsciiLowerChar(answer[2])];
    }
  }

  /** `destroy`: without the variables file nothing happens and the exit
      status is 1. Otherwise the prompt is read: `answer` is None when
      `input()` meets the end of input, which raises and exits with 1. A
      confirming answer runs `terraform destroy`; when it succeeds the file
      is removed, and a removal that fails (`fs`) raises and exits with 1.
      Any other answer cancels. */
  function DestroyCluster(root: string, name: string, fileExists: bool, answer: Option<string>, destroyCode: int,
                          fs: CliEffect -> bool)
    : (r: (seq<CliEffect>, int))
  {
    var tfvars := TfvarsPath(root, name);
    if !fileExists || answer.None? then ([], 1)
    else if Confirmed(answer.value) then
      var cmd := Run(TerraformDir(root), TerraformCommand("destroy", tfvars).value);
      if destroyCode != 0 then ([cmd], 1)
      else ([cmd, RemoveFile(tfvars)], if fs(RemoveFile(tfvars)) then 0 else 1)
    else ([], 0)
  }

  /** Something is destroyed exactly when the file exists and the answer
      confirms; the file's removal is attempted exactly when the destroy
      succeeded; the exit status is 0 exactly for a cancelled or a
      completed destroy. */
  lemma DestroyGate(root: string, name: string, fileExists: bool, answer: Option<string>, destroyCode: int,
                    fs: CliEffect -> bool)
    ensures var (effects, code) := DestroyCluster(root, name, fileExists, answer, destroyCode, fs);
            var tfvars := TfvarsPath(root, name);
            && (effects != [] <==> fileExists && answer.Some? && Confirmed(answer.value))
            && (effects != [] ==> effects[0].Run? && IsDestroy(effects[0].argv) && "-auto-approve" in effects[0].argv)
            && (RemoveFile(tfvars) in effects <==> fileExists && answer.Some? && Confirmed(answer.value) && destroyCode == 0)
            && (answer.None? ==> effects == [] && code == 1)
            && (code == 0 <==> && fileExists && answer.Some?
                               && (!Confirmed(answer.value) || (destroyCode == 0 && fs(RemoveFile(tfvars)))))
  {
  }
}
