/** The Terraform service: a registry of provisioning jobs kept in memory,
    the request that validates a configuration and registers a job, and
    the background workflow that prepares a Terraform workspace, plans,
    applies, reads the outputs and records the replica set's topology.

    Everything outside the process (the file system, the `terraform`
    executable, the JSON parser) is an `Environment` of outcomes given to
    the workflow, and what the workflow asks of the outside world comes
    back as a log of `Effect`s. */
module Orchestrator {
  import opened Wrappers
  import opened Strings
  import opened ReplicaSetModel
  import opened MongoValidator
  import opened TerraformRender

  // ---- Jobs ----

  /** One entry of the job registry. `terraformOutputs` and `topology`
      are absent until the workflow has reached them. */
  datatype JobRecord = JobRecord(
    jobId: string,
    replicaSetName: string,
    status: ReplicaSetStatus,
    progress: int,
    message: string,
    createdAt: string,
    updatedAt: string,
    workspaceName: string,
    config: ReplicaSetConfig,
    estimatedCompletionMinutes: int,
    errorDetails: Option<string>,
    completedAt: Option<string>,
    terraformOutputs: Option<TerraformOutputs>,
    topology: Option<ConnectionInfo>)

  /** The answer to a creation request. */
  datatype CreateResponse = CreateResponse(
    jobId: string,
    replicaSetName: string,
    status: ReplicaSetStatus,
    message: string,
    createdAt: string,
    estimatedCompletionTime: Option<string>,
    terraformWorkspace: string)

  const DefaultTemplateDir: string := "/Users/jhkim/dev/mongo-automation/infra/terraform/replica-set"
  const DefaultWorkspaceDir: string := "/tmp/terraform-workspaces"

  /** The workspace of a job: the replica set's name and the first eight
      characters of the job id. */
  function WorkspaceName(replicaSetName: string, jobId: string): (w: string)
    ensures StartsWith(w, replicaSetName + "-")
    ensures |w| == |replicaSetName| + 1 + (if |jobId| < 8 then |jobId| else 8)
    ensures w[|replicaSetName| + 1..] == Take(jobId, 8)
  {
    replicaSetName + "-" + Take(jobId, 8)
  }

  function WorkspaceDir(baseDir: string, workspaceName: string): string {
    baseDir + "/" + workspaceName
  }

  /** Minutes to completion: ten, plus two for each member. */
  function EstimateCompletionTime(c: ReplicaSetConfig): (minutes: nat)
    ensures minutes >= 10 && minutes % 2 == 0
    ensures (minutes - 10) / 2 == |c.members|
  {
    10 + |c.members| * 2
  }

  function NewJob(jobId: string, c: ReplicaSetConfig, now: string): JobRecord {
    JobRecord(jobId, c.replicaSetName, Pending, 0, "작업 대기 중", now, now,
              WorkspaceName(c.replicaSetName, jobId), c, EstimateCompletionTime(c),
              None, None, None, None)
  }

  /** The answer to a creation request: a failure naming every validator
      message when the configuration has an error, otherwise a pending
      job with its estimate. */
  function CreateResponseFor(c: ReplicaSetConfig, jobId: string, now: string): (r: CreateResponse)
    ensures r.jobId == jobId && r.replicaSetName == c.replicaSetName
    ensures r.terraformWorkspace == WorkspaceName(c.replicaSetName, jobId)
    ensures r.status == Failed <==> Errors(c) != []
    ensures r.status == Pending <==> Errors(c) == []
    ensures r.estimatedCompletionTime.Some? <==> Errors(c) == []
    ensures Errors(c) != [] ==> StartsWith(r.message, "검증 실패: ")
    ensures Errors(c) != [] ==> r.message == "검증 실패: " + Join(Messages(c), "; ")
    ensures Errors(c) == [] ==> r.message == "ReplicaSet 생성 작업이 시작되었습니다"
    ensures Errors(c) == [] ==>
              var t := r.estimatedCompletionTime.value;
              && |t| >= 2 && t[|t| - 1] == '분' && AllDigits(t[..|t| - 1])
              && DigitsValue(t[..|t| - 1]) == EstimateCompletionTime(c)
  {
    if Errors(c) != [] then
      CreateResponse(jobId, c.replicaSetName, Failed, "검증 실패: " + Join(Messages(c), "; "), now, None,
                     WorkspaceName(c.replicaSetName, jobId))
    else
      var d := NatToString(EstimateCompletionTime(c));
      NatToStringRoundTrip(EstimateCompletionTime(c));
      assert (d + "분")[..|d|] == d;
      CreateResponse(jobId, c.replicaSetName, Pending, "ReplicaSet 생성 작업이 시작되었습니다", now,
                     Some(d + "분"), WorkspaceName(c.replicaSetName, jobId))
  }

  /** A status update: status, progress, message and error details are
      replaced, and a job that reaches `Ready` or `Failed` records when it
      completed. */
  function Updated(rec: JobRecord, status: ReplicaSetStatus, progress: int, message: string,
                   errorDetails: Option<string>, now: string): (r: JobRecord)
    ensures r.status == status && r.progress == progress && r.message == message
    ensures r.errorDetails == errorDetails && r.updatedAt == now
    ensures status == Ready || status == Failed ==> r.completedAt == Some(now)
    ensures status != Ready && status != Failed ==> r.completedAt == rec.completedAt
    ensures SameJob(r, rec) && r.terraformOutputs == rec.terraformOutputs && r.topology == rec.topology
  {
    var r := rec.(status := status, progress := progress, message := message, updatedAt := now,
                  errorDetails := errorDetails);
    if status == Ready || status == Failed then r.(completedAt := Some(now)) else r
  }

  /** The fields a job keeps for its whole life. */
  predicate SameJob(a: JobRecord, b: JobRecord) {
    a.jobId == b.jobId && a.replicaSetName == b.replicaSetName && a.createdAt == b.createdAt
    && a.workspaceName == b.workspaceName && a.config == b.config
    && a.estimatedCompletionMinutes == b.estimatedCompletionMinutes
  }

  // ---- The outside world ----

  /** How a process started by the service ended: with a return code and
      its standard output, or by raising (for instance when the
      executable is missing). */
  datatype ToolOutcome = Exited(returnCode: int, stdout: string) | Raised(error: string)

  datatype Completed = Completed(returnCode: int, stdout: string)

  /** The outcome of every call the workflow makes outside the process.
      Each Terraform command is preceded by a `terraform init` with its own
      outcome. */
  datatype Environment = Environment(
    mkdirError: Option<string>,
    templateExists: bool,
    copyError: Option<string>,
    writeError: Option<string>,
    planInit: ToolOutcome,
    plan: ToolOutcome,
    applyInit: ToolOutcome,
    apply: ToolOutcome,
    outputInit: ToolOutcome,
    output: ToolOutcome,
    outputParse: Result<TerraformOutputs, string>,
    workspaceExists: bool,
    destroyInit: ToolOutcome,
    destroy: ToolOutcome)

  /** What the workflow asks of the outside world, in order.
      `WriteTfvars(path, c)` writes the text `TfvarsText(c)` to `path`. */
  datatype Effect =
    | MakeDir(path: string)
    | CopyTemplates(templateDir: string, workspaceDir: string)
    | WriteTfvars(path: string, config: ReplicaSetConfig)
    | RunTool(cwd: string, argv: seq<string>)
    | RemoveTree(path: string)

  const InitArgv: seq<string> := ["terraform", "init"]

  function TemplateMissingText(templateDir: string): string {
    "Terraform 템플릿 디렉토리를 찾을 수 없습니다: " + templateDir
  }

  /** Preparing the workspace: create it, check the template directory,
      copy the templates, write `terraform.tfvars`; the first failure
      stops it. */
  function PrepareRun(templateDir: string, dir: string, c: ReplicaSetConfig, env: Environment)
    : (r: (seq<Effect>, Option<string>))
    ensures r.1.None? <==> env.mkdirError.None? && env.templateExists && env.copyError.None? && env.writeError.None?
    ensures r.1.None? ==> r.0 == [MakeDir(dir), CopyTemplates(templateDir, dir),
                                  WriteTfvars(dir + "/terraform.tfvars", c)]
    ensures |r.0| >= 1 && r.0[0] == MakeDir(dir)
  {
    if env.mkdirError.Some? then ([MakeDir(dir)], env.mkdirError)
    else if !env.templateExists then ([MakeDir(dir)], Some(TemplateMissingText(templateDir)))
    else if env.copyError.Some? then ([MakeDir(dir), CopyTemplates(templateDir, dir)], env.copyError)
    else
      var effects := [MakeDir(dir), CopyTemplates(templateDir, dir), WriteTfvars(dir + "/terraform.tfvars", c)];
      (effects, env.writeError)
  }

  /** One Terraform command: `terraform init`, whose return code is not
      looked at, then the command itself. */
  function CommandRun(dir: string, cmd: seq<string>, init: ToolOutcome, main: ToolOutcome)
    : (r: (seq<Effect>, Result<Completed, string>))
    ensures r.1.Success? <==> init.Exited? && main.Exited?
    ensures r.1.Success? ==> r.1.value == Completed(main.returnCode, main.stdout)
    ensures r.0 == if init.Raised? then [RunTool(dir, InitArgv)]
                   else [RunTool(dir, InitArgv), RunTool(dir, TerraformArgv(cmd))]
  {
    if init.Raised? then ([RunTool(dir, InitArgv)], Failure(init.error))
    else
      var effects := [RunTool(dir, InitArgv), RunTool(dir, TerraformArgv(cmd))];
      match main
      case Raised(e) => (effects, Failure(e))
      case Exited(code, out) => (effects, Success(Completed(code, out)))
  }

  /** Reading the outputs: the parsed JSON on a zero return code, the
      empty object otherwise. */
  function OutputsRun(dir: string, env: Environment): (r: (seq<Effect>, Result<TerraformOutputs, string>))
    ensures r.0 == CommandRun(dir, OutputArgs(), env.outputInit, env.output).0
    ensures r.1.Success? <==> env.outputInit.Exited? && env.output.Exited?
                              && (env.output.returnCode == 0 ==> env.outputParse.Success?)
    ensures r.1.Success? && env.output.returnCode != 0 ==> r.1.value == EmptyOutputs
    ensures r.1.Success? && env.output.returnCode == 0 ==> r.1.value == env.outputParse.value
  {
    var (effects, res) := CommandRun(dir, OutputArgs(), env.outputInit, env.output);
    if res.Failure? then (effects, Failure(res.error))
    else if res.value.returnCode != 0 then (effects, Success(OutputsFor(res.value.returnCode, EmptyOutputs)))
    else match env.outputParse
      case Failure(e) => (effects, Failure(e))
      case Success(o) => (effects, Success(OutputsFor(0, o)))
  }

  /** Cleaning up after a failure: when the workspace exists, destroy what
      was created and remove the directory. A raising destroy stops the
      clean-up before the removal. */
  function CleanupRun(dir: string, env: Environment): seq<Effect> {
    if !env.workspaceExists then []
    else
      var (effects, res) := CommandRun(dir, DestroyArgs(), env.destroyInit, env.destroy);
      if res.Failure? then effects else effects + [RemoveTree(dir)]
  }

  datatype Outcome = Outcome(rec: JobRecord, effects: seq<Effect>)

  /** The failure handler's update: the job fails at the progress it had
      reached, with the error as its details. */
  function FailedRecord(rec: JobRecord, error: string, now: string): JobRecord {
    Updated(rec, Failed, rec.progress, "ReplicaSet 생성 실패: " + error, Some(error), now)
  }

  /** The clean-up the failure handler runs, when the request asks for it. */
  function CleanupOnFailure(request: ReplicaSetCreateRequest, dir: string, env: Environment): seq<Effect> {
    if request.destroyOnFailure then CleanupRun(dir, env) else []
  }

  function FailedOutcome(rec: JobRecord, effects: seq<Effect>, error: string, request: ReplicaSetCreateRequest,
                         dir: string, env: Environment, now: string): Outcome
  {
    Outcome(FailedRecord(rec, error, now), effects + CleanupOnFailure(request, dir, env))
  }

  /** The record once the outputs are read: the outputs are recorded and
      the configuration (70) and initialisation (85) checkpoints passed. */
  function InitializingRecord(rec: JobRecord, o: TerraformOutputs, now: string): JobRecord {
    var r5 := rec.(terraformOutputs := Some(o));
    var r6 := Updated(r5, ConfiguringMongodb, 70, "MongoDB 설정 중", None, now);
    Updated(r6, InitializingReplicaSet, 85, "ReplicaSet 초기화 중", None, now)
  }

  /** The last steps of a run whose Terraform part went through: record
      the outputs, configure, initialise the replica set, record its
      topology and finish. */
  function CompletedRecord(rec: JobRecord, c: ReplicaSetConfig, o: TerraformOutputs, now: string): JobRecord {
    var r7 := InitializingRecord(rec, o, now);
    var topology := TopologyOf(c, LastPrimary(Instances(o)), SecondaryHosts(Instances(o)));
    var r8 := r7.(topology := Some(topology));
    Updated(r8, Ready, 100, "ReplicaSet 생성 완료", None, now)
  }

  /** The whole background workflow for the job `rec`, step by step as the
      service runs it, with its failure handler. */
  function Workflow(templateDir: string, baseDir: string, rec: JobRecord, request: ReplicaSetCreateRequest,
                    env: Environment, now: string): Outcome
  {
    var dir := WorkspaceDir(baseDir, rec.workspaceName);
    var r1 := Updated(rec, Validating, 10, "파라미터 검증 중", None, now);
    var r2 := Updated(r1, TerraformPlanning, 20, "Terraform 워크스페이스 준비 중", None, now);
    var (effects, prepared) := PrepareRun(templateDir, dir, request.config, env);
    if prepared.Some? then FailedOutcome(r2, effects, prepared.value, request, dir, env, now)
    else PlanStage(Updated(r2, TerraformPlanning, 30, "Terraform Plan 실행 중", None, now), effects, request, dir, env, now)
  }

  /** From `terraform plan` on; `effects` is what came before. */
  function PlanStage(rec: JobRecord, effects: seq<Effect>, request: ReplicaSetCreateRequest, dir: string,
                     env: Environment, now: string): Outcome
  {
    var (e, planned) := CommandRun(dir, PlanArgs(), env.planInit, env.plan);
    if planned.Failure? then FailedOutcome(rec, effects + e, planned.error, request, dir, env, now)
    else ApplyStage(Updated(rec, TerraformApplying, 50, "인프라 생성 중", None, now), effects + e, request, dir, env, now)
  }

  /** From `terraform apply` on. */
  function ApplyStage(rec: JobRecord, effects: seq<Effect>, request: ReplicaSetCreateRequest, dir: string,
                      env: Environment, now: string): Outcome
  {
    var (e, applied) := CommandRun(dir, ApplyArgs(request.autoApprove), env.applyInit, env.apply);
    if applied.Failure? then FailedOutcome(rec, effects + e, applied.error, request, dir, env, now)
    else OutputStage(rec, effects + e, request, dir, env, now)
  }

  /** From `terraform output` on. */
  function OutputStage(rec: JobRecord, effects: seq<Effect>, request: ReplicaSetCreateRequest, dir: string,
                       env: Environment, now: string): Outcome
  {
    var (e, outputs) := OutputsRun(dir, env);
    if outputs.Failure? then FailedOutcome(rec, effects + e, outputs.error, request, dir, env, now)
    else if outputs.value.malformed.Some? then
      FailedOutcome(InitializingRecord(rec, outputs.value, now), effects + e, outputs.value.malformed.value, request, dir, env, now)
    else Outcome(CompletedRecord(rec, request.config, outputs.value, now), effects + e)
  }

  /** Every call outside the process up to reading the outputs succeeds.
      Return codes of `plan`, `apply` and `init` play no part; a failing
      `output` only counts through the parser, which is not consulted
      then. */
  predicate TerraformSucceeds(env: Environment) {
    && env.mkdirError.None? && env.templateExists && env.copyError.None? && env.writeError.None?
    && env.planInit.Exited? && env.plan.Exited? && env.applyInit.Exited? && env.apply.Exited?
    && env.outputInit.Exited? && env.output.Exited?
    && (env.output.returnCode == 0 ==> env.outputParse.Success?)
  }

  /** The whole run succeeds: in addition, the outputs read have the shape
      the replica-set initialisation reads. */
  predicate ToolsSucceed(env: Environment) {
    TerraformSucceeds(env) && OutputsOf(env).malformed.None?
  }

  /** The outputs a successful run reads. */
  function OutputsOf(env: Environment): TerraformOutputs
    requires env.output.Exited?
  {
    if env.output.returnCode == 0 && env.outputParse.Success? then env.outputParse.value else EmptyOutputs
  }

  const MissingAttributeText: string := "'TerraformService' object has no attribute 'base_terraform_dir'"

  /** The steps of `CompletedRecord` one at a time. */
  lemma CompletedRecordSteps(rec: JobRecord, c: ReplicaSetConfig, o: TerraformOutputs, now: string, info: ConnectionInfo)
    requires info == TopologyOf(c, LastPrimary(Instances(o)), SecondaryHosts(Instances(o)))
    ensures CompletedRecord(rec, c, o, now)
            == Updated(Updated(Updated(rec.(terraformOutputs := Some(o)), ConfiguringMongodb, 70, "MongoDB 설정 중", None, now),
                               InitializingReplicaSet, 85, "ReplicaSet 초기화 중", None, now).(topology := Some(info)),
                       Ready, 100, "ReplicaSet 생성 완료", None, now)
  {
  }

  // ---- Properties of the workflow ----

  /** When every outside call succeeds, the job ends `Ready` at 100 with
      the outputs and the topology recorded, after exactly the workspace
      preparation and three Terraform commands, each behind its `init`. */
  lemma WorkflowSucceeds(templateDir: string, baseDir: string, rec: JobRecord, request: ReplicaSetCreateRequest,
                         env: Environment, now: string)
    requires ToolsSucceed(env)
    ensures var o := Workflow(templateDir, baseDir, rec, request, env, now);
            var dir := WorkspaceDir(baseDir, rec.workspaceName);
            var outs := OutputsOf(env);
            && o.rec.status == Ready && o.rec.progress == 100 && o.rec.message == "ReplicaSet 생성 완료"
            && o.rec.errorDetails.None? && o.rec.completedAt == Some(now)
            && o.rec.terraformOutputs == Some(outs)
            && o.rec.topology == Some(TopologyOf(request.config, LastPrimary(Instances(outs)), SecondaryHosts(Instances(outs))))
            && o.effects == [MakeDir(dir), CopyTemplates(templateDir, dir), WriteTfvars(dir + "/terraform.tfvars", request.config),
                             RunTool(dir, InitArgv), RunTool(dir, TerraformArgv(PlanArgs())),
                             RunTool(dir, InitArgv), RunTool(dir, TerraformArgv(ApplyArgs(request.autoApprove))),
                             RunTool(dir, InitArgv), RunTool(dir, TerraformArgv(OutputArgs()))]
  {
    var dir := WorkspaceDir(baseDir, rec.workspaceName);
    var r4 := SucceededRecord(rec, now);
    SucceededOutcome(templateDir, baseDir, rec, request, env, now);
    CompletedRecordFacts(r4, request.config, OutputsOf(env), now);
  }

  /** The record just before the outputs are read on a run that got that far. */
  function SucceededRecord(rec: JobRecord, now: string): JobRecord {
    var r2 := Updated(Updated(rec, Validating, 10, "파라미터 검증 중", None, now),
                      TerraformPlanning, 20, "Terraform 워크스페이스 준비 중", None, now);
    var r3 := Updated(r2, TerraformPlanning, 30, "Terraform Plan 실행 중", None, now);
    Updated(r3, TerraformApplying, 50, "인프라 생성 중", None, now)
  }

  lemma SucceededOutcome(templateDir: string, baseDir: string, rec: JobRecord, request: ReplicaSetCreateRequest,
                         env: Environment, now: string)
    requires ToolsSucceed(env)
    ensures var dir := WorkspaceDir(baseDir, rec.workspaceName);
            Workflow(templateDir, baseDir, rec, request, env, now)
            == Outcome(CompletedRecord(SucceededRecord(rec, now), request.config, OutputsOf(env), now),
                       PrepareRun(templateDir, dir, request.config, env).0
                       + CommandRun(dir, PlanArgs(), env.planInit, env.plan).0
                       + CommandRun(dir, ApplyArgs(request.autoApprove), env.applyInit, env.apply).0
                       + OutputsRun(dir, env).0)
  {
    var dir := WorkspaceDir(baseDir, rec.workspaceName);
    assert OutputsRun(dir, env).1 == Success(OutputsOf(env));
  }

  lemma CompletedRecordFacts(rec: JobRecord, c: ReplicaSetConfig, o: TerraformOutputs, now: string)
    ensures var r := CompletedRecord(rec, c, o, now);
            && r.status == Ready && r.progress == 100 && r.message == "ReplicaSet 생성 완료"
            && r.errorDetails.None? && r.completedAt == Some(now) && r.terraformOutputs == Some(o)
            && r.topology == Some(TopologyOf(c, LastPrimary(Instances(o)), SecondaryHosts(Instances(o))))
  {
  }

  /** When some outside call fails, the job ends `Failed` at the progress
      of the last checkpoint it reached (20 while preparing the workspace,
      30 while planning, 50 while applying or reading the outputs, 85 when
      the outputs read have a shape the initialisation cannot read), with
      the error as its details. Outputs are recorded only when they were
      read, and no topology is. */
  lemma WorkflowFails(templateDir: string, baseDir: string, rec: JobRecord, request: ReplicaSetCreateRequest,
                      env: Environment, now: string)
    requires !ToolsSucceed(env)
    ensures var o := Workflow(templateDir, baseDir, rec, request, env, now);
            && o.rec.status == Failed && o.rec.completedAt == Some(now)
            && o.rec.errorDetails.Some? && o.rec.message == "ReplicaSet 생성 실패: " + o.rec.errorDetails.value
            && o.rec.topology == rec.topology
            && (o.rec.progress == 20 || o.rec.progress == 30 || o.rec.progress == 50 || o.rec.progress == 85)
            && (o.rec.progress == 20 <==> !(env.mkdirError.None? && env.templateExists && env.copyError.None? && env.writeError.None?))
            && (o.rec.progress == 50 <==> env.mkdirError.None? && env.templateExists && env.copyError.None? && env.writeError.None?
                                          && env.planInit.Exited? && env.plan.Exited? && !TerraformSucceeds(env))
            && (o.rec.progress == 85 <==> TerraformSucceeds(env))
            && (o.rec.progress == 85 ==> o.rec.terraformOutputs == Some(OutputsOf(env))
                                         && o.rec.errorDetails == OutputsOf(env).malformed)
            && (o.rec.progress != 85 ==> o.rec.terraformOutputs == rec.terraformOutputs)
  {
    var dir := WorkspaceDir(baseDir, rec.workspaceName);
    var r2 := Updated(Updated(rec, Validating, 10, "파라미터 검증 중", None, now),
                      TerraformPlanning, 20, "Terraform 워크스페이스 준비 중", None, now);
    var r3 := Updated(r2, TerraformPlanning, 30, "Terraform Plan 실행 중", None, now);
    var r4 := Updated(r3, TerraformApplying, 50, "인프라 생성 중", None, now);
    var (e1, prepared) := PrepareRun(templateDir, dir, request.config, env);
    if prepared.None? {
      var (e2, planned) := CommandRun(dir, PlanArgs(), env.planInit, env.plan);
      if planned.Success? {
        var (e3, applied) := CommandRun(dir, ApplyArgs(request.autoApprove), env.applyInit, env.apply);
        if applied.Success? {
          if TerraformSucceeds(env) {
            assert OutputsRun(dir, env).1 == Success(OutputsOf(env));
          } else {
            assert OutputsRun(dir, env).1.Failure?;
          }
        }
      }
    }
  }

  /** The job keeps its identity whatever happens. */
  lemma WorkflowKeepsJob(templateDir: string, baseDir: string, rec: JobRecord, request: ReplicaSetCreateRequest,
                         env: Environment, now: string)
    ensures SameJob(Workflow(templateDir, baseDir, rec, request, env, now).rec, rec)
  {
    if ToolsSucceed(env) {
      WorkflowSucceeds(templateDir, baseDir, rec, request, env, now);
    } else {
      WorkflowFails(templateDir, baseDir, rec, request, env, now);
    }
    var r := Workflow(templateDir, baseDir, rec, request, env, now).rec;
    var dir := WorkspaceDir(baseDir, rec.workspaceName);
    var r2 := Updated(Updated(rec, Validating, 10, "파라미터 검증 중", None, now),
                      TerraformPlanning, 20, "Terraform 워크스페이스 준비 중", None, now);
    var r3 := Updated(r2, TerraformPlanning, 30, "Terraform Plan 실행 중", None, now);
    var r4 := Updated(r3, TerraformApplying, 50, "인프라 생성 중", None, now);
    assert SameJob(r4, rec);
  }

  /** `terraform destroy` is run exactly when the workflow failed, the
      request asks for clean-up, the workspace exists and its `init` did
      not raise; the workspace is removed exactly when, in addition, the
      destroy did not raise. */
  lemma CleanupWhenAsked(templateDir: string, baseDir: string, rec: JobRecord, request: ReplicaSetCreateRequest,
                         env: Environment, now: string)
    ensures var o := Workflow(templateDir, baseDir, rec, request, env, now);
            var dir := WorkspaceDir(baseDir, rec.workspaceName);
            && (RunTool(dir, TerraformArgv(DestroyArgs())) in o.effects
                <==> !ToolsSucceed(env) && request.destroyOnFailure && env.workspaceExists && env.destroyInit.Exited?)
            && (RemoveTree(dir) in o.effects
                <==> !ToolsSucceed(env) && request.destroyOnFailure && env.workspaceExists && env.destroyInit.Exited?
                     && env.destroy.Exited?)
  {
    var dir := WorkspaceDir(baseDir, rec.workspaceName);
    var steps := WorkflowSteps(templateDir, baseDir, rec, request, env);
    StepsNeverClean(steps, dir, request.autoApprove);
    CleanupContents(request, dir, env);
    WorkflowEffectsSplit(templateDir, baseDir, rec, request, env, now);
  }

  lemma StepsNeverClean(steps: seq<Effect>, dir: string, autoApprove: bool)
    requires forall i :: 0 <= i < |steps| ==>
              steps[i].MakeDir? || steps[i].CopyTemplates? || steps[i].WriteTfvars?
              || (steps[i].RunTool? && steps[i].argv in {InitArgv, TerraformArgv(PlanArgs()),
                                                          TerraformArgv(ApplyArgs(autoApprove)),
                                                          TerraformArgv(OutputArgs())})
    ensures RunTool(dir, TerraformArgv(DestroyArgs())) !in steps && RemoveTree(dir) !in steps
  {
    var destroy := RunTool(dir, TerraformArgv(DestroyArgs()));
    forall i | 0 <= i < |steps| ensures steps[i] != destroy {
      if steps[i].RunTool? {
        assert steps[i].argv[1] != "destroy";
      }
    }
  }

  /** The clean-up runs `terraform destroy` when asked for and the
      workspace exists, unless its `init` raises, and removes the
      workspace unless the destroy raises. */
  lemma CleanupContents(request: ReplicaSetCreateRequest, dir: string, env: Environment)
    ensures RunTool(dir, TerraformArgv(DestroyArgs())) in CleanupOnFailure(request, dir, env)
            <==> request.destroyOnFailure && env.workspaceExists && env.destroyInit.Exited?
    ensures RemoveTree(dir) in CleanupOnFailure(request, dir, env)
            <==> request.destroyOnFailure && env.workspaceExists && env.destroyInit.Exited? && env.destroy.Exited?
  {
    var cleanup := CleanupOnFailure(request, dir, env);
    if request.destroyOnFailure && env.workspaceExists {
      if env.destroyInit.Exited? {
        assert cleanup[1] == RunTool(dir, TerraformArgv(DestroyArgs()));
        if env.destroy.Exited? { assert cleanup[2] == RemoveTree(dir); }
      } else {
        assert cleanup == [RunTool(dir, InitArgv)];
      }
    }
  }

  /** The effects of the steps before the failure handler: the effects of
      the workflow up to its first failure. */
  function WorkflowSteps(templateDir: string, baseDir: string, rec: JobRecord, request: ReplicaSetCreateRequest,
                         env: Environment): (steps: seq<Effect>)
    ensures forall i :: 0 <= i < |steps| ==>
              steps[i].MakeDir? || steps[i].CopyTemplates? || steps[i].WriteTfvars?
              || (steps[i].RunTool? && steps[i].argv in {InitArgv, TerraformArgv(PlanArgs()),
                                                          TerraformArgv(ApplyArgs(request.autoApprove)),
                                                          TerraformArgv(OutputArgs())})
  {
    var dir := WorkspaceDir(baseDir, rec.workspaceName);
    var (e1, prepared) := PrepareRun(templateDir, dir, request.config, env);
    if prepared.Some? then e1
    else
      var (e2, planned) := CommandRun(dir, PlanArgs(), env.planInit, env.plan);
      if planned.Failure? then e1 + e2
      else
        var (e3, applied) := CommandRun(dir, ApplyArgs(request.autoApprove), env.applyInit, env.apply);
        if applied.Failure? then e1 + e2 + e3
        else e1 + e2 + e3 + OutputsRun(dir, env).0
  }

  /** The workflow's effects are its steps, followed by the clean-up when
      it failed. */
  lemma WorkflowEffectsSplit(templateDir: string, baseDir: string, rec: JobRecord, request: ReplicaSetCreateRequest,
                             env: Environment, now: string)
    ensures Workflow(templateDir, baseDir, rec, request, env, now).effects
            == WorkflowSteps(templateDir, baseDir, rec, request, env)
               + (if ToolsSucceed(env) then [] else CleanupOnFailure(request, WorkspaceDir(baseDir, rec.workspaceName), env))
  {
    var dir := WorkspaceDir(baseDir, rec.workspaceName);
    var (e1, prepared) := PrepareRun(templateDir, dir, request.config, env);
    if prepared.None? {
      var (e2, planned) := CommandRun(dir, PlanArgs(), env.planInit, env.plan);
      if planned.Success? {
        var (e3, applied) := CommandRun(dir, ApplyArgs(request.autoApprove), env.applyInit, env.apply);
        if applied.Success? {
          if ToolsSucceed(env) {
            WorkflowSucceeds(templateDir, baseDir, rec, request, env, now);
          } else if TerraformSucceeds(env) {
            assert OutputsRun(dir, env).1 == Success(OutputsOf(env));
          }
        }
      }
    }
  }

  /** The return codes of `terraform plan` and `terraform apply` play no
      part: only a raising command fails the job. */
  lemma ReturnCodesIgnored(templateDir: string, baseDir: string, rec: JobRecord, request: ReplicaSetCreateRequest,
                           env: Environment, now: string, planCode: int, planOut: string, applyCode: int, applyOut: string)
    requires env.plan.Exited? && env.apply.Exited?
    ensures Workflow(templateDir, baseDir, rec, request, env.(plan := Exited(planCode, planOut), apply := Exited(applyCode, applyOut)), now)
            == Workflow(templateDir, baseDir, rec, request, env, now)
  {
    var env' := env.(plan := Exited(planCode, planOut), apply := Exited(applyCode, applyOut));
    var dir := WorkspaceDir(baseDir, rec.workspaceName);
    assert CommandRun(dir, PlanArgs(), env'.planInit, env'.plan).0 == CommandRun(dir, PlanArgs(), env.planInit, env.plan).0;
    assert CommandRun(dir, PlanArgs(), env'.planInit, env'.plan).1.Success? == CommandRun(dir, PlanArgs(), env.planInit, env.plan).1.Success?;
    assert ToolsSucceed(env') == ToolsSucceed(env);
    assert CleanupRun(dir, env') == CleanupRun(dir, env);
    assert OutputsRun(dir, env') == OutputsRun(dir, env);
  }

  /** The workflow as written never completes: whatever the outside world
      does, the job fails where it stands, while the workflow with the
      workspace under the base directory completes when every call
      succeeds. */
  lemma BaseDirectoryFinding(templateDir: string, baseDir: string, rec: JobRecord, request: ReplicaSetCreateRequest,
                             env: Environment, now: string)
    requires ToolsSucceed(env)
    ensures AsWrittenRecord(rec, now).status == Failed && AsWrittenRecord(rec, now).progress == rec.progress
    ensures Workflow(templateDir, baseDir, rec, request, env, now).rec.status == Ready
  {
    WorkflowSucceeds(templateDir, baseDir, rec, request, env, now);
  }

  // ---- The status response ----

  /** The declared value type of the status response's instance fields
      (`primary_instance`, `secondary_instances`): `Dict[str, str]` as
      written, or a type that also admits the stored integer port. */
  datatype InstanceFieldType = StrValues | AnyValues

  /** The validation error pydantic raises when a stored instance entry,
      `{"host": ..., "port": <int>}`, meets a `Dict[str, str]` field. */
  const InstanceFieldError: string :=
    "1 validation error for ReplicaSetStatusResponse: primary_instance.port: Input should be a valid string"

  /** `get_job_status`'s projection of a registry record into a
      `ReplicaSetStatusResponse`. A record carries a topology exactly when
      the workflow stored the primary and secondary entries, whose port is
      an integer; a `Dict[str, str]` field refuses them, any other field
      passes through. */
  function StatusResponse(fieldType: InstanceFieldType, rec: JobRecord): (r: Result<JobRecord, string>)
    ensures r.Success? <==> fieldType == AnyValues || rec.topology.None?
    ensures r.Success? ==> r.value == rec
    ensures r.Failure? ==> r.error == InstanceFieldError
  {
    match fieldType
    case StrValues => if rec.topology.Some? then Failure(InstanceFieldError) else Success(rec)
    case AnyValues => Success(rec)
  }

  /** As written, every job the workflow brings to `ready` (in particular
      every job whose outside calls all succeed) can no longer be projected
      into a status response; with a field type that admits the integer
      port it is returned as stored. */
  lemma ReadyJobUnprojectable(templateDir: string, baseDir: string, rec: JobRecord, request: ReplicaSetCreateRequest,
                              env: Environment, now: string)
    ensures var o := Workflow(templateDir, baseDir, rec, request, env, now);
            && (o.rec.status == Ready <==> ToolsSucceed(env))
            && (o.rec.status == Ready ==> StatusResponse(StrValues, o.rec).Failure?)
            && StatusResponse(AnyValues, o.rec) == Success(o.rec)
  {
    if ToolsSucceed(env) {
      WorkflowSucceeds(templateDir, baseDir, rec, request, env, now);
    } else {
      WorkflowFails(templateDir, baseDir, rec, request, env, now);
    }
  }

  lemma UpdateTwice<K, V>(m: map<K, V>, k: K, a: V, b: V)
    ensures m[k := a][k := b] == m[k := b]
  {
  }

  // ---- The service ----

  class TerraformService {
    const templateDir: string
    const baseWorkspaceDir: string
    /** The job registry, by job id. */
    var jobStatus: map<string, JobRecord>
    /** The registry's keys in insertion order, the order in which the
        registry is listed. */
    var jobOrder: seq<string>

    ghost predicate Valid()
      reads this
    {
      && (forall i, j :: 0 <= i < j < |jobOrder| ==> jobOrder[i] != jobOrder[j])
      && (forall id :: id in jobStatus <==> id in jobOrder)
    }

    constructor (templateDir: string, baseWorkspaceDir: string)
      ensures Valid()
      ensures this.templateDir == templateDir && this.baseWorkspaceDir == baseWorkspaceDir
      ensures jobStatus == map[] && jobOrder == []
    {
      this.templateDir := templateDir;
      this.baseWorkspaceDir := baseWorkspaceDir;
      jobStatus := map[];
      jobOrder := [];
    }

    /** Validates the configuration and, when it has no error, registers a
        pending job under `jobId`. The workflow itself is started
        separately with `ExecuteTerraformWorkflow`. */
    method CreateReplicaSet(request: ReplicaSetCreateRequest, jobId: string, now: string)
      returns (resp: CreateResponse)
      requires Valid()
      modifies this
      ensures Valid()
      ensures resp == CreateResponseFor(request.config, jobId, now)
      ensures Errors(request.config) != [] ==> jobStatus == old(jobStatus) && jobOrder == old(jobOrder)
      ensures Errors(request.config) == [] ==>
                jobStatus == old(jobStatus)[jobId := NewJob(jobId, request.config, now)]
                && jobOrder == old(jobOrder) + (if jobId in old(jobStatus) then [] else [jobId])
    {
      var c := request.config;
      var ok, messages := ValidateMongodbVersion(c);
      if !ok {
        return CreateResponse(jobId, c.replicaSetName, Failed, "검증 실패: " + Join(messages, "; "), now, None,
                              WorkspaceName(c.replicaSetName, jobId));
      }
      var workspaceName := WorkspaceName(c.replicaSetName, jobId);
      if jobId !in jobStatus {
        jobOrder := jobOrder + [jobId];
      }
      jobStatus := jobStatus[jobId := NewJob(jobId, c, now)];
      resp := CreateResponse(jobId, c.replicaSetName, Pending, "ReplicaSet 생성 작업이 시작되었습니다", now,
                             Some(NatToString(jobStatus[jobId].estimatedCompletionMinutes) + "분"), workspaceName);
    }

    /** The status response of a job: None for an unknown id, otherwise
        the projection of its registry entry, which raises for a record
        the response type refuses. */
    function GetJobStatus(fieldType: InstanceFieldType, jobId: string): (r: Result<Option<JobRecord>, string>)
      requires Valid()
      reads this
      ensures r == Success(None) <==> jobId !in jobStatus
      ensures r.Success? && r.value.Some? <==> jobId in jobStatus && (fieldType == AnyValues || jobStatus[jobId].topology.None?)
      ensures r.Success? && r.value.Some? ==> r.value.value == jobStatus[jobId]
      ensures r.Failure? ==> r.error == InstanceFieldError
    {
      if jobId !in jobStatus then Success(None)
      else
        match StatusResponse(fieldType, jobStatus[jobId])
        case Success(rec) => Success(Some(rec))
        case Failure(e) => Failure(e)
    }

    /** Replaces the entry of a registered job. */
    method Store(jobId: string, rec: JobRecord)
      requires Valid() && jobId in jobStatus
      modifies this
      ensures Valid() && jobOrder == old(jobOrder)
      ensures jobStatus == old(jobStatus)[jobId := rec]
    {
      jobStatus := jobStatus[jobId := rec];
    }

    /** A status update; a job the registry does not know is left alone. */
    method UpdateJobStatus(jobId: string, status: ReplicaSetStatus, progress: int, message: string,
                           errorDetails: Option<string>, now: string)
      requires Valid()
      modifies this
      ensures Valid() && jobOrder == old(jobOrder)
      ensures jobId in old(jobStatus) ==>
                jobStatus == old(jobStatus)[jobId := Updated(old(jobStatus)[jobId], status, progress, message, errorDetails, now)]
      ensures jobId !in old(jobStatus) ==> jobStatus == old(jobStatus)
    {
      if jobId in jobStatus {
        var rec := jobStatus[jobId].(status := status, progress := progress, message := message,
                                     updatedAt := now, errorDetails := errorDetails);
        if status == Ready || status == Failed {
          rec := rec.(completedAt := Some(now));
        }
        Store(jobId, rec);
      }
    }

    /** Creates the workspace and fills it with the templates and the
        variables file. */
    method PrepareTerraformWorkspace(dir: string, c: ReplicaSetConfig, env: Environment)
      returns (effects: seq<Effect>, error: Option<string>)
      ensures (effects, error) == PrepareRun(templateDir, dir, c, env)
    {
      effects := [MakeDir(dir)];
      if env.mkdirError.Some? {
        return effects, env.mkdirError;
      }
      if !env.templateExists {
        return effects, Some(TemplateMissingText(templateDir));
      }
      effects := effects + [CopyTemplates(templateDir, dir)];
      assert effects == [MakeDir(dir), CopyTemplates(templateDir, dir)];
      if env.copyError.Some? {
        return effects, env.copyError;
      }
      effects := effects + [WriteTfvars(dir + "/terraform.tfvars", c)];
      assert effects == [MakeDir(dir), CopyTemplates(templateDir, dir), WriteTfvars(dir + "/terraform.tfvars", c)];
      error := env.writeError;
    }

    method RunTerraformCommand(dir: string, cmd: seq<string>, init: ToolOutcome, main: ToolOutcome)
      returns (effects: seq<Effect>, result: Result<Completed, string>)
      ensures (effects, result) == CommandRun(dir, cmd, init, main)
    {
      effects := [RunTool(dir, InitArgv)];
      if init.Raised? {
        return effects, Failure(init.error);
      }
      effects := effects + [RunTool(dir, TerraformArgv(cmd))];
      assert effects == [RunTool(dir, InitArgv), RunTool(dir, TerraformArgv(cmd))];
      if main.Raised? {
        return effects, Failure(main.error);
      }
      result := Success(Completed(main.returnCode, main.stdout));
    }

    method GetTerraformOutputs(dir: string, env: Environment)
      returns (effects: seq<Effect>, result: Result<TerraformOutputs, string>)
      ensures (effects, result) == OutputsRun(dir, env)
    {
      var completed;
      effects, completed := RunTerraformCommand(dir, OutputArgs(), env.outputInit, env.output);
      if completed.Failure? {
        return effects, Failure(completed.error);
      }
      if completed.value.returnCode == 0 {
        if env.outputParse.Failure? {
          return effects, Failure(env.outputParse.error);
        }
        return effects, Success(env.outputParse.value);
      }
      result := Success(EmptyOutputs);
    }

    method CleanupFailedResources(workspaceName: string, env: Environment) returns (effects: seq<Effect>)
      ensures effects == CleanupRun(WorkspaceDir(baseWorkspaceDir, workspaceName), env)
    {
      var dir := WorkspaceDir(baseWorkspaceDir, workspaceName);
      effects := [];
      if env.workspaceExists {
        var destroyed;
        effects, destroyed := RunTerraformCommand(dir, DestroyArgs(), env.destroyInit, env.destroy);
        if destroyed.Success? {
          effects := effects + [RemoveTree(dir)];
        }
      }
    }

    /** The steps after the outputs have been read, up to the first
        failure: the initialisation raises on outputs of another shape. */
    method CompleteWorkflow(jobId: string, c: ReplicaSetConfig, outputs: TerraformOutputs, now: string)
      returns (error: Option<string>)
      requires Valid() && jobId in jobStatus
      modifies this
      ensures Valid() && jobOrder == old(jobOrder)
      ensures error == outputs.malformed
      ensures error.Some? ==> jobStatus == old(jobStatus)[jobId := InitializingRecord(old(jobStatus)[jobId], outputs, now)]
      ensures error.None? ==> jobStatus == old(jobStatus)[jobId := CompletedRecord(old(jobStatus)[jobId], c, outputs, now)]
    {
      ghost var before := jobStatus;
      var r5 := jobStatus[jobId].(terraformOutputs := Some(outputs));
      Store(jobId, r5);
      UpdateJobStatus(jobId, ConfiguringMongodb, 70, "MongoDB 설정 중", None, now);
      ghost var r6 := Updated(r5, ConfiguringMongodb, 70, "MongoDB 설정 중", None, now);
      UpdateTwice(before, jobId, r5, r6);
      UpdateJobStatus(jobId, InitializingReplicaSet, 85, "ReplicaSet 초기화 중", None, now);
      ghost var r7 := Updated(r6, InitializingReplicaSet, 85, "ReplicaSet 초기화 중", None, now);
      UpdateTwice(before, jobId, r6, r7);
      assert r7 == InitializingRecord(before[jobId], outputs, now);
      var initialized := InitializeReplicaSet(c, outputs);
      if initialized.Failure? {
        return Some(initialized.error);
      }
      var info := initialized.value;
      var r8 := jobStatus[jobId].(topology := Some(info));
      Store(jobId, r8);
      UpdateTwice(before, jobId, r7, r8);
      UpdateJobStatus(jobId, Ready, 100, "ReplicaSet 생성 완료", None, now);
      ghost var r9 := Updated(r8, Ready, 100, "ReplicaSet 생성 완료", None, now);
      UpdateTwice(before, jobId, r8, r9);
      CompletedRecordSteps(before[jobId], c, outputs, now, info);
      error := None;
    }

    /** The failure handler: fail the job where it stands, then clean up
        when the request asks for it. */
    method FailWorkflow(jobId: string, error: string, request: ReplicaSetCreateRequest, workspaceName: string,
                        env: Environment, now: string)
      returns (cleanup: seq<Effect>)
      requires Valid() && jobId in jobStatus
      modifies this
      ensures Valid() && jobOrder == old(jobOrder)
      ensures jobStatus == old(jobStatus)[jobId := FailedRecord(old(jobStatus)[jobId], error, now)]
      ensures cleanup == CleanupOnFailure(request, WorkspaceDir(baseWorkspaceDir, workspaceName), env)
    {
      UpdateJobStatus(jobId, Failed, jobStatus[jobId].progress, "ReplicaSet 생성 실패: " + error, Some(error), now);
      cleanup := [];
      if request.destroyOnFailure {
        cleanup := CleanupFailedResources(workspaceName, env);
      }
    }

    /** The background workflow of job `jobId`. A job the registry does
        not know makes the workflow raise before it changes anything. */
    method ExecuteTerraformWorkflow(jobId: string, request: ReplicaSetCreateRequest, env: Environment, now: string)
      returns (effects: seq<Effect>)
      requires Valid()
      modifies this
      ensures Valid() && jobOrder == old(jobOrder)
      ensures jobId !in old(jobStatus) ==> jobStatus == old(jobStatus) && effects == []
      ensures jobId in old(jobStatus) ==>
                var o := Workflow(templateDir, baseWorkspaceDir, old(jobStatus)[jobId], request, env, now);
                jobStatus == old(jobStatus)[jobId := o.rec] && effects == o.effects
    {
      if jobId !in jobStatus {
        return [];
      }
      ghost var before := jobStatus;
      ghost var spec := Workflow(templateDir, baseWorkspaceDir, before[jobId], request, env, now);
      var c := request.config;
      var workspaceName := jobStatus[jobId].workspaceName;
      var dir := WorkspaceDir(baseWorkspaceDir, workspaceName);
      UpdateJobStatus(jobId, Validating, 10, "파라미터 검증 중", None, now);
      ghost var r1 := Updated(before[jobId], Validating, 10, "파라미터 검증 중", None, now);
      UpdateJobStatus(jobId, TerraformPlanning, 20, "Terraform 워크스페이스 준비 중", None, now);
      ghost var r2 := Updated(r1, TerraformPlanning, 20, "Terraform 워크스페이스 준비 중", None, now);
      UpdateTwice(before, jobId, r1, r2);
      var failure: Option<string>;
      effects, failure := PrepareTerraformWorkspace(dir, c, env);
      if failure.Some? {
        var cleanup := FailWorkflow(jobId, failure.value, request, workspaceName, env, now);
        UpdateTwice(before, jobId, r2, FailedRecord(r2, failure.value, now));
        effects := effects + cleanup;
        return;
      }
      UpdateJobStatus(jobId, TerraformPlanning, 30, "Terraform Plan 실행 중", None, now);
      ghost var r3 := Updated(r2, TerraformPlanning, 30, "Terraform Plan 실행 중", None, now);
      UpdateTwice(before, jobId, r2, r3);
      assert spec == PlanStage(r3, effects, request, dir, env, now);
      var e, done := RunTerraformCommand(dir, PlanArgs(), env.planInit, env.plan);
      effects := effects + e;
      if done.Failure? {
        var cleanup := FailWorkflow(jobId, done.error, request, workspaceName, env, now);
        UpdateTwice(before, jobId, r3, FailedRecord(r3, done.error, now));
        effects := effects + cleanup;
        return;
      }
      UpdateJobStatus(jobId, TerraformApplying, 50, "인프라 생성 중", None, now);
      ghost var r4 := Updated(r3, TerraformApplying, 50, "인프라 생성 중", None, now);
      UpdateTwice(before, jobId, r3, r4);
      assert spec == ApplyStage(r4, effects, request, dir, env, now);
      e, done := RunTerraformCommand(dir, ApplyArgs(request.autoApprove), env.applyInit, env.apply);
      effects := effects + e;
      if done.Failure? {
        var cleanup := FailWorkflow(jobId, done.error, request, workspaceName, env, now);
        UpdateTwice(before, jobId, r4, FailedRecord(r4, done.error, now));
        effects := effects + cleanup;
        return;
      }
      assert spec == OutputStage(r4, effects, request, dir, env, now);
      var outputs;
      e, outputs := GetTerraformOutputs(dir, env);
      effects := effects + e;
      if outputs.Failure? {
        var cleanup := FailWorkflow(jobId, outputs.error, request, workspaceName, env, now);
        UpdateTwice(before, jobId, r4, FailedRecord(r4, outputs.error, now));
        effects := effects + cleanup;
        return;
      }
      var initError := CompleteWorkflow(jobId, c, outputs.value, now);
      if initError.Some? {
        ghost var r7 := InitializingRecord(r4, outputs.value, now);
        UpdateTwice(before, jobId, r4, r7);
        var cleanup := FailWorkflow(jobId, initError.value, request, workspaceName, env, now);
        UpdateTwice(before, jobId, r7, FailedRecord(r7, initError.value, now));
        effects := effects + cleanup;
        return;
      }
      UpdateTwice(before, jobId, r4, CompletedRecord(r4, c, outputs.value, now));
    }

    /** The workflow as the service writes it: the workspace path is built
        from an attribute the service never sets, so the first step raises
        and the job fails where it stands; the clean-up raises the same way
        before doing anything. */
    method ExecuteTerraformWorkflowAsWritten(jobId: string, request: ReplicaSetCreateRequest, now: string)
      returns (effects: seq<Effect>)
      requires Valid()
      modifies this
      ensures Valid() && jobOrder == old(jobOrder) && effects == []
      ensures jobId !in old(jobStatus) ==> jobStatus == old(jobStatus)
      ensures jobId in old(jobStatus) ==>
                jobStatus == old(jobStatus)[jobId := AsWrittenRecord(old(jobStatus)[jobId], now)]
    {
      effects := [];
      if jobId !in jobStatus {
        return;
      }
      var error := MissingAttributeText;
      UpdateJobStatus(jobId, Failed, jobStatus[jobId].progress, "ReplicaSet 생성 실패: " + error, Some(error), now);
    }
  }

  /** The job after the workflow as written has run. */
  function AsWrittenRecord(rec: JobRecord, now: string): JobRecord {
    Updated(rec, Failed, rec.progress, "ReplicaSet 생성 실패: " + MissingAttributeText, Some(MissingAttributeText), now)
  }
}
