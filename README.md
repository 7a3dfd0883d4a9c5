# mongo-automation, modelled in Dafny

mongo-automation provisions MongoDB clusters on Google Cloud. This project
models two parts of it and proves properties of the model.

The backend has four parts:

- The request models check a replica-set configuration: the regex formats of names, zones and project ids, the numeric field bounds, and the cross-member rules.
- The version validator checks that configuration against the MongoDB 7.0 and 8.0 requirement tables. It returns `ok` together with the errors, followed by warnings prefixed `WARNING: `.
- The Terraform service keeps a registry of provisioning jobs. The registry maps a job id to a record. A job moves through a fixed sequence of status and progress checkpoints (plan, apply, outputs, topology). Any exception sends the job to `failed`, with an optional clean-up.
- The HTTP routes answer queries over that registry. The settings parse the allowed CORS origins.

The command line tool `dbprovision` has five steps:

- It checks its parameters.
- It builds the Terraform and Ansible variable dictionaries.
- It writes a `.tfvars` file.
- It runs `terraform init/plan/apply` and then the playbooks of the cluster type, stopping at the first failure.
- It destroys a cluster only after the user types `yes`.

Layout, one module per source file plus helpers:

| module | file | models |
|---|---|---|
| `ReplicaSetModel` | `replica_set.dfy` | backend/models/replica_set.py |
| `MongoValidator` | `mongodb_validator.dfy` | backend/validators/mongodb_validator.py |
| `TerraformRender` | `terraform_render.dfy` | the pure helpers of backend/services/terraform_service.py |
| `Orchestrator` | `orchestrator.dfy` | the class `TerraformService` and its job registry |
| `ReplicaSetApi` | `replica_set_api.dfy` | backend/api/replica_set_api.py |
| `CorsConfig` | `cors_config.dfy` | backend/app/core/config.py |
| `DbProvision` | `dbprovision.dfy` | cli/dbprovision.py |
| `Regex` | `regex.dfy` | the four Python patterns, with Python's `re.match`/`$` semantics and Python's Unicode `\d` (category Nd) |
| `JsonText` | `json_text.dfy` | `json.dumps` of a list of strings (ASCII-only output) |
| `Strings`, `Wrappers` | `strings.dfy`, `wrappers.dfy` | `split`, `join`, `strip`, `str(int)`, slicing; `Option`/`Result` |

The model treats the outside world as input:

- Subprocess results, raised exceptions, file-system answers and parsed Terraform output are inputs. In the service they form an `Environment` value. In the CLI they are a `run` function giving each command's exit code, an `fs` function saying which file-system effects succeed, whether the variables file exists, and the prompt's answer (None at the end of input).
- What the code asks of the outside world is returned as a log of effects.
- Job ids, timestamps and the random keyfile draw are parameters.

The service's registry is a class whose fields the methods update in place:

- `jobStatus` is a map from job id to record.
- `jobOrder` holds the dictionary's insertion order.
- Each method is proved against a specification function. The lemmas about that function state what the source promises.

Where the code and its design notes disagree, the model follows the code:

- The two 8.0 rules (more than 7 members; a `pd-standard` disk) add errors, not warnings.
- The return codes of `terraform plan` and `terraform apply` are never checked. Only exceptions fail a job.
- In the connection string, the secondaries are written without a port.

## Model

| member | source | states |
|---|---|---|
| ReplicaSetModel.ParseVersion | backend/models/replica_set.py:11-13 | A version string is accepted exactly when it is the value of a supported version, and then it names that version. |
| ReplicaSetModel.EnumStrInjective | backend/models/replica_set.py:11-27 | Python 3.12's rendering of a version, machine-type or disk-type member (class name, a dot, member name) tells distinct members apart and never equals the member's value. |
| ReplicaSetModel.StatusValueInjective | backend/models/replica_set.py:153-163 | Two job statuses have the same string value only when they are the same status. Filtering by value is therefore filtering by status. |
| ReplicaSetModel.NamePatternShape | backend/models/replica_set.py:46 | The member-name pattern matches exactly the strings of at most 63 characters that start with a lowercase letter, end with a lowercase letter or digit, and hold only lowercase letters, digits and hyphens. |
| ReplicaSetModel.ReplicaSetNamePatternShape | backend/models/replica_set.py:93 | The replica-set-name pattern matches exactly the labels of at least 2 characters. |
| ReplicaSetModel.ProjectIdPatternShape | backend/models/replica_set.py:99 | The project-id pattern matches exactly the labels of 6 to 30 characters. |
| ReplicaSetModel.ZonePatternShape | backend/models/replica_set.py:52 | The zone pattern matches exactly lowercase letters, a hyphen, lowercase letters, one or more decimal digits of any script (Unicode category Nd, as `\d` in a Python str pattern), a hyphen and one lowercase letter. |
| ReplicaSetModel.ZoneExamples | backend/models/replica_set.py:50-54 | `asia-northeast3-a` is a zone and `asia-northeast3` is not. |
| ReplicaSetModel.ZoneOtherScriptDigits | backend/models/replica_set.py:52 | A zone whose digit is Arabic-Indic three (U+0663) or fullwidth three (U+FF13) matches the zone pattern, as Python's `\d` allows. |
| ReplicaSetModel.ValidateName | backend/models/replica_set.py:44-48 | A name is accepted iff it has 1 to 63 characters of label shape. An accepted name is returned unchanged; a rejected one carries the validator's message. |
| ReplicaSetModel.ValidateNameAsWritten | backend/models/replica_set.py:46 | With Python's `$`, a name is accepted iff it is a valid name or a valid name followed by one newline. |
| ReplicaSetModel.ValidateZoneAsWritten | backend/models/replica_set.py:52 | The same holds for zones, whatever the script of their digits: a zone with one trailing newline also passes. |
| ReplicaSetModel.TrailingNewlineAcceptedAsWritten | backend/models/replica_set.py:46-99 | `node1\n`, `asia-northeast3-a\n`, `rs0\n` and `my-project\n` pass the name, zone, replica-set-name and project-id validators as written, but fail the intended full match. |
| ReplicaSetModel.ValidateZone | backend/models/replica_set.py:50-54 | A zone is accepted iff it has zone shape. It is returned unchanged; otherwise the zone message is raised. |
| ReplicaSetModel.ValidateReplicaSetName | backend/models/replica_set.py:91-95 | A replica-set name is accepted iff it is a label of at least 2 characters. A rejected one carries the validator's message. |
| ReplicaSetModel.ValidateReplicaSetNameAsWritten | backend/models/replica_set.py:93 | With Python's `$`, a replica-set name is accepted iff it is a valid one or a valid one followed by one newline. |
| ReplicaSetModel.ValidateProjectId | backend/models/replica_set.py:97-101 | A project id is accepted iff it is a label of 6 to 30 characters. A rejected one carries the validator's message. |
| ReplicaSetModel.ValidateProjectIdAsWritten | backend/models/replica_set.py:99 | With Python's `$`, a project id is accepted iff it is a valid one or a valid one followed by one newline. |
| ReplicaSetModel.MemberFieldErrorsMeaning | backend/models/replica_set.py:29-54 | A member has no field error iff the name and zone validators pass and `disk_size` is in 10..1000, `priority` in 0..1000, `votes` in 0..1 and `slave_delay` ≥ 0. Each field is reported iff its own constraint fails. |
| ReplicaSetModel.ValidateMembers | backend/models/replica_set.py:103-128 | The checks are rejected in this order: fewer than 3 members; a primary count other than 1; an even number of voters; duplicate names; fewer than 2 zones. Each rejection happens iff the earlier checks pass and its own check fails. Success means the cross-member invariant holds, and the list is returned unchanged. |
| ReplicaSetModel.PrimaryCountMeaning | backend/models/replica_set.py:109-110 | The generator count of primaries is 1 iff exactly one member is a primary. |
| ReplicaSetModel.PrimaryCountIsSize | backend/models/replica_set.py:109 | The primary count is the number of positions holding a primary. |
| ReplicaSetModel.VotingCountMeaning | backend/models/replica_set.py:114 | The voting count is the number of positions whose member has `votes > 0`. |
| ReplicaSetModel.NameSetSize | backend/models/replica_set.py:119-121 | The set of names is never larger than the list. It has the same size iff the names are pairwise distinct. |
| ReplicaSetModel.ZoneSetSize | backend/models/replica_set.py:124-126 | At least 2 distinct zones iff two members sit in different zones. |
| ReplicaSetModel.GenerateKeyfile | backend/models/replica_set.py:134-137 | A generated keyfile has 756 characters, all ASCII letters or digits. |
| ReplicaSetModel.ValidateKeyfileContent | backend/models/replica_set.py:130-140 | With auth on and no keyfile, a 756-character alphanumeric keyfile is produced. A supplied keyfile of 1 to 5 characters is rejected. Any other value is returned unchanged. |
| ReplicaSetModel.KeyfileAsWritten | backend/models/replica_set.py:79-140 | Pydantic runs the keyfile validator only on a supplied field. An omitted keyfile stays `None`, whatever `auth_enabled` says. A supplied one is refused iff it has 1 to 5 characters; under authentication an accepted one has at least 6; a non-empty accepted one is kept unchanged. |
| ReplicaSetModel.KeyfileAlwaysValidated | backend/models/replica_set.py:130-140 | With the validator run on the default too, an accepted keyfile under authentication is present with at least 6 characters, and a keyfile is refused iff it was supplied with 1 to 5 characters. |
| ReplicaSetModel.OmittedKeyfileKeptAsWritten | backend/models/replica_set.py:79-131 | As written, a request with authentication on and no keyfile keeps `None`, although the validator would refuse or replace such a value. Run on the default, it gives a 756-character keyfile. |
| ReplicaSetModel.ConfigFieldErrors | backend/models/replica_set.py:66-86 | A configuration field is reported iff its constraint fails. |
| ReplicaSetModel.ConfigFieldOkMeaning | backend/models/replica_set.py:67-72 | The name field holds a label of 2 to 50 characters. The version is "7.0" or "8.0". The members number at most 50 and satisfy the cross-member invariant. The project id is a label of 6 to 30 characters. |
| MongoValidator.SupportedTypesMeetMemory | backend/validators/mongodb_validator.py:9-46 | Every machine type a version supports has a spec entry with at least that version's minimum memory. |
| MongoValidator.MemberErrorsMeaning | backend/validators/mongodb_validator.py:64-84 | A member adds an unsupported-type error iff its type is not in the version's list. It adds a disk error iff `disk_size` < 20. It never adds a memory error, and it adds nothing else. |
| MongoValidator.CheckMembers | backend/validators/mongodb_validator.py:64-84 | The member loop appends exactly the per-member errors, member by member. |
| MongoValidator.ValidateVersionSpecific | backend/validators/mongodb_validator.py:103-131 | The version-specific pass returns the CPU errors under 7.0. Under 8.0 it returns one error for more than 7 members, then one error per `pd-standard` member. |
| MongoValidator.GetPerformanceRecommendations | backend/validators/mongodb_validator.py:133-170 | The recommendation pass returns exactly the specified recommendation list, with the memory summed over the spec table. |
| MongoValidator.ValidateMongodbVersion | backend/validators/mongodb_validator.py:48-101 | `ok` iff the error list is empty. The messages are the errors in order, followed by every warning prefixed `WARNING: `. |
| MongoValidator.UnsupportedVersionStops | backend/validators/mongodb_validator.py:56-59 | A version other than 7.0 or 8.0 yields exactly one error and one message, and no other check runs. |
| MongoValidator.OkIffOnlyWarnings | backend/validators/mongodb_validator.py:101 | There are no errors iff every message starts with `WARNING: `. Warnings never affect `ok`. |
| MongoValidator.OnlyWarnings | backend/validators/mongodb_validator.py:101 | For any errors and warnings, the combined text list is all `WARNING: ` lines iff there are no errors. |
| MongoValidator.ErrorText | backend/validators/mongodb_validator.py:58-129 | No error message can be mistaken for a warning: each is non-empty and does not start with `W`. |
| MongoValidator.ErrorTextExamples | backend/validators/mongodb_validator.py:66-129 | The messages name members as a Python 3.12 f-string renders them: an unsupported `e2-micro` under 8.0 reads `MongoDB MongoDBVersion.V8_0은 머신 타입 MachineType.E2_MICRO을 …`, followed by the `repr` list of the supported types, and the 8.0 disk error ends `노드 node1: DiskType.PD_STANDARD`. |
| MongoValidator.CpuRuleNeverFires | backend/validators/mongodb_validator.py:108-116 | The 7.0 CPU rule never adds an error, because every spec entry has at least 2 vCPUs. |
| MongoValidator.MemoryRuleNeverFires | backend/validators/mongodb_validator.py:71-77 | The memory rule never fires for any version or member list: every machine type with a spec entry has at least 4 GB, the larger of the two minimums. |
| MongoValidator.MemberErrorCount | backend/validators/mongodb_validator.py:64-84 | The number of member errors is the number of members with an unsupported type plus the number with a disk under 20 GB. |
| MongoValidator.MemberErrorsFromMembers | backend/validators/mongodb_validator.py:64-84 | Every member error comes from some member's own checks. |
| MongoValidator.StandardDiskErrorCount | backend/validators/mongodb_validator.py:124-129 | There is one 8.0 disk error per `pd-standard` member. The count is positive iff some member uses `pd-standard`. |
| MongoValidator.Version8RulesBlock | backend/validators/mongodb_validator.py:118-129 | Under 8.0, more than 7 members or any `pd-standard` disk makes `ok` false. |
| MongoValidator.Version8StandardDiskErrors | backend/validators/mongodb_validator.py:61-129 | Under 8.0 the error count is unsupported members + small disks + (more than 50) + (more than 7) + `pd-standard` members. |
| MongoValidator.Version7ErrorCount | backend/validators/mongodb_validator.py:61-116 | Under 7.0 the error count is unsupported members + small disks + (more than 50). |
| MongoValidator.RecommendationsOrdered | backend/validators/mongodb_validator.py:138-168 | Warnings appear in the fixed order zones, SSD, memory, upgrade, each at most once. |
| MongoValidator.RecommendationConditions | backend/validators/mongodb_validator.py:139-168 | The zone warning appears iff there are fewer than 3 zones and at least 3 members. The SSD warning appears iff some disk is `pd-standard`. The memory warning appears iff summed spec memory is below 24. The upgrade warning appears iff the version is 7.0. |
| MongoValidator.RecommendationsForConditions | backend/validators/mongodb_validator.py:141-168 | The same four conditions, stated on the counts. |
| MongoValidator.GetSupportedVersions | backend/validators/mongodb_validator.py:172-175 | The supported versions are exactly 7.0 and 8.0, in that order. |
| MongoValidator.GetRecommendedVersion | backend/validators/mongodb_validator.py:177-180 | The recommended version is the only one the table marks recommended. |
| MongoValidator.SuggestOptimalConfiguration | backend/validators/mongodb_validator.py:182-207 | Any hint other than small or large gets the medium entry (`e2-standard-2`, 100 GB, 3 members). Every suggestion uses the recommended version and a machine type it supports, meets the disk minimum and has an odd member count. |
| MongoValidator.SuggestionTable | backend/validators/mongodb_validator.py:182-207 | The three entries are pinned: small is 8.0, `e2-standard-2`, 50 GB, 3 members; medium is 8.0, `e2-standard-2`, 100 GB, 3; large is 8.0, `e2-standard-4`, 200 GB, 5. Any other hint gets exactly the medium entry. Disk grows from small to large, and members and machine memory never shrink. |
| TerraformRender.GenerateTfvars | backend/services/terraform_service.py:187-250 | The loops over members and labels build exactly the specified tfvars document. |
| TerraformRender.MemberBlocks | backend/services/terraform_service.py:190-204 | There is one block per member, in member order. |
| TerraformRender.MemberBlockRoundTrip | backend/services/terraform_service.py:192-204 | The block of a member whose name and zone hold no newline or comma reads back as that same member. All eleven fields survive rendering, with booleans lowercased. |
| TerraformRender.MemberListRoundTrip | backend/services/terraform_service.py:234-236 | The comma-joined member blocks read back as the member list, in order. |
| TerraformRender.TfvarsMembersRoundTrip | backend/services/terraform_service.py:187-236 | For every configuration the full-match validators accept, whatever its keyfile (an omitted one included), the `members` list of the rendered file reads back as the configured members. |
| TerraformRender.ValidMemberRenderable | backend/services/terraform_service.py:192-204 | A member that passes the field validators has no newline or comma in its name or zone. Digits of any script are neither. |
| TerraformRender.NewlineNameBreaksBlock | backend/services/terraform_service.py:193 | A name with a trailing newline, which the validator as written admits, renders a block that does not read back as the member. |
| TerraformRender.ParsedNameHasNoNewline | backend/services/terraform_service.py:193 | No member block the reader accepts carries a newline in its name. |
| TerraformRender.ParseIntRoundTrip | backend/services/terraform_service.py:197-203 | Every integer the file writes reads back as the same integer. |
| TerraformRender.ParsePriorityRoundTrip | backend/services/terraform_service.py:199 | A whole-number priority written as Python prints a float (`n.0`) reads back as the same number. |
| TerraformRender.EmptySourcesRenderEmptyString | backend/services/terraform_service.py:207-227 | An empty `allowed_sources` list renders as `[""]`, a list holding one empty string. |
| TerraformRender.OmittedKeyfileRenderedAsNone | backend/services/terraform_service.py:240 | With authentication on and the keyfile omitted, the accepted keyfile is `None` and the tfvars line writes it as the string `"None"`. |
| TerraformRender.ApplyArgs | backend/services/terraform_service.py:257-266 | Apply is `apply -auto-approve` iff `auto_approve` is set, and `apply tfplan` otherwise. |
| TerraformRender.OutputsFor | backend/services/terraform_service.py:298-303 | A non-zero return code yields empty outputs. Return code 0 yields the parsed outputs. |
| TerraformRender.InitializeReplicaSet | backend/services/terraform_service.py:310-334 | Outputs that `_initialize_replica_set` cannot read make it raise with their error. Otherwise one pass over the instances gives the specified topology: the last primary's address, the others as secondaries, the connection string and the monitoring URLs. |
| TerraformRender.LastPrimaryMeaning | backend/services/terraform_service.py:320-322 | The primary is absent iff no instance has role `primary`. Otherwise it is the address of a primary after which no primary follows. |
| TerraformRender.SecondaryHostsMembers | backend/services/terraform_service.py:323-324 | An address is a secondary iff some non-primary instance has it. |
| TerraformRender.SecondaryHostsCount | backend/services/terraform_service.py:320-324 | Secondaries plus primaries account for every instance. |
| TerraformRender.NullPrimaryReadsAsNone | backend/services/terraform_service.py:318-332 | Reading the instances without their primaries gives no primary and the same secondaries. This is the topology the source builds when the last primary's address is null: `None` as primary, and the secondaries unchanged. |
| TerraformRender.ConnectionStringShape | backend/services/terraform_service.py:329 | The connection string starts with `mongodb://` and ends with `/?replicaSet=<name>`. |
| TerraformRender.HostListSplits | backend/services/terraform_service.py:329 | When no address holds a comma, the host list splits back into `primary:port` followed by the secondaries. With no secondaries, one empty host follows. |
| Orchestrator.WorkspaceName | backend/services/terraform_service.py:47 | The workspace name is the replica-set name, a hyphen and the first 8 characters of the job id. |
| Orchestrator.EstimateCompletionTime | backend/services/terraform_service.py:350-354 | The estimate is at least 10 minutes, even, and (estimate − 10) / 2 is the member count. |
| Orchestrator.CreateResponseFor | backend/services/terraform_service.py:35-74 | The response is `failed` iff validation reports errors, and then its message is `검증 실패: ` followed by the error messages joined with `; `. It is `pending` with the start message and an estimate iff there are none. The estimate text is decimal digits followed by `분`, and the digits read back as the estimated minutes. The job id, name and workspace are always echoed. |
| Orchestrator.Updated | backend/services/terraform_service.py:336-348 | Status, progress, message, `error_details` and `updated_at` are overwritten. `completed_at` is set iff the status is ready or failed. The job's identity, outputs and topology are kept. |
| Orchestrator.PrepareRun | backend/services/terraform_service.py:165-185 | Preparation succeeds iff mkdir, the template check, the copy and the write all succeed. It then creates the directory, copies the templates and writes `terraform.tfvars`, in that order. |
| Orchestrator.CommandRun | backend/services/terraform_service.py:268-296 | Every command runs `terraform init` first, then `terraform <cmd>`. The result is the main command's code and output. An exception from either call propagates. |
| Orchestrator.OutputsRun | backend/services/terraform_service.py:298-303 | Reading outputs succeeds iff both calls return and, on code 0, the output parses. A non-zero code gives empty outputs. |
| Orchestrator.WorkflowSucceeds | backend/services/terraform_service.py:103-145 | When every outside call succeeds, the job ends `ready` at 100 with `completed_at` set, outputs stored and the topology of those outputs. The effects are exactly prepare, init+plan, init+apply, init+output. |
| Orchestrator.SucceededOutcome | backend/services/terraform_service.py:111-145 | The successful workflow is the checkpoint updates followed by the completion record, with the effects of the four stages concatenated. |
| Orchestrator.CompletedRecordSteps | backend/services/terraform_service.py:127-145 | Completion is the (configuring, 70), (initializing, 85) and (ready, 100) updates, with the outputs and topology stored between them. |
| Orchestrator.CompletedRecordFacts | backend/services/terraform_service.py:138-145 | A completed record is `ready` at 100, with no error details, `completed_at` set, and the outputs and topology stored. |
| Orchestrator.WorkflowFails | backend/services/terraform_service.py:151-155 | When some call fails, the job ends `failed` with `completed_at` set and the message `ReplicaSet 생성 실패: ` + the error details. Progress stays at the last checkpoint reached, one of 20, 30, 50 and 85: 20 iff preparation failed; 50 iff preparation and plan succeeded but apply or the outputs read failed; 85 iff Terraform succeeded and the outputs could not be read as a topology, and then the outputs are stored and the error is theirs; 30 otherwise. Below 85 the stored outputs and the topology are those of the job before. |
| Orchestrator.WorkflowKeepsJob | backend/services/terraform_service.py:103-163 | The workflow never changes the job's id, name, creation time, workspace, config or estimate. |
| Orchestrator.CleanupWhenAsked | backend/services/terraform_service.py:157-159 | `terraform destroy -auto-approve` runs iff the workflow failed, `destroy_on_failure` is set, the workspace exists, and init returned. The directory is removed iff, in addition, destroy returned. |
| Orchestrator.CleanupContents | backend/services/terraform_service.py:361-366 | The same two conditions, stated on the clean-up step alone. |
| Orchestrator.WorkflowSteps | backend/services/terraform_service.py:103-135 | Before the clean-up, the workflow only makes the directory, copies, writes the tfvars file, and runs init, plan, apply and output. |
| Orchestrator.StepsNeverClean | backend/services/terraform_service.py:103-135 | Those steps hold no destroy and no directory removal. |
| Orchestrator.WorkflowEffectsSplit | backend/services/terraform_service.py:103-163 | The effects are the workflow steps, followed by the clean-up exactly when the workflow failed. |
| Orchestrator.ReturnCodesIgnored | backend/services/terraform_service.py:119-123 | The return codes and output of plan and apply have no influence on the outcome. |
| Orchestrator.BaseDirectoryFinding | backend/services/terraform_service.py:108 | Even when every call would succeed, the workflow as written fails the job at its current progress. The corrected workflow reaches `ready`. |
| Orchestrator.TerraformService.constructor | backend/services/terraform_service.py:21-27 | A new service keeps the two directories and starts with an empty registry. |
| Orchestrator.TerraformService.CreateReplicaSet | backend/services/terraform_service.py:29-74 | The response is the specified one. On validation failure the registry is unchanged. Otherwise exactly the new job's entry is set: pending, progress 0, the workspace name and the estimate. It is appended to the order when new. |
| Orchestrator.StatusResponse | backend/services/terraform_service.py:83-101 | Building the response object succeeds iff the instance fields admit any value or the record carries no topology; on success it holds the record unchanged, otherwise the error is pydantic's refusal of the integer `port`. |
| Orchestrator.TerraformService.GetJobStatus | backend/services/terraform_service.py:76-101 | An unknown id gives None. A registered job's record is returned iff the response type admits it; as written (`Dict[str, str]` instance fields) it raises the validation error exactly for a record that carries a topology. |
| Orchestrator.ReadyJobUnprojectable | backend/services/terraform_service.py:83-101 | A job the workflow brings to `ready`, which happens iff every outside call succeeds, can no longer be projected into a status response as written, because the stored instance entries hold an integer port. With instance fields that admit it, every workflow record is returned as stored. |
| Orchestrator.TerraformService.UpdateJobStatus | backend/services/terraform_service.py:336-348 | A registered job gets the updated record and no other entry changes. An unknown id changes nothing. |
| Orchestrator.TerraformService.PrepareTerraformWorkspace | backend/services/terraform_service.py:165-185 | The method performs the specified preparation. |
| Orchestrator.TerraformService.RunTerraformCommand | backend/services/terraform_service.py:268-296 | The method performs the specified init-then-command run. |
| Orchestrator.TerraformService.GetTerraformOutputs | backend/services/terraform_service.py:298-303 | The method performs the specified outputs read. |
| Orchestrator.TerraformService.CleanupFailedResources | backend/services/terraform_service.py:361-366 | The clean-up works under the base workspace directory and does what the clean-up rule says. |
| Orchestrator.TerraformService.CompleteWorkflow | backend/services/terraform_service.py:126-145 | Only the job's entry changes. It returns the outputs' error when the topology step raises, and the entry is then the record at 85 with the outputs stored; otherwise the entry becomes the completed record. |
| Orchestrator.TerraformService.FailWorkflow | backend/services/terraform_service.py:151-159 | Only the job's entry changes, and it becomes the failed record. The clean-up effects follow the clean-up rule. |
| Orchestrator.TerraformService.ExecuteTerraformWorkflow | backend/services/terraform_service.py:103-163 | For a registered job, the registry entry and the effects are exactly the workflow's outcome. For an unknown job, nothing changes. |
| Orchestrator.TerraformService.ExecuteTerraformWorkflowAsWritten | backend/services/terraform_service.py:103-159 | As written, a registered job becomes `failed` at its current progress with the missing-attribute error, and no outside call is made. |
| ReplicaSetApi.ListReplicaSets | backend/api/replica_set_api.py:119-142 | The route answers 500 with the projection error iff some registered job, filtered out or not, cannot be projected. Otherwise `total_count` is the number of matching jobs, whatever `limit` and `offset` are, and the page is Python's slice `[offset:offset+limit]` of those jobs in registry order. |
| ReplicaSetApi.ListedMembership | backend/api/replica_set_api.py:121-126 | A record is listed iff some registered job in the order holds it and passes the filter. |
| ReplicaSetApi.ListedHaveStatus | backend/api/replica_set_api.py:125 | With a non-empty status filter, every listed job has that status. |
| ReplicaSetApi.ListedUnfiltered | backend/api/replica_set_api.py:125 | Without a filter, or with an empty one, every job is listed in registry order. |
| Strings.PageLength | backend/api/replica_set_api.py:130 | A page is never longer than `limit`. Within bounds it is the plain subsequence. |
| Strings.NegativeLimitPage | backend/api/replica_set_api.py:130 | A negative limit follows Python slicing: `limit = -1` at offset 0 drops the last job. |
| ReplicaSetApi.JobStatusRoute | backend/api/replica_set_api.py:80-102 | A job is returned iff its id is registered and its record can be projected. An unknown id, and only that, gives not-found with the route's message; a registered job whose projection raises gives a 500 with `서버 내부 오류: ` and the error. |
| ReplicaSetApi.FirstMatch | backend/api/replica_set_api.py:203-206 | The lookup stops at the first job in registry order whose name matches, and none matches when it finds nothing. |
| ReplicaSetApi.GetConnectionInfo | backend/api/replica_set_api.py:200-230 | The loop with its early break, and the projection of the job it stops at, return the specified connection lookup. |
| ReplicaSetApi.ConnectionFoundIff | backend/api/replica_set_api.py:203-230 | Connection info is returned iff the first job with that name can be projected and is `ready`, and then it is for that name. The answer is a 500 iff that first job cannot be projected; otherwise it is the not-running error. |
| ReplicaSetApi.ReadyJobsNeverConnectAsWritten | backend/api/replica_set_api.py:203-230 | As written, when every ready job carries its topology, as the workflow leaves it, the connection route never returns connection information. |
| ReplicaSetApi.EarlierFailedJobHidesReadyOne | backend/api/replica_set_api.py:203-212 | A failed job registered before a ready one with the same name hides it: the result is not-found, or a 500 when the failed job cannot be projected. |
| ReplicaSetApi.ValidationReportFor | backend/api/replica_set_api.py:278-288 | `valid` iff the validator reports no errors, and the messages are the validator's. The cost is 50 USD per member and the time 10 + 2 per member. |
| ReplicaSetApi.ValidateConfiguration | backend/api/replica_set_api.py:262-288 | The route returns the specified report. |
| ReplicaSetApi.ValidationAgreesWithCreate | backend/api/replica_set_api.py:278-287 | The validate route says valid iff creation would not fail validation, and both give the same time estimate. |
| ReplicaSetApi.DestroyReplicaSet | backend/api/replica_set_api.py:170-176 | `backup_job_id` is present iff `backup_before_destroy` is set. The name is echoed and the status is `pending`. |
| ReplicaSetApi.DestroyIgnoresForceAndBody | backend/api/replica_set_api.py:149-176 | `force` and the body's name have no effect, and the job id is the fixed placeholder. |
| ReplicaSetApi.SupportedVersionsRoute | backend/api/replica_set_api.py:238-253 | The route lists exactly the versions the model parses, and the recommended version is among them. |
| ReplicaSetApi.VersionTableAgreesWithRequirements | backend/api/replica_set_api.py:242-252 | The route's memory and disk entries agree with the validator's requirement table. The `recommended` key is present only for the recommended version, 8.0, and is then true. |
| ReplicaSetApi.GetJobStatusPerRequest | backend/api/replica_set_api.py:20-21 | With a fresh service per request, every job lookup is not-found. |
| ReplicaSetApi.CreateThenGetPerRequest | backend/api/replica_set_api.py:20-21 | With a fresh service per request, a job that creation accepted is still not found by the next request. |
| ReplicaSetApi.CreateThenGet | backend/api/replica_set_api.py:28-90 | With one shared service, an accepted job is then found with its new pending record, which carries no topology and so passes the projection. |
| CorsConfig.AssembleCorsOrigins | backend/app/core/config.py:25-31 | A string not starting with `[` becomes its stripped comma pieces. A list, or a string starting with `[`, is returned unchanged. Any other value is refused. |
| CorsConfig.StrippedPieces | backend/app/core/config.py:28 | There are exactly (number of commas + 1) origins, each the stripped piece at the same position. |
| CorsConfig.PiecesAreClean | backend/app/core/config.py:28 | Every parsed origin holds no comma and no surrounding whitespace. |
| CorsConfig.OriginsRoundTrip | backend/app/core/config.py:27-28 | Joining clean origins with commas and parsing gives back the same list. |
| CorsConfig.AssembleIdempotent | backend/app/core/config.py:25-31 | Running the validator on its own result changes nothing. |
| Strings.SplitLength | backend/app/core/config.py:28 | `split(",")` yields one more piece than there are commas. |
| Strings.JoinSplit | cli/dbprovision.py:89 | Joining the split zones with commas gives back the original string. |
| Strings.Strip | backend/app/core/config.py:28 | `strip()` removes whitespace only at both ends, and the result has none there. |
| DbProvision.ParameterErrorsMeaning | cli/dbprovision.py:40-58 | An error is reported iff its condition holds: for a sharded cluster, fewer than 1 mongos or fewer than 1 shard; fewer than 1 replica node; a truthy port outside 1024..65535; an empty project id. No error is reported twice. |
| DbProvision.ParameterErrorsInOrder | cli/dbprovision.py:43-58 | The errors come in the source's order: mongos, shards, replicas, port, project. |
| DbProvision.Message | cli/dbprovision.py:45-58 | Each error carries the message the check prints. |
| DbProvision.ValidateParameters | cli/dbprovision.py:40-63 | The check collects exactly those errors. It warns iff the node count is even, and exits iff there are errors. |
| DbProvision.EvenNodeCountOnlyWarns | cli/dbprovision.py:49-52 | Any positive node count, even or odd, gives the same errors. |
| DbProvision.DefaultsPass | cli/dbprovision.py:284-327 | With the parser defaults the only possible error is the missing project id. The sharded defaults pass as well, and the default 3 nodes draw no warning. |
| DbProvision.GenerateTerraformVars | cli/dbprovision.py:65-97 | The conditional updates build exactly the specified dictionary. |
| DbProvision.TerraformVarsKeys | cli/dbprovision.py:65-97 | The first 12 keys are the base keys in order. `shard_count`, `config_servers` and `mongos_count` are present iff the cluster is sharded. `zones`, `vpc_name` and `subnet_cidr` are present iff given. |
| DbProvision.TerraformVarsDistinct | cli/dbprovision.py:65-97 | No key appears twice. |
| DbProvision.ZonesVariable | cli/dbprovision.py:88-89 | `zones` holds the comma-split list, with one more entry than commas, which joins back to the argument. |
| DbProvision.GenerateAnsibleVars | cli/dbprovision.py:99-118 | The conditional updates build exactly the specified dictionary. |
| DbProvision.AnsibleVarsKeys | cli/dbprovision.py:99-118 | The 6 base keys come first in order. `cache_size`, `oplog_size` and `backup_schedule` are present iff truthy. |
| DbProvision.TfvarsLineRoundTrip | cli/dbprovision.py:173-180 | With booleans written as HCL literals, every scalar line reads back as the value written (strings without quotes, backslashes, newlines or template sequences). |
| DbProvision.TfvarsBoolLineAsWritten | cli/dbprovision.py:180 | As written, a boolean line is `key = True` or `key = False`, which is not an HCL value. |
| DbProvision.EveryAsWrittenFileHasABadLine | cli/dbprovision.py:173-180 | The tfvars file `create` writes as written contains, as its ninth line, `enable_auth = True` or `enable_auth = False`, which does not read back. |
| DbProvision.CorrectedFileReadsBack | cli/dbprovision.py:173-180 | The corrected `create` writes the file with HCL booleans, every literal scalar line of which reads back as its value; its `enable_auth` line reads back as a boolean. |
| JsonText.EscapeRoundTrip | cli/dbprovision.py:178 | Decoding the JSON escape of any string gives the string back, surrogate pairs included. |
| JsonText.EscapeIsAscii | cli/dbprovision.py:178 | The escaped text is printable ASCII, as with `json.dumps` defaults. |
| JsonText.EscapeIdentity | cli/dbprovision.py:178 | A string is written unchanged iff every character is printable ASCII other than the quote and the backslash. |
| JsonText.EscapeLength | cli/dbprovision.py:178 | Escaping never shortens a string, and it keeps the length only when nothing needed escaping. |
| JsonText.HexRoundTrip | cli/dbprovision.py:178 | A four-digit hex escape reads back as its code unit. |
| DbProvision.TerraformCommand | cli/dbprovision.py:120-132 | Only init, plan, apply and destroy are accepted. The command starts `terraform <action>`, carries `-auto-approve` iff it is apply or destroy, and carries `-var-file=` iff it is not init. Other actions fail with the `Unknown terraform action` message. |
| DbProvision.AnsibleCommand | cli/dbprovision.py:142-150 | The command is `ansible-playbook -i inventories/<inventory> playbooks/<playbook>`, followed by `-e @<file>` iff a variables file is given. |
| DbProvision.Playbooks | cli/dbprovision.py:197-208 | Standalone runs 1 playbook, replicaset 2 and sharded 6. |
| DbProvision.PlaybookOrder | cli/dbprovision.py:197-208 | Each plan starts with a deploy playbook. Each init playbook comes right after the deploy playbook of the same inventory. `configure-sharding` runs only for sharded clusters, and last. A sharded cluster runs the config-server playbooks, then the shard playbooks, then the mongos playbooks, and uses no other inventory. |
| DbProvision.ClusterName | cli/dbprovision.py:165 | The cluster name is the given one when non-empty, and `mongodb-cluster` otherwise. |
| DbProvision.CreateCommands | cli/dbprovision.py:186-208 | `create` runs `terraform init`, then `terraform plan` and `terraform apply -auto-approve` with the written `-var-file`, in the Terraform directory. Then it runs each playbook of the cluster type, in order, in the Ansible directory with the written variables file. |
| DbProvision.RunUntilFailureStops | cli/dbprovision.py:186-215 | The run succeeds iff every command returns 0. On failure it stops at the first non-zero command, after which nothing runs. |
| DbProvision.CreateClusterMeaning | cli/dbprovision.py:162-215 | `create` first writes the tfvars file (as written), then creates `group_vars` under the Ansible directory, then writes the Ansible variables there. These writes sit outside the `try`: a failing one ends `create` at that write with status 1, before any command. It exits 0 or 1: 0 iff all three writes and every command succeed, and then it runs every command in order. On 1 after the writes, it has run a non-empty prefix of the commands, the last of which returned non-zero. |
| DbProvision.CreateClusterWrites | cli/dbprovision.py:173-184 | The writes come first and in order, a failing one ends the run with status 1, and the commands run only when all three succeed. |
| DbProvision.CreateNeverDestroys | cli/dbprovision.py:162-215 | `create` never runs `terraform destroy`. |
| DbProvision.ProvisionChecksFirst | cli/dbprovision.py:351-353 | With parameter errors nothing is written or run and the exit code is 1. Otherwise the exit code is 0 iff the three writes and every command succeed. |
| DbProvision.ConfirmedAnswers | cli/dbprovision.py:256-258 | The destroy prompt accepts exactly `yes` in any mix of cases. |
| DbProvision.DestroyGate | cli/dbprovision.py:246-263 | Something runs iff the vars file exists and an answer was read that confirms. The first command is `terraform destroy … -auto-approve`. Removing the vars file is attempted iff destroy returned 0. The end of input at the prompt exits 1 with no effect. The exit code is 0 iff the file exists, an answer was read, and either it declined or destroy and the removal both succeeded. |

## Left out

- Pydantic's type coercion and its other field constraints (`min_items`, `root_password` length, defaults) are stated only as predicates over the model's records (`ConfigFieldOk`); parsing of JSON request bodies is not modelled.
- `priority` is a float in the source; the model's priorities are integers and are rendered as Python prints a whole float (`n.0`).
- `asyncio.create_task`, `asyncio.sleep` and the background scheduling: the workflow is one sequential method run after creation.
- `uuid.uuid4`, `datetime.now` and `secrets.choice` become parameters; one `now` stands for every timestamp taken during one call.
- In the service, subprocess calls, directory creation, template copy, `rmtree` and file writes are effects in a returned log with their outcomes as inputs; the copy of the `modules` directory is folded into the template copy effect.
- In the CLI, a command that cannot be started (the executable missing) raises inside the `try` and exits 1; the model gives it a non-zero code. The `chdir` into a directory that an earlier write reached, and a failure of `yaml.dump` apart from its file write, are not modelled separately.
- JSON parsing of `terraform output -json` is an input (`outputParse`); a parse error counts as an exception. Outputs of a shape `_initialize_replica_set` cannot read (a JSON list, a list-valued output, a missing `role` or `internal_ip`, a null address among the secondaries, which `','.join` refuses) are one case, `malformed`, carrying the error raised. Addresses are strings in the model. A null address on the last primary does not raise: the source renders it as `None`, which is what the model gives for the same output read without its primaries (`NullPrimaryReadsAsNone`); a null address on an earlier primary is overwritten and has no effect.
- `self.job_status[job_id]` raising `KeyError` for an unregistered job: the model leaves the registry unchanged instead.
- The service constructor's `mkdir` of the base workspace directory is not modelled.
- `terraform_resources` is always `[]` in the source and is not part of the job record.
- The notification stub (`_send_completion_notification`) does nothing and is left out.
- The health route, logging, and the mapping of failures to HTTP status codes; route errors are a datatype.
- `get_job_status`'s projection keeps every field of the record. It fails only where the instance fields' `Dict[str, str]` meets the stored integer port. A `terraform_outputs` value that is not a JSON object (one of the malformed shapes) would fail `Dict[str, Any]` as well; the model does not tell those shapes apart. The text of pydantic's validation error is a constant.
- Where Python versions differ, the model follows Python 3.12 with pydantic 2: enumeration members in f-strings print as `MachineType.E2_MICRO` (3.8 to 3.10 print the value), `\d` is Unicode 15.0, and a `str` field refuses an integer.
- MemberFieldErrorsMeaning: states the intended full-match name and zone validators (`ValidateName`, `ValidateZone`), not the as-written ones, which also accept a value followed by one newline (Findings row 1).
- ConfigFieldErrors: the replica-set-name and project-id constraints are the intended full matches, so `rs0\n` and `my-project\n`, which the validators as written accept, are reported (Findings row 1).
- ConfigFieldOkMeaning: states the full-match patterns, not the as-written acceptance of one trailing newline (Findings row 1).
- TfvarsMembersRoundTrip: holds for configurations the full-match validators accept; a name the as-written validator accepts with a trailing newline breaks it (`NewlineNameBreaksBlock`).
- The CORS settings default list is not passed through the validator (pydantic does not validate defaults).
- YAML serialisation of the Ansible variables is an effect carrying the dictionary.
- Printing, `argparse` and `os.chdir`: parsed arguments are a record (the working directory is recorded with each command), and `show_cluster_info`, `show_status` and `show_health` only print.
- `--enable-auth` is `store_true` with default `True`, so it is always true; the model keeps it as a field.
- `DbProvision.Confirmed` lowercases ASCII only; Python's `lower()` also maps other letters, none of which lowercases to `y`, `e` or `s`.
- `DbProvision.ParseLine` reads back only scalar lines (strings without quotes, backslashes, newlines, `${` or `%{`, integers, booleans), not the JSON lists.
- An exception from `subprocess.run` itself (a missing binary) is modelled as a non-zero return code.
- `Regex.IsDecimal` holds the decimal digits of Unicode 15.0 (as Python 3.12); other Python versions' tables differ in the newest scripts.
- The keyfile validator runs only on supplied fields, as pydantic does without `always=True`; validation of the other fields' defaults is likewise left out.
- `Regex` covers the constructs of the four patterns (classes, concatenation, `*`, `+`, `{m,n}`, `?`) and not general regular expressions.

## Findings

| source | as written | input that shows it | evidently intended | confidence | as-written member | corrected member |
|---|---|---|---|---|---|---|
| backend/models/replica_set.py:46 | `re.match` with `$` also matches before a trailing newline, so the name, zone, replica-set-name and project-id validators accept a value ending in `\n` | member name `node1\n`; zone `asia-northeast3-a\n`; replica-set name `rs0\n`; project id `my-project\n` | the whole value matches the pattern; a rendered tfvars block then reads back as the member | high, not executed | ReplicaSetModel.TrailingNewlineAcceptedAsWritten | ReplicaSetModel.ValidateName |
| backend/services/terraform_service.py:108 | the workspace path uses `self.base_terraform_dir`, an attribute `__init__` never sets (it sets `base_workspace_dir`), and the clean-up at line 363 does the same | any registered job, whatever Terraform does | the workspace lives under `base_workspace_dir`, and a job whose calls all succeed ends `ready` | high, not executed | Orchestrator.BaseDirectoryFinding | Orchestrator.TerraformService.ExecuteTerraformWorkflow |
| cli/dbprovision.py:180 | booleans are written with `str()`, as `True`/`False`, which HCL does not read as booleans | any `create`: `enable_auth = True` | `true`/`false`, as the backend writes them | high, not executed | DbProvision.EveryAsWrittenFileHasABadLine | DbProvision.CorrectedFileReadsBack |
| backend/api/replica_set_api.py:20-21 | every request gets a new `TerraformService`, so the registry is always empty when a route reads it | create a job, then `GET /jobs/{job_id}` | one shared service, so a created job is found | medium, not executed | ReplicaSetApi.CreateThenGetPerRequest | ReplicaSetApi.CreateThenGet |
| backend/models/replica_set.py:130 | `validate_keyfile_content` is a plain `@validator`, which pydantic does not run on an omitted field, so a request with authentication on (the default) and no `keyfile_content` keeps `None`, and the tfvars file gets `keyfile_content = "None"` | a create request without `keyfile_content` | the validator's own branch for a missing keyfile: a generated 756-character keyfile (`always=True`) | medium, not executed | ReplicaSetModel.OmittedKeyfileKeptAsWritten | ReplicaSetModel.KeyfileAlwaysValidated |
| backend/models/replica_set.py:199-200 | the status response declares `primary_instance: Dict[str, str]` and `secondary_instances: List[Dict[str, str]]`, but the workflow stores `{"host": ..., "port": <int>}` there (backend/services/terraform_service.py:138-140), which pydantic 2 refuses; every job that reaches `ready` makes `get_job_status` raise, so its status route, the listing and the connection route answer 500 | any job whose Terraform calls all succeed, then `GET /jobs/{job_id}` | the response carries the stored instance entries (value type admitting the integer port) | medium, not executed | Orchestrator.ReadyJobUnprojectable | ReplicaSetApi.ConnectionFoundIff |
