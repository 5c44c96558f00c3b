# MESH client for AWS serverless: singleton check, configuration merge and lock-manager dispatch

This Dafny project models the decision logic of the MESH AWS serverless client.
MESH is the mailbox-based messaging service this client moves files through.
Three pieces are modelled:

- **`MeshCommon`** (`mesh_common.dfy`). The singleton check runs before a mailbox is processed. It finds this workflow's state machine by name and takes the ARN of the last entry with that name. It then reads the inputs of the running executions in order and refuses as soon as more than one carries the mailbox. The module also holds the conversion of parameter-store entries into a map keyed by basename, the override of those parameters by secrets under the same path, the fixed-shape retryable failure response, the chunk-size constants (`MIB`, `DEFAULT_CHUNK_SIZE` = 20 MiB) and the `MeshMessage` record.
- **`MeshLockManager`** (`lock_manager.dfy`). The lock-manager lambda is a class whose attributes are filled by `ProcessEvent` and `Initialise`. `Start` returns the one action it takes: release a lock, write the `MESHSEND0015` diagnostic, or nothing.
- Helpers: `Wrappers` (Option, Result), `Values` (decoded JSON values and Python truthiness), `PosixPath` (`os.path.basename`).

AWS is treated as input data. `list_state_machines` becomes a sequence of state machines. `list_executions` plus `describe_execution` become a function from a state-machine ARN to its running executions, each with its already-decoded input. The parameter store and the secret store become sequences of entries. The `use_secrets_manager` environment variable becomes an optional string. The `describe_execution` calls the check makes are returned as the list of execution ARNs it read. That list is how the model shows that the scan stops early.

Each loop of the source is a method proved equal to a specification function. The lemmas state the promised properties about those functions: last writer wins, prefix filtering, the error cases and early termination.

The code and the system's design description disagree in three places. The model follows the code:
- A missing state machine raises the same `SingletonCheckFailure` as a busy mailbox. There is no separate configuration error.
- The lock manager acts on the operation `"release"` only, not on `"remove"`.
- The `MESHLOCK0002` log the tests expect for `"remove"` comes from shared code outside this model.

## Model

| member | source | states |
|---|---|---|
| `MeshCommon.SingletonCheck` | mesh_client_aws_serverless/mesh_common.py:31-66 | The result and the executions read equal the check's decision on the snapshot (`SingletonCheckOutcome`), whose properties are the lemmas below |
| `MeshCommon.ScanExecutions` | mesh_client_aws_serverless/mesh_common.py:56-64 | The counting loop raises exactly when `FirstConflict` finds one; it reads every execution when it passes and stops right after the conflicting execution when it raises |
| `MeshCommon.NoMatchingMachineSelectsNoArn` | mesh_client_aws_serverless/mesh_common.py:37-40 | When no state machine has the workflow's name, no ARN is selected |
| `MeshCommon.LastMatchingMachineSuppliesArn` | mesh_client_aws_serverless/mesh_common.py:38-40 | When several state machines share the name, the last one in list order supplies the ARN, even an absent one |
| `MeshCommon.FirstConflictIsSecondMatch` | mesh_client_aws_serverless/mesh_common.py:56-64 | The scan raises iff more than one execution carries the mailbox, and it stops at one that carries it with exactly one earlier match |
| `MeshCommon.FirstConflictIgnoresSuffix` | mesh_client_aws_serverless/mesh_common.py:57-64 | Once the scan has raised, executions listed after that point cannot change where it stops |
| `MeshCommon.SingletonCheckDecision` | mesh_client_aws_serverless/mesh_common.py:43-66 | No or empty ARN raises "No executing step function arn for step_function=<name>" and reads nothing; otherwise `True` iff at most one running execution carries the mailbox, else "Process already running for this mailbox" after reading up to the second match |
| `MeshCommon.MissingMailboxCountsOnlyForNone` | mesh_client_aws_serverless/mesh_common.py:58-62 | An execution without input or without a `mailbox` key counts only when the mailbox under test is `None` |
| `MeshCommon.SingletonCheckScenarios` | mesh_client_aws_serverless/mesh_common.py:56-66 | The own execution alone passes; two running executions for one mailbox raise after both are read |
| `PosixPath.Basename` | mesh_client_aws_serverless/mesh_common.py:75 | The key is the suffix after the last `/` (the whole name when it has none): a suffix, free of `/`, preceded by `/` when shorter |
| `MeshCommon.ConvertParamsToDict` | mesh_client_aws_serverless/mesh_common.py:68-77 | The loop builds exactly `ParamsToMap`, the entry-by-entry insertion map |
| `MeshCommon.ParamsToMapKeys` | mesh_client_aws_serverless/mesh_common.py:72-76 | A key is present iff some entry with a non-empty `Name` has it as basename |
| `MeshCommon.ParamsToMapLastWins` | mesh_client_aws_serverless/mesh_common.py:72-76 | The last named entry with a given basename supplies its value; a missing `Value` maps to `None` |
| `MeshCommon.UnnamedEntryIgnored` | mesh_client_aws_serverless/mesh_common.py:73-74 | An entry with a missing or empty `Name` leaves the map unchanged |
| `MeshCommon.GetParams` | mesh_client_aws_serverless/mesh_common.py:95-125 | The result equals `MergedParams`: the basename map of the parameters, overwritten by matching secrets only when the opt-in is exactly `"true"` |
| `MeshCommon.SecretOverrideLastWins` | mesh_client_aws_serverless/mesh_common.py:117-124 | A secret whose name starts with the path, with no later matching secret of the same basename, supplies that key's value |
| `MeshCommon.SecretOverrideKeepsOtherKeys` | mesh_client_aws_serverless/mesh_common.py:117-124 | A key no matching secret names keeps its presence and value; secrets outside the path are ignored |
| `MeshCommon.SecretsIgnoredUnlessEnabled` | mesh_client_aws_serverless/mesh_common.py:113 | Unless `use_secrets_manager` is exactly `"true"`, the result is the parameter map alone |
| `MeshCommon.MergedParamsKeepsParameter` | mesh_client_aws_serverless/mesh_common.py:106-125 | With the opt-in, a key that no secret under the path names keeps its parameter-store presence and value |
| `MeshCommon.MergedParamsSecretWins` | mesh_client_aws_serverless/mesh_common.py:106-125 | With the opt-in, the last secret under the path with a given basename overrides the parameter of that basename |
| `MeshCommon.ReturnFailure` | mesh_client_aws_serverless/mesh_common.py:79-93 | Status passed through; headers `application/json` and `Retry-After: 18000`; body and the one log entry carry the same error (default `""`); body carries the log object's `internal_id`; the log has exactly `mailbox` and `error` |
| `MeshLockManager.Normalised` | src/mesh_lock_manager_application.py:12-13 | The field is the body's value when truthy and `None` otherwise |
| `MeshLockManager.Dispatch` | src/mesh_lock_manager_application.py:15-32 | Release iff the operation is exactly `"release"` and both fields are truthy, with lock name first. `MESHSEND0015` with `lock_name` and `owner_id` iff `"release"` lacks either field. Nothing otherwise |
| `MeshLockManager.MeshLockManagerApplication.ProcessEvent` | src/mesh_lock_manager_application.py:34-40 | The operation is the event's `Operation` (`None` if absent); the detail returned is `EventDetail`, `{}` if absent |
| `MeshLockManager.MeshLockManagerApplication.Initialise` | src/mesh_lock_manager_application.py:9-13 | `response` and `body` are copied from the event; a non-object body stops there; otherwise lock name and execution id are the normalised body fields |
| `MeshLockManager.MeshLockManagerApplication.Start` | src/mesh_lock_manager_application.py:15-32 | The action taken is `Dispatch` of the current operation, lock name and execution id, and no attribute changes |
| `MeshLockManager.ReleaseNeedsBothBodyFields` | src/mesh_lock_manager_application.py:12-25 | From the event body: release iff `"release"` with truthy `lock_name` and `execution_id`, and then with exactly those values in that order |
| `MeshLockManager.ReleaseWithoutExecutionIdLogs` | src/mesh_lock_manager_application.py:26-31 | A `"release"` without a usable execution id logs `MESHSEND0015` with `owner_id = None` |
| `MeshLockManager.RemoveIsNotActedOn` | src/mesh_lock_manager_application.py:18-32 | The `"remove"` operation leads to no action from `start` |

## Left out

- AWS clients and calls (`stepfunctions()`, `ssm_client()`, `secrets_client()`, `list_*`, `describe_execution`, `get_secret_value`, `get_parameters_by_path`): their answers are inputs. The `recursive` and `decryption` arguments of `get_params` only shape the SSM request, so they are not modelled.
- The decoding of an execution's input with `json.loads` is abstracted. An input that is not valid JSON, or that decodes to something other than an object, is not modelled.
- The `KeyError`s raised for a listing without `executions`, an execution without `executionArn`, or a secret without `Name` or `SecretString` are not modelled. Entries are assumed complete where the code indexes them.
- Python equality across types (`True == 1`, `1 == 1.0`) and floating-point values: values are compared structurally, and numbers are integers.
- The race between concurrent executions: the singleton check is a decision over one snapshot, not mutual exclusion.
- `MeshLockManager.MeshLockManagerApplication.Initialise`: a body that is not an object makes the source raise `AttributeError`. The model returns `false` and leaves the lock fields as they were.
- The base class `MESHLambdaApplication`, `main`, `EVENT_TYPE`, `_release_lock` and the DynamoDB lock table are not part of this model. `EVENT_TYPE(x).raw_event` is taken to be `x`. The `MESHLOCK0002` log comes from that shared code.
- Lock acquisition and ownership, chunked send and fetch, compression and encryption flags, checksums and metadata decoding are not part of this model. Their code is not among the modelled files; only the chunk-size constant is.
- The `print` calls and the formatting done by `write_log`: a log write is recorded as a `LogEntry` value.
- `AwsFailedToPerformError` is declared as a datatype only; no modelled code raises it.
