/**
 * The decision logic of `MeshCommon`: the singleton check over a snapshot of
 * the orchestrator's state machines and running executions, the conversion
 * of parameter-store entries into a basename-keyed map, the merge of
 * secret-store overrides, and the fixed-shape failure response.
 *
 * Every AWS call is replaced by its (already fetched) answer: a sequence of
 * state machines, a function from state-machine ARN to the executions that
 * are running under it (each with its already-decoded input), the
 * parameter-store entries, the secret list with each secret's string, and
 * the value of the `use_secrets_manager` environment variable.
 */
module MeshCommon {
  import opened Wrappers
  import opened Values
  import opened PosixPath

  const MIB: nat := 1024 * 1024
  /** The chunk size used for chunked transfer when none is configured. */
  const DEFAULT_CHUNK_SIZE: nat := 20 * MIB

  /** Raised when the singleton check cannot pass. */
  datatype SingletonCheckFailure = SingletonCheckFailure(msg: string)

  /** Raised by callers of AWS functions that did not succeed. */
  datatype AwsFailedToPerformError = AwsFailedToPerformError(msg: string)

  /** The record a MESH message travels in between the lambdas. */
  datatype MeshMessage = MeshMessage(
    filename: string,
    body: seq<bv8>,
    srcMailbox: string,
    destMailbox: string,
    workflowId: string,
    messageId: string)

  // ---------------------------------------------------------------------------
  // Singleton check
  // ---------------------------------------------------------------------------

  /** An entry of `list_state_machines`: its `name` and `stateMachineArn`, either possibly absent. */
  datatype StateMachine = StateMachine(name: Option<string>, stateMachineArn: Option<string>)

  /**
   * A running execution: its ARN and, when `describe_execution` reports an
   * input, that input already decoded as a JSON object.
   */
  datatype Execution = Execution(executionArn: string, input: Option<map<string, Json>>)

  const ALREADY_RUNNING: string := "Process already running for this mailbox"

  function NoArnMessage(stepFunctionName: string): string {
    "No executing step function arn for step_function=" + stepFunctionName
  }

  /** A state machine whose name is missing is compared as the empty name. */
  predicate NameMatches(machine: StateMachine, stepFunctionName: string) {
    machine.name.GetOr("") == stepFunctionName
  }

  /**
   * The ARN the name scan ends with: that of the LAST state machine whose
   * name matches (a later match overwrites an earlier one, even with an
   * absent ARN), or `None` when nothing matches.
   */
  function SelectedArn(machines: seq<StateMachine>, stepFunctionName: string): Option<string> {
    if machines == [] then None
    else
      var last := machines[|machines| - 1];
      if NameMatches(last, stepFunctionName) then last.stateMachineArn
      else SelectedArn(machines[..|machines| - 1], stepFunctionName)
  }

  /** An ARN the check accepts: present and non-empty (Python truthiness). */
  predicate UsableArn(arn: Option<string>) {
    arn.Some? && arn.value != ""
  }

  /** The `mailbox` of an execution's input; no input or no such key reads as `None`. */
  function InputMailbox(execution: Execution): Json {
    match execution.input
    case None => JNull
    case Some(obj) => Get(obj, "mailbox")
  }

  /** How many of `executions` were started for `mailbox`. */
  function MatchCount(executions: seq<Execution>, mailbox: Json): (count: nat)
    ensures count <= |executions|
  {
    if executions == [] then 0
    else
      MatchCount(executions[..|executions| - 1], mailbox)
      + (if InputMailbox(executions[|executions| - 1]) == mailbox then 1 else 0)
  }

  /**
   * The index of the execution at which the scan raises: the first one after
   * which more than one execution for `mailbox` has been seen.
   */
  function FirstConflict(executions: seq<Execution>, mailbox: Json): (k: Option<nat>)
    ensures k.Some? ==> k.value < |executions|
  {
    if executions == [] then None
    else
      var earlier := FirstConflict(executions[..|executions| - 1], mailbox);
      if earlier.Some? then earlier
      else if MatchCount(executions, mailbox) > 1 then Some(|executions| - 1)
      else None
  }

  /** The ARNs of `executions`, in order. */
  function ArnsOf(executions: seq<Execution>): seq<string> {
    seq(|executions|, i requires 0 <= i < |executions| => executions[i].executionArn)
  }

  /** What one singleton check returns or raises, and which executions it described. */
  datatype SingletonCheckRun = SingletonCheckRun(
    result: Result<bool, SingletonCheckFailure>,
    described: seq<string>)

  /** The singleton check as a function of one snapshot of the orchestrator's state. */
  function SingletonCheckOutcome(
    mailbox: Json,
    stepFunctionName: string,
    machines: seq<StateMachine>,
    runningExecutions: string -> seq<Execution>): SingletonCheckRun
  {
    var arn := SelectedArn(machines, stepFunctionName);
    if !UsableArn(arn) then
      SingletonCheckRun(Err(SingletonCheckFailure(NoArnMessage(stepFunctionName))), [])
    else
      var executions := runningExecutions(arn.value);
      match FirstConflict(executions, mailbox)
      case None => SingletonCheckRun(Ok(true), ArnsOf(executions))
      case Some(k) =>
        SingletonCheckRun(Err(SingletonCheckFailure(ALREADY_RUNNING)), ArnsOf(executions[..k + 1]))
  }

  /**
   * Checks that at most one running execution of this workflow's state
   * machine (the caller's own) carries `mailbox`. `described` lists the
   * executions whose input was read, in order.
   */
  method SingletonCheck(
    mailbox: Json,
    myStepFunctionName: string,
    stateMachines: seq<StateMachine>,
    runningExecutions: string -> seq<Execution>)
    returns (result: Result<bool, SingletonCheckFailure>, described: seq<string>)
    ensures SingletonCheckRun(result, described)
         == SingletonCheckOutcome(mailbox, myStepFunctionName, stateMachines, runningExecutions)
  {
    var myStepFunctionArn: Option<string> := None;
    for i := 0 to |stateMachines|
      invariant myStepFunctionArn == SelectedArn(stateMachines[..i], myStepFunctionName)
    {
      assert stateMachines[..i + 1][..i] == stateMachines[..i];
      if NameMatches(stateMachines[i], myStepFunctionName) {
        myStepFunctionArn := stateMachines[i].stateMachineArn;
      }
    }
    assert stateMachines[..|stateMachines|] == stateMachines;

    if !UsableArn(myStepFunctionArn) {
      return Err(SingletonCheckFailure(NoArnMessage(myStepFunctionName))), [];
    }

    var executions := runningExecutions(myStepFunctionArn.value);
    var conflict;
    conflict, described := ScanExecutions(executions, mailbox);
    result := if conflict then Err(SingletonCheckFailure(ALREADY_RUNNING)) else Ok(true);
  }

  /**
   * The counting loop of the singleton check: reads the executions' inputs
   * in order and stops at the first point where more than one of them
   * carries `mailbox`. `described` lists the executions read.
   */
  method ScanExecutions(executions: seq<Execution>, mailbox: Json)
    returns (conflict: bool, described: seq<string>)
    ensures conflict <==> FirstConflict(executions, mailbox).Some?
    ensures !conflict ==> described == ArnsOf(executions)
    ensures conflict ==> described == ArnsOf(executions[..FirstConflict(executions, mailbox).value + 1])
  {
    var execCount := 0;
    described := [];
    for i := 0 to |executions|
      invariant described == ArnsOf(executions[..i])
      invariant execCount == MatchCount(executions[..i], mailbox) <= 1
      invariant FirstConflict(executions[..i], mailbox) == None
    {
      assert executions[..i + 1][..i] == executions[..i];
      described := described + [executions[i].executionArn];
      if InputMailbox(executions[i]) == mailbox {
        execCount := execCount + 1;
      }
      if execCount > 1 {
        FirstConflictIgnoresSuffix(executions[..i + 1], executions[i + 1..], mailbox);
        assert executions[..i + 1] + executions[i + 1..] == executions;
        return true, described;
      }
    }
    assert executions[..|executions|] == executions;
    conflict := false;
  }

  /** With no matching state machine the scan selects no ARN at all. */
  lemma {:induction false} NoMatchingMachineSelectsNoArn(machines: seq<StateMachine>, stepFunctionName: string)
    requires forall i :: 0 <= i < |machines| ==> !NameMatches(machines[i], stepFunctionName)
    ensures SelectedArn(machines, stepFunctionName) == None
  {
    if machines != [] {
      var init := machines[..|machines| - 1];
      assert forall i :: 0 <= i < |init| ==> init[i] == machines[i];
      NoMatchingMachineSelectsNoArn(init, stepFunctionName);
    }
  }

  /** The last state machine whose name matches supplies the ARN, whatever the earlier ones say. */
  lemma {:induction false} LastMatchingMachineSuppliesArn(
    machines: seq<StateMachine>, stepFunctionName: string, i: nat)
    requires i < |machines| && NameMatches(machines[i], stepFunctionName)
    requires forall j :: i < j < |machines| ==> !NameMatches(machines[j], stepFunctionName)
    ensures SelectedArn(machines, stepFunctionName) == machines[i].stateMachineArn
  {
    if i < |machines| - 1 {
      var init := machines[..|machines| - 1];
      assert forall j :: i < j < |init| ==> init[j] == machines[j];
      LastMatchingMachineSuppliesArn(init, stepFunctionName, i);
    }
  }

  /**
   * The scan raises exactly when more than one execution carries the
   * mailbox, and it raises at the second such execution: the one it stops
   * at carries the mailbox and exactly one earlier execution does.
   */
  lemma {:induction false} FirstConflictIsSecondMatch(executions: seq<Execution>, mailbox: Json)
    ensures FirstConflict(executions, mailbox).Some? <==> MatchCount(executions, mailbox) > 1
    ensures FirstConflict(executions, mailbox).Some? ==>
              var k := FirstConflict(executions, mailbox).value;
              InputMailbox(executions[k]) == mailbox && MatchCount(executions[..k], mailbox) == 1
  {
    if executions != [] {
      var n := |executions|;
      var init := executions[..n - 1];
      FirstConflictIsSecondMatch(init, mailbox);
      match FirstConflict(init, mailbox)
      case Some(k) =>
        assert executions[k] == init[k];
        assert executions[..k] == init[..k];
      case None =>
        assert executions[..n - 1] == init;
    }
  }

  /** Once the scan has raised, executions listed after that point cannot change the outcome. */
  lemma {:induction false} FirstConflictIgnoresSuffix(
    executions: seq<Execution>, later: seq<Execution>, mailbox: Json)
    requires FirstConflict(executions, mailbox).Some?
    ensures FirstConflict(executions + later, mailbox) == FirstConflict(executions, mailbox)
  {
    if later == [] {
      assert executions + later == executions;
    } else {
      var init := later[..|later| - 1];
      FirstConflictIgnoresSuffix(executions, init, mailbox);
      assert (executions + later)[..|executions + later| - 1] == executions + init;
    }
  }

  /**
   * The singleton check's decision. Without a usable ARN it raises the
   * "no executing step function" failure and reads no execution. Otherwise
   * it returns `True` exactly when at most one running execution carries
   * the mailbox, having read every execution; when it raises "already
   * running" it has read executions only up to the second one carrying the
   * mailbox.
   */
  lemma SingletonCheckDecision(
    mailbox: Json,
    stepFunctionName: string,
    machines: seq<StateMachine>,
    runningExecutions: string -> seq<Execution>)
    ensures var arn := SelectedArn(machines, stepFunctionName);
            var run := SingletonCheckOutcome(mailbox, stepFunctionName, machines, runningExecutions);
            if !UsableArn(arn) then
              run == SingletonCheckRun(Err(SingletonCheckFailure(NoArnMessage(stepFunctionName))), [])
            else
              var executions := runningExecutions(arn.value);
              var n := |run.described|;
              && (run.result.Ok? <==> MatchCount(executions, mailbox) <= 1)
              && (run.result.Ok? ==> run.result.value && run.described == ArnsOf(executions))
              && (run.result.Err? ==>
                    && run.result.error == SingletonCheckFailure(ALREADY_RUNNING)
                    && 2 <= n <= |executions|
                    && run.described == ArnsOf(executions[..n])
                    && InputMailbox(executions[n - 1]) == mailbox
                    && MatchCount(executions[..n - 1], mailbox) == 1)
  {
    var arn := SelectedArn(machines, stepFunctionName);
    if UsableArn(arn) {
      var executions := runningExecutions(arn.value);
      FirstConflictIsSecondMatch(executions, mailbox);
      if FirstConflict(executions, mailbox).Some? {
        var k := FirstConflict(executions, mailbox).value;
        assert MatchCount(executions[..k], mailbox) == 1;
        assert |ArnsOf(executions[..k + 1])| == k + 1;
      }
    }
  }

  /**
   * An execution without input, or whose input has no `mailbox`, is counted
   * only when the mailbox under test is itself `None`.
   */
  lemma MissingMailboxCountsOnlyForNone(execution: Execution, mailbox: Json)
    requires execution.input.None? || "mailbox" !in execution.input.value
    ensures MatchCount([execution], mailbox) == (if mailbox == JNull then 1 else 0)
  {
  }

  /**
   * The two snapshots the design calls out: the check's own execution alone
   * passes, and a second running execution for the same mailbox is refused
   * after both have been read.
   */
  lemma SingletonCheckScenarios()
    ensures var machines := [StateMachine(Some("mesh-send"), Some("arn:sm:mesh-send"))];
            var own := Execution("arn:ex:1", Some(map["mailbox" := JString("X26ABC1")]));
            var other := Execution("arn:ex:2", Some(map["mailbox" := JString("X26ABC1")]));
            && SingletonCheckOutcome(JString("X26ABC1"), "mesh-send", machines, arn => [own])
                 == SingletonCheckRun(Ok(true), ["arn:ex:1"])
            && SingletonCheckOutcome(JString("X26ABC1"), "mesh-send", machines, arn => [own, other])
                 == SingletonCheckRun(Err(SingletonCheckFailure(ALREADY_RUNNING)), ["arn:ex:1", "arn:ex:2"])
  {
  }

  // ---------------------------------------------------------------------------
  // Parameters and secrets
  // ---------------------------------------------------------------------------

  /** A parameter-store entry: its `Name` and `Value`, either possibly absent. */
  datatype Parameter = Parameter(name: Option<string>, value: Option<string>)

  /** A secret-store entry: its name and the `SecretString` fetched for it. */
  datatype Secret = Secret(name: string, secretString: string)

  /** An entry is kept only when its name is present and non-empty. */
  predicate Named(entry: Parameter) {
    entry.name.Some? && entry.name.value != ""
  }

  /** The key an entry is stored under: the basename of its hierarchical name. */
  function KeyOf(entry: Parameter): string
    requires Named(entry)
  {
    Basename(entry.name.value)
  }

  /** The map `convert_params_to_dict` builds, entry by entry, from first to last. */
  function ParamsToMap(params: seq<Parameter>): map<string, Option<string>> {
    if params == [] then map[]
    else
      var earlier := ParamsToMap(params[..|params| - 1]);
      var last := params[|params| - 1];
      if Named(last) then earlier[KeyOf(last) := last.value] else earlier
  }

  /** Turns parameter-store entries into a map from basename to value. */
  method ConvertParamsToDict(params: seq<Parameter>) returns (newDict: map<string, Option<string>>)
    ensures newDict == ParamsToMap(params)
  {
    newDict := map[];
    for i := 0 to |params|
      invariant newDict == ParamsToMap(params[..i])
    {
      assert params[..i + 1][..i] == params[..i];
      var entry := params[i];
      if entry.name.Some? && entry.name.value != "" {
        var varName := Basename(entry.name.value);
        newDict := newDict[varName := entry.value];
      }
    }
    assert params[..|params|] == params;
  }

  /** The keys of the converted map are exactly the basenames of the named entries. */
  lemma {:induction false} ParamsToMapKeys(params: seq<Parameter>, key: string)
    ensures key in ParamsToMap(params)
        <==> exists i :: 0 <= i < |params| && Named(params[i]) && KeyOf(params[i]) == key
  {
    if params != [] {
      var n := |params|;
      var init := params[..n - 1];
      ParamsToMapKeys(init, key);
      if exists i :: 0 <= i < |init| && Named(init[i]) && KeyOf(init[i]) == key {
        var i :| 0 <= i < |init| && Named(init[i]) && KeyOf(init[i]) == key;
        assert params[i] == init[i];
      }
      if exists i :: 0 <= i < n && Named(params[i]) && KeyOf(params[i]) == key {
        var i :| 0 <= i < n && Named(params[i]) && KeyOf(params[i]) == key;
        if i < n - 1 {
          assert init[i] == params[i];
        }
      }
    }
  }

  /** A named entry with no later entry of the same basename supplies that key's value. */
  lemma {:induction false} ParamsToMapLastWins(params: seq<Parameter>, i: nat)
    requires i < |params| && Named(params[i])
    requires forall j :: i < j < |params| && Named(params[j]) ==> KeyOf(params[j]) != KeyOf(params[i])
    ensures KeyOf(params[i]) in ParamsToMap(params)
    ensures ParamsToMap(params)[KeyOf(params[i])] == params[i].value
  {
    if i < |params| - 1 {
      var init := params[..|params| - 1];
      assert forall j :: i < j < |init| ==> init[j] == params[j];
      ParamsToMapLastWins(init, i);
    }
  }

  /** An entry without a usable name leaves the map as it was. */
  lemma UnnamedEntryIgnored(params: seq<Parameter>, entry: Parameter)
    requires !Named(entry)
    ensures ParamsToMap(params + [entry]) == ParamsToMap(params)
  {
  }

  /** A secret overrides a parameter only when its name starts with the path. */
  predicate Overrides(secret: Secret, path: string) {
    path <= secret.name
  }

  /** `params` after every secret under `path` has been written over it, first to last. */
  function SecretOverride(params: map<string, Option<string>>, path: string, secrets: seq<Secret>)
    : map<string, Option<string>>
  {
    if secrets == [] then params
    else
      var earlier := SecretOverride(params, path, secrets[..|secrets| - 1]);
      var last := secrets[|secrets| - 1];
      if Overrides(last, path) then earlier[Basename(last.name) := Some(last.secretString)]
      else earlier
  }

  /** The secrets manager is consulted only when the variable is exactly `"true"`. */
  predicate SecretsEnabled(useSecretsManager: Option<string>) {
    useSecretsManager == Some("true")
  }

  /** The map `get_params` returns for one snapshot of both stores. */
  function MergedParams(
    path: string,
    ssmParameters: seq<Parameter>,
    useSecretsManager: Option<string>,
    secretList: seq<Secret>): map<string, Option<string>>
  {
    var fromSsm := ParamsToMap(ssmParameters);
    if SecretsEnabled(useSecretsManager) then SecretOverride(fromSsm, path, secretList) else fromSsm
  }

  /**
   * Reads the parameters under `path`, then, when the secrets manager is
   * enabled, lets every secret whose name starts with `path` overwrite the
   * parameter of the same basename.
   */
  method GetParams(
    path: string,
    ssmParameters: seq<Parameter>,
    useSecretsManager: Option<string>,
    secretList: seq<Secret>)
    returns (newParamsDict: map<string, Option<string>>)
    ensures newParamsDict == MergedParams(path, ssmParameters, useSecretsManager, secretList)
  {
    newParamsDict := ConvertParamsToDict(ssmParameters);
    if useSecretsManager == Some("true") {
      ghost var fromSsm := newParamsDict;
      for i := 0 to |secretList|
        invariant newParamsDict == SecretOverride(fromSsm, path, secretList[..i])
      {
        assert secretList[..i + 1][..i] == secretList[..i];
        var secret := secretList[i];
        if path <= secret.name {
          var varName := Basename(secret.name);
          newParamsDict := newParamsDict[varName := Some(secret.secretString)];
        }
      }
      assert secretList[..|secretList|] == secretList;
    }
  }

  /** A matching secret with no later matching secret of the same basename wins. */
  lemma {:induction false} SecretOverrideLastWins(
    params: map<string, Option<string>>, path: string, secrets: seq<Secret>, i: nat)
    requires i < |secrets| && Overrides(secrets[i], path)
    requires forall j :: i < j < |secrets| && Overrides(secrets[j], path) ==>
               Basename(secrets[j].name) != Basename(secrets[i].name)
    ensures Basename(secrets[i].name) in SecretOverride(params, path, secrets)
    ensures SecretOverride(params, path, secrets)[Basename(secrets[i].name)] == Some(secrets[i].secretString)
  {
    if i < |secrets| - 1 {
      var init := secrets[..|secrets| - 1];
      assert forall j :: i < j < |init| ==> init[j] == secrets[j];
      SecretOverrideLastWins(params, path, init, i);
    }
  }

  /**
   * A key that no matching secret names is untouched: present exactly when
   * it was, with the same value. In particular secrets outside `path` are
   * ignored and parameter-only keys survive.
   */
  lemma {:induction false} SecretOverrideKeepsOtherKeys(
    params: map<string, Option<string>>, path: string, secrets: seq<Secret>, key: string)
    requires forall i :: 0 <= i < |secrets| && Overrides(secrets[i], path) ==> Basename(secrets[i].name) != key
    ensures key in SecretOverride(params, path, secrets) <==> key in params
    ensures key in params ==> SecretOverride(params, path, secrets)[key] == params[key]
  {
    if secrets != [] {
      var init := secrets[..|secrets| - 1];
      assert forall i :: 0 <= i < |init| ==> init[i] == secrets[i];
      SecretOverrideKeepsOtherKeys(params, path, init, key);
    }
  }

  /** Without the exact opt-in the result is the parameter-store map alone. */
  lemma SecretsIgnoredUnlessEnabled(
    path: string, ssmParameters: seq<Parameter>, useSecretsManager: Option<string>, secretList: seq<Secret>)
    requires !SecretsEnabled(useSecretsManager)
    ensures MergedParams(path, ssmParameters, useSecretsManager, secretList) == ParamsToMap(ssmParameters)
  {
  }

  /**
   * With the opt-in, a key that no secret under the path names keeps what
   * the parameter store gave it: present exactly when it was, same value.
   */
  lemma MergedParamsKeepsParameter(
    path: string, ssmParameters: seq<Parameter>, secretList: seq<Secret>, key: string)
    requires forall i :: 0 <= i < |secretList| && Overrides(secretList[i], path) ==> Basename(secretList[i].name) != key
    ensures key in MergedParams(path, ssmParameters, Some("true"), secretList) <==> key in ParamsToMap(ssmParameters)
    ensures key in ParamsToMap(ssmParameters) ==>
              MergedParams(path, ssmParameters, Some("true"), secretList)[key] == ParamsToMap(ssmParameters)[key]
  {
    SecretOverrideKeepsOtherKeys(ParamsToMap(ssmParameters), path, secretList, key);
  }

  /**
   * With the opt-in, the last secret under the path with a given basename
   * takes precedence over any parameter of that basename.
   */
  lemma MergedParamsSecretWins(
    path: string, ssmParameters: seq<Parameter>, secretList: seq<Secret>, i: nat)
    requires i < |secretList| && Overrides(secretList[i], path)
    requires forall j :: i < j < |secretList| && Overrides(secretList[j], path) ==>
               Basename(secretList[j].name) != Basename(secretList[i].name)
    ensures Basename(secretList[i].name) in MergedParams(path, ssmParameters, Some("true"), secretList)
    ensures MergedParams(path, ssmParameters, Some("true"), secretList)[Basename(secretList[i].name)]
         == Some(secretList[i].secretString)
  {
    SecretOverrideLastWins(ParamsToMap(ssmParameters), path, secretList, i);
  }

  // ---------------------------------------------------------------------------
  // Failure response
  // ---------------------------------------------------------------------------

  /** The part of the logging object the core reads: its correlation id. */
  datatype LogObject = LogObject(internalId: string)

  datatype ResponseHeaders = ResponseHeaders(contentType: string, retryAfter: int)
  datatype FailureBody = FailureBody(internalId: string, error: string)
  datatype FailureResponse = FailureResponse(statusCode: int, headers: ResponseHeaders, body: FailureBody)

  /** The response returned, with the one log entry written on the way. */
  datatype FailureReport = FailureReport(response: FailureResponse, log: LogEntry)

  /** Seconds the orchestrator is told to wait before retrying. */
  const RETRY_AFTER_SECONDS: int := 18000

  /**
   * Builds the retryable failure response and logs it. The status is passed
   * through; the headers are fixed; body and log carry the same error and
   * the response carries the log object's correlation id.
   */
  function ReturnFailure(
    logObject: LogObject, status: int, logpoint: string, mailbox: Json, message: string := "")
    : (r: FailureReport)
    ensures r.response.statusCode == status
    ensures r.response.headers.contentType == "application/json"
    ensures r.response.headers.retryAfter == 18000
    ensures r.response.body == FailureBody(logObject.internalId, message)
    ensures r.log.logpoint == logpoint
    ensures r.log.fields.Keys == {"mailbox", "error"}
    ensures r.log.fields["mailbox"] == mailbox
    ensures r.log.fields["error"] == JString(r.response.body.error)
  {
    var log := LogEntry(logpoint, map["mailbox" := mailbox, "error" := JString(message)]);
    var response := FailureResponse(
      status,
      ResponseHeaders("application/json", RETRY_AFTER_SECONDS),
      FailureBody(logObject.internalId, message));
    FailureReport(response, log)
  }
}
