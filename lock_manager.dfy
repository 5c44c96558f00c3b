/**
 * The lock-manager lambda: it reads the lock name and execution id from the
 * event body, reads the operation from the incoming event, and on a
 * "release" operation either releases the named lock on behalf of that
 * execution or, when either is missing, writes the MESHSEND0015 diagnostic.
 *
 * The lock release itself, the log writer and the base application that
 * drives `process_event`, `initialise` and `start` in turn are outside this
 * model: `Start` returns the action it takes as a value.
 */
module MeshLockManager {
  import opened Values

  /** The only operation `start` acts on. */
  const RELEASE: Json := JString("release")

  /** The diagnostic written when a release lacks its lock name or execution id. */
  const MISSING_RELEASE_FIELDS: string := "MESHSEND0015"

  /** The event object the base application hands to `initialise`. */
  datatype LambdaEvent = LambdaEvent(rawEvent: Json, body: Json)

  /** What one `start` call does. */
  datatype Action =
    | ReleaseLock(lockName: Json, executionId: Json)
    | WriteLog(entry: LogEntry)
    | NoAction

  /** `body.get(key) or None`: the value when it is truthy, `None` otherwise. */
  function Normalised(body: map<string, Json>, key: string): (v: Json)
    ensures Truthy(v) <==> key in body && Truthy(body[key])
    ensures Truthy(v) ==> v == body[key]
    ensures !Truthy(v) ==> v == JNull
  {
    var raw := Get(body, key);
    if Truthy(raw) then raw else JNull
  }

  /**
   * The dispatch rule of `start`: release only for exactly the "release"
   * operation with both fields truthy, passing the lock name first; the
   * MESHSEND0015 diagnostic, carrying both fields, for a "release" missing
   * either; nothing for any other operation.
   */
  function Dispatch(operation: Json, lockName: Json, executionId: Json): (a: Action)
    ensures a.ReleaseLock? <==> operation == RELEASE && Truthy(executionId) && Truthy(lockName)
    ensures a.ReleaseLock? ==> a.lockName == lockName && a.executionId == executionId
    ensures a.WriteLog? <==> operation == RELEASE && !(Truthy(executionId) && Truthy(lockName))
    ensures a.WriteLog? ==>
              a.entry == LogEntry(MISSING_RELEASE_FIELDS, map["lock_name" := lockName, "owner_id" := executionId])
    ensures a.NoAction? <==> operation != RELEASE
  {
    if operation == RELEASE then
      if Truthy(executionId) && Truthy(lockName) then ReleaseLock(lockName, executionId)
      else WriteLog(LogEntry(MISSING_RELEASE_FIELDS, map["lock_name" := lockName, "owner_id" := executionId]))
    else NoAction
  }

  class MeshLockManagerApplication {
    /** Set by the base application from what `ProcessEvent` returns. */
    var event: LambdaEvent
    var response: Json
    var body: Json
    var lockName: Json
    var executionId: Json
    var operation: Json

    /** A fresh application, before any event: every attribute is `None`. */
    constructor ()
      ensures event == LambdaEvent(JNull, JNull)
      ensures response == JNull && body == JNull
      ensures lockName == JNull && executionId == JNull && operation == JNull
    {
      event := LambdaEvent(JNull, JNull);
      response := JNull;
      body := JNull;
      lockName := JNull;
      executionId := JNull;
      operation := JNull;
    }

    /**
     * Records the operation of an incoming event, `None` when it has none,
     * and returns the event detail to be wrapped, `{}` when it has none.
     */
    method ProcessEvent(incoming: map<string, Json>) returns (eventDetail: Json)
      modifies this`operation
      ensures operation == Get(incoming, "Operation")
      ensures "EventDetail" in incoming ==> eventDetail == incoming["EventDetail"]
      ensures "EventDetail" !in incoming ==> eventDetail == JObject(map[])
    {
      eventDetail := if "EventDetail" in incoming then incoming["EventDetail"] else JObject(map[]);
      operation := Get(incoming, "Operation");
    }

    /**
     * Copies the raw event and its body, then reads the lock name and the
     * execution id from the body with falsy values turned into `None`.
     * `ok` is false when the body is not an object, where the source fails
     * on `.get` after setting `response` and `body`.
     */
    method Initialise() returns (ok: bool)
      modifies this`response, this`body, this`lockName, this`executionId
      ensures response == event.rawEvent && body == event.body
      ensures ok <==> body.JObject?
      ensures ok ==> lockName == Normalised(body.obj, "lock_name")
      ensures ok ==> executionId == Normalised(body.obj, "execution_id")
      ensures !ok ==> lockName == old(lockName) && executionId == old(executionId)
    {
      response := event.rawEvent;
      body := event.body;
      if !body.JObject? {
        return false;
      }
      lockName := if Truthy(Get(body.obj, "lock_name")) then Get(body.obj, "lock_name") else JNull;
      executionId := if Truthy(Get(body.obj, "execution_id")) then Get(body.obj, "execution_id") else JNull;
      ok := true;
    }

    /** Decides, from the attributes alone, whether to release, to log, or to do nothing. */
    method Start() returns (action: Action)
      ensures action == Dispatch(operation, lockName, executionId)
    {
      if operation == RELEASE {
        if Truthy(executionId) && Truthy(lockName) {
          action := ReleaseLock(lockName, executionId);
        } else {
          action := WriteLog(LogEntry(MISSING_RELEASE_FIELDS, map["lock_name" := lockName, "owner_id" := executionId]));
        }
      } else {
        action := NoAction;
      }
    }
  }

  /**
   * From event body to action: a lock is released exactly when the operation
   * is "release" and the body carries a truthy `lock_name` and
   * `execution_id`, and then with those two values in that order.
   */
  lemma ReleaseNeedsBothBodyFields(operation: Json, body: map<string, Json>)
    ensures var a := Dispatch(operation, Normalised(body, "lock_name"), Normalised(body, "execution_id"));
            && (a.ReleaseLock? <==>
                  operation == RELEASE
                  && "lock_name" in body && Truthy(body["lock_name"])
                  && "execution_id" in body && Truthy(body["execution_id"]))
            && (a.ReleaseLock? ==> a == ReleaseLock(body["lock_name"], body["execution_id"]))
  {
  }

  /**
   * A "release" whose body lacks a usable `execution_id` logs MESHSEND0015
   * with `owner_id` set to `None` and never releases.
   */
  lemma ReleaseWithoutExecutionIdLogs(lockName: Json, body: map<string, Json>)
    requires !("execution_id" in body && Truthy(body["execution_id"]))
    ensures Dispatch(RELEASE, lockName, Normalised(body, "execution_id"))
         == WriteLog(LogEntry(MISSING_RELEASE_FIELDS, map["lock_name" := lockName, "owner_id" := JNull]))
  {
  }

  /** The "remove" operation of the lock-manager tests is not acted on by `start`. */
  lemma RemoveIsNotActedOn(body: map<string, Json>)
    ensures Dispatch(JString("remove"), Normalised(body, "lock_name"), Normalised(body, "execution_id")) == NoAction
  {
  }
}
