/**
 * The generic entity-operations adapter: create, update and delete
 * through optional mutations, with optional validators, a toast log,
 * and an error handler that turns an untyped API error into one message.
 * Mutations are asynchronous in the application; here the outcome of a
 * mutation is an input to the operation that awaits it.
 */
module GenericOperations {
  import opened Wrappers
  import opened DeleteContext

  /** The `data` field of an API error: absent, a bare string, or an object. */
  datatype ErrorData =
    | NoData
    | TextData(text: string)
    | ObjectData(message: Option<string>, error: Option<string>)

  /** An untyped thrown value: falsy, a string, or an object with optional fields. */
  datatype ApiError =
    | Falsy
    | Text(text: string)
    | Object(data: ErrorData, message: Option<string>, error: Option<string>, status: Option<int>)

  datatype ToastKind = Success | Failure
  datatype Toast = Toast(kind: ToastKind, text: string)

  /** The response envelope every mutation resolves with. */
  datatype Envelope = Envelope(success: bool, message: Option<string>)

  /** What awaiting a mutation yields: a response, or a thrown error. */
  datatype MutationOutcome = Ok(response: Envelope) | Throw(error: ApiError)

  type Payload = map<string, string>

  /** A call made to one of the configured mutations. */
  datatype MutationCall =
    | CreateCall(data: Payload)
    | UpdateCall(id: string, updatedData: Payload)
    | DeleteCall(id: string)

  /** The promise `deleteEntity` returns: already settled, or waiting on the confirmation with this ticket. */
  datatype DeleteReturn = Settled(result: bool) | Awaiting(ticket: nat)

  /** The callback `deleteEntity` registers with the coordinator. */
  datatype DeleteHandler = DeleteHandler(ops: EntityOperations, ticket: nat)

  // ---------------------------------------------------------------------------
  // Error messages

  /** `typeof error.data === "string"`: the data string, else nothing. */
  function DataText(d: ErrorData): Option<string> {
    if d.TextData? then Some(d.text) else None
  }

  /** `error.data?.message` and `error.data?.error`: only an object `data` has them. */
  function DataMessage(d: ErrorData): Option<string> {
    if d.ObjectData? then d.message else None
  }

  function DataError(d: ErrorData): Option<string> {
    if d.ObjectData? then d.error else None
  }

  /** The strings an error carries, in the order the extractor consults them. */
  function Carried(e: ApiError): seq<Option<string>> {
    match e
    case Falsy => []
    case Text(s) => [Some(s)]
    case Object(d, m, er, _) => [DataMessage(d), DataError(d), m, er, DataText(d)]
  }

  /**
   * `extractErrorMessage`: the first truthy of `data.message`,
   * `data.error`, `message`, `error`; then `data` itself when it is a
   * string, even an empty one; otherwise nothing.
   */
  function ExtractErrorMessage(e: ApiError): (r: Option<string>)
    ensures e.Falsy? ==> r == None
    ensures e.Text? ==> r == (if e.text == "" then None else Some(e.text))
    ensures e.Object? && Present(DataMessage(e.data)) ==> r == DataMessage(e.data)
    ensures e.Object? && !Present(DataMessage(e.data)) && Present(DataError(e.data)) ==> r == DataError(e.data)
    ensures e.Object? && !Present(DataMessage(e.data)) && !Present(DataError(e.data)) && Present(e.message) ==>
      r == e.message
    ensures e.Object? && !Present(DataMessage(e.data)) && !Present(DataError(e.data)) && !Present(e.message)
      ==> (Present(e.error) ==> r == e.error) && (!Present(e.error) ==> r == DataText(e.data))
  {
    match e
    case Falsy => None
    case Text(s) => if s == "" then None else Some(s)
    case Object(d, m, er, _) =>
      if Present(DataMessage(d)) then DataMessage(d)
      else if Present(DataError(d)) then DataError(d)
      else if Present(m) then m
      else if Present(er) then er
      else DataText(d)
  }

  /** The status an error carries, if it is an object with one. */
  function Status(e: ApiError): Option<int> {
    if e.Object? then e.status else None
  }

  /**
   * The message `handleApiError` shows: the extracted server message when
   * truthy, else a fixed text chosen by status.
   */
  function ApiErrorMessage(e: ApiError, operation: string, entityName: string): (msg: string)
    ensures Present(ExtractErrorMessage(e)) ==> msg == ExtractErrorMessage(e).value
    ensures !Present(ExtractErrorMessage(e)) ==>
      msg == match Status(e)
        case Some(409) => entityName + " already exists"
        case Some(404) => entityName + " not found"
        case Some(400) => "Invalid data provided"
        case Some(401) => "Unauthorized access"
        case Some(403) => "Access forbidden"
        case Some(s) => if s >= 500 then "Server error. Please try again later"
                        else "Failed to " + operation + " " + entityName + ". Please try again"
        case None => "Failed to " + operation + " " + entityName + ". Please try again"
  {
    var server := ExtractErrorMessage(e);
    if Present(server) then server.value
    else if Status(e) == Some(409) then entityName + " already exists"
    else if Status(e) == Some(404) then entityName + " not found"
    else if Status(e) == Some(400) then "Invalid data provided"
    else if Status(e) == Some(401) then "Unauthorized access"
    else if Status(e) == Some(403) then "Access forbidden"
    else if Status(e).Some? && Status(e).value >= 500 then "Server error. Please try again later"
    else "Failed to " + operation + " " + entityName + ". Please try again"
  }

  /** The toast an awaited mutation ends with; `done` is "created", "updated" or "deleted". */
  function OutcomeToast(outcome: MutationOutcome, operation: string, done: string, entityName: string): (t: Toast)
    ensures t.kind == Success <==> outcome.Ok? && outcome.response.success
  {
    match outcome
    case Ok(env) =>
      if env.success then Toast(Success, OrElse(env.message, entityName + " " + done + " successfully!"))
      else Toast(Failure, OrElse(env.message, "Failed to " + operation + " " + entityName))
    case Throw(e) => Toast(Failure, ApiErrorMessage(e, operation, entityName))
  }

  /** Whether an awaited mutation makes the operation return true. */
  predicate Succeeded(outcome: MutationOutcome) {
    outcome.Ok? && outcome.response.success
  }

  // ---------------------------------------------------------------------------
  // The adapter

  /**
   * The operations one call of the hook returns for an entity. The
   * configured mutations and validators are fixed; the toast log, the
   * mutation calls made and the settled delete promises are its state.
   */
  class EntityOperations {
    const entityName: string
    const hasCreate: bool
    const hasUpdate: bool
    const hasDelete: bool
    const createRule: Option<Payload -> bool>
    const updateRule: Option<Payload -> bool>
    /** The delete mutation's `isLoading` when the hook rendered. */
    const deleteLoading: bool

    var toasts: seq<Toast>
    var calls: seq<MutationCall>
    /** The ticket the next delete request gets. */
    var tickets: nat
    /** Settled delete promises, by ticket. */
    var resolved: map<nat, bool>

    constructor (entityName: string, hasCreate: bool, hasUpdate: bool, hasDelete: bool,
                 createRule: Option<Payload -> bool>, updateRule: Option<Payload -> bool>, deleteLoading: bool)
      ensures this.entityName == entityName && this.deleteLoading == deleteLoading
      ensures this.hasCreate == hasCreate && this.hasUpdate == hasUpdate && this.hasDelete == hasDelete
      ensures this.createRule == createRule && this.updateRule == updateRule
      ensures toasts == [] && calls == [] && tickets == 0 && resolved == map[]
    {
      this.entityName := entityName;
      this.hasCreate := hasCreate;
      this.hasUpdate := hasUpdate;
      this.hasDelete := hasDelete;
      this.createRule := createRule;
      this.updateRule := updateRule;
      this.deleteLoading := deleteLoading;
      toasts := [];
      calls := [];
      tickets := 0;
      resolved := map[];
    }

    /** `validateCreateData`: the create validator's verdict; without one, every payload passes. */
    function ValidateCreateData(data: Payload): (ok: bool)
      ensures createRule.None? ==> ok
      ensures createRule.Some? ==> ok == createRule.value(data)
    {
      createRule.None? || createRule.value(data)
    }

    /** `validateUpdateData`: the update validator's verdict; without one, every payload passes. */
    function ValidateUpdateData(data: Payload): (ok: bool)
      ensures updateRule.None? ==> ok
      ensures updateRule.Some? ==> ok == updateRule.value(data)
    {
      updateRule.None? || updateRule.value(data)
    }

    /** `handleApiError`: exactly one error toast; the status fallbacks keep their dead `serverMessage ||`. */
    method HandleApiError(e: ApiError, operation: string)
      modifies this`toasts
      ensures toasts == old(toasts) + [Toast(Failure, ApiErrorMessage(e, operation, entityName))]
    {
      var serverMessage := ExtractErrorMessage(e);
      if Present(serverMessage) {
        toasts := toasts + [Toast(Failure, serverMessage.value)];
        return;
      }
      var status := Status(e);
      if status == Some(409) {
        toasts := toasts + [Toast(Failure, OrElse(serverMessage, entityName + " already exists"))];
      } else if status == Some(404) {
        toasts := toasts + [Toast(Failure, OrElse(serverMessage, entityName + " not found"))];
      } else if status == Some(400) {
        toasts := toasts + [Toast(Failure, OrElse(serverMessage, "Invalid data provided"))];
      } else if status == Some(401) {
        toasts := toasts + [Toast(Failure, OrElse(serverMessage, "Unauthorized access"))];
      } else if status == Some(403) {
        toasts := toasts + [Toast(Failure, OrElse(serverMessage, "Access forbidden"))];
      } else if status.Some? && status.value >= 500 {
        toasts := toasts + [Toast(Failure, OrElse(serverMessage, "Server error. Please try again later"))];
      } else {
        toasts := toasts + [Toast(Failure, OrElse(serverMessage, "Failed to " + operation + " " + entityName + ". Please try again"))];
      }
    }

    /** Toast a mutation's outcome and report whether it succeeded. */
    method Settle(outcome: MutationOutcome, operation: string, done: string) returns (ok: bool)
      modifies this`toasts
      ensures ok == Succeeded(outcome)
      ensures toasts == old(toasts) + [OutcomeToast(outcome, operation, done, entityName)]
    {
      match outcome {
        case Ok(response) =>
          if response.success {
            toasts := toasts + [Toast(Success, OrElse(response.message, entityName + " " + done + " successfully!"))];
            ok := true;
          } else {
            toasts := toasts + [Toast(Failure, OrElse(response.message, "Failed to " + operation + " " + entityName))];
            ok := false;
          }
        case Throw(e) =>
          HandleApiError(e, operation);
          ok := false;
      }
    }

    /**
     * `createEntity`: without a create mutation, an error toast and false;
     * a rejected payload, false and nothing else; otherwise one call to the
     * mutation and its outcome's toast and verdict.
     */
    method CreateEntity(data: Payload, outcome: MutationOutcome) returns (ok: bool)
      modifies this`toasts, this`calls
      ensures !hasCreate ==>
        !ok && calls == old(calls) &&
        toasts == old(toasts) + [Toast(Failure, "Create operation not available for " + entityName)]
      ensures hasCreate && !ValidateCreateData(data) ==> !ok && calls == old(calls) && toasts == old(toasts)
      ensures hasCreate && ValidateCreateData(data) ==>
        ok == Succeeded(outcome) && calls == old(calls) + [CreateCall(data)] &&
        toasts == old(toasts) + [OutcomeToast(outcome, "create", "created", entityName)]
    {
      if !hasCreate {
        toasts := toasts + [Toast(Failure, "Create operation not available for " + entityName)];
        return false;
      }
      if !ValidateCreateData(data) {
        return false;
      }
      calls := calls + [CreateCall(data)];
      ok := Settle(outcome, "create", "created");
    }

    /**
     * `updateEntity`: missing mutation, then empty id, then the validator;
     * only when all three pass is the mutation called with `{id, updatedData}`.
     */
    method UpdateEntity(id: string, data: Payload, outcome: MutationOutcome) returns (ok: bool)
      modifies this`toasts, this`calls
      ensures !hasUpdate ==>
        !ok && calls == old(calls) &&
        toasts == old(toasts) + [Toast(Failure, "Update operation not available for " + entityName)]
      ensures hasUpdate && id == "" ==>
        !ok && calls == old(calls) &&
        toasts == old(toasts) + [Toast(Failure, entityName + " ID is required")]
      ensures hasUpdate && id != "" && !ValidateUpdateData(data) ==> !ok && calls == old(calls) && toasts == old(toasts)
      ensures hasUpdate && id != "" && ValidateUpdateData(data) ==>
        ok == Succeeded(outcome) && calls == old(calls) + [UpdateCall(id, data)] &&
        toasts == old(toasts) + [OutcomeToast(outcome, "update", "updated", entityName)]
    {
      if !hasUpdate {
        toasts := toasts + [Toast(Failure, "Update operation not available for " + entityName)];
        return false;
      }
      if id == "" {
        toasts := toasts + [Toast(Failure, entityName + " ID is required")];
        return false;
      }
      if !ValidateUpdateData(data) {
        return false;
      }
      calls := calls + [UpdateCall(id, data)];
      ok := Settle(outcome, "update", "updated");
    }

    /**
     * `deleteEntity`: without a delete mutation or with an empty id, an error
     * toast and an already-settled false, and the coordinator is untouched;
     * otherwise the request is registered under a fresh ticket and the
     * promise waits on it. No mutation is called here.
     */
    method DeleteEntity(provider: DeleteProvider<DeleteHandler>, id: string) returns (ret: DeleteReturn)
      modifies this`toasts, this`tickets, provider`deleteInfo, provider`isOpen
      ensures calls == old(calls) && resolved == old(resolved)
      ensures !hasDelete ==>
        ret == Settled(false) && tickets == old(tickets) &&
        toasts == old(toasts) + [Toast(Failure, "Delete operation not available for " + entityName)] &&
        unchanged(provider)
      ensures hasDelete && id == "" ==>
        ret == Settled(false) && tickets == old(tickets) &&
        toasts == old(toasts) + [Toast(Failure, entityName + " ID is required")] &&
        unchanged(provider)
      ensures hasDelete && id != "" ==>
        ret == Awaiting(old(tickets)) && tickets == old(tickets) + 1 &&
        toasts == old(toasts) && provider.isOpen && provider.isDeleting == old(provider.isDeleting) &&
        provider.deleteInfo == Some(DeleteInfo(id, entityName, DeleteHandler(this, old(tickets))))
    {
      if !hasDelete {
        toasts := toasts + [Toast(Failure, "Delete operation not available for " + entityName)];
        return Settled(false);
      }
      if id == "" {
        toasts := toasts + [Toast(Failure, entityName + " ID is required")];
        return Settled(false);
      }
      provider.ConfirmDelete(id, entityName, DeleteHandler(this, tickets));
      ret := Awaiting(tickets);
      tickets := tickets + 1;
    }

    /** `resolve(value)`: a promise settles once; later calls are ignored. */
    method Resolve(ticket: nat, value: bool)
      modifies this`resolved
      ensures resolved == if ticket in old(resolved) then old(resolved) else old(resolved)[ticket := value]
    {
      if ticket !in resolved {
        resolved := resolved[ticket := value];
      }
    }

    /**
     * The callback `deleteEntity` registers, run by the coordinator with
     * `deleteId`: it passes the mutation's loading flag (not `true`) to
     * `setIsDeleting`, calls the delete mutation, toasts, resolves the
     * waiting promise with the verdict, and on an unsuccessful envelope
     * passes the loading flag once more.
     */
    method RunDeleteCallback(provider: DeleteProvider<DeleteHandler>, ticket: nat, deleteId: string,
                             outcome: MutationOutcome) returns (ok: bool)
      modifies this`toasts, this`calls, this`resolved, provider`isDeleting
      ensures ok == Succeeded(outcome)
      ensures provider.isDeleting == deleteLoading
      ensures calls == old(calls) + [DeleteCall(deleteId)]
      ensures toasts == old(toasts) + [OutcomeToast(outcome, "delete", "deleted", entityName)]
      ensures resolved == if ticket in old(resolved) then old(resolved) else old(resolved)[ticket := ok]
    {
      provider.SetIsDeleting(deleteLoading);
      calls := calls + [DeleteCall(deleteId)];
      match outcome {
        case Ok(response) =>
          if response.success {
            assert entityName + " " + "deleted" + " successfully!" == entityName + " deleted successfully!";
            toasts := toasts + [Toast(Success, OrElse(response.message, entityName + " deleted successfully!"))];
            Resolve(ticket, true);
            ok := true;
          } else {
            assert "Failed to " + "delete" + " " + entityName == "Failed to delete " + entityName;
            toasts := toasts + [Toast(Failure, OrElse(response.message, "Failed to delete " + entityName))];
            Resolve(ticket, false);
            provider.SetIsDeleting(deleteLoading);
            ok := false;
          }
        case Throw(e) =>
          HandleApiError(e, "delete");
          Resolve(ticket, false);
          ok := false;
      }
    }
  }

  /**
   * The coordinator's `handleDelete` with the adapter's callback: with no
   * pending request nothing happens; otherwise the stored callback runs
   * once with the stored id, then loading is switched off and the modal
   * closes. The request stays stored.
   */
  method HandleDelete(provider: DeleteProvider<DeleteHandler>, outcome: MutationOutcome) returns (ran: Option<bool>)
    modifies provider, if provider.deleteInfo.Some? then {provider.deleteInfo.value.onDelete.ops} else {}
    ensures old(provider.deleteInfo).None? ==> ran == None && unchanged(provider)
    ensures old(provider.deleteInfo).Some? ==>
      var info := old(provider.deleteInfo).value;
      var ops := info.onDelete.ops;
      ran == Some(Succeeded(outcome)) &&
      ops.tickets == old(ops.tickets) &&
      !provider.isDeleting && !provider.isOpen && provider.deleteInfo == old(provider.deleteInfo) &&
      ops.calls == old(ops.calls) + [DeleteCall(info.id)] &&
      ops.toasts == old(ops.toasts) + [OutcomeToast(outcome, "delete", "deleted", ops.entityName)] &&
      ops.resolved == if info.onDelete.ticket in old(ops.resolved) then old(ops.resolved)
                      else old(ops.resolved)[info.onDelete.ticket := Succeeded(outcome)]
  {
    var call := provider.HandleDeleteBegin();
    if call.None? {
      return None;
    }
    var handler := call.value.onDelete;
    var ok := handler.ops.RunDeleteCallback(provider, handler.ticket, call.value.id, outcome);
    provider.HandleDeleteEnd();
    ran := Some(ok);
  }

  // ---------------------------------------------------------------------------
  // Properties

  /** Whatever the extractor returns is one of the strings the error carries. */
  lemma ExtractedComesFromError(e: ApiError)
    ensures ExtractErrorMessage(e).Some? ==> ExtractErrorMessage(e) in Carried(e)
  {
  }

  /** The error handler never shows an empty toast. */
  lemma ApiErrorMessageNonEmpty(e: ApiError, operation: string, entityName: string)
    ensures ApiErrorMessage(e, operation, entityName) != ""
  {
  }

  /** A server message decides the toast whatever the status. */
  lemma ServerMessageIgnoresStatus(e: ApiError, s1: Option<int>, s2: Option<int>, operation: string, entityName: string)
    requires e.Object? && Present(ExtractErrorMessage(e))
    ensures ApiErrorMessage(e.(status := s1), operation, entityName) == ApiErrorMessage(e.(status := s2), operation, entityName)
  {
  }

  /** `{data: {message: "Custom"}, status: 500}` shows "Custom", not the server-error text. */
  lemma CustomMessageBeatsStatus(operation: string, entityName: string)
    ensures ApiErrorMessage(Object(ObjectData(Some("Custom"), None), None, None, Some(500)), operation, entityName) == "Custom"
  {
  }

  /** An empty string `data` is extracted, but it is falsy, so the status decides. */
  lemma EmptyDataFallsBackToStatus(operation: string, entityName: string)
    ensures ExtractErrorMessage(Object(TextData(""), None, None, Some(404))) == Some("")
    ensures ApiErrorMessage(Object(TextData(""), None, None, Some(404)), operation, entityName) == entityName + " not found"
  {
  }

  // ---------------------------------------------------------------------------
  // Scenarios on a fresh adapter and coordinator

  /** Without a create mutation, one toast and no mutation call; the validator is never consulted. */
  method CreateWithoutMutation(entityName: string, rule: Payload -> bool, data: Payload, outcome: MutationOutcome)
    returns (ok: bool, toasts: seq<Toast>, calls: seq<MutationCall>)
    ensures !ok && calls == []
    ensures toasts == [Toast(Failure, "Create operation not available for " + entityName)]
  {
    var ops := new EntityOperations(entityName, false, true, true, Some(rule), None, false);
    ok := ops.CreateEntity(data, outcome);
    toasts, calls := ops.toasts, ops.calls;
  }

  /** A validator that rejects the payload stops the update silently: no toast, no call. */
  method RejectedUpdateIsSilent(entityName: string, id: string, data: Payload, outcome: MutationOutcome)
    returns (ok: bool, toasts: seq<Toast>, calls: seq<MutationCall>)
    requires id != ""
    ensures !ok && toasts == [] && calls == []
  {
    var ops := new EntityOperations(entityName, true, true, true, None, Some(_ => false), false);
    ok := ops.UpdateEntity(id, data, outcome);
    toasts, calls := ops.toasts, ops.calls;
  }

  /** Confirming runs the delete mutation once with the id and settles the promise with its verdict. */
  method ConfirmedDeleteSettles(entityName: string, id: string, outcome: MutationOutcome)
    returns (ret: DeleteReturn, settled: Option<bool>, calls: seq<MutationCall>, isOpen: bool)
    requires id != ""
    ensures ret == Awaiting(0)
    ensures settled == Some(Succeeded(outcome))
    ensures calls == [DeleteCall(id)]
    ensures !isOpen
  {
    var ops := new EntityOperations(entityName, true, true, true, None, None, false);
    var provider := new DeleteProvider<DeleteHandler>();
    ret := ops.DeleteEntity(provider, id);
    var ran := HandleDelete(provider, outcome);
    settled := if 0 in ops.resolved then Some(ops.resolved[0]) else None;
    calls, isOpen := ops.calls, provider.isOpen;
  }

  /** Cancelling the modal leaves the promise pending for good and calls no mutation. */
  method CancelLeavesPromisePending(entityName: string, id: string)
    returns (ret: DeleteReturn, settled: bool, calls: seq<MutationCall>, isOpen: bool)
    requires id != ""
    ensures ret.Awaiting? && !settled && calls == [] && !isOpen
  {
    var ops := new EntityOperations(entityName, true, true, true, None, None, false);
    var provider := new DeleteProvider<DeleteHandler>();
    ret := ops.DeleteEntity(provider, id);
    provider.HandleClose();
    settled := ret.ticket in ops.resolved;
    calls, isOpen := ops.calls, provider.isOpen;
  }

  /**
   * A second delete request before the first is confirmed replaces it: the
   * first promise never settles and only the second id is deleted.
   */
  method SecondRequestOrphansFirst(entityName: string, id1: string, id2: string, outcome: MutationOutcome)
    returns (first: DeleteReturn, second: DeleteReturn, firstSettled: bool, secondSettled: bool, calls: seq<MutationCall>)
    requires id1 != "" && id2 != ""
    ensures first == Awaiting(0) && second == Awaiting(1)
    ensures !firstSettled && secondSettled
    ensures calls == [DeleteCall(id2)]
  {
    var ops := new EntityOperations(entityName, true, true, true, None, None, false);
    var provider := new DeleteProvider<DeleteHandler>();
    first := ops.DeleteEntity(provider, id1);
    second := ops.DeleteEntity(provider, id2);
    var ran := HandleDelete(provider, outcome);
    firstSettled, secondSettled := 0 in ops.resolved, 1 in ops.resolved;
    calls := ops.calls;
  }

  /** With the mutation idle when the hook rendered, the modal's loading flag is never raised by a delete. */
  method LoadingFlagStaysOff(entityName: string, id: string, outcome: MutationOutcome)
    returns (loadingAfterCallback: bool)
    requires id != ""
    ensures !loadingAfterCallback
  {
    var ops := new EntityOperations(entityName, true, true, true, None, None, false);
    var provider := new DeleteProvider<DeleteHandler>();
    var ret := ops.DeleteEntity(provider, id);
    var ok := ops.RunDeleteCallback(provider, ret.ticket, id, outcome);
    loadingAfterCallback := provider.isDeleting;
  }
}
