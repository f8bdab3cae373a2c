/**
 * The delete-confirmation coordinator: one pending request
 * (`id`, `itemName`, callback), a modal-open flag and a loading flag.
 * The callback is a type parameter `H`; whoever runs it supplies its
 * meaning (see GenericOperations.HandleDelete).
 */
module DeleteContext {
  import opened Wrappers

  /** A registered request: what to delete, how to name it, and the callback to run. */
  datatype DeleteInfo<H> = DeleteInfo(id: string, itemName: string, onDelete: H)

  /** The call `onDelete(id)` that confirming the modal makes. */
  datatype Invocation<H> = Invocation(onDelete: H, id: string)

  /** The label shown in the modal: the stored item name when it is non-empty, else "Item". */
  function ItemLabel<H>(info: Option<DeleteInfo<H>>): (shown: string)
    ensures info.Some? && info.value.itemName != "" ==> shown == info.value.itemName
    ensures info.None? || info.value.itemName == "" ==> shown == "Item"
  {
    OrElse(if info.Some? then Some(info.value.itemName) else None, "Item")
  }

  class DeleteProvider<H> {
    var isOpen: bool
    var deleteInfo: Option<DeleteInfo<H>>
    var isDeleting: bool

    /** Closed, nothing pending, not deleting. */
    constructor ()
      ensures !isOpen && deleteInfo == None && !isDeleting
    {
      isOpen := false;
      deleteInfo := None;
      isDeleting := false;
    }

    /** `confirmDelete`: the new request replaces any earlier one and the modal opens. */
    method ConfirmDelete(id: string, itemName: string, onDelete: H)
      modifies this`deleteInfo, this`isOpen
      ensures deleteInfo == Some(DeleteInfo(id, itemName, onDelete))
      ensures isOpen
      ensures isDeleting == old(isDeleting)
    {
      deleteInfo := Some(DeleteInfo(id, itemName, onDelete));
      isOpen := true;
    }

    /** The `setIsDeleting` exposed to consumers. */
    method SetIsDeleting(value: bool)
      modifies this`isDeleting
      ensures isDeleting == value
    {
      isDeleting := value;
    }

    /** `handleClose`: only the modal closes; the pending request and the loading flag stay. */
    method HandleClose()
      modifies this`isOpen
      ensures !isOpen
    {
      isOpen := false;
    }

    /**
     * `handleDelete` up to its `await`: the call to make, if a request is
     * pending. Nothing changes here.
     */
    method HandleDeleteBegin() returns (call: Option<Invocation<H>>)
      ensures deleteInfo.None? <==> call.None?
      ensures deleteInfo.Some? ==>
        call.value.onDelete == deleteInfo.value.onDelete && call.value.id == deleteInfo.value.id
    {
      if deleteInfo.Some? {
        call := Some(Invocation(deleteInfo.value.onDelete, deleteInfo.value.id));
      } else {
        call := None;
      }
    }

    /** `handleDelete` after the callback settled: loading off, modal closed, request kept. */
    method HandleDeleteEnd()
      modifies this`isDeleting, this`isOpen
      ensures !isDeleting && !isOpen
    {
      isDeleting := false;
      isOpen := false;
    }

    /** The label the modal shows for the current state. */
    function Label(): (shown: string)
      reads this
      ensures deleteInfo.Some? && deleteInfo.value.itemName != "" ==> shown == deleteInfo.value.itemName
      ensures deleteInfo.None? || deleteInfo.value.itemName == "" ==> shown == "Item"
    {
      ItemLabel(deleteInfo)
    }
  }

  // ---------------------------------------------------------------------------
  // Scenarios on a fresh provider

  /** A fresh provider has nothing to run and shows "Item". */
  method FreshHasNothingPending<H>() returns (call: Option<Invocation<H>>, shown: string)
    ensures call == None && shown == "Item"
  {
    var p := new DeleteProvider<H>();
    call := p.HandleDeleteBegin();
    shown := p.Label();
  }

  /** The second of two registrations is the one confirming runs: last write wins. */
  method LastRegistrationWins<H>(id1: string, name1: string, h1: H, id2: string, name2: string, h2: H)
    returns (call: Option<Invocation<H>>, shown: string)
    requires name2 != ""
    ensures call == Some(Invocation(h2, id2))
    ensures shown == name2
  {
    var p := new DeleteProvider<H>();
    p.ConfirmDelete(id1, name1, h1);
    p.ConfirmDelete(id2, name2, h2);
    call := p.HandleDeleteBegin();
    shown := p.Label();
  }

  /** Closing the modal keeps the request: confirming later still runs it. */
  method CloseKeepsRequest<H>(id: string, name: string, h: H) returns (isOpen: bool, call: Option<Invocation<H>>)
    ensures !isOpen
    ensures call == Some(Invocation(h, id))
  {
    var p := new DeleteProvider<H>();
    p.ConfirmDelete(id, name, h);
    p.HandleClose();
    isOpen := p.isOpen;
    call := p.HandleDeleteBegin();
  }
}
