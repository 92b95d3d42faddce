/** `UserDetailScreen`: what the body shows, and the delete-confirmation
    dialog, whose open flag is the one piece of state the screen owns. */
module UserDetail {
  import opened Wrappers
  import opened Models
  import opened ViewModel
  import UserList

  datatype DetailView =
    | Spinner
    | ErrorWithRetry(message: string)
    | Details(user: User, showsPhoto: bool)
    | Blank

  /** The body's `when`: loading, then error, then a present user; with no
      `else` branch, nothing is shown when none of them holds. */
  function DetailViewFor(isLoading: bool, error: Option<string>, user: Option<User>): (v: DetailView)
    ensures v.Spinner? <==> isLoading
    ensures v.ErrorWithRetry? <==> !isLoading && error.Some?
    ensures v.ErrorWithRetry? ==> v.message == error.value
    ensures v.Details? <==> !isLoading && error.None? && user.Some?
    ensures v.Details? ==> v.user == user.value && (v.showsPhoto <==> UserList.HasPhoto(user.value))
    ensures v.Blank? <==> !isLoading && error.None? && user.None?
  {
    if isLoading then Spinner
    else if error.Some? then ErrorWithRetry(error.GetOr(UnknownError))
    else if user.Some? then
      var u := user.value;
      Details(u, UserList.HasPhoto(u))
    else Blank
  }

  class DetailState {
    const userId: int
    var showDeleteDialog: bool
    /** Whether the screen has asked to navigate back. */
    var navigatedBack: bool

    constructor (userId: int)
      ensures this.userId == userId && !showDeleteDialog && !navigatedBack
    {
      this.userId := userId;
      showDeleteDialog := false;
      navigatedBack := false;
    }

    function View(vm: UserViewModel): DetailView
      reads vm
    {
      DetailViewFor(vm.isLoading, vm.error, vm.selectedUser)
    }

    /** The effect keyed on `userId`, and the retry button: both request
        this screen's user. */
    method LoadOwnUser(vm: UserViewModel, r: Result<User>)
      modifies vm
      ensures vm.calls == old(vm.calls) + [GetUserCall(userId)]
      ensures vm.Snapshot() == LoadUserStep(old(vm.Snapshot()), r) && vm.effects == old(vm.effects)
      ensures r.Success? ==> View(vm) == Details(r.value, UserList.HasPhoto(r.value))
      ensures r.Failure? ==> View(vm).ErrorWithRetry?
    {
      vm.LoadUser(userId, r);
    }

    /** The edit action passes on this screen's id. */
    method EditTarget() returns (id: int)
      ensures id == userId
    {
      id := userId;
    }

    /** "Eliminar Contacto" opens the dialog. */
    method OnDeleteClick()
      modifies this`showDeleteDialog
      ensures showDeleteDialog
    {
      showDeleteDialog := true;
    }

    /** Dismissing the dialog, or "Cancelar", closes it. */
    method OnDismiss()
      modifies this`showDeleteDialog
      ensures !showDeleteDialog
    {
      showDeleteDialog := false;
    }

    /** Confirming deletes this screen's user. Only the success callback
        closes the dialog and navigates back; after a failure the dialog
        stays open above the error. */
    method OnConfirm(vm: UserViewModel, r: Result<bool>)
      requires showDeleteDialog
      modifies this`showDeleteDialog, this`navigatedBack, vm
      ensures vm.calls == old(vm.calls) + [DeleteCall(userId)]
      ensures vm.Snapshot() == Apply(old(vm.Snapshot()), DeleteOp(userId, r))
      ensures vm.effects == old(vm.effects) + EffectsOf(DeleteOp(userId, r))
      ensures showDeleteDialog <==> r.Failure?
      ensures navigatedBack <==> old(navigatedBack) || r.Success?
      ensures r.Failure? ==> View(vm).ErrorWithRetry?
    {
      var calledBack := vm.DeleteUser(userId, r);
      if calledBack {
        showDeleteDialog := false;
        navigatedBack := true;
      }
    }
  }
}
