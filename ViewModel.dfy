/** `UserViewModel`: five observable fields updated by five operations.
    Each operation is given the repository's result as a parameter. The
    request it sends to the repository is recorded as a call; the reloads it
    launches (`loadUsers()`, `loadUser(id)`) and the `onSuccess` callback it
    fires are recorded, in order, as effects. */
module ViewModel {
  import opened Wrappers
  import opened Models
  import Repository

  const UnknownError := "Error desconocido"
  const LoadUserError := "Error al cargar usuario"
  // The mutation fallbacks read like the repository's own prefixes.
  const CreateError := Repository.Prefix(Repository.Create)
  const UpdateError := Repository.Prefix(Repository.Update)
  const DeleteError := Repository.Prefix(Repository.Delete)
  const Created := "Usuario creado exitosamente"
  const Updated := "Usuario actualizado exitosamente"
  const Deleted := "Usuario eliminado exitosamente"

  /** The five observable fields. */
  datatype State = State(
    users: seq<User>,
    selectedUser: Option<User>,
    isLoading: bool,
    error: Option<string>,
    successMessage: Option<string>)

  /** What an operation asks for beyond its own field updates. */
  datatype Effect = ReloadUsers | ReloadUser(id: int) | OnSuccess

  /** The repository request an operation issues. */
  datatype Call =
    | GetUsersCall
    | GetUserCall(id: int)
    | CreateCall(user: User)
    | UpdateCall(id: int, user: User)
    | DeleteCall(id: int)

  const Initial := State([], None, false, None, None)

  /** The state the UI sees while the repository call is in flight. */
  function Started(s: State): (t: State)
    ensures t.isLoading && t.error == None
    ensures t.users == s.users && t.selectedUser == s.selectedUser && t.successMessage == s.successMessage
  {
    s.(isLoading := true, error := None)
  }

  /** `loadUsers()` once the repository answered `r`. */
  function LoadUsersStep(s: State, r: Result<seq<User>>): (t: State)
    ensures !t.isLoading
    ensures r.Success? ==> t.users == r.value && t.error == None
    ensures r.Failure? ==> t.users == s.users && t.error == Some(r.message.GetOr(UnknownError))
    ensures t.selectedUser == s.selectedUser && t.successMessage == s.successMessage
  {
    var b := Started(s);
    match r
    case Success(v) => b.(users := v, error := None, isLoading := false)
    case Failure(m) => b.(error := Some(m.GetOr(UnknownError)), isLoading := false)
  }

  /** `loadUser(id)` once the repository answered `r`. */
  function LoadUserStep(s: State, r: Result<User>): (t: State)
    ensures !t.isLoading
    ensures r.Success? ==> t.selectedUser == Some(r.value) && t.error == None
    ensures r.Failure? ==> t.selectedUser == s.selectedUser && t.error == Some(r.message.GetOr(LoadUserError))
    ensures t.users == s.users && t.successMessage == s.successMessage
  {
    var b := Started(s);
    match r
    case Success(v) => b.(selectedUser := Some(v), error := None, isLoading := false)
    case Failure(m) => b.(error := Some(m.GetOr(LoadUserError)), isLoading := false)
  }

  /** `createUser`, `updateUser` and `deleteUser` once the repository answered:
      a success sets the operation's message, a failure its error. Neither
      touches `users` or `selectedUser`. */
  function MutationStep<T>(s: State, r: Result<T>, success: string, default: string): (t: State)
    ensures !t.isLoading
    ensures r.Success? ==> t.successMessage == Some(success) && t.error == None
    ensures r.Failure? ==> t.successMessage == s.successMessage && t.error == Some(r.message.GetOr(default))
    ensures t.users == s.users && t.selectedUser == s.selectedUser
  {
    var b := Started(s);
    match r
    case Success(_) => b.(successMessage := Some(success), isLoading := false)
    case Failure(m) => b.(error := Some(m.GetOr(default)), isLoading := false)
  }

  /** `clearMessages()`. */
  function ClearStep(s: State): (t: State)
    ensures t.error == None && t.successMessage == None
    ensures t.users == s.users && t.selectedUser == s.selectedUser && t.isLoading == s.isLoading
  {
    s.(error := None, successMessage := None)
  }

  /** One call of the view model, with the repository's answer. */
  datatype Op =
    | LoadUsersOp(users: Result<seq<User>>)
    | LoadUserOp(id: int, user: Result<User>)
    | CreateOp(created: Result<User>)
    | UpdateOp(id: int, updated: Result<User>)
    | DeleteOp(id: int, deleted: Result<bool>)
    | ClearOp

  function Apply(s: State, op: Op): State {
    match op
    case LoadUsersOp(r) => LoadUsersStep(s, r)
    case LoadUserOp(_, r) => LoadUserStep(s, r)
    case CreateOp(r) => MutationStep(s, r, Created, CreateError)
    case UpdateOp(_, r) => MutationStep(s, r, Updated, UpdateError)
    case DeleteOp(_, r) => MutationStep(s, r, Deleted, DeleteError)
    case ClearOp => ClearStep(s)
  }

  /** A create, update or delete whose repository call succeeded. */
  predicate SucceededMutation(op: Op) {
    || (op.CreateOp? && op.created.Success?)
    || (op.UpdateOp? && op.updated.Success?)
    || (op.DeleteOp? && op.deleted.Success?)
  }

  /** The effects one call records, in the order the source issues them. */
  function EffectsOf(op: Op): (e: seq<Effect>)
    ensures OnSuccess in e <==> SucceededMutation(op)
    ensures e != [] ==> e[0] == ReloadUsers && e[|e| - 1] == OnSuccess
    ensures op.UpdateOp? && SucceededMutation(op) ==> ReloadUser(op.id) in e
    ensures forall x :: x in e && x.ReloadUser? ==> op.UpdateOp? && x.id == op.id
  {
    match op
    case CreateOp(r) => if r.Success? then [ReloadUsers, OnSuccess] else []
    case UpdateOp(id, r) => if r.Success? then [ReloadUsers, ReloadUser(id), OnSuccess] else []
    case DeleteOp(_, r) => if r.Success? then [ReloadUsers, OnSuccess] else []
    case _ => []
  }

  /** A sequence of calls, one after the other. */
  function Run(s: State, ops: seq<Op>): State {
    if ops == [] then s else Apply(Run(s, ops[..|ops| - 1]), ops[|ops| - 1])
  }

  function RunEffects(ops: seq<Op>): seq<Effect> {
    if ops == [] then [] else RunEffects(ops[..|ops| - 1]) + EffectsOf(ops[|ops| - 1])
  }

  /** The list the last successful `loadUsers()` delivered, or `initial`. */
  function LastLoadedUsers(ops: seq<Op>, initial: seq<User>): seq<User> {
    if ops == [] then initial
    else
      var op := ops[|ops| - 1];
      if op.LoadUsersOp? && op.users.Success? then op.users.value
      else LastLoadedUsers(ops[..|ops| - 1], initial)
  }

  /** The user the last successful `loadUser(id)` delivered, or `initial`. */
  function LastLoadedUser(ops: seq<Op>, initial: Option<User>): Option<User> {
    if ops == [] then initial
    else
      var op := ops[|ops| - 1];
      if op.LoadUserOp? && op.user.Success? then Some(op.user.value)
      else LastLoadedUser(ops[..|ops| - 1], initial)
  }

  function SuccessCount(ops: seq<Op>): nat {
    if ops == [] then 0
    else
      var op := ops[|ops| - 1];
      SuccessCount(ops[..|ops| - 1])
        + if SucceededMutation(op) then 1 else 0
  }

  function Count(e: seq<Effect>, x: Effect): nat {
    if e == [] then 0 else Count(e[..|e| - 1], x) + if e[|e| - 1] == x then 1 else 0
  }

  lemma {:induction false} CountAppend(a: seq<Effect>, b: seq<Effect>, x: Effect)
    ensures Count(a + b, x) == Count(a, x) + Count(b, x)
  {
    if b == [] {
      assert a + b == a;
    } else {
      assert (a + b)[..|a + b| - 1] == a + b[..|b| - 1];
      assert (a + b)[|a + b| - 1] == b[|b| - 1];
      CountAppend(a, b[..|b| - 1], x);
    }
  }

  /** Only a successful `loadUsers()` ever changes `users`: create, update and
      delete reach the list solely through the reloads they request. */
  lemma {:induction false} UsersOnlyFromLoadUsers(s: State, ops: seq<Op>)
    ensures Run(s, ops).users == LastLoadedUsers(ops, s.users)
  {
    if ops != [] { UsersOnlyFromLoadUsers(s, ops[..|ops| - 1]); }
  }

  /** Likewise, only a successful `loadUser(id)` changes `selectedUser`. */
  lemma {:induction false} SelectedOnlyFromLoadUser(s: State, ops: seq<Op>)
    ensures Run(s, ops).selectedUser == LastLoadedUser(ops, s.selectedUser)
  {
    if ops != [] { SelectedOnlyFromLoadUser(s, ops[..|ops| - 1]); }
  }

  lemma OnSuccessOncePerCall(op: Op)
    ensures Count(EffectsOf(op), OnSuccess) == if SucceededMutation(op) then 1 else 0
  {
    assert [ReloadUsers][..0] == [];
    match op
    case CreateOp(r) =>
      if r.Success? { assert EffectsOf(op)[..1] == [ReloadUsers]; }
    case DeleteOp(_, r) =>
      if r.Success? { assert EffectsOf(op)[..1] == [ReloadUsers]; }
    case UpdateOp(id, r) =>
      if r.Success? {
        var init := EffectsOf(op)[..2];
        assert init == [ReloadUsers, ReloadUser(id)] && init[..1] == [ReloadUsers];
        assert Count(init, OnSuccess) == Count(init[..1], OnSuccess) + 0;
      }
    case _ =>
  }

  /** `onSuccess` fires exactly once per successful create, update or delete,
      and never otherwise. */
  lemma {:induction false} OnSuccessOncePerSuccess(ops: seq<Op>)
    ensures Count(RunEffects(ops), OnSuccess) == SuccessCount(ops)
  {
    if ops != [] {
      var init, op := ops[..|ops| - 1], ops[|ops| - 1];
      OnSuccessOncePerSuccess(init);
      CountAppend(RunEffects(init), EffectsOf(op), OnSuccess);
      OnSuccessOncePerCall(op);
    }
  }

  /** The success message shown after any sequence of calls is the initial
      one, nothing, or one of the three fixed confirmations. */
  lemma {:induction false} SuccessMessageIsFixed(ops: seq<Op>)
    ensures Run(Initial, ops).successMessage in {None, Some(Created), Some(Updated), Some(Deleted)}
  {
    if ops != [] { SuccessMessageIsFixed(ops[..|ops| - 1]); }
  }

  /** Every failure the repository reports carries a message, and none of
      those messages is a fallback of the view model: the `?:` defaults are
      never what the user reads. */
  lemma RepositoryErrorsShownVerbatim(s: State,
      all: Repository.Transport<UserResponse>, one: Repository.Transport<SingleUserResponse>,
      created: Repository.Transport<SingleUserResponse>, updated: Repository.Transport<SingleUserResponse>,
      deleted: Repository.Transport<()>)
    ensures var r := Repository.GetUsers(all);
      r.Failure? ==> LoadUsersStep(s, r).error == r.message && r.message != Some(UnknownError)
    ensures var r := Repository.GetUser(one);
      r.Failure? ==> LoadUserStep(s, r).error == r.message && r.message != Some(LoadUserError)
    ensures var r := Repository.CreateUser(created);
      r.Failure? ==> MutationStep(s, r, Created, CreateError).error == r.message && r.message != Some(CreateError)
    ensures var r := Repository.UpdateUser(updated);
      r.Failure? ==> MutationStep(s, r, Updated, UpdateError).error == r.message && r.message != Some(UpdateError)
    ensures var r := Repository.DeleteUser(deleted);
      r.Failure? ==> MutationStep(s, r, Deleted, DeleteError).error == r.message && r.message != Some(DeleteError)
  {
    NotAFallback(all, Repository.GetAll, UnknownError);
    NotAFallback(one, Repository.GetOne, LoadUserError);
    NotAFallback(created, Repository.Create, CreateError);
    NotAFallback(updated, Repository.Update, UpdateError);
    NotAFallback(deleted, Repository.Delete, DeleteError);
  }

  /** The view model's own fallback texts. */
  predicate IsFallback(m: string) {
    m == UnknownError || m == LoadUserError || m == CreateError || m == UpdateError || m == DeleteError
  }

  /** No repository message is a fallback: a connection failure differs from
      each at position 6 or 8; a status message holds a ':' right after its
      prefix, which no fallback contains. */
  lemma NotAFallback<B>(t: Repository.Transport<B>, op: Repository.Operation, fallback: string)
    requires IsFallback(fallback)
    ensures t.Threw? ==> Repository.ConnectionMessage(t.exceptionMessage) != fallback
    ensures t.Responded? ==> Repository.StatusMessage(op, t.code) != fallback
  {
    if t.Threw? {
      ConnectionNotAFallback(t.exceptionMessage, fallback);
    } else {
      StatusNotAFallback(op, t.code, fallback);
    }
  }

  lemma ConnectionNotAFallback(m: Option<string>, fallback: string)
    requires IsFallback(fallback)
    ensures Repository.ConnectionMessage(m) != fallback
  {
    var c := Repository.ConnectionMessage(m);
    assert c[..|Repository.ConnectionPrefix|] == Repository.ConnectionPrefix;
    if fallback == UnknownError {
      assert c[8] == ' ' && fallback[8] == 's';
    } else {
      assert c[6] == 'd' && fallback[6] == 'a';
    }
  }

  lemma StatusNotAFallback(op: Repository.Operation, code: int, fallback: string)
    requires IsFallback(fallback)
    ensures Repository.StatusMessage(op, code) != fallback
  {
    var m := Repository.StatusMessage(op, code);
    var p := Repository.Prefix(op) + ": ";
    assert m[..|p|] == p;
    assert m[|p| - 2] == ':';
    assert ':' !in fallback;
  }

  /** The view model itself. */
  class UserViewModel {
    var users: seq<User>
    var selectedUser: Option<User>
    var isLoading: bool
    var error: Option<string>
    var successMessage: Option<string>
    /** Reloads requested and callbacks fired so far, in order. */
    var effects: seq<Effect>
    /** Repository requests issued so far, in order. */
    var calls: seq<Call>

    function Snapshot(): State
      reads this
    {
      State(users, selectedUser, isLoading, error, successMessage)
    }

    /** Fields start empty; `init` requests one `loadUsers()`. */
    constructor ()
      ensures Snapshot() == Initial && effects == [ReloadUsers] && calls == []
    {
      users, selectedUser, isLoading, error, successMessage := [], None, false, None, None;
      effects := [ReloadUsers];
      calls := [];
    }

    /** The prologue of every operation: loading on, error cleared. */
    method Start()
      modifies this
      ensures Snapshot() == Started(old(Snapshot())) && effects == old(effects) && calls == old(calls)
    {
      isLoading := true;
      error := None;
    }

    method LoadUsers(r: Result<seq<User>>)
      modifies this
      ensures Snapshot() == LoadUsersStep(old(Snapshot()), r) && effects == old(effects)
      ensures calls == old(calls) + [GetUsersCall]
    {
      Start();
      calls := calls + [GetUsersCall];
      match r {
        case Success(v) =>
          users := v;
          error := None;
        case Failure(m) =>
          error := Some(m.GetOr(UnknownError));
      }
      isLoading := false;
    }

    method LoadUser(id: int, r: Result<User>)
      modifies this
      ensures Snapshot() == LoadUserStep(old(Snapshot()), r) && effects == old(effects)
      ensures calls == old(calls) + [GetUserCall(id)]
    {
      Start();
      calls := calls + [GetUserCall(id)];
      match r {
        case Success(v) =>
          selectedUser := Some(v);
          error := None;
        case Failure(m) =>
          error := Some(m.GetOr(LoadUserError));
      }
      isLoading := false;
    }

    /** Returns whether `onSuccess` was invoked. */
    method CreateUser(user: User, r: Result<User>) returns (calledBack: bool)
      modifies this
      ensures Snapshot() == Apply(old(Snapshot()), CreateOp(r))
      ensures effects == old(effects) + EffectsOf(CreateOp(r))
      ensures calls == old(calls) + [CreateCall(user)]
      ensures calledBack <==> r.Success?
    {
      Start();
      calls := calls + [CreateCall(user)];
      calledBack := false;
      match r {
        case Success(_) =>
          successMessage := Some(Created);
          effects := effects + [ReloadUsers];
          effects := effects + [OnSuccess];
          calledBack := true;
        case Failure(m) =>
          error := Some(m.GetOr(CreateError));
      }
      isLoading := false;
    }

    method UpdateUser(id: int, user: User, r: Result<User>) returns (calledBack: bool)
      modifies this
      ensures Snapshot() == Apply(old(Snapshot()), UpdateOp(id, r))
      ensures effects == old(effects) + EffectsOf(UpdateOp(id, r))
      ensures calls == old(calls) + [UpdateCall(id, user)]
      ensures calledBack <==> r.Success?
    {
      Start();
      calls := calls + [UpdateCall(id, user)];
      calledBack := false;
      match r {
        case Success(_) =>
          successMessage := Some(Updated);
          effects := effects + [ReloadUsers];
          effects := effects + [ReloadUser(id)];
          effects := effects + [OnSuccess];
          calledBack := true;
        case Failure(m) =>
          error := Some(m.GetOr(UpdateError));
      }
      isLoading := false;
    }

    method DeleteUser(id: int, r: Result<bool>) returns (calledBack: bool)
      modifies this
      ensures Snapshot() == Apply(old(Snapshot()), DeleteOp(id, r))
      ensures effects == old(effects) + EffectsOf(DeleteOp(id, r))
      ensures calls == old(calls) + [DeleteCall(id)]
      ensures calledBack <==> r.Success?
    {
      Start();
      calls := calls + [DeleteCall(id)];
      calledBack := false;
      match r {
        case Success(_) =>
          successMessage := Some(Deleted);
          effects := effects + [ReloadUsers];
          effects := effects + [OnSuccess];
          calledBack := true;
        case Failure(m) =>
          error := Some(m.GetOr(DeleteError));
      }
      isLoading := false;
    }

    method ClearMessages()
      modifies this
      ensures Snapshot() == ClearStep(old(Snapshot())) && effects == old(effects) && calls == old(calls)
    {
      error := None;
      successMessage := None;
    }
  }
}
