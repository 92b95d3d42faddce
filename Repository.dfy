/** `UserRepository`: turns the outcome of each HTTP call into a `Result`.
    The HTTP call itself is an input: either it threw, or it produced a
    response with a status, a code and an optional decoded body. */
module Repository {
  import opened Wrappers
  import opened Text
  import opened Models

  /** What the generated HTTP client gave back for one call. */
  datatype Transport<B> =
    | Threw(exceptionMessage: Option<string>)
    | Responded(isSuccessful: bool, code: int, body: Option<B>)

  /** The five operations, each with its own failure prefix. */
  datatype Operation = GetAll | GetOne | Create | Update | Delete

  function Prefix(op: Operation): string {
    match op
    case GetAll => "Error al obtener usuarios"
    case GetOne => "Error al obtener usuario"
    case Create => "Error al crear usuario"
    case Update => "Error al actualizar usuario"
    case Delete => "Error al eliminar usuario"
  }

  const ConnectionPrefix := "Error de conexión: "

  /** `"<prefix>: ${response.code()}"`: the operation's prefix, then the
      code in decimal (which `StatusMessagesDistinct` shows is read back
      unambiguously). */
  function StatusMessage(op: Operation, code: int): (s: string)
    ensures StartsWith(s, Prefix(op) + ": ")
    ensures s[|Prefix(op)| + 2..] == IntToString(code)
  {
    var s := Prefix(op) + ": " + IntToString(code);
    assert s[|Prefix(op)| + 2..] == IntToString(code);
    s
  }

  /** `"Error de conexión: ${e.message}"`: the exception's message after the
      connection prefix, with a null message rendered as `null`. */
  function ConnectionMessage(m: Option<string>): (s: string)
    ensures StartsWith(s, ConnectionPrefix)
    ensures m.Some? ==> s[|ConnectionPrefix|..] == m.value
    ensures m.None? ==> s[|ConnectionPrefix|..] == "null"
  {
    ConnectionPrefix + m.GetOr("null")
  }

  /** The common shape of `getUsers`, `getUser`, `createUser` and `updateUser`:
      success with the body exactly when the response is successful and has a
      body; otherwise a failure naming the operation and the status code; a
      thrown exception becomes a connection failure. */
  function BodyResult<B>(op: Operation, t: Transport<B>): (r: Result<B>)
    ensures r.Success? <==> t.Responded? && t.isSuccessful && t.body.Some?
    ensures r.Success? ==> r.value == t.body.value
    ensures t.Threw? ==> r == Failure(Some(ConnectionMessage(t.exceptionMessage)))
    ensures t.Responded? && r.Failure? ==> r == Failure(Some(StatusMessage(op, t.code)))
  {
    match t
    case Threw(m) => Failure(Some(ConnectionMessage(m)))
    case Responded(ok, code, body) =>
      if ok && body.Some? then Success(body.value) else Failure(Some(StatusMessage(op, code)))
  }

  /** `getUsers()`: the list inside the envelope. */
  function GetUsers(t: Transport<UserResponse>): (r: Result<seq<User>>)
    ensures r.Success? <==> t.Responded? && t.isSuccessful && t.body.Some?
    ensures r.Success? ==> r.value == t.body.value.data
    ensures t.Threw? ==> r == Failure(Some(ConnectionMessage(t.exceptionMessage)))
    ensures t.Responded? && r.Failure? ==> r == Failure(Some(StatusMessage(GetAll, t.code)))
  {
    match BodyResult(GetAll, t)
    case Success(b) => Success(b.data)
    case Failure(m) => Failure(m)
  }

  /** `getUser(id)`. */
  function GetUser(t: Transport<SingleUserResponse>): (r: Result<User>)
    ensures r.Success? <==> t.Responded? && t.isSuccessful && t.body.Some?
    ensures r.Success? ==> r.value == t.body.value.data
    ensures t.Threw? ==> r == Failure(Some(ConnectionMessage(t.exceptionMessage)))
    ensures t.Responded? && r.Failure? ==> r == Failure(Some(StatusMessage(GetOne, t.code)))
  {
    SingleResult(GetOne, t)
  }

  /** `createUser(user)`. */
  function CreateUser(t: Transport<SingleUserResponse>): (r: Result<User>)
    ensures r.Success? <==> t.Responded? && t.isSuccessful && t.body.Some?
    ensures r.Success? ==> r.value == t.body.value.data
    ensures t.Threw? ==> r == Failure(Some(ConnectionMessage(t.exceptionMessage)))
    ensures t.Responded? && r.Failure? ==> r == Failure(Some(StatusMessage(Create, t.code)))
  {
    SingleResult(Create, t)
  }

  /** `updateUser(id, user)`. */
  function UpdateUser(t: Transport<SingleUserResponse>): (r: Result<User>)
    ensures r.Success? <==> t.Responded? && t.isSuccessful && t.body.Some?
    ensures r.Success? ==> r.value == t.body.value.data
    ensures t.Threw? ==> r == Failure(Some(ConnectionMessage(t.exceptionMessage)))
    ensures t.Responded? && r.Failure? ==> r == Failure(Some(StatusMessage(Update, t.code)))
  {
    SingleResult(Update, t)
  }

  function SingleResult(op: Operation, t: Transport<SingleUserResponse>): Result<User> {
    match BodyResult(op, t)
    case Success(b) => Success(b.data)
    case Failure(m) => Failure(m)
  }

  /** `deleteUser(id)`: the body is ignored; success is always `true`. */
  function DeleteUser<B>(t: Transport<B>): (r: Result<bool>)
    ensures r.Success? <==> t.Responded? && t.isSuccessful
    ensures r.Success? ==> r.value
    ensures t.Threw? ==> r == Failure(Some(ConnectionMessage(t.exceptionMessage)))
    ensures t.Responded? && r.Failure? ==> r == Failure(Some(StatusMessage(Delete, t.code)))
  {
    match t
    case Threw(m) => Failure(Some(ConnectionMessage(m)))
    case Responded(ok, code, _) =>
      if ok then Success(true) else Failure(Some(StatusMessage(Delete, code)))
  }

  /** The message of a failure identifies the operation and the status code:
      no two (operation, code) pairs share a message, and no status message
      reads like a connection failure. */
  lemma StatusMessagesDistinct(op1: Operation, c1: int, op2: Operation, c2: int, m: Option<string>)
    ensures StatusMessage(op1, c1) == StatusMessage(op2, c2) ==> op1 == op2 && c1 == c2
    ensures StatusMessage(op1, c1) != ConnectionMessage(m)
  {
    var s1, s2 := StatusMessage(op1, c1), StatusMessage(op2, c2);
    assert s1[6] == 'a' && ConnectionMessage(m)[6] == 'd';
    if s1 == s2 {
      if op1 != op2 {
        // The prefixes differ before the first `:` of either message.
        DistinctPrefixes(op1, op2, c1, c2);
      }
      assert op1 == op2;
      var n := |Prefix(op1) + ": "|;
      assert s1[n..] == IntToString(c1) && s2[n..] == IntToString(c2);
      IntToStringInjective(c1, c2);
    }
  }

  lemma DistinctPrefixes(op1: Operation, op2: Operation, c1: int, c2: int)
    requires op1 != op2
    ensures StatusMessage(op1, c1) != StatusMessage(op2, c2)
  {
    var p1, p2 := Prefix(op1) + ": ", Prefix(op2) + ": ";
    var s1, s2 := StatusMessage(op1, c1), StatusMessage(op2, c2);
    assert s1[..|p1|] == p1 && s2[..|p2|] == p2;
    // Position 10 tells "obtener" / "crear" / "actualizar" / "eliminar" apart;
    // position 24 tells "usuarios" from "usuario:".
    if {op1, op2} == {GetAll, GetOne} {
      assert s1[24] == p1[24] && s2[24] == p2[24] && p1[24] != p2[24];
    } else {
      assert s1[10] == p1[10] && s2[10] == p2[10] && p1[10] != p2[10];
    }
  }
}
