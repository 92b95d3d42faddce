/** The `User` resource and the two response envelopes of the REST API. */
module Models {
  import opened Wrappers

  /** A contact. `id`, `createdAt` and `updatedAt` are assigned by the server. */
  datatype User = User(
    id: Option<int>,
    name: string,
    email: string,
    phone: string,
    imageUrl: Option<string>,
    createdAt: Option<string>,
    updatedAt: Option<string>)

  /** Body of `GET /users`. */
  datatype UserResponse = UserResponse(data: seq<User>)

  /** Body of `GET /users/{id}`, `POST /users` and `PUT /users/{id}`. */
  datatype SingleUserResponse = SingleUserResponse(data: User)
}
