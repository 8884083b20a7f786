/** Entities of the food-ordering backend that the controllers share: ids,
    catalogue records, and the reply a request handler sends back. */
module Domain {

  /** A MongoDB ObjectId, in its string form. */
  type Id = string

  datatype Option<T> = None | Some(value: T)

  /** What a request handler sends: a success status with a body, or an
      error status with the message of its JSON body. */
  datatype Response<T> =
    | Ok(status: int, body: T)
    | Error(status: int, message: string)

  /** A catalogue product; prices are in integer cents so that sums are exact. */
  datatype Product = Product(
    name: string,
    description: Option<string>,
    price: int,
    category: Id,
    restaurant: Id,
    image: string,
    available: bool)

  datatype Restaurant = Restaurant(name: string)

  datatype Category = Category(name: string, available: bool)

  /** `req.user` as set by the authentication middleware: the user's id and role. */
  datatype Requester = Requester(id: Id, role: Option<string>)

  /** Message Mongoose raises when a string cannot be cast to an ObjectId. */
  const CastErrorMessage: string := "Cast to ObjectId failed"

  const InternalError: string := "Internal server error"
}
