/** Shared value types: optional values, results carrying the service errors, row ids. */
module Common {

  datatype Option<T> = None | Some(value: T)

  /** A property copied by `Object.assign` when present, onto a required column. */
  function Or<T>(supplied: Option<T>, current: T): T {
    if supplied.Some? then supplied.value else current
  }

  /** The same onto a nullable column. */
  function OrKeep<T>(supplied: Option<T>, current: Option<T>): Option<T> {
    if supplied.Some? then supplied else current
  }

  /** The errors the services raise (NestJS exceptions) and the store's own refusal. */
  datatype Error =
    | Conflict(message: string)          // ConflictException
    | NotFound(entity: string, id: Id)   // NotFoundException, "<entity> with ID <id> not found"
    | BadRequest(message: string)        // BadRequestException
    | DuplicateKey(column: string)       // the database's unique-index violation
    | NotNull(column: string)            // the database's NOT NULL violation
    | ForeignKey(column: string)         // the database's foreign-key violation
    | InvalidEnum(column: string)        // a value that is not a member of the column's enum type
    | Upstream(message: string)          // an error thrown by an external collaborator

  datatype Result<T> = Ok(value: T) | Err(error: Error)

  /** A loaded row together with its primary key. */
  datatype Row<T> = Row(id: Id, row: T)

  /** Row identity: the database generates a fresh one for every insert. */
  type Id = nat

  /** Raw bytes of an uploaded file or a rendered document. */
  type Bytes = seq<bv8>
}
