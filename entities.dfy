/**
 * The value types the controller exchanges with the backing worker: the
 * operation tag, the user record, the operation envelope (`MessagePayload`)
 * and the acknowledgment envelope (`ACK<T>`).
 */
module Entities {
  import opened Wrappers

  /** Java's 64-bit `long`, used for user identifiers. */
  newtype Long = x: int | -0x8000_0000_0000_0000 <= x < 0x8000_0000_0000_0000

  /** The four operations the backing worker performs. */
  datatype OperationType = INSERT | UPDATE | DELETE | SEARCH

  /**
   * The user record as far as the controller and its tests touch it. Every
   * field is nullable, as on a freshly constructed `User`.
   */
  datatype User = User(
    id: Option<Long>,
    username: Option<string>,
    email: Option<string>,
    name: Option<string>,
    surname: Option<string>,
    password: Option<string>,
    enabled: Option<bool>,
    authorities: Option<set<string>>)

  /** `new User()`: nothing set. */
  function NewUser(): (u: User)
    ensures u.id.None? && u.username.None? && u.email.None?
    ensures u.name.None? && u.surname.None? && u.password.None?
    ensures u.enabled.None? && u.authorities.None?
  {
    User(None, None, None, None, None, None, None, None)
  }

  /** The operation envelope handed to the message producer. */
  datatype MessagePayload = MessagePayload(
    operationType: OperationType,
    user: Option<User>,
    searchString: Option<string>)

  /** The acknowledgment envelope the backing worker replies with. */
  datatype ACK<P> = ACK(success: bool, message: Option<string>, payload: Option<P>)
}
