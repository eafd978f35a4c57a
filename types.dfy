/**
 * Values shared by the post and authentication services: the rows of the
 * user, post, penalty, limit and moderation-log tables, the Java-side
 * nullable string, and the errors the services raise.
 */
module Types {

  datatype Option<+T> = None | Some(value: T)

  /** The exceptions the services throw, one constructor per distinct failure. */
  datatype Error =
    | UserNotFound        // no user with the requested id (UsernameNotFoundException in
                          // createPost and getPostsByUserId, IllegalArgumentException in refreshToken)
    | PostNotFound        // no post with the requested id
    | NotOwner            // the requester is not the post's author
    | LimitExceeded       // UserService.checkUserLimit rejected the user
    | DuplicateId         // signup: the login id is taken
    | DuplicateEmail      // signup: the email is taken
    | UnknownId           // resetPassword: no user with that id
    | EmailMismatch       // resetPassword: the email does not match the account
    | EmailNotRegistered  // findIdByEmail: no user with that email
    | InvalidToken        // refreshToken: the token names no subject
    | RefreshRejected     // refreshToken: the token is not the stored one
    | MailFailed          // signup: the welcome mail could not be sent
    | NonUniqueResult     // a single-result finder matched more than one row

  datatype Result<+T> = Ok(value: T) | Err(error: Error)

  /** A Java `String` reference: `None` is `null`. */
  type Text = Option<string>

  /** `LocalDateTime` and `LocalDate` values, taken from the caller's clock. */
  type Time = int
  type Date = int

  /** Java's 32-bit `int`. */
  newtype Int32 = x: int | -0x8000_0000 <= x < 0x8000_0000

  const INT32_MAX: Int32 := 0x7fff_ffff
  const INT32_MIN: Int32 := -0x8000_0000

  /** `c + 1` on a Java `int`: one more, except that the largest value wraps to the smallest. */
  function Increment(c: Int32): (r: Int32)
    ensures c < INT32_MAX ==> r as int == c as int + 1
    ensures c == INT32_MAX ==> r == INT32_MIN
    ensures r != c
  {
    if c == INT32_MAX then INT32_MIN else c + 1
  }

  /** A row of the user table; `id` is the login id, the table's key. */
  datatype User = User(
    id: string,
    username: string,
    email: string,
    pw: string,
    profileImage: Text,
    createdAt: Time,
    updatedAt: Time)

  /** A user's penalty record: how many flagged submissions were charged. */
  datatype PenaltyRecord = PenaltyRecord(count: nat, lastUpdate: Date)

  /** A user's posting restriction window. */
  datatype Limits = Limits(isActive: bool, startDate: Option<Time>, endDate: Option<Time>)

  /** A row of the post table; `owner` is the author's login id, `count` the view counter. */
  datatype Post = Post(
    postId: int,
    owner: string,
    title: Text,
    content: Text,
    count: Int32,
    createdAt: Time,
    updatedAt: Time)

  /** A row of the moderation log: who wrote what, in which post, and what it was replaced by. */
  datatype BadwordLog = BadwordLog(
    user: string,
    post: int,
    originalWord: Text,
    filteredWord: Text,
    createdAt: Time)
}
