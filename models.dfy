/**
 * The records the client exchanges with the server, and the shape of an
 * asynchronous reply. The `shared/models` file that declares them in the
 * repository is not part of this model; the fields are those the core reads.
 */
module Models {
  import opened Wrappers

  /** The authenticated user, as the login endpoint returns it. */
  datatype User = User(id: int, username: string, email: string)

  /** The body of a successful login reply. */
  datatype LoginResponse = LoginResponse(user: User, token: string)

  /** A racing-team member; id 0 stands for "not saved yet". */
  datatype Member = Member(id: int, firstName: string, lastName: string,
                           jobTitle: string, team: string, status: string)

  /** A member without its id: what `addMember` sends to the server. */
  datatype MemberDraft = MemberDraft(firstName: string, lastName: string,
                                     jobTitle: string, team: string, status: string)

  datatype Team = Team(name: string)

  /** Puts an id back on a draft. */
  function WithId(d: MemberDraft, id: int): (m: Member)
    ensures m.id == id
  {
    Member(id, d.firstName, d.lastName, d.jobTitle, d.team, d.status)
  }

  /** `const { id, ...memberWithoutId } = member`: every field but the id. */
  function WithoutId(m: Member): (d: MemberDraft)
    ensures WithId(d, m.id) == m
  {
    MemberDraft(m.firstName, m.lastName, m.jobTitle, m.team, m.status)
  }

  /** Whatever id a draft is given, stripping it again gives the draft back. */
  lemma DraftRoundTrip(d: MemberDraft, id: int)
    ensures WithoutId(WithId(d, id)) == d
  {
  }

  /** An HTTP failure; `message` is the server's `error.message`, if any. */
  datatype HttpError = HttpError(status: int, message: Option<string>)

  /**
   * What an observable the controllers subscribe to delivers: one value, an
   * error, or completion without a value (what a request whose error was
   * caught and replaced by an empty result delivers).
   */
  datatype Reply<+T> = Emitted(value: T) | Failed(error: HttpError) | Completed
}
