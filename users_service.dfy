/** Sign-up: `UsersService.createUser` over an in-memory user table. */
module Users {
  import opened Wrappers
  import opened Entities

  /** The user table: rows keyed by their auto-increment id (ids start at 1). */
  class UserRepository {
    var rows: map<int, User>
    var nextId: int

    ghost predicate Valid()
      reads this
    {
      && nextId >= 1
      && forall id :: id in rows ==> 1 <= id < nextId && rows[id].id == id
    }

    constructor ()
      ensures Valid() && rows == map[] && nextId == 1
    {
      rows := map[];
      nextId := 1;
    }

    /** `save` of an entity that has no id yet: it is inserted under the next id,
        which is also written back into the entity. */
    method Save(user: User) returns (saved: User)
      requires Valid()
      modifies this
      ensures Valid()
      ensures saved == user.(id := old(nextId))
      ensures old(nextId) !in old(rows)
      ensures rows == old(rows)[saved.id := saved] && nextId == old(nextId) + 1
    {
      saved := user.(id := nextId);
      rows := rows[nextId := saved];
      nextId := nextId + 1;
    }
  }

  /** The body of a sign-up request. */
  datatype CreateUserInput = CreateUserInput(
    email: string,
    firstName: string,
    lastName: string,
    password: string,
    checkPassword: string)

  /** Which of the two sign-up checks rejected the request. */
  datatype SignUpError = DuplicateEmail | PasswordMismatch

  /** `findOne({ email })` finds a row: some stored user has that email. */
  predicate EmailTaken(rows: map<int, User>, email: string): (taken: bool)
    ensures taken <==> Some(email) in (set id | id in rows :: rows[id].email)
  {
    exists id :: id in rows && rows[id].email == Some(email)
  }

  /** No two rows share an email. */
  ghost predicate UniqueEmails(rows: map<int, User>) {
    forall a, b :: a in rows && b in rows && rows[a].email == rows[b].email ==> a == b
  }

  /** The outcome of `createUser` against the table `rows`: the duplicate-email
      check is made first, the password confirmation second. */
  function SignUpCheck(rows: map<int, User>, input: CreateUserInput): (r: Outcome<SignUpError>)
    ensures r == Fail(DuplicateEmail) <==> EmailTaken(rows, input.email)
    ensures r == Fail(PasswordMismatch) <==>
              !EmailTaken(rows, input.email) && input.password != input.checkPassword
    ensures r == Pass <==> !EmailTaken(rows, input.email) && input.password == input.checkPassword
  {
    if EmailTaken(rows, input.email) then Fail(DuplicateEmail)
    else if input.password != input.checkPassword then Fail(PasswordMismatch)
    else Pass
  }

  /** The entity `create({ email, firstName, lastName, password })` builds:
      no id yet (0), no nickname, host never written, and no confirmation field. */
  function Draft(input: CreateUserInput): (u: User)
    ensures u.email == Some(input.email) && u.password == Some(input.password)
    ensures u.firstName == input.firstName && u.lastName == input.lastName
    ensures u.nickname == None && u.host == None
  {
    User(0, Some(input.email), Some(input.password), input.firstName, input.lastName, None, None)
  }

  class UsersService {
    const repo: UserRepository

    constructor (repo: UserRepository)
      ensures this.repo == repo
    {
      this.repo := repo;
    }

    /** `createUser`: reject a taken email, then a mismatched confirmation; otherwise
        insert exactly one row and answer `ok: true` without a payload. */
    method CreateUser(input: CreateUserInput) returns (out: Outcome<SignUpError>)
      requires repo.Valid()
      modifies repo
      ensures repo.Valid()
      ensures out == SignUpCheck(old(repo.rows), input)
      ensures out.Fail? ==> repo.rows == old(repo.rows) && repo.nextId == old(repo.nextId)
      ensures out.Pass? ==>
                && old(repo.nextId) !in old(repo.rows)
                && repo.rows == old(repo.rows)[old(repo.nextId) := Draft(input).(id := old(repo.nextId))]
                && |repo.rows| == |old(repo.rows)| + 1
                && repo.nextId == old(repo.nextId) + 1
      ensures UniqueEmails(old(repo.rows)) ==> UniqueEmails(repo.rows)
      ensures out != Fail(PasswordMismatch) ==> EmailTaken(repo.rows, input.email)
    {
      var userExist := EmailTaken(repo.rows, input.email);
      if userExist {
        return Fail(DuplicateEmail);
      }
      if input.password != input.checkPassword {
        return Fail(PasswordMismatch);
      }
      var user := Draft(input);
      ghost var before := repo.rows;
      user := repo.Save(user);
      SignUpKeepsEmailsUnique(before, user.id, input);
      SignUpTakesEmail(before, user.id, input);
      return Pass;
    }
  }

  /** Inserting a user whose email was free keeps emails unique. */
  lemma SignUpKeepsEmailsUnique(rows: map<int, User>, id: int, input: CreateUserInput)
    requires id !in rows
    requires !EmailTaken(rows, input.email)
    ensures UniqueEmails(rows) ==> UniqueEmails(rows[id := Draft(input).(id := id)])
  {
    var rows' := rows[id := Draft(input).(id := id)];
    if UniqueEmails(rows) {
      forall a, b | a in rows' && b in rows' && rows'[a].email == rows'[b].email
        ensures a == b
      {
        if a != id && b != id {
          assert rows'[a] == rows[a] && rows'[b] == rows[b];
        }
      }
    }
  }

  /** After a successful sign-up the email is taken, so a second sign-up with the
      same email is refused as a duplicate, whatever its other fields. */
  lemma SignUpTakesEmail(rows: map<int, User>, id: int, input: CreateUserInput)
    ensures EmailTaken(rows[id := Draft(input).(id := id)], input.email)
  {
    var rows' := rows[id := Draft(input).(id := id)];
    assert rows'[id].email == Some(input.email);
  }

  /** Signing up twice with one email: the second call reports the duplicate. */
  lemma SecondSignUpIsDuplicate(rows: map<int, User>, id: int, first: CreateUserInput, second: CreateUserInput)
    requires SignUpCheck(rows, first) == Pass
    requires second.email == first.email
    ensures SignUpCheck(rows[id := Draft(first).(id := id)], second) == Fail(DuplicateEmail)
  {
    SignUpTakesEmail(rows, id, first);
  }
}
