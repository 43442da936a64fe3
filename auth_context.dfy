/** The in-memory user registry behind the authentication context
    (src/context/AuthContext.tsx): a list of registered users, unique by
    email, and the user currently signed in. */
module AuthContext {
  import opened Common

  datatype Rol = Administrador | Turista

  datatype User = User(id: string, nombre: string, email: string, password: string, rol: Rol)

  /** `Omit<User, "id">`: what a registration supplies. */
  datatype NuevoUsuario = NuevoUsuario(nombre: string, email: string, password: string, rol: Rol)

  /** No two registered users share an email. */
  predicate EmailsDistintos(users: seq<User>) {
    forall i, j :: 0 <= i < j < |users| ==> users[i].email != users[j].email
  }

  /** The test `login` applies to each user. */
  function Credenciales(email: string, password: string): User -> bool {
    (u: User) => u.email == email && u.password == password
  }

  /** The test `registerUser` applies to each user. */
  function MismoEmail(email: string): User -> bool {
    (u: User) => u.email == email
  }

  /** A user registered at time `ahoraMs`, with `String(Date.now())` as id. */
  function ConId(nuevo: NuevoUsuario, ahoraMs: int): (u: User)
    ensures u.email == nuevo.email && u.password == nuevo.password && u.nombre == nuevo.nombre && u.rol == nuevo.rol
    ensures u.id == IntToString(ahoraMs)
  {
    User(IntToString(ahoraMs), nuevo.nombre, nuevo.email, nuevo.password, nuevo.rol)
  }

  /** Appending a user whose email is new keeps the emails distinct. */
  lemma {:induction false} AppendKeepsEmailsDistintos(users: seq<User>, u: User)
    requires EmailsDistintos(users)
    requires Find(users, MismoEmail(u.email)).None?
    ensures EmailsDistintos(users + [u])
  {
    forall i, j | 0 <= i < j < |users + [u]| ensures (users + [u])[i].email != (users + [u])[j].email {
      if j == |users| {
        assert !MismoEmail(u.email)(users[i]);
      }
    }
  }

  /** Once a user is registered, logging in with its email and password
      finds exactly that user, however many users came before it. */
  lemma LoginFindsRegistered(users: seq<User>, u: User)
    requires Find(users, MismoEmail(u.email)).None?
    ensures Find(users + [u], Credenciales(u.email, u.password)) == Some(u)
  {
    forall i | 0 <= i < |users| ensures !Credenciales(u.email, u.password)(users[i]) {
      assert !MismoEmail(u.email)(users[i]);
    }
    FindIndexAppendFirstMatch(users, u, Credenciales(u.email, u.password));
  }

  class AuthState {
    /** The signed-in user, if any. */
    var user: Option<User>
    /** Every registered user, in registration order. */
    var users: seq<User>

    ghost predicate Valid()
      reads this
    {
      EmailsDistintos(users)
    }

    constructor ()
      ensures Valid() && user == None && users == []
    {
      user := None;
      users := [];
    }

    /** `login`: the first user with this email and password becomes the
        signed-in user; with no match nothing changes. */
    method Login(email: string, password: string) returns (found: Option<User>)
      modifies this
      ensures users == old(users)
      ensures found == Find(users, Credenciales(email, password))
      ensures found.Some? ==> found.value.email == email && found.value.password == password && found.value in users
      ensures found.Some? ==> user == found
      ensures found.None? ==> user == old(user)
    {
      found := Find(users, Credenciales(email, password));
      if found.Some? {
        user := found;
      }
    }

    /** `logout`: nobody is signed in afterwards. */
    method Logout()
      modifies this
      ensures user == None && users == old(users)
    {
      user := None;
    }

    /** `registerUser`: a new email is appended and signed in; a known
        email is refused and nothing changes. */
    method RegisterUser(nuevo: NuevoUsuario, ahoraMs: int) returns (r: Option<User>)
      requires Valid()
      modifies this
      ensures Valid()
      ensures Find(old(users), MismoEmail(nuevo.email)).Some? ==>
        r.None? && users == old(users) && user == old(user)
      ensures Find(old(users), MismoEmail(nuevo.email)).None? ==>
        && r == Some(ConId(nuevo, ahoraMs))
        && users == old(users) + [r.value]
        && user == r
    {
      if Find(users, MismoEmail(nuevo.email)).Some? {
        return None;
      }
      var userWithId := ConId(nuevo, ahoraMs);
      AppendKeepsEmailsDistintos(users, userWithId);
      users := users + [userWithId];
      user := Some(userWithId);
      r := Some(userWithId);
    }
  }
}
