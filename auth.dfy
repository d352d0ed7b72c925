/**
 * The auth gateway: who is logged in, kept in memory and in a persisted copy
 * that survives a reload, changed only by login, register and logout.
 */
module Auth {
  import opened Outcomes
  import opened Database

  /** `{ success, message, user? }` as `login` and `register` resolve. */
  datatype AuthResult = AuthResult(success: bool, message: string, user: Option<User>)

  const LoginOk := "Login exitoso"
  const BadCredentials := "Credenciales incorrectas"
  const LoginFailed := "Error al iniciar sesión"
  const RegisterOk := "Registro exitoso"
  const EmailTaken := "El correo electrónico ya está registrado"
  const RegisterFailed := "Error al registrar usuario"

  class AuthService {
    const db: DatabaseService
    /** The value held by `currentUserSubject`. */
    var currentUser: Option<User>
    /** The `currentUser` entry of local storage. */
    var persisted: Option<User>

    /** The in-memory user is always the persisted one. */
    ghost predicate Valid()
      reads this
    {
      currentUser == persisted
    }

    /** Starts from whatever user local storage still holds (`saved`). */
    constructor (db: DatabaseService, saved: Option<User>)
      ensures Valid() && this.db == db
      ensures currentUser == saved && persisted == saved
    {
      this.db := db;
      currentUser := saved;
      persisted := saved;
    }

    method Login(email: string, password: string) returns (r: AuthResult)
      requires Valid() && db.Valid()
      modifies this
      ensures Valid()
      ensures r.success <==> db.ready && Registered(db.users, email, password)
      ensures r.success ==>
        && r.message == LoginOk && r.user.Some?
        && r.user.value in db.users && r.user.value.email == email && r.user.value.password == password
        && currentUser == r.user && persisted == r.user
      ensures !r.success ==> r.user == None && currentUser == old(currentUser) && persisted == old(persisted)
      ensures !r.success ==> r.message == if db.ready then BadCredentials else LoginFailed
    {
      var found := db.ValidateUser(email, password);
      if found.Err? {
        return AuthResult(false, LoginFailed, None);
      }
      if found.value.Some? {
        currentUser := found.value;
        persisted := found.value;
        return AuthResult(true, LoginOk, found.value);
      }
      return AuthResult(false, BadCredentials, None);
    }

    method Register(fullName: string, email: string, password: string, now: Timestamp) returns (r: AuthResult)
      requires Valid() && db.Valid()
      modifies this, db
      ensures Valid() && db.Valid()
      ensures r.success <==> db.ready && UserWithEmail(old(db.users), email).None?
      ensures r.success ==>
        && r.message == RegisterOk
        && r.user == Some(StoredUser(NewUser(email, password, fullName), old(db.nextUserId), now))
        && db.users == old(db.users) + [r.user.value]
        && currentUser == r.user && persisted == r.user
      ensures !r.success ==>
        && r.user == None && db.users == old(db.users)
        && currentUser == old(currentUser) && persisted == old(persisted)
      ensures !r.success ==> r.message == if db.ready then EmailTaken else RegisterFailed
      ensures db.nextUserId == if r.success then old(db.nextUserId) + 1 else old(db.nextUserId)
      ensures db.alarms == old(db.alarms) && db.sessions == old(db.sessions)
      ensures db.nextAlarmId == old(db.nextAlarmId) && db.nextSessionId == old(db.nextSessionId)
    {
      var existing := db.GetUserByEmail(email);
      if existing.Err? {
        return AuthResult(false, RegisterFailed, None);
      }
      if existing.value.Some? {
        return AuthResult(false, EmailTaken, None);
      }
      var created := db.CreateUser(NewUser(email, password, fullName), now);
      if created.Err? {
        return AuthResult(false, RegisterFailed, None);
      }
      currentUser := Some(created.value);
      persisted := Some(created.value);
      r := AuthResult(true, RegisterOk, Some(created.value));
    }

    method Logout()
      modifies this
      ensures Valid() && !IsLoggedIn()
      ensures currentUser == None && persisted == None
    {
      currentUser := None;
      persisted := None;
    }

    /** What a reload would restore. */
    function GetCurrentUser(): (u: Option<User>)
      reads this
      requires Valid()
      ensures u == persisted
    {
      currentUser
    }

    /** Logged in exactly when a reload would restore a user. */
    function IsLoggedIn(): (b: bool)
      reads this
      requires Valid()
      ensures b <==> persisted.Some?
    {
      currentUser != None
    }
  }
}
