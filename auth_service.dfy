/** The authentication service of the app: credentials checked locally,
    and the session state the screens watch. The saved session is a
    parameter of the constructor; `id` and `now` stand for the brother's id
    and registration time, which the initialiser needs and the credentials
    do not give. */
module KilwinningAuth {
  import opened Wrappers
  import opened Text
  import opened Brothers

  datatype AuthError = InvalidCredentials | NetworkError | InvalidData | Unauthorized

  /** The practice account, a master without office or admin rights. */
  function ProvaBrother(id: int, now: int): Brother {
    MakeBrother(id, "Fratello", "Prova", "prova@kilwinning.it", Maestro, now, role := Nessuno, isAdmin := false)
  }

  /** The admin account, the Worshipful Master. */
  function AdminBrother(id: int, now: int): Brother {
    MakeBrother(id, "Paolo Giulio", "Gazzano", "admin@kilwinning.it", Maestro, now,
                role := VenerabileMaestro, isAdmin := true)
  }

  /** The demo credentials of the app's constants. */
  const DemoEmail := "prova"
  const DemoPassword := "prova123"

  /** The brother `login` signs in: the user name is lower-cased, the
      password compared as typed. */
  function LoginBrother(email: string, password: string, id: int, now: int): Option<Brother> {
    var username := LowerStr(email);
    if username == "prova" && password == "prova123" then Some(ProvaBrother(id, now))
    else if username == "admin" && password == "admin123" then Some(AdminBrother(id, now))
    else if username == DemoEmail && password == DemoPassword then Some(ProvaBrother(id, now))
    else None
  }

  /** Exactly two accounts sign in, whatever the case of the user name:
      "prova" as a brother without rights, "admin" as the admin master. */
  lemma LoginBrotherSpec(email: string, password: string, id: int, now: int)
    ensures LoginBrother(email, password, id, now).Some? <==>
      (LowerStr(email) == "prova" && password == "prova123") || (LowerStr(email) == "admin" && password == "admin123")
    ensures LowerStr(email) == "prova" && password == "prova123" ==>
      LoginBrother(email, password, id, now) == Some(ProvaBrother(id, now))
      && !ProvaBrother(id, now).isAdmin && ProvaBrother(id, now).degree == Maestro
    ensures LowerStr(email) == "admin" && password == "admin123" ==>
      LoginBrother(email, password, id, now) == Some(AdminBrother(id, now))
      && AdminBrother(id, now).isAdmin && AdminBrother(id, now).role == VenerabileMaestro
  {
  }

  /** The user name ignores case; the password does not. */
  lemma LoginCaseRules(id: int, now: int)
    ensures LoginBrother("ADMIN", "admin123", id, now).Some?
    ensures LoginBrother("admin", "ADMIN123", id, now).None?
  {
    assert LowerStr("ADMIN") == "admin";
    assert "ADMIN123" != "admin123" && "ADMIN123" != "prova123";
  }

  class AuthenticationService {
    var currentBrother: Option<Brother>
    var isAuthenticated: bool
    var isLoading: bool
    var errorMessage: Option<string>

    /** `loadSavedSession`: a saved brother is signed in again. */
    constructor (saved: Option<Brother>)
      ensures currentBrother == saved && isAuthenticated == saved.Some?
      ensures !isLoading && errorMessage.None?
    {
      currentBrother := saved;
      isAuthenticated := saved.Some?;
      isLoading := false;
      errorMessage := None;
    }

    /** `login`: on success the brother is signed in and loading ends; on
        failure `invalidCredentials` is thrown before loading is reset, and
        the session is untouched. */
    method Login(email: string, password: string, id: int, now: int) returns (r: Outcome<AuthError>)
      modifies this
      ensures errorMessage.None?
      ensures r.Pass? <==> LoginBrother(email, password, id, now).Some?
      ensures r.Pass? ==> currentBrother == LoginBrother(email, password, id, now) && isAuthenticated && !isLoading
      ensures r.Fail? ==> r.error == InvalidCredentials && isLoading
      ensures r.Fail? ==> currentBrother == old(currentBrother) && isAuthenticated == old(isAuthenticated)
    {
      isLoading := true;
      errorMessage := None;
      var username := LowerStr(email);
      if username == "prova" && password == "prova123" {
        currentBrother := Some(ProvaBrother(id, now));
        isAuthenticated := true;
      } else if username == "admin" && password == "admin123" {
        currentBrother := Some(AdminBrother(id, now));
        isAuthenticated := true;
      } else if username == DemoEmail && password == DemoPassword {
        // the demo constants repeat the practice account, so this branch is never taken
        assert false;
      } else {
        return Fail(InvalidCredentials);
      }
      isLoading := false;
      r := Pass;
    }

    /** `createUser`: only an admin may; a refusal changes nothing. */
    method CreateUser(firstName: string, lastName: string, email: string, password: string,
                      degree: MasonicDegree, role: InstitutionalRole) returns (r: Outcome<AuthError>)
      modifies this
      ensures r.Fail? <==> !(old(currentBrother).Some? && old(currentBrother).value.isAdmin)
      ensures r.Fail? ==> r.error == Unauthorized && isLoading == old(isLoading) && errorMessage == old(errorMessage)
      ensures r.Pass? ==> !isLoading && errorMessage.None?
      ensures currentBrother == old(currentBrother) && isAuthenticated == old(isAuthenticated)
    {
      if !(currentBrother.Some? && currentBrother.value.isAdmin) {
        return Fail(Unauthorized);
      }
      isLoading := true;
      errorMessage := None;
      isLoading := false;
      r := Pass;
    }

    method Logout()
      modifies this
      ensures currentBrother.None? && !isAuthenticated
      ensures isLoading == old(isLoading) && errorMessage == old(errorMessage)
    {
      currentBrother := None;
      isAuthenticated := false;
    }
  }
}

/** The authentication service of the SwiftUI package: one demo account,
    registration that always succeeds, and a password reset that only
    waits. */
module AppAuth {
  import opened Wrappers
  import opened Text
  import opened Brothers

  datatype AuthError = InvalidCredentials | NetworkError | InvalidData

  /** The demo brother, with the e-mail as typed. */
  function DemoBrother(email: string, id: int, now: int): Brother {
    MakeBrother(id, "Paolo Giulio", "Gazzano", email, Maestro, now, role := VenerabileMaestro, isAdmin := true)
  }

  /** The brother `register` signs in: a new apprentice. */
  function RegisteredBrother(firstName: string, lastName: string, email: string, id: int, now: int): (b: Brother)
    ensures b.firstName == firstName && b.lastName == lastName && b.email == email
    ensures b.degree == Apprendista && b.role == Nessuno && !b.isAdmin
  {
    MakeBrother(id, firstName, lastName, email, Apprendista, now)
  }

  predicate DemoCredentials(email: string, password: string) {
    LowerStr(email) == "demo@kilwinning.it" && password == "demo123"
  }

  /** The demo e-mail ignores case, the password does not. */
  lemma DemoCredentialsCase()
    ensures DemoCredentials("Demo@Kilwinning.it", "demo123")
    ensures !DemoCredentials("demo@kilwinning.it", "Demo123")
  {
    assert LowerStr("Demo@Kilwinning.it") == "demo@kilwinning.it";
  }

  class AuthenticationService {
    var currentBrother: Option<Brother>
    var isAuthenticated: bool
    var isLoading: bool
    var errorMessage: Option<string>

    constructor (saved: Option<Brother>)
      ensures currentBrother == saved && isAuthenticated == saved.Some?
      ensures !isLoading && errorMessage.None?
    {
      currentBrother := saved;
      isAuthenticated := saved.Some?;
      isLoading := false;
      errorMessage := None;
    }

    /** `login`: only the demo account signs in, as an admin; a failure
        leaves loading on and the session untouched. */
    method Login(email: string, password: string, id: int, now: int) returns (r: Outcome<AuthError>)
      modifies this
      ensures errorMessage.None?
      ensures r.Pass? <==> DemoCredentials(email, password)
      ensures r.Pass? ==> currentBrother == Some(DemoBrother(email, id, now)) && isAuthenticated && !isLoading
      ensures r.Pass? ==> currentBrother.value.isAdmin
      ensures r.Fail? ==> r.error == InvalidCredentials && isLoading
      ensures r.Fail? ==> currentBrother == old(currentBrother) && isAuthenticated == old(isAuthenticated)
    {
      isLoading := true;
      errorMessage := None;
      if LowerStr(email) == "demo@kilwinning.it" && password == "demo123" {
        currentBrother := Some(DemoBrother(email, id, now));
        isAuthenticated := true;
      } else {
        return Fail(InvalidCredentials);
      }
      isLoading := false;
      r := Pass;
    }

    /** `register`: any data signs in a new apprentice. */
    method Register(firstName: string, lastName: string, email: string, password: string, id: int, now: int)
      modifies this
      ensures currentBrother == Some(RegisteredBrother(firstName, lastName, email, id, now))
      ensures isAuthenticated && !isLoading && errorMessage.None?
    {
      isLoading := true;
      errorMessage := None;
      currentBrother := Some(RegisteredBrother(firstName, lastName, email, id, now));
      isAuthenticated := true;
      isLoading := false;
    }

    method Logout()
      modifies this
      ensures currentBrother.None? && !isAuthenticated
      ensures isLoading == old(isLoading) && errorMessage == old(errorMessage)
    {
      currentBrother := None;
      isAuthenticated := false;
    }

    /** `resetPassword`: nothing but the loading flag and the message. */
    method ResetPassword(email: string)
      modifies this
      ensures !isLoading && errorMessage.None?
      ensures currentBrother == old(currentBrother) && isAuthenticated == old(isAuthenticated)
    {
      isLoading := true;
      errorMessage := None;
      isLoading := false;
    }
  }
}
