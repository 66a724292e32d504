/** The authentication context: the session, user, user type and loading flag shared by
    every page, the purge of stale auth tokens from browser storage, and the sign-in,
    sign-up and sign-out flows with the auth service reduced to the answers it gives. */
module Auth {
  import opened Common
  import Cadastro

  const AuthTokenKey: string := "supabase.auth.token"
  const AuthKeyPrefix: string := "supabase.auth."
  const AuthKeyMarker: string := "sb-"

  predicate StartsWith(s: string, prefix: string)
  {
    |prefix| <= |s| && s[..|prefix|] == prefix
  }

  /** `s.includes(part)`: `part` occurs somewhere in `s`. */
  predicate Contains(s: string, part: string)
    decreases |s|
  {
    StartsWith(s, part) || (|s| > 0 && Contains(s[1..], part))
  }

  /** The keys `cleanupAuthState` removes. */
  predicate IsAuthKey(key: string)
  {
    StartsWith(key, AuthKeyPrefix) || Contains(key, AuthKeyMarker)
  }

  /** A storage after the purge: the auth keys are gone and every other entry is untouched. */
  function Purged(items: map<string, string>): (r: map<string, string>)
    ensures forall k :: k in r ==> !IsAuthKey(k)
    ensures forall k :: k in items && !IsAuthKey(k) ==> k in r && r[k] == items[k]
    ensures r.Keys <= items.Keys
  {
    map k | k in items && !IsAuthKey(k) :: items[k]
  }

  /** Purging twice leaves the same storage as purging once. */
  lemma PurgedIdempotent(items: map<string, string>)
    ensures Purged(Purged(items)) == Purged(items)
  {
  }

  /** `localStorage` or `sessionStorage`: a string-to-string dictionary changed in place. */
  class WebStorage {
    var items: map<string, string>

    constructor (items: map<string, string>)
      ensures this.items == items
    {
      this.items := items;
    }

    method RemoveItem(key: string)
      modifies this
      ensures items == old(items) - {key}
    {
      items := items - {key};
    }
  }

  /** One `Object.keys(storage).forEach(...)` pass of `cleanupAuthState`. */
  method PurgeAuthKeys(storage: WebStorage)
    modifies storage
    ensures storage.items == Purged(old(storage.items))
  {
    var keys := storage.items.Keys;
    while keys != {}
      invariant keys <= old(storage.items).Keys
      invariant forall k :: k in storage.items <==> k in old(storage.items) && (k in keys || !IsAuthKey(k))
      invariant forall k :: k in storage.items ==> storage.items[k] == old(storage.items)[k]
      decreases keys
    {
      var key :| key in keys;
      if IsAuthKey(key) {
        storage.RemoveItem(key);
      }
      keys := keys - {key};
    }
    assert storage.items == Purged(old(storage.items));
  }

  datatype Session = Session(accessToken: string, user: User)

  /** How the auth service answered a sign-in or sign-up: the user it returned, or an error. */
  datatype AuthResponse = AuthResponse(user: Option<User>, error: Option<BackendError>)

  /** The company lookup of `checkUserType`: the backend's `{ data, error }`, or an exception. */
  datatype CompanyLookup = Answered(response: Response<string>) | Threw

  /** What a sign-in, sign-up or sign-out ends with: the route it navigates to, or the error toast. */
  datatype AuthOutcome = Succeeded(navigateTo: Option<string>) | Failed(toast: string)

  /** The row written after a successful sign-up. */
  datatype ProfileWrite =
    | InsertCompany(userId: string, razaoSocial: Option<string>, cnpj: Option<string>, porte: Option<string>,
                    responsavel: Option<string>, cargoResponsavel: Option<string>)
    | UpdateProfile(userId: string, cpf: Option<string>, telefone: Option<string>, dataNascimento: Option<string>,
                    tipoDeficiencia: Option<string>, recursosAcessibilidade: Option<seq<string>>)

  /** The metadata sent with the sign-up request. */
  datatype SignUpMetadata = SignUpMetadata(nomeCompleto: string, userType: Option<Role>)

  /** The user type `checkUserType` settles on: a company row means `empresa`; no row, an error
      or an exception all mean `pcd`. */
  function UserTypeFor(lookup: CompanyLookup): (r: Role)
    ensures r == Empresa <==> lookup.Answered? && lookup.response.data.Some?
    ensures r == Pcd <==> lookup.Threw? || lookup.response.data.None?
  {
    match lookup
    case Answered(response) => if response.data.Some? then Empresa else Pcd
    case Threw => Pcd
  }

  /** `nome_completo || razao_social || email`: the first present, non-empty name. */
  function DisplayName(data: Cadastro.UserData, email: string): (name: string)
    ensures Present(data.nomeCompleto) ==> name == data.nomeCompleto.value
    ensures !Present(data.nomeCompleto) && Present(data.razaoSocial) ==> name == data.razaoSocial.value
    ensures !Present(data.nomeCompleto) && !Present(data.razaoSocial) ==> name == email
    ensures name == email || name in {data.nomeCompleto.GetOr(""), data.razaoSocial.GetOr("")}
  {
    if Present(data.nomeCompleto) then data.nomeCompleto.value
    else if Present(data.razaoSocial) then data.razaoSocial.value
    else email
  }

  /** A company row only for the user type `empresa`; every other value updates the profile row. */
  function SignUpWrite(userId: string, data: Cadastro.UserData): (w: ProfileWrite)
    ensures w.userId == userId
    ensures w.InsertCompany? <==> data.userType == Some(Empresa)
    ensures w.InsertCompany? ==>
      w == InsertCompany(userId, data.razaoSocial, data.cnpj, data.porte, data.responsavel, data.cargoResponsavel)
    ensures w.UpdateProfile? ==>
      w == UpdateProfile(userId, data.cpf, data.telefone, data.dataNascimento, data.tipoDeficiencia,
                         data.recursosAcessibilidade)
  {
    if data.userType == Some(Empresa) then
      InsertCompany(userId, data.razaoSocial, data.cnpj, data.porte, data.responsavel, data.cargoResponsavel)
    else
      UpdateProfile(userId, data.cpf, data.telefone, data.dataNascimento, data.tipoDeficiencia,
                    data.recursosAcessibilidade)
  }

  /** `error.message || fallback`. */
  function ErrorToast(error: BackendError, fallback: string): (t: string)
    ensures error.message != "" ==> t == error.message
    ensures error.message == "" ==> t == fallback
  {
    if error.message != "" then error.message else fallback
  }

  /** For the forms the registration page submits, the display name is the person's name or
      the company's name when filled in, and the email otherwise. */
  lemma RegistrationDisplayName(form: Cadastro.RegistrationForm, userType: Option<Role>, email: string)
    ensures userType == Some(Pcd) ==>
      DisplayName(form.Payload(userType), email) == (if form.nomePcd != "" then form.nomePcd else email)
    ensures userType != Some(Pcd) ==>
      DisplayName(form.Payload(userType), email) == (if form.razaoSocial != "" then form.razaoSocial else email)
  {
  }

  /** A registration submitted while the user type is `null` carries the company fields, yet the
      sign-up takes the profile branch and writes a profile update with no field present. */
  lemma NullTypeRegistrationUpdatesEmptyProfile(form: Cadastro.RegistrationForm, userId: string)
    ensures SignUpWrite(userId, form.Payload(None)) == UpdateProfile(userId, None, None, None, None, None)
  {
  }

  class AuthProvider {
    var session: Option<Session>
    var user: Option<User>
    var userType: Option<Role>
    var loading: bool
    const localStorage: WebStorage
    const sessionStorage: WebStorage

    ghost predicate Valid()
    {
      localStorage != sessionStorage
    }

    constructor (localStorage: WebStorage, sessionStorage: WebStorage)
      requires localStorage != sessionStorage
      ensures Valid()
      ensures this.localStorage == localStorage && this.sessionStorage == sessionStorage
      ensures session == None && user == None && userType == None && loading
    {
      this.localStorage := localStorage;
      this.sessionStorage := sessionStorage;
      session, user, userType := None, None, None;
      loading := true;
    }

    /** `cleanupAuthState`: drops the token key, then every auth key of both storages. */
    method CleanupAuthState()
      requires Valid()
      modifies localStorage, sessionStorage
      ensures localStorage.items == Purged(old(localStorage.items))
      ensures sessionStorage.items == Purged(old(sessionStorage.items))
    {
      ghost var before := localStorage.items;
      localStorage.RemoveItem(AuthTokenKey);
      assert IsAuthKey(AuthTokenKey) by {
        assert AuthTokenKey[..|AuthKeyPrefix|] == AuthKeyPrefix;
      }
      assert Purged(localStorage.items) == Purged(before);
      PurgeAuthKeys(localStorage);
      PurgeAuthKeys(sessionStorage);
    }

    /** The auth-change listener: records the session and its user; without a user the user type
        is reset at once, with one the type check is deferred and its user id returned. */
    method OnAuthStateChange(newSession: Option<Session>) returns (checkTypeOf: Option<string>)
      modifies this
      ensures session == newSession
      ensures newSession.None? ==> user == None && userType == None && checkTypeOf == None
      ensures newSession.Some? ==>
        user == Some(newSession.value.user) && userType == old(userType)
        && checkTypeOf == Some(newSession.value.user.id)
      ensures loading == old(loading)
    {
      session := newSession;
      if newSession.Some? {
        user := Some(newSession.value.user);
        checkTypeOf := Some(newSession.value.user.id);
      } else {
        user := None;
        userType := None;
        checkTypeOf := None;
      }
    }

    /** The mount-time `getSession`: records the session, starts the type check when there is a
        user, and ends the initial loading. */
    method OnInitialSession(existing: Option<Session>) returns (checkTypeOf: Option<string>)
      modifies this
      ensures session == existing && !loading && userType == old(userType)
      ensures user == (if existing.Some? then Some(existing.value.user) else None)
      ensures checkTypeOf == (if existing.Some? then Some(existing.value.user.id) else None)
    {
      session := existing;
      if existing.Some? {
        user := Some(existing.value.user);
        checkTypeOf := Some(existing.value.user.id);
      } else {
        user := None;
        checkTypeOf := None;
      }
      loading := false;
    }

    method CheckUserType(lookup: CompanyLookup)
      modifies this
      ensures userType == Some(UserTypeFor(lookup))
      ensures session == old(session) && user == old(user) && loading == old(loading)
    {
      match lookup {
        case Answered(response) =>
          if response.data.Some? {
            userType := Some(Empresa);
            return;
          }
          userType := Some(Pcd);
        case Threw =>
          userType := Some(Pcd);
      }
    }

    method SetUserType(t: Option<Role>)
      modifies this
      ensures userType == t
      ensures session == old(session) && user == old(user) && loading == old(loading)
    {
      userType := t;
    }

    /** `signIn`: purges stale tokens, then signs in; loading always ends false. The session
        itself is recorded by the auth-change listener, not here. */
    method SignIn(email: string, password: string, response: AuthResponse) returns (outcome: AuthOutcome)
      requires Valid()
      modifies this, localStorage, sessionStorage
      ensures !loading
      ensures session == old(session) && user == old(user) && userType == old(userType)
      ensures localStorage.items == Purged(old(localStorage.items))
      ensures sessionStorage.items == Purged(old(sessionStorage.items))
      ensures response.error.Some? ==> outcome == Failed(ErrorToast(response.error.value, "Erro ao fazer login"))
      ensures response.error.None? ==>
        outcome == Succeeded(if response.user.Some? then Some("/") else None)
    {
      loading := true;
      CleanupAuthState();
      if response.error.Some? {
        outcome := Failed(ErrorToast(response.error.value, "Erro ao fazer login"));
      } else if response.user.Some? {
        outcome := Succeeded(Some("/"));
      } else {
        outcome := Succeeded(None);
      }
      loading := false;
    }

    /** `signUp`: purges stale tokens, signs up with the display-name fallback, then writes the
        company row or the profile row; loading always ends false. */
    method SignUp(email: string, password: string, data: Cadastro.UserData,
                  response: AuthResponse, writeError: Option<BackendError>)
      returns (metadata: SignUpMetadata, write: Option<ProfileWrite>, outcome: AuthOutcome)
      requires Valid()
      modifies this, localStorage, sessionStorage
      ensures !loading
      ensures session == old(session) && user == old(user) && userType == old(userType)
      ensures localStorage.items == Purged(old(localStorage.items))
      ensures sessionStorage.items == Purged(old(sessionStorage.items))
      ensures metadata == SignUpMetadata(DisplayName(data, email), data.userType)
      ensures write.Some? <==> response.error.None? && response.user.Some?
      ensures write.Some? ==> write.value == SignUpWrite(response.user.value.id, data)
      ensures response.error.Some? ==> outcome == Failed(ErrorToast(response.error.value, "Erro ao criar conta"))
      ensures write.Some? && writeError.Some? ==> outcome == Failed(ErrorToast(writeError.value, "Erro ao criar conta"))
      ensures write.Some? && writeError.None? ==> outcome == Succeeded(Some("/dashboard"))
      ensures response.error.None? && response.user.None? ==> outcome == Succeeded(None)
    {
      loading := true;
      CleanupAuthState();
      metadata := SignUpMetadata(DisplayName(data, email), data.userType);
      write := None;
      if response.error.Some? {
        outcome := Failed(ErrorToast(response.error.value, "Erro ao criar conta"));
      } else if response.user.Some? {
        write := Some(SignUpWrite(response.user.value.id, data));
        if writeError.Some? {
          outcome := Failed(ErrorToast(writeError.value, "Erro ao criar conta"));
        } else {
          outcome := Succeeded(Some("/dashboard"));
        }
      } else {
        outcome := Succeeded(None);
      }
      loading := false;
    }

    /** `signOut`: purges the tokens and signs out everywhere; loading always ends false. The
        user is cleared by the auth-change listener that the sign-out triggers. */
    method SignOut(signOutThrew: bool) returns (outcome: AuthOutcome)
      requires Valid()
      modifies this, localStorage, sessionStorage
      ensures !loading
      ensures session == old(session) && user == old(user) && userType == old(userType)
      ensures localStorage.items == Purged(old(localStorage.items))
      ensures sessionStorage.items == Purged(old(sessionStorage.items))
      ensures outcome == if signOutThrew then Failed("Erro ao fazer logout") else Succeeded(Some("/login"))
    {
      loading := true;
      CleanupAuthState();
      if signOutThrew {
        outcome := Failed("Erro ao fazer logout");
      } else {
        outcome := Succeeded(Some("/login"));
      }
      loading := false;
    }
  }
}
