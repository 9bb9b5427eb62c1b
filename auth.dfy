/** The authentication context: the default display name, email normalisation, the
    profile row written at registration, the decision tree that turns a profile query
    into the signed-in user, and the provider's `user`/`isLoading` state. */
module Auth {
  import opened Seqs
  import Text

  datatype Role = Buyer | Seller | Admin

  /** The application's user object. */
  datatype User = User(
    id: string,
    email: string,
    name: string,
    role: Role,
    city: Option<string>,
    isVerified: bool,
    businessName: Option<string>,
    description: Option<string>)

  /** The identity service's user: its id, email and metadata name, each possibly absent. */
  datatype AuthUser = AuthUser(id: string, email: Option<string>, metadataName: Option<string>)

  /** A row of the `profiles` table as read back. */
  datatype ProfileRow = ProfileRow(
    id: string,
    name: string,
    role: Role,
    city: Option<string>,
    isVerified: bool,
    businessName: Option<string>,
    description: Option<string>)

  const ProfileMissing: string := "PGRST116"
  const DefaultCity: string := "Mumbai"

  /** JavaScript truthiness of an optional string: present and not empty. */
  predicate Truthy(s: Option<string>) {
    s.Some? && s.value != ""
  }

  /** `s || undefined`. */
  function OrUndefined(s: Option<string>): (r: Option<string>)
    ensures r.Some? <==> Truthy(s)
    ensures r.Some? ==> r == s
  {
    if Truthy(s) then s else None
  }

  /** `email.split('@')[0]`: the text before the first `@`, or all of it. */
  function BeforeAt(email: string): (r: string)
    ensures '@' !in r && |r| <= |email| && r == email[..|r|]
    ensures |r| < |email| ==> email[|r|] == '@'
  {
    Text.FirstPiece(email, '@');
    Text.Split(email, '@')[0]
  }

  /** `user_metadata?.name || email?.split('@')[0] || 'User'`. */
  function DefaultName(u: AuthUser): (r: string)
    ensures r != ""
    ensures Truthy(u.metadataName) ==> r == u.metadataName.value
    ensures !Truthy(u.metadataName) && u.email.Some? && BeforeAt(u.email.value) != "" ==>
      r == BeforeAt(u.email.value)
    ensures r == "User" || r == u.metadataName.GetOr("") || (u.email.Some? && r == BeforeAt(u.email.value))
  {
    if Truthy(u.metadataName) then u.metadataName.value
    else if u.email.Some? && BeforeAt(u.email.value) != "" then BeforeAt(u.email.value)
    else "User"
  }

  /** The name falls back to `'User'` exactly when neither the metadata name nor the
      text before the `@` is available. */
  lemma DefaultNameIsUser(u: AuthUser)
    requires u.metadataName.GetOr("") != "User"
    requires u.email.Some? ==> BeforeAt(u.email.value) != "User"
    ensures DefaultName(u) == "User" <==>
      !Truthy(u.metadataName) && (u.email.None? || u.email.value == [] || u.email.value[0] == '@')
  {
    if u.email.Some? {
      var e := u.email.value;
      assert e != [] && BeforeAt(e) == [] ==> e[0] == '@';
    }
  }

  /** The user object built when no profile can be used. */
  function FallbackUser(u: AuthUser): (r: User)
    ensures r.id == u.id && r.email == u.email.GetOr("") && r.name == DefaultName(u)
    ensures r.role == Buyer && r.city == Some(DefaultCity) && !r.isVerified
    ensures r.businessName == None && r.description == None
  {
    User(u.id, u.email.GetOr(""), DefaultName(u), Buyer, Some(DefaultCity), false, None, None)
  }

  /** The user object built from a profile row; empty optional texts become absent. */
  function ProfileUser(row: ProfileRow, email: Option<string>): (r: User)
    ensures r.id == row.id && r.name == row.name && r.role == row.role && r.isVerified == row.isVerified
    ensures r.email == email.GetOr("")
    ensures r.city == OrUndefined(row.city) && r.businessName == OrUndefined(row.businessName)
    ensures r.description == OrUndefined(row.description)
  {
    User(row.id, email.GetOr(""), row.name, row.role, OrUndefined(row.city), row.isVerified,
         OrUndefined(row.businessName), OrUndefined(row.description))
  }

  /** The row inserted for a user whose profile is missing. */
  function DefaultProfileRow(u: AuthUser): (r: ProfileRow)
    ensures r.id == u.id && r.name == DefaultName(u)
    ensures r.role == Buyer && r.city == Some(DefaultCity) && !r.isVerified
  {
    ProfileRow(u.id, DefaultName(u), Buyer, Some(DefaultCity), false, None, None)
  }

  /** The answer to `select * from profiles where id = ... single()`. */
  datatype ProfileFetch = Fetched(row: ProfileRow) | FetchedNothing | FetchError(code: string) | FetchThrew

  /** The answer to the insert of the default profile. */
  datatype ProfileInsert = InsertedRow(row: ProfileRow) | InsertedNothing | InsertError | InsertThrew

  datatype UserUpdate = KeepUser | SetUser(user: User)

  /** What `fetchUserProfile` does: the row it inserts, if any, and the user it stores. */
  datatype ProfileResolution = ProfileResolution(inserted: Option<ProfileRow>, update: UserUpdate)

  function ResolveProfile(u: AuthUser, fetch: ProfileFetch, insert: ProfileInsert): (r: ProfileResolution)
    ensures r.inserted.Some? <==> fetch == FetchError(ProfileMissing)
    ensures r.inserted.Some? ==> r.inserted.value == DefaultProfileRow(u)
    ensures fetch.Fetched? ==> r.update == SetUser(ProfileUser(fetch.row, u.email))
    ensures fetch == FetchedNothing ==> r.update == KeepUser
    ensures fetch.FetchError? && fetch.code != ProfileMissing ==> r.update == SetUser(FallbackUser(u))
    ensures fetch == FetchThrew ==> r.update == SetUser(FallbackUser(u))
    ensures fetch == FetchError(ProfileMissing) ==>
      r.update == match insert
        case InsertedRow(row) => SetUser(ProfileUser(row, u.email))
        case InsertedNothing => KeepUser
        case _ => SetUser(FallbackUser(u))
  {
    match fetch
    case Fetched(row) => ProfileResolution(None, SetUser(ProfileUser(row, u.email)))
    case FetchedNothing => ProfileResolution(None, KeepUser)
    case FetchThrew => ProfileResolution(None, SetUser(FallbackUser(u)))
    case FetchError(code) =>
      if code != ProfileMissing then ProfileResolution(None, SetUser(FallbackUser(u)))
      else
        var row := DefaultProfileRow(u);
        match insert
        case InsertedRow(created) => ProfileResolution(Some(row), SetUser(ProfileUser(created, u.email)))
        case InsertedNothing => ProfileResolution(Some(row), KeepUser)
        case InsertError => ProfileResolution(Some(row), SetUser(FallbackUser(u)))
        case InsertThrew => ProfileResolution(Some(row), SetUser(FallbackUser(u)))
  }

  /** Unless a profile row comes back, the stored user is the auth user as a buyer from
      Mumbai, not verified, named by the fallback rule. */
  lemma ResolvedWithoutRowIsFallback(u: AuthUser, fetch: ProfileFetch, insert: ProfileInsert)
    requires !fetch.Fetched? && !insert.InsertedRow?
    requires ResolveProfile(u, fetch, insert).update.SetUser?
    ensures var v := ResolveProfile(u, fetch, insert).update.user;
      v.id == u.id && v.email == u.email.GetOr("") && v.name == DefaultName(u)
      && v.role == Buyer && v.city == Some(DefaultCity) && !v.isVerified
  {
  }

  /** `email.trim().toLowerCase()`. */
  function NormaliseEmail(email: string): (r: string)
    ensures r != [] ==> !Text.IsSpace(r[0]) && !Text.IsSpace(r[|r| - 1])
    ensures forall i :: 0 <= i < |r| ==> !('A' <= r[i] <= 'Z')
    ensures |r| == |Text.Trim(email)|
    ensures forall i :: 0 <= i < |r| ==> r[i] == Text.LowerChar(Text.Trim(email)[i])
  {
    var t := Text.Trim(email);
    Text.ToLowerKeepsSpace(t);
    Text.ToLower(t)
  }

  /** Normalising an already normalised address changes nothing. */
  lemma NormaliseEmailIdempotent(email: string)
    ensures NormaliseEmail(NormaliseEmail(email)) == NormaliseEmail(email)
  {
    var r := NormaliseEmail(email);
    assert Text.TrimStart(r) == r;
    assert Text.TrimEnd(r) == r;
    assert Text.Trim(r) == r;
    Text.ToLowerIdempotent(Text.Trim(email));
  }

  /** The `profiles` row written by `register`. */
  datatype RegistrationRow = RegistrationRow(
    id: string,
    name: string,
    role: Role,
    city: string,
    businessName: Option<string>,
    description: Option<string>,
    isVerified: bool,
    mobile: Option<string>,
    verificationDoc: Option<string>)

  /** `city` defaults to Mumbai only when it is not passed at all. Admins are verified
      at once; only sellers keep their mobile number and verification document. */
  function RegistrationProfile(
    id: string, name: string, role: Role, city: Option<string>, businessName: Option<string>,
    description: Option<string>, mobile: Option<string>, verificationDoc: Option<string>): (r: RegistrationRow)
    ensures r.isVerified <==> role == Admin
    ensures r.mobile == (if role == Seller then mobile else None)
    ensures r.verificationDoc == (if role == Seller then verificationDoc else None)
    ensures r.city == city.GetOr(DefaultCity)
    ensures r.id == id && r.name == name && r.role == role
    ensures r.businessName == businessName && r.description == description
  {
    RegistrationRow(id, name, role, city.GetOr(DefaultCity), businessName, description,
                    role == Admin,
                    if role == Seller then mobile else None,
                    if role == Seller then verificationDoc else None)
  }

  datatype AuthEvent = SignedIn | SignedOut | TokenRefreshed | OtherEvent

  /** The answer to `getSession` at start-up. */
  datatype SessionAnswer = SessionError | SessionFound(user: Option<AuthUser>) | SessionThrew

  datatype SignInAnswer = SignInError(message: string) | SignInData(hasUser: bool) | SignInThrew

  datatype SignUpAnswer = SignUpError(message: string) | SignUpData(user: Option<string>) | SignUpThrew

  datatype InsertAnswer = InsertOk | InsertFailed | InsertRaised

  datatype SignOutAnswer = SignOutOk | SignOutError | SignOutThrew

  /** Whether `register` reports success: an account and its profile row were created. */
  function RegisterSucceeded(signUp: SignUpAnswer, insert: InsertAnswer): (ok: bool)
    ensures ok <==> signUp.SignUpData? && signUp.user.Some? && insert == InsertOk
  {
    match signUp
    case SignUpData(Some(_)) => insert == InsertOk
    case _ => false
  }

  /** The provider's React state. `mounted` is cleared when the effect is torn down. */
  class AuthProvider {
    var user: Option<User>
    var isLoading: bool
    var mounted: bool

    constructor ()
      ensures user == None && isLoading && mounted
    {
      user := None;
      isLoading := true;
      mounted := true;
    }

    /** `fetchUserProfile`: store the resolved user; loading always ends. */
    method FetchUserProfile(u: AuthUser, fetch: ProfileFetch, insert: ProfileInsert)
      returns (inserted: Option<ProfileRow>)
      modifies this`user, this`isLoading
      ensures inserted == ResolveProfile(u, fetch, insert).inserted
      ensures user == match ResolveProfile(u, fetch, insert).update
        case KeepUser => old(user)
        case SetUser(v) => Some(v)
      ensures !isLoading
    {
      inserted := None;
      match fetch {
        case Fetched(row) =>
          user := Some(ProfileUser(row, u.email));
        case FetchedNothing =>
        case FetchThrew =>
          user := None;
          user := Some(FallbackUser(u));
        case FetchError(code) =>
          if code == ProfileMissing {
            inserted := Some(DefaultProfileRow(u));
            match insert {
              case InsertedRow(created) =>
                user := Some(ProfileUser(created, u.email));
              case InsertedNothing =>
              case InsertError =>
                user := None;
                user := Some(FallbackUser(u));
              case InsertThrew =>
                user := None;
                user := Some(FallbackUser(u));
            }
          } else {
            user := None;
            user := Some(FallbackUser(u));
          }
      }
      isLoading := false;
    }

    /** `getInitialSession`. */
    method GetInitialSession(answer: SessionAnswer, fetch: ProfileFetch, insert: ProfileInsert)
      modifies this`user, this`isLoading
      ensures answer.SessionFound? && answer.user.Some? && old(mounted) ==>
        !isLoading && user == match ResolveProfile(answer.user.value, fetch, insert).update
          case KeepUser => old(user)
          case SetUser(v) => Some(v)
      ensures answer.SessionFound? && answer.user.Some? && !old(mounted) ==>
        user == old(user) && isLoading == old(isLoading)
      ensures !(answer.SessionFound? && answer.user.Some?) ==>
        user == old(user) && isLoading == (old(isLoading) && !old(mounted))
    {
      match answer {
        case SessionFound(Some(u)) =>
          if mounted {
            var _ := FetchUserProfile(u, fetch, insert);
          }
        case _ =>
          if mounted {
            isLoading := false;
          }
      }
    }

    /** The `onAuthStateChange` handler. */
    method HandleAuthEvent(event: AuthEvent, session: Option<AuthUser>, fetch: ProfileFetch, insert: ProfileInsert)
      modifies this`user, this`isLoading
      ensures !old(mounted) ==> user == old(user) && isLoading == old(isLoading)
      ensures old(mounted) && event == SignedOut ==> user == None && !isLoading
      ensures old(mounted) && event == SignedIn && session.Some? ==>
        !isLoading && user == match ResolveProfile(session.value, fetch, insert).update
          case KeepUser => old(user)
          case SetUser(v) => Some(v)
      ensures event == TokenRefreshed || event == OtherEvent || (event == SignedIn && session.None?) ==>
        user == old(user) && isLoading == old(isLoading)
    {
      if !mounted {
        return;
      }
      if event == SignedIn && session.Some? {
        var _ := FetchUserProfile(session.value, fetch, insert);
      } else if event == SignedOut {
        user := None;
        isLoading := false;
      }
    }

    method Unmount()
      modifies this`mounted
      ensures !mounted
    {
      mounted := false;
    }

    /** `login`: sends the normalised email; succeeds iff the answer carries a user. */
    method Login(email: string, answer: SignInAnswer) returns (ok: bool, sentEmail: string)
      modifies this`isLoading
      ensures sentEmail == NormaliseEmail(email)
      ensures ok <==> answer == SignInData(true)
      ensures !isLoading
    {
      isLoading := true;
      sentEmail := NormaliseEmail(email);
      match answer {
        case SignInError(_) => ok := false;
        case SignInData(hasUser) => ok := hasUser;
        case SignInThrew => ok := false;
      }
      isLoading := false;
    }

    /** `register`: sends the normalised email, then, once an account exists, inserts its profile row. */
    method Register(
      email: string, name: string, role: Role, city: Option<string>, businessName: Option<string>,
      description: Option<string>, mobile: Option<string>, verificationDoc: Option<string>,
      signUp: SignUpAnswer, insert: InsertAnswer)
      returns (ok: bool, sentEmail: string, row: Option<RegistrationRow>)
      modifies this`isLoading
      ensures sentEmail == NormaliseEmail(email)
      ensures row.Some? <==> signUp.SignUpData? && signUp.user.Some?
      ensures row.Some? ==>
        row.value == RegistrationProfile(signUp.user.value, name, role, city, businessName, description, mobile, verificationDoc)
      ensures ok == RegisterSucceeded(signUp, insert)
      ensures !isLoading
    {
      isLoading := true;
      sentEmail := NormaliseEmail(email);
      row := None;
      ok := false;
      match signUp {
        case SignUpData(Some(id)) =>
          row := Some(RegistrationProfile(id, name, role, city, businessName, description, mobile, verificationDoc));
          ok := insert == InsertOk;
        case _ =>
      }
      isLoading := false;
    }

    /** `logout`: the user is cleared only when signing out reported no error. */
    method Logout(answer: SignOutAnswer)
      modifies this`user
      ensures user == if answer == SignOutOk then None else old(user)
    {
      if answer == SignOutOk {
        user := None;
      }
    }
  }
}
