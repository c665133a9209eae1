/**
 * The authentication context (contexts/AuthContext.tsx): the signed-in user, the session, the
 * profile row and a loading flag, set by the session listener, the profile fetch and sign-out;
 * a missing profile is replaced by a default one whose role is guessed from the email.
 */
module AuthContext {
  import opened Wrappers
  import opened Text

  const Administrator: string := "Administrator"
  const MedicalStaff: string := "Medical Staff"
  const Reception: string := "Reception"

  /** An email that is present and includes `word`. */
  predicate EmailHas(email: Option<string>, word: string) {
    email.Some? && Contains(email.value, word)
  }

  /**
   * The `let role` of the profile fallback: "Medical Staff", overwritten when the email is
   * present and includes "admin" or, failing that, "reception".
   */
  method DeriveRole(email: Option<string>) returns (role: string)
    ensures role == Administrator <==> EmailHas(email, "admin")
    ensures role == Reception <==> !EmailHas(email, "admin") && EmailHas(email, "reception")
    ensures role == MedicalStaff <==> !EmailHas(email, "admin") && !EmailHas(email, "reception")
  {
    role := MedicalStaff;
    if email.Some? && email.value != "" {
      if Contains(email.value, "admin") {
        role := Administrator;
      } else if Contains(email.value, "reception") {
        role := Reception;
      }
    }
    assert EmailHas(email, "admin") || EmailHas(email, "reception") ==> email.value != "" by {
      if EmailHas(email, "admin") {
        ContainsChar(email.value, "admin", 'a');
      } else if EmailHas(email, "reception") {
        ContainsChar(email.value, "reception", 'r');
      }
    }
  }

  /** `value || fallback` on an optional text. */
  function OrElse(value: Option<string>, fallback: string): (r: string)
    ensures value.Some? && value.value != "" ==> r == value.value
    ensures value.None? || value.value == "" ==> r == fallback
  {
    if value.Some? && value.value != "" then value.value else fallback
  }

  /** `value || null` on an optional text. */
  function OrNull(value: Option<string>): (r: Option<string>)
    ensures r.None? <==> value.None? || value.value == ""
    ensures r.Some? ==> r == value
  {
    if value.Some? && value.value != "" then value else None
  }

  /** The user record of the auth service, with its metadata. */
  datatype AuthUser = AuthUser(
    id: string,
    email: Option<string>,
    metaName: Option<string>,
    metaRole: Option<string>,
    metaDepartment: Option<string>)

  datatype Session = Session(user: AuthUser)

  /** A `profiles` row. */
  datatype UserProfile = UserProfile(id: string, email: string, name: string, role: string, department: Option<string>)

  /** `defaultProfile`, given the role derived from the email. */
  function DefaultProfile(userId: string, u: AuthUser, derivedRole: string): (p: UserProfile)
    ensures p.id == userId
    ensures p.email == OrElse(u.email, "") && p.name == OrElse(u.metaName, "User")
    ensures p.role == OrElse(u.metaRole, derivedRole)
    ensures p.department == OrNull(u.metaDepartment)
  {
    UserProfile(userId, OrElse(u.email, ""), OrElse(u.metaName, "User"), OrElse(u.metaRole, derivedRole),
                OrNull(u.metaDepartment))
  }

  /** A user without any metadata gets name "User", no department and the derived role. */
  lemma BareUserProfile(userId: string, id: string, email: Option<string>, derivedRole: string)
    ensures var p := DefaultProfile(userId, AuthUser(id, email, None, None, None), derivedRole);
      p.name == "User" && p.role == derivedRole && p.department == None
      && (email.None? ==> p.email == "")
  {
  }

  /** A role in the metadata wins over the one derived from the email. */
  lemma MetadataRoleWins(userId: string, u: AuthUser, derivedRole: string)
    requires u.metaRole.Some? && u.metaRole.value != ""
    ensures DefaultProfile(userId, u, derivedRole).role == u.metaRole.value
  {
  }

  /** How the profile query of `fetchUserProfile` ends. */
  datatype ProfileFetch =
    | Found(row: UserProfile)
    | NotFound(authUser: Option<AuthUser>, insertOk: bool)
    | OtherError
    | FetchThrew

  /** The context's state. */
  class Auth {
    var user: Option<AuthUser>
    var session: Option<Session>
    var userProfile: Option<UserProfile>
    var isLoading: bool

    constructor ()
      ensures user.None? && session.None? && userProfile.None? && isLoading
    {
      user, session, userProfile, isLoading := None, None, None, true;
    }

    /** `isAuthenticated`: a user and a profile. */
    function IsAuthenticated(): (b: bool)
      reads this
      ensures b <==> user.Some? && userProfile.Some?
    {
      user.Some? && userProfile.Some?
    }

    /**
     * The `onAuthStateChange` listener. With a session user the profile fetch starts, whose
     * first step raises `isLoading`; the user's id is returned for it. Without one, the
     * profile is cleared and loading ends.
     */
    method OnAuthStateChange(s: Option<Session>) returns (fetchFor: Option<string>)
      modifies this
      ensures session == s
      ensures user == if s.Some? then Some(s.value.user) else None
      ensures s.Some? ==> fetchFor == Some(s.value.user.id) && isLoading && userProfile == old(userProfile)
      ensures s.None? ==> fetchFor.None? && userProfile.None? && !isLoading && !IsAuthenticated()
    {
      session := s;
      user := if s.Some? then Some(s.value.user) else None;
      if s.Some? {
        isLoading := true;
        fetchFor := Some(s.value.user.id);
      } else {
        userProfile := None;
        isLoading := false;
        fetchFor := None;
      }
    }

    /** The initial `getSession`: as the listener, except that the profile is not cleared. */
    method InitialSession(s: Option<Session>) returns (fetchFor: Option<string>)
      modifies this
      ensures session == s
      ensures user == if s.Some? then Some(s.value.user) else None
      ensures userProfile == old(userProfile)
      ensures s.Some? ==> fetchFor == Some(s.value.user.id) && isLoading
      ensures s.None? ==> fetchFor.None? && !isLoading
    {
      session := s;
      user := if s.Some? then Some(s.value.user) else None;
      if s.Some? {
        isLoading := true;
        fetchFor := Some(s.value.user.id);
      } else {
        isLoading := false;
        fetchFor := None;
      }
    }

    /**
     * The rest of `fetchUserProfile(userId)` once the query has answered: a found row is
     * stored; a missing one is replaced by the default profile when the auth user is known,
     * which is stored only if inserting it succeeded. Loading ends in every case.
     */
    method ApplyProfileFetch(userId: string, outcome: ProfileFetch) returns (inserted: Option<UserProfile>)
      modifies this`userProfile, this`isLoading
      ensures !isLoading
      ensures outcome.Found? ==> userProfile == Some(outcome.row) && inserted.None?
      ensures inserted.Some? <==> outcome.NotFound? && outcome.authUser.Some?
      ensures inserted.Some? ==>
        var u := outcome.authUser.value;
        inserted.value == DefaultProfile(userId, u,
          if EmailHas(u.email, "admin") then Administrator
          else if EmailHas(u.email, "reception") then Reception
          else MedicalStaff)
      ensures inserted.Some? && !outcome.insertOk ==> userProfile == old(userProfile)
      ensures inserted.Some? && outcome.insertOk ==> userProfile == inserted
      ensures outcome.OtherError? || outcome.FetchThrew? || (outcome.NotFound? && outcome.authUser.None?) ==>
        userProfile == old(userProfile)
    {
      inserted := None;
      match outcome {
        case Found(row) =>
          userProfile := Some(row);
        case NotFound(authUser, insertOk) =>
          if authUser.Some? {
            var role := DeriveRole(authUser.value.email);
            var profile := DefaultProfile(userId, authUser.value, role);
            inserted := Some(profile);
            if insertOk {
              userProfile := Some(profile);
            }
          }
        case OtherError =>
        case FetchThrew =>
      }
      isLoading := false;
    }

    /** `signOut`: the profile is dropped only when the sign-out succeeded; loading ends. */
    method SignOut(ok: bool)
      modifies this`userProfile, this`isLoading
      ensures userProfile == if ok then None else old(userProfile)
      ensures !isLoading
      ensures ok ==> !IsAuthenticated()
    {
      if ok {
        userProfile := None;
      }
      isLoading := false;
    }
  }
}
