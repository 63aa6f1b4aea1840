/**
 * The entrance form: a login tab and a sign-up tab sharing one submit
 * handler. Sign-up is refused in the form when no username was typed or no
 * location pinned; everything else is left to `signup`, whose thrown
 * message the form shows. The sign-in service's answers are inputs.
 */
module AuthBoxForm {
  import opened Wrappers
  import opened JsValue
  import opened DocStore
  import opened Identity
  import Firestore
  import AuthFunctions

  const ChooseUsername := "Please choose a fun username ✨"
  const PinLocation := "Pin your location so we can place you in the mall 🧭"

  /** `err.message || String(err)` for an `Error` whose message is `message`. */
  function ErrorText(message: string): (text: string)
    ensures text != ""
    ensures message != "" ==> text == message
  {
    if message == "" then "Error" else message
  }

  /** The call the submit handler made to the auth functions. */
  datatype Request =
    | NoRequest
    | LoginRequest(email: string, password: string)
    | SignupRequest(email: string, password: string, username: string, location: Value, avatarId: Value)

  /** What the form shows after a sign-up attempt that reached `signup`. */
  function SignupError(username: string, location: Value, account: Result<User, string>): string {
    match AuthFunctions.SignupOutcome(username, Some(location), account)
    case Failure(e) => ErrorText(e)
    case Success(_) => ""
  }

  /**
   * When `signup`'s own checks refuse a submission from the form, the
   * message is never the missing-username one (the form catches that
   * first), and a pinned location without numeric coordinates gets
   * `signup`'s location message.
   */
  lemma FormAndSignupChecksAgree(username: string, location: Value, account: Result<User, string>)
    requires username != "" && Truthy(Some(location))
    ensures AuthFunctions.SignupCheck(username, Some(location)).Fail? ==>
              SignupError(username, location, account) != AuthFunctions.UsernameRequired
    ensures !Firestore.HasNumericLatLng(Some(location)) ==>
              SignupError(username, location, account) == AuthFunctions.LocationRequired
    ensures account.Success? ==>
              (SignupError(username, location, account) == "" <==> AuthFunctions.SignupCheck(username, Some(location)) == Pass)
  {
  }

  /** `AuthBox`'s state. */
  class AuthBox {
    var email: string
    var password: string
    var username: string
    var location: Value
    var avatarId: Value
    var isLogin: bool
    var error: string
    var busy: bool

    constructor()
      ensures email == "" && password == "" && username == ""
      ensures location == Null && avatarId == Null
      ensures isLogin && error == "" && !busy
    {
      email, password, username := "", "", "";
      location, avatarId := Null, Null;
      isLogin, error, busy := true, "", false;
    }

    /** The "Login" tab. */
    method ShowLoginTab()
      modifies this`isLogin, this`error
      ensures isLogin && error == ""
    {
      isLogin, error := true, "";
    }

    /** The "Sign Up" tab. */
    method ShowSignUpTab()
      modifies this`isLogin, this`error
      ensures !isLogin && error == ""
    {
      isLogin, error := false, "";
    }

    /** "Need an account?" / "Already have one?". */
    method ToggleMode()
      modifies this`isLogin, this`error
      ensures isLogin == !old(isLogin) && error == ""
    {
      isLogin, error := !isLogin, "";
    }

    /** The pin button's `onPin`. */
    method Pin(loc: Value)
      modifies this`location, this`error
      ensures location == loc && error == ""
    {
      location, error := loc, "";
    }

    /** The avatar picker's `onChange`. */
    method ChooseAvatar(id: Value)
      modifies this`avatarId
      ensures avatarId == id
    {
      avatarId := id;
    }

    /**
     * `handleSubmit`; `loginResult` and `account` are the sign-in service's
     * answers to a login and to an account creation.
     */
    method HandleSubmit(db: Db, loginResult: Outcome<string>, account: Result<User, string>, now: Timestamp)
        returns (request: Request)
      modifies this`error, this`busy, db
      ensures !busy
      ensures isLogin ==>
                request == LoginRequest(email, password) && db.docs == old(db.docs)
                && error == (if loginResult.Fail? then ErrorText(loginResult.error) else "")
      ensures !isLogin && username == "" ==>
                request == NoRequest && error == ChooseUsername && db.docs == old(db.docs)
      ensures !isLogin && username != "" && !Truthy(Some(location)) ==>
                request == NoRequest && error == PinLocation && db.docs == old(db.docs)
      ensures !isLogin && username != "" && Truthy(Some(location)) ==>
                && request == SignupRequest(email, password, username, location, avatarId)
                && error == SignupError(username, location, account)
                && (AuthFunctions.SignupCheck(username, Some(location)) == Pass && account.Success? ==>
                      db.docs == old(db.docs)[Firestore.UserKey(account.value.uid) :=
                        Firestore.ProfilePayload(AuthFunctions.SignupProfile(account.value, username, Some(location), Some(avatarId), now), now)])
                && (!(AuthFunctions.SignupCheck(username, Some(location)) == Pass && account.Success?) ==>
                      db.docs == old(db.docs))
    {
      error := "";
      busy := true;
      if isLogin {
        request := LoginRequest(email, password);
        if loginResult.Fail? {
          error := ErrorText(loginResult.error);
        }
      } else {
        if username == "" {
          error := ChooseUsername;
          busy := false;
          return NoRequest;
        }
        if !Truthy(Some(location)) {
          error := PinLocation;
          busy := false;
          return NoRequest;
        }
        request := SignupRequest(email, password, username, location, avatarId);
        var r, _ := AuthFunctions.Signup(db, username, Some(location), Some(avatarId), account, now);
        if r.Failure? {
          error := ErrorText(r.error);
        }
      }
      busy := false;
    }
  }
}
