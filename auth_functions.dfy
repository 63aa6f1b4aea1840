/**
 * Sign-up: the username and location checks and the word filter run, in
 * that order, before the auth service is asked for an account; a new
 * account then gets a profile document with fixed initial values. The
 * auth service's answer to `createUserWithEmailAndPassword` is an input.
 */
module AuthFunctions {
  import opened Wrappers
  import opened JsValue
  import opened DocStore
  import opened Identity
  import Text
  import Firestore

  const InappropriateUsername := "Username contains inappropriate content. Please choose a kid-friendly name!"
  const UsernameRequired := "Username is required for sign up."
  const LocationRequired := "Location is required for sign up. Please pin your location."

  const InappropriateWords: seq<string> := ["violence", "hate", "abuse", "explicit"]

  /** `String(text || "")`. */
  function ContentText(text: Option<Value>): string {
    if Truthy(text) then ToText(text) else ""
  }

  /** Some listed word is a substring of the lower-cased text. */
  predicate FlaggedWords(text: string) {
    exists i :: 0 <= i < |InappropriateWords| && Text.Includes(Text.Lower(text), InappropriateWords[i])
  }

  /** `moderateContent(text)`: throws on the first listed word the lower-cased text includes. */
  method ModerateContent(text: Option<Value>) returns (r: Outcome<string>)
    ensures r.Fail? <==> FlaggedWords(ContentText(text))
    ensures r.Fail? ==> r.error == InappropriateUsername
  {
    var lowerText := Text.Lower(ContentText(text));
    var i := 0;
    while i < |InappropriateWords|
      invariant 0 <= i <= |InappropriateWords|
      invariant forall j :: 0 <= j < i ==> !Text.Includes(lowerText, InappropriateWords[j])
    {
      if Text.Includes(lowerText, InappropriateWords[i]) {
        return Fail(InappropriateUsername);
      }
      i := i + 1;
    }
    return Pass;
  }

  /** The sign-up word filter and the store's pattern filter reject exactly the same texts. */
  lemma ModerationFiltersAgree(text: string)
    ensures FlaggedWords(text) <==> Firestore.FlaggedByPatterns(text)
  {
    assert InappropriateWords == Firestore.Patterns;
    Text.LowerOfLowerCase("violence");
    Text.LowerOfLowerCase("hate");
    Text.LowerOfLowerCase("abuse");
    Text.LowerOfLowerCase("explicit");
    forall i | 0 <= i < |InappropriateWords|
      ensures Text.Includes(Text.Lower(text), InappropriateWords[i]) <==> Text.TestIgnoringCase(text, Firestore.Patterns[i])
    {
      Text.TestIgnoringCaseIsLowerIncludes(text, Firestore.Patterns[i]);
    }
  }

  /** The checks `signup` makes before asking for an account, in their order. */
  function SignupCheck(username: string, location: Option<Value>): (r: Outcome<string>)
    ensures r == Pass <==> username != "" && Firestore.HasNumericLatLng(location) && !FlaggedWords(username)
    ensures username == "" ==> r == Fail(UsernameRequired)
    ensures username != "" && !Firestore.HasNumericLatLng(location) ==> r == Fail(LocationRequired)
    ensures username != "" && Firestore.HasNumericLatLng(location) && FlaggedWords(username) ==> r == Fail(InappropriateUsername)
  {
    if username == "" then Fail(UsernameRequired)
    else if !Firestore.HasNumericLatLng(location) then Fail(LocationRequired)
    else if FlaggedWords(username) then Fail(InappropriateUsername)
    else Pass
  }

  /** What `signup` returns or rethrows, given the auth service's answer. */
  function SignupOutcome(username: string, location: Option<Value>, account: Result<User, string>): Result<User, string> {
    match SignupCheck(username, location)
    case Fail(e) => Failure(e)
    case Pass => account
  }

  /** `avatarId ?? null`. */
  function AvatarOrNull(avatarId: Option<Value>): Value {
    if Nullish(avatarId) then Null else avatarId.value
  }

  /** The profile data `signup` hands to `createUserProfile`. */
  function SignupProfile(user: User, username: string, location: Option<Value>, avatarId: Option<Value>, now: Timestamp): Doc
    requires Firestore.HasNumericLatLng(location)
  {
    map["email" := Str(user.email),
        "username" := Str(username),
        "avatarId" := AvatarOrNull(avatarId),
        "location" := location.value,
        "areaId" := Str(Firestore.AreaIdOf(location)),
        "createdAt" := Time(now),
        "activityScore" := Num(0.0),
        "following" := List([]),
        "followers" := List([]),
        "isActive" := Bool(true),
        "verified" := Bool(false),
        "reportCount" := Num(0.0),
        "lastActive" := Time(now)]
  }

  /**
   * The stored sign-up profile keeps the area id `signup` computed, is not
   * yet marked onboarded and carries no consent record.
   */
  lemma SignupProfileAwaitsOnboarding(user: User, username: string, location: Option<Value>, avatarId: Option<Value>, now: Timestamp)
    requires Firestore.HasNumericLatLng(location)
    ensures var p := Firestore.ProfilePayload(SignupProfile(user, username, location, avatarId, now), now);
            && p["onboardingComplete"] == Bool(false)
            && "onboarding" !in p
            && Firestore.ConsentConsistent(p)
            && p["areaId"] == Str(Firestore.AreaIdOf(location))
  {
    var data := SignupProfile(user, username, location, avatarId, now);
    assert "areaId" in data && data["areaId"] == Str(Firestore.AreaIdOf(location));
    assert Truthy(Get(data, "areaId"));
    assert "onboardingComplete" !in data && "onboarding" !in data;
    var p := Firestore.ProfilePayload(data, now);
    Firestore.ProfilePayloadKeepsOthers(data, now);
    assert "onboarding" !in p;
  }

  /** A new account starts with no activity, no follows and no reports. */
  lemma SignupProfileInitialValues(user: User, username: string, location: Option<Value>, avatarId: Option<Value>, now: Timestamp)
    requires Firestore.HasNumericLatLng(location)
    ensures var p := Firestore.ProfilePayload(SignupProfile(user, username, location, avatarId, now), now);
            && p["activityScore"] == Num(0.0) && p["reportCount"] == Num(0.0)
            && p["following"] == List([]) && p["followers"] == List([])
  {
    var data := SignupProfile(user, username, location, avatarId, now);
    KeptBySignupWrite(data, now, "activityScore");
    KeptBySignupWrite(data, now, "reportCount");
    KeptBySignupWrite(data, now, "following");
    KeptBySignupWrite(data, now, "followers");
  }

  lemma KeptBySignupWrite(data: Doc, now: Timestamp, f: string)
    requires f in data && f in {"activityScore", "reportCount", "following", "followers", "isActive", "verified"}
    ensures f in Firestore.ProfilePayload(data, now) && Firestore.ProfilePayload(data, now)[f] == data[f]
  {
    Firestore.ProfilePayloadKeepsOthers(data, now);
    assert f !in Firestore.NormalisedFields;
  }

  /**
   * A new account is active and unverified, its avatar is the chosen one or
   * null, and it is stamped as created and moderated now.
   */
  lemma SignupProfileStatus(user: User, username: string, location: Option<Value>, avatarId: Option<Value>, now: Timestamp)
    requires Firestore.HasNumericLatLng(location)
    ensures var p := Firestore.ProfilePayload(SignupProfile(user, username, location, avatarId, now), now);
            && p["isActive"] == Bool(true) && p["verified"] == Bool(false)
            && p["avatarId"] == AvatarOrNull(avatarId)
            && p["moderated"] == Bool(true) && p["createdAt"] == Time(now)
  {
    var data := SignupProfile(user, username, location, avatarId, now);
    KeptBySignupWrite(data, now, "isActive");
    KeptBySignupWrite(data, now, "verified");
    assert Get(data, "avatarId") == Some(AvatarOrNull(avatarId));
    assert Get(data, "createdAt") == Some(Time(now));
  }

  /** `signup(email, password, username, location, avatarId)`; `account` is the auth service's answer. */
  method Signup(db: Db, username: string, location: Option<Value>, avatarId: Option<Value>, account: Result<User, string>, now: Timestamp)
    returns (r: Result<User, string>, accountRequested: bool)
    modifies db
    ensures accountRequested <==> SignupCheck(username, location) == Pass
    ensures r == SignupOutcome(username, location, account)
    ensures !(accountRequested && account.Success?) ==> db.docs == old(db.docs)
    ensures accountRequested && account.Success? ==>
              db.docs == old(db.docs)[Firestore.UserKey(account.value.uid) :=
                           Firestore.ProfilePayload(SignupProfile(account.value, username, location, avatarId, now), now)]
  {
    if username == "" {
      return Failure(UsernameRequired), false;
    }
    if !Firestore.HasNumericLatLng(location) {
      return Failure(LocationRequired), false;
    }
    var verdict := ModerateContent(Some(Str(username)));
    if verdict.Fail? {
      return Failure(verdict.error), false;
    }
    accountRequested := true;
    if account.Failure? {
      return account, accountRequested;
    }
    var user := account.value;
    var data := SignupProfile(user, username, location, avatarId, now);
    ModerationFiltersAgree(username);
    assert !Firestore.UsernameRejected(data);
    // The profile write cannot be refused: its username already passed the equivalent filter.
    var written := Firestore.CreateUserProfile(db, user.uid, data, now);
    assert written == Pass;
    r := account;
  }
}
