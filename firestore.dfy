/**
 * The document-store operations of the mall: the word filter, the user
 * profile (creation, location, onboarding, activity), groups and their
 * verification badge, video clips, reports, follows and businesses.
 * Every operation is a sequence of store calls on a `Db`; a thrown error
 * becomes a `Fail`/`Failure` carrying the error's message, and the store
 * calls made before the throw stay made.
 */
module Firestore {
  import opened Wrappers
  import opened JsValue
  import opened DocStore
  import Text

  // ---------------------------------------------------------------------------
  // Content moderation
  // ---------------------------------------------------------------------------

  const InappropriateMaterial := "Content contains inappropriate material. Please use kid-friendly language!"

  /** The case-insensitive patterns `/violence/i`, `/hate/i`, `/abuse/i`, `/explicit/i`. */
  const Patterns: seq<string> := ["violence", "hate", "abuse", "explicit"]

  predicate FlaggedByPatterns(text: string) {
    exists i :: 0 <= i < |Patterns| && Text.TestIgnoringCase(text, Patterns[i])
  }

  /** `moderateText(text)`: throws on the first pattern that matches, otherwise accepts. */
  method ModerateText(text: string) returns (r: Outcome<string>)
    ensures r.Fail? <==> FlaggedByPatterns(text)
    ensures r.Fail? ==> r.error == InappropriateMaterial
  {
    var i := 0;
    while i < |Patterns|
      invariant 0 <= i <= |Patterns|
      invariant forall j :: 0 <= j < i ==> !Text.TestIgnoringCase(text, Patterns[j])
    {
      if Text.TestIgnoringCase(text, Patterns[i]) {
        return Fail(InappropriateMaterial);
      }
      i := i + 1;
    }
    return Pass;
  }

  // ---------------------------------------------------------------------------
  // Locations and area buckets
  // ---------------------------------------------------------------------------

  /** One half of an area id: `Math.floor(x * 100)` as text ("NaN" when `x` is not numeric). */
  function Bucket(x: Option<Value>): (r: string)
    ensures '_' !in r
  {
    match ToNumber(x)
    case None => "NaN"
    case Some(n) => Text.IntToString((n * 100.0).Floor)
  }

  /** `${Math.floor(location.lat * 100)}_${Math.floor(location.lng * 100)}`. */
  function AreaIdOf(location: Option<Value>): string {
    Bucket(Prop(location, "lat")) + "_" + Bucket(Prop(location, "lng"))
  }

  /** `location && typeof location.lat === "number" && typeof location.lng === "number"`. */
  predicate HasNumericLatLng(location: Option<Value>) {
    Truthy(location) && IsNumber(Prop(location, "lat")) && IsNumber(Prop(location, "lng"))
  }

  /** The coordinates pass the test exactly when the location is an object whose `lat` and `lng` are numbers. */
  lemma NumericLatLngIsObject(location: Option<Value>)
    ensures HasNumericLatLng(location) <==>
              && location.Some? && location.value.Obj?
              && "lat" in location.value.fields && location.value.fields["lat"].Num?
              && "lng" in location.value.fields && location.value.fields["lng"].Num?
  {
  }

  /** The coordinate `location[f]` of a location that passed the test. */
  function Coord(location: Option<Value>, f: string): real
    requires IsNumber(Prop(location, f))
  {
    Prop(location, f).value.n
  }

  /** Two locations that pass the test share an area id exactly when they lie in the same 0.01-degree cell. */
  lemma AreaIdIdentifiesCell(a: Option<Value>, b: Option<Value>)
    requires HasNumericLatLng(a) && HasNumericLatLng(b)
    ensures AreaIdOf(a) == AreaIdOf(b) <==>
              && (Coord(a, "lat") * 100.0).Floor == (Coord(b, "lat") * 100.0).Floor
              && (Coord(a, "lng") * 100.0).Floor == (Coord(b, "lng") * 100.0).Floor
  {
    if AreaIdOf(a) == AreaIdOf(b) {
      SplitAtSeparator(Bucket(Prop(a, "lat")), Bucket(Prop(a, "lng")), Bucket(Prop(b, "lat")), Bucket(Prop(b, "lng")));
      Text.IntToStringInjective((Coord(a, "lat") * 100.0).Floor, (Coord(b, "lat") * 100.0).Floor);
      Text.IntToStringInjective((Coord(a, "lng") * 100.0).Floor, (Coord(b, "lng") * 100.0).Floor);
    }
  }

  /** Two texts joined by a separator that neither half contains split back into the same halves. */
  lemma SplitAtSeparator(x1: string, x2: string, y1: string, y2: string)
    requires '_' !in x1 && '_' !in x2 && '_' !in y1 && '_' !in y2
    requires x1 + "_" + x2 == y1 + "_" + y2
    ensures x1 == y1 && x2 == y2
  {
    var s := x1 + "_" + x2;
    assert forall k :: 0 <= k < |x1| ==> s[k] != '_';
    assert forall k :: 0 <= k < |y1| ==> s[k] != '_';
    assert s[|x1|] == '_' && s[|y1|] == '_';
    assert x1 == s[..|x1|] == y1;
    assert x2 == s[|x1| + 1..] == y2;
  }

  // ---------------------------------------------------------------------------
  // User profiles
  // ---------------------------------------------------------------------------

  function UserKey(uid: string): DocKey {
    DocKey("users", uid)
  }

  /** The fields `createUserProfile` may add or override. */
  const NormalisedFields: set<string> := {"areaId", "avatarId", "onboardingComplete", "createdAt", "moderated", "moderatedAt"}

  /** `createUserProfile` moderates a present username and rejects it on a match. */
  predicate UsernameRejected(data: Doc) {
    Truthy(Get(data, "username")) && FlaggedByPatterns(ToText(Get(data, "username")))
  }

  /** `d.f` unless it is undefined, in which case `d.f = v`. */
  function WithDefault(d: Doc, f: string, v: Value): (r: Doc)
    ensures r.Keys == d.Keys + {f}
    ensures r[f] == Get(d, f).GetOr(v)
    ensures forall g :: g in d && g != f ==> r[g] == d[g]
  {
    if f in d then d else d[f := v]
  }

  /** The area-id step of `createUserProfile`: derive `areaId` only when it is falsy and the location is numeric. */
  function WithAreaId(data: Doc): (r: Doc)
    ensures Truthy(Get(data, "areaId")) ==> r == data
    ensures !Truthy(Get(data, "areaId")) && !HasNumericLatLng(Get(data, "location")) ==> r == data
    ensures !Truthy(Get(data, "areaId")) && HasNumericLatLng(Get(data, "location")) ==>
              r == data["areaId" := Str(AreaIdOf(Get(data, "location")))]
  {
    if !Truthy(Get(data, "areaId")) && HasNumericLatLng(Get(data, "location"))
    then data["areaId" := Str(AreaIdOf(Get(data, "location")))]
    else data
  }

  /** The document `createUserProfile(uid, data)` writes. */
  function ProfilePayload(data: Doc, now: Timestamp): (p: Doc)
    ensures data.Keys + (NormalisedFields - {"areaId"}) <= p.Keys
    ensures p["moderated"] == Bool(true) && p["moderatedAt"] == Time(now)
    ensures p["createdAt"] == if Nullish(Get(data, "createdAt")) then Time(now) else data["createdAt"]
    ensures Truthy(Get(data, "areaId")) ==> p["areaId"] == data["areaId"]
    ensures !Truthy(Get(data, "areaId")) && HasNumericLatLng(Get(data, "location")) ==>
              "areaId" in p && p["areaId"] == Str(AreaIdOf(Get(data, "location")))
    ensures !Truthy(Get(data, "areaId")) && !HasNumericLatLng(Get(data, "location")) ==>
              Get(p, "areaId") == Get(data, "areaId")
    ensures p["avatarId"] == Get(data, "avatarId").GetOr(Null)
    ensures p["onboardingComplete"] == Get(data, "onboardingComplete").GetOr(Bool(false))
  {
    var withArea := WithAreaId(data);
    var payload := WithDefault(WithDefault(withArea, "avatarId", Null), "onboardingComplete", Bool(false));
    assert Get(payload, "createdAt") == Get(data, "createdAt");
    var createdAt := if Nullish(Get(payload, "createdAt")) then Time(now) else payload["createdAt"];
    payload["createdAt" := createdAt]["moderated" := Bool(true)]["moderatedAt" := Time(now)]
  }

  /** The stored profile holds every other supplied field unchanged, and nothing else. */
  lemma ProfilePayloadKeepsOthers(data: Doc, now: Timestamp)
    ensures var p := ProfilePayload(data, now);
            && (forall f :: f in data && f !in NormalisedFields ==> f in p && p[f] == data[f])
            && (forall f :: f in p ==> f in data || f in NormalisedFields)
  {
  }

  /** `createUserProfile(uid, data)`. */
  method CreateUserProfile(db: Db, uid: string, data: Doc, now: Timestamp) returns (r: Outcome<string>)
    modifies db
    ensures UsernameRejected(data) ==> r == Fail(InappropriateMaterial) && db.docs == old(db.docs)
    ensures !UsernameRejected(data) ==>
              r == Pass && db.docs == old(db.docs)[UserKey(uid) := ProfilePayload(data, now)]
  {
    var username := Get(data, "username");
    if Truthy(username) {
      var verdict := ModerateText(ToText(username));
      if verdict.Fail? {
        return verdict;
      }
    }
    var payload := data;
    if !Truthy(Get(payload, "areaId")) && HasNumericLatLng(Get(payload, "location")) {
      payload := payload["areaId" := Str(AreaIdOf(Get(payload, "location")))];
    }
    if "avatarId" !in payload {
      payload := payload["avatarId" := Null];
    }
    if "onboardingComplete" !in payload {
      payload := payload["onboardingComplete" := Bool(false)];
    }
    var createdAt := if Nullish(Get(payload, "createdAt")) then Time(now) else payload["createdAt"];
    db.SetDoc(UserKey(uid), payload["createdAt" := createdAt]["moderated" := Bool(true)]["moderatedAt" := Time(now)]);
    r := Pass;
  }

  /** The TypeError raised by reading `lat` of null or undefined. */
  function CannotReadLat(location: Option<Value>): string {
    "Cannot read properties of " + (if location.None? then "undefined" else "null") + " (reading 'lat')"
  }

  function LocationWrites(location: Value, now: Timestamp): map<string, FieldWrite> {
    map["location" := Put(location),
        "areaId" := Put(Str(AreaIdOf(Some(location)))),
        "locationUpdatedAt" := Put(Time(now))]
  }

  /** `updateUserLocation(uid, location)`. */
  method UpdateUserLocation(db: Db, uid: string, location: Option<Value>, now: Timestamp) returns (r: Outcome<string>)
    modifies db
    ensures Nullish(location) ==> r == Fail(CannotReadLat(location)) && db.docs == old(db.docs)
    ensures !Nullish(location) && UserKey(uid) !in old(db.docs) ==>
              r == Fail(NoDocumentToUpdate(UserKey(uid))) && db.docs == old(db.docs)
    ensures !Nullish(location) && UserKey(uid) in old(db.docs) ==>
              r == Pass
              && db.docs == old(db.docs)[UserKey(uid) := Merge(old(db.docs)[UserKey(uid)], LocationWrites(location.value, now))]
  {
    if Nullish(location) {
      return Fail(CannotReadLat(location));
    }
    r := db.UpdateDoc(UserKey(uid), LocationWrites(location.value, now));
  }

  // ---------------------------------------------------------------------------
  // Onboarding (guardian consent)
  // ---------------------------------------------------------------------------

  const SupervisionRequired := "Parent supervision must be confirmed."
  const GuardianFieldsRequired := "Parent name, contact and government ID are required."

  /** The argument object of `completeOnboarding`; `None` is a property left undefined. */
  datatype OnboardingForm = OnboardingForm(
    parentName: Option<string>,
    parentContact: Option<string>,
    parentNearby: Option<bool>,
    governmentId: Option<string>)
  {
    // The destructuring defaults: "" for the strings, true for parentNearby.
    function Name(): string { parentName.GetOr("") }
    function Contact(): string { parentContact.GetOr("") }
    function Nearby(): bool { parentNearby.GetOr(true) }
    function GovernmentId(): string { governmentId.GetOr("") }
  }

  /** The checks `completeOnboarding` makes before writing, in their order. */
  function OnboardingCheck(form: OnboardingForm): (r: Outcome<string>)
    ensures r == Pass <==> form.Nearby() && form.Name() != "" && form.Contact() != "" && form.GovernmentId() != ""
    ensures !form.Nearby() ==> r == Fail(SupervisionRequired)
    ensures form.Nearby() && (form.Name() == "" || form.Contact() == "" || form.GovernmentId() == "") ==>
              r == Fail(GuardianFieldsRequired)
  {
    if !form.Nearby() then Fail(SupervisionRequired)
    else if form.Name() == "" || form.Contact() == "" || form.GovernmentId() == "" then Fail(GuardianFieldsRequired)
    else Pass
  }

  /** The stored `onboarding` record. */
  function OnboardingRecord(form: OnboardingForm, now: Timestamp): Value {
    Obj(map["parentName" := Str(form.Name()),
            "parentContact" := Str(form.Contact()),
            "parentNearby" := Bool(form.Nearby()),
            "governmentId" := Str(form.GovernmentId()),
            "completedAt" := Time(now)])
  }

  function OnboardingWrites(form: OnboardingForm, now: Timestamp): map<string, FieldWrite> {
    map["onboardingComplete" := Put(Bool(true)),
        "onboarding" := Put(OnboardingRecord(form, now)),
        "lastActive" := Put(Time(now))]
  }

  /** `completeOnboarding(uid, form)`. */
  method CompleteOnboarding(db: Db, uid: string, form: OnboardingForm, now: Timestamp) returns (r: Outcome<string>)
    modifies db
    ensures OnboardingCheck(form).Fail? ==> r == OnboardingCheck(form) && db.docs == old(db.docs)
    ensures OnboardingCheck(form).Pass? && UserKey(uid) !in old(db.docs) ==>
              r == Fail(NoDocumentToUpdate(UserKey(uid))) && db.docs == old(db.docs)
    ensures OnboardingCheck(form).Pass? && UserKey(uid) in old(db.docs) ==>
              r == Pass
              && db.docs == old(db.docs)[UserKey(uid) := Merge(old(db.docs)[UserKey(uid)], OnboardingWrites(form, now))]
  {
    if !form.Nearby() {
      return Fail(SupervisionRequired);
    }
    if form.Name() == "" || form.Contact() == "" || form.GovernmentId() == "" {
      return Fail(GuardianFieldsRequired);
    }
    r := db.UpdateDoc(UserKey(uid), OnboardingWrites(form, now));
  }

  /** A consent record: supervision confirmed and the three guardian fields non-empty. */
  predicate IsConsentRecord(v: Value) {
    && v.Obj?
    && Get(v.fields, "parentNearby") == Some(Bool(true))
    && Truthy(Get(v.fields, "parentName"))
    && Truthy(Get(v.fields, "parentContact"))
    && Truthy(Get(v.fields, "governmentId"))
    && "completedAt" in v.fields
  }

  /** A profile claims completed onboarding exactly when it holds a consent record. */
  predicate ConsentConsistent(profile: Doc) {
    (Get(profile, "onboardingComplete") == Some(Bool(true)))
    <==> ("onboarding" in profile && IsConsentRecord(profile["onboarding"]))
  }

  /** A successful `completeOnboarding` marks the profile complete, stores a consent record and touches only `lastActive` besides. */
  lemma OnboardingEstablishesConsent(profile: Doc, form: OnboardingForm, now: Timestamp)
    requires OnboardingCheck(form) == Pass
    ensures var p := Merge(profile, OnboardingWrites(form, now));
            && p["onboardingComplete"] == Bool(true)
            && ConsentConsistent(p)
            && p["onboarding"] == OnboardingRecord(form, now)
            && (forall f :: f in profile && f !in {"onboardingComplete", "onboarding", "lastActive"} ==> f in p && p[f] == profile[f])
  {
    var rec := OnboardingRecord(form, now);
    assert IsConsentRecord(rec);
  }

  /** Any update that writes neither flag nor record keeps a consistent profile consistent. */
  lemma OtherUpdatesPreserveConsent(profile: Doc, writes: map<string, FieldWrite>)
    requires ConsentConsistent(profile)
    requires "onboardingComplete" !in writes && "onboarding" !in writes
    ensures ConsentConsistent(Merge(profile, writes))
  {
    var p := Merge(profile, writes);
    assert Get(p, "onboardingComplete") == Get(profile, "onboardingComplete");
  }

  /** Nothing stops a second `completeOnboarding` from replacing the stored record. */
  lemma SecondOnboardingOverwrites(profile: Doc, first: OnboardingForm, second: OnboardingForm, t1: Timestamp, t2: Timestamp)
    ensures Merge(Merge(profile, OnboardingWrites(first, t1)), OnboardingWrites(second, t2))["onboarding"]
            == OnboardingRecord(second, t2)
  {
  }

  // ---------------------------------------------------------------------------
  // Activity score
  // ---------------------------------------------------------------------------

  function ActivityWrites(points: real, now: Timestamp): map<string, FieldWrite> {
    map["activityScore" := Increment(points), "lastActive" := Put(Time(now))]
  }

  /** `updateActivityScore(uid, points)`. */
  method UpdateActivityScore(db: Db, uid: string, points: real, now: Timestamp) returns (r: Outcome<string>)
    modifies db
    ensures r == (if UserKey(uid) in old(db.docs) then Pass else Fail(NoDocumentToUpdate(UserKey(uid))))
    ensures db.docs == if UserKey(uid) in old(db.docs)
                       then old(db.docs)[UserKey(uid) := Merge(old(db.docs)[UserKey(uid)], ActivityWrites(points, now))]
                       else old(db.docs)
  {
    r := db.UpdateDoc(UserKey(uid), ActivityWrites(points, now));
  }

  /** The profile after `n` successive `updateActivityScore(uid, points)` calls. */
  function Bumped(profile: Doc, n: nat, points: real, now: Timestamp): Doc
    decreases n
  {
    if n == 0 then profile else Merge(Bumped(profile, n - 1, points, now), ActivityWrites(points, now))
  }

  /** One bump adds the points to a numeric score. */
  lemma BumpOnce(profile: Doc, score: real, points: real, now: Timestamp)
    requires Get(profile, "activityScore") == Some(Num(score))
    ensures Get(Merge(profile, ActivityWrites(points, now)), "activityScore") == Some(Num(score + points))
  {
  }

  lemma OneMoreTimes(start: real, m: nat, x: real)
    ensures start + (m as real) * x + x == start + ((m + 1) as real) * x
  {
  }

  /** Successive bumps of a numeric score add up. */
  lemma {:induction false} BumpsAccumulate(profile: Doc, start: real, n: nat, points: real, now: Timestamp)
    requires Get(profile, "activityScore") == Some(Num(start))
    ensures Get(Bumped(profile, n, points, now), "activityScore") == Some(Num(start + (n as real) * points))
    decreases n
  {
    if n > 0 {
      var m: nat := n - 1;
      var before := Bumped(profile, m, points, now);
      BumpsAccumulate(profile, start, m, points, now);
      BumpOnce(before, start + (m as real) * points, points, now);
      assert Bumped(profile, m + 1, points, now) == Merge(before, ActivityWrites(points, now));
      var after := start + (m as real) * points + points;
      assert Get(Bumped(profile, n, points, now), "activityScore") == Some(Num(after));
      OneMoreTimes(start, m, points);
      assert after == start + (n as real) * points;
    }
  }

  // ---------------------------------------------------------------------------
  // Groups
  // ---------------------------------------------------------------------------

  const NeedMoreActivity := "You need more activity to create a group. Keep engaging with the community!"

  /** The activity gate of `createGroup`: it rejects `!userData || userData.activityScore < 50`. */
  predicate MayCreateGroup(user: Option<Doc>) {
    user.Some? && !LessThan(Get(user.value, "activityScore"), 50.0)
  }

  /** The checks `createGroup` makes before writing, in their order. */
  function GroupCheck(groupData: Doc, user: Option<Doc>): (r: Outcome<string>)
    ensures r == Pass <==>
              && !FlaggedByPatterns(ToText(Get(groupData, "name")))
              && !(Truthy(Get(groupData, "description")) && FlaggedByPatterns(ToText(Get(groupData, "description"))))
              && MayCreateGroup(user)
    ensures FlaggedByPatterns(ToText(Get(groupData, "name"))) ==> r == Fail(InappropriateMaterial)
    ensures Truthy(Get(groupData, "description")) && FlaggedByPatterns(ToText(Get(groupData, "description"))) ==>
              r == Fail(InappropriateMaterial)
    ensures r.Fail? && r.error == NeedMoreActivity ==>
              && !FlaggedByPatterns(ToText(Get(groupData, "name")))
              && !(Truthy(Get(groupData, "description")) && FlaggedByPatterns(ToText(Get(groupData, "description"))))
    ensures && !FlaggedByPatterns(ToText(Get(groupData, "name")))
            && !(Truthy(Get(groupData, "description")) && FlaggedByPatterns(ToText(Get(groupData, "description"))))
            && !MayCreateGroup(user) ==>
              r == Fail(NeedMoreActivity)
    ensures r.Fail? && r.error != NeedMoreActivity ==> r.error == InappropriateMaterial
  {
    if FlaggedByPatterns(ToText(Get(groupData, "name"))) then Fail(InappropriateMaterial)
    else if Truthy(Get(groupData, "description")) && FlaggedByPatterns(ToText(Get(groupData, "description")))
    then Fail(InappropriateMaterial)
    else if !MayCreateGroup(user) then Fail(NeedMoreActivity)
    else Pass
  }

  /** The document `createGroup` writes for its creator. */
  function NewGroupDoc(groupData: Doc, userId: string, now: Timestamp): Doc {
    groupData + map["ownerId" := Str(userId),
                    "createdAt" := Time(now),
                    "members" := List([Str(userId)]),
                    "memberCount" := Num(1.0),
                    "verified" := Bool(false),
                    "verificationPending" := Bool(false),
                    "moderated" := Bool(true),
                    "moderatedAt" := Time(now)]
  }

  /** `createGroup(userId, groupData)`; `newId` is the id the store generates. */
  method CreateGroup(db: Db, userId: string, groupData: Doc, newId: string, now: Timestamp) returns (r: Result<string, string>)
    modifies db
    ensures GroupCheck(groupData, old(db.Read(UserKey(userId)))).Fail? ==>
              r == Failure(GroupCheck(groupData, old(db.Read(UserKey(userId)))).error) && db.docs == old(db.docs)
    ensures GroupCheck(groupData, old(db.Read(UserKey(userId)))).Pass? ==>
              r == Success(newId) && db.docs == old(db.docs)[DocKey("groups", newId) := NewGroupDoc(groupData, userId, now)]
  {
    var verdict := ModerateText(ToText(Get(groupData, "name")));
    if verdict.Fail? {
      return Failure(verdict.error);
    }
    if Truthy(Get(groupData, "description")) {
      verdict := ModerateText(ToText(Get(groupData, "description")));
      if verdict.Fail? {
        return Failure(verdict.error);
      }
    }
    var userData := db.Read(UserKey(userId));
    if userData.None? || LessThan(Get(userData.value, "activityScore"), 50.0) {
      return Failure(NeedMoreActivity);
    }
    db.SetDoc(DocKey("groups", newId), NewGroupDoc(groupData, userId, now));
    r := Success(newId);
  }

  /** The activity gate opens exactly at a numeric score of 50. */
  lemma GroupThreshold(profile: Doc, score: real)
    ensures MayCreateGroup(Some(profile["activityScore" := Num(score)])) <==> score >= 50.0
    ensures MayCreateGroup(Some(profile["activityScore" := List([Num(score)])])) <==> score >= 50.0
    ensures !MayCreateGroup(None)
  {
  }

  /** `undefined < 50` is false, so a profile without any activity score passes the gate. */
  lemma MissingScorePassesGate(profile: Doc)
    requires "activityScore" !in profile
    ensures MayCreateGroup(Some(profile))
  {
  }

  /** From a score of 0, ten or more clip uploads (5 points each) reach the group threshold, and fewer do not. */
  lemma UploadsUnlockGroups(profile: Doc, uploads: nat, now: Timestamp)
    requires Get(profile, "activityScore") == Some(Num(0.0))
    ensures MayCreateGroup(Some(Bumped(profile, uploads, 5.0, now))) <==> uploads >= 10
  {
    BumpsAccumulate(profile, 0.0, uploads, 5.0, now);
    var score := 0.0 + (uploads as real) * 5.0;
    assert score >= 50.0 <==> uploads >= 10;
    NumericScoreGate(Bumped(profile, uploads, 5.0, now), score);
  }

  /** A profile whose score is the number `score` passes the gate exactly at 50 or above. */
  lemma NumericScoreGate(profile: Doc, score: real)
    requires Get(profile, "activityScore") == Some(Num(score))
    ensures MayCreateGroup(Some(profile)) <==> score >= 50.0
  {
  }

  // ---------------------------------------------------------------------------
  // Group verification badge
  // ---------------------------------------------------------------------------

  const OnlyOwner := "Only the group owner can apply for verification"
  const AlreadyVerified := "Group is already verified"
  const AlreadyPending := "Verification application is already pending"

  /** The checks `applyForVerification` makes, in their order. */
  function VerificationCheck(group: Option<Doc>, userId: string): (r: Outcome<string>)
    ensures r == Pass <==>
              && group.Some? && Get(group.value, "ownerId") == Some(Str(userId))
              && !Truthy(Get(group.value, "verified")) && !Truthy(Get(group.value, "verificationPending"))
    ensures group.None? || Get(group.value, "ownerId") != Some(Str(userId)) ==> r == Fail(OnlyOwner)
    ensures group.Some? && Get(group.value, "ownerId") == Some(Str(userId)) && Truthy(Get(group.value, "verified")) ==>
              r == Fail(AlreadyVerified)
    ensures group.Some? && Get(group.value, "ownerId") == Some(Str(userId)) && !Truthy(Get(group.value, "verified"))
              && Truthy(Get(group.value, "verificationPending")) ==>
              r == Fail(AlreadyPending)
  {
    if group.None? || Get(group.value, "ownerId") != Some(Str(userId)) then Fail(OnlyOwner)
    else if Truthy(Get(group.value, "verified")) then Fail(AlreadyVerified)
    else if Truthy(Get(group.value, "verificationPending")) then Fail(AlreadyPending)
    else Pass
  }

  function VerificationWrites(now: Timestamp): map<string, FieldWrite> {
    map["verificationPending" := Put(Bool(true)), "verificationAppliedAt" := Put(Time(now))]
  }

  /** `applyForVerification(groupId, userId)`. */
  method ApplyForVerification(db: Db, groupId: string, userId: string, now: Timestamp) returns (r: Outcome<string>)
    modifies db
    ensures r == VerificationCheck(old(db.Read(DocKey("groups", groupId))), userId)
    ensures r.Fail? ==> db.docs == old(db.docs)
    ensures r.Pass? ==> db.docs == old(db.docs)[DocKey("groups", groupId) :=
                          Merge(old(db.docs)[DocKey("groups", groupId)], VerificationWrites(now))]
  {
    var key := DocKey("groups", groupId);
    var groupData := db.Read(key);
    if groupData.None? || Get(groupData.value, "ownerId") != Some(Str(userId)) {
      return Fail(OnlyOwner);
    }
    if Truthy(Get(groupData.value, "verified")) {
      return Fail(AlreadyVerified);
    }
    if Truthy(Get(groupData.value, "verificationPending")) {
      return Fail(AlreadyPending);
    }
    r := db.UpdateDoc(key, VerificationWrites(now));
  }

  /**
   * A freshly created group may apply for the badge, by its creator only,
   * and once it has applied a second application fails as pending.
   */
  lemma VerificationOncePerGroup(groupData: Doc, owner: string, other: string, t1: Timestamp, t2: Timestamp)
    requires other != owner
    ensures VerificationCheck(Some(NewGroupDoc(groupData, owner, t1)), owner) == Pass
    ensures VerificationCheck(Some(NewGroupDoc(groupData, owner, t1)), other) == Fail(OnlyOwner)
    ensures VerificationCheck(Some(Merge(NewGroupDoc(groupData, owner, t1), VerificationWrites(t2))), owner)
            == Fail(AlreadyPending)
  {
    var g := NewGroupDoc(groupData, owner, t1);
    assert Get(g, "ownerId") == Some(Str(owner));
    assert Get(g, "verified") == Some(Bool(false));
    assert Get(g, "verificationPending") == Some(Bool(false));
    var applied := Merge(g, VerificationWrites(t2));
    assert Get(applied, "ownerId") == Some(Str(owner));
    assert Get(applied, "verificationPending") == Some(Bool(true));
  }

  // ---------------------------------------------------------------------------
  // Video clips, reports, businesses, follows
  // ---------------------------------------------------------------------------

  /** Moderation of a title or name that is always checked, plus a description checked only when present. */
  predicate TextsRejected(required: Option<Value>, optional: Option<Value>) {
    FlaggedByPatterns(ToText(required)) || (Truthy(optional) && FlaggedByPatterns(ToText(optional)))
  }

  function NewClipDoc(clipData: Doc, userId: string, now: Timestamp): Doc {
    clipData + map["userId" := Str(userId),
                   "uploadedAt" := Time(now),
                   "views" := Num(0.0),
                   "likes" := Num(0.0),
                   "reports" := Num(0.0),
                   "moderated" := Bool(true),
                   "moderatedAt" := Time(now),
                   "approved" := Bool(true)]
  }

  /** `uploadVideoClip(userId, clipData)`: write the clip, then add 5 to the uploader's activity. */
  method UploadVideoClip(db: Db, userId: string, clipData: Doc, newId: string, now: Timestamp) returns (r: Result<string, string>)
    modifies db
    ensures TextsRejected(Get(clipData, "title"), Get(clipData, "description")) ==>
              r == Failure(InappropriateMaterial) && db.docs == old(db.docs)
    ensures !TextsRejected(Get(clipData, "title"), Get(clipData, "description")) ==>
              var withClip := old(db.docs)[DocKey("clips", newId) := NewClipDoc(clipData, userId, now)];
              if UserKey(userId) in withClip then
                r == Success(newId)
                && db.docs == withClip[UserKey(userId) := Merge(withClip[UserKey(userId)], ActivityWrites(5.0, now))]
              else
                r == Failure(NoDocumentToUpdate(UserKey(userId))) && db.docs == withClip
  {
    var verdict := ModerateText(ToText(Get(clipData, "title")));
    if verdict.Fail? {
      return Failure(verdict.error);
    }
    if Truthy(Get(clipData, "description")) {
      verdict := ModerateText(ToText(Get(clipData, "description")));
      if verdict.Fail? {
        return Failure(verdict.error);
      }
    }
    db.SetDoc(DocKey("clips", newId), NewClipDoc(clipData, userId, now));
    var bumped := UpdateActivityScore(db, userId, 5.0, now);
    if bumped.Fail? {
      return Failure(bumped.error);
    }
    r := Success(newId);
  }

  function ReportDoc(contentId: string, contentType: string, reason: Value, now: Timestamp): Doc {
    map["contentId" := Str(contentId),
        "contentType" := Str(contentType),
        "reason" := reason,
        "reportedAt" := Time(now),
        "status" := Str("pending"),
        "reviewed" := Bool(false)]
  }

  const ReportWrites: map<string, FieldWrite> := map["reports" := Increment(1.0)]

  /** `reportContent(contentId, contentType, reason)`: file the report, then bump the content's `reports`. */
  method ReportContent(db: Db, contentId: string, contentType: string, reason: Value, newId: string, now: Timestamp)
    returns (r: Outcome<string>)
    modifies db
    ensures var filed := old(db.docs)[DocKey("reports", newId) := ReportDoc(contentId, contentType, reason, now)];
            var target := DocKey(contentType + "s", contentId);
            if target in filed then
              r == Pass && db.docs == filed[target := Merge(filed[target], ReportWrites)]
            else
              r == Fail(NoDocumentToUpdate(target)) && db.docs == filed
  {
    db.SetDoc(DocKey("reports", newId), ReportDoc(contentId, contentType, reason, now));
    r := db.UpdateDoc(DocKey(contentType + "s", contentId), ReportWrites);
  }

  /** Reporting a user bumps `reports`, not the `reportCount` that sign-up initialises. */
  lemma ReportLeavesReportCount(profile: Doc)
    ensures Get(Merge(profile, ReportWrites), "reportCount") == Get(profile, "reportCount")
    ensures Get(profile, "reports") == None ==> Merge(profile, ReportWrites)["reports"] == Num(1.0)
  {
  }

  function NewBusinessDoc(businessData: Doc, userId: string, now: Timestamp): Doc {
    businessData + map["ownerId" := Str(userId),
                       "createdAt" := Time(now),
                       "approved" := Bool(false),
                       "verificationPending" := Bool(true),
                       "followers" := Num(0.0),
                       "rating" := Num(0.0),
                       "moderated" := Bool(true),
                       "moderatedAt" := Time(now)]
  }

  /** `applyForBusiness(userId, businessData)`: name, description and category are all moderated. */
  method ApplyForBusiness(db: Db, userId: string, businessData: Doc, newId: string, now: Timestamp) returns (r: Result<string, string>)
    modifies db
    ensures var rejected := FlaggedByPatterns(ToText(Get(businessData, "name")))
                            || FlaggedByPatterns(ToText(Get(businessData, "description")))
                            || FlaggedByPatterns(ToText(Get(businessData, "category")));
            if rejected then r == Failure(InappropriateMaterial) && db.docs == old(db.docs)
            else r == Success(newId)
                 && db.docs == old(db.docs)[DocKey("businesses", newId) := NewBusinessDoc(businessData, userId, now)]
  {
    var verdict := ModerateText(ToText(Get(businessData, "name")));
    if verdict.Fail? {
      return Failure(verdict.error);
    }
    verdict := ModerateText(ToText(Get(businessData, "description")));
    if verdict.Fail? {
      return Failure(verdict.error);
    }
    verdict := ModerateText(ToText(Get(businessData, "category")));
    if verdict.Fail? {
      return Failure(verdict.error);
    }
    db.SetDoc(DocKey("businesses", newId), NewBusinessDoc(businessData, userId, now));
    r := Success(newId);
  }

  const FollowerWrites: map<string, FieldWrite> := map["followers" := Increment(1.0)]

  function FollowDoc(userId: string, entityId: string, entityType: string, now: Timestamp): Doc {
    map["followerId" := Str(userId),
        "followingId" := Str(entityId),
        "entityType" := Str(entityType),
        "createdAt" := Time(now)]
  }

  /** The document whose `followers` a follow bumps: a user for "user", a business otherwise. */
  function FollowTarget(entityId: string, entityType: string): DocKey {
    DocKey(if entityType == "user" then "users" else "businesses", entityId)
  }

  /** `followEntity(userId, entityId, entityType)`: record, bump the followed entity, then the follower's activity. */
  method FollowEntity(db: Db, userId: string, entityId: string, entityType: string, newId: string, now: Timestamp)
    returns (r: Outcome<string>)
    modifies db
    ensures var recorded := old(db.docs)[DocKey("follows", newId) := FollowDoc(userId, entityId, entityType, now)];
            var target := FollowTarget(entityId, entityType);
            if target !in recorded then
              r == Fail(NoDocumentToUpdate(target)) && db.docs == recorded
            else
              var followed := recorded[target := Merge(recorded[target], FollowerWrites)];
              if UserKey(userId) in followed then
                r == Pass
                && db.docs == followed[UserKey(userId) := Merge(followed[UserKey(userId)], ActivityWrites(1.0, now))]
              else
                r == Fail(NoDocumentToUpdate(UserKey(userId))) && db.docs == followed
  {
    db.SetDoc(DocKey("follows", newId), FollowDoc(userId, entityId, entityType, now));
    r := db.UpdateDoc(FollowTarget(entityId, entityType), FollowerWrites);
    if r.Fail? {
      return;
    }
    r := UpdateActivityScore(db, userId, 1.0, now);
  }

  /** `increment(1)` on the follower list a profile starts with replaces the list by the number 1. */
  lemma FollowReplacesFollowerList(profile: Doc, followers: seq<Value>)
    requires Get(profile, "followers") == Some(List(followers))
    ensures Merge(profile, FollowerWrites)["followers"] == Num(1.0)
  {
  }
}
