/**
 * The home page: on every change of the signed-in user it reads the user's
 * profile and shows the consent modal when the profile exists and is not
 * marked onboarded; the game and shop cards ask the interaction gate for a
 * user before acting.
 */
module Home {
  import opened Wrappers
  import opened JsValue
  import opened DocStore
  import opened Identity
  import Text
  import Interaction
  import Firestore
  import AuthFunctions
  import ConsentModal

  /** `data && data.onboardingComplete !== true`: the consent modal is due. */
  function NeedsOnboarding(data: Option<Doc>): (due: bool)
    ensures data.None? ==> !due
    ensures data.Some? && "onboardingComplete" !in data.value ==> due
    ensures data.Some? && "onboardingComplete" in data.value ==>
              (due <==> data.value["onboardingComplete"] != Bool(true))
  {
    data.Some? && Get(data.value, "onboardingComplete") != Some(Bool(true))
  }

  /** For a profile whose flag agrees with its consent record, the modal is due exactly when no consent is stored. */
  lemma ModalDueIffNoConsent(profile: Doc)
    requires Firestore.ConsentConsistent(profile)
    ensures NeedsOnboarding(Some(profile)) <==> !("onboarding" in profile && Firestore.IsConsentRecord(profile["onboarding"]))
    ensures !NeedsOnboarding(None)
  {
  }

  /** The profile a sign-up stores makes the modal due. */
  lemma FreshSignupNeedsOnboarding(user: User, username: string, location: Option<Value>, avatarId: Option<Value>, now: Timestamp)
    requires Firestore.HasNumericLatLng(location)
    ensures NeedsOnboarding(Some(Firestore.ProfilePayload(AuthFunctions.SignupProfile(user, username, location, avatarId, now), now)))
  {
    AuthFunctions.SignupProfileAwaitsOnboarding(user, username, location, avatarId, now);
  }

  /** Once the modal's consent is stored, the modal is no longer due, whatever other fields later updates touch. */
  lemma ConsentEndsOnboarding(profile: Doc, nearby: bool, name: string, contact: string, governmentId: string, now: Timestamp,
                              later: map<string, FieldWrite>)
    requires ConsentModal.ConsentCheck(nearby, name, contact, governmentId) == Pass
    requires "onboardingComplete" !in later && "onboarding" !in later
    ensures var p := Merge(profile, Firestore.OnboardingWrites(ConsentModal.Submitted(nearby, name, contact, governmentId), now));
            && !NeedsOnboarding(Some(p))
            && !NeedsOnboarding(Some(Merge(p, later)))
  {
    var p := Merge(profile, Firestore.OnboardingWrites(ConsentModal.Submitted(nearby, name, contact, governmentId), now));
    ConsentModal.ModalConsentIsStoredConsent(profile, nearby, name, contact, governmentId, now);
    Firestore.OtherUpdatesPreserveConsent(p, later);
    assert Get(Merge(p, later), "onboardingComplete") == Get(p, "onboardingComplete");
  }

  /** How the profile read settled: the snapshot's data (`None` when the document does not exist), or an error. */
  datatype FetchResult = Fetched(snapshot: Option<Doc>) | FetchFailed

  /** `HomeContent`'s state. */
  class HomeContent {
    var profile: Option<Doc>
    var showOnboarding: bool
    /** How many times the effect has run; only the latest run is still mounted. */
    var generation: nat

    constructor()
      ensures profile == None && !showOnboarding && generation == 0
    {
      profile, showOnboarding, generation := None, false, 0;
    }

    /** The consent modal is rendered. */
    function ModalShown(user: Option<User>): (shown: bool)
      reads this
      ensures user.None? ==> !shown
      ensures user.Some? ==> (shown <==> showOnboarding)
    {
      showOnboarding && user.Some?
    }

    /**
     * The effect for a new `user`: the previous run is unmounted; with no user
     * the state is cleared at once, otherwise a read starts, identified by `ticket`.
     */
    method RunProfileEffect(user: Option<User>) returns (ticket: nat)
      modifies this
      ensures generation == old(generation) + 1 && ticket == generation
      ensures user.None? ==> profile == None && !showOnboarding
      ensures user.Some? ==> profile == old(profile) && showOnboarding == old(showOnboarding)
    {
      generation := generation + 1;
      ticket := generation;
      if user.None? {
        profile := None;
        showOnboarding := false;
      }
    }

    /** The read started by run `ticket` settles; a stale run or a failed read changes nothing. */
    method FetchSettled(ticket: nat, result: FetchResult)
      modifies this
      ensures generation == old(generation)
      ensures ticket != generation || result.FetchFailed? ==>
                profile == old(profile) && showOnboarding == old(showOnboarding)
      ensures ticket == generation && result.Fetched? ==>
                profile == result.snapshot && showOnboarding == NeedsOnboarding(result.snapshot)
    {
      if result.FetchFailed? || ticket != generation {
        return;
      }
      profile := result.snapshot;
      if profile.Some? && Get(profile.value, "onboardingComplete") != Some(Bool(true)) {
        showOnboarding := true;
      } else {
        showOnboarding := false;
      }
    }

    /** The modal's `onClose`. */
    method CloseConsent()
      modifies this
      ensures !showOnboarding && profile == old(profile) && generation == old(generation)
    {
      showOnboarding := false;
    }
  }

  /**
   * A fresh sign-up followed by the home page's read shows the consent
   * modal; completing it closes the modal, and the next read keeps it closed.
   */
  method FirstVisitAfterSignup(db: Db, home: HomeContent, form: ConsentModal.ConsentForm, user: User,
                               username: string, location: Option<Value>, avatarId: Option<Value>, now: Timestamp)
      returns (shownAfterSignup: bool, closed: bool, shownOnClose: bool, shownAfterConsent: bool)
    requires AuthFunctions.SignupCheck(username, location) == Pass
    requires form.Check() == Pass && !form.busy
    modifies db, home, form
    ensures shownAfterSignup
    ensures closed && !shownOnClose
    ensures !shownAfterConsent
  {
    var _, _ := AuthFunctions.Signup(db, username, location, avatarId, Success(user), now);
    var key := Firestore.UserKey(user.uid);
    FreshSignupNeedsOnboarding(user, username, location, avatarId, now);
    var ticket := home.RunProfileEffect(Some(user));
    home.FetchSettled(ticket, Fetched(db.Read(key)));
    shownAfterSignup := home.ModalShown(Some(user));

    var nearby, name, contact, governmentId := form.parentNearby, form.parentName, form.parentContact, form.governmentId;
    var stored := db.docs[key];
    closed := form.HandleComplete(db, user.uid, now);
    if closed {
      home.CloseConsent();
    }
    shownOnClose := home.ModalShown(Some(user));
    ConsentEndsOnboarding(stored, nearby, name, contact, governmentId, now, map[]);
    ticket := home.RunProfileEffect(Some(user));
    home.FetchSettled(ticket, Fetched(db.Read(key)));
    shownAfterConsent := home.ModalShown(Some(user));
  }

  const SignInToSave := "Sign in to save your score and appear on the leaderboard."

  /** What `GameCard`'s `handleSaveScore` alerts once `requireAuth` settles with `resolved`; `score` is the random score. */
  function SaveScoreAlert(resolved: Option<User>, title: string, score: nat): (message: string)
    ensures message == SignInToSave <==> resolved.None?
    ensures resolved.Some? ==> Text.Includes(message, resolved.value.email) && Text.Includes(message, title)
  {
    if resolved.None? then SignInToSave
    else
      var m := resolved.value.email + " saved a score of " + Text.NatToString(score) + " for " + title + "!";
      assert m[|m| - 1] == '!' && SignInToSave[|SignInToSave| - 1] == '.';
      assert Text.OccursAt(m, resolved.value.email, 0);
      assert Text.OccursAt(m, title, |m| - 1 - |title|);
      m
  }

  /** What `ShopCard`'s `handleFavorite` alerts once `requireAuth` settles with `resolved`; nothing without a user. */
  function FavoriteAlert(resolved: Option<User>, name: string): (message: Option<string>)
    ensures message.None? <==> resolved.None?
    ensures message.Some? ==> Text.Includes(message.value, resolved.value.email) && Text.Includes(message.value, name)
  {
    if resolved.None? then None
    else
      var m := resolved.value.email + " favorited " + name + "!";
      assert Text.OccursAt(m, resolved.value.email, 0);
      assert Text.OccursAt(m, name, |m| - 1 - |name|);
      Some(m)
  }

  /** A signed-out save whose sign-in modal is dismissed ends in the sign-in reminder, with the modal closed. */
  method DismissedSaveScore(gate: Interaction.InteractionGate, title: string, score: nat) returns (message: string)
    requires gate.Valid()
    modifies gate
    ensures message == SignInToSave && !gate.authModalOpen && gate.pending == []
  {
    var p := gate.RequireAuth(None);
    var id := p.id;
    gate.Cancel();
    Interaction.SettleAllEffect(old(gate.settled), old(gate.pending) + [id], None, id);
    assert gate.Resolution(id) == Some(None);
    message := SaveScoreAlert(gate.Resolution(id).value, title, score);
  }
}
