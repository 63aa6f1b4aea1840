/**
 * The mall map modal: a parent or guardian confirms supervision and gives a
 * name, a contact and a government id; the trimmed answers go to
 * `completeOnboarding`, and the modal closes only when that succeeds.
 */
module ConsentModal {
  import opened Wrappers
  import opened JsValue
  import opened DocStore
  import Text
  import Firestore

  const PresenceRequired := "A parent or guardian must be physically present to supervise."
  const NameRequired := "Parent / guardian name is required."
  const ContactRequired := "Parent contact (phone or email) is required."
  const GovernmentIdRequired := "Parent government ID number is required."
  const OnboardingFailed := "Failed to complete onboarding. Please try again."

  /** The modal's own checks, in their order; a field made only of white space counts as missing. */
  function ConsentCheck(nearby: bool, name: string, contact: string, governmentId: string): (r: Outcome<string>)
    ensures r == Pass <==> nearby && !Text.Blank(name) && !Text.Blank(contact) && !Text.Blank(governmentId)
    ensures !nearby ==> r == Fail(PresenceRequired)
    ensures nearby && Text.Blank(name) ==> r == Fail(NameRequired)
    ensures nearby && !Text.Blank(name) && Text.Blank(contact) ==> r == Fail(ContactRequired)
    ensures nearby && !Text.Blank(name) && !Text.Blank(contact) && Text.Blank(governmentId) ==> r == Fail(GovernmentIdRequired)
  {
    Text.TrimEmptyIffBlank(name);
    Text.TrimEmptyIffBlank(contact);
    Text.TrimEmptyIffBlank(governmentId);
    if !nearby then Fail(PresenceRequired)
    else if Text.Trim(name) == "" then Fail(NameRequired)
    else if Text.Trim(contact) == "" then Fail(ContactRequired)
    else if Text.Trim(governmentId) == "" then Fail(GovernmentIdRequired)
    else Pass
  }

  /** The object the modal hands to `completeOnboarding`. */
  function Submitted(nearby: bool, name: string, contact: string, governmentId: string): Firestore.OnboardingForm {
    Firestore.OnboardingForm(Some(Text.Trim(name)), Some(Text.Trim(contact)), Some(nearby), Some(Text.Trim(governmentId)))
  }

  /**
   * Whatever passes the modal's checks also passes the store's, and the
   * record it writes is a consent record holding the trimmed answers.
   */
  lemma ModalConsentIsStoredConsent(profile: Doc, nearby: bool, name: string, contact: string, governmentId: string, now: Timestamp)
    requires ConsentCheck(nearby, name, contact, governmentId) == Pass
    ensures Firestore.OnboardingCheck(Submitted(nearby, name, contact, governmentId)) == Pass
    ensures var p := Merge(profile, Firestore.OnboardingWrites(Submitted(nearby, name, contact, governmentId), now));
            && p["onboardingComplete"] == Bool(true)
            && Firestore.ConsentConsistent(p)
            && p["onboarding"].fields["parentName"] == Str(Text.Trim(name))
            && p["onboarding"].fields["parentContact"] == Str(Text.Trim(contact))
            && p["onboarding"].fields["governmentId"] == Str(Text.Trim(governmentId))
  {
    Text.TrimEmptyIffBlank(name);
    Text.TrimEmptyIffBlank(contact);
    Text.TrimEmptyIffBlank(governmentId);
    var form := Submitted(nearby, name, contact, governmentId);
    assert Firestore.OnboardingCheck(form) == Pass;
    Firestore.OnboardingEstablishesConsent(profile, form, now);
  }

  /** The modal's state. */
  class ConsentForm {
    var parentNearby: bool
    var parentName: string
    var parentContact: string
    var governmentId: string
    var busy: bool
    var error: string

    constructor()
      ensures !parentNearby && parentName == "" && parentContact == "" && governmentId == ""
      ensures !busy && error == ""
    {
      parentNearby, parentName, parentContact, governmentId := false, "", "", "";
      busy, error := false, "";
    }

    /** The effect that runs when `open` becomes true: a blank form and no error. */
    method Open()
      modifies this
      ensures !parentNearby && parentName == "" && parentContact == "" && governmentId == ""
      ensures error == "" && busy == old(busy)
    {
      parentNearby, parentName, parentContact, governmentId := false, "", "", "";
      error := "";
    }

    /** The answers as they stand. */
    function Check(): Outcome<string>
      reads this
    {
      ConsentCheck(parentNearby, parentName, parentContact, governmentId)
    }

    /** `handleComplete()`; `closed` says whether `onClose` was called. */
    method HandleComplete(db: Db, uid: string, now: Timestamp) returns (closed: bool)
      requires !busy
      modifies this, db
      ensures !busy
      ensures parentNearby == old(parentNearby) && parentName == old(parentName)
      ensures parentContact == old(parentContact) && governmentId == old(governmentId)
      ensures old(Check()).Fail? ==>
                !closed && error == old(Check()).error && db.docs == old(db.docs)
      ensures old(Check()).Pass? && Firestore.UserKey(uid) !in old(db.docs) ==>
                !closed && error == OnboardingFailed && db.docs == old(db.docs)
      ensures old(Check()).Pass? && Firestore.UserKey(uid) in old(db.docs) ==>
                closed && error == ""
                && db.docs == old(db.docs)[Firestore.UserKey(uid) :=
                     Merge(old(db.docs)[Firestore.UserKey(uid)],
                           Firestore.OnboardingWrites(Submitted(parentNearby, parentName, parentContact, governmentId), now))]
    {
      error := "";
      if !parentNearby {
        error := PresenceRequired;
        return false;
      }
      if Text.Trim(parentName) == "" {
        error := NameRequired;
        return false;
      }
      if Text.Trim(parentContact) == "" {
        error := ContactRequired;
        return false;
      }
      if Text.Trim(governmentId) == "" {
        error := GovernmentIdRequired;
        return false;
      }
      busy := true;
      var form := Submitted(parentNearby, parentName, parentContact, governmentId);
      assert Firestore.OnboardingCheck(form) == Pass;
      var r := Firestore.CompleteOnboarding(db, uid, form, now);
      if r.Fail? {
        error := OnboardingFailed;
        closed := false;
      } else {
        closed := true;
      }
      busy := false;
    }
  }
}
