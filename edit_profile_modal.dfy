/** The edit-profile modal: a form prefilled from the profile, a payload built
    from it, and the live preview's banner, avatar and manager badge. */
module EditProfileModal {
  import opened Common
  import opened Json
  import AuthContext

  const FormKeys: set<string> := {"bio", "avatarUrl", "bannerUrl", "upgrade"}
  const TextInputs: set<string> := {"bio", "avatarUrl", "bannerUrl"}

  const AvatarAlt := "User avatar"
  const BannerAlt := "User banner"
  const BannerPlaceholder := "https://placehold.co/800x200/e8f0ff/e8f0ff"
  const AvatarPlaceholder := "https://placehold.co/100x100/f4f4f4/f4f4f4"
  const FailurePrefix := "Failed to update profile: "
  /** The error a read of `name` on the missing `user` raises, as the browser words it. */
  const MissingUserMessage := "Cannot read properties of undefined (reading 'name')"

  /** The parts of the `profile` prop the modal reads. `avatarUrl` is
      `profile.avatar?.url`; `venueManager` is its truthiness. */
  datatype Profile = Profile(name: string, bio: Option<string>, avatarUrl: Option<string>,
                             bannerUrl: Option<string>, venueManager: bool)

  /** Missing or empty text reads as "". */
  function TextOrEmpty(s: Option<string>): (r: string)
    ensures s.Some? ==> r == s.value
    ensures s.None? ==> r == ""
  {
    if s.Some? then OrElse(s.value, "") else ""
  }

  /** The form's shape: three strings and a flag. */
  predicate WellFormedForm(f: Object)
  {
    f.Keys == FormKeys && f["bio"].Str? && f["avatarUrl"].Str? && f["bannerUrl"].Str? && f["upgrade"].Bool?
  }

  const InitialForm: Object := map["bio" := Str(""), "avatarUrl" := Str(""), "bannerUrl" := Str(""), "upgrade" := Bool(false)]

  /** The form the prefill effect writes for a profile. */
  function Prefill(p: Profile): (f: Object)
    ensures WellFormedForm(f)
    ensures f["bio"] == Str(TextOrEmpty(p.bio))
    ensures f["avatarUrl"] == Str(TextOrEmpty(p.avatarUrl)) && f["bannerUrl"] == Str(TextOrEmpty(p.bannerUrl))
    ensures f["upgrade"] == Bool(false)
  {
    map["bio" := Str(TextOrEmpty(p.bio)), "avatarUrl" := Str(TextOrEmpty(p.avatarUrl)),
        "bannerUrl" := Str(TextOrEmpty(p.bannerUrl)), "upgrade" := Bool(false)]
  }

  /** The updater of `handleChange`: a checkbox writes `checked`, any other input its text. */
  function ApplyChange(f: Object, name: string, value: string, isCheckbox: bool, checked: bool): (r: Object)
    ensures r.Keys == f.Keys + {name}
    ensures r[name] == if isCheckbox then Bool(checked) else Str(value)
    ensures forall k :: k in f && k != name ==> r[k] == f[k]
  {
    f[name := if isCheckbox then Bool(checked) else Str(value)]
  }

  /** The inputs the modal renders: three text fields and the "upgrade" checkbox. */
  predicate RenderedInput(name: string, isCheckbox: bool)
  {
    if isCheckbox then name == "upgrade" else name in TextInputs
  }

  lemma RenderedInputKeepsShape(f: Object, name: string, value: string, isCheckbox: bool, checked: bool)
    requires WellFormedForm(f) && RenderedInput(name, isCheckbox)
    ensures WellFormedForm(ApplyChange(f, name, value, isCheckbox, checked))
  {
    var r := ApplyChange(f, name, value, isCheckbox, checked);
    assert name in FormKeys;
    assert r.Keys == FormKeys;
    if isCheckbox {
      assert name == "upgrade" && r["upgrade"] == Bool(checked);
      assert r["bio"] == f["bio"] && r["avatarUrl"] == f["avatarUrl"] && r["bannerUrl"] == f["bannerUrl"];
    } else {
      assert r[name] == Str(value);
      assert r["upgrade"] == f["upgrade"];
    }
  }

  /** The keys the payload carries for a form. */
  predicate InPayload(f: Object, k: string)
  {
    k == "bio" || k == "avatar" || k == "banner" || (k == "venueManager" && Get(f, "upgrade").Truthy())
  }

  function PayloadValue(f: Object, k: string): Value
  {
    if k == "avatar" then Obj(map["url" := Get(f, "avatarUrl"), "alt" := Str(AvatarAlt)])
    else if k == "banner" then Obj(map["url" := Get(f, "bannerUrl"), "alt" := Str(BannerAlt)])
    else if k == "venueManager" then Bool(true)
    else Get(f, "bio")
  }

  /** The payload: bio, both images with fixed alt texts, and `venueManager: true` exactly when upgrading. */
  function Payload(f: Object): (p: Object)
    ensures "bio" in p && p["bio"] == Get(f, "bio")
    ensures "avatar" in p && p["avatar"] == Obj(map["url" := Get(f, "avatarUrl"), "alt" := Str(AvatarAlt)])
    ensures "banner" in p && p["banner"] == Obj(map["url" := Get(f, "bannerUrl"), "alt" := Str(BannerAlt)])
    ensures "venueManager" in p <==> Get(f, "upgrade").Truthy()
    ensures "venueManager" in p ==> p["venueManager"] == Bool(true)
    ensures p.Keys <= {"bio", "avatar", "banner", "venueManager"}
  {
    map k | k in {"bio", "avatar", "banner", "venueManager"} && InPayload(f, k) :: PayloadValue(f, k)
  }

  /** The submit handler's `payload`: the three fixed keys, then `venueManager` when upgrading. */
  method BuildPayload(f: Object) returns (payload: Object)
    ensures payload == Payload(f)
  {
    payload := map["bio" := Get(f, "bio"),
                   "avatar" := Obj(map["url" := Get(f, "avatarUrl"), "alt" := Str(AvatarAlt)]),
                   "banner" := Obj(map["url" := Get(f, "bannerUrl"), "alt" := Str(BannerAlt)])];
    if Get(f, "upgrade").Truthy() {
      payload := payload["venueManager" := Bool(true)];
    }
  }

  /** The preview's image sources: the typed URL, or a placeholder when it is empty. */
  function BannerSrc(f: Object): (src: string)
    requires WellFormedForm(f)
    ensures f["bannerUrl"].s != "" ==> src == f["bannerUrl"].s
    ensures f["bannerUrl"].s == "" ==> src == BannerPlaceholder
  {
    OrElse(f["bannerUrl"].s, BannerPlaceholder)
  }

  function AvatarSrc(f: Object): (src: string)
    requires WellFormedForm(f)
    ensures f["avatarUrl"].s != "" ==> src == f["avatarUrl"].s
    ensures f["avatarUrl"].s == "" ==> src == AvatarPlaceholder
  {
    OrElse(f["avatarUrl"].s, AvatarPlaceholder)
  }

  /** The "Venue Manager" badge in the preview. */
  predicate ShowsBadge(p: Profile, f: Object)
  {
    p.venueManager || Get(f, "upgrade").Truthy()
  }

  /** The "Upgrade to Manager" checkbox. */
  predicate OffersUpgrade(p: Profile)
  {
    !p.venueManager
  }

  /** Right after the prefill the badge reflects the profile alone; a manager
      is never offered the upgrade and always shows the badge, whatever the form says. */
  lemma BadgeAndCheckbox(p: Profile, f: Object)
    ensures ShowsBadge(p, Prefill(p)) <==> p.venueManager
    ensures p.venueManager ==> !OffersUpgrade(p) && ShowsBadge(p, f)
    ensures !p.venueManager && WellFormedForm(f) ==> OffersUpgrade(p) && (ShowsBadge(p, f) <==> f["upgrade"] == Bool(true))
  {
  }

  /** A profile that is not a manager shows the badge after ticking the checkbox, and only then. */
  lemma TickingUpgradeShowsBadge(p: Profile, f: Object, checked: bool)
    requires !p.venueManager
    ensures ShowsBadge(p, ApplyChange(f, "upgrade", "", true, checked)) <==> checked
  {
  }

  /** How the update request ended: the updated profile, a non-OK status with
      its body text, or an error thrown on the way (a rejected fetch, a body
      that does not parse) carrying its own message. */
  datatype Reply = Saved(updated: Profile) | Rejected(errorText: string) | Thrown(message: string)

  class Modal {
    var formData: Object
    var loading: bool
    var error: Option<string>

    ghost predicate Valid()
      reads this
    {
      WellFormedForm(formData)
    }

    constructor ()
      ensures Valid() && formData == InitialForm && !loading && error == None
    {
      formData := InitialForm;
      loading, error := false, None;
    }

    /** The effect on `[profile]`. */
    method PrefillEffect(profile: Option<Profile>)
      requires Valid()
      modifies this
      ensures Valid()
      ensures profile.Some? ==> formData == Prefill(profile.value)
      ensures profile.None? ==> formData == old(formData)
      ensures loading == old(loading) && error == old(error)
    {
      if profile.Some? {
        formData := Prefill(profile.value);
      }
    }

    method HandleChange(name: string, value: string, isCheckbox: bool, checked: bool)
      requires Valid() && RenderedInput(name, isCheckbox)
      modifies this
      ensures Valid()
      ensures formData == ApplyChange(old(formData), name, value, isCheckbox, checked)
      ensures loading == old(loading) && error == old(error)
    {
      formData := ApplyChange(formData, name, value, isCheckbox, checked);
    }

    /** `handleSubmit` with the user read from the context and the reply to the
        PUT. Without a user, reading its name throws before anything is sent.
        `sent` is the payload sent; `notified` is what `onProfileUpdate` receives. */
    method HandleSubmit(user: Option<AuthContext.User>, reply: Reply)
      returns (sent: Option<Object>, notified: Option<Profile>, closeCalled: bool)
      requires Valid()
      modifies this
      ensures Valid() && formData == old(formData) && !loading
      ensures user.None? ==> sent == None && notified == None && !closeCalled && error == Some(MissingUserMessage)
      ensures user.Some? ==> sent == Some(Payload(formData))
      ensures user.Some? && reply.Rejected? ==>
                error == Some(FailurePrefix + reply.errorText) && notified == None && !closeCalled
      ensures user.Some? && reply.Saved? ==> error == None && notified == Some(reply.updated) && closeCalled
      ensures user.Some? && reply.Thrown? ==> error == Some(reply.message) && notified == None && !closeCalled
    {
      loading := true;
      error := None;
      var payload := BuildPayload(formData);
      sent, notified, closeCalled := None, None, false;
      if user.None? {
        error := Some(MissingUserMessage);
      } else {
        sent := Some(payload);
        match reply {
          case Rejected(errorText) =>
            error := Some(FailurePrefix + errorText);
          case Saved(updated) =>
            notified := Some(updated);
            closeCalled := true;
          case Thrown(message) =>
            error := Some(message);
        }
      }
      loading := false;
    }
  }
}
