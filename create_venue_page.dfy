/** The create-venue page: a form over one venue record, an image list of at
    most eight entries, and a submit guarded by sign-in and required fields. */
module CreateVenuePage {
  import opened Common
  import opened VenueRules
  import AuthContext

  const AmenityKeys: set<string> := {"wifi", "parking", "breakfast", "pets"}
  const LocationKeys: set<string> := {"address", "city", "country", "continent", "lat", "lng"}
  /** The top-level fields the generic input handler writes. */
  const TopLevelInputs: set<string> := {"name", "description", "price", "maxGuests"}

  const LoginPrompt := "Login to create a venue"
  const RequiredFieldsMessage := "Please fill in all required fields."
  const CreateFailedMessage := "Failed to create venue"

  /** `venueData`; `price` is the empty string until the price input is typed into. */
  datatype VenueData = VenueData(
    name: string,
    description: string,
    media: seq<Image>,
    price: Scalar,
    maxGuests: int,
    rating: int,
    meta: map<string, bool>,
    location: map<string, Scalar>)

  function InitialVenueData(): (d: VenueData)
    ensures WellFormed(d) && d.maxGuests == MinGuests && d.media == [] && !d.price.Truthy()
  {
    VenueData("", "", [], Text(""), 1, 0,
      map["wifi" := false, "parking" := false, "breakfast" := false, "pets" := false],
      map["address" := Text(""), "city" := Text(""), "country" := Text(""), "continent" := Text(""),
          "lat" := Number(0), "lng" := Number(0)])
  }

  /** What the page keeps true of its record: the amenity and location objects
      keep their keys, the guest count stays in range and at most eight images. */
  predicate WellFormed(d: VenueData)
  {
    d.meta.Keys == AmenityKeys && d.location.Keys == LocationKeys
    && MinGuests <= d.maxGuests <= MaxGuests && |d.media| <= MaxImages
  }

  /** The updater of `handleInputChange` for an input named `name` holding
      `value` (its text), `num` (`Number(value)`) and `checked`. */
  function ApplyInput(d: VenueData, name: string, value: string, num: int, checked: bool): (r: VenueData)
    requires name in d.meta || name in d.location || name in TopLevelInputs
    ensures r.media == d.media && r.rating == d.rating
    ensures r.meta.Keys == d.meta.Keys && r.location.Keys == d.location.Keys
    ensures name in d.meta ==>
              r.meta[name] == checked && r == d.(meta := r.meta)
              && forall k :: k in d.meta && k != name ==> r.meta[k] == d.meta[k]
    ensures name !in d.meta && name in d.location ==>
              r.location[name] == Text(value) && r == d.(location := r.location)
              && forall k :: k in d.location && k != name ==> r.location[k] == d.location[k]
    ensures name !in d.meta && name !in d.location && name == "maxGuests" ==>
              MinGuests <= r.maxGuests <= MaxGuests && r == d.(maxGuests := r.maxGuests)
              && r.maxGuests == ClampGuests(num)
    ensures name !in d.meta && name !in d.location && name == "price" ==>
              r.price == Number(CapPrice(num)) && r.price.num <= MaxPrice && r == d.(price := r.price)
    ensures name !in d.meta && name !in d.location && name == "name" ==> r == d.(name := value)
    ensures name !in d.meta && name !in d.location && name == "description" ==> r == d.(description := value)
    ensures WellFormed(d) ==> WellFormed(r)
  {
    if name in d.meta then d.(meta := d.meta[name := checked])
    else if name in d.location then d.(location := d.location[name := Text(value)])
    else if name == "maxGuests" then d.(maxGuests := ClampGuests(num))
    else if name == "price" then d.(price := Number(CapPrice(num)))
    else if name == "name" then d.(name := value)
    else d.(description := value)
  }

  /** Typing the same input twice in a row has the effect of typing it once. */
  lemma ApplyInputIdempotent(d: VenueData, name: string, value: string, num: int, checked: bool)
    requires name in d.meta || name in d.location || name in TopLevelInputs
    ensures var once := ApplyInput(d, name, value, num, checked);
            ApplyInput(once, name, value, num, checked) == once
  {
    var once := ApplyInput(d, name, value, num, checked);
    if name !in d.meta && name in d.location {
      assert once.location[name := Text(value)] == once.location;
    } else if name in d.meta {
      assert once.meta[name := checked] == once.meta;
    }
  }

  /** The fields `handleSubmit` requires: all truthy, so a price of 0 fails too. */
  predicate Complete(d: VenueData)
  {
    d.name != "" && d.description != "" && d.price.Truthy() && d.maxGuests != 0
  }

  datatype SubmitStep = AskLogin | RejectIncomplete | Send(body: VenueData)

  /** The checks `handleSubmit` makes before it sends anything. */
  function DecideSubmit(user: Option<AuthContext.User>, d: VenueData): (step: SubmitStep)
    ensures step == AskLogin <==> user.None?
    ensures step == RejectIncomplete <==> user.Some? && !Complete(d)
    ensures step.Send? <==> user.Some? && Complete(d)
    ensures step.Send? ==> step.body == d
  {
    if user.None? then AskLogin
    else if !Complete(d) then RejectIncomplete
    else Send(d)
  }

  /** A price that was never typed, or typed as 0, blocks the submit. */
  lemma ZeroPriceBlocks(user: AuthContext.User, d: VenueData)
    requires d.price == Text("") || d.price == Number(0)
    ensures DecideSubmit(Some(user), d) == RejectIncomplete
  {
  }

  /** The context never provides `user`, so every submit stops at the sign-in check. */
  lemma SubmitAlwaysAsksLogin(p: AuthContext.Provider, d: VenueData)
    ensures p.Lookup("user") == AuthContext.Undefined
    ensures DecideSubmit(None, d) == AskLogin
  {
  }

  /** How the create request ended: created with an id, refused with the
      response text, or failed before a response. */
  datatype CreateOutcome = Created(id: string) | Refused(errorText: string) | Failed(message: string)

  class Page {
    var venueData: VenueData
    var newImageUrl: string
    var newImageAlt: string
    var loading: bool
    var error: Option<string>
    var success: bool
    const auth: AuthContext.Provider

    ghost predicate Valid()
      reads this
    {
      WellFormed(venueData)
    }

    constructor (auth: AuthContext.Provider)
      ensures Valid() && this.auth == auth
      ensures venueData == InitialVenueData() && newImageUrl == "" && newImageAlt == ""
      ensures !loading && error == None && !success
    {
      this.auth := auth;
      venueData := InitialVenueData();
      newImageUrl, newImageAlt := "", "";
      loading, error, success := false, None, false;
    }

    /** The effect on `[user, openAuthModal]`: without a user, open the sign-in modal. */
    method MountEffect(user: Option<AuthContext.User>)
      modifies auth
      ensures user.None? ==> auth.isAuthModalOpen
      ensures user.Some? ==> auth.isAuthModalOpen == old(auth.isAuthModalOpen)
    {
      if user.None? {
        auth.OpenAuthModal(LoginPrompt);
      }
    }

    method HandleInputChange(name: string, value: string, num: int, checked: bool)
      requires Valid()
      requires name in AmenityKeys || name in LocationKeys || name in TopLevelInputs
      modifies this
      ensures Valid()
      ensures venueData == ApplyInput(old(venueData), name, value, num, checked)
      ensures newImageUrl == old(newImageUrl) && newImageAlt == old(newImageAlt)
      ensures loading == old(loading) && error == old(error) && success == old(success)
    {
      venueData := ApplyInput(venueData, name, value, num, checked);
    }

    method SetNewImageUrl(url: string)
      modifies this
      ensures newImageUrl == url
      ensures venueData == old(venueData) && newImageAlt == old(newImageAlt)
      ensures loading == old(loading) && error == old(error) && success == old(success)
    {
      newImageUrl := url;
    }

    method SetNewImageAlt(alt: string)
      modifies this
      ensures newImageAlt == alt
      ensures venueData == old(venueData) && newImageUrl == old(newImageUrl)
      ensures loading == old(loading) && error == old(error) && success == old(success)
    {
      newImageAlt := alt;
    }

    method HandleAddImage()
      requires Valid()
      modifies this
      ensures Valid()
      ensures DecideAdd(old(venueData.media), old(newImageUrl)) == IgnoreBlank ==>
                venueData == old(venueData) && error == old(error)
                && newImageUrl == old(newImageUrl) && newImageAlt == old(newImageAlt)
      ensures DecideAdd(old(venueData.media), old(newImageUrl)) == RejectFull ==>
                venueData == old(venueData) && error == Some(TooManyImagesMessage)
                && newImageUrl == old(newImageUrl) && newImageAlt == old(newImageAlt)
      ensures DecideAdd(old(venueData.media), old(newImageUrl)) == Append ==>
                venueData == old(venueData).(media := old(venueData.media) + [NewImage(old(newImageUrl), old(newImageAlt))])
                && newImageUrl == "" && newImageAlt == "" && error == None
      ensures loading == old(loading) && success == old(success)
    {
      var decision := DecideAdd(venueData.media, newImageUrl);
      if decision == IgnoreBlank {
        return;
      }
      if decision == RejectFull {
        error := Some(TooManyImagesMessage);
        return;
      }
      venueData := venueData.(media := venueData.media + [NewImage(newImageUrl, newImageAlt)]);
      newImageUrl := "";
      newImageAlt := "";
      error := None;
    }

    method HandleRemoveImage(indexToRemove: int)
      requires Valid()
      modifies this
      ensures Valid()
      ensures venueData == old(venueData).(media := RemoveAt(old(venueData.media), indexToRemove))
      ensures newImageUrl == old(newImageUrl) && newImageAlt == old(newImageAlt)
      ensures loading == old(loading) && error == old(error) && success == old(success)
    {
      venueData := venueData.(media := RemoveAt(venueData.media, indexToRemove));
    }

    /** The "-" guest button. */
    method DecreaseGuests()
      requires Valid()
      modifies this
      ensures Valid()
      ensures venueData == old(venueData).(maxGuests := FewerGuests(old(venueData.maxGuests)))
      ensures newImageUrl == old(newImageUrl) && newImageAlt == old(newImageAlt)
      ensures loading == old(loading) && error == old(error) && success == old(success)
    {
      venueData := venueData.(maxGuests := FewerGuests(venueData.maxGuests));
    }

    /** The "+" guest button. */
    method IncreaseGuests()
      requires Valid()
      modifies this
      ensures Valid()
      ensures venueData == old(venueData).(maxGuests := MoreGuests(old(venueData.maxGuests)))
      ensures newImageUrl == old(newImageUrl) && newImageAlt == old(newImageAlt)
      ensures loading == old(loading) && error == old(error) && success == old(success)
    {
      venueData := venueData.(maxGuests := MoreGuests(venueData.maxGuests));
    }

    /** The star picker's `onChange`. */
    method SetRating(rating: int)
      requires Valid()
      modifies this
      ensures Valid()
      ensures venueData == old(venueData).(rating := rating)
      ensures newImageUrl == old(newImageUrl) && newImageAlt == old(newImageAlt)
      ensures loading == old(loading) && error == old(error) && success == old(success)
    {
      venueData := venueData.(rating := rating);
    }

    /** The synchronous part of `handleSubmit`: `sent` is the body posted, if any.
        `user` is what the page destructures from the context; the context never
        provides one (`SubmitAlwaysAsksLogin`), so the page always passes `None`,
        and `Some` describes a context that would. */
    method HandleSubmit(user: Option<AuthContext.User>) returns (sent: Option<VenueData>)
      requires Valid()
      modifies this, auth
      ensures Valid()
      ensures venueData == old(venueData) && newImageUrl == old(newImageUrl) && newImageAlt == old(newImageAlt)
      ensures !success
      ensures sent.Some? <==> DecideSubmit(user, venueData).Send?
      ensures sent.Some? ==> sent.value == venueData && loading && error == None
      ensures user.None? ==> auth.isAuthModalOpen && error == None && loading == old(loading)
      ensures user.Some? ==> auth.isAuthModalOpen == old(auth.isAuthModalOpen)
      ensures DecideSubmit(user, venueData) == RejectIncomplete ==>
                error == Some(RequiredFieldsMessage) && loading == old(loading)
    {
      error := None;
      success := false;
      sent := None;
      var step := DecideSubmit(user, venueData);
      match step
      case AskLogin =>
        auth.OpenAuthModal(LoginPrompt);
      case RejectIncomplete =>
        error := Some(RequiredFieldsMessage);
      case Send(body) =>
        loading := true;
        sent := Some(body);
    }

    /** The end of `handleSubmit` once the request settled; `navigateTo` is the
        route handed to `navigate`. */
    method FinishSubmit(outcome: CreateOutcome) returns (navigateTo: Option<string>)
      modifies this
      ensures !loading
      ensures venueData == old(venueData) && newImageUrl == old(newImageUrl) && newImageAlt == old(newImageAlt)
      ensures navigateTo.Some? <==> outcome.Created?
      ensures outcome.Created? ==> success && navigateTo.value == "/venue/" + outcome.id && error == old(error)
      ensures outcome.Refused? ==> error == Some(OrElse(outcome.errorText, CreateFailedMessage)) && success == old(success)
      ensures outcome.Failed? ==> error == Some(outcome.message) && success == old(success)
    {
      navigateTo := None;
      match outcome {
        case Created(id) =>
          success := true;
          navigateTo := Some("/venue/" + id);
        case Refused(errorText) =>
          error := Some(OrElse(errorText, CreateFailedMessage));
        case Failed(message) =>
          error := Some(message);
      }
      loading := false;
    }
  }
}
