/** The update-venue modal: a form prefilled from the venue, the same guest,
    price and image rules as the create page, and a delete that has to be
    confirmed in a second view. */
module UpdateVenueModal {
  import opened Common
  import opened VenueRules

  /** The fields of the form the modal renders. */
  const FormInputs: set<string> := {"description", "price", "maxGuests"}

  /** `formData`: price and guest count start as empty text and hold numbers once set. */
  datatype FormData = FormData(description: string, media: seq<Image>, price: Scalar, maxGuests: Scalar)

  const EmptyForm := FormData("", [], Text(""), Text(""))

  /** The parts of the `venue` prop the modal reads; `media` may be missing. */
  datatype Venue = Venue(description: string, media: Option<seq<Image>>, price: int, maxGuests: int)

  /** The form the prefill effect writes for a venue: its fields, with no media as []. */
  function Prefill(v: Venue): (f: FormData)
    ensures f.description == v.description && f.price == Number(v.price) && f.maxGuests == Number(v.maxGuests)
    ensures v.media.None? ==> f.media == []
    ensures v.media.Some? ==> f.media == v.media.value
  {
    FormData(v.description, if v.media.Some? then v.media.value else [], Number(v.price), Number(v.maxGuests))
  }

  /** The updater of `handleChange` for an input named `name` holding `value`
      (`num` is `Number(value)`). */
  function ApplyChange(f: FormData, name: string, value: string, num: int): (r: FormData)
    requires name in FormInputs
    ensures r.media == f.media
    ensures name == "maxGuests" ==>
              r == f.(maxGuests := r.maxGuests) && r.maxGuests == Number(ClampGuests(num))
              && MinGuests <= r.maxGuests.num <= MaxGuests
    ensures name == "price" ==>
              r == f.(price := r.price) && r.price == Number(CapPrice(num)) && r.price.num <= MaxPrice
    ensures name == "description" ==> r == f.(description := value)
  {
    if name == "maxGuests" then f.(maxGuests := Number(ClampGuests(num)))
    else if name == "price" then f.(price := Number(CapPrice(num)))
    else f.(description := value)
  }

  /** The view the modal shows. */
  datatype View = UpdateForm | DeletePrompt

  /** How `onUpdate` ended. */
  datatype UpdateOutcome = Updated | UpdateFailed(message: string)

  class Modal {
    var formData: FormData
    var newImageUrl: string
    var newImageAlt: string
    var confirmDelete: bool

    constructor ()
      ensures formData == EmptyForm && newImageUrl == "" && newImageAlt == "" && !confirmDelete
    {
      formData := EmptyForm;
      newImageUrl, newImageAlt := "", "";
      confirmDelete := false;
    }

    function CurrentView(): (v: View)
      reads this
      ensures v == DeletePrompt <==> confirmDelete
    {
      if confirmDelete then DeletePrompt else UpdateForm
    }

    /** The effect on `[venue, isOpen]`: prefill when there is a venue, and always leave the delete view. */
    method SyncEffect(venue: Option<Venue>)
      modifies this
      ensures venue.Some? ==> formData == Prefill(venue.value)
      ensures venue.None? ==> formData == old(formData)
      ensures !confirmDelete
      ensures newImageUrl == old(newImageUrl) && newImageAlt == old(newImageAlt)
    {
      if venue.Some? {
        formData := Prefill(venue.value);
      }
      confirmDelete := false;
    }

    method HandleChange(name: string, value: string, num: int)
      requires name in FormInputs
      modifies this
      ensures formData == ApplyChange(old(formData), name, value, num)
      ensures newImageUrl == old(newImageUrl) && newImageAlt == old(newImageAlt) && confirmDelete == old(confirmDelete)
    {
      formData := ApplyChange(formData, name, value, num);
    }

    method SetNewImageUrl(url: string)
      modifies this
      ensures newImageUrl == url
      ensures formData == old(formData) && newImageAlt == old(newImageAlt) && confirmDelete == old(confirmDelete)
    {
      newImageUrl := url;
    }

    method SetNewImageAlt(alt: string)
      modifies this
      ensures newImageAlt == alt
      ensures formData == old(formData) && newImageUrl == old(newImageUrl) && confirmDelete == old(confirmDelete)
    {
      newImageAlt := alt;
    }

    /** "Add Image"; `alerted` is the message passed to `alert`, if any. */
    method HandleAddImage() returns (alerted: Option<string>)
      modifies this
      ensures alerted.Some? <==> DecideAdd(old(formData.media), old(newImageUrl)) == RejectFull
      ensures alerted.Some? ==> alerted.value == TooManyImagesMessage
      ensures DecideAdd(old(formData.media), old(newImageUrl)) != Append ==>
                formData == old(formData) && newImageUrl == old(newImageUrl) && newImageAlt == old(newImageAlt)
      ensures DecideAdd(old(formData.media), old(newImageUrl)) == Append ==>
                formData == old(formData).(media := old(formData.media) + [NewImage(old(newImageUrl), old(newImageAlt))])
                && newImageUrl == "" && newImageAlt == ""
      ensures confirmDelete == old(confirmDelete)
    {
      alerted := None;
      var decision := DecideAdd(formData.media, newImageUrl);
      if decision == IgnoreBlank {
        return;
      }
      if decision == RejectFull {
        alerted := Some(TooManyImagesMessage);
        return;
      }
      formData := formData.(media := formData.media + [NewImage(newImageUrl, newImageAlt)]);
      newImageUrl := "";
      newImageAlt := "";
    }

    method HandleRemoveImage(indexToRemove: int)
      modifies this
      ensures formData == old(formData).(media := RemoveAt(old(formData.media), indexToRemove))
      ensures newImageUrl == old(newImageUrl) && newImageAlt == old(newImageAlt) && confirmDelete == old(confirmDelete)
    {
      formData := formData.(media := RemoveAt(formData.media, indexToRemove));
    }

    /** `handleSubmit`: hand the form to `onUpdate`; close only when it
        succeeded, otherwise alert its message and stay open. No state changes. */
    method HandleSubmit(outcome: UpdateOutcome) returns (sent: FormData, closeCalled: bool, alerted: Option<string>)
      ensures sent == formData
      ensures closeCalled <==> outcome.Updated?
      ensures alerted.Some? <==> outcome.UpdateFailed?
      ensures outcome.UpdateFailed? ==> alerted == Some(outcome.message)
    {
      sent := formData;
      match outcome {
        case Updated =>
          closeCalled, alerted := true, None;
        case UpdateFailed(message) =>
          closeCalled, alerted := false, Some(message);
      }
    }

    /** "Delete Venue" in the form view: switch to the confirmation view. */
    method RequestDelete()
      modifies this
      ensures confirmDelete
      ensures formData == old(formData) && newImageUrl == old(newImageUrl) && newImageAlt == old(newImageAlt)
    {
      confirmDelete := true;
    }

    /** "Cancel" in the confirmation view: back to the form. */
    method CancelDelete()
      modifies this
      ensures !confirmDelete
      ensures formData == old(formData) && newImageUrl == old(newImageUrl) && newImageAlt == old(newImageAlt)
    {
      confirmDelete := false;
    }

    /** Every close path (the dialog's own close, "X", "Cancel" in the form):
        call `onClose` and leave the confirmation view. */
    method Close() returns (closeCalled: bool)
      modifies this
      ensures closeCalled && !confirmDelete
      ensures formData == old(formData) && newImageUrl == old(newImageUrl) && newImageAlt == old(newImageAlt)
    {
      closeCalled := true;
      confirmDelete := false;
    }

    /** "Yes, Delete": the only button that calls `onDelete`, shown only in the confirmation view. */
    method ConfirmDelete() returns (deleteCalled: bool)
      requires CurrentView() == DeletePrompt
      ensures deleteCalled
      ensures confirmDelete
    {
      deleteCalled := true;
    }
  }
}
