/** The booking modal: a pure view of its props that shows a confirmation, a
    delete prompt or the booking form, with cost lines when they apply. */
module BookingModal {
  import opened Common
  import Calendar

  /** The props the view reads. `newTotalCost` is `null` when there is no total yet. */
  datatype Props = Props(
    bookingConfirmed: bool,
    confirmDelete: bool,
    editing: bool,
    selectedDates: Option<Calendar.DateRange>,
    guestCount: string,
    newTotalCost: Option<int>,
    originalCost: int,
    newCost: int,
    costDiff: int)

  /** What the dialog shows. In the form, `guestValue` is what the guest input
      displays and hands unchanged to `setGuestCount`. */
  datatype Screen =
    | Confirmation(message: string, costLine: Option<string>)
    | DeletePrompt
    | BookingForm(heading: string, guestValue: string, totalLine: Option<string>,
                  costLine: Option<string>, confirmLabel: string, offersDelete: bool)

  /** `selectedDates && selectedDates.start && selectedDates.end`. */
  predicate DatesChosen(p: Props)
  {
    p.selectedDates.Some? && p.selectedDates.value.start.Some? && p.selectedDates.value.end.Some?
  }

  /** The cost difference with its sign: "+" in front of zero and positive
      amounts, the number's own "-" in front of negative ones. */
  function SignedAmount(d: int): (r: string)
    ensures |r| >= 2
    ensures r[0] == '+' <==> d >= 0
    ensures r[0] == '-' <==> d < 0
    ensures d >= 0 ==> r[1..] == IntToString(d)
    ensures d < 0 ==> r == IntToString(d)
  {
    if d >= 0 then "+" + IntToString(d) else IntToString(d)
  }

  /** "Original Cost: $… | New Cost: $… (±…)". */
  function CostComparison(p: Props): string
  {
    "Original Cost: $" + IntToString(p.originalCost) + " | New Cost: $" + IntToString(p.newCost)
    + " (" + SignedAmount(p.costDiff) + ")"
  }

  function Render(p: Props): (s: Screen)
    ensures s.Confirmation? <==> p.bookingConfirmed
    ensures s.DeletePrompt? <==> !p.bookingConfirmed && p.confirmDelete
    ensures s.BookingForm? <==> !p.bookingConfirmed && !p.confirmDelete
    ensures s.Confirmation? ==>
              s.message == (if p.editing then "Booking updated!" else "Booking confirmed!")
              && (s.costLine.Some? <==> p.editing)
    ensures s.BookingForm? ==>
              && s.heading == (if p.editing then "Edit your booking" else "Confirm your booking")
              && s.confirmLabel == (if p.editing then "Update Booking" else "Confirm Booking")
              && (s.offersDelete <==> p.editing)
              && s.guestValue == p.guestCount
              && (s.totalLine.Some? <==> !p.editing && DatesChosen(p) && p.newTotalCost.Some?)
              && (s.costLine.Some? <==> p.editing && DatesChosen(p))
    ensures (s.Confirmation? || s.BookingForm?) && s.costLine.Some? ==> s.costLine.value == CostComparison(p)
  {
    if p.bookingConfirmed then
      Confirmation(if p.editing then "Booking updated!" else "Booking confirmed!",
                   if p.editing then Some(CostComparison(p)) else None)
    else if p.confirmDelete then
      DeletePrompt
    else
      var chosen := DatesChosen(p);
      BookingForm(
        if p.editing then "Edit your booking" else "Confirm your booking",
        p.guestCount,
        if chosen && !p.editing && p.newTotalCost.Some? then Some("Total Cost: $" + IntToString(p.newTotalCost.value)) else None,
        if chosen && p.editing then Some(CostComparison(p)) else None,
        if p.editing then "Update Booking" else "Confirm Booking",
        p.editing)
  }

  /** Texts and labels depend on nothing but the view flags and `editingBooking`:
      two prop sets that agree on those show the same words and buttons. */
  lemma LabelsDependOnlyOnEditing(p: Props, q: Props)
    requires p.bookingConfirmed == q.bookingConfirmed && p.confirmDelete == q.confirmDelete
    requires p.editing == q.editing
    ensures Render(p).Confirmation? ==> Render(p).message == Render(q).message
    ensures Render(p).BookingForm? ==>
              Render(p).heading == Render(q).heading && Render(p).confirmLabel == Render(q).confirmLabel
              && Render(p).offersDelete == Render(q).offersDelete
  {
  }

  /** The total and the comparison line never show together in the form. */
  lemma CostLinesExclusive(p: Props)
    ensures Render(p).BookingForm? ==> !(Render(p).totalLine.Some? && Render(p).costLine.Some?)
  {
  }
}
