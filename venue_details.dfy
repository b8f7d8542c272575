/** The venue details column: the signed-in user's bookings of this venue,
    the amenity list, and the location block with its fallback text. */
module VenueDetails {
  import opened Common
  import opened Venue

  const NoAmenitiesText := "None."
  const NoLocationText := "No location provided"

  /** One of the user's bookings of this venue. */
  datatype UserBooking = UserBooking(id: string, dateFrom: int, dateTo: int)

  /** A row of "Your Bookings": its dates, and the booking its "Edit Booking" button hands to `onEditBooking`. */
  datatype BookingRow = BookingRow(dateFrom: int, dateTo: int, editTarget: UserBooking)

  /** The "Your Bookings" section: absent without bookings, else one row per booking in order. */
  function BookingsSection(userBookings: seq<UserBooking>): (section: Option<seq<BookingRow>>)
    ensures section.None? <==> |userBookings| == 0
    ensures section.Some? ==> |section.value| == |userBookings|
    ensures section.Some? ==> forall k :: 0 <= k < |userBookings| ==>
              section.value[k].editTarget == userBookings[k]
              && section.value[k].dateFrom == userBookings[k].dateFrom && section.value[k].dateTo == userBookings[k].dateTo
  {
    if |userBookings| == 0 then None
    else Some(seq(|userBookings|, k requires 0 <= k < |userBookings| =>
                BookingRow(userBookings[k].dateFrom, userBookings[k].dateTo, userBookings[k])))
  }

  /** The items under "Amenities": the labels, or the single item "None.". */
  function AmenityItems(meta: Option<Meta>): (items: seq<string>)
    ensures items == [NoAmenitiesText] <==> AmenityList(meta) == []
    ensures AmenityList(meta) != [] ==> items == AmenityList(meta)
  {
    var list := AmenityList(meta);
    assert list != [] ==> |list[0]| == |Label(Amenities(meta)[0])| >= 7;
    if |list| > 0 then list else [NoAmenitiesText]
  }

  /** What the location block shows. */
  datatype LocationBlock = NoLocation | Lines(lines: seq<string>)

  /** "No location provided" exactly when there is no location or address, city
      and country are all empty; otherwise the non-empty fields. */
  function LocationBlockFor(location: Option<Location>): (b: LocationBlock)
    ensures b == NoLocation <==>
              location.None? || (location.value.address == "" && location.value.city == "" && location.value.country == "")
    ensures b.Lines? ==> b.lines == LocationLines(location.value) && |b.lines| >= 1
  {
    if location.Some? && (location.value.address != "" || location.value.city != "" || location.value.country != "")
    then Lines(LocationLines(location.value))
    else NoLocation
  }
}
