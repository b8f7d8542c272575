/** The venue page: a fetch whose state decides between a loading text, an
    error, a not-found text and the venue itself. */
module VenuePage {
  import opened Common
  import opened Venue
  import Calendar

  const LoadingText := "Loading venue..."
  const FetchFailedMessage := "Failed to fetch venue"
  const NotFoundText := "No venue data found"
  const NoAmenitiesText := "No amenities listed"

  /** The parts of `json.data` the page renders. */
  datatype VenueData = VenueData(name: string, description: string, media: seq<Image>,
                                 meta: Option<Meta>, location: Option<Location>, bookings: seq<Calendar.Booking>)

  /** How the fetch ended: a parsed reply (whose `data` may be missing), a
      response that was not ok, or an error thrown with its message. */
  datatype FetchReply = Fetched(data: Option<VenueData>) | NotOk | Thrown(message: string)

  datatype AmenitiesBlock = Listed(labels: seq<string>) | NoneListed

  datatype Screen =
    | Loading
    | ErrorText(message: string)
    | NotFound
    | VenueView(venue: VenueData, amenities: AmenitiesBlock, location: Option<seq<string>>)

  /** "No amenities listed" exactly when the list is empty. */
  function AmenitiesFor(meta: Option<Meta>): (b: AmenitiesBlock)
    ensures b == NoneListed <==> AmenityList(meta) == []
    ensures b.Listed? ==> b.labels == AmenityList(meta)
  {
    var list := AmenityList(meta);
    if |list| > 0 then Listed(list) else NoneListed
  }

  /** The location block appears whenever there is a location, even with every field empty. */
  function LocationFor(location: Option<Location>): (block: Option<seq<string>>)
    ensures block.Some? <==> location.Some?
    ensures block.Some? ==> block.value == LocationLines(location.value)
  {
    if location.Some? then Some(LocationLines(location.value)) else None
  }

  class Page {
    var venue: Option<VenueData>
    var loading: bool
    var error: Option<string>

    constructor ()
      ensures venue == None && loading && error == None
    {
      venue, loading, error := None, true, None;
    }

    /** The render: loading first, then a non-empty error, then a missing venue, then the page. */
    function View(): (s: Screen)
      reads this
      ensures s == Loading <==> loading
      ensures s.ErrorText? <==> !loading && error.Some? && error.value != ""
      ensures s.ErrorText? ==> s.message == error.value
      ensures s == NotFound <==> !loading && (error.None? || error.value == "") && venue.None?
      ensures s.VenueView? ==>
                venue == Some(s.venue) && s.amenities == AmenitiesFor(s.venue.meta)
                && s.location == LocationFor(s.venue.location)
    {
      if loading then Loading
      else if error.Some? && error.value != "" then ErrorText(error.value)
      else if venue.None? then NotFound
      else VenueView(venue.value, AmenitiesFor(venue.value.meta), LocationFor(venue.value.location))
    }

    /** The start of the fetch effect. */
    method StartFetch()
      modifies this
      ensures loading && venue == old(venue) && error == old(error)
      ensures View() == Loading
    {
      loading := true;
    }

    /** The end of the fetch effect: store the venue or the error, and stop loading either way. */
    method FinishFetch(reply: FetchReply)
      modifies this
      ensures !loading
      ensures reply.Fetched? ==> venue == reply.data && error == old(error)
      ensures reply.NotOk? ==> error == Some(FetchFailedMessage) && venue == old(venue)
      ensures reply.Thrown? ==> error == Some(reply.message) && venue == old(venue)
    {
      match reply {
        case Fetched(data) =>
          venue := data;
        case NotOk =>
          error := Some(FetchFailedMessage);
        case Thrown(message) =>
          error := Some(message);
      }
      loading := false;
    }
  }
}
