/** The rules the create-venue page and the update-venue modal share: guest
    and price limits, and the media list of at most eight images. */
module VenueRules {
  import opened Common

  const MinGuests := 1
  const MaxGuests := 100
  const MaxPrice := 10000
  const MaxImages := 8
  const DefaultAlt := "Venue image"
  const TooManyImagesMessage := "You can add a maximum of 8 images."

  /** A typed `maxGuests` value: clamped to [1, 100]. */
  function ClampGuests(num: int): (guests: int)
    ensures MinGuests <= guests <= MaxGuests
    ensures MinGuests <= num <= MaxGuests ==> guests == num
    ensures num > MaxGuests ==> guests == MaxGuests
    ensures num < MinGuests ==> guests == MinGuests
  {
    if num > 100 then 100 else if num < 1 then 1 else num
  }

  /** A typed `price` value: capped at 10000, with no lower bound. */
  function CapPrice(num: int): (price: int)
    ensures price <= MaxPrice
    ensures num <= MaxPrice ==> price == num
    ensures num > MaxPrice ==> price == MaxPrice
  {
    if num > 10000 then 10000 else num
  }

  /** The "-" guest button: `Math.max(1, m - 1)`. */
  function FewerGuests(m: int): (r: int)
    ensures r >= MinGuests
    ensures MinGuests <= m <= MaxGuests ==> MinGuests <= r <= MaxGuests
    ensures m > MinGuests ==> r == m - 1
  {
    if m - 1 > 1 then m - 1 else 1
  }

  /** The "+" guest button: `Math.min(100, m + 1)`. */
  function MoreGuests(m: int): (r: int)
    ensures r <= MaxGuests
    ensures MinGuests <= m <= MaxGuests ==> MinGuests <= r <= MaxGuests
    ensures m < MaxGuests ==> r == m + 1
  {
    if m + 1 < 100 then m + 1 else 100
  }

  /** What an "Add Image" click does with the current URL input and media list. */
  datatype AddDecision = IgnoreBlank | RejectFull | Append

  function DecideAdd(media: seq<Image>, url: string): (d: AddDecision)
    ensures d == Append ==> |media| < MaxImages
    ensures d == IgnoreBlank <==> IsBlank(url)
    ensures d == RejectFull <==> !IsBlank(url) && |media| >= MaxImages
  {
    if IsBlank(url) then IgnoreBlank
    else if |media| >= 8 then RejectFull
    else Append
  }

  /** The image an add appends: the typed URL, and the typed description or "Venue image". */
  function NewImage(url: string, alt: string): (img: Image)
    ensures img.url == url
    ensures img.alt != ""
    ensures alt != "" ==> img.alt == alt
  {
    Image(url, OrElse(alt, DefaultAlt))
  }

  /** `media.filter((_, index) => index !== indexToRemove)`. */
  function RemoveAt(media: seq<Image>, index: int): (r: seq<Image>)
    ensures r == if 0 <= index < |media| then media[..index] + media[index + 1..] else media
  {
    if media == [] then []
    else (if index == 0 then [] else [media[0]]) + RemoveAt(media[1..], index - 1)
  }

  /** Removing the image just appended gives the list back: remove undoes add. */
  lemma RemoveUndoesAppend(media: seq<Image>, img: Image)
    ensures RemoveAt(media + [img], |media|) == media
  {
    assert (media + [img])[..|media|] == media;
  }
}
