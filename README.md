# Holidaze front end — a verified model of its component logic

Holidaze is a React front end for booking holiday venues. The front end itself
computes only small, deterministic rules. The server, the browser and the
third-party widgets do the rest. This project models those rules in Dafny and
proves what they promise.

- **Availability calendar.** Bookings are expanded into the list of excluded
  days. The picker keeps the selected start and end.
- **Image carousel.** The index steps back and forward with wrap-around. Key
  presses are dispatched and the lightbox flag follows them.
- **Breadcrumb trail.** The pathname becomes its segments. Hidden segments are
  dropped, and each remaining segment gets a route prefix and a display name.
- **Venue forms.** These are the create-venue page and the update-venue modal.
  - The guest count is clamped and the price is capped.
  - The image list holds at most eight images and can be edited.
  - Submit is guarded.
  - Deleting needs a confirmation view.
- **Booking modal.** Its view depends only on props and the signed cost difference.
- **Login/register modal and edit-profile modal.** These cover the form
  updaters, the request bodies built from the forms, endpoint choice, error
  texts and the preview badge.
- **Venue details and venue page.** These cover the amenity list, location lines
  and fallbacks, the user's bookings, and the page's loading, error and
  not-found precedence.
- **Smaller components.** These are the star picker, the authentication-modal
  context, and the image that falls back to a fixed picture.

Each component is its own module.
- Components that keep `useState` fields are classes. Their handlers are
  methods with `modifies this` and a contract that gives the whole new state.
- Updater expressions, view choices and request bodies are functions, with
  lemmas about them.
- Loops and step-by-step builders stay imperative: the calendar's day loop, the
  amenity `push`es, and the `requestBody`/`payload` assignments. Each one is
  proved equal to a declarative specification function.

Shared modules:
- `Common`: optional values, images, JavaScript truthiness of text and numbers,
  `trim() === ""`, `split`/`join` on one character with their round trip,
  `includes`, and integer-to-text.
- `Json`: JavaScript objects written by field name.
- `VenueRules`: the guest, price and image-list rules. The create page and the
  update modal share these.
- `Venue`: amenities and location lines, shared by the details column and the
  venue page.

Conventions of the model:
- Days are integers, one per calendar day.
- `Number(value)` of a typed input is an integer parameter `num` given next to
  the raw text.
- Network replies, `alert`, `navigate`, `onClose` and the other callbacks are
  parameters or returned values:
  - a method returns `closeCalled`, `notified`, `alerted`, `sent` or `stored`
    to say that it made that call and with what;
  - the reply of a request is an argument of the method that finishes the
    submit.

## Model

| member | source | states |
|---|---|---|
| Common.OrElse | src/pages/CreateVenuePage.jsx:103 | `s \|\| fallback` on strings: the string itself when non-empty, else the fallback |
| Common.Split | src/components/Breadcrumbs.jsx:8 | `split` on one character: at least one piece, no piece holds the separator, and joining the pieces gives the input back |
| Common.SplitJoin | src/components/Breadcrumbs.jsx:8 | splitting the join of separator-free pieces gives exactly those pieces (round trip, by induction) |
| Common.SplitNoSeparator | src/components/Breadcrumbs.jsx:8 | a string without the separator splits into itself alone |
| Common.SplitPrefix | src/components/Breadcrumbs.jsx:8 | a separator-free head followed by the separator becomes the first piece |
| Common.JoinPrefix | src/components/Breadcrumbs.jsx:28 | joining the first k pieces gives a prefix of joining all of them |
| Common.NonEmpty | src/components/Breadcrumbs.jsx:8 | `filter((x) => x)` on strings: what is kept is non-empty and from the input, and every non-empty input string is kept |
| Common.NonEmptyAppend | src/components/Breadcrumbs.jsx:8 | filtering a concatenation is the concatenation of the filtered parts, so order and repetitions are kept (by induction) |
| Common.NonEmptySingle | src/components/Breadcrumbs.jsx:8 | a one-string list keeps its string exactly when it is non-empty |
| Common.SplitConcat | src/components/Breadcrumbs.jsx:8 | splitting at a separator gives the pieces of the left part followed by those of the right part (by induction) |
| Common.NonEmptyKeeps | src/components/Breadcrumbs.jsx:8 | filtering a list with no empty string changes nothing |
| Common.NatToString | src/components/ChooseStarRating.jsx:35 | decimal text of a natural number: non-empty, digits only, no leading zero, and the digits denote the number (`DigitsValue`, read most significant first) |
| Common.IntToString | src/components/BookingModal.jsx:46-48 | text of an integer starts with '-' exactly when it is negative; the digits after the sign denote its magnitude, and without a sign they denote the number |
| Json.Get | src/components/AuthModal.jsx:28 | reading a field: the stored value, or `undefined` when absent |
| Json.Spread | src/components/AuthModal.jsx:28 | `{...v}`: an object's own fields, nothing for `undefined`, `null` or a boolean |
| Calendar.DaysFrom | src/components/Calendar.jsx:19-24 | the days from first to last inclusive: last − first + 1 of them (none when first > last), the i-th being first + i |
| Calendar.ExpandBookings | src/components/Calendar.jsx:11-29 | the effect's loop over the bookings builds exactly `ExcludedDays(bookings)` |
| Calendar.PushRange | src/components/Calendar.jsx:20-24 | the inner `while current <= end` loop appends exactly the days from start to end |
| Calendar.BookedDaysShape | src/components/Calendar.jsx:14-24 | a booking missing a date, or with dateFrom after dateTo, gives no days; otherwise dateTo − dateFrom + 1 days ascending from dateFrom |
| Calendar.ExcludedDaysExact | src/components/Calendar.jsx:12-28 | a day is in the excluded list if and only if some booking with both dates covers it |
| Calendar.InBookedDays | src/components/Calendar.jsx:15-24 | a day is among one booking's days exactly when that booking covers it |
| Calendar.ExcludedDaysAppend | src/components/Calendar.jsx:14-26 | the days of two consecutive groups of bookings are the first group's days then the second's: input order is kept |
| Calendar.ExcludedDaysLength | src/components/Calendar.jsx:12-28 | the list's length is the sum of the bookings' day counts (no deduplication) |
| Calendar.NoDeduplication | src/components/Calendar.jsx:12-28 | the same booking twice puts each of its days in the list twice |
| Calendar.Picker.constructor | src/components/Calendar.jsx:6-8 | no start, no end, no booked days |
| Calendar.Picker.SyncBookedDates | src/components/Calendar.jsx:11-29 | the booked days become the expansion of the bookings; the selection is untouched |
| Calendar.Picker.HandleChange | src/components/Calendar.jsx:32-41 | start and end are stored; `onDateChange({start, end})` is called only when given; the summary (lines 57-61) shows exactly when both are set |
| ImageCarousel.Prev | src/components/ImageCarousel.jsx:22-25 | stays within [0, n) for an index in range; wraps 0 to n − 1 |
| ImageCarousel.Next | src/components/ImageCarousel.jsx:28-31 | stays within [0, n) for an index in range; wraps n − 1 to 0 |
| ImageCarousel.PrevNextInverse | src/components/ImageCarousel.jsx:22-31 | prev after next and next after prev give back the index |
| ImageCarousel.SingleImage | src/components/ImageCarousel.jsx:22-31 | with one image both steps stay at 0 |
| ImageCarousel.NextTimesForward | src/components/ImageCarousel.jsx:28-31 | before the wrap, k presses of next advance by k |
| ImageCarousel.NextTimesSplit | src/components/ImageCarousel.jsx:28-31 | presses of next compose: a + b presses are a presses then b |
| ImageCarousel.FullCycle | src/components/ImageCarousel.jsx:28-31 | n presses of next return to the starting index |
| ImageCarousel.LayoutFor | src/components/ImageCarousel.jsx:62-82 | the placeholder exactly for no images; navigation buttons exactly for more than one |
| ImageCarousel.AltText | src/components/ImageCarousel.jsx:76 | the image's own alt text when it has one, else "Image"; never empty |
| ImageCarousel.Carousel.constructor | src/components/ImageCarousel.jsx:14-16 | index 0, lightbox closed |
| ImageCarousel.Carousel.CurrentImage | src/components/ImageCarousel.jsx:19 | an out-of-range index gives the empty record, never a fault; in range it gives that image |
| ImageCarousel.Carousel.SetImages | src/components/ImageCarousel.jsx:14 | a new image list keeps the index and the lightbox |
| ImageCarousel.Carousel.HandlePrev | src/components/ImageCarousel.jsx:22-25 | the index becomes `Prev` of the old one; nothing else changes |
| ImageCarousel.Carousel.HandleNext | src/components/ImageCarousel.jsx:28-31 | the index becomes `Next` of the old one; nothing else changes |
| ImageCarousel.Carousel.OpenLightbox | src/components/ImageCarousel.jsx:33 | lightbox open, index unchanged |
| ImageCarousel.Carousel.CloseLightbox | src/components/ImageCarousel.jsx:34 | lightbox closed, index unchanged |
| ImageCarousel.Carousel.OnKeyDown | src/components/ImageCarousel.jsx:37-59 | arrows step only with more than one image and keep the lightbox; Escape leaves it closed and never moves the index; other keys change nothing |
| Breadcrumbs.Segments | src/components/Breadcrumbs.jsx:8 | the segments are non-empty and contain no "/" |
| Breadcrumbs.SegmentsSlashFree | src/components/Breadcrumbs.jsx:8 | a slash-free stretch is a single segment, or none when empty |
| Breadcrumbs.SegmentsConcat | src/components/Breadcrumbs.jsx:8 | cutting a pathname at any "/" gives the left part's segments, in order, then the right part's; with SegmentsSlashFree this fixes the ordered segments, repeats included, of every pathname |
| Breadcrumbs.SegmentsOfNormalisedPath | src/components/Breadcrumbs.jsx:8 | "/" followed by segments joined with "/" splits back into exactly those segments |
| Breadcrumbs.ToLower | src/components/Breadcrumbs.jsx:16 | lower-cases each character, keeping the length |
| Breadcrumbs.Allowed | src/components/Breadcrumbs.jsx:14-16 | every kept entry is a visible (not "venue"/"profile", in any case) segment at its original index |
| Breadcrumbs.AllowedComplete | src/components/Breadcrumbs.jsx:14-16 | every visible segment is kept, with its own index |
| Breadcrumbs.AllowedOrdered | src/components/Breadcrumbs.jsx:14-16 | kept entries keep the original order: their indices strictly increase |
| Breadcrumbs.RouteIsPrefix | src/components/Breadcrumbs.jsx:28 | each route is a prefix of the normalised full path |
| Breadcrumbs.RouteSegments | src/components/Breadcrumbs.jsx:28 | the route of index i consists of exactly the first i + 1 segments, hidden ones included |
| Breadcrumbs.DisplayName | src/components/Breadcrumbs.jsx:29-30 | same length; first character upper-cased; every later "-" becomes " " and other characters stay |
| Breadcrumbs.Items | src/components/Breadcrumbs.jsx:26-47 | one item per visible segment, the k-th built from the k-th visible segment |
| Breadcrumbs.Trail | src/components/Breadcrumbs.jsx:18-50 | "Home" linking to "/" always comes first |
| Breadcrumbs.OnlyLastIsPlain | src/components/Breadcrumbs.jsx:31-44 | an item has no link exactly when it is the last |
| Breadcrumbs.LinksArePrefixes | src/components/Breadcrumbs.jsx:28-44 | every link is the route of its own segment's original index, a prefix of the full path |
| Breadcrumbs.ItemTexts | src/components/Breadcrumbs.jsx:29-34 | texts are display names; a non-empty `overrideLast` replaces only the last text and not its link-lessness |
| VenueRules.ClampGuests | src/pages/CreateVenuePage.jsx:76-81 | typed guest counts land in [1, 100]; in-range values are kept, others go to the nearer bound |
| VenueRules.CapPrice | src/pages/CreateVenuePage.jsx:82-87 | typed prices are at most 10000; anything up to 10000 (negative included) is kept |
| VenueRules.FewerGuests | src/pages/CreateVenuePage.jsx:237-241 | the "−" button: max(1, m − 1), at least 1, and keeps [1, 100] |
| VenueRules.MoreGuests | src/pages/CreateVenuePage.jsx:258-262 | the "+" button: min(100, m + 1), at most 100, and keeps [1, 100] |
| VenueRules.DecideAdd | src/pages/CreateVenuePage.jsx:96-100 | a whitespace-only URL is ignored; otherwise eight images already present reject the add; only then is it appended |
| VenueRules.NewImage | src/pages/CreateVenuePage.jsx:103 | the appended image has the URL and the alt text, or "Venue image" when the alt is empty |
| VenueRules.RemoveAt | src/pages/CreateVenuePage.jsx:111-116 | removing index i deletes exactly that element and keeps the others in order; an out-of-range index changes nothing |
| VenueRules.RemoveUndoesAppend | src/pages/CreateVenuePage.jsx:101-116 | removing the image just appended gives back the list |
| CreateVenuePage.InitialVenueData | src/pages/CreateVenuePage.jsx:32-53 | the initial record is well formed, has one guest, no images and an empty price |
| CreateVenuePage.ApplyInput | src/pages/CreateVenuePage.jsx:63-92 | an amenity sets only its flag to `checked`; a location field sets only that field; `maxGuests` becomes `ClampGuests(Number(value))`, in [1, 100]; `price` becomes `CapPrice(Number(value))`, at most 10000; name and description are verbatim; media and rating never change; well-formedness is kept |
| CreateVenuePage.ApplyInputIdempotent | src/pages/CreateVenuePage.jsx:63-92 | the same input event twice has the effect of once |
| CreateVenuePage.DecideSubmit | src/pages/CreateVenuePage.jsx:118-131 | no user means asking to log in; otherwise any falsy required field rejects; only a complete record is sent, unchanged |
| CreateVenuePage.ZeroPriceBlocks | src/pages/CreateVenuePage.jsx:128-131 | an untyped price or a price of 0 blocks the submit |
| CreateVenuePage.SubmitAlwaysAsksLogin | src/pages/CreateVenuePage.jsx:123-126 | the context provides no `user`, and without one every submit stops at the login prompt |
| CreateVenuePage.Page.constructor | src/pages/CreateVenuePage.jsx:32-60 | initial record, empty image inputs, not loading, no error, no success |
| CreateVenuePage.Page.MountEffect | src/pages/CreateVenuePage.jsx:21-25 | without a user the login modal opens |
| CreateVenuePage.Page.HandleInputChange | src/pages/CreateVenuePage.jsx:63-92 | the record becomes `ApplyInput` of the old one; nothing else changes |
| CreateVenuePage.Page.SetNewImageUrl | src/pages/CreateVenuePage.jsx:203 | only the URL input changes |
| CreateVenuePage.Page.SetNewImageAlt | src/pages/CreateVenuePage.jsx:204 | only the alt input changes |
| CreateVenuePage.Page.HandleAddImage | src/pages/CreateVenuePage.jsx:95-108 | blank URL: no change; eight images: the error "You can add a maximum of 8 images." with media untouched; otherwise append, clear both inputs and the error; at most eight images always |
| CreateVenuePage.Page.HandleRemoveImage | src/pages/CreateVenuePage.jsx:111-116 | media becomes `RemoveAt` of the old media; nothing else changes |
| CreateVenuePage.Page.DecreaseGuests | src/pages/CreateVenuePage.jsx:237-241 | the guest count becomes `FewerGuests` of the old one, still in [1, 100] |
| CreateVenuePage.Page.IncreaseGuests | src/pages/CreateVenuePage.jsx:258-262 | the guest count becomes `MoreGuests` of the old one, still in [1, 100] |
| CreateVenuePage.Page.SetRating | src/pages/CreateVenuePage.jsx:281-283 | the star picker's value becomes the rating; nothing else changes |
| CreateVenuePage.Page.HandleSubmit | src/pages/CreateVenuePage.jsx:118-133 | clears error and success; no user opens the login modal and sends nothing; an incomplete record sets the required-fields error and sends nothing; otherwise sends the record and starts loading |
| CreateVenuePage.Page.FinishSubmit | src/pages/CreateVenuePage.jsx:134-152 | loading ends; a created venue sets success and navigates to "/venue/" + id; a refusal sets its text or "Failed to create venue"; a thrown error sets its message |
| UpdateVenueModal.Prefill | src/components/UpdateVenueModal.jsx:15-25 | description, price and guests come from the venue; missing media become [] |
| UpdateVenueModal.ApplyChange | src/components/UpdateVenueModal.jsx:27-44 | `maxGuests` becomes `ClampGuests(Number(value))`, in [1, 100]; `price` becomes `CapPrice(Number(value))`, at most 10000; description verbatim; media never change; only the named field changes |
| UpdateVenueModal.Modal.constructor | src/components/UpdateVenueModal.jsx:5-13 | empty form, empty image inputs, form view |
| UpdateVenueModal.Modal.CurrentView | src/components/UpdateVenueModal.jsx:77-78 | the delete prompt shows exactly when `confirmDelete` is set |
| UpdateVenueModal.Modal.SyncEffect | src/components/UpdateVenueModal.jsx:15-25 | with a venue the form is prefilled; without one it is kept; either way the delete view is left |
| UpdateVenueModal.Modal.HandleChange | src/components/UpdateVenueModal.jsx:27-44 | the form becomes `ApplyChange` of the old one; nothing else changes |
| UpdateVenueModal.Modal.SetNewImageUrl | src/components/UpdateVenueModal.jsx:220 | only the URL input changes |
| UpdateVenueModal.Modal.SetNewImageAlt | src/components/UpdateVenueModal.jsx:232 | only the alt input changes |
| UpdateVenueModal.Modal.HandleAddImage | src/components/UpdateVenueModal.jsx:46-58 | blank URL: no change; eight images: an alert with media and inputs unchanged; otherwise append and clear both inputs |
| UpdateVenueModal.Modal.HandleRemoveImage | src/components/UpdateVenueModal.jsx:60-65 | media becomes `RemoveAt` of the old media |
| UpdateVenueModal.Modal.HandleSubmit | src/components/UpdateVenueModal.jsx:67-75 | the form goes to `onUpdate`; `onClose` is called only when that succeeded; a failure alerts its message and the modal stays open |
| UpdateVenueModal.Modal.RequestDelete | src/components/UpdateVenueModal.jsx:260 | "Delete Venue" switches to the confirmation view |
| UpdateVenueModal.Modal.CancelDelete | src/components/UpdateVenueModal.jsx:108 | "Cancel" returns to the form view |
| UpdateVenueModal.Modal.Close | src/components/UpdateVenueModal.jsx:123 | every close path calls `onClose` and leaves the confirmation view (also lines 82, 87, 128, 253) |
| UpdateVenueModal.Modal.ConfirmDelete | src/components/UpdateVenueModal.jsx:101 | `onDelete` is reachable only from the confirmation view |
| BookingModal.SignedAmount | src/components/BookingModal.jsx:47-48 | "+" in front exactly when the difference is ≥ 0; a negative difference shows its own "-" |
| BookingModal.Render | src/components/BookingModal.jsx:39-142 | confirmation when confirmed, else the delete prompt when asked, else the form; texts and labels chosen by editing; the total line exactly when not editing with both dates and a total; the comparison line exactly when editing with both dates; "Delete Booking" exactly when editing; the guest value shown and forwarded as given |
| BookingModal.LabelsDependOnlyOnEditing | src/components/BookingModal.jsx:39-124 | props that agree on the view flags and editing show the same message, heading and labels |
| BookingModal.CostLinesExclusive | src/components/BookingModal.jsx:105-118 | the total and the comparison line never show together |
| AuthContext.Provider.constructor | src/context/AuthContext.jsx:7 | the modal flag starts false |
| AuthContext.Provider.OpenAuthModal | src/context/AuthContext.jsx:9-12 | sets the flag, whatever argument is passed |
| AuthContext.Provider.CloseAuthModal | src/context/AuthContext.jsx:14-17 | clears the flag |
| AuthContext.Provider.HandleLoginSuccess | src/context/AuthContext.jsx:19-22 | changes no state |
| AuthContext.Provider.Lookup | src/context/AuthContext.jsx:25-31 | a name reads as undefined exactly when it is neither one of the four provided members nor one inherited from `Object.prototype`; `isAuthModalOpen` reads the flag, the other three provided names their functions, and inherited names their inherited member |
| AuthContext.NoUserInContext | src/context/AuthContext.jsx:25-31 | `user` and `logout` read as undefined |
| AuthModal.InitialForm | src/components/AuthModal.jsx:10-18 | the initial form is well formed |
| AuthModal.RouteOf | src/components/AuthModal.jsx:22-32 | a checkbox sets a flag; a name mentioning "avatar" or "banner" writes a nested child; any other name a top-level field |
| AuthModal.NestedRoute | src/components/AuthModal.jsx:26-28 | "parent.child" writes exactly that child of that parent |
| AuthModal.ApplyInput | src/components/AuthModal.jsx:22-32 | only the routed key changes: a checkbox's boolean, a field's text, or one child of a nested object |
| AuthModal.ImageInputRoute | src/components/AuthModal.jsx:112-115 | the four image inputs write "url" or "alt" of "avatar" or "banner" |
| AuthModal.PlainInputRoute | src/components/AuthModal.jsx:110-123 | name, bio, email and password are top-level fields |
| AuthModal.RouteKeepsShape | src/components/AuthModal.jsx:22-32 | writing a flag, a text field, or "url"/"alt" of an image keeps the form's shape |
| AuthModal.RenderedInputKeepsShape | src/components/AuthModal.jsx:110-123 | every rendered input keeps the form's shape |
| AuthModal.ImageBody | src/components/AuthModal.jsx:49-52 | an image in the body keeps the URL and the alt text (`alt \|\| ""`) |
| AuthModal.RequestBody | src/components/AuthModal.jsx:39-54 | login body is exactly email and password; register adds name, bio only when non-empty, venueManager only when true, avatar or banner only when its URL is not blank |
| AuthModal.PartialAdd | src/components/AuthModal.jsx:44-53 | considering one more key adds it, with its value, exactly when its condition holds |
| AuthModal.BuildRequestBody | src/components/AuthModal.jsx:39-54 | the handler's step-by-step `requestBody` equals `RequestBody` |
| AuthModal.EndpointFor | src/components/AuthModal.jsx:56 | the register endpoint exactly in register mode |
| AuthModal.FirstErrorOr | src/components/AuthModal.jsx:66 | the first error entry's message when present and non-empty, else the fallback; never empty |
| AuthModal.SubmitOutcome | src/components/AuthModal.jsx:58-95 | an error thrown by the first request, or in register mode by the login, ends the submit with that error's message; a failed first reply gives its message or "Authentication failed"; in register mode a failed login gives its message or "Login failed"; otherwise the token comes from the login reply in register mode and from the first reply in login mode; a failure message is empty only when a thrown error's is |
| AuthModal.RegisterTokenComesFromLogin | src/components/AuthModal.jsx:69-88 | in register mode the token of a parsed register reply never matters |
| AuthModal.LoginModeIgnoresFollowUp | src/components/AuthModal.jsx:85-88 | in login mode there is no follow-up login |
| AuthModal.Modal.constructor | src/components/AuthModal.jsx:9-20 | login mode, initial form, no error, not loading |
| AuthModal.Modal.HandleInputChange | src/components/AuthModal.jsx:22-32 | the form becomes `ApplyInput` of the old one and stays well formed |
| AuthModal.Modal.ToggleMode | src/components/AuthModal.jsx:130 | flips the mode, so two toggles restore it; nothing else changes |
| AuthModal.Modal.StartSubmit | src/components/AuthModal.jsx:34-56 | starts loading, clears the error, and picks the endpoint and body for the mode |
| AuthModal.Modal.FinishSubmit | src/components/AuthModal.jsx:58-95 | loading ends; on success the outcome's token is stored and the context closes the modal; on failure, thrown errors included, no token is stored, the modal stays as it was and the error is the outcome's message |
| EditProfileModal.TextOrEmpty | src/components/EditProfileModal.jsx:34-36 | missing text reads as "" |
| EditProfileModal.Prefill | src/components/EditProfileModal.jsx:31-40 | bio and both URLs from the profile (each "" when missing), upgrade always false |
| EditProfileModal.ApplyChange | src/components/EditProfileModal.jsx:42-48 | a checkbox writes `checked`, any other input its text; no other field changes |
| EditProfileModal.RenderedInputKeepsShape | src/components/EditProfileModal.jsx:135-171 | every rendered input keeps the form's shape |
| EditProfileModal.Payload | src/components/EditProfileModal.jsx:55-62 | always bio, avatar with "User avatar", banner with "User banner"; `venueManager: true` exactly when upgrade is checked |
| EditProfileModal.BuildPayload | src/components/EditProfileModal.jsx:55-62 | the handler's `payload` with its conditional assignment equals `Payload` |
| EditProfileModal.BannerSrc | src/components/EditProfileModal.jsx:88 | the banner URL, or the placeholder when empty |
| EditProfileModal.AvatarSrc | src/components/EditProfileModal.jsx:95 | the avatar URL, or the placeholder when empty |
| EditProfileModal.BadgeAndCheckbox | src/components/EditProfileModal.jsx:102-162 | after prefill the badge shows exactly for managers; managers are never offered the upgrade and always show the badge; others show it exactly when upgrade is checked |
| EditProfileModal.TickingUpgradeShowsBadge | src/components/EditProfileModal.jsx:162-171 | ticking or unticking the checkbox shows or hides the badge for a non-manager |
| EditProfileModal.Modal.constructor | src/components/EditProfileModal.jsx:21-28 | the empty form, not loading, no error |
| EditProfileModal.Modal.PrefillEffect | src/components/EditProfileModal.jsx:31-40 | with a profile the form is prefilled, otherwise kept |
| EditProfileModal.Modal.HandleChange | src/components/EditProfileModal.jsx:42-48 | the form becomes `ApplyChange` of the old one and stays well formed |
| EditProfileModal.Modal.HandleSubmit | src/components/EditProfileModal.jsx:50-80 | loading ends; without a user, reading its name fails before anything is sent; with one the payload is sent, a refusal sets "Failed to update profile: " + text, a thrown error sets its own message, neither notifies nor closes; a success notifies and closes |
| Venue.LabelsDistinct | src/components/VenueDetails.jsx:17-21 | the four labels "Free Wi-Fi", "Parking", "Breakfast included", "Pets allowed" are pairwise different |
| Venue.Upto | src/components/VenueDetails.jsx:17-21 | among the first n amenities of the fixed order: exactly those whose flag is set, in strictly increasing rank |
| Venue.Amenities | src/components/VenueDetails.jsx:17-21 | an amenity is listed exactly when `meta` exists and sets its flag; order Wi-Fi, Parking, Breakfast, Pets, so no repeats; empty exactly when no meta or no flag |
| Venue.AmenityList | src/components/VenueDetails.jsx:17-21 | the labels shown are empty exactly when there is no meta or no flag is set |
| Venue.AmenityLabels | src/components/VenueDetails.jsx:17-21 | a label is shown exactly when its flag is set, and no label is shown twice |
| Venue.PushStep | src/pages/VenuePage.jsx:74-78 | one conditional `push` extends the labels of the first i amenities to those of the first i + 1 |
| Venue.BuildAmenities | src/pages/VenuePage.jsx:74-78 | the four conditional `push`es build exactly `AmenityList` |
| Venue.LocationLines | src/pages/VenuePage.jsx:126-128 | exactly `NonEmpty([address, city, country])`: each non-empty field appears once, in that order, and no other line; empty exactly when all three fields are |
| VenueDetails.BookingsSection | src/components/VenueDetails.jsx:26-46 | absent exactly without bookings; one row per booking in order, each editing its own booking |
| VenueDetails.AmenityItems | src/components/VenueDetails.jsx:56-66 | "None." exactly when the amenity list is empty, else the list |
| VenueDetails.LocationBlockFor | src/components/VenueDetails.jsx:70-78 | "No location provided" exactly when there is no location or all three fields are empty; otherwise the non-empty fields |
| VenuePage.AmenitiesFor | src/pages/VenuePage.jsx:110-118 | "No amenities listed" exactly when the list is empty |
| VenuePage.LocationFor | src/pages/VenuePage.jsx:122-130 | the location block exactly when a location exists, even with every field empty |
| VenuePage.Page.constructor | src/pages/VenuePage.jsx:12-14 | no venue, loading, no error |
| VenuePage.Page.View | src/pages/VenuePage.jsx:44-54 | loading first, then a non-empty error, then a missing venue, then the page with its amenities and location |
| VenuePage.Page.StartFetch | src/pages/VenuePage.jsx:20 | loading is shown |
| VenuePage.Page.FinishFetch | src/pages/VenuePage.jsx:26-38 | loading ends after success and failure alike; a reply stores its data, a bad status "Failed to fetch venue", a thrown error its message |
| ChooseStarRating.Fill | src/components/ChooseStarRating.jsx:29-41 | five stars; star s is filled exactly when the rating is at least s |
| ChooseStarRating.FillIsPrefix | src/components/ChooseStarRating.jsx:39 | for a rating k in 0..5, exactly the first k stars are filled |
| ChooseStarRating.StarLabel | src/components/ChooseStarRating.jsx:35 | "1 star" for 1, otherwise the number and " stars" |
| ChooseStarRating.StarLabels | src/components/ChooseStarRating.jsx:29-35 | the five labels are "1 star" … "5 stars" |
| ChooseStarRating.Picker.constructor | src/components/ChooseStarRating.jsx:16 | rating 0, no star filled |
| ChooseStarRating.Picker.HandleClick | src/components/ChooseStarRating.jsx:18-23 | the rating becomes the star; `onChange` is called with it only when given; exactly stars 1..k are filled; clicking the current star keeps it |
| ImageWithFallback.SourceFor | src/components/ImageWithFallback.jsx:18-26 | a non-empty `src` is shown as is; a missing or empty one gives the fixed fallback URL; never empty |
| ImageWithFallback.Image.constructor | src/components/ImageWithFallback.jsx:16 | the source starts as "" |
| ImageWithFallback.Image.SrcEffect | src/components/ImageWithFallback.jsx:18-26 | the shown source becomes `SourceFor(src)`, so a new `src` replaces an earlier fallback |
| ImageWithFallback.Image.HandleError | src/components/ImageWithFallback.jsx:28-32 | a load error shows the fallback; a second one changes nothing |

## Left out

- HTTP, storage and navigation are not modelled:
  - `fetch` and the parsing of its response are left out. Each reply is an
    abstract argument (`CreateOutcome`, `UpdateOutcome`, `Reply`, `FetchReply`).
  - `localStorage` is a returned token and `navigate` a returned route.
  - src/service/api.js is not part of this model. Endpoints are named values.
- JavaScript `Date` is not modelled. Days are integers, so time of day,
  time-zone and DST stepping, and `toLocaleDateString` texts are left out.
- `Number()` is modelled only for integer inputs. NaN and fractional input are
  not modelled.
- Case mapping covers ASCII letters only.
- Third-party behaviour is left out: react-datepicker's range selection,
  `minDate` and `excludeDates` enforcement, Headless UI `Dialog`, and the
  registration of the window key listener. Keys reach `OnKeyDown` as strings.
- `CreateVenuePage.Page.HandleInputChange`, `CreateVenuePage.ApplyInput` and
  `UpdateVenueModal.Modal.HandleChange` accept only input names the form can
  deliver. A foreign name would add a raw top-level property, and that case is
  not modelled.
- `AuthModal.Modal.HandleInputChange` and `EditProfileModal.Modal.HandleChange`
  accept only the rendered inputs. The pure updaters `AuthModal.ApplyInput`
  and `EditProfileModal.ApplyChange` take any name.
- Json.Get reads own properties only: an absent key is `undefined` even when
  `Object.prototype` has a member of that name. Every read uses a fixed form
  key, or feeds a spread, where an inherited value spreads to `{}` as
  `undefined` does.
- Json.Spread: spreading a string is modelled as spreading `{}`. JavaScript
  would copy its characters as indexed keys. No rendered input can reach that
  case.
- Guest count in the booking modal: the input hands its raw text to
  `setGuestCount` with no clamping, and the model does the same. Booking cost
  is computed elsewhere and arrives as props.
- `undefined` cost props are not modelled. `newTotalCost` is either a number
  or `null`.
- Missing `onClose`/`onUpdate` props, and `console.log` calls, are not modelled.
- Text for a missing user: `EditProfileModal.MissingUserMessage` uses the
  wording of V8-based browsers. Other engines word this error differently.
- src/components/StarRating.jsx is not part of this model. It relies on
  floating-point rounding.
- The presentation-only components are not part of this model: Header, Footer,
  Layout, Loader, ChevronIcon, Button, ButtonMini, InputField, LocationForm,
  AmenitiesForm, ImageGallery, BookingActions, BookingBox, BookingCard,
  VenueCard, VenueManagerButton, ProfileCard and CreateVenueForm. The same
  goes for the ProfilePage tab switch and the routing in App.jsx.
- SignedAmount and Render: the cost props are integers. The component prints
  whatever number it receives, fractions included; the decimal text of a
  fractional cost is not modelled.
