# Himalayan Trails & Tales — a Dafny model of the booking site's client logic

The site is a single-page travel catalogue. Its client logic has four parts:

- A landing page (`src/pages/Index.tsx`). It loads categories, destinations and featured packages, and offers a contact form that is sent to the remote data gateway as one record. The component also holds a booking request form and its submit handler, but its markup never attaches that handler or edits that form (see below).
- A three-step booking wizard (`src/components/BookingForm.tsx`).
- A category page (`src/pages/CategoryPage.tsx`). It looks a category up by slug and lists that category's destinations.
- A packages page (`src/pages/Packages.tsx`).

`src/lib/utils.ts` also defines `getFirstImage`. It picks one image URL out of a loosely typed value and sends storage-hosted URLs through the wsrv.nl resizing proxy. None of the four parts calls it: each reads `images[0]` directly.

The model follows that structure, one module per file:

| module | file | models |
|---|---|---|
| `Gateway` | `gateway.dfy` | The remote gateway as the pages see it. Insert and select outcomes are values handed in by the caller: no error, a returned `{ error }`, or a thrown exception. Queries are recorded as values (table, `eq` filters, `order` calls, `maybeSingle`). Toasts form an append-only log. |
| `Catalog` | `catalog.dfy` | The `Category` and `Destination` records shared by the landing page and the category page. |
| `Js` | `js.dfy` | The JavaScript built-ins the core relies on: `String.prototype.includes`, `Number.prototype.toString` on integers, `parseInt` on decimal text, `slice(0, n)` and `map`. |
| `UriEncoding` | `uri_encoding.dfy` | `encodeURIComponent` as section 15.1.3.4 of ECMA-262 (5.1) defines it: UTF-8 bytes escaped as upper-case `%XY`, with the unreserved marks left alone. Also the inverse decoder the proxy applies. |
| `ImageUtils` | `image_utils.dfy` | `getFirstImage`, and what the proxy reads back from the URL it builds. |
| `FormFields` | `form_fields.dfy` | The group-size select both forms use: ten options `"1"`..`"10"` whose handler stores `parseInt` of the choice. |
| `BookingForm` | `booking_form.dfy` | The wizard as a class: step, booking data, toasts, inserted rows and `onClose` calls. Also the step indicator and the navigation buttons. |
| `Home` | `home.dfy` | The landing page as a class: the three catalog loads, both forms and their submit handlers, the service-interest checkboxes, the category filter, the icon fallback and the list display limits. |
| `CategoryPage` | `category_page.dfy` | The category loader as a class over `loading` / `category` / `destinations`, its slug-keyed effect, and the choice of screen. |
| `PackagesPage` | `packages_page.dfy` | The packages loader as a class over `loading` / `packages` / `error`, the cards, and the choice of screen. |

Each handler that changes component state is a method of the page's class. It names the fields it may change, and its `ensures` gives the complete new state. Pure expressions are functions, and the properties of both are lemmas. The category page and the packages page each also have a `Mount` method. It builds the page, runs the loader on given outcomes, and states what the visitor ends up seeing.

Some behaviour of the code is easy to misread; the model follows the code as written:

- Only a thrown exception keeps the landing page's booking request. Its `handleBookingSubmit` (`src/pages/Index.tsx:88-113`) never reads the insert's result, so a returned error clears the form, closes the dialog and reports success. `Home.Page.HandleBookingSubmit` models this as written. `Home.RejectedInsertHandledDifferently` sets it beside the contact form, which does keep its data on an error.
- That booking handler cannot be reached from the page as rendered. The only `onSubmit` in the rendered markup is `handleContactSubmit` (`src/pages/Index.tsx:320`), and nothing in the markup edits `bookingForm` or opens the booking dialog.
- Failed loads are reported differently on each page. The category page raises a destructive toast (`src/pages/CategoryPage.tsx:78-84`). The packages page shows an error banner (`src/pages/Packages.tsx:76-80`). The landing page shows nothing at all: a result that carries an `{ error }` has no `data`, so `if (res.data)` skips the setter without a log (`src/pages/Index.tsx:174-176`), and only a thrown exception reaches `console.error` (`src/pages/Index.tsx:178-180`).
- `getFirstImage` does not parse JSON-encoded strings: any plain string is taken as the URL itself.
- On the packages page, the "View Details" button sits inside a card that navigates on click. The click bubbles up, so one press pushes the detail page twice (`PackagesPage.Page.ClickViewDetails`).

## Model

| member | source | states |
|---|---|---|
| Js.Includes | src/lib/utils.ts:24 | `includes` is true exactly when the substring occurs at some position of the text |
| Js.NatToDecimal | src/components/BookingForm.tsx:150 | an integer's decimal text is all digits, with no leading zero |
| Js.IntToDecimal | src/lib/utils.ts:27 | definition of `String(n)` for an integer, as in `${width}` and in `num.toString()` (`src/pages/Index.tsx:372`); its partners are `Js.NatToDecimal` and `Js.ParseIntOfDecimal` |
| Js.ParseIntOfDecimal | src/components/BookingForm.tsx:151 | `parseInt` of an integer's decimal text gives that integer back, never `NaN`, negatives included |
| Js.ParseInt | src/components/BookingForm.tsx:151 | definition: `parseInt` reads an optional sign and the run of decimal digits after it; no digit gives `NaN` (`None`); its partner is `Js.ParseIntOfDecimal` |
| Js.Map | src/pages/Packages.tsx:89 | definition of `map`: one result per element, at the element's index; its partner is `Js.MapKeepsOrder` |
| Js.MapKeepsOrder | src/pages/Packages.tsx:89 | `map` keeps the list's order: mapping `a + b` gives the results for `a` then those for `b`, and mapping commutes with `slice(0, n)` |
| Js.Take | src/pages/Index.tsx:807 | `slice(0, n)` keeps the first `min(n, length)` elements, in order |
| UriEncoding.EncodeUriComponent | src/lib/utils.ts:25 | definition: each unreserved character is kept, every other character becomes the `%XY` escapes of its UTF-8 octets; its properties are the rows below |
| UriEncoding.DecodeUtf8Canonical | src/lib/utils.ts:25 | every octet sequence the reference decoder accepts is exactly the UTF-8 encoding of the character it returns, so overlong forms, encoded surrogates and stray octets are refused, as `decodeURIComponent` refuses them |
| UriEncoding.DecodeUtf8Exact | src/lib/utils.ts:25 | the decoder maps a sequence to a character exactly when the sequence is that character's UTF-8 encoding, so `DecodeEncode` is a round trip through a strict decoder |
| UriEncoding.DecoderRefusesInvalid | src/lib/utils.ts:25 | three example sequences: the overlong `C0 80` and `E0 80 80` and the surrogate `ED A0 80` do not decode, and neither does the text `%C0%80` |
| UriEncoding.DecodeEncode | src/lib/utils.ts:25 | percent-decoding the output of `encodeURIComponent` gives back the original text, for every string of Unicode scalar values |
| UriEncoding.EncodeCharRoundTrip | src/lib/utils.ts:25 | a character's encoding starts with `%` exactly when the character is reserved, and then its escapes decode back to that character, consuming exactly its own escapes |
| UriEncoding.Utf8RoundTrip | src/lib/utils.ts:25 | the UTF-8 bytes of any character decode back to that character |
| UriEncoding.EncodedAlphabet | src/lib/utils.ts:25 | encoded text holds only unreserved characters, `%` and upper-case hexadecimal digits |
| UriEncoding.EncodedHasNoAmpersand | src/lib/utils.ts:25-27 | encoded text never contains `&`, so it cannot break out of the `url` query parameter |
| UriEncoding.EncodeUnreserved | src/lib/utils.ts:25 | text made only of unreserved characters is left unchanged |
| UriEncoding.EncodeConcat | src/lib/utils.ts:25 | encoding works character by character: the encoding of a concatenation is the concatenation of the encodings |
| ImageUtils.ChosenUrl | src/lib/utils.ts:9-21 | definition of step 1: the first array element when it is a string, its truthy `url` else truthy `src` when it is an object, a bare string itself, otherwise the placeholder |
| ImageUtils.GetFirstImage | src/lib/utils.ts:8-31 | definition: the chosen URL, rewritten to the proxy URL with the width (100 when omitted) exactly when it contains `supabase.co`; its properties are the rows below |
| ImageUtils.ProxyUrl | src/lib/utils.ts:25-27 | definition of the proxy template; its partner is `ImageUtils.ProxyUrlRoundTrip` |
| ImageUtils.ProxyUrlRoundTrip | src/lib/utils.ts:24-28 | from the proxy URL, the proxy reads back exactly the original image URL (its `url` parameter decoded) and exactly the requested width (its `w` parameter parsed) |
| ImageUtils.ResultShape | src/lib/utils.ts:8-31 | the result is either the URL chosen from the argument, or a proxy URL carrying that URL and the width (100 when omitted); a result not starting with the proxy prefix is the chosen URL |
| ImageUtils.NoUrlGivesPlaceholder | src/lib/utils.ts:9-21 | `null`/`undefined`, an empty array, a null or non-object first element, and any non-string non-array all yield `/placeholder.jpg` |
| ImageUtils.RecordItemChoice | src/lib/utils.ts:16-17 | for an object first element the URL is `url` if truthy, else `src` if truthy, else the placeholder |
| ImageUtils.FirstTextItemUnchanged | src/lib/utils.ts:14-15 | a string first element off the storage host is returned unchanged |
| ImageUtils.BareTextUnchanged | src/lib/utils.ts:19-20 | a bare string off the storage host is returned unchanged |
| ImageUtils.OnlyFirstItemMatters | src/lib/utils.ts:12-13 | two arrays with the same first element give the same result |
| ImageUtils.StorageUrlRewritten | src/lib/utils.ts:24-28 | a URL containing `supabase.co` becomes exactly `https://wsrv.nl/?url=<encoded>&w=<width>&output=webp&q=80` |
| ImageUtils.PlaceholderNotOnStorageHost | src/lib/utils.ts:9 | the placeholder never goes through the proxy |
| ImageUtils.ProxyKeepsHost | src/lib/utils.ts:24-27 | the proxy URL of a storage-hosted URL still contains the storage host |
| ImageUtils.EncodedLength | src/lib/utils.ts:25 | encoding never shortens its input |
| ImageUtils.RewriteNotIdempotent | src/lib/utils.ts:24-30 | a proxied URL differs from the original, and passing it back in wraps it a second time |
| FormFields.GroupSizeChoices | src/pages/Index.tsx:371-373 | the select offers exactly ten options |
| FormFields.ChoiceParsesToGroupSize | src/pages/Index.tsx:366-374 | every option parses to an integer, never `NaN`, lying in 1..10 and printing back as the option's text |
| FormFields.EveryGroupSizeOffered | src/components/BookingForm.tsx:157-161 | every size from 1 to 10 is offered, and its option parses to that size |
| BookingForm.WithField | src/components/BookingForm.tsx:47-49 | the named field takes the new value and every other field keeps its own |
| BookingForm.InitialBookingData | src/components/BookingForm.tsx:37-45 | name and e-mail come from the signed-in user (empty when absent or empty), the group size is 1, the other fields are empty |
| BookingForm.BookingRowFor | src/components/BookingForm.tsx:57-65 | the inserted row carries every booking field unchanged, the user id only when it is present and non-empty, the package id, `price × group size` and status `pending` |
| BookingForm.CalculateTotal | src/components/BookingForm.tsx:51-53 | definition: price times group size; bounded by `BookingForm.TotalForChosenGroupSize` |
| BookingForm.Moved | src/components/BookingForm.tsx:84-90 | definition of one `nextStep` or `prevStep`; its effect is stated by `BookingForm.MoveEffect` |
| BookingForm.Indicator | src/components/BookingForm.tsx:96-110 | definition of the three circles; what they show is stated by `BookingForm.IndicatorMatchesStep` |
| BookingForm.ShowsConfirm | src/components/BookingForm.tsx:304 | definition: the confirm button replaces "Next Step" once `step < 3` fails; stated by `BookingForm.IndicatorMatchesStep` |
| BookingForm.PreviousDisabled | src/components/BookingForm.tsx:299 | definition: "Previous" is disabled when `step === 1`; stated by `BookingForm.IndicatorMatchesStep` |
| BookingForm.MoveEffect | src/components/BookingForm.tsx:84-90 | `nextStep` on step 3 and `prevStep` on step 1 change nothing; any other move changes the step by exactly one, in its own direction |
| BookingForm.StepStaysInRange | src/components/BookingForm.tsx:36 | from step 1..3, any sequence of moves stays within 1..3 |
| BookingForm.AdvanceNeedsForwardMoves | src/components/BookingForm.tsx:84-86 | the step never gains more than the number of `nextStep` calls |
| BookingForm.ConfirmNeedsTwoForwardMoves | src/components/BookingForm.tsx:304-313 | getting from step 1 to the confirm step takes at least two `nextStep` calls |
| BookingForm.IndicatorMatchesStep | src/components/BookingForm.tsx:96-110 | on step s the indicator shows s highlighted circles and s−1 check marks, every checked circle is highlighted, the confirm button shows exactly on step 3, and "Previous" is disabled exactly on step 1 |
| BookingForm.TotalForChosenGroupSize | src/components/BookingForm.tsx:51-53 | with a size chosen from the select, the total lies between one and ten times the price |
| BookingForm.Wizard.constructor | src/components/BookingForm.tsx:33-45 | the wizard opens on step 1 with the initial booking data seeded from the user signed in at that moment, no toasts, no rows |
| BookingForm.Wizard.AuthChanged | src/components/BookingForm.tsx:34 | a new user from the auth context replaces the old one and leaves the booking data as it was seeded on the first render |
| BookingForm.SignInAfterOpening | src/components/BookingForm.tsx:37-60 | a visitor who opens the wizard signed out and signs in before submitting sends a row with their id (null when it is empty) but the empty name and e-mail the form started with |
| BookingForm.Wizard.NextStep | src/components/BookingForm.tsx:84-86 | the step advances by one below step 3 and stays put on step 3, keeping the step in range |
| BookingForm.Wizard.PrevStep | src/components/BookingForm.tsx:88-90 | the step goes back by one above step 1 and stays put on step 1, keeping the step in range |
| BookingForm.Wizard.HandleInputChange | src/components/BookingForm.tsx:47-49 | the booking data becomes the old data with the one field replaced |
| BookingForm.Wizard.SelectGroupSize | src/components/BookingForm.tsx:151 | the stored group size is the chosen option parsed, and lies in 1..10 |
| BookingForm.Wizard.HandleSubmitBooking | src/components/BookingForm.tsx:55-82 | the row is always handed to the insert; success gives the "Booking Submitted!" toast and one `onClose` call; a returned or thrown error gives one destructive "Booking Failed" toast with its message and no close |
| Home.Without | src/pages/Index.tsx:226 | the filter removes every occurrence of the service and keeps every other interest |
| Home.WithoutConcat | src/pages/Index.tsx:226 | the filter keeps the order of the interests that remain |
| Home.WithoutAbsent | src/pages/Index.tsx:226 | removing an interest that is not listed changes nothing |
| Home.ToggledInterests | src/pages/Index.tsx:221-228 | after a toggle the service is listed exactly when it was checked, and every other interest is listed exactly as before |
| Home.ToggleOnThenOff | src/pages/Index.tsx:221-228 | checking an unchecked interest and unchecking it again restores the original list exactly |
| Home.DestinationsByCategory | src/pages/Index.tsx:183-185 | a destination is in the result exactly when it is in the list and has that category id |
| Home.DestinationsByCategoryConcat | src/pages/Index.tsx:183-185 | the filter keeps the original order |
| Home.DestinationsByCategoryAll | src/pages/Index.tsx:183-185 | a list all of one category is kept whole |
| Home.DropdownDestinations | src/pages/Index.tsx:278 | the dropdown shows the first three of a category's destinations, in order |
| Home.CardDestinations | src/pages/Index.tsx:873 | the category card shows the first four of a category's destinations, in order |
| Home.IconFor | src/pages/Index.tsx:249 | definition of the icon lookup: the `iconMap` entry for the category's icon name, or `Mountain` when there is none; stated by `Home.IconLookup` |
| Home.InclusionDisplay | src/pages/Index.tsx:807-816 | definition of the inclusion badges; stated by `Home.InclusionsAccounted` |
| Home.InterestChecked | src/pages/Index.tsx:401 | definition: a checkbox is checked iff the category's name is among the interests; `Home.Page.HandleServiceInterestChange` states how a toggle changes it |
| Home.MoreBadgeText | src/pages/Index.tsx:814 | definition of the `+{k} more` text; stated by `Home.MoreBadgeCount` and `Home.InclusionsAccounted` |
| Home.MoreBadgeCount | src/pages/Index.tsx:814 | the badge text is a `+` followed by text from which `parseInt` reads back exactly the hidden count |
| Home.WithContactText | src/pages/Index.tsx:327-416 | the text field an input names takes the typed value, and every other field, the interests and group size included, keeps its own |
| Home.IconLookup | src/pages/Index.tsx:51-56 | every icon is found under its own key, and any other name falls back to the mountain icon |
| Home.InclusionsAccounted | src/pages/Index.tsx:807-816 | at most three inclusions are shown, in order; a "+k more" badge appears exactly when there are more than three, with k the number hidden |
| Home.Page.constructor | src/pages/Index.tsx:59-86 | both forms start at their defaults (group size 1, no interests) and every list is empty |
| Home.Page.FetchData | src/pages/Index.tsx:167-181 | the three queries are sent; if any call throws nothing is set; otherwise each list whose result carries data is replaced by it, and a result with an error or no data leaves its list alone |
| Home.Page.HandleServiceInterestChange | src/pages/Index.tsx:221-228 | the interests become the toggled list; the toggled category's checkbox shows the new state and every other checkbox keeps its state |
| Home.Page.SetContactText | src/pages/Index.tsx:327-416 | a text input replaces its own field of the contact form and no other |
| Home.Page.SelectContactGroupSize | src/pages/Index.tsx:366 | the stored group size is the chosen option parsed, and lies in 1..10 |
| Home.Page.HandleContactSubmit | src/pages/Index.tsx:187-219 | the form is inserted; success resets it to its defaults with the "Message Sent!" toast; a returned or thrown error keeps it unchanged with one destructive "Error" toast |
| Home.Page.HandleBookingSubmit | src/pages/Index.tsx:88-113 | the request is inserted; unless the call throws, the form resets, the dialog closes and "Booking Submitted!" is shown, even after a returned error; a throw keeps the form and shows a non-destructive "Error" toast |
| Home.RejectedInsertHandledDifferently | src/pages/Index.tsx:88-113 | on a returned insert error the contact form keeps its data while the booking request is cleared and reported as submitted |
| CategoryPage.CategoryQuery | src/pages/CategoryPage.tsx:50-54 | definition of the lookup: the categories table, `eq('slug', slug)`, at most one row |
| CategoryPage.DestinationsQuery | src/pages/CategoryPage.tsx:69-74 | definition of the listing: the destinations table, `eq('category_id', id)`, ordered by `is_featured` then `rating`, both descending |
| CategoryPage.CardFor | src/pages/CategoryPage.tsx:178-184 | a destination card shows at most the first three features, in order |
| CategoryPage.Page.constructor | src/pages/CategoryPage.tsx:37-39 | the page starts loading, with no category and no destinations |
| CategoryPage.Page.Render | src/pages/CategoryPage.tsx:97-293 | the spinner shows exactly while loading; otherwise nothing renders exactly when there is no category; otherwise the listing shows the category's cards, with the empty notice exactly when there are no destinations |
| CategoryPage.Page.FetchCategoryData | src/pages/CategoryPage.tsx:46-88 | through `LoadedFrom`: a lookup error gives one "Error" toast and no navigation; no row gives one "Category not found" toast, navigation to `/`, no listing query and no change to `category`; a found category is stored and its destinations are queried by `category_id`, `is_featured` then `rating`, both descending; a listing error gives one "Error" toast, otherwise the destinations become the data or `[]`; `loading` is false on every path |
| CategoryPage.Page.SlugChanged | src/pages/CategoryPage.tsx:42-44 | a new slug reruns the loader and leaves exactly the state `FetchCategoryData` promises for that slug (every field, on every path); the same slug changes nothing |
| CategoryPage.BookingRequestToast | src/pages/CategoryPage.tsx:90-95 | definition of the non-destructive "Booking Request" toast naming the destination; used by `CategoryPage.Page.HandleBooking` |
| CategoryPage.Page.HandleBooking | src/pages/CategoryPage.tsx:90-95 | one "Booking Request" toast naming the destination |
| CategoryPage.Mount | src/pages/CategoryPage.tsx:42-110 | on a first visit a failed or empty lookup renders nothing, with exactly one toast (and a redirect home when not found) and a single query; a found category renders its listing, with an empty list and one toast when the listing fails, otherwise one card per row and the empty notice exactly when there are none |
| PackagesPage.PackageLink | src/pages/Packages.tsx:97 | definition of `/package/${pkg.id}`; stated by `PackagesPage.PackageLinkRoundTrip` |
| PackagesPage.PackageLinkRoundTrip | src/pages/Packages.tsx:97 | a card's link leads back to its package's id, and distinct packages get distinct links |
| PackagesPage.CardFor | src/pages/Packages.tsx:96-141 | the card links to `/package/<id>`; it shows an image exactly when `images` is present and non-empty, and then the first one; at most the first three features; the price range exactly when it is non-empty |
| PackagesPage.Page.constructor | src/pages/Packages.tsx:26-28 | the page starts loading with no packages and no error |
| PackagesPage.Page.Render | src/pages/Packages.tsx:54-147 | the spinner shows exactly while loading; otherwise the error banner shows exactly when an error is set, and the "No packages available" notice exactly when the list is empty, so the two can show together |
| PackagesPage.Page.FetchPackages | src/pages/Packages.tsx:34-52 | the newest-first query is sent; success sets the packages to the data or `[]` and clears the error; failure sets the fixed message and keeps the packages; `loading` ends false |
| PackagesPage.Page.ClickCard | src/pages/Packages.tsx:97 | a click on a card navigates to its package's page |
| PackagesPage.Page.ClickViewDetails | src/pages/Packages.tsx:141 | the button's navigation is followed by the card's, so the package page is pushed twice |
| PackagesPage.Page.BackToHome | src/pages/Packages.tsx:85 | the button navigates to `/` |
| PackagesPage.Mount | src/pages/Packages.tsx:30-147 | on a first visit a failed load shows the error banner together with the empty notice; a successful one shows no banner and the empty notice exactly when no rows came back, otherwise one card per row linking to that row's package |

## Left out

- Network, timing and concurrency. Every gateway call is replaced by an outcome given as a parameter. `Promise.all` in `fetchData` becomes three outcomes seen together. Renders between `setLoading(true)` and the awaited result, late updates after unmounting, and the order in which React batches state updates are not modelled.
- The server's behaviour. The queries are recorded as values, but the model does not state that the rows returned match their filters or their ordering.
- Console logging, the clipboard handler `handleShowContact`, the scroll listener, the dropdown hover state, the `selectedDestination` dialog, and all JSX layout, styling and animation.
- The duplicated `handleBookingSubmit` nested inside `useEffect` in `src/pages/Index.tsx` (lines 121-151). It is a bad splice that inserts markup as a row, not intended behaviour.
- `cn` in `src/lib/utils.ts`, the route table in `src/App.tsx`, and the patch script `fix_final.mjs`.
- `toLocaleString` price formatting and all floating-point arithmetic. Prices, ratings, totals and widths are unbounded integers: prices and sizes are small in practice, so `price × group size` on doubles is exact and rounding is not modelled.
- ImageUtils.GetFirstImage: a non-integer or non-finite `width`, and an integer so large that JavaScript prints it in exponent form, are not modelled; the width is an integer printed in plain decimal.
- ImageUtils.GetFirstImage: a truthy `url` or `src` property that is not a string (a number, an object) is not modelled; the module's properties are text or absent.
- UriEncoding.EncodeUriComponent: lone UTF-16 surrogates, on which `encodeURIComponent` throws `URIError`, cannot occur, because a Dafny `char` is a Unicode scalar value.
- Js.ParseInt: leading whitespace and a `0x` prefix are not modelled; an optional sign and the run of decimal digits after it are read, anything after the run is ignored, and `NaN` is `None`, as for the texts that reach it: the group-size options, and the `w` parameter that `ImageUtils.ProxyParameters` reads back from a proxy URL.
- BookingForm.Wizard.HandleInputChange requires the value to have the field's kind (a number for `group_size`, text otherwise), as at every call site. The source's untyped `any` value is not modelled.
- Home.IconFor: keys inherited from `Object.prototype` (for example `"toString"`), which would find a non-component in `iconMap`, are not modelled; every name other than the four keys falls back to the mountain icon.
- CategoryPage.Page.FetchCategoryData: an `undefined` slug (a route without the parameter) is not modelled; the slug is always text.
