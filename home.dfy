/** The landing page of src/pages/Index.tsx: the catalog it loads, the
    contact form and the booking request with their submit handlers, the
    service-interest checkboxes, and the display rules of its lists. */
module Home {
  import opened Gateway
  import opened Js
  import opened Catalog
  import opened FormFields

  datatype Package = Package(
    id: string,
    name: string,
    description: string,
    durationDays: int,
    price: int,
    destinations: seq<string>,
    inclusions: seq<string>,
    exclusions: seq<string>,
    images: seq<string>,
    isFeatured: bool)

  /** The `contactForm` state record. */
  datatype ContactForm = ContactForm(
    name: string,
    email: string,
    phone: string,
    travelDates: string,
    groupSize: int,
    budgetRange: string,
    serviceInterests: seq<string>,
    specialRequirements: string)

  /** The `bookingForm` state record. */
  datatype BookingRequest = BookingRequest(
    name: string,
    email: string,
    phone: string,
    travelDates: string,
    groupSize: int,
    budgetRange: string,
    packageId: string,
    specialRequirements: string)

  const DefaultContactForm: ContactForm := ContactForm("", "", "", "", 1, "", [], "")
  const DefaultBookingRequest: BookingRequest := BookingRequest("", "", "", "", 1, "", "", "")

  const CategoriesTable: string := "categories_2025_10_14_17_34"
  const DestinationsTable: string := "destinations_2025_10_14_17_34"
  const PackagesTable: string := "packages_2025_10_14_17_34"

  /** The three reads of `fetchData`, issued together. */
  const CatalogQueries: seq<Query> := [
    Query(CategoriesTable, [], [], false),
    Query(DestinationsTable, [], [], false),
    Query(PackagesTable, [Eq("is_featured", BoolLit(true))], [], false)
  ]

  const MessageSentToast: Toast :=
    Toast("Message Sent!", "We'll get back to you within 24 hours to discuss your travel plans.", false)
  const MessageFailedToast: Toast :=
    Toast("Error", "Failed to send message. Please try again.", true)
  const BookingSubmittedToast: Toast :=
    Toast("Booking Submitted!", "We'll confirm your booking within 24 hours.", false)
  /** Note that this one carries no destructive variant. */
  const BookingFailedToast: Toast :=
    Toast("Error", "Failed to submit booking.", false)

  // ---- Service interests ----

  /** `list.filter(s => s !== x)`. */
  function Without(list: seq<string>, x: string): (r: seq<string>)
    ensures x !in r
    ensures forall y :: y != x ==> (y in r <==> y in list)
    ensures |r| <= |list|
  {
    if |list| == 0 then []
    else (if list[0] == x then [] else [list[0]]) + Without(list[1..], x)
  }

  /** Filtering works element by element, so it keeps the order of what remains. */
  lemma {:induction false} WithoutConcat(a: seq<string>, b: seq<string>, x: string)
    ensures Without(a + b, x) == Without(a, x) + Without(b, x)
  {
    if |a| == 0 {
      assert a + b == b;
    } else {
      assert (a + b)[1..] == a[1..] + b;
      WithoutConcat(a[1..], b, x);
    }
  }

  /** Removing what is not there changes nothing. */
  lemma {:induction false} WithoutAbsent(list: seq<string>, x: string)
    requires x !in list
    ensures Without(list, x) == list
  {
    if |list| > 0 {
      WithoutAbsent(list[1..], x);
    }
  }

  /** The list expression of `handleServiceInterestChange`: checking appends
      at the end, unchecking removes every occurrence. Afterwards the service
      is listed exactly when it was checked, and every other interest is
      listed exactly as before. */
  function ToggledInterests(list: seq<string>, service: string, checked: bool): (r: seq<string>)
    ensures (service in r) == checked
    ensures forall other :: other != service ==> (other in r <==> other in list)
  {
    if checked then list + [service] else Without(list, service)
  }

  /** Checking an unchecked interest and unchecking it again restores the list exactly. */
  lemma ToggleOnThenOff(list: seq<string>, service: string)
    requires service !in list
    ensures ToggledInterests(ToggledInterests(list, service, true), service, false) == list
  {
    WithoutConcat(list, [service], service);
    WithoutAbsent(list, service);
    assert Without([service], service) == [];
  }

  /** A category's checkbox is checked iff its name is among the interests. */
  predicate InterestChecked(form: ContactForm, category: Category) {
    category.name in form.serviceInterests
  }

  // ---- The catalog lists ----

  /** `getDestinationsByCategory(id)`: the destinations of one category. */
  function DestinationsByCategory(destinations: seq<Destination>, categoryId: string): (r: seq<Destination>)
    ensures |r| <= |destinations|
    ensures forall d :: d in r <==> d in destinations && d.categoryId == categoryId
  {
    if |destinations| == 0 then []
    else
      (if destinations[0].categoryId == categoryId then [destinations[0]] else [])
      + DestinationsByCategory(destinations[1..], categoryId)
  }

  /** The category filter keeps the original order. */
  lemma {:induction false} DestinationsByCategoryConcat(a: seq<Destination>, b: seq<Destination>, categoryId: string)
    ensures DestinationsByCategory(a + b, categoryId) == DestinationsByCategory(a, categoryId) + DestinationsByCategory(b, categoryId)
  {
    if |a| == 0 {
      assert a + b == b;
    } else {
      assert (a + b)[1..] == a[1..] + b;
      DestinationsByCategoryConcat(a[1..], b, categoryId);
    }
  }

  /** A list all of one category is kept whole. */
  lemma {:induction false} DestinationsByCategoryAll(destinations: seq<Destination>, categoryId: string)
    requires forall i :: 0 <= i < |destinations| ==> destinations[i].categoryId == categoryId
    ensures DestinationsByCategory(destinations, categoryId) == destinations
  {
    if |destinations| > 0 {
      DestinationsByCategoryAll(destinations[1..], categoryId);
    }
  }

  /** The navigation dropdown lists a category's first three destinations. */
  function DropdownDestinations(destinations: seq<Destination>, categoryId: string): (r: seq<Destination>)
    ensures |r| == Min(3, |DestinationsByCategory(destinations, categoryId)|)
    ensures r == DestinationsByCategory(destinations, categoryId)[..|r|]
  {
    Take(DestinationsByCategory(destinations, categoryId), 3)
  }

  /** The category cards list a category's first four destinations. */
  function CardDestinations(destinations: seq<Destination>, categoryId: string): (r: seq<Destination>)
    ensures |r| == Min(4, |DestinationsByCategory(destinations, categoryId)|)
    ensures r == DestinationsByCategory(destinations, categoryId)[..|r|]
  {
    Take(DestinationsByCategory(destinations, categoryId), 4)
  }

  datatype Icon = Utensils | Bed | Mountain | Heart

  /** The key of each icon in `iconMap`. */
  function IconKey(icon: Icon): string {
    match icon
    case Utensils => "utensils"
    case Bed => "bed"
    case Mountain => "mountain"
    case Heart => "heart"
  }

  /** `iconMap[name] || Mountain`. */
  function IconFor(name: string): Icon {
    if name == "utensils" then Utensils
    else if name == "bed" then Bed
    else if name == "heart" then Heart
    else Mountain
  }

  /** Each icon is found under its own key, and a name that is no key falls
      back to the mountain. */
  lemma IconLookup(name: string)
    ensures forall icon :: IconFor(IconKey(icon)) == icon
    ensures (forall icon :: name != IconKey(icon)) ==> IconFor(name) == Mountain
  {
    forall icon ensures IconFor(IconKey(icon)) == icon {
    }
    if forall icon :: name != IconKey(icon) {
      assert name != IconKey(Utensils) && name != IconKey(Bed) && name != IconKey(Heart);
    }
  }

  /** The inclusion badges of a featured package: the first three, then a
      "+k more" badge when k more exist. */
  datatype InclusionBadges = InclusionBadges(shown: seq<string>, more: Option<string>)

  function MoreBadgeText(hidden: int): string {
    "+" + IntToDecimal(hidden) + " more"
  }

  /** The badge reads back the number it names: a `+`, then the count, which
      `parseInt` recovers from the rest of the text. */
  lemma MoreBadgeCount(hidden: nat)
    ensures MoreBadgeText(hidden)[0] == '+'
    ensures ParseInt(MoreBadgeText(hidden)[1..]) == Some(hidden)
  {
    var t := MoreBadgeText(hidden);
    assert t[1..] == IntToDecimal(hidden) + " more";
    ParseIntOfDecimalThen(hidden, " more");
  }

  function InclusionDisplay(inclusions: seq<string>): InclusionBadges {
    InclusionBadges(Take(inclusions, 3),
                    if |inclusions| > 3 then Some(MoreBadgeText(|inclusions| - 3)) else None)
  }

  /** The shown badges and the number in the "+k more" badge account for every
      inclusion exactly once: at most three are shown, in order, and the extra
      badge appears iff more than three exist and names how many are hidden. */
  lemma InclusionsAccounted(inclusions: seq<string>)
    ensures var b := InclusionDisplay(inclusions);
      |b.shown| <= 3 && b.shown == inclusions[..|b.shown|] &&
      (b.more.Some? <==> |inclusions| > 3) &&
      (b.more.Some? ==> b.more.value == MoreBadgeText(|inclusions| - |b.shown|)) &&
      (b.more.None? ==> b.shown == inclusions)
  {
    var b := InclusionDisplay(inclusions);
    if |inclusions| > 3 {
      assert inclusions[..3] == b.shown;
    }
  }

  datatype ContactField = ContactName | ContactEmail | ContactPhone | ContactTravelDates | ContactBudget | ContactRequirements

  /** The inline `setContactForm(prev => ({ ...prev, key: value }))` of a text
      input: the field it names takes the typed value, and every other field,
      interests and group size included, keeps its own. */
  function WithContactText(form: ContactForm, field: ContactField, value: string): (f: ContactForm)
    ensures f.groupSize == form.groupSize && f.serviceInterests == form.serviceInterests
    ensures f.name == (if field == ContactName then value else form.name)
    ensures f.email == (if field == ContactEmail then value else form.email)
    ensures f.phone == (if field == ContactPhone then value else form.phone)
    ensures f.travelDates == (if field == ContactTravelDates then value else form.travelDates)
    ensures f.budgetRange == (if field == ContactBudget then value else form.budgetRange)
    ensures f.specialRequirements == (if field == ContactRequirements then value else form.specialRequirements)
  {
    match field
    case ContactName => form.(name := value)
    case ContactEmail => form.(email := value)
    case ContactPhone => form.(phone := value)
    case ContactTravelDates => form.(travelDates := value)
    case ContactBudget => form.(budgetRange := value)
    case ContactRequirements => form.(specialRequirements := value)
  }

  /** The component's state. Nothing in the page's markup edits `bookingForm`
      or opens the booking dialog; both keep their initial values unless the
      handler below runs. */
  class Page {
    var categories: seq<Category>
    var destinations: seq<Destination>
    var packages: seq<Package>
    var contactForm: ContactForm
    var bookingForm: BookingRequest
    var bookingDialogOpen: bool
    var toasts: seq<Toast>
    var queries: seq<Query>
    /** The records handed to the insert into `contact_submissions_2025_10_14_17_34`. */
    var contactRows: seq<ContactForm>
    /** The records handed to the insert into `bookings_2025_10_14_17_34`. */
    var bookingRows: seq<BookingRequest>

    /** Group sizes only ever hold the default or a value from the select. */
    ghost predicate Valid()
      reads this
    {
      MinGroupSize <= contactForm.groupSize <= MaxGroupSize &&
      MinGroupSize <= bookingForm.groupSize <= MaxGroupSize
    }

    constructor ()
      ensures Valid()
      ensures categories == [] && destinations == [] && packages == []
      ensures contactForm == DefaultContactForm && bookingForm == DefaultBookingRequest
      ensures !bookingDialogOpen && toasts == [] && queries == [] && contactRows == [] && bookingRows == []
    {
      categories, destinations, packages := [], [], [];
      contactForm := DefaultContactForm;
      bookingForm := DefaultBookingRequest;
      bookingDialogOpen := false;
      toasts, queries := [], [];
      contactRows, bookingRows := [], [];
    }

    /** `fetchData`, given the three results. When any call throws, the joined
      promise rejects and nothing is set; otherwise each list whose result
      carries data is replaced by it, even by an empty one. Errors are only
      logged. */
    method FetchData(cats: QueryResult<seq<Category>>, dests: QueryResult<seq<Destination>>,
                     pkgs: QueryResult<seq<Package>>)
      modifies this`categories, this`destinations, this`packages, this`queries
      ensures queries == old(queries) + CatalogQueries
      ensures var rejected := cats.QueryThrew? || dests.QueryThrew? || pkgs.QueryThrew?;
        && categories == (if !rejected && cats.Rows? && cats.data.Some? then cats.data.value else old(categories))
        && destinations == (if !rejected && dests.Rows? && dests.data.Some? then dests.data.value else old(destinations))
        && packages == (if !rejected && pkgs.Rows? && pkgs.data.Some? then pkgs.data.value else old(packages))
    {
      queries := queries + CatalogQueries;
      if cats.QueryThrew? || dests.QueryThrew? || pkgs.QueryThrew? {
        return;
      }
      if cats.Rows? && cats.data.Some? {
        categories := cats.data.value;
      }
      if dests.Rows? && dests.data.Some? {
        destinations := dests.data.value;
      }
      if pkgs.Rows? && pkgs.data.Some? {
        packages := pkgs.data.value;
      }
    }

    method HandleServiceInterestChange(service: string, checked: bool)
      modifies this`contactForm
      ensures contactForm == old(contactForm).(serviceInterests := ToggledInterests(old(contactForm).serviceInterests, service, checked))
      ensures forall c :: InterestChecked(contactForm, c) ==
                          (if c.name == service then checked else InterestChecked(old(contactForm), c))
    {
      contactForm := contactForm.(serviceInterests :=
        if checked then contactForm.serviceInterests + [service]
        else Without(contactForm.serviceInterests, service));
    }

    method SetContactText(field: ContactField, value: string)
      modifies this`contactForm
      ensures contactForm == WithContactText(old(contactForm), field, value)
    {
      contactForm := WithContactText(contactForm, field, value);
    }

    /** The group-size select: `parseInt` of the chosen option value. */
    method SelectContactGroupSize(choice: string)
      requires Valid() && choice in GroupSizeChoices()
      modifies this`contactForm
      ensures Valid() && ParseInt(choice).Some?
      ensures contactForm == old(contactForm).(groupSize := ParseInt(choice).value)
    {
      ChoiceParsesToGroupSize(choice);
      var n := ParseInt(choice);
      contactForm := contactForm.(groupSize := n.value);
    }

    /** `handleContactSubmit`: the form is inserted; an insert without error
      resets the form to its defaults, while a returned error (rethrown) or a
      thrown one keeps the form and shows one destructive toast. */
    method HandleContactSubmit(outcome: InsertOutcome)
      requires Valid()
      modifies this`contactForm, this`toasts, this`contactRows
      ensures Valid()
      ensures contactRows == old(contactRows) + [old(contactForm)]
      ensures outcome.Inserted? ==> contactForm == DefaultContactForm && toasts == old(toasts) + [MessageSentToast]
      ensures !outcome.Inserted? ==> contactForm == old(contactForm) && toasts == old(toasts) + [MessageFailedToast]
    {
      contactRows := contactRows + [contactForm];
      var failed := !outcome.Inserted?;  // `if (error) throw error`, or the call threw
      if !failed {
        toasts := toasts + [MessageSentToast];
        contactForm := DefaultContactForm;
      } else {
        toasts := toasts + [MessageFailedToast];
      }
    }

    /** `handleBookingSubmit` (the top-level one): the result of the insert is
      not inspected, so whenever the call returns, even with an error, the
      form is reset and the dialog closed; only a thrown exception keeps the
      form and shows the error toast. The markup never attaches this handler:
      the only `onSubmit` in the page is `handleContactSubmit`, so the page as
      rendered cannot reach it. It is modelled as written. */
    method HandleBookingSubmit(outcome: InsertOutcome)
      requires Valid()
      modifies this`bookingForm, this`bookingDialogOpen, this`toasts, this`bookingRows
      ensures Valid()
      ensures bookingRows == old(bookingRows) + [old(bookingForm)]
      ensures !outcome.Threw? ==>
        bookingForm == DefaultBookingRequest && !bookingDialogOpen && toasts == old(toasts) + [BookingSubmittedToast]
      ensures outcome.Threw? ==>
        bookingForm == old(bookingForm) && bookingDialogOpen == old(bookingDialogOpen) &&
        toasts == old(toasts) + [BookingFailedToast]
    {
      bookingRows := bookingRows + [bookingForm];
      if !outcome.Threw? {
        toasts := toasts + [BookingSubmittedToast];
        bookingForm := DefaultBookingRequest;
        bookingDialogOpen := false;
      } else {
        toasts := toasts + [BookingFailedToast];
      }
    }
  }

  /** The two submit handlers disagree on a rejected insert: the contact form
      is kept for another attempt while the booking request is cleared and
      reported as submitted. Only the contact handler is attached to the
      page's markup; the booking handler is compared as written. */
  method RejectedInsertHandledDifferently(page: Page, message: string)
    requires page.Valid()
    requires page.contactForm != DefaultContactForm
    modifies page
    ensures page.contactForm == old(page.contactForm) && page.bookingForm == DefaultBookingRequest
    ensures page.toasts == old(page.toasts) + [MessageFailedToast, BookingSubmittedToast]
  {
    page.HandleContactSubmit(Rejected(message));
    page.HandleBookingSubmit(Rejected(message));
  }
}
