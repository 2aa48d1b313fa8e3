/** The category page of src/pages/CategoryPage.tsx: the loader that looks a
    category up by its slug and then lists its destinations, and the choice
    of what the page shows from the state the loader leaves. */
module CategoryPage {
  import opened Gateway
  import opened Js
  import opened Catalog

  const CategoriesTable: string := "categories_2025_10_14_17_34"
  const DestinationsTable: string := "destinations_2025_10_14_17_34"
  const HomePath: string := "/"

  /** The lookup: the category whose slug is the route's, at most one row. */
  function CategoryQuery(slug: string): Query
  {
    Query(CategoriesTable, [Eq("slug", TextLit(slug))], [], true)
  }

  /** The listing: the category's destinations, featured ones first, then by
      rating from highest to lowest. */
  function DestinationsQuery(categoryId: string): Query
  {
    Query(DestinationsTable, [Eq("category_id", TextLit(categoryId))],
          [OrderBy("is_featured", false), OrderBy("rating", false)], false)
  }

  const NotFoundToast: Toast := Toast("Category not found", "The requested category does not exist.", true)
  const LoadFailedToast: Toast := Toast("Error", "Failed to load category data. Please try again.", true)

  /** `handleBooking(destination)`. */
  function BookingRequestToast(destination: Destination): Toast {
    Toast("Booking Request", "We'll contact you soon to arrange your visit to " + destination.name + "!", false)
  }

  /** One destination card: its name, location, price range and the first
      three features as badges. */
  datatype Card = Card(destinationId: string, name: string, location: string, priceRange: string, badges: seq<string>)

  function CardFor(destination: Destination): (c: Card)
    ensures c.destinationId == destination.id
    ensures |c.badges| == Min(3, |destination.features|)
    ensures c.badges == destination.features[..|c.badges|]
  {
    Card(destination.id, destination.name, destination.location, destination.priceRange, Take(destination.features, 3))
  }

  /** What the component returns: the spinner, nothing at all, or the
      category's listing with the "No destinations" notice when it is empty. */
  datatype Screen = Spinner | Blank | Listing(category: Category, cards: seq<Card>, emptyNotice: bool)

  class Page {
    /** The `slug` route parameter. */
    var slug: string
    var loading: bool
    var category: Option<Category>
    var destinations: seq<Destination>
    var toasts: seq<Toast>
    var navigations: seq<string>
    var queries: seq<Query>

    /** The state before the first load completes. */
    constructor (routeSlug: string)
      ensures slug == routeSlug && loading && category == None && destinations == []
      ensures toasts == [] && navigations == [] && queries == []
    {
      slug := routeSlug;
      loading := true;
      category := None;
      destinations := [];
      toasts, navigations, queries := [], [], [];
    }

    /** The component's output for the current state. */
    function Render(): (s: Screen)
      reads this
      ensures s.Spinner? <==> loading
      ensures s.Blank? <==> !loading && category.None?
      ensures s.Listing? ==> s.category == category.value && s.cards == Map(destinations, CardFor)
      ensures s.Listing? ==> (s.emptyNotice <==> |destinations| == 0)
    {
      if loading then Spinner
      else if category.None? then Blank
      else Listing(category.value, Map(destinations, CardFor), |destinations| == 0)
    }

    /** What `fetchCategoryData` leaves for the slug `slug` and the two
      outcomes, measured against the state it started from. A failed lookup,
      or a failed listing after a found category, reports one error toast; a
      lookup without a row reports "not found", sends the visitor home and
      issues no listing query; `loading` is false whichever way the loader
      ends. */
    twostate predicate LoadedFrom(slug: string, lookup: QueryResult<Category>, list: QueryResult<seq<Destination>>)
      reads this
    {
      && !loading
      && (lookup.Failed() ==>
            && queries == old(queries) + [CategoryQuery(slug)]
            && toasts == old(toasts) + [LoadFailedToast] && navigations == old(navigations)
            && category == old(category) && destinations == old(destinations))
      && (lookup == Rows(None) ==>
            && queries == old(queries) + [CategoryQuery(slug)]
            && toasts == old(toasts) + [NotFoundToast] && navigations == old(navigations) + [HomePath]
            && category == old(category) && destinations == old(destinations))
      && (lookup.Rows? && lookup.data.Some? ==>
            && queries == old(queries) + [CategoryQuery(slug), DestinationsQuery(lookup.data.value.id)]
            && category == Some(lookup.data.value) && navigations == old(navigations)
            && (list.Failed() ==> toasts == old(toasts) + [LoadFailedToast] && destinations == old(destinations))
            && (!list.Failed() ==> toasts == old(toasts) && destinations == list.data.GetOr([])))
    }

    /** `fetchCategoryData`, given the outcome of the lookup and of the listing. */
    method FetchCategoryData(lookup: QueryResult<Category>, list: QueryResult<seq<Destination>>)
      modifies this`loading, this`category, this`destinations, this`toasts, this`navigations, this`queries
      ensures slug == old(slug)
      ensures LoadedFrom(slug, lookup, list)
    {
      loading := true;
      queries := queries + [CategoryQuery(slug)];
      if lookup.Failed() {
        // `throw categoryError`, or the client threw
        toasts := toasts + [LoadFailedToast];
      } else if lookup.data.None? {
        toasts := toasts + [NotFoundToast];
        navigations := navigations + [HomePath];
      } else {
        var found := lookup.data.value;
        category := Some(found);
        queries := queries + [DestinationsQuery(found.id)];
        if list.Failed() {
          toasts := toasts + [LoadFailedToast];
        } else {
          destinations := list.data.GetOr([]);
        }
      }
      loading := false;  // `finally`
    }

    /** The effect keyed on `slug`: a new route parameter reruns the loader,
      which leaves the state `LoadedFrom` describes for the new slug; the
      same one leaves everything as it was. */
    method SlugChanged(newSlug: string, lookup: QueryResult<Category>, list: QueryResult<seq<Destination>>)
      modifies this`slug, this`loading, this`category, this`destinations, this`toasts, this`navigations, this`queries
      ensures slug == newSlug
      ensures newSlug == old(slug) ==>
        && loading == old(loading) && category == old(category) && destinations == old(destinations)
        && toasts == old(toasts) && navigations == old(navigations) && queries == old(queries)
      ensures newSlug != old(slug) ==> LoadedFrom(newSlug, lookup, list)
    {
      if newSlug != slug {
        slug := newSlug;
        FetchCategoryData(lookup, list);
      }
    }

    method HandleBooking(destination: Destination)
      modifies this`toasts
      ensures toasts == old(toasts) + [BookingRequestToast(destination)]
    {
      toasts := toasts + [BookingRequestToast(destination)];
    }
  }

  /** The whole first visit to a category: what the visitor ends up seeing,
      which toasts and redirects they get, and which queries were sent. */
  method Mount(slug: string, lookup: QueryResult<Category>, list: QueryResult<seq<Destination>>)
    returns (screen: Screen, toasts: seq<Toast>, navigations: seq<string>, queries: seq<Query>)
    ensures |queries| >= 1 && queries[0] == CategoryQuery(slug)
    ensures lookup.Failed() ==>
      screen == Blank && toasts == [LoadFailedToast] && navigations == [] && |queries| == 1
    ensures lookup == Rows(None) ==>
      screen == Blank && toasts == [NotFoundToast] && navigations == [HomePath] && |queries| == 1
    ensures lookup.Rows? && lookup.data.Some? ==>
      && navigations == [] && queries == [CategoryQuery(slug), DestinationsQuery(lookup.data.value.id)]
      && screen.Listing? && screen.category == lookup.data.value
      && (list.Failed() ==> toasts == [LoadFailedToast] && screen.cards == [] && screen.emptyNotice)
      && (!list.Failed() ==>
            && toasts == []
            && screen.cards == Map(list.data.GetOr([]), CardFor)
            && (screen.emptyNotice <==> |list.data.GetOr([])| == 0))
  {
    var page := new Page(slug);
    page.FetchCategoryData(lookup, list);
    screen := page.Render();
    toasts, navigations, queries := page.toasts, page.navigations, page.queries;
  }
}
