/** The packages page of src/pages/Packages.tsx: the loader of all packages,
    newest first, and what the page shows from the state it leaves. */
module PackagesPage {
  import opened Gateway
  import opened Js

  /** A row of the `packages` table. `images`, `features` and `priceRange`
      may be null, and the page tests each before use. */
  datatype Package = Package(
    id: string,
    name: string,
    description: string,
    location: string,
    priceRange: Option<string>,
    images: Option<seq<string>>,
    features: Option<seq<string>>,
    categoryId: string,
    rating: int,
    durationDays: int,
    difficulty: string)

  const PackagesTable: string := "packages"
  const LoadFailedMessage: string := "Failed to load packages. Please try again later."
  const HomePath: string := "/"
  const PackagePathPrefix: string := "/package/"

  /** Every package, most recently created first. */
  const PackagesQuery: Query := Query(PackagesTable, [], [OrderBy("created_at", false)], false)

  /** The detail page a card leads to: `/package/${pkg.id}`. */
  function PackageLink(id: string): string {
    PackagePathPrefix + id
  }

  /** The package id read back from a detail-page path, if it is one. */
  function LinkedPackage(path: string): Option<string> {
    if StartsWith(path, PackagePathPrefix) then Some(path[|PackagePathPrefix|..]) else None
  }

  /** Each card leads to its own package's page, and distinct packages lead
      to distinct pages. */
  lemma PackageLinkRoundTrip(id: string, other: string)
    ensures LinkedPackage(PackageLink(id)) == Some(id)
    ensures id != other ==> PackageLink(id) != PackageLink(other)
  {
    assert PackageLink(id)[..|PackagePathPrefix|] == PackagePathPrefix;
    assert PackageLink(id)[|PackagePathPrefix|..] == id;
    if id != other {
      assert PackageLink(other)[|PackagePathPrefix|..] == other;
    }
  }

  /** A package card: the cover image when there is one, the first three
      features, the duration and the price range when it is not empty. */
  datatype Card = Card(link: string, image: Option<string>, name: string, location: string,
                       badges: seq<string>, durationDays: int, price: Option<string>)

  function CardFor(pkg: Package): (c: Card)
    ensures c.link == PackageLink(pkg.id)
    ensures c.image.Some? <==> pkg.images.Some? && |pkg.images.value| > 0
    ensures c.image.Some? ==> c.image.value == pkg.images.value[0]
    ensures pkg.features.None? ==> c.badges == []
    ensures pkg.features.Some? ==>
      |c.badges| == Min(3, |pkg.features.value|) && c.badges == pkg.features.value[..|c.badges|]
    ensures c.price.Some? <==> pkg.priceRange.Some? && pkg.priceRange.value != ""
    ensures c.price.Some? ==> c.price == pkg.priceRange
  {
    Card(PackageLink(pkg.id),
         if pkg.images.Some? && |pkg.images.value| > 0 then Some(pkg.images.value[0]) else None,
         pkg.name,
         pkg.location,
         if pkg.features.Some? then Take(pkg.features.value, 3) else [],
         pkg.durationDays,
         if pkg.priceRange.Some? && pkg.priceRange.value != "" then pkg.priceRange else None)
  }

  /** Below the heading: the "No packages available" notice with its way
      home, or the grid of cards. */
  datatype Body = NoPackages | Grid(cards: seq<Card>)

  /** What the component returns: a spinner, or the page with the error
      banner when an error is set. */
  datatype Screen = Spinner | Listing(errorBanner: Option<string>, body: Body)

  class Page {
    var loading: bool
    var packages: seq<Package>
    var error: Option<string>
    var queries: seq<Query>
    var navigations: seq<string>

    /** The state before the first load completes. */
    constructor ()
      ensures loading && packages == [] && error == None && queries == [] && navigations == []
    {
      loading := true;
      packages := [];
      error := None;
      queries, navigations := [], [];
    }

    function Render(): (s: Screen)
      reads this
      ensures s.Spinner? <==> loading
      ensures s.Listing? ==> s.errorBanner == error
      ensures s.Listing? ==> (s.body.NoPackages? <==> |packages| == 0)
      ensures s.Listing? && s.body.Grid? ==>
        |s.body.cards| == |packages| &&
        forall i :: 0 <= i < |packages| ==> s.body.cards[i] == CardFor(packages[i])
    {
      if loading then Spinner
      else Listing(error,
                   if |packages| == 0 then NoPackages
                   else Grid(Map(packages, CardFor)))
    }

    /** `fetchPackages`, given the result of the select: success replaces the
      list (null counts as empty) and clears the error; a returned or thrown
      error sets the fixed message and keeps the list; `loading` ends false
      either way. */
    method FetchPackages(result: QueryResult<seq<Package>>)
      modifies this`loading, this`packages, this`error, this`queries
      ensures !loading
      ensures queries == old(queries) + [PackagesQuery]
      ensures !result.Failed() ==> packages == result.data.GetOr([]) && error == None
      ensures result.Failed() ==> packages == old(packages) && error == Some(LoadFailedMessage)
    {
      loading := true;
      queries := queries + [PackagesQuery];
      if result.Failed() {
        // `throw error`, or the client threw
        error := Some(LoadFailedMessage);
      } else {
        packages := result.data.GetOr([]);
        error := None;
      }
      loading := false;  // `finally`
    }

    /** A click on the card itself. */
    method ClickCard(pkg: Package)
      modifies this`navigations
      ensures navigations == old(navigations) + [PackageLink(pkg.id)]
    {
      navigations := navigations + [PackageLink(pkg.id)];
    }

    /** A click on "View Details": the button's own handler runs and then the
      click reaches the card's handler, so the same page is pushed twice. */
    method ClickViewDetails(pkg: Package)
      modifies this`navigations
      ensures navigations == old(navigations) + [PackageLink(pkg.id), PackageLink(pkg.id)]
    {
      navigations := navigations + [PackageLink(pkg.id)];
      ClickCard(pkg);
    }

    /** "Back to Home" under the empty notice. */
    method BackToHome()
      modifies this`navigations
      ensures navigations == old(navigations) + [HomePath]
    {
      navigations := navigations + [HomePath];
    }
  }

  /** The first visit: a failed load shows the error banner together with the
      empty notice, a load of no rows shows the notice alone, and a load of
      some rows shows one card per row in the order the server sent them. */
  method Mount(result: QueryResult<seq<Package>>) returns (screen: Screen, queries: seq<Query>)
    ensures queries == [PackagesQuery]
    ensures screen.Listing?
    ensures result.Failed() ==> screen == Listing(Some(LoadFailedMessage), NoPackages)
    ensures !result.Failed() ==> screen.errorBanner == None
    ensures !result.Failed() ==> (screen.body.NoPackages? <==> |result.data.GetOr([])| == 0)
    ensures !result.Failed() && screen.body.Grid? ==>
      |screen.body.cards| == |result.data.GetOr([])| &&
      forall i :: 0 <= i < |screen.body.cards| ==> screen.body.cards[i].link == PackageLink(result.data.GetOr([])[i].id)
  {
    var page := new Page();
    page.FetchPackages(result);
    screen := page.Render();
    queries := page.queries;
  }
}
