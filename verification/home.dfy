/**
 * The home screen as a state machine: the six `useState` values plus the
 * browser, the fetch's two outcomes, the region links, "Load more", a click
 * on a card, and logout; with the views derived from the state (the filtered
 * list, the grid and whether "Load more" is offered).
 */
module Home {
  import opened Optional
  import opened Browser
  import opened Countries

  /** The initial cursor and the amount "Load more" adds. */
  const PageSize: nat := 6
  const AllRegions: string := "All"
  /** The record the slider starts on when the collection has one. */
  const SliderDefaultName: string := "India"
  const LoginPath: string := "/"

  /** The three region links of the navigation bar. */
  datatype RegionLink = AllLink | AsiaLink | EuropeLink

  function Label(l: RegionLink): string
  {
    match l
    case AllLink => AllRegions
    case AsiaLink => "Asia"
    case EuropeLink => "Europe"
  }

  datatype HomeState = HomeState(
    countries: seq<Country>,
    visible: nat,
    loading: bool,
    region: string,
    featured: Option<Country>,
    sliderCountry: Option<Country>,
    browser: Session)

  /** The state as the screen mounts, before the fetch settles. */
  function Initial(b: Session): HomeState
  {
    HomeState([], PageSize, true, AllRegions, None, None, b)
  }

  /** `filteredCountries`: the whole collection under "All", otherwise the records of the region. */
  function FilteredCountries(s: HomeState): (r: seq<Country>)
    ensures s.region == AllRegions ==> r == s.countries
    ensures forall c :: c in r <==> c in s.countries && (s.region == AllRegions || c.region == s.region)
    ensures forall c :: multiset(r)[c] ==
              if s.region == AllRegions || c.region == s.region then multiset(s.countries)[c] else 0
    ensures IsSubsequence(r, s.countries)
  {
    if s.region == AllRegions then
      assert IsSubsequence(s.countries, s.countries) by { SubsequenceReflexive(s.countries); }
      s.countries
    else
      FilterIsSubsequence(s.countries, s.region);
      assert forall c :: c in FilterByRegion(s.countries, s.region) <==> c in s.countries && c.region == s.region by {
        forall c {
          FilterMembership(s.countries, s.region, c);
        }
      }
      assert forall c :: multiset(FilterByRegion(s.countries, s.region))[c] ==
                         if c.region == s.region then multiset(s.countries)[c] else 0 by {
        forall c {
          FilterMultiplicity(s.countries, s.region, c);
        }
      }
      FilterByRegion(s.countries, s.region)
  }

  lemma {:induction false} SubsequenceReflexive(xs: seq<Country>)
    ensures IsSubsequence(xs, xs)
    decreases |xs|
  {
    if |xs| > 0 {
      SubsequenceReflexive(xs[1..]);
    }
  }

  /** The cards rendered once loading is over: `filteredCountries.slice(0, visible)`. */
  function Grid(s: HomeState): (r: seq<Country>)
    ensures |r| == if s.visible < |FilteredCountries(s)| then s.visible else |FilteredCountries(s)|
    ensures r == FilteredCountries(s)[..|r|]
  {
    Take(FilteredCountries(s), s.visible)
  }

  /** The "Load more" button is rendered. */
  function ShowLoadMore(s: HomeState): (shown: bool)
    ensures shown <==> !s.loading && |Grid(s)| < |FilteredCountries(s)|
  {
    !s.loading && s.visible < |FilteredCountries(s)|
  }

  /** The fetch's `.then` with the decoded array `data`; `pick` stands for `Math.floor(Math.random() * data.length)`. */
  function OnFetchSuccess(s: HomeState, data: seq<Country>, pick: nat): (r: HomeState)
    requires |data| == 0 || pick < |data|
    ensures r.countries == data && !r.loading
    ensures r.visible == s.visible && r.region == s.region && r.browser == s.browser
    ensures |data| == 0 ==> r.sliderCountry.None? && r.featured.None?
    ensures (exists i :: 0 <= i < |data| && data[i].name == SliderDefaultName) ==>
              r.sliderCountry.Some? && r.sliderCountry.value.name == SliderDefaultName &&
              exists k :: 0 <= k < |data| && data[k] == r.sliderCountry.value &&
                          forall j :: 0 <= j < k ==> data[j].name != SliderDefaultName
    ensures |data| > 0 && (forall i :: 0 <= i < |data| ==> data[i].name != SliderDefaultName) ==>
              r.sliderCountry == Some(data[0])
    ensures r.featured.Some? <==> |data| > 0
    ensures r.featured.Some? ==> r.featured.value in data
    ensures r.sliderCountry.Some? ==> r.sliderCountry.value in data
  {
    var slider := match FindByName(data, SliderDefaultName)
                  case Some(c) => Some(c)
                  case None => if |data| > 0 then Some(data[0]) else None;
    var featured := if |data| > 0 then Some(data[pick]) else None;
    s.(countries := data, loading := false, sliderCountry := slider, featured := featured)
  }

  /** The fetch's `.catch`: the failure is only logged, and loading ends. */
  function OnFetchFailure(s: HomeState): (r: HomeState)
    ensures !r.loading
    ensures r == s.(loading := r.loading)
    ensures FilteredCountries(r) == FilteredCountries(s)
  {
    s.(loading := false)
  }

  /** `loadMore`: the cursor grows by one page; the grid grows by up to one page and keeps what it showed. */
  function LoadMore(s: HomeState): (r: HomeState)
    ensures r.visible == s.visible + PageSize
    ensures r == s.(visible := r.visible)
    ensures FilteredCountries(r) == FilteredCountries(s)
    ensures Grid(s) == Grid(r)[..|Grid(s)|]
    ensures |Grid(r)| == if s.visible + PageSize < |FilteredCountries(s)| then s.visible + PageSize
                         else |FilteredCountries(s)|
  {
    s.(visible := s.visible + PageSize)
  }

  /** A region link's `onClick`: set the region and reset the cursor, even for the region already chosen. */
  function SelectRegion(s: HomeState, l: RegionLink): (r: HomeState)
    ensures r.region == Label(l) && r.visible == PageSize
    ensures r == s.(region := r.region, visible := r.visible)
    ensures |Grid(r)| <= PageSize
    ensures l == AllLink ==> FilteredCountries(r) == s.countries
  {
    s.(region := Label(l), visible := PageSize)
  }

  /** `showInSlider(country)`: only the slider selection changes. */
  function ShowInSlider(s: HomeState, c: Country): (r: HomeState)
    ensures r.sliderCountry == Some(c)
    ensures r == s.(sliderCountry := r.sliderCountry)
    ensures Grid(r) == Grid(s) && ShowLoadMore(r) == ShowLoadMore(s)
  {
    s.(sliderCountry := Some(c))
  }

  /** `handleLogout`: drop the session marker and navigate to the login page; the view is untouched. */
  function HandleLogout(s: HomeState): (r: HomeState)
    ensures !r.browser.hasUser
    ensures Location(r.browser) == Some(LoginPath)
    ensures r.browser.history == s.browser.history + [LoginPath]
    ensures r == s.(browser := r.browser)
  {
    s.(browser := Navigate(RemoveUser(s.browser), LoginPath))
  }

  /** Logging out again changes neither the session marker, the location nor the view. */
  lemma LogoutIdempotent(s: HomeState)
    ensures HandleLogout(HandleLogout(s)).browser.hasUser == HandleLogout(s).browser.hasUser
    ensures Location(HandleLogout(HandleLogout(s)).browser) == Location(HandleLogout(s).browser)
    ensures HandleLogout(HandleLogout(s)).(browser := s.browser) == HandleLogout(s).(browser := s.browser)
  {
  }

  /** Everything that can happen to the screen. */
  datatype Event =
    | FetchSucceeded(data: seq<Country>, pick: nat)
    | FetchFailed
    | RegionClicked(link: RegionLink)
    | LoadMoreClicked
    | CardClicked(index: nat)
    | LogoutClicked

  /**
   * Whether the screen can receive the event: the fetch settles once, while
   * loading; "Load more" only while its button is rendered; a card click only
   * on a rendered card.
   */
  predicate Enabled(s: HomeState, e: Event)
  {
    match e
    case FetchSucceeded(data, pick) => s.loading && (|data| == 0 || pick < |data|)
    case FetchFailed => s.loading
    case RegionClicked(_) => true
    case LoadMoreClicked => ShowLoadMore(s)
    case CardClicked(k) => !s.loading && k < |Grid(s)|
    case LogoutClicked => true
  }

  /** One event; one the screen cannot receive leaves the state as it is. */
  function Step(s: HomeState, e: Event): (r: HomeState)
    ensures !Enabled(s, e) ==> r == s
    ensures !e.FetchSucceeded? ==> r.countries == s.countries && r.featured == s.featured
    ensures !e.FetchSucceeded? && !e.FetchFailed? ==> r.loading == s.loading
    ensures !e.LogoutClicked? ==> r.browser == s.browser
    ensures e.LogoutClicked? ==> !r.browser.hasUser && Location(r.browser) == Some(LoginPath)
    ensures e.RegionClicked? ==> r.region == Label(e.link) && r.visible == PageSize
    ensures !e.RegionClicked? ==> r.region == s.region
    ensures e.LoadMoreClicked? && Enabled(s, e) ==> r.visible == s.visible + PageSize
    ensures e.CardClicked? && Enabled(s, e) ==> r.sliderCountry == Some(Grid(s)[e.index])
  {
    if !Enabled(s, e) then s
    else match e
      case FetchSucceeded(data, pick) => OnFetchSuccess(s, data, pick)
      case FetchFailed => OnFetchFailure(s)
      case RegionClicked(l) => SelectRegion(s, l)
      case LoadMoreClicked => LoadMore(s)
      case CardClicked(k) => ShowInSlider(s, Grid(s)[k])
      case LogoutClicked => HandleLogout(s)
  }

  function Run(s: HomeState, es: seq<Event>): HomeState
    decreases |es|
  {
    if |es| == 0 then s else Run(Step(s, es[0]), es[1..])
  }

  /**
   * What every reachable state satisfies: the cursor is a positive multiple of
   * six; the region is one a link sets; nothing is loaded or selected while
   * loading; the selections are records of the collection; and once loading
   * is over, both selections exist exactly when the collection is non-empty.
   */
  predicate Inv(s: HomeState)
  {
    && s.visible >= PageSize && s.visible % PageSize == 0
    && (s.region == Label(AllLink) || s.region == Label(AsiaLink) || s.region == Label(EuropeLink))
    && (s.loading ==> s.countries == [] && s.featured.None? && s.sliderCountry.None?)
    && (s.featured.Some? ==> s.featured.value in s.countries)
    && (s.sliderCountry.Some? ==> s.sliderCountry.value in s.countries)
    && (!s.loading ==> (s.featured.Some? <==> |s.countries| > 0))
    && (!s.loading ==> (s.sliderCountry.Some? <==> |s.countries| > 0))
  }

  lemma InitialSatisfiesInv(b: Session)
    ensures Inv(Initial(b))
    ensures Grid(Initial(b)) == [] && !ShowLoadMore(Initial(b))
  {
  }

  lemma StepPreservesInv(s: HomeState, e: Event)
    requires Inv(s)
    ensures Inv(Step(s, e))
  {
  }

  lemma {:induction false} RunPreservesInv(s: HomeState, es: seq<Event>)
    requires Inv(s)
    ensures Inv(Run(s, es))
    decreases |es|
  {
    if |es| > 0 {
      StepPreservesInv(s, es[0]);
      RunPreservesInv(Step(s, es[0]), es[1..]);
    }
  }

  /** `n` presses of "Load more". */
  function LoadMoreTimes(s: HomeState, n: nat): HomeState
    decreases n
  {
    if n == 0 then s else LoadMore(LoadMoreTimes(s, n - 1))
  }

  /** From the initial cursor, `n` presses show `min(|filteredCountries|, 6 + 6n)` cards. */
  lemma {:induction false} LoadMoreRepeated(s: HomeState, n: nat)
    requires s.visible == PageSize
    ensures LoadMoreTimes(s, n).visible == PageSize * (n + 1)
    ensures FilteredCountries(LoadMoreTimes(s, n)) == FilteredCountries(s)
    ensures |Grid(LoadMoreTimes(s, n))| ==
              if PageSize * (n + 1) < |FilteredCountries(s)| then PageSize * (n + 1) else |FilteredCountries(s)|
    decreases n
  {
    if n > 0 {
      LoadMoreRepeated(s, n - 1);
    }
  }

  /** Choosing a region after any number of presses brings the cursor back to one page. */
  lemma RegionResetsPaging(s: HomeState, n: nat, l: RegionLink)
    requires s.visible == PageSize
    ensures SelectRegion(LoadMoreTimes(s, n), l).visible == PageSize
    ensures SelectRegion(LoadMoreTimes(s, n), l).countries == s.countries
  {
  }

  /** A card click puts a record of the current filtered list in the slider. */
  lemma CardClickSelectsFilteredRecord(s: HomeState, k: nat)
    requires Enabled(s, CardClicked(k))
    ensures Step(s, CardClicked(k)).sliderCountry.Some?
    ensures Step(s, CardClicked(k)).sliderCountry.value in FilteredCountries(s)
    ensures Step(s, CardClicked(k)).featured == s.featured
    ensures Step(s, CardClicked(k)).region == s.region && Step(s, CardClicked(k)).visible == s.visible
  {
  }

  /** The three records of the worked example. */
  function ExampleData(): seq<Country>
  {
    [Country("France", "Europe", "fr.svg"), Country("India", "Asia", "in.svg"), Country("Japan", "Asia", "jp.svg")]
  }

  /** The example's collection filtered by the two region labels, element by element. */
  lemma ExampleFilters()
    ensures FilterByRegion(ExampleData(), "Asia") == ExampleData()[1..]
    ensures FilterByRegion(ExampleData(), "Europe") == ExampleData()[..1]
  {
    var data := ExampleData();
    assert data[1..][1..][1..] == [];
    assert FilterByRegion(data[1..][1..], "Asia") == data[1..][1..];
    assert FilterByRegion(data[1..], "Asia") == data[1..];
    assert FilterByRegion(data[1..][1..], "Europe") == [];
    assert FilterByRegion(data[1..], "Europe") == [];
  }

  /** The three-country example: the slider starts on India, though India is not first. */
  lemma ThreeCountriesSlider(b: Session, pick: nat)
    requires pick < 3
    ensures OnFetchSuccess(Initial(b), ExampleData(), pick).sliderCountry == Some(ExampleData()[1])
  {
    assert FindIndexFrom(ExampleData(), SliderDefaultName, 0) == 1;
  }

  /** The three-country example: "Asia" keeps India and Japan in order, "Europe" keeps France. */
  lemma ThreeCountriesFilters(b: Session, pick: nat)
    requires pick < 3
    ensures
      var s := OnFetchSuccess(Initial(b), ExampleData(), pick);
      && FilteredCountries(SelectRegion(s, AsiaLink)) == [ExampleData()[1], ExampleData()[2]]
      && FilteredCountries(SelectRegion(s, EuropeLink)) == [ExampleData()[0]]
  {
    ExampleFilters();
    var s := OnFetchSuccess(Initial(b), ExampleData(), pick);
    assert SelectRegion(s, AsiaLink).countries == ExampleData();
    assert SelectRegion(s, EuropeLink).countries == ExampleData();
  }

  /** Ten filtered records: one press shows all ten and hides the button. */
  lemma TenRecordsOnePress(s: HomeState)
    requires Inv(s) && !s.loading && s.visible == PageSize && |FilteredCountries(s)| == 10
    ensures ShowLoadMore(s)
    ensures Grid(LoadMore(s)) == FilteredCountries(s)
    ensures !ShowLoadMore(LoadMore(s))
  {
  }

  /** A failed fetch leaves an empty grid, no selection and no button. */
  lemma FailedFetchShowsNothing(b: Session)
    ensures
      var s := OnFetchFailure(Initial(b));
      !s.loading && s.countries == [] && Grid(s) == [] && s.sliderCountry.None? && s.featured.None? &&
      !ShowLoadMore(s)
  {
  }
}
