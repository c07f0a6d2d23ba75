/** The customer menu page: its loading and error states, the category
    filter, the section headings and the empty state.

    The two requests the page makes (the restaurant's menu and, from a
    table's QR code, the table) are given as their outcome. */
module CustomerMenu {
  import opened Common
  import opened Store
  import opened Localisation
  import opened MenuItemCard

  /** A category of the public menu, with its items. */
  datatype MenuCategory = MenuCategory(id: Id, name: Names, items: seq<MenuItem>)

  datatype Restaurant = Restaurant(
    restaurantName: string, slug: string, logo: Option<string>, primaryColor: string, currency: string,
    categories: seq<MenuCategory>)

  datatype TableInfo = TableInfo(tableNumber: int, tableName: Option<string>)

  /** `activeCat`: every category, or the one with the given id. */
  datatype Selection = All | Only(id: Id)

  /** `displayCategories`. */
  function DisplayCategories(cats: seq<MenuCategory>, sel: Selection): (r: seq<MenuCategory>)
    ensures sel.All? ==> r == cats
    ensures sel.Only? ==> forall i :: 0 <= i < |r| ==> r[i] in cats && r[i].id == sel.id
    ensures sel.Only? ==> forall i :: 0 <= i < |cats| && cats[i].id == sel.id ==> cats[i] in r
  {
    FilterComplete(cats, (c: MenuCategory) => sel.Only? && c.id == sel.id);
    match sel
    case All => cats
    case Only(id) => Filter(cats, (c: MenuCategory) => sel.Only? && c.id == sel.id)
  }

  predicate DistinctIds(cats: seq<MenuCategory>)
  {
    forall i, j :: 0 <= i < j < |cats| ==> cats[i].id != cats[j].id
  }

  /** Choosing a category whose id is on the menu shows that category
      alone; choosing one that is not shows nothing. */
  lemma {:induction false} OnlyShowsOne(cats: seq<MenuCategory>, k: nat)
    requires DistinctIds(cats) && k < |cats|
    ensures DisplayCategories(cats, Only(cats[k].id)) == [cats[k]]
  {
    var id := cats[k].id;
    var p := (c: MenuCategory) => Only(id).Only? && c.id == Only(id).id;
    FilterSplitAt(cats, k, p);
    FilterNone(cats[..k], id);
    FilterNone(cats[k + 1..], id);
  }

  lemma {:induction false} FilterNone(cats: seq<MenuCategory>, id: Id)
    requires forall i :: 0 <= i < |cats| ==> cats[i].id != id
    ensures Filter(cats, (c: MenuCategory) => Only(id).Only? && c.id == Only(id).id) == []
    decreases |cats|
  {
    if |cats| > 0 {
      FilterNone(cats[1..], id);
    }
  }

  /** The filter bar is shown when there is a choice to make. */
  function ShowFilterBar(r: Restaurant): bool
  {
    |r.categories| > 1
  }

  /** A button of the filter bar: the selection a click makes, its caption
      and whether it is highlighted. */
  datatype FilterButton = FilterButton(selects: Selection, caption: string, highlighted: bool)

  /** The filter bar: the "all" button (its caption, from the translation
      table, is given), then one button per category. */
  function FilterBar(cats: seq<MenuCategory>, sel: Selection, lang: Language, allCaption: string): (r: seq<FilterButton>)
    ensures |r| == |cats| + 1
    ensures r[0] == FilterButton(All, allCaption, sel.All?)
    ensures forall i :: 1 <= i < |r| ==> r[i].selects == Only(cats[i - 1].id)
    ensures forall i :: 1 <= i < |r| ==> (r[i].highlighted <==> sel == r[i].selects)
    ensures forall i :: 1 <= i < |r| ==> r[i].caption == Localised(cats[i - 1].name, lang)
  {
    [FilterButton(All, allCaption, sel.All?)] + CategoryButtons(cats, sel, lang)
  }

  function CategoryButtons(cats: seq<MenuCategory>, sel: Selection, lang: Language): (r: seq<FilterButton>)
    ensures |r| == |cats|
    ensures forall i :: 0 <= i < |cats| ==> r[i].selects == Only(cats[i].id)
    ensures forall i :: 0 <= i < |cats| ==> (r[i].highlighted <==> sel == Only(cats[i].id))
    ensures forall i :: 0 <= i < |cats| ==> r[i].caption == Localised(cats[i].name, lang)
  {
    if |cats| == 0 then []
    else [FilterButton(Only(cats[0].id), Localised(cats[0].name, lang), sel == Only(cats[0].id))]
         + CategoryButtons(cats[1..], sel, lang)
  }

  /** Clicking a button of the bar highlights that button alone (ids
      being distinct). */
  lemma {:induction false} ClickHighlightsIt(cats: seq<MenuCategory>, sel: Selection, lang: Language, allCaption: string, k: nat)
    requires DistinctIds(cats) && k <= |cats|
    ensures var now := FilterBar(cats, sel, lang, allCaption)[k].selects;
      forall i :: 0 <= i <= |cats| ==> (FilterBar(cats, now, lang, allCaption)[i].highlighted <==> i == k)
  {
    var now := FilterBar(cats, sel, lang, allCaption)[k].selects;
    var after := FilterBar(cats, now, lang, allCaption);
    if k > 0 {
      assert now == Only(cats[k - 1].id);
      forall i | 1 <= i <= |cats|
        ensures after[i].highlighted <==> i == k
      {
        assert after[i].highlighted <==> cats[i - 1].id == cats[k - 1].id;
      }
    }
  }

  /** Clicking a button of the bar shows what it names: everything for
      "all", its own category alone for a category (ids being distinct). */
  lemma {:induction false} ClickShowsWhatItNames(cats: seq<MenuCategory>, sel: Selection, lang: Language, allCaption: string, k: nat)
    requires DistinctIds(cats) && k <= |cats|
    ensures DisplayCategories(cats, FilterBar(cats, sel, lang, allCaption)[k].selects)
            == if k == 0 then cats else [cats[k - 1]]
  {
    if k > 0 {
      assert FilterBar(cats, sel, lang, allCaption)[k].selects == Only(cats[k - 1].id);
      OnlyShowsOne(cats, k - 1);
    }
  }

  /** `primaryColor || '#f97316'`. */
  const DefaultColour: string := "#f97316"

  function PageColour(r: Restaurant): (c: string)
    ensures r.primaryColor != "" ==> c == r.primaryColor
    ensures r.primaryColor == "" ==> c == DefaultColour
  {
    OrElse(Some(r.primaryColor), DefaultColour)
  }

  /** One section of the page: the category's heading and its cards. */
  datatype Section = Section(heading: string, cards: seq<Card>)

  function SectionOf(c: MenuCategory, lang: Language, currency: string): (s: Section)
    ensures s.heading == Localised(c.name, lang)
    ensures |s.cards| == |c.items|
    ensures forall i :: 0 <= i < |c.items| ==> s.cards[i] == RenderCard(c.items[i], lang, currency)
  {
    Section(Localised(c.name, lang), Cards(c.items, lang, currency))
  }

  function Cards(items: seq<MenuItem>, lang: Language, currency: string): (r: seq<Card>)
    ensures |r| == |items|
    ensures forall i :: 0 <= i < |items| ==> r[i] == RenderCard(items[i], lang, currency)
  {
    if |items| == 0 then [] else [RenderCard(items[0], lang, currency)] + Cards(items[1..], lang, currency)
  }

  function Sections(cats: seq<MenuCategory>, lang: Language, currency: string): (r: seq<Section>)
    ensures |r| == |cats|
    ensures forall i :: 0 <= i < |cats| ==> r[i] == SectionOf(cats[i], lang, currency)
  {
    if |cats| == 0 then [] else [SectionOf(cats[0], lang, currency)] + Sections(cats[1..], lang, currency)
  }

  /** `displayCategories.every(c => c.menuItems.length === 0)`. */
  predicate NoItems(cats: seq<MenuCategory>)
  {
    forall i :: 0 <= i < |cats| ==> |cats[i].items| == 0
  }

  /** The number of cards on the page. */
  function CardCount(sections: seq<Section>): nat
  {
    if |sections| == 0 then 0 else |sections[0].cards| + CardCount(sections[1..])
  }

  /** The rendered menu. */
  datatype MenuView = MenuView(colour: string, filterBar: bool, sections: seq<Section>, emptyState: bool)

  function RenderMenu(r: Restaurant, lang: Language, sel: Selection): (v: MenuView)
    ensures v.colour == PageColour(r)
    ensures v.filterBar <==> |r.categories| > 1
    ensures v.emptyState <==> NoItems(DisplayCategories(r.categories, sel))
    ensures v.sections == Sections(DisplayCategories(r.categories, sel), lang, r.currency)
  {
    var shown := DisplayCategories(r.categories, sel);
    MenuView(PageColour(r), ShowFilterBar(r), Sections(shown, lang, r.currency), NoItems(shown))
  }

  /** The empty state shows exactly when the page shows no card. */
  lemma {:induction false} EmptyStateIffNoCards(r: Restaurant, lang: Language, sel: Selection)
    ensures var v := RenderMenu(r, lang, sel);
      v.emptyState <==> CardCount(v.sections) == 0
  {
    var shown := DisplayCategories(r.categories, sel);
    CardCountZero(shown, lang, r.currency);
  }

  lemma {:induction false} CardCountZero(cats: seq<MenuCategory>, lang: Language, currency: string)
    ensures CardCount(Sections(cats, lang, currency)) == 0 <==> NoItems(cats)
    decreases |cats|
  {
    if |cats| > 0 {
      CardCountZero(cats[1..], lang, currency);
      assert Sections(cats, lang, currency)[1..] == Sections(cats[1..], lang, currency);
    }
  }

  // ---------------------------------------------------------------------
  // Loading
  // ---------------------------------------------------------------------

  /** The page's state: `loading`, `error`, `restaurant`, `tableInfo`. */
  datatype PageState = PageState(loading: bool, error: string, restaurant: Option<Restaurant>, table: Option<TableInfo>)

  const Initial: PageState := PageState(true, "", None, None)

  /** How `fetchData` ends: the menu request answered with an error
      status; a request or a JSON parse threw (after the menu was stored,
      when it was the table's body that failed); or the menu arrived, with
      the table when one was asked for and found. */
  datatype FetchOutcome =
    | MenuNotOk
    | Threw(menuSoFar: Option<Restaurant>)
    | Loaded(restaurant: Restaurant, table: Option<TableInfo>)

  function AfterFetch(s: PageState, o: FetchOutcome): (t: PageState)
    ensures !t.loading
    ensures o.Loaded? ==> t.restaurant == Some(o.restaurant) && t.error == s.error
    ensures !o.Loaded? ==> t.error != ""
    ensures o.MenuNotOk? ==> t.restaurant == s.restaurant
  {
    match o
    case MenuNotOk => s.(error := "restaurant not found", loading := false)
    case Threw(menu) =>
      s.(restaurant := if menu.Some? then menu else s.restaurant, error := "failed to load", loading := false)
    case Loaded(r, table) => s.(restaurant := Some(r), table := if table.Some? then table else s.table, loading := false)
  }

  /** What the page shows. */
  datatype Screen = LoadingScreen | NotFoundScreen | MenuScreen(view: MenuView)

  function ScreenOf(s: PageState, lang: Language, sel: Selection): (r: Screen)
    ensures s.loading ==> r == LoadingScreen
    ensures !s.loading && (s.error != "" || s.restaurant.None?) ==> r == NotFoundScreen
    ensures r.MenuScreen? <==> !s.loading && s.error == "" && s.restaurant.Some?
  {
    if s.loading then LoadingScreen
    else if s.error != "" || s.restaurant.None? then NotFoundScreen
    else MenuScreen(RenderMenu(s.restaurant.value, lang, sel))
  }

  /** The page first shows the loading screen; once the requests end it
      shows the menu exactly when the menu arrived, and otherwise the
      not-found screen. It never stays on the loading screen. */
  lemma {:induction false} LoadingEndsInMenuOrNotFound(o: FetchOutcome, lang: Language, sel: Selection)
    ensures ScreenOf(Initial, lang, sel) == LoadingScreen
    ensures ScreenOf(AfterFetch(Initial, o), lang, sel).MenuScreen? <==> o.Loaded?
    ensures !o.Loaded? ==> ScreenOf(AfterFetch(Initial, o), lang, sel) == NotFoundScreen
  {
  }

  /** The header's avatar: the logo, or the first letter of the name. */
  datatype Avatar = Logo(url: string) | Letter(letter: string)

  function AvatarOf(r: Restaurant): (a: Avatar)
    ensures Truthy(r.logo) ==> a == Logo(r.logo.value)
    ensures !Truthy(r.logo) ==> a.Letter? && a.letter == (if |r.restaurantName| == 0 then "" else r.restaurantName[..1])
  {
    if Truthy(r.logo) then Logo(r.logo.value)
    else Letter(if |r.restaurantName| == 0 then "" else r.restaurantName[..1])
  }

  /** `bookBtnLabel`: the booking button's text in each language. */
  function BookLabel(l: Language): (r: string)
    ensures r != ""
  {
    match l
    case EN => "Book a Table"
    case TH => "\U{0E08}\U{0E2D}\U{0E07}\U{0E42}\U{0E15}\U{0E4A}\U{0E30}"
    case ZH => "\U{9884}\U{8BA2}\U{684C}\U{4F4D}"
    case JA => "\U{30C6}\U{30FC}\U{30D6}\U{30EB}\U{4E88}\U{7D04}"
    case ES => "Reservar Mesa"
  }

  /** Every language has a booking label of its own. */
  lemma BookLabelsDistinct()
    ensures forall a: Language, b: Language :: BookLabel(a) == BookLabel(b) ==> a == b
  {
  }
}
