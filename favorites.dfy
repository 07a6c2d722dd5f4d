/** The favourites page: the saved items, shown in catalogue order, with a
    per-item add and remove, and an "Add All" button. */
module FavoritesPage {
  import opened Util
  import opened Text
  import Menu
  import opened CartStore
  import opened ToastStore
  import opened UserStore

  /** The catalogue items whose id is among the favourite ids, in catalogue order. */
  function FavoriteItems(menu: seq<Menu.MenuItem>, favoriteIds: seq<int>): (r: seq<Menu.MenuItem>)
    ensures forall m :: m in r <==> m in menu && m.id in favoriteIds
    ensures forall m :: multiset(r)[m] == if m.id in favoriteIds then multiset(menu)[m] else 0
    ensures IsSubseq(r, menu)
  {
    Filter(menu, (m: Menu.MenuItem) => m.id in favoriteIds)
  }

  /** What the page shows: the list, or a failure to render. */
  datatype Rendered = Shown(items: seq<Menu.MenuItem>) | Failed(reason: string)

  /** The page's selection as written: it filters the binding `menuItems`
      imported from the menu data, which is `None` when that module does not
      export the name. */
  function SelectAsWritten(menuItems: Option<seq<Menu.MenuItem>>, favoriteIds: seq<int>): (r: Rendered)
    ensures menuItems.None? ==> r.Failed?
    ensures menuItems.Some? ==> r == Shown(FavoriteItems(menuItems.value, favoriteIds))
  {
    if menuItems.None? then Failed("menuItems is not exported by the menu data")
    else Shown(FavoriteItems(menuItems.value, favoriteIds))
  }

  /** The menu data exports `menuData`, whose `items` is the catalogue, and no
      `menuItems`. */
  const ExportedMenuItems: Option<seq<Menu.MenuItem>> := None

  /** As written the page fails whatever is saved, even when a saved id
      belongs to a catalogue item, which the intended list shows. */
  lemma AsWrittenNeverShows(menu: seq<Menu.MenuItem>, favoriteIds: seq<int>, m: Menu.MenuItem)
    requires m in menu && m.id in favoriteIds
    ensures SelectAsWritten(ExportedMenuItems, favoriteIds).Failed?
    ensures m in FavoriteItems(menu, favoriteIds)
  {
  }

  /** The number of entries of `items` with the id `id`. */
  function CountId(items: seq<Menu.MenuItem>, id: int): nat {
    if items == [] then 0 else (if items[0].id == id then 1 else 0) + CountId(items[1..], id)
  }

  lemma {:induction false} CountIdConcat(a: seq<Menu.MenuItem>, b: seq<Menu.MenuItem>, id: int)
    ensures CountId(a + b, id) == CountId(a, id) + CountId(b, id)
  {
    if a == [] {
      assert a + b == b;
    } else {
      assert (a + b)[0] == a[0];
      assert (a + b)[1..] == a[1..] + b;
      CountIdConcat(a[1..], b, id);
    }
  }

  /** The shown list holds an id exactly as often as the catalogue does when
      it is saved, and not at all otherwise. */
  lemma {:induction false} CountIdFavorites(menu: seq<Menu.MenuItem>, favoriteIds: seq<int>, id: int)
    ensures CountId(FavoriteItems(menu, favoriteIds), id) == if id in favoriteIds then CountId(menu, id) else 0
  {
    if menu != [] {
      CountIdFavorites(menu[1..], favoriteIds, id);
      var rest := FavoriteItems(menu[1..], favoriteIds);
      if menu[0].id in favoriteIds {
        var r := [menu[0]] + rest;
        assert FavoriteItems(menu, favoriteIds) == r;
        assert r[0] == menu[0] && r[1..] == rest;
      } else {
        assert FavoriteItems(menu, favoriteIds) == rest;
      }
    }
  }

  /** In a catalogue of distinct ids each id occurs at most once, and exactly
      once when some item carries it. */
  lemma {:induction false} CountIdDistinct(menu: seq<Menu.MenuItem>, id: int)
    requires forall i, j :: 0 <= i < j < |menu| ==> menu[i].id != menu[j].id
    ensures CountId(menu, id) == if exists m :: m in menu && m.id == id then 1 else 0
  {
    if menu != [] {
      var tail := menu[1..];
      assert forall i :: 0 <= i < |tail| ==> tail[i] == menu[i + 1];
      CountIdDistinct(tail, id);
      if menu[0].id == id {
        assert forall m :: m in tail ==> m.id != id;
      }
      if exists m :: m in menu && m.id == id {
        var m :| m in menu && m.id == id;
        if m != menu[0] { assert m in tail; }
      }
    }
  }

  /** Over a catalogue numbered 1..n, the shown list holds each saved id in
      1..n exactly once and nothing else, so "Add All" adds one unit of each. */
  lemma ShownOnceEach(menu: seq<Menu.MenuItem>, favoriteIds: seq<int>, id: int)
    requires forall i :: 0 <= i < |menu| ==> menu[i].id == i + 1
    ensures CountId(FavoriteItems(menu, favoriteIds), id) == if id in favoriteIds && 1 <= id <= |menu| then 1 else 0
  {
    CountIdFavorites(menu, favoriteIds, id);
    CountIdDistinct(menu, id);
    if 1 <= id <= |menu| {
      assert menu[id - 1] in menu;
    }
  }

  /** The catalogue is numbered 1..73, so the shown list holds every saved
      catalogue id once. */
  lemma CatalogueShownOnceEach(favoriteIds: seq<int>, id: int)
    ensures CountId(FavoriteItems(Menu.Items, favoriteIds), id) == if id in favoriteIds && 1 <= id <= 73 then 1 else 0
  {
    Menu.CatalogueNumbered();
    ShownOnceEach(Menu.Items, favoriteIds, id);
  }

  /** Adding every item of a list once, in list order. */
  function AddedEach(lines: seq<CartLine>, items: seq<Menu.MenuItem>): seq<CartLine>
    decreases |items|
  {
    if items == [] then lines else AddedEach(Added(lines, FromMenu(items[0])), items[1..])
  }

  /** Adding a list raises each id's quantity by its count in the list. */
  lemma {:induction false} AddedEachQuantity(lines: seq<CartLine>, items: seq<Menu.MenuItem>, id: int)
    ensures Quantity(AddedEach(lines, items), id) == Quantity(lines, id) + CountId(items, id)
    decreases |items|
  {
    if items != [] {
      AddedQuantity(lines, FromMenu(items[0]), id);
      AddedEachQuantity(Added(lines, FromMenu(items[0])), items[1..], id);
    }
  }

  lemma {:induction false} AddedEachWellFormed(lines: seq<CartLine>, items: seq<Menu.MenuItem>)
    requires WellFormed(lines)
    ensures WellFormed(AddedEach(lines, items))
    decreases |items|
  {
    if items != [] {
      AddedWellFormed(lines, FromMenu(items[0]));
      AddedEachWellFormed(Added(lines, FromMenu(items[0])), items[1..]);
    }
  }

  /** `handleAddToCart(item)`: one unit of the item, and a toast. */
  method HandleAddToCart(item: Menu.MenuItem, cart: Cart, toasts: Toasts, now: int)
    modifies cart, toasts
    ensures cart.items == Added(old(cart.items), FromMenu(item))
    ensures toasts.toasts == Raised(old(toasts.toasts), now, item.name + " added to cart", Some(Success))
    ensures old(cart.Valid()) ==> cart.Valid()
  {
    cart.AddItem(FromMenu(item));
    toasts.AddToast(item.name + " added to cart", Some(Success), now);
  }

  /** `handleRemoveFavorite(itemId, itemName)`: the id leaves the favourites,
      nothing else in the user store changes. */
  method HandleRemoveFavorite(itemId: int, itemName: string, user: User, toasts: Toasts, now: int)
    modifies user, toasts
    ensures user.preferences == WithoutFavorite(old(user.preferences), itemId)
    ensures user.user == old(user.user) && user.isLoggedIn == old(user.isLoggedIn)
    ensures user.hasSeenWelcome == old(user.hasSeenWelcome) && user.orderHistory == old(user.orderHistory)
    ensures toasts.toasts == Raised(old(toasts.toasts), now, itemName + " removed from wishlist", Some(Info))
    ensures old(user.Valid()) ==> user.Valid()
  {
    user.RemoveFromFavorites(itemId);
    toasts.AddToast(itemName + " removed from wishlist", Some(Info), now);
  }

  /** "Add All to Cart": `addItem` for each shown item, then one toast with the count. */
  method AddAll(shown: seq<Menu.MenuItem>, cart: Cart, toasts: Toasts, now: int)
    modifies cart, toasts
    ensures cart.items == AddedEach(old(cart.items), shown)
    ensures forall id :: Quantity(cart.items, id) == Quantity(old(cart.items), id) + CountId(shown, id)
    ensures toasts.toasts == Raised(old(toasts.toasts), now, Decimal(|shown|) + " items added to cart", Some(Success))
    ensures old(cart.Valid()) ==> cart.Valid()
  {
    var n := 0;
    while n < |shown|
      invariant 0 <= n <= |shown|
      invariant AddedEach(cart.items, shown[n..]) == AddedEach(old(cart.items), shown)
      invariant old(cart.Valid()) ==> cart.Valid()
      invariant toasts.toasts == old(toasts.toasts)
    {
      assert shown[n..][1..] == shown[n + 1..];
      cart.AddItem(FromMenu(shown[n]));
      n := n + 1;
    }
    assert shown[n..] == [];
    forall id ensures Quantity(cart.items, id) == Quantity(old(cart.items), id) + CountId(shown, id) {
      AddedEachQuantity(old(cart.items), shown, id);
    }
    toasts.AddToast(Decimal(|shown|) + " items added to cart", Some(Success), now);
  }
}
