/** The item sheet: a quantity picker clamped to 1..10 that adds that many
    units of the selected item to the cart, and the heart button that toggles
    the item among the favourites. */
module ItemDetail {
  import opened Util
  import opened Text
  import Menu
  import opened CartStore
  import opened ToastStore
  import opened UIStore
  import opened UserStore

  const MaxQuantity := 10

  /** `Math.min(prev + 1, 10)`. */
  function StepUp(q: int): int {
    if q + 1 < MaxQuantity then q + 1 else MaxQuantity
  }

  /** `Math.max(prev - 1, 1)`. */
  function StepDown(q: int): int {
    if q - 1 > 1 then q - 1 else 1
  }

  /** Both buttons keep the quantity in 1..10, stop at the ends, and undo
      each other away from the ends. */
  lemma PickerStaysInRange(q: int)
    requires 1 <= q <= MaxQuantity
    ensures 1 <= StepUp(q) <= MaxQuantity && 1 <= StepDown(q) <= MaxQuantity
    ensures StepUp(q) == q <==> q == MaxQuantity
    ensures StepDown(q) == q <==> q == 1
    ensures q < MaxQuantity ==> StepDown(StepUp(q)) == q
    ensures q > 1 ==> StepUp(StepDown(q)) == q
  {
  }

  /** Any number of presses in any order leaves the quantity in 1..10. */
  function Presses(q: int, ups: seq<bool>): int
    decreases |ups|
  {
    if ups == [] then q else Presses(if ups[0] then StepUp(q) else StepDown(q), ups[1..])
  }

  lemma {:induction false} PressesStayInRange(q: int, ups: seq<bool>)
    requires 1 <= q <= MaxQuantity
    ensures 1 <= Presses(q, ups) <= MaxQuantity
    decreases |ups|
  {
    if ups != [] {
      PickerStaysInRange(q);
      PressesStayInRange(if ups[0] then StepUp(q) else StepDown(q), ups[1..]);
    }
  }

  /** The price on the add button: `selectedItem.price * quantity`. */
  function ButtonPrice(item: Menu.MenuItem, quantity: int): int {
    item.price * quantity
  }

  /** The button's price is what the cart total grows by, when the item's line
      is new or carries the item's price. */
  lemma ButtonPriceCharged(lines: seq<CartLine>, item: Menu.MenuItem, quantity: nat)
    requires WellFormed(lines)
    requires UnitPrice(lines, FromMenu(item)) == item.price
    ensures TotalPrice(AddedTimes(lines, FromMenu(item), quantity)) == TotalPrice(lines) + ButtonPrice(item, quantity)
  {
    AddedTimesSpec(lines, FromMenu(item), quantity, item.id);
  }

  /** The heart button: remove a favourite, add anything else. */
  function Toggled(p: Preferences, itemId: int): Preferences {
    if IsFavorite(p, itemId) then WithoutFavorite(p, itemId) else WithFavorite(p, itemId)
  }

  /** Toggling flips the item's favourite status, touches no other id, keeps
      the list duplicate-free, and toggling twice is membership-neutral. */
  lemma ToggledFlips(p: Preferences, itemId: int, other: int)
    ensures IsFavorite(Toggled(p, itemId), itemId) == !IsFavorite(p, itemId)
    ensures other != itemId ==> (IsFavorite(Toggled(p, itemId), other) <==> IsFavorite(p, other))
    ensures NoDup(p.favoriteItems) ==> NoDup(Toggled(p, itemId).favoriteItems)
    ensures IsFavorite(Toggled(Toggled(p, itemId), itemId), other) <==> IsFavorite(p, other)
  {
    WithFavoriteSpec(p, itemId, other);
    WithoutFavoriteSpec(p, itemId, other);
    WithFavoriteSpec(p, itemId, itemId);
    WithoutFavoriteSpec(p, itemId, itemId);
    var once := Toggled(p, itemId);
    WithFavoriteSpec(once, itemId, other);
    WithoutFavoriteSpec(once, itemId, other);
  }

  class ItemSheet {
    var quantity: int

    ghost predicate Valid()
      reads this
    {
      1 <= quantity <= MaxQuantity
    }

    constructor()
      ensures quantity == 1 && Valid()
    {
      quantity := 1;
    }

    /** The opening effect: the quantity starts at 1 whenever the sheet opens on an item. */
    method Opened(ui: UI)
      modifies this
      ensures quantity == if ui.isItemDetailOpen && ui.selectedItem.Some? then 1 else old(quantity)
      ensures old(Valid()) ==> Valid()
    {
      if ui.isItemDetailOpen && ui.selectedItem.Some? {
        quantity := 1;
      }
    }

    method IncrementQuantity()
      modifies this
      ensures quantity == StepUp(old(quantity))
      ensures old(Valid()) ==> Valid()
    {
      quantity := if quantity + 1 < MaxQuantity then quantity + 1 else MaxQuantity;
    }

    method DecrementQuantity()
      modifies this
      ensures quantity == StepDown(old(quantity))
      ensures old(Valid()) ==> Valid()
    {
      quantity := if quantity - 1 > 1 then quantity - 1 else 1;
    }

    /** `handleAddToCart`: nothing without a selected item; otherwise `addItem`
        `quantity` times, then the toast and the sheet closes. */
    method HandleAddToCart(ui: UI, cart: Cart, toasts: Toasts, now: int)
      requires Valid()
      modifies cart, toasts, ui`isItemDetailOpen, ui`selectedItem
      ensures old(ui.selectedItem).None? ==>
        cart.items == old(cart.items) && toasts.toasts == old(toasts.toasts)
        && ui.isItemDetailOpen == old(ui.isItemDetailOpen) && ui.selectedItem == old(ui.selectedItem)
      ensures old(ui.selectedItem).Some? ==>
        var item := old(ui.selectedItem).value;
        cart.items == AddedTimes(old(cart.items), FromMenu(item), quantity)
        && toasts.toasts == Raised(old(toasts.toasts), now,
             Decimal(quantity) + "x " + item.name + " added to cart!", Some(Success))
        && !ui.isItemDetailOpen && ui.selectedItem == None
      ensures old(cart.Valid()) ==> cart.Valid()
    {
      if ui.selectedItem.None? {
        return;
      }
      var item := ui.selectedItem.value;
      var i := 0;
      while i < quantity
        invariant 0 <= i <= quantity
        invariant cart.items == AddedTimes(old(cart.items), FromMenu(item), i)
        invariant old(cart.Valid()) ==> cart.Valid()
        invariant toasts.toasts == old(toasts.toasts)
      {
        if old(cart.Valid()) {
          AddedWellFormed(cart.items, FromMenu(item));
        }
        cart.AddItem(FromMenu(item));
        i := i + 1;
      }
      toasts.AddToast(Decimal(quantity) + "x " + item.name + " added to cart!", Some(Success), now);
      ui.CloseItemDetail();
    }

    /** `handleLikeToggle`: nothing without a selected item; otherwise toggle
        its favourite status and say which way it went. */
    method HandleLikeToggle(ui: UI, user: User, toasts: Toasts, now: int)
      modifies user, toasts
      ensures old(ui.selectedItem).None? ==>
        user.preferences == old(user.preferences) && toasts.toasts == old(toasts.toasts)
      ensures old(ui.selectedItem).Some? ==>
        var id := old(ui.selectedItem).value.id;
        user.preferences == Toggled(old(user.preferences), id)
        && toasts.toasts == Raised(old(toasts.toasts), now,
             if IsFavorite(old(user.preferences), id) then "Removed from favorites" else "Added to favorites!",
             Some(if IsFavorite(old(user.preferences), id) then Info else Success))
      ensures user.user == old(user.user) && user.isLoggedIn == old(user.isLoggedIn)
      ensures user.hasSeenWelcome == old(user.hasSeenWelcome) && user.orderHistory == old(user.orderHistory)
      ensures old(user.Valid()) ==> user.Valid()
    {
      if ui.selectedItem.None? {
        return;
      }
      var id := ui.selectedItem.value.id;
      if id in user.preferences.favoriteItems {
        user.RemoveFromFavorites(id);
        toasts.AddToast("Removed from favorites", Some(Info), now);
      } else {
        user.AddToFavorites(id);
        toasts.AddToast("Added to favorites!", Some(Success), now);
      }
    }
  }
}
