/** The user store: the signed-in user, the welcome flag, the diner's
    preferences with their favourite item ids, and a short order history. */
module UserStore {
  import opened Util
  import opened Text
  import OrderStore

  datatype Preferences = Preferences(name: string, phone: string, tableNumber: string, favoriteItems: seq<int>)

  const DefaultPreferences := Preferences("", "", "", [])

  /** The keys a caller merges into the preferences; an absent key is `None`. */
  datatype ProfilePatch = ProfilePatch(name: Option<string>, phone: Option<string>, tableNumber: Option<string>)

  const HistoryLimit := 10

  function Pick(patched: Option<string>, current: string): string {
    if patched.Some? then patched.value else current
  }

  /** `{ ...preferences, ...patch }`: the patch's keys win, every other key is kept. */
  function Merge(p: Preferences, patch: ProfilePatch): (r: Preferences)
    ensures r.favoriteItems == p.favoriteItems
  {
    Preferences(Pick(patch.name, p.name), Pick(patch.phone, p.phone), Pick(patch.tableNumber, p.tableNumber), p.favoriteItems)
  }

  /** Two patches in a row, as one: the later patch's keys win. */
  function Then(a: ProfilePatch, b: ProfilePatch): ProfilePatch {
    ProfilePatch(
      if b.name.Some? then b.name else a.name,
      if b.phone.Some? then b.phone else a.phone,
      if b.tableNumber.Some? then b.tableNumber else a.tableNumber)
  }

  /** Merging twice is merging the combined patch; in particular merging the
      same patch again changes nothing. */
  lemma MergeThen(p: Preferences, a: ProfilePatch, b: ProfilePatch)
    ensures Merge(Merge(p, a), b) == Merge(p, Then(a, b))
    ensures Merge(Merge(p, a), a) == Merge(p, a)
  {
  }

  /** A key the patch does not mention keeps its value. */
  lemma MergeKeepsUnmentioned(p: Preferences, patch: ProfilePatch)
    ensures patch.name.None? ==> Merge(p, patch).name == p.name
    ensures patch.phone.None? ==> Merge(p, patch).phone == p.phone
    ensures patch.tableNumber.None? ==> Merge(p, patch).tableNumber == p.tableNumber
    ensures Merge(p, ProfilePatch(None, None, None)) == p
  {
  }

  /** `isFavorite(itemId)`. */
  predicate IsFavorite(p: Preferences, itemId: int) {
    itemId in p.favoriteItems
  }

  /** `addToFavorites(itemId)`: appended only when it is not already there. */
  function WithFavorite(p: Preferences, itemId: int): Preferences {
    if itemId in p.favoriteItems then p else p.(favoriteItems := p.favoriteItems + [itemId])
  }

  /** `removeFromFavorites(itemId)`: every occurrence dropped, others kept in order. */
  function WithoutFavorite(p: Preferences, itemId: int): Preferences {
    p.(favoriteItems := Filter(p.favoriteItems, (x: int) => x != itemId))
  }

  /** After adding, the id is a favourite and nothing else changed; adding again changes nothing. */
  lemma WithFavoriteSpec(p: Preferences, itemId: int, other: int)
    ensures IsFavorite(WithFavorite(p, itemId), other) <==> IsFavorite(p, other) || other == itemId
    ensures WithFavorite(WithFavorite(p, itemId), itemId) == WithFavorite(p, itemId)
    ensures NoDup(p.favoriteItems) ==> NoDup(WithFavorite(p, itemId).favoriteItems)
  {
    if NoDup(p.favoriteItems) && itemId !in p.favoriteItems {
      var f := p.favoriteItems + [itemId];
      forall i, j | 0 <= i < j < |f| ensures f[i] != f[j] {
        if j == |f| - 1 { assert f[i] in p.favoriteItems; }
      }
    }
  }

  /** After removing, the id is no favourite and every other id is as before. */
  lemma WithoutFavoriteSpec(p: Preferences, itemId: int, other: int)
    ensures IsFavorite(WithoutFavorite(p, itemId), other) <==> IsFavorite(p, other) && other != itemId
    ensures NoDup(p.favoriteItems) ==> NoDup(WithoutFavorite(p, itemId).favoriteItems)
  {
    if NoDup(p.favoriteItems) {
      FilterNoDup(p.favoriteItems, (x: int) => x != itemId);
    }
  }

  /** Removing a favourite that was just added restores the preferences. */
  lemma AddThenRemove(p: Preferences, itemId: int)
    requires !IsFavorite(p, itemId)
    ensures WithoutFavorite(WithFavorite(p, itemId), itemId) == p
  {
    var keep := (x: int) => x != itemId;
    FilterConcat(p.favoriteItems, [itemId], keep);
    FilterAll(p.favoriteItems, keep);
    assert Filter([itemId], keep) == [];
    assert p.favoriteItems + [] == p.favoriteItems;
  }

  /** An order as the user store records it: `{ ...order, id: Date.now(), date }`. */
  function Restamp(o: OrderStore.Order, id: int, date: string): OrderStore.Order {
    o.(id := id, date := date)
  }

  /** The user store's `addOrder`: the new entry first, then the older ones,
      keeping at most ten. */
  function Recorded(history: seq<OrderStore.Order>, entry: OrderStore.Order): (r: seq<OrderStore.Order>)
    ensures |r| == if |history| < HistoryLimit then |history| + 1 else HistoryLimit
    ensures r[0] == entry
    ensures r[1..] == history[..|r| - 1]
  {
    var r := Prefix([entry] + history, HistoryLimit);
    assert r[1..] == ([entry] + history)[1..|r|];
    r
  }

  class User {
    var user: Option<ProfilePatch>
    var isLoggedIn: bool
    var hasSeenWelcome: bool
    var preferences: Preferences
    var orderHistory: seq<OrderStore.Order>

    ghost predicate Valid()
      reads this
    {
      NoDup(preferences.favoriteItems) && |orderHistory| <= HistoryLimit
    }

    constructor()
      ensures user == None && !isLoggedIn && !hasSeenWelcome
      ensures preferences == DefaultPreferences && orderHistory == []
      ensures Valid()
    {
      user := None;
      isLoggedIn := false;
      hasSeenWelcome := false;
      preferences := DefaultPreferences;
      orderHistory := [];
    }

    method SetHasSeenWelcome(value: bool)
      modifies this
      ensures hasSeenWelcome == value
      ensures user == old(user) && isLoggedIn == old(isLoggedIn)
      ensures preferences == old(preferences) && orderHistory == old(orderHistory)
    {
      hasSeenWelcome := value;
    }

    /** `login(userData)`: records the user and merges its keys into the preferences. */
    method Login(userData: ProfilePatch)
      modifies this
      ensures user == Some(userData) && isLoggedIn
      ensures preferences == Merge(old(preferences), userData)
      ensures hasSeenWelcome == old(hasSeenWelcome) && orderHistory == old(orderHistory)
      ensures old(Valid()) ==> Valid()
    {
      user := Some(userData);
      isLoggedIn := true;
      preferences := Merge(preferences, userData);
    }

    /** `logout()`: forgets the user and every preference, favourites included,
        but keeps the welcome flag and the order history. */
    method Logout()
      modifies this
      ensures user == None && !isLoggedIn && preferences == DefaultPreferences
      ensures hasSeenWelcome == old(hasSeenWelcome) && orderHistory == old(orderHistory)
      ensures old(Valid()) ==> Valid()
    {
      user := None;
      isLoggedIn := false;
      preferences := DefaultPreferences;
    }

    method UpdatePreferences(patch: ProfilePatch)
      modifies this
      ensures preferences == Merge(old(preferences), patch)
      ensures user == old(user) && isLoggedIn == old(isLoggedIn)
      ensures hasSeenWelcome == old(hasSeenWelcome) && orderHistory == old(orderHistory)
      ensures old(Valid()) ==> Valid()
    {
      preferences := Merge(preferences, patch);
    }

    method AddToFavorites(itemId: int)
      modifies this
      ensures preferences == WithFavorite(old(preferences), itemId)
      ensures user == old(user) && isLoggedIn == old(isLoggedIn)
      ensures hasSeenWelcome == old(hasSeenWelcome) && orderHistory == old(orderHistory)
      ensures old(Valid()) ==> Valid()
    {
      WithFavoriteSpec(preferences, itemId, itemId);
      if itemId !in preferences.favoriteItems {
        preferences := preferences.(favoriteItems := preferences.favoriteItems + [itemId]);
      }
    }

    method RemoveFromFavorites(itemId: int)
      modifies this
      ensures preferences == WithoutFavorite(old(preferences), itemId)
      ensures user == old(user) && isLoggedIn == old(isLoggedIn)
      ensures hasSeenWelcome == old(hasSeenWelcome) && orderHistory == old(orderHistory)
      ensures old(Valid()) ==> Valid()
    {
      WithoutFavoriteSpec(preferences, itemId, itemId);
      preferences := WithoutFavorite(preferences, itemId);
    }

    method AddOrder(order: OrderStore.Order, id: int, date: string)
      modifies this
      ensures orderHistory == Recorded(old(orderHistory), Restamp(order, id, date))
      ensures user == old(user) && isLoggedIn == old(isLoggedIn)
      ensures hasSeenWelcome == old(hasSeenWelcome) && preferences == old(preferences)
      ensures old(Valid()) ==> Valid()
    {
      orderHistory := Recorded(orderHistory, Restamp(order, id, date));
    }
  }
}
