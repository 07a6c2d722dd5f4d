/** The profile sheet: the stored name and table shown in editable fields,
    save and cancel, and "Start Fresh", which signs out and shows the welcome
    again. The page reload after "Start Fresh" is not modelled. */
module UserModal {
  import opened Util
  import opened Text
  import opened UserStore
  import opened UIStore
  import CartStore
  import OrderStore

  /** The patch `handleSave` merges: both fields trimmed, empty allowed. */
  function SavePatch(editName: string, editTable: string): ProfilePatch {
    ProfilePatch(Some(Trim(editName)), None, Some(Trim(editTable)))
  }

  /** Saving stores exactly the trimmed entries, blank ones included, and
      keeps the phone and the favourites; the fields, refilled from the new
      preferences, then show the trimmed entries. */
  lemma SaveSpec(p: Preferences, editName: string, editTable: string)
    ensures var r := Merge(p, SavePatch(editName, editTable));
      r.name == Trim(editName) && r.tableNumber == Trim(editTable)
      && r.phone == p.phone && r.favoriteItems == p.favoriteItems
    ensures AllSpace(editName) ==> Merge(p, SavePatch(editName, editTable)).name == ""
  {
    TrimEmptyIffBlank(editName);
  }

  /** Saving again without editing changes nothing. */
  lemma SaveTwice(p: Preferences, editName: string, editTable: string)
    ensures var r := Merge(p, SavePatch(editName, editTable));
      Merge(r, SavePatch(r.name, r.tableNumber)) == r
  {
    var r := Merge(p, SavePatch(editName, editTable));
    TrimIdempotent(editName);
    TrimIdempotent(editTable);
    assert SavePatch(r.name, r.tableNumber) == SavePatch(editName, editTable);
    MergeThen(p, SavePatch(editName, editTable), SavePatch(editName, editTable));
  }

  class ProfileSheet {
    var isEditing: bool
    var editName: string
    var editTable: string

    constructor()
      ensures !isEditing && editName == "" && editTable == ""
    {
      isEditing := false;
      editName := "";
      editTable := "";
    }

    /** The effect that refills the fields whenever the preferences change. */
    method SyncFromPreferences(p: Preferences)
      modifies this
      ensures editName == p.name && editTable == p.tableNumber && isEditing == old(isEditing)
    {
      editName := p.name;
      editTable := p.tableNumber;
    }

    method StartEditing()
      modifies this
      ensures isEditing && editName == old(editName) && editTable == old(editTable)
    {
      isEditing := true;
    }

    method SetEditName(value: string)
      modifies this
      ensures editName == value && editTable == old(editTable) && isEditing == old(isEditing)
    {
      editName := value;
    }

    method SetEditTable(value: string)
      modifies this
      ensures editTable == value && editName == old(editName) && isEditing == old(isEditing)
    {
      editTable := value;
    }

    /** `handleSave`. */
    method HandleSave(user: User)
      modifies this, user
      ensures user.preferences == Merge(old(user.preferences), SavePatch(old(editName), old(editTable)))
      ensures !isEditing && editName == old(editName) && editTable == old(editTable)
      ensures user.user == old(user.user) && user.isLoggedIn == old(user.isLoggedIn)
      ensures user.hasSeenWelcome == old(user.hasSeenWelcome) && user.orderHistory == old(user.orderHistory)
      ensures old(user.Valid()) ==> user.Valid()
    {
      var patch := SavePatch(editName, editTable);
      user.UpdatePreferences(patch);
      isEditing := false;
    }

    /** The cancel button: edit mode ends and nothing is stored. The fields
        keep the discarded entries, since the preferences did not change. */
    method Cancel(user: User)
      modifies this
      ensures !isEditing && editName == old(editName) && editTable == old(editTable)
      ensures user.preferences == old(user.preferences)
    {
      isEditing := false;
    }

    /** `handleReset` ("Start Fresh"): the welcome is shown again and the user
        is signed out, which clears the preferences and the favourites. The
        cart and the placed orders are left as they were. */
    method HandleReset(user: User, ui: UI, cart: CartStore.Cart, orders: OrderStore.Orders)
      modifies user, ui`isUserModalOpen
      ensures !user.hasSeenWelcome && user.user == None && !user.isLoggedIn
      ensures user.preferences == DefaultPreferences && user.orderHistory == old(user.orderHistory)
      ensures !ui.isUserModalOpen
      ensures cart.items == old(cart.items) && orders.orders == old(orders.orders)
      ensures old(user.Valid()) ==> user.Valid()
    {
      user.SetHasSeenWelcome(false);
      user.Logout();
      ui.CloseUserModal();
    }
  }
}
