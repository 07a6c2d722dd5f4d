/** The UI-flag store: which overlays are open, the item shown in the item
    sheet, the active menu category and the search text. */
module UIStore {
  import opened Util
  import Menu

  const DefaultCategory := "hot-beverages"

  class UI {
    var isCartOpen: bool
    var isSearchOpen: bool
    var isItemDetailOpen: bool
    var selectedItem: Option<Menu.MenuItem>
    var activeCategory: string
    var searchQuery: string
    var isUserModalOpen: bool
    var isAuthModalOpen: bool

    constructor()
      ensures !isCartOpen && !isSearchOpen && !isItemDetailOpen && selectedItem == None
      ensures activeCategory == DefaultCategory && searchQuery == ""
      ensures !isUserModalOpen && !isAuthModalOpen
    {
      isCartOpen := false;
      isSearchOpen := false;
      isItemDetailOpen := false;
      selectedItem := None;
      activeCategory := DefaultCategory;
      searchQuery := "";
      isUserModalOpen := false;
      isAuthModalOpen := false;
    }

    method OpenCart()
      modifies `isCartOpen
      ensures isCartOpen
    {
      isCartOpen := true;
    }

    method CloseCart()
      modifies `isCartOpen
      ensures !isCartOpen
    {
      isCartOpen := false;
    }

    method ToggleCart()
      modifies `isCartOpen
      ensures isCartOpen == !old(isCartOpen)
    {
      isCartOpen := !isCartOpen;
    }

    method OpenSearch()
      modifies `isSearchOpen
      ensures isSearchOpen
    {
      isSearchOpen := true;
    }

    method CloseSearch()
      modifies `isSearchOpen
      ensures !isSearchOpen
    {
      isSearchOpen := false;
    }

    /** `openItemDetail(item)`: the sheet opens on that item. */
    method OpenItemDetail(item: Menu.MenuItem)
      modifies `isItemDetailOpen, `selectedItem
      ensures isItemDetailOpen && selectedItem == Some(item)
    {
      isItemDetailOpen := true;
      selectedItem := Some(item);
    }

    /** `closeItemDetail()`: the sheet closes and forgets its item. */
    method CloseItemDetail()
      modifies `isItemDetailOpen, `selectedItem
      ensures !isItemDetailOpen && selectedItem == None
    {
      isItemDetailOpen := false;
      selectedItem := None;
    }

    method OpenUserModal()
      modifies `isUserModalOpen
      ensures isUserModalOpen
    {
      isUserModalOpen := true;
    }

    method CloseUserModal()
      modifies `isUserModalOpen
      ensures !isUserModalOpen
    {
      isUserModalOpen := false;
    }

    method OpenAuthModal()
      modifies `isAuthModalOpen
      ensures isAuthModalOpen
    {
      isAuthModalOpen := true;
    }

    method CloseAuthModal()
      modifies `isAuthModalOpen
      ensures !isAuthModalOpen
    {
      isAuthModalOpen := false;
    }

    method SetActiveCategory(categoryId: string)
      modifies `activeCategory
      ensures activeCategory == categoryId
    {
      activeCategory := categoryId;
    }

    method SetSearchQuery(query: string)
      modifies `searchQuery
      ensures searchQuery == query
    {
      searchQuery := query;
    }
  }
}
