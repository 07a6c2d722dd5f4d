/** The catalogue of the menu data file and its four queries. The items are
    transcribed literally, in source order, in the category groups the source
    lists them in; the queries are `filter`/`find` over them. */
module Menu {
  import opened Util
  import opened Text

  datatype Category = Category(id: string, name: string, icon: string, emoji: string)

  /** A menu entry. An item without an `isPopular` flag in the source has `false`. */
  datatype MenuItem = MenuItem(
    id: int, name: string, price: int, category: string, description: string,
    image: string, isVeg: bool, isPopular: bool)

  /** The catalogue's pictures are 400-pixel-wide Unsplash photos, named by
      their photo id. */
  function Photo(photoId: string): string {
    "https://images.unsplash.com/photo-" + photoId + "?w=400"
  }

  const Categories: seq<Category> := [
    Category("hot-beverages", "Hot Beverages", "Coffee", "☕"),
    Category("cold-beverages", "Cold Beverages", "GlassWater", "🧊"),
    Category("shakes", "Shakes", "Cup", "🥤"),
    Category("sandwiches", "Sandwiches", "Sandwich", "🥪"),
    Category("burgers", "Burgers", "Beef", "🍔"),
    Category("starters", "Starters", "Salad", "🥗"),
    Category("momos", "Momos", "Soup", "🥟"),
    Category("noodles", "Noodles", "Utensils", "🍜"),
    Category("pasta", "Pasta", "UtensilsCrossed", "🍝"),
    Category("chinese", "Chinese", "ChefHat", "🥡"),
    Category("indian-snacks", "Indian Snacks", "Cookie", "🍛")
  ]

  /** Hot Beverages */
  const HotBeverages: seq<MenuItem> := [
    MenuItem(1, "Espresso", 80, "hot-beverages", "Rich, bold espresso shot", Photo("1510591509098-f4fdc6d0ff04"), true, true),
    MenuItem(2, "Americano", 100, "hot-beverages", "Espresso with hot water", Photo("1514432324607-a09d9b4aefdd"), true, false),
    MenuItem(3, "Cappuccino", 120, "hot-beverages", "Espresso with steamed milk foam", Photo("1572442388796-11668a67e53d"), true, true),
    MenuItem(4, "Latte", 130, "hot-beverages", "Smooth espresso with steamed milk", Photo("1461023058943-07fcbe16d735"), true, false),
    MenuItem(5, "Mocha", 150, "hot-beverages", "Espresso with chocolate and milk", Photo("1578314675249-a6910f80cc4e"), true, false),
    MenuItem(6, "Hot Chocolate", 120, "hot-beverages", "Rich creamy hot chocolate", Photo("1517578239113-b03992dcdd25"), true, false),
    MenuItem(7, "Masala Chai", 50, "hot-beverages", "Traditional Indian spiced tea", Photo("1556679343-c7306c1976bc"), true, true),
    MenuItem(8, "Green Tea", 60, "hot-beverages", "Light and refreshing green tea", Photo("1627435601361-ec25f5b1d0e5"), true, false)
  ]

  /** Cold Beverages */
  const ColdBeverages: seq<MenuItem> := [
    MenuItem(9, "Iced Americano", 120, "cold-beverages", "Chilled espresso with cold water", Photo("1517701550927-30cf4ba1dba5"), true, false),
    MenuItem(10, "Iced Latte", 140, "cold-beverages", "Espresso with cold milk over ice", Photo("1461023058943-07fcbe16d735"), true, true),
    MenuItem(11, "Cold Coffee", 130, "cold-beverages", "Blended coffee with ice cream", Photo("1592663527359-cf6642f54cff"), true, true),
    MenuItem(12, "Iced Mocha", 160, "cold-beverages", "Chocolate espresso over ice", Photo("1578314675249-a6910f80cc4e"), true, false),
    MenuItem(13, "Lemonade", 80, "cold-beverages", "Fresh squeezed lemonade", Photo("1621263764928-df1444c5e859"), true, false),
    MenuItem(14, "Virgin Mojito", 100, "cold-beverages", "Mint, lime, and soda", Photo("1551538827-9c037cb4f32a"), true, false),
    MenuItem(15, "Blue Lagoon", 110, "cold-beverages", "Blue curacao mocktail", Photo("1560508179-b2c9a3f8e92b"), true, false)
  ]

  /** Shakes */
  const Shakes: seq<MenuItem> := [
    MenuItem(16, "Chocolate Shake", 150, "shakes", "Rich chocolate milkshake", Photo("1572490122747-3968b75cc699"), true, true),
    MenuItem(17, "Vanilla Shake", 140, "shakes", "Classic vanilla milkshake", Photo("1568901839119-631418a3910d"), true, false),
    MenuItem(18, "Strawberry Shake", 150, "shakes", "Fresh strawberry milkshake", Photo("1579954115545-a95591f28bfc"), true, false),
    MenuItem(19, "Oreo Shake", 170, "shakes", "Oreo cookies blended shake", Photo("1563805042-7684c019e1cb"), true, true),
    MenuItem(20, "Mango Shake", 140, "shakes", "Fresh mango milkshake", Photo("1623065422902-30a2d299bbe4"), true, false),
    MenuItem(21, "Banana Shake", 130, "shakes", "Creamy banana milkshake", Photo("1553787499-6f9133860278"), true, false)
  ]

  /** Sandwiches */
  const Sandwiches: seq<MenuItem> := [
    MenuItem(22, "Veg Club Sandwich", 180, "sandwiches", "Triple-decker with fresh veggies", Photo("1528735602780-2552fd46c7af"), true, true),
    MenuItem(23, "Grilled Cheese Sandwich", 150, "sandwiches", "Melted cheese on toasted bread", Photo("1528736235302-52922df5c122"), true, false),
    MenuItem(24, "Paneer Tikka Sandwich", 200, "sandwiches", "Spiced paneer in grilled bread", Photo("1539252554453-80ab65ce3586"), true, true),
    MenuItem(25, "Veggie Delight Sandwich", 160, "sandwiches", "Mixed vegetables with sauce", Photo("1554433607-66b5efe9d304"), true, false),
    MenuItem(26, "Corn & Cheese Sandwich", 170, "sandwiches", "Sweet corn with melted cheese", Photo("1528735602780-2552fd46c7af"), true, false),
    MenuItem(27, "Mushroom Sandwich", 190, "sandwiches", "Sautéed mushrooms in herbs", Photo("1481070555726-e2fe8357571d"), true, false)
  ]

  /** Burgers */
  const Burgers: seq<MenuItem> := [
    MenuItem(28, "Classic Veg Burger", 150, "burgers", "Crispy veg patty with fresh veggies", Photo("1550547660-d9450f859349"), true, false),
    MenuItem(29, "Cheese Burst Burger", 180, "burgers", "Loaded with melted cheese", Photo("1568901346375-23c9450c58cd"), true, true),
    MenuItem(30, "Paneer Burger", 200, "burgers", "Grilled paneer patty", Photo("1572802419224-296b0aeee0d9"), true, false),
    MenuItem(31, "Aloo Tikki Burger", 140, "burgers", "Spiced potato patty burger", Photo("1586816001966-79b736744398"), true, true),
    MenuItem(32, "Mexican Burger", 190, "burgers", "Spicy Mexican style burger", Photo("1594212699903-ec8a3eca50f5"), true, false),
    MenuItem(33, "Double Decker Burger", 250, "burgers", "Two patties, extra cheese", Photo("1553979459-d2229ba7433b"), true, false)
  ]

  /** Starters */
  const Starters: seq<MenuItem> := [
    MenuItem(34, "French Fries", 100, "starters", "Crispy golden fries", Photo("1573080496219-bb080dd4f877"), true, true),
    MenuItem(35, "Peri Peri Fries", 130, "starters", "Spicy seasoned fries", Photo("1630384060421-cb20aed08989"), true, false),
    MenuItem(36, "Cheese Fries", 150, "starters", "Fries topped with cheese sauce", Photo("1585109649139-366815a0d713"), true, false),
    MenuItem(37, "Garlic Bread", 120, "starters", "Toasted bread with garlic butter", Photo("1619535860434-ba1d8fa12536"), true, false),
    MenuItem(38, "Cheese Garlic Bread", 150, "starters", "Garlic bread with melted cheese", Photo("1573140401552-3fab0b24306f"), true, true),
    MenuItem(39, "Nachos with Salsa", 180, "starters", "Crispy nachos with dips", Photo("1513456852971-30c0b8199d4d"), true, false),
    MenuItem(40, "Paneer Tikka", 220, "starters", "Grilled spiced paneer cubes", Photo("1567188040759-fb8a883dc6d8"), true, false),
    MenuItem(41, "Crispy Corn", 160, "starters", "Crispy fried corn kernels", Photo("1551754655-cd27e38d2076"), true, false)
  ]

  /** Momos */
  const Momos: seq<MenuItem> := [
    MenuItem(42, "Steamed Veg Momos", 100, "momos", "8 pcs steamed vegetable momos", Photo("1534422298391-e4f8c172dddb"), true, true),
    MenuItem(43, "Fried Veg Momos", 120, "momos", "8 pcs crispy fried momos", Photo("1609252925148-b0f1b515e111"), true, false),
    MenuItem(44, "Tandoori Momos", 150, "momos", "8 pcs smoky tandoori momos", Photo("1625220194771-7ebdea0b70b9"), true, true),
    MenuItem(45, "Paneer Momos", 140, "momos", "8 pcs paneer stuffed momos", Photo("1534422298391-e4f8c172dddb"), true, false),
    MenuItem(46, "Cheese Momos", 160, "momos", "8 pcs cheese filled momos", Photo("1609252925148-b0f1b515e111"), true, false),
    MenuItem(47, "Afghani Momos", 170, "momos", "8 pcs creamy Afghani momos", Photo("1625220194771-7ebdea0b70b9"), true, false)
  ]

  /** Noodles */
  const Noodles: seq<MenuItem> := [
    MenuItem(48, "Veg Hakka Noodles", 150, "noodles", "Stir-fried noodles with veggies", Photo("1569718212165-3a8278d5f624"), true, true),
    MenuItem(49, "Schezwan Noodles", 170, "noodles", "Spicy Schezwan style noodles", Photo("1585032226651-759b368d7246"), true, false),
    MenuItem(50, "Chilli Garlic Noodles", 170, "noodles", "Noodles with chilli garlic sauce", Photo("1552611052-33e04de081de"), true, false),
    MenuItem(51, "Singapore Noodles", 180, "noodles", "Curry flavored thin noodles", Photo("1569718212165-3a8278d5f624"), true, false),
    MenuItem(52, "Paneer Noodles", 190, "noodles", "Noodles with paneer cubes", Photo("1585032226651-759b368d7246"), true, false)
  ]

  /** Pasta */
  const Pasta: seq<MenuItem> := [
    MenuItem(53, "Penne Arrabiata", 180, "pasta", "Penne in spicy tomato sauce", Photo("1563379926898-05f4575a45d8"), true, false),
    MenuItem(54, "White Sauce Pasta", 190, "pasta", "Creamy white sauce pasta", Photo("1645112411341-6c4fd023714a"), true, true),
    MenuItem(55, "Pink Sauce Pasta", 200, "pasta", "Mix of red and white sauce", Photo("1621996346565-e3dbc646d9a9"), true, false),
    MenuItem(56, "Mac and Cheese", 220, "pasta", "Classic cheesy macaroni", Photo("1543339494-b4cd4f7ba686"), true, true),
    MenuItem(57, "Alfredo Pasta", 210, "pasta", "Rich Alfredo cream sauce", Photo("1645112411341-6c4fd023714a"), true, false)
  ]

  /** Chinese */
  const Chinese: seq<MenuItem> := [
    MenuItem(58, "Veg Fried Rice", 150, "chinese", "Wok-tossed rice with veggies", Photo("1603133872878-684f208fb84b"), true, true),
    MenuItem(59, "Schezwan Fried Rice", 170, "chinese", "Spicy Schezwan fried rice", Photo("1596560548464-f010549b84d7"), true, false),
    MenuItem(60, "Manchurian Rice", 180, "chinese", "Fried rice with manchurian", Photo("1603133872878-684f208fb84b"), true, false),
    MenuItem(61, "Veg Manchurian Dry", 160, "chinese", "Crispy vegetable balls", Photo("1645696301019-35adcc18fc71"), true, false),
    MenuItem(62, "Veg Manchurian Gravy", 180, "chinese", "Veg balls in brown gravy", Photo("1645696301019-35adcc18fc71"), true, false),
    MenuItem(63, "Chilli Paneer Dry", 200, "chinese", "Spicy stir-fried paneer", Photo("1567188040759-fb8a883dc6d8"), true, true),
    MenuItem(64, "Chilli Paneer Gravy", 220, "chinese", "Paneer in spicy gravy", Photo("1567188040759-fb8a883dc6d8"), true, false),
    MenuItem(65, "Spring Rolls", 140, "chinese", "4 pcs crispy spring rolls", Photo("1606525437679-037aca74a3e9"), true, false)
  ]

  /** Indian Snacks */
  const IndianSnacks: seq<MenuItem> := [
    MenuItem(66, "Samosa", 30, "indian-snacks", "Crispy potato filled pastry", Photo("1601050690597-df0568f70950"), true, true),
    MenuItem(67, "Pav Bhaji", 120, "indian-snacks", "Spiced veggie mash with bread", Photo("1626132647523-66f5bf380027"), true, true),
    MenuItem(68, "Chole Bhature", 150, "indian-snacks", "Chickpeas with fried bread", Photo("1626132647523-66f5bf380027"), true, false),
    MenuItem(69, "Aloo Paratha", 100, "indian-snacks", "Stuffed potato flatbread", Photo("1565557623262-b51c2513a641"), true, false),
    MenuItem(70, "Paneer Paratha", 120, "indian-snacks", "Stuffed paneer flatbread", Photo("1565557623262-b51c2513a641"), true, false),
    MenuItem(71, "Maggi", 80, "indian-snacks", "Classic 2-minute noodles", Photo("1612929633738-8fe44f7ec841"), true, false),
    MenuItem(72, "Cheese Maggi", 100, "indian-snacks", "Maggi with extra cheese", Photo("1612929633738-8fe44f7ec841"), true, false),
    MenuItem(73, "Bread Pakora", 60, "indian-snacks", "Stuffed fried bread fritters", Photo("1601050690597-df0568f70950"), true, false)
  ]

  /** The whole catalogue, in source order. */
  const Items: seq<MenuItem> :=
    HotBeverages + ColdBeverages + Shakes + Sandwiches + Burgers + Starters + Momos + Noodles + Pasta + Chinese + IndianSnacks

  /** The items of `s` carry the consecutive ids `k`, `k + 1`, ... */
  predicate NumberedFrom(s: seq<MenuItem>, k: int) {
    forall i :: 0 <= i < |s| ==> s[i].id == k + i
  }

  /** Every item of `s` has a positive price and belongs to a listed category. */
  predicate WellPlaced(s: seq<MenuItem>) {
    forall m :: m in s ==> m.price > 0 && exists c :: c in Categories && c.id == m.category
  }

  /** `s` is numbered from `k` and every item of it is well placed in category `c`. */
  predicate GroupOk(s: seq<MenuItem>, k: int, c: nat) {
    c < |Categories| && NumberedFrom(s, k)
    && forall i :: 0 <= i < |s| ==> s[i].price > 0 && s[i].category == Categories[c].id
  }

  lemma GroupWellPlaced(s: seq<MenuItem>, k: int, c: nat)
    requires GroupOk(s, k, c)
    ensures WellPlaced(s)
  {
    assert Categories[c] in Categories;
  }

  lemma NumberedConcat(a: seq<MenuItem>, b: seq<MenuItem>, k: int)
    requires NumberedFrom(a, k) && NumberedFrom(b, k + |a|)
    ensures NumberedFrom(a + b, k)
  {
  }

  lemma WellPlacedConcat(a: seq<MenuItem>, b: seq<MenuItem>)
    requires WellPlaced(a) && WellPlaced(b)
    ensures WellPlaced(a + b)
  {
  }

  lemma HotBeveragesOk() ensures |HotBeverages| == 8 && GroupOk(HotBeverages, 1, 0) {}
  lemma ColdBeveragesOk() ensures |ColdBeverages| == 7 && GroupOk(ColdBeverages, 9, 1) {}
  lemma ShakesOk() ensures |Shakes| == 6 && GroupOk(Shakes, 16, 2) {}
  lemma SandwichesOk() ensures |Sandwiches| == 6 && GroupOk(Sandwiches, 22, 3) {}
  lemma BurgersOk() ensures |Burgers| == 6 && GroupOk(Burgers, 28, 4) {}
  lemma StartersOk() ensures |Starters| == 8 && GroupOk(Starters, 34, 5) {}
  lemma MomosOk() ensures |Momos| == 6 && GroupOk(Momos, 42, 6) {}
  lemma NoodlesOk() ensures |Noodles| == 5 && GroupOk(Noodles, 48, 7) {}
  lemma PastaOk() ensures |Pasta| == 5 && GroupOk(Pasta, 53, 8) {}
  lemma ChineseOk() ensures |Chinese| == 8 && GroupOk(Chinese, 58, 9) {}
  lemma IndianSnacksOk() ensures |IndianSnacks| == 8 && GroupOk(IndianSnacks, 66, 10) {}

  /** Eleven well-formed, consecutively numbered groups concatenate to a
      numbered, well-placed catalogue. */
  lemma GroupsConcat(
    g0: seq<MenuItem>, g1: seq<MenuItem>, g2: seq<MenuItem>, g3: seq<MenuItem>, g4: seq<MenuItem>, g5: seq<MenuItem>,
    g6: seq<MenuItem>, g7: seq<MenuItem>, g8: seq<MenuItem>, g9: seq<MenuItem>, g10: seq<MenuItem>)
    requires |g0| == 8 && GroupOk(g0, 1, 0)
    requires |g1| == 7 && GroupOk(g1, 9, 1)
    requires |g2| == 6 && GroupOk(g2, 16, 2)
    requires |g3| == 6 && GroupOk(g3, 22, 3)
    requires |g4| == 6 && GroupOk(g4, 28, 4)
    requires |g5| == 8 && GroupOk(g5, 34, 5)
    requires |g6| == 6 && GroupOk(g6, 42, 6)
    requires |g7| == 5 && GroupOk(g7, 48, 7)
    requires |g8| == 5 && GroupOk(g8, 53, 8)
    requires |g9| == 8 && GroupOk(g9, 58, 9)
    requires |g10| == 8 && GroupOk(g10, 66, 10)
    ensures NumberedFrom(g0 + g1 + g2 + g3 + g4 + g5 + g6 + g7 + g8 + g9 + g10, 1) && WellPlaced(g0 + g1 + g2 + g3 + g4 + g5 + g6 + g7 + g8 + g9 + g10)
  {
    var s: seq<MenuItem> := [];
    GroupWellPlaced(g0, 1, 0); NumberedConcat(s, g0, 1); WellPlacedConcat(s, g0); s := s + g0;
    GroupWellPlaced(g1, 9, 1); NumberedConcat(s, g1, 1); WellPlacedConcat(s, g1); s := s + g1;
    GroupWellPlaced(g2, 16, 2); NumberedConcat(s, g2, 1); WellPlacedConcat(s, g2); s := s + g2;
    GroupWellPlaced(g3, 22, 3); NumberedConcat(s, g3, 1); WellPlacedConcat(s, g3); s := s + g3;
    GroupWellPlaced(g4, 28, 4); NumberedConcat(s, g4, 1); WellPlacedConcat(s, g4); s := s + g4;
    GroupWellPlaced(g5, 34, 5); NumberedConcat(s, g5, 1); WellPlacedConcat(s, g5); s := s + g5;
    GroupWellPlaced(g6, 42, 6); NumberedConcat(s, g6, 1); WellPlacedConcat(s, g6); s := s + g6;
    GroupWellPlaced(g7, 48, 7); NumberedConcat(s, g7, 1); WellPlacedConcat(s, g7); s := s + g7;
    GroupWellPlaced(g8, 53, 8); NumberedConcat(s, g8, 1); WellPlacedConcat(s, g8); s := s + g8;
    GroupWellPlaced(g9, 58, 9); NumberedConcat(s, g9, 1); WellPlacedConcat(s, g9); s := s + g9;
    GroupWellPlaced(g10, 66, 10); NumberedConcat(s, g10, 1); WellPlacedConcat(s, g10); s := s + g10;
    assert s == g0 + g1 + g2 + g3 + g4 + g5 + g6 + g7 + g8 + g9 + g10;
  }

  /** The catalogue is the eleven groups in order: 73 items numbered from 1,
      each well placed. */
  lemma CatalogueNumbered()
    ensures |Items| == 73 && NumberedFrom(Items, 1) && WellPlaced(Items)
  {
    HotBeveragesOk();
    ColdBeveragesOk();
    ShakesOk();
    SandwichesOk();
    BurgersOk();
    StartersOk();
    MomosOk();
    NoodlesOk();
    PastaOk();
    ChineseOk();
    IndianSnacksOk();
    GroupsConcat(HotBeverages, ColdBeverages, Shakes, Sandwiches, Burgers, Starters, Momos, Noodles, Pasta, Chinese, IndianSnacks);
  }

  /** Consecutive numbering makes the ids distinct. */
  lemma NumberedDistinct(s: seq<MenuItem>, k: int)
    requires NumberedFrom(s, k)
    ensures forall i, j :: 0 <= i < j < |s| ==> s[i].id != s[j].id
  {
  }

  /** A well-placed item's category is found by `CategoryById`. */
  lemma WellPlacedFound(s: seq<MenuItem>)
    requires WellPlaced(s)
    ensures forall m :: m in s ==> m.price > 0 && CategoryById(m.category).Some?
  {
    forall m | m in s ensures m.price > 0 && CategoryById(m.category).Some? {
      var c :| c in Categories && c.id == m.category;
    }
  }

  /** The catalogue's ids are 1 to 73 in order, so they are unique; every item
      costs something and names a category that `CategoryById` finds. */
  lemma CatalogueWellFormed()
    ensures |Items| == 73
    ensures forall i :: 0 <= i < |Items| ==> Items[i].id == i + 1
    ensures forall i, j :: 0 <= i < j < |Items| ==> Items[i].id != Items[j].id
    ensures forall m :: m in Items ==> m.price > 0 && CategoryById(m.category).Some?
  {
    CatalogueNumbered();
    NumberedDistinct(Items, 1);
    WellPlacedFound(Items);
  }

  // The four queries take the catalogue as a parameter `menu`; the application
  // always passes `Items`.

  /** `getItemsByCategory(categoryId)`: the items of that category, in catalogue order. */
  function ItemsByCategory(menu: seq<MenuItem>, categoryId: string): (r: seq<MenuItem>)
    ensures forall m :: m in r <==> m in menu && m.category == categoryId
    ensures forall m :: multiset(r)[m] == if m.category == categoryId then multiset(menu)[m] else 0
    ensures IsSubseq(r, menu)
  {
    Filter(menu, (m: MenuItem) => m.category == categoryId)
  }

  /** `getPopularItems()`: the items flagged popular, in catalogue order. */
  function PopularItems(menu: seq<MenuItem>): (r: seq<MenuItem>)
    ensures forall m :: m in r <==> m in menu && m.isPopular
    ensures forall m :: multiset(r)[m] == if m.isPopular then multiset(menu)[m] else 0
    ensures IsSubseq(r, menu)
  {
    Filter(menu, (m: MenuItem) => m.isPopular)
  }

  /** The search condition for an already lower-cased query. */
  predicate Matches(m: MenuItem, lowerQuery: string) {
    Contains(ToLower(m.name), lowerQuery)
    || Contains(ToLower(m.description), lowerQuery)
    || Contains(ToLower(m.category), lowerQuery)
  }

  /** `searchItems(query)`: the items whose name, description or category
      contains the query, ignoring the case of ASCII letters, in catalogue order. */
  function SearchItems(menu: seq<MenuItem>, query: string): (r: seq<MenuItem>)
    ensures forall m :: m in r <==> m in menu && Matches(m, ToLower(query))
    ensures forall m :: multiset(r)[m] == if Matches(m, ToLower(query)) then multiset(menu)[m] else 0
    ensures IsSubseq(r, menu)
  {
    var lowerQuery := ToLower(query);
    Filter(menu, (m: MenuItem) => Matches(m, lowerQuery))
  }

  /** `getCategoryById(categoryId)`: the first category with that id, if any. */
  function CategoryById(categoryId: string): (r: Option<Category>)
    ensures r.None? <==> forall c :: c in Categories ==> c.id != categoryId
    ensures r.Some? ==> r.value in Categories && r.value.id == categoryId
  {
    Find(Categories, (c: Category) => c.id == categoryId)
  }

  /** An empty query matches every item: the search of `""` is the whole catalogue. */
  lemma SearchEmptyIsAll(menu: seq<MenuItem>)
    ensures SearchItems(menu, "") == menu
  {
    forall m | m in menu ensures Matches(m, ToLower("")) {
      ContainsEmpty(ToLower(m.name));
    }
    FilterAll(menu, (m: MenuItem) => Matches(m, ToLower("")));
  }

  /** The search does not depend on the case of the query's letters. */
  lemma SearchIgnoresCase(menu: seq<MenuItem>, query: string)
    ensures SearchItems(menu, ToUpper(query)) == SearchItems(menu, query)
    ensures SearchItems(menu, ToLower(query)) == SearchItems(menu, query)
  {
    LowerAfterCase(query);
  }

  /** No two categories share an id. */
  lemma CategoryIdsDistinct()
    ensures forall i, j :: 0 <= i < j < |Categories| ==> Categories[i].id != Categories[j].id
  {
    forall i, j | 0 <= i < j < |Categories| ensures Categories[i].id != Categories[j].id {
      var a, b := Categories[i].id, Categories[j].id;
      assert |a| != |b| || a[0] != b[0];
    }
  }

  /** Looking up a listed category's id finds that category. */
  lemma CategoryByIdFindsListed(k: nat)
    requires k < |Categories|
    ensures CategoryById(Categories[k].id) == Some(Categories[k])
  {
    CategoryIdsDistinct();
    FindUnique(Categories, (c: Category) => c.id == Categories[k].id, k);
  }
}
