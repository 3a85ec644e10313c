/**
 * The paged shop (src/components/Shop.jsx): the query parameters of the
 * product request, the page counter with its previous/next clamps, the page
 * reset when a filter changes, and the guarded add-to-cart. The fetch itself
 * and the percent-encoding of `URLSearchParams.toString()` are left out: the
 * query is the list of name/value pairs in the order they are appended.
 */
module Shop {
  import opened Text
  import opened CartContext
  import AuthContext

  type Param = (string, string)

  /** `String(n)` for an integer. */
  function IntToString(n: int): (r: string)
    ensures r != ""
  {
    if n < 0 then "-" + NatToString(-n) else NatToString(n)
  }

  /** The parameters the shop asks the server for, in the order they are appended. */
  method QueryParams(page: int, selectedCategory: string, sortOption: string, searchTerm: string)
    returns (queryParams: seq<Param>)
    ensures queryParams == Query(page, selectedCategory, sortOption, searchTerm)
  {
    queryParams := [];
    if page != 0 {
      queryParams := queryParams + [("page", IntToString(page))];
    }
    if selectedCategory != "All" {
      queryParams := queryParams + [("category", selectedCategory)];
    }
    if sortOption != "default" {
      queryParams := queryParams + [("sort", sortOption)];
    }
    if searchTerm != "" {
      queryParams := queryParams + [("keyword", searchTerm)];
    }
  }

  function Query(page: int, selectedCategory: string, sortOption: string, searchTerm: string): seq<Param> {
    (if page != 0 then [("page", IntToString(page))] else []) +
    (if selectedCategory != "All" then [("category", selectedCategory)] else []) +
    (if sortOption != "default" then [("sort", sortOption)] else []) +
    (if searchTerm != "" then [("keyword", searchTerm)] else [])
  }

  function Keys(ps: seq<Param>): (r: seq<string>)
    ensures |r| == |ps| && forall i :: 0 <= i < |ps| ==> r[i] == ps[i].0
  {
    seq(|ps|, i requires 0 <= i < |ps| => ps[i].0)
  }

  /** The rank of each parameter name in the fixed order page, category, sort, keyword. */
  function Rank(key: string): nat {
    if key == "page" then 0 else if key == "category" then 1 else if key == "sort" then 2 else 3
  }

  /** `[x]` when the condition holds, else nothing. */
  function Opt<T>(cond: bool, x: T): seq<T> {
    if cond then [x] else []
  }

  /**
   * The parameter names sent are exactly those whose condition holds, in the order page
   * (when non-zero), category (unless "All"), sort (unless "default"), keyword (when non-empty).
   */
  lemma QueryKeys(page: int, selectedCategory: string, sortOption: string, searchTerm: string)
    ensures Keys(Query(page, selectedCategory, sortOption, searchTerm)) ==
      Opt(page != 0, "page") + Opt(selectedCategory != "All", "category") +
      Opt(sortOption != "default", "sort") + Opt(searchTerm != "", "keyword")
  {
    var a := if page != 0 then [("page", IntToString(page))] else [];
    var b := if selectedCategory != "All" then [("category", selectedCategory)] else [];
    var c := if sortOption != "default" then [("sort", sortOption)] else [];
    var d := if searchTerm != "" then [("keyword", searchTerm)] else [];
    assert Query(page, selectedCategory, sortOption, searchTerm) == a + b + c + d;
    assert Keys(a) == Opt(page != 0, "page");
    assert Keys(b) == Opt(selectedCategory != "All", "category");
    assert Keys(c) == Opt(sortOption != "default", "sort");
    assert Keys(d) == Opt(searchTerm != "", "keyword");
    KeysAppend(a, b);
    KeysAppend(a + b, c);
    KeysAppend(a + b + c, d);
  }

  /** Each parameter carries the shop's value, and they come in the order page, category, sort, keyword. */
  lemma QueryOrder(page: int, selectedCategory: string, sortOption: string, searchTerm: string)
    ensures var q := Query(page, selectedCategory, sortOption, searchTerm);
      (forall i :: 0 <= i < |q| ==>
        q[i] in {("page", IntToString(page)), ("category", selectedCategory), ("sort", sortOption), ("keyword", searchTerm)}) &&
      (forall i, j :: 0 <= i < j < |q| ==> Rank(q[i].0) < Rank(q[j].0))
  {
  }

  lemma KeysAppend(x: seq<Param>, y: seq<Param>)
    ensures Keys(x + y) == Keys(x) + Keys(y)
  {
  }

  /** With every filter at its default, the shop asks for the page alone. */
  lemma DefaultQuery(page: int)
    requires page != 0
    ensures Query(page, "All", "default", "") == [("page", IntToString(page))]
  {
  }

  class ShopView {
    var page: int
    var totalPages: int
    var selectedCategory: string
    var sortOption: string
    var searchTerm: string
    /** The id of the product whose button asks for a login, "" for none. */
    var showLoginPrompt: string
    var showLoginModal: bool
    /** The id of the product just added, "" for none. */
    var addedToCart: string

    /** The page counter stays on an existing page. */
    ghost predicate PageInRange()
      reads this
    {
      1 <= page <= totalPages
    }

    constructor ()
      ensures page == 1 && totalPages == 1 && PageInRange()
      ensures selectedCategory == "All" && sortOption == "default" && searchTerm == ""
      ensures showLoginPrompt == "" && !showLoginModal && addedToCart == ""
    {
      page := 1;
      totalPages := 1;
      selectedCategory := "All";
      sortOption := "default";
      searchTerm := "";
      showLoginPrompt := "";
      showLoginModal := false;
      addedToCart := "";
    }

    /** Previous: `Math.max(prev - 1, 1)`. */
    method PreviousPage()
      modifies this
      ensures page == Previous(old(page))
      ensures old(PageInRange()) ==> PageInRange()
      ensures totalPages == old(totalPages) && selectedCategory == old(selectedCategory)
      ensures sortOption == old(sortOption) && searchTerm == old(searchTerm)
      ensures showLoginPrompt == old(showLoginPrompt) && showLoginModal == old(showLoginModal) && addedToCart == old(addedToCart)
    {
      if PageInRange() {
        ClampsStayInRange(page, totalPages);
      }
      page := Max(page - 1, 1);
    }

    /** Next: `Math.min(prev + 1, totalPages)`. */
    method NextPage()
      modifies this
      ensures page == Next(old(page), totalPages)
      ensures old(PageInRange()) ==> PageInRange()
      ensures totalPages == old(totalPages) && selectedCategory == old(selectedCategory)
      ensures sortOption == old(sortOption) && searchTerm == old(searchTerm)
      ensures showLoginPrompt == old(showLoginPrompt) && showLoginModal == old(showLoginModal) && addedToCart == old(addedToCart)
    {
      if PageInRange() {
        ClampsStayInRange(page, totalPages);
      }
      page := Min(page + 1, totalPages);
    }

    /** A numbered page button. */
    method GoToPage(index: int)
      requires 0 <= index < totalPages
      modifies this
      ensures page == index + 1 && PageInRange()
      ensures totalPages == old(totalPages) && selectedCategory == old(selectedCategory)
      ensures sortOption == old(sortOption) && searchTerm == old(searchTerm)
      ensures showLoginPrompt == old(showLoginPrompt) && showLoginModal == old(showLoginModal) && addedToCart == old(addedToCart)
    {
      page := index + 1;
    }

    method SelectCategory(category: string)
      modifies this
      ensures selectedCategory == category && page == 1
      ensures totalPages == old(totalPages) && sortOption == old(sortOption) && searchTerm == old(searchTerm)
      ensures showLoginPrompt == old(showLoginPrompt) && showLoginModal == old(showLoginModal) && addedToCart == old(addedToCart)
    {
      selectedCategory := category;
      page := 1;
    }

    method SelectSort(option: string)
      modifies this
      ensures sortOption == option && page == 1
      ensures totalPages == old(totalPages) && selectedCategory == old(selectedCategory) && searchTerm == old(searchTerm)
      ensures showLoginPrompt == old(showLoginPrompt) && showLoginModal == old(showLoginModal) && addedToCart == old(addedToCart)
    {
      sortOption := option;
      page := 1;
    }

    method Search(term: string)
      modifies this
      ensures searchTerm == term && page == 1
      ensures totalPages == old(totalPages) && selectedCategory == old(selectedCategory) && sortOption == old(sortOption)
      ensures showLoginPrompt == old(showLoginPrompt) && showLoginModal == old(showLoginModal) && addedToCart == old(addedToCart)
    {
      searchTerm := term;
      page := 1;
    }

    /** `handleAddToCart`: only a signed-in visitor reaches the cart. */
    method HandleAddToCart(product: Product, cart: CartProvider, auth: AuthContext.AuthProvider)
      requires cart.Valid()
      modifies this, cart
      ensures cart.Valid()
      ensures !auth.IsAuthenticated() ==>
        cart.cartItems == old(cart.cartItems) && showLoginPrompt == ProductId(product) && showLoginModal &&
        addedToCart == old(addedToCart)
      ensures auth.IsAuthenticated() ==>
        cart.cartItems == Added(old(cart.cartItems), product) && addedToCart == ProductId(product) &&
        showLoginPrompt == old(showLoginPrompt) && showLoginModal == old(showLoginModal)
      ensures cart.isCartOpen == old(cart.isCartOpen)
      ensures page == old(page) && totalPages == old(totalPages)
      ensures selectedCategory == old(selectedCategory) && sortOption == old(sortOption) && searchTerm == old(searchTerm)
    {
      var productId := ProductId(product);
      if !auth.IsAuthenticated() {
        showLoginPrompt := productId;
        showLoginModal := true;
        return;
      }
      cart.AddToCart(product);
      addedToCart := productId;
    }

    /** `handleCloseLoginModal` */
    method CloseLoginModal()
      modifies this
      ensures !showLoginModal && showLoginPrompt == old(showLoginPrompt) && addedToCart == old(addedToCart)
      ensures page == old(page) && totalPages == old(totalPages) && selectedCategory == old(selectedCategory)
      ensures sortOption == old(sortOption) && searchTerm == old(searchTerm)
    {
      showLoginModal := false;
    }

    /** The page count the server reports with a page of products (`data.pages`). */
    method ReceivePages(pages: int)
      modifies this
      ensures totalPages == pages && page == old(page) && selectedCategory == old(selectedCategory)
      ensures sortOption == old(sortOption) && searchTerm == old(searchTerm)
      ensures showLoginPrompt == old(showLoginPrompt) && showLoginModal == old(showLoginModal) && addedToCart == old(addedToCart)
    {
      totalPages := pages;
    }

    /** The timer after a refused add hides the login prompt. */
    method LoginPromptElapsed()
      modifies this
      ensures showLoginPrompt == "" && showLoginModal == old(showLoginModal) && addedToCart == old(addedToCart)
      ensures page == old(page) && totalPages == old(totalPages) && selectedCategory == old(selectedCategory)
      ensures sortOption == old(sortOption) && searchTerm == old(searchTerm)
    {
      showLoginPrompt := "";
    }

    /** The timer after an add hides the confirmation. */
    method AddedElapsed()
      modifies this
      ensures addedToCart == "" && showLoginPrompt == old(showLoginPrompt) && showLoginModal == old(showLoginModal)
      ensures page == old(page) && totalPages == old(totalPages) && selectedCategory == old(selectedCategory)
      ensures sortOption == old(sortOption) && searchTerm == old(searchTerm)
    {
      addedToCart := "";
    }
  }

  /** The previous/next clamps as functions of the page: both stay in [1, totalPages]. */
  function Previous(page: int): int {
    Max(page - 1, 1)
  }

  function Next(page: int, totalPages: int): int {
    Min(page + 1, totalPages)
  }

  lemma ClampsStayInRange(page: int, totalPages: int)
    requires 1 <= page <= totalPages
    ensures 1 <= Previous(page) <= totalPages && 1 <= Next(page, totalPages) <= totalPages
    ensures Previous(page) == page - 1 || page == 1
    ensures Next(page, totalPages) == page + 1 || page == totalPages
  {
  }
}
