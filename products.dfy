/**
 * The featured-products list (src/components/Products.jsx): the category list,
 * the category and search filters, the three sort orders, and the guarded
 * add-to-cart. The product fetch is left out: the list is a parameter.
 */
module Products {
  import opened Text
  import opened CartContext
  import AuthContext

  const AllCategories := "All"

  /** `['All', ...new Set(allProducts.map(p => p.category))]` */
  function Categories(all: seq<Product>): (r: seq<string>)
    ensures |r| >= 1 && r[0] == AllCategories
  {
    [AllCategories] + Dedup(CategoryColumn(all))
  }

  function CategoryColumn(all: seq<Product>): (r: seq<string>)
    ensures |r| == |all| && forall i :: 0 <= i < |all| ==> r[i] == all[i].category
  {
    seq(|all|, i requires 0 <= i < |all| => all[i].category)
  }

  /**
   * The category list starts with "All", then names each category of the products once,
   * and in the order in which the categories first appear.
   */
  lemma CategoriesSpec(all: seq<Product>)
    ensures var cs := Categories(all);
      cs[0] == AllCategories &&
      Distinct(cs[1..]) &&
      (forall i :: 0 <= i < |all| ==> all[i].category in cs[1..]) &&
      (forall k :: 1 <= k < |cs| ==> exists i :: 0 <= i < |all| && all[i].category == cs[k]) &&
      (forall k, l :: 1 <= k < l < |cs| ==> IndexOf(CategoryColumn(all), cs[k]) < IndexOf(CategoryColumn(all), cs[l]))
  {
    var col := CategoryColumn(all);
    var cs := Categories(all);
    DedupSpec(col);
    assert cs[1..] == Dedup(col);
    forall k | 1 <= k < |cs| ensures exists i :: 0 <= i < |all| && all[i].category == cs[k] {
      assert cs[k] == Dedup(col)[k - 1];
      var i := IndexOf(col, cs[k]);
      assert all[i].category == cs[k];
    }
  }

  // ---------------------------------------------------------------------
  // Filters

  predicate InCategory(selected: string, p: Product) {
    p.category == selected
  }

  /** Keeps the products of the selected category; "All" keeps every product. */
  function ByCategory(ps: seq<Product>, selected: string): (r: seq<Product>)
    ensures |r| <= |ps|
    ensures selected != AllCategories ==> forall i :: 0 <= i < |r| ==> r[i].category == selected
  {
    if selected != AllCategories then Filter(ps, p => InCategory(selected, p)) else ps
  }

  /** The case-insensitive search: the name or the category contains the term. */
  predicate MatchesSearch(term: string, p: Product) {
    Contains(Lower(p.name), Lower(term)) || Contains(Lower(p.category), Lower(term))
  }

  /** Keeps the products matching a non-empty search term; the empty term keeps every product. */
  function BySearch(ps: seq<Product>, term: string): (r: seq<Product>)
    ensures |r| <= |ps|
    ensures term != "" ==> forall i :: 0 <= i < |r| ==> MatchesSearch(term, r[i])
  {
    if term != "" then Filter(ps, p => MatchesSearch(term, p)) else ps
  }

  /** The category filter keeps exactly the products of the category, in their order. */
  lemma ByCategorySpec(ps: seq<Product>, selected: string)
    ensures selected == AllCategories ==> ByCategory(ps, selected) == ps
    ensures selected != AllCategories ==>
      (forall i :: 0 <= i < |ByCategory(ps, selected)| ==> ByCategory(ps, selected)[i].category == selected) &&
      (forall i :: 0 <= i < |ps| && ps[i].category == selected ==> ps[i] in ByCategory(ps, selected))
    ensures forall i :: 0 <= i < |ByCategory(ps, selected)| ==> ByCategory(ps, selected)[i] in ps
    ensures forall k :: 0 <= k <= |ps| ==>
      ByCategory(ps, selected) == ByCategory(ps[..k], selected) + ByCategory(ps[k..], selected)
    ensures forall k :: 0 <= k < |ps| ==>
      ByCategory([ps[k]], selected) == if selected == AllCategories || InCategory(selected, ps[k]) then [ps[k]] else []
  {
    if selected != AllCategories {
      FilterOrder(ps, p => InCategory(selected, p));
    } else {
      assert forall k :: 0 <= k <= |ps| ==> ps == ps[..k] + ps[k..];
    }
  }

  /** The search keeps exactly the products whose name or category matches, in their order. */
  lemma BySearchSpec(ps: seq<Product>, term: string)
    ensures term == "" ==> BySearch(ps, term) == ps
    ensures term != "" ==>
      (forall i :: 0 <= i < |BySearch(ps, term)| ==> MatchesSearch(term, BySearch(ps, term)[i])) &&
      (forall i :: 0 <= i < |ps| && MatchesSearch(term, ps[i]) ==> ps[i] in BySearch(ps, term))
    ensures forall i :: 0 <= i < |BySearch(ps, term)| ==> BySearch(ps, term)[i] in ps
    ensures forall k :: 0 <= k <= |ps| ==>
      BySearch(ps, term) == BySearch(ps[..k], term) + BySearch(ps[k..], term)
    ensures forall k :: 0 <= k < |ps| ==>
      BySearch([ps[k]], term) == if term == "" || MatchesSearch(term, ps[k]) then [ps[k]] else []
  {
    if term != "" {
      FilterOrder(ps, p => MatchesSearch(term, p));
    } else {
      assert forall k :: 0 <= k <= |ps| ==> ps == ps[..k] + ps[k..];
    }
  }

  /** Every product matches a search for its own name, whatever the letter case of the term. */
  lemma SearchFindsOwnName(p: Product)
    ensures MatchesSearch(Upper(p.name), p)
  {
    var l := Lower(p.name);
    assert Lower(Upper(p.name)) == l;
    assert l <= l;
  }

  // ---------------------------------------------------------------------
  // Sorting

  /**
   * The value each comparator orders by: `a.price - b.price` ascending price,
   * `b.price - a.price` descending price, `b.rating - a.rating` descending rating.
   */
  function SortKey(option: string, p: Product): real {
    if option == "price-asc" then p.price
    else if option == "price-desc" then -p.price
    else if option == "rating" then -p.rating
    else 0.0
  }

  predicate SortedBy(s: seq<Product>, option: string) {
    forall i, j :: 0 <= i < j < |s| ==> SortKey(option, s[i]) <= SortKey(option, s[j])
  }

  /** An in-place insertion sort of `a` by the option's comparator. */
  method SortProducts(a: array<Product>, option: string)
    modifies a
    ensures SortedBy(a[..], option)
    ensures multiset(a[..]) == multiset(old(a[..]))
  {
    var i := 0;
    while i < a.Length
      invariant 0 <= i <= a.Length
      invariant SortedBy(a[..i], option)
      invariant multiset(a[..]) == multiset(old(a[..]))
    {
      Insert(a, i, option);
      i := i + 1;
    }
    assert a[..] == a[..a.Length];
  }

  /** Moves `a[i]` left past every larger element, so that `a[..i + 1]` becomes sorted. */
  method Insert(a: array<Product>, i: int, option: string)
    requires 0 <= i < a.Length && SortedBy(a[..i], option)
    modifies a
    ensures SortedBy(a[..i + 1], option)
    ensures multiset(a[..]) == multiset(old(a[..]))
  {
    var j := i;
    while j > 0 && SortKey(option, a[j - 1]) > SortKey(option, a[j])
      invariant 0 <= j <= i
      invariant multiset(a[..]) == multiset(old(a[..]))
      invariant forall p, q :: 0 <= p < q <= i && p != j && q != j ==> SortKey(option, a[p]) <= SortKey(option, a[q])
      invariant forall q :: j < q <= i ==> SortKey(option, a[j]) < SortKey(option, a[q])
    {
      Swap(a, j - 1, j);
      j := j - 1;
    }
  }

  method Swap(a: array<Product>, i: int, j: int)
    requires 0 <= i < a.Length && 0 <= j < a.Length
    modifies a
    ensures a[..] == old(a[..])[i := old(a[j])][j := old(a[i])]
    ensures multiset(a[..]) == multiset(old(a[..]))
  {
    a[i], a[j] := a[j], a[i];
  }

  /**
   * The filter-and-sort effect: category filter, then search filter, then the sort the
   * option names ("default" and unknown options leave the order alone).
   */
  method VisibleProducts(allProducts: seq<Product>, selectedCategory: string, sortOption: string, searchTerm: string)
    returns (products: seq<Product>)
    ensures multiset(products) == multiset(BySearch(ByCategory(allProducts, selectedCategory), searchTerm))
    ensures sortOption == "price-asc" ==> forall i, j :: 0 <= i < j < |products| ==> products[i].price <= products[j].price
    ensures sortOption == "price-desc" ==> forall i, j :: 0 <= i < j < |products| ==> products[i].price >= products[j].price
    ensures sortOption == "rating" ==> forall i, j :: 0 <= i < j < |products| ==> products[i].rating >= products[j].rating
    ensures sortOption !in {"price-asc", "price-desc", "rating"} ==>
      products == BySearch(ByCategory(allProducts, selectedCategory), searchTerm)
  {
    var filteredProducts := allProducts;
    if selectedCategory != AllCategories {
      filteredProducts := Filter(filteredProducts, p => InCategory(selectedCategory, p));
    }
    if searchTerm != "" {
      filteredProducts := Filter(filteredProducts, p => MatchesSearch(searchTerm, p));
    }
    if sortOption in {"price-asc", "price-desc", "rating"} {
      var a := new Product[|filteredProducts|](i requires 0 <= i < |filteredProducts| => filteredProducts[i]);
      assert a[..] == filteredProducts;
      SortProducts(a, sortOption);
      filteredProducts := a[..];
      assert SortedBy(filteredProducts, sortOption);
    }
    products := filteredProducts;
  }

  // ---------------------------------------------------------------------
  // Add to cart

  class ProductsView {
    /** `showLoginPrompt`: the id of the product whose button asks for a login, "" for none. */
    var showLoginPrompt: string
    var showLoginModal: bool
    /** `addedToCart`: the id of the product just added, "" for none. */
    var addedToCart: string

    constructor ()
      ensures showLoginPrompt == "" && !showLoginModal && addedToCart == ""
    {
      showLoginPrompt := "";
      showLoginModal := false;
      addedToCart := "";
    }

    /** `handleAddToCart`: only a signed-in visitor reaches the cart. */
    method HandleAddToCart(product: Product, cart: CartProvider, auth: AuthContext.AuthProvider)
      requires cart.Valid()
      modifies this, cart
      ensures cart.Valid()
      ensures !auth.IsAuthenticated() ==>
        cart.cartItems == old(cart.cartItems) && showLoginPrompt == ProductId(product) && showLoginModal &&
        addedToCart == old(addedToCart)
      ensures auth.IsAuthenticated() ==>
        cart.cartItems == Added(old(cart.cartItems), product) && addedToCart == ProductId(product) &&
        showLoginPrompt == old(showLoginPrompt) && showLoginModal == old(showLoginModal)
      ensures cart.isCartOpen == old(cart.isCartOpen)
    {
      var productId := ProductId(product);
      if !auth.IsAuthenticated() {
        showLoginPrompt := productId;
        showLoginModal := true;
        return;
      }
      cart.AddToCart(product);
      addedToCart := productId;
    }

    method CloseLoginModal()
      modifies this
      ensures !showLoginModal && showLoginPrompt == old(showLoginPrompt) && addedToCart == old(addedToCart)
    {
      showLoginModal := false;
    }

    /** The timer after a refused add hides the login prompt. */
    method LoginPromptElapsed()
      modifies this
      ensures showLoginPrompt == "" && showLoginModal == old(showLoginModal) && addedToCart == old(addedToCart)
    {
      showLoginPrompt := "";
    }

    /** The timer after an add hides the confirmation. */
    method AddedElapsed()
      modifies this
      ensures addedToCart == "" && showLoginPrompt == old(showLoginPrompt) && showLoginModal == old(showLoginModal)
    {
      addedToCart := "";
    }
  }
}
