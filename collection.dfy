/** The collection page: the category filter and the price sort its effect
    computes over a copy of the catalog. */
module Collection {
  import opened ShopContext

  /** `a` is `b` with some elements left out and the rest in their order. */
  ghost predicate IsSubsequence(a: seq<Product>, b: seq<Product>)
    decreases |b|
  {
    if a == [] then true
    else if b == [] then false
    else (a[0] == b[0] && IsSubsequence(a[1..], b[1..])) || IsSubsequence(a, b[1..])
  }

  /** `products.filter(prod => prod.category === category)`. */
  function FilterCategory(products: seq<Product>, category: string): (r: seq<Product>)
    ensures forall x :: multiset(r)[x] == if x.category == category then multiset(products)[x] else 0
    ensures forall k :: 0 <= k < |r| ==> r[k].category == category
  {
    if products == [] then []
    else
      assert products == [products[0]] + products[1..];
      var rest := FilterCategory(products[1..], category);
      if products[0].category == category then [products[0]] + rest else rest
  }

  lemma {:induction false} FilterIsSubsequence(products: seq<Product>, category: string)
    ensures IsSubsequence(FilterCategory(products, category), products)
  {
    if products != [] {
      FilterIsSubsequence(products[1..], category);
      var rest := FilterCategory(products[1..], category);
      if products[0].category == category {
        assert FilterCategory(products, category) == [products[0]] + rest;
        assert ([products[0]] + rest)[1..] == rest;
      } else {
        assert FilterCategory(products, category) == rest;
        SubsequenceOfTail(rest, products);
      }
    }
  }

  /** A subsequence of the tail is a subsequence of the whole. */
  lemma SubsequenceOfTail(a: seq<Product>, b: seq<Product>)
    requires b != [] && IsSubsequence(a, b[1..])
    ensures IsSubsequence(a, b)
  {
  }

  /** The list after the category step: every product for "All", otherwise
      exactly the products of that category, in their catalog order. */
  function Selected(products: seq<Product>, category: string): (r: seq<Product>)
    ensures category == "All" ==> r == products
    ensures category != "All" ==>
      forall x :: multiset(r)[x] == if x.category == category then multiset(products)[x] else 0
    ensures IsSubsequence(r, products)
  {
    if category == "All" then
      SubsequenceReflexive(products);
      products
    else
      FilterIsSubsequence(products, category);
      FilterCategory(products, category)
  }

  lemma {:induction false} SubsequenceReflexive(s: seq<Product>)
    ensures IsSubsequence(s, s)
  {
    if s != [] {
      SubsequenceReflexive(s[1..]);
    }
  }

  /** The sort key: ascending key order is the order of the comparator. */
  function Key(p: Product, descending: bool): int {
    if descending then -p.price else p.price
  }

  predicate NonDecreasing(s: seq<Product>) {
    forall i, j :: 0 <= i < j < |s| ==> s[i].price <= s[j].price
  }

  predicate NonIncreasing(s: seq<Product>) {
    forall i, j :: 0 <= i < j < |s| ==> s[i].price >= s[j].price
  }

  /** Exchanges `a[j - 1]` and `a[j]`. */
  method SwapDown(a: array<Product>, j: int)
    requires 0 < j < a.Length
    modifies a
    ensures a[j - 1] == old(a[j]) && a[j] == old(a[j - 1])
    ensures forall m :: 0 <= m < a.Length && m != j - 1 && m != j ==> a[m] == old(a[m])
    ensures multiset(a[..]) == old(multiset(a[..]))
  {
    a[j - 1], a[j] := a[j], a[j - 1];
  }

  /** `a.sort((x, y) => y.price - x.price)` when `descending`, else
      `a.sort((x, y) => x.price - y.price)`: an insertion sort that swaps
      only strictly out-of-order neighbours. */
  method SortByPrice(a: array<Product>, descending: bool)
    modifies a
    ensures forall i, j :: 0 <= i < j < a.Length ==> Key(a[i], descending) <= Key(a[j], descending)
    ensures multiset(a[..]) == old(multiset(a[..]))
  {
    var i := 0;
    while i < a.Length
      invariant 0 <= i <= a.Length
      invariant forall k, m :: 0 <= k < m < i ==> Key(a[k], descending) <= Key(a[m], descending)
      invariant multiset(a[..]) == old(multiset(a[..]))
    {
      var j := i;
      while j > 0 && Key(a[j], descending) < Key(a[j - 1], descending)
        invariant 0 <= j <= i
        invariant forall k, m :: 0 <= k < m <= i && m != j ==> Key(a[k], descending) <= Key(a[m], descending)
        invariant multiset(a[..]) == old(multiset(a[..]))
      {
        SwapDown(a, j);
        j := j - 1;
      }
      i := i + 1;
    }
  }

  /** The effect body: copy the catalog, keep the chosen category, and sort
      by price for "price-high" or "price-low"; any other option keeps the
      filtered order. */
  method ShowProducts(products: seq<Product>, categoryFilter: string, sortOption: string)
    returns (shown: seq<Product>)
    ensures multiset(shown) == multiset(Selected(products, categoryFilter))
    ensures sortOption == "price-high" ==> NonIncreasing(shown)
    ensures sortOption == "price-low" ==> NonDecreasing(shown)
    ensures sortOption != "price-high" && sortOption != "price-low" ==> shown == Selected(products, categoryFilter)
  {
    var temp := products;
    if categoryFilter != "All" {
      temp := FilterCategory(temp, categoryFilter);
    }
    var a := new Product[|temp|](k requires 0 <= k < |temp| => temp[k]);
    assert a[..] == temp;
    if sortOption == "price-high" {
      SortByPrice(a, true);
    } else if sortOption == "price-low" {
      SortByPrice(a, false);
    }
    shown := a[..];
  }
}
