/**
 * The marketplace catalog as values: products and orders, the newest-first
 * listing of the product table, the `search_products` filter chain and the
 * product list view's search filter.
 *
 * A product's id stands in for its creation time: both are assigned when the
 * row is inserted, so "newest first" is "highest id first".
 */
module Catalog {
  import opened Wrappers
  import opened Text

  datatype ProductStatus = Available | Sold | Reserved | Inactive

  datatype OrderStatus = Pending | Confirmed | Shipped | Delivered | Cancelled | Refunded

  function OrderStatusName(s: OrderStatus): string {
    match s
    case Pending => "pending"
    case Confirmed => "confirmed"
    case Shipped => "shipped"
    case Delivered => "delivered"
    case Cancelled => "cancelled"
    case Refunded => "refunded"
  }

  /** A product row; `price` is in cents and `seller` is the seller's username. */
  datatype Product = Product(
    id: nat,
    seller: string,
    title: string,
    description: string,
    categoryId: nat,
    productType: string,
    price: int,
    condition: string,
    brand: string,
    location: string,
    available: bool,
    quantity: nat,
    status: ProductStatus,
    listedViaChat: bool,
    chatSessionId: Option<int>,
    views: nat)

  /** An order row; `totalPrice` is in cents and `buyer` is the buyer's username. */
  datatype Order = Order(
    id: nat,
    buyer: string,
    productId: nat,
    quantity: nat,
    totalPrice: int,
    status: OrderStatus,
    buyerEmail: string,
    buyerPhone: string,
    deliveryAddress: string,
    orderedViaChat: bool,
    chatSessionId: Option<int>)

  /** Every product is stored under its own id. */
  predicate IdsConsistent(products: map<nat, Product>) {
    forall k :: k in products ==> products[k].id == k
  }

  /** Strictly newest first. */
  predicate Descending(ps: seq<Product>) {
    forall i, j :: 0 <= i < j < |ps| ==> ps[i].id > ps[j].id
  }

  /** The stored products with an id below `bound`, newest first: `order_by('-created_at')`. */
  function NewestFirst(products: map<nat, Product>, bound: nat): (r: seq<Product>)
    requires IdsConsistent(products)
    ensures Descending(r)
    ensures forall i :: 0 <= i < |r| ==> r[i].id < bound && r[i].id in products && products[r[i].id] == r[i]
    ensures forall k :: k in products && k < bound ==> products[k] in r
  {
    if bound == 0 then []
    else
      var rest := NewestFirst(products, bound - 1);
      if bound - 1 in products then
        NewestStep(products, bound - 1, rest);
        [products[bound - 1]] + rest
      else rest
  }

  /** Putting the product stored under `top` in front of the older ones keeps the list newest first. */
  lemma {:induction false} NewestStep(products: map<nat, Product>, top: nat, rest: seq<Product>)
    requires IdsConsistent(products) && top in products
    requires Descending(rest)
    requires forall i :: 0 <= i < |rest| ==> rest[i].id < top && rest[i].id in products && products[rest[i].id] == rest[i]
    requires forall k :: k in products && k < top ==> products[k] in rest
    ensures var r := [products[top]] + rest;
      && Descending(r)
      && (forall i :: 0 <= i < |r| ==> r[i].id <= top && r[i].id in products && products[r[i].id] == r[i])
      && forall k :: k in products && k <= top ==> products[k] in r
  {
    var r := [products[top]] + rest;
    assert forall i :: 1 <= i < |r| ==> r[i] == rest[i - 1];
    forall k | k in products && k <= top
      ensures products[k] in r
    {
      if k < top {
        assert products[k] in rest;
      }
    }
  }

  /** `queryset.filter(...)`: the products that satisfy `keep`, in their original order. */
  function Where(ps: seq<Product>, keep: Product -> bool): (r: seq<Product>)
    ensures |r| <= |ps|
    ensures forall i :: 0 <= i < |r| ==> keep(r[i]) && r[i] in ps
    ensures forall x :: x in ps && keep(x) ==> x in r
    ensures Descending(ps) ==> Descending(r)
  {
    if ps == [] then []
    else
      var rest := Where(ps[1..], keep);
      WhereKeptFrom(ps, keep, rest);
      WhereKeepsAll(ps, keep, rest);
      KeptHeadNewest(ps, rest);
      if keep(ps[0]) then [ps[0]] + rest else rest
  }

  /** What the filtered tail holds comes from the tail, so the result's items come from the list. */
  lemma {:induction false} WhereKeptFrom(ps: seq<Product>, keep: Product -> bool, rest: seq<Product>)
    requires ps != [] && forall i :: 0 <= i < |rest| ==> keep(rest[i]) && rest[i] in ps[1..]
    ensures var r := if keep(ps[0]) then [ps[0]] + rest else rest;
      forall i :: 0 <= i < |r| ==> keep(r[i]) && r[i] in ps
  {
    var r := if keep(ps[0]) then [ps[0]] + rest else rest;
    forall i | 0 <= i < |r|
      ensures keep(r[i]) && r[i] in ps
    {
      if !keep(ps[0]) || i > 0 {
        var k := if keep(ps[0]) then i - 1 else i;
        assert r[i] == rest[k];
        var m :| 0 <= m < |ps[1..]| && ps[1..][m] == rest[k];
        assert ps[m + 1] == r[i];
      }
    }
  }

  /** Every item of the list that passes the filter is in the result. */
  lemma {:induction false} WhereKeepsAll(ps: seq<Product>, keep: Product -> bool, rest: seq<Product>)
    requires ps != [] && forall x :: x in ps[1..] && keep(x) ==> x in rest
    ensures var r := if keep(ps[0]) then [ps[0]] + rest else rest;
      forall x :: x in ps && keep(x) ==> x in r
  {
    forall x | x in ps && keep(x)
      ensures x in (if keep(ps[0]) then [ps[0]] + rest else rest)
    {
      var k :| 0 <= k < |ps| && ps[k] == x;
      if k > 0 {
        assert ps[1..][k - 1] == x;
      }
    }
  }

  /** The head of a newest-first list comes before anything kept from its tail. */
  lemma {:induction false} KeptHeadNewest(ps: seq<Product>, rest: seq<Product>)
    requires ps != [] && (Descending(ps[1..]) ==> Descending(rest))
    requires forall i :: 0 <= i < |rest| ==> rest[i] in ps[1..]
    ensures Descending(ps) ==> Descending([ps[0]] + rest) && Descending(rest)
  {
    if Descending(ps) {
      assert Descending(ps[1..]) by {
        forall i, j | 0 <= i < j < |ps[1..]|
          ensures ps[1..][i].id > ps[1..][j].id
        {
          assert ps[1..][i] == ps[i + 1] && ps[1..][j] == ps[j + 1];
        }
      }
      var r := [ps[0]] + rest;
      forall i, j | 0 <= i < j < |r|
        ensures r[i].id > r[j].id
      {
        var m :| 0 <= m < |ps[1..]| && ps[1..][m] == rest[j - 1];
        assert r[j] == ps[m + 1];
        if i > 0 {
          assert r[i] == rest[i - 1];
        }
      }
    }
  }

  /** Two filters that agree on every product select the same products. */
  lemma {:induction false} WhereAgrees(ps: seq<Product>, f: Product -> bool, g: Product -> bool)
    requires forall x :: x in ps ==> f(x) == g(x)
    ensures Where(ps, f) == Where(ps, g)
  {
    if ps != [] {
      WhereAgrees(ps[1..], f, g);
    }
  }

  /** `icontains`: case-insensitive substring test. */
  predicate IContains(field: string, q: string) {
    Contains(Lower(field), Lower(q))
  }

  // ---------------------------------------------------------------------
  // search_products

  /**
   * The query parameters of `search_products`; a missing or empty text
   * parameter is "" and is not applied, the numeric ones are None when
   * missing. Prices are in cents.
   */
  datatype SearchParams = SearchParams(
    q: string,
    category: Option<nat>,
    productType: string,
    minPrice: Option<int>,
    maxPrice: Option<int>,
    location: string,
    condition: string)

  /** The text query matches one of title, description, brand and location. */
  predicate MatchesQuery(p: Product, q: string) {
    IContains(p.title, q) || IContains(p.description, q) || IContains(p.brand, q) || IContains(p.location, q)
  }

  /** Every filter of the chain, each applied only when its parameter is given. */
  predicate MatchesSearch(p: Product, params: SearchParams) {
    && p.available
    && (params.q != "" ==> MatchesQuery(p, params.q))
    && (params.category.Some? ==> p.categoryId == params.category.value)
    && (params.productType != "" ==> p.productType == params.productType)
    && (params.minPrice.Some? ==> params.minPrice.value <= p.price)
    && (params.maxPrice.Some? ==> p.price <= params.maxPrice.value)
    && (params.location != "" ==> IContains(p.location, params.location))
    && (params.condition != "" ==> p.condition == params.condition)
  }

  const SearchLimit: nat := 20

  /** The response of `search_products`: `count` and `results`. */
  datatype SearchResult = SearchResult(count: nat, results: seq<Product>)

  /**
   * `search_products`: the available products passing every given filter,
   * newest first, at most 20. A matching product is left out only when 20
   * newer matching products fill the page.
   */
  function SearchProducts(products: map<nat, Product>, bound: nat, params: SearchParams): (r: SearchResult)
    requires IdsConsistent(products)
    ensures r.count == |r.results| <= SearchLimit
    ensures Descending(r.results)
    ensures forall i :: 0 <= i < |r.results| ==>
      var p := r.results[i];
      p.id in products && products[p.id] == p && MatchesSearch(p, params)
    ensures forall k :: k in products && k < bound && MatchesSearch(products[k], params) ==>
      || products[k] in r.results
      || (|r.results| == SearchLimit && forall i :: 0 <= i < |r.results| ==> r.results[i].id > k)
  {
    var all := Where(NewestFirst(products, bound), (p: Product) => MatchesSearch(p, params));
    var page := Prefix(all, SearchLimit);
    TopOfDescending(all, SearchLimit);
    SearchResult(|page|, page)
  }

  /** The first `n` of a newest-first list hold everything newer than what they leave out. */
  lemma {:induction false} TopOfDescending(all: seq<Product>, n: nat)
    requires Descending(all)
    ensures forall x :: x in all ==>
      x in Prefix(all, n) || (|Prefix(all, n)| == n && forall i :: 0 <= i < n ==> Prefix(all, n)[i].id > x.id)
  {
    forall x | x in all
      ensures x in Prefix(all, n) || (|Prefix(all, n)| == n && forall i :: 0 <= i < n ==> Prefix(all, n)[i].id > x.id)
    {
      var j :| 0 <= j < |all| && all[j] == x;
      if j < n {
        assert Prefix(all, n)[j] == x;
      }
    }
  }

  // ---------------------------------------------------------------------
  // ProductListView with its search filter

  /** The search terms of the list view: commas count as spaces, then whitespace splitting. */
  function SearchTerms(search: string): seq<string> {
    Split(ReplaceAll(search, ",", " "))
  }

  /** Each term occurs, case-insensitively, in title, description, brand or location. */
  predicate MatchesTerms(p: Product, terms: seq<string>) {
    forall t :: t in terms ==> MatchesQuery(p, t)
  }

  /**
   * `ProductListView`: the available products matching every search term,
   * newest first, with no page limit.
   */
  function ListProducts(products: map<nat, Product>, bound: nat, search: string): (r: seq<Product>)
    requires IdsConsistent(products)
    ensures Descending(r)
    ensures forall i :: 0 <= i < |r| ==>
      r[i].id in products && products[r[i].id] == r[i] && r[i].available && MatchesTerms(r[i], SearchTerms(search))
    ensures forall k :: (k in products && k < bound && products[k].available
      && MatchesTerms(products[k], SearchTerms(search))) ==> products[k] in r
  {
    var terms := SearchTerms(search);
    Where(NewestFirst(products, bound), (p: Product) => p.available && MatchesTerms(p, terms))
  }

  /**
   * For a one-word query without commas, `search_products` with only `q`
   * returns the first 20 products of the list view searched for that word.
   */
  lemma {:induction false} SearchAgreesWithList(products: map<nat, Product>, bound: nat, q: string)
    requires IdsConsistent(products)
    requires IsWord(q) && ',' !in q
    ensures SearchProducts(products, bound, SearchParams(q, None, "", None, None, "", "")).results
      == Prefix(ListProducts(products, bound, q), SearchLimit)
  {
    var params := SearchParams(q, None, "", None, None, "", "");
    assert !Contains(q, ",") by {
      forall i | 0 <= i <= |q| - 1
        ensures !("," <= q[i..])
      {
        assert q[i..][0] == q[i];
      }
    }
    ReplaceAbsent(q, ",", " ");
    SplitJoin([q]);
    assert SearchTerms(q) == [q];
    var terms := SearchTerms(q);
    WhereAgrees(NewestFirst(products, bound),
      (p: Product) => MatchesSearch(p, params), (p: Product) => p.available && MatchesTerms(p, terms));
  }
}
