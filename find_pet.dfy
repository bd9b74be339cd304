/**
 * The pet finder page: the products it keeps from the listing (status
 * "available" in any ASCII case), the pet-type and search filters applied
 * on top, and the "already in the cart" flag of each card. Every filter
 * keeps the listing's order.
 */
module FindPet {
  import opened Wrappers
  import opened Text
  import opened CartLines
  import opened Cart

  /** A product as the listing sends it; the optional fields may be absent. */
  datatype ListedPet = ListedPet(
    code: string,
    petType: string,
    name: Option<string>,
    description: Option<string>,
    status: Option<string>)

  /** The type choice that disables the type filter. */
  const ALL_TYPES: string := "ALL"

  /** `a` is `b` with some elements dropped, the rest in the same order. */
  predicate IsSubsequence<T(==)>(a: seq<T>, b: seq<T>)
    decreases |b|
  {
    if a == [] then true
    else if b == [] then false
    else (a[0] == b[0] && IsSubsequence(a[1..], b[1..])) || IsSubsequence(a, b[1..])
  }

  /** Every sequence is a subsequence of itself. */
  lemma {:induction false} SubsequenceReflexive<T>(a: seq<T>)
    ensures IsSubsequence(a, a)
    decreases |a|
  {
    if a != [] {
      SubsequenceReflexive(a[1..]);
    }
  }

  /** Dropping from a subsequence of `b` gives a subsequence of `b`. */
  lemma {:induction false} SubsequenceTransitive<T>(a: seq<T>, b: seq<T>, c: seq<T>)
    requires IsSubsequence(a, b) && IsSubsequence(b, c)
    ensures IsSubsequence(a, c)
    decreases |c|
  {
    if a == [] {
    } else if c == [] {
    } else if b[0] == c[0] && IsSubsequence(b[1..], c[1..]) {
      if a[0] == b[0] && IsSubsequence(a[1..], b[1..]) {
        SubsequenceTransitive(a[1..], b[1..], c[1..]);
      } else {
        SubsequenceTransitive(a, b[1..], c[1..]);
      }
    } else {
      SubsequenceTransitive(a, b, c[1..]);
    }
  }

  /** `s.filter(keep)`: the elements that pass, in their order. */
  function Filter<T(!new)>(s: seq<T>, keep: T -> bool): (r: seq<T>)
    ensures forall x :: x in r <==> x in s && keep(x)
    ensures forall x :: multiset(r)[x] == if keep(x) then multiset(s)[x] else 0
    ensures |r| <= |s|
    ensures IsSubsequence(r, s)
  {
    if s == [] then []
    else
      assert s == [s[0]] + s[1..];
      if keep(s[0]) then [s[0]] + Filter(s[1..], keep)
      else Filter(s[1..], keep)
  }

  /** `product.status?.toLowerCase() === "available"`. */
  predicate IsAvailable(p: ListedPet) {
    p.status.Some? && Lower(p.status.value) == "available"
  }

  /** `product.type === selectedType`. */
  predicate HasType(p: ListedPet, selectedType: string) {
    p.petType == selectedType
  }

  /** The lower-cased term occurs in the lower-cased name or description, an absent one read as "". */
  predicate MatchesSearch(p: ListedPet, term: string) {
    var name := if p.name.Some? then p.name.value else "";
    var description := if p.description.Some? then p.description.value else "";
    Contains(Lower(name), Lower(term)) || Contains(Lower(description), Lower(term))
  }

  /** The products the page keeps from the listing. */
  function Available(all: seq<ListedPet>): (r: seq<ListedPet>)
    ensures forall p :: p in r <==> p in all && IsAvailable(p)
    ensures forall p :: multiset(r)[p] == if IsAvailable(p) then multiset(all)[p] else 0
    ensures IsSubsequence(r, all)
  {
    Filter(all, IsAvailable)
  }

  /** The filters the page applies on top of availability. */
  predicate PassesFilters(p: ListedPet, selectedType: string, term: string) {
    && (selectedType != ALL_TYPES ==> HasType(p, selectedType))
    && (term != "" ==> MatchesSearch(p, term))
  }

  /**
   * The cards shown: the type filter unless "ALL" is chosen, then the search
   * unless the term is empty. Every copy of a passing product is kept, in
   * the listing's order.
   */
  function Shown(products: seq<ListedPet>, selectedType: string, term: string): (r: seq<ListedPet>)
    ensures forall p :: p in r <==> p in products && PassesFilters(p, selectedType, term)
    ensures forall p :: multiset(r)[p] == if PassesFilters(p, selectedType, term) then multiset(products)[p] else 0
    ensures IsSubsequence(r, products)
  {
    SubsequenceReflexive(products);
    var byType := if selectedType != ALL_TYPES then Filter(products, p => HasType(p, selectedType)) else products;
    if term != "" then
      var r := Filter(byType, p => MatchesSearch(p, term));
      SubsequenceTransitive(r, byType, products);
      r
    else byType
  }

  /** "All Pets" with an empty search shows every available product, in order. */
  lemma ResetShowsAll(products: seq<ListedPet>)
    ensures Shown(products, ALL_TYPES, "") == products
  {
  }

  /** The empty term occurs in every text, so any product matches it. */
  lemma EmptyTermMatches(p: ListedPet)
    ensures MatchesSearch(p, "")
  {
    var name := if p.name.Some? then p.name.value else "";
    assert Lower("") <= Lower(name)[0..];
  }

  /** `data?.cartLines?.map(item => item.productInfo.code) || []`: the codes in the cart, line by line. */
  function CartCodes(cart: Option<CartData>): (r: seq<string>)
    ensures cart.None? ==> r == []
    ensures cart.Some? ==> |r| == |cart.value.lines| && forall k :: 0 <= k < |r| ==> r[k] == CodeOf(cart.value.lines[k])
  {
    if cart.None? then [] else seq(|cart.value.lines|, k requires 0 <= k < |cart.value.lines| => CodeOf(cart.value.lines[k]))
  }

  /** `cartItems.includes(product.code)`: the card's "in cart" flag. */
  predicate IsAddedToCart(cart: Option<CartData>, p: ListedPet) {
    p.code in CartCodes(cart)
  }

  /** The flag is set exactly when some cart line is for the product's code. */
  lemma AddedToCartIffLine(cart: Option<CartData>, p: ListedPet)
    ensures IsAddedToCart(cart, p) <==> cart.Some? && HasCode(cart.value.lines, p.code)
  {
    if cart.Some? && HasCode(cart.value.lines, p.code) {
      var k :| 0 <= k < |cart.value.lines| && CodeOf(cart.value.lines[k]) == p.code;
      assert CartCodes(cart)[k] == p.code;
    }
  }
}
