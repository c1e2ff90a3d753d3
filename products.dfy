/** The catalog page: the filter and sort pipeline over the fetched
    products, the 12-per-page pagination, the timer step that cycles product
    images, and the modal's guarded add-to-cart. */
module Products {
  import opened Wrappers
  import opened Sequences
  import opened ProductTypes
  import CartContext

  const ItemsPerPage: int := 12

  /** A select that is either "ALL" or one value. */
  datatype Choice<T> = All | Only(value: T)

  datatype SortBy = Default | PriceLow | PriceHigh | NameAsc | NameDesc

  /** The filter bar. An empty price field is `None`. */
  datatype Filters = Filters(
    search: string,
    category: Choice<Category>,
    gender: Choice<Gender>,
    minPrice: Option<int>,
    maxPrice: Option<int>,
    sortBy: SortBy)

  // ---------------------------------------------------------------------
  // Text matching
  // ---------------------------------------------------------------------

  /** `toLowerCase` on ASCII letters. */
  function LowerChar(c: char): char {
    if 'A' <= c <= 'Z' then (c as int + 32) as char else c
  }

  predicate IsUpper(c: char) {
    'A' <= c <= 'Z'
  }

  /** `c` and `d` are the same character up to ASCII case. */
  predicate SameLetter(c: char, d: char) {
    c == d || (IsUpper(c) && d as int == c as int + 32) || (IsUpper(d) && c as int == d as int + 32)
  }

  /** Two strings that differ at most in ASCII case. */
  predicate SameUpToCase(a: string, b: string) {
    |a| == |b| && forall i | 0 <= i < |a| :: SameLetter(a[i], b[i])
  }

  /** `toLowerCase`: a string of the same length, with no upper-case ASCII
      letter left, that differs from its input only in case. */
  function Lower(s: string): (r: string)
    ensures |r| == |s|
    ensures forall i | 0 <= i < |r| :: !IsUpper(r[i])
    ensures SameUpToCase(s, r)
  {
    seq(|s|, i requires 0 <= i < |s| => LowerChar(s[i]))
  }

  /** Lower-casing twice is lower-casing once. */
  lemma LowerIdempotent(s: string)
    ensures Lower(Lower(s)) == Lower(s)
  {
  }

  /** Two strings lower to the same string exactly when they differ at most
      in ASCII case. */
  lemma LowerIgnoresCase(a: string, b: string)
    ensures Lower(a) == Lower(b) <==> SameUpToCase(a, b)
  {
  }

  /** The search is case-insensitive: titles, and search texts, that differ
      only in case match alike. */
  lemma SearchIgnoresCase(p: Product, title: string, search: string, search': string)
    requires SameUpToCase(p.title, title) && SameUpToCase(search, search')
    ensures MatchesSearch(p, search) <==> MatchesSearch(p.(title := title), search')
  {
    LowerIgnoresCase(p.title, title);
    LowerIgnoresCase(search, search');
  }

  predicate IsSpace(c: char) {
    c == ' ' || c == '\t' || c == '\n' || c == '\r' || c == '\U{B}' || c == '\U{C}'
  }

  /** `s.trim()` is the empty string. */
  predicate IsBlank(s: string) {
    forall i | 0 <= i < |s| :: IsSpace(s[i])
  }

  /** `hay.includes(needle)`. */
  predicate Includes(hay: string, needle: string)
    decreases |hay|
  {
    needle <= hay || (hay != [] && Includes(hay[1..], needle))
  }

  /** `needle` occurs in `hay` starting at position `k`. */
  predicate OccursAt(hay: string, needle: string, k: int) {
    0 <= k && k + |needle| <= |hay| && hay[k..k + |needle|] == needle
  }

  /** `includes` holds exactly when `needle` occurs at some position of `hay`. */
  lemma {:induction false} IncludesIffOccurs(hay: string, needle: string)
    ensures Includes(hay, needle) <==> exists k :: OccursAt(hay, needle, k)
    decreases |hay|
  {
    if needle <= hay {
      assert OccursAt(hay, needle, 0);
    } else if hay == [] {
    } else {
      IncludesIffOccurs(hay[1..], needle);
      if Includes(hay[1..], needle) {
        var k :| OccursAt(hay[1..], needle, k);
        assert hay[k + 1..k + 1 + |needle|] == hay[1..][k..k + |needle|];
        assert OccursAt(hay, needle, k + 1);
      }
      if exists k :: OccursAt(hay, needle, k) {
        var k :| OccursAt(hay, needle, k);
        if k > 0 {
          assert hay[1..][k - 1..k - 1 + |needle|] == hay[k..k + |needle|];
          assert OccursAt(hay[1..], needle, k - 1);
        }
      }
    }
  }

  // ---------------------------------------------------------------------
  // The filter and sort pipeline
  // ---------------------------------------------------------------------

  /** The title contains the search text, both lower-cased. */
  predicate MatchesSearch(p: Product, search: string) {
    Includes(Lower(p.title), Lower(search))
  }

  /** Each filter, as it constrains a product when it is active. */
  predicate SearchOk(p: Product, f: Filters) { IsBlank(f.search) || MatchesSearch(p, f.search) }
  predicate CategoryOk(p: Product, f: Filters) { f.category.All? || p.category == f.category.value }
  predicate GenderOk(p: Product, f: Filters) { f.gender.All? || p.gender == f.gender.value }
  predicate MinPriceOk(p: Product, f: Filters) { f.minPrice.None? || p.price >= f.minPrice.value }
  predicate MaxPriceOk(p: Product, f: Filters) { f.maxPrice.None? || p.price <= f.maxPrice.value }

  predicate PassesFilters(p: Product, f: Filters) {
    SearchOk(p, f) && CategoryOk(p, f) && GenderOk(p, f) && MinPriceOk(p, f) && MaxPriceOk(p, f)
  }

  /** One `if (...) data = data.filter(...)` step: the filter applies only
      while its field is set. */
  function Narrow(s: seq<Product>, active: bool, keep: Product -> bool): seq<Product> {
    if active then Filter(s, keep) else s
  }

  /** A step keeps the products in their order. */
  lemma NarrowInOrder(s: seq<Product>, active: bool, keep: Product -> bool)
    ensures IsSubsequence(Narrow(s, active, keep), s)
  {
    if active {
      FilterIsSubsequence(s, keep);
    } else {
      SubsequenceReflexive(s);
    }
  }

  /** A step keeps exactly the products that pass while it is active, each
      as often as before, and everything while it is not. */
  lemma NarrowCounts(s: seq<Product>, active: bool, keep: Product -> bool)
    ensures forall x :: multiset(Narrow(s, active, keep))[x] == if !active || keep(x) then multiset(s)[x] else 0
  {
    if active {
      FilterCounts(s, keep);
    }
  }

  /** The test each filter stage applies to a product. */
  function SearchTest(f: Filters): Product -> bool { (p: Product) => MatchesSearch(p, f.search) }
  function CategoryTest(f: Filters): Product -> bool { (p: Product) => CategoryOk(p, f) }
  function GenderTest(f: Filters): Product -> bool { (p: Product) => GenderOk(p, f) }
  function MinPriceTest(f: Filters): Product -> bool { (p: Product) => MinPriceOk(p, f) }
  function MaxPriceTest(f: Filters): Product -> bool { (p: Product) => MaxPriceOk(p, f) }

  /** The products `loadProducts` keeps: the chain of `filter`s, each
      applied only when its field is set. */
  function KeptProducts(data: seq<Product>, f: Filters): (r: seq<Product>)
    ensures |r| <= |data|
    ensures IsBlank(f.search) && f.category.All? && f.gender.All? && f.minPrice.None? && f.maxPrice.None? ==> r == data
  {
    var d1 := Narrow(data, !IsBlank(f.search), SearchTest(f));
    var d2 := Narrow(d1, f.category.Only?, CategoryTest(f));
    var d3 := Narrow(d2, f.gender.Only?, GenderTest(f));
    var d4 := Narrow(d3, f.minPrice.Some?, MinPriceTest(f));
    Narrow(d4, f.maxPrice.Some?, MaxPriceTest(f))
  }

  /** The chain keeps the fetched order. */
  lemma KeptInFetchedOrder(data: seq<Product>, f: Filters)
    ensures IsSubsequence(KeptProducts(data, f), data)
  {
    var d1 := Narrow(data, !IsBlank(f.search), SearchTest(f));
    var d2 := Narrow(d1, f.category.Only?, CategoryTest(f));
    var d3 := Narrow(d2, f.gender.Only?, GenderTest(f));
    var d4 := Narrow(d3, f.minPrice.Some?, MinPriceTest(f));
    NarrowInOrder(data, !IsBlank(f.search), SearchTest(f));
    NarrowInOrder(d1, f.category.Only?, CategoryTest(f));
    NarrowInOrder(d2, f.gender.Only?, GenderTest(f));
    NarrowInOrder(d3, f.minPrice.Some?, MinPriceTest(f));
    NarrowInOrder(d4, f.maxPrice.Some?, MaxPriceTest(f));
    SubsequenceTransitive(d2, d1, data);
    SubsequenceTransitive(d3, d2, data);
    SubsequenceTransitive(d4, d3, data);
    SubsequenceTransitive(KeptProducts(data, f), d4, data);
  }

  /** Five filter steps in a row keep each element exactly when it passes
      every active step. */
  lemma StepCountsCompose(d0: seq<Product>, d1: seq<Product>, d2: seq<Product>, d3: seq<Product>, d4: seq<Product>, d5: seq<Product>,
                          a1: bool, k1: Product -> bool, a2: bool, k2: Product -> bool, a3: bool, k3: Product -> bool,
                          a4: bool, k4: Product -> bool, a5: bool, k5: Product -> bool)
    requires forall x :: multiset(d1)[x] == if !a1 || k1(x) then multiset(d0)[x] else 0
    requires forall x :: multiset(d2)[x] == if !a2 || k2(x) then multiset(d1)[x] else 0
    requires forall x :: multiset(d3)[x] == if !a3 || k3(x) then multiset(d2)[x] else 0
    requires forall x :: multiset(d4)[x] == if !a4 || k4(x) then multiset(d3)[x] else 0
    requires forall x :: multiset(d5)[x] == if !a5 || k5(x) then multiset(d4)[x] else 0
    ensures forall x :: multiset(d5)[x] == if (!a1 || k1(x)) && (!a2 || k2(x)) && (!a3 || k3(x)) && (!a4 || k4(x)) && (!a5 || k5(x)) then multiset(d0)[x] else 0
  {
  }

  /** A product passes every active step of the chain exactly when it
      passes the filters. */
  lemma StepsMeanPasses(f: Filters, x: Product)
    ensures PassesFilters(x, f) <==>
      (IsBlank(f.search) || SearchTest(f)(x)) && (!f.category.Only? || CategoryTest(f)(x)) && (!f.gender.Only? || GenderTest(f)(x))
      && (!f.minPrice.Some? || MinPriceTest(f)(x)) && (!f.maxPrice.Some? || MaxPriceTest(f)(x))
  {
  }

  /** The chain keeps exactly the products that pass every active filter,
      each as often as fetched. */
  lemma KeptProductsExactly(data: seq<Product>, f: Filters)
    ensures forall x :: multiset(KeptProducts(data, f))[x] == if PassesFilters(x, f) then multiset(data)[x] else 0
  {
    var d1 := Narrow(data, !IsBlank(f.search), SearchTest(f));
    var d2 := Narrow(d1, f.category.Only?, CategoryTest(f));
    var d3 := Narrow(d2, f.gender.Only?, GenderTest(f));
    var d4 := Narrow(d3, f.minPrice.Some?, MinPriceTest(f));
    var d5 := Narrow(d4, f.maxPrice.Some?, MaxPriceTest(f));
    NarrowCounts(data, !IsBlank(f.search), SearchTest(f));
    NarrowCounts(d1, f.category.Only?, CategoryTest(f));
    NarrowCounts(d2, f.gender.Only?, GenderTest(f));
    NarrowCounts(d3, f.minPrice.Some?, MinPriceTest(f));
    NarrowCounts(d4, f.maxPrice.Some?, MaxPriceTest(f));
    StepCountsCompose(data, d1, d2, d3, d4, d5,
      !IsBlank(f.search), SearchTest(f), f.category.Only?, CategoryTest(f), f.gender.Only?, GenderTest(f),
      f.minPrice.Some?, MinPriceTest(f), f.maxPrice.Some?, MaxPriceTest(f));
    forall x ensures multiset(d5)[x] == if PassesFilters(x, f) then multiset(data)[x] else 0 {
      StepsMeanPasses(f, x);
    }
  }

  /** Every kept product passes every active filter, every fetched product
      that passes them all is kept. */
  lemma KeptMeansPasses(data: seq<Product>, f: Filters, p: Product)
    ensures p in KeptProducts(data, f) <==> p in data && PassesFilters(p, f)
    ensures p in KeptProducts(data, f) ==>
      && (IsBlank(f.search) || Includes(Lower(p.title), Lower(f.search)))
      && (f.category.Only? ==> p.category == f.category.value)
      && (f.gender.Only? ==> p.gender == f.gender.value)
      && (f.minPrice.Some? ==> p.price >= f.minPrice.value)
      && (f.maxPrice.Some? ==> p.price <= f.maxPrice.value)
  {
    var r := KeptProducts(data, f);
    KeptProductsExactly(data, f);
    assert p in r <==> multiset(r)[p] > 0;
    assert p in data <==> multiset(data)[p] > 0;
  }

  /** The numeric key each sort order compares by; name orders use the
      collation rank of the title. */
  function SortKey(sortBy: SortBy, collation: string -> int): Option<Product -> int> {
    match sortBy
    case Default => None
    case PriceLow => Some((p: Product) => p.price)
    case PriceHigh => Some((p: Product) => -p.price)
    case NameAsc => Some((p: Product) => collation(p.title))
    case NameDesc => Some((p: Product) => -collation(p.title))
  }

  /** The `data.sort(...)` step: unchanged for "default", otherwise a sort
      by the order's key. Always a permutation. */
  function Arrange(data: seq<Product>, sortBy: SortBy, collation: string -> int): (r: seq<Product>)
    ensures |r| == |data| && multiset(r) == multiset(data)
    ensures sortBy == Default ==> r == data
  {
    match SortKey(sortBy, collation)
    case None => data
    case Some(key) => SortByKey(data, key)
  }

  /** "price_low" lists prices non-decreasing, "price_high" non-increasing. */
  lemma PriceOrders(data: seq<Product>, collation: string -> int)
    ensures forall i, j | 0 <= i < j < |data| :: Arrange(data, PriceLow, collation)[i].price <= Arrange(data, PriceLow, collation)[j].price
    ensures forall i, j | 0 <= i < j < |data| :: Arrange(data, PriceHigh, collation)[i].price >= Arrange(data, PriceHigh, collation)[j].price
  {
    var low := Arrange(data, PriceLow, collation);
    var high := Arrange(data, PriceHigh, collation);
    assert |low| == |data| by { assert |multiset(low)| == |multiset(data)|; }
    assert |high| == |data| by { assert |multiset(high)| == |multiset(data)|; }
    assert SortedBy(low, (p: Product) => p.price);
    assert SortedBy(high, (p: Product) => -p.price);
  }

  /** With the "default" order the page lists a subsequence of the fetched
      products: their relative order is kept. */
  lemma DefaultKeepsFetchedOrder(data: seq<Product>, f: Filters, collation: string -> int)
    requires f.sortBy == Default
    ensures IsSubsequence(Arrange(KeptProducts(data, f), f.sortBy, collation), data)
  {
    KeptInFetchedOrder(data, f);
  }

  // ---------------------------------------------------------------------
  // Pagination
  // ---------------------------------------------------------------------

  /** How `Array.prototype.slice` resolves an index: negative counts from
      the end, and the result is clipped to `[0, len]`. */
  function SliceIndex(i: int, len: nat): (r: nat)
    ensures r <= len
    ensures 0 <= i <= len ==> r == i
    ensures i > len ==> r == len
  {
    if i < 0 then (if len + i < 0 then 0 else len + i) else if i > len then len else i
  }

  /** `s.slice(start, end)`: a run of consecutive elements, the whole
      `[start, end)` run when both indices lie in range, and nothing when the
      end does not come after the start. */
  function JsSlice<T>(s: seq<T>, start: int, end: int): (r: seq<T>)
    ensures |r| <= |s|
    ensures 0 <= start <= end <= |s| ==> r == s[start..end]
    ensures 0 <= end <= start ==> r == []
  {
    var a, b := SliceIndex(start, |s|), SliceIndex(end, |s|);
    if a < b then s[a..b] else []
  }

  function Min(a: int, b: int): int { if a <= b then a else b }

  function Abs(a: int): int { if a < 0 then -a else a }

  /** `currentItems`: the slice from `(page - 1) * 12` to `page * 12`. */
  function CurrentItems(products: seq<Product>, currentPage: int): (r: seq<Product>)
    ensures currentPage >= 1 ==>
      r == products[Min((currentPage - 1) * ItemsPerPage, |products|)..Min(currentPage * ItemsPerPage, |products|)]
    ensures currentPage >= 1 ==> |r| <= ItemsPerPage
  {
    var indexOfLastItem := currentPage * ItemsPerPage;
    var indexOfFirstItem := indexOfLastItem - ItemsPerPage;
    JsSlice(products, indexOfFirstItem, indexOfLastItem)
  }

  /** `Math.ceil(products.length / 12)`. */
  function TotalPages(n: nat): (t: nat)
    ensures t * ItemsPerPage >= n
    ensures t > 0 ==> (t - 1) * ItemsPerPage < n
  {
    (n + ItemsPerPage - 1) / ItemsPerPage
  }

  /** Every product is on page `i / 12 + 1` at position `i % 12`, and the
      pages that show something are exactly pages 1 to `TotalPages`. */
  lemma PagesCoverProducts(products: seq<Product>, i: int, page: int)
    requires 0 <= i < |products| && page >= 1
    ensures CurrentItems(products, i / ItemsPerPage + 1)[i % ItemsPerPage] == products[i]
    ensures |CurrentItems(products, page)| > 0 <==> page <= TotalPages(|products|)
  {
    var p := i / ItemsPerPage + 1;
    assert (p - 1) * ItemsPerPage + i % ItemsPerPage == i;
    var t := TotalPages(|products|);
    if page <= t {
      assert (page - 1) * ItemsPerPage <= (t - 1) * ItemsPerPage;
    } else {
      assert (page - 1) * ItemsPerPage >= t * ItemsPerPage;
    }
  }

  // ---------------------------------------------------------------------
  // Image cycling
  // ---------------------------------------------------------------------

  /** A product whose card cycles its images. */
  predicate Cycles(p: Product) {
    |p.imageUrls| > 1
  }

  /** `prev[id] || 0`: the recorded index, or 0 for an id not seen yet;
      never negative while no recorded index is. */
  function ShownIndex(m: map<string, int>, id: string): (r: int)
    ensures id !in m ==> r == 0
    ensures (forall k | k in m :: m[k] >= 0) ==> r >= 0
  {
    if id in m then m[id] else 0
  }

  /** JavaScript's `%`, which truncates toward zero. */
  function JsRem(a: int, b: int): (r: int)
    requires b != 0
    ensures (a >= 0 ==> 0 <= r) && (a <= 0 ==> r <= 0)
    ensures -Abs(b) < r < Abs(b)
    ensures Abs(a) < Abs(b) ==> r == a
  {
    if a >= 0 then a % b else -((-a) % b)
  }

  /** The next image index of a cycling product. */
  function NextImage(prev: map<string, int>, p: Product): (r: int)
    requires Cycles(p)
    ensures ShownIndex(prev, p.id) >= 0 ==> 0 <= r < |p.imageUrls|
    ensures 0 <= ShownIndex(prev, p.id) < |p.imageUrls| - 1 ==> r == ShownIndex(prev, p.id) + 1
    ensures ShownIndex(prev, p.id) == |p.imageUrls| - 1 ==> r == 0
  {
    JsRem(ShownIndex(prev, p.id) + 1, |p.imageUrls|)
  }

  /** The ids of the cycling products of `s`. */
  ghost function CyclingIds(s: seq<Product>): set<string> {
    set j | 0 <= j < |s| && Cycles(s[j]) :: s[j].id
  }

  ghost predicate NonNegativeIndices(m: map<string, int>) {
    forall k | k in m :: m[k] >= 0
  }

  /** The map the timer's `forEach` builds after visiting `s`: a copy of
      `prev` in which each cycling product's entry is set to its next image,
      computed from `prev` (a later product with the same id overwrites). */
  function Advanced(prev: map<string, int>, s: seq<Product>): (r: map<string, int>)
    ensures prev.Keys <= r.Keys
  {
    if s == [] then prev
    else
      var m := Advanced(prev, s[..|s| - 1]);
      var last := s[|s| - 1];
      if Cycles(last) then m[last.id := NextImage(prev, last)] else m
  }

  /** A tick adds exactly the cycling ids to the map. */
  lemma {:induction false} AdvancedKeys(prev: map<string, int>, s: seq<Product>)
    ensures Advanced(prev, s).Keys == prev.Keys + CyclingIds(s)
  {
    if s != [] {
      var init, last := s[..|s| - 1], s[|s| - 1];
      AdvancedKeys(prev, init);
      assert forall j | 0 <= j < |init| :: s[j] == init[j];
      if Cycles(last) {
        assert CyclingIds(s) == CyclingIds(init) + {last.id};
      } else {
        assert CyclingIds(s) == CyclingIds(init);
      }
    }
  }

  /** A tick leaves the entry of every id that does not cycle alone. */
  lemma {:induction false} AdvancedKeepsOthers(prev: map<string, int>, s: seq<Product>, k: string)
    requires k in prev && k !in CyclingIds(s)
    ensures k in Advanced(prev, s) && Advanced(prev, s)[k] == prev[k]
  {
    if s != [] {
      var init := s[..|s| - 1];
      assert forall j | 0 <= j < |init| :: s[j] == init[j];
      assert k !in CyclingIds(init);
      AdvancedKeepsOthers(prev, init, k);
    }
  }

  /** A tick gives each cycling id the next image of a product carrying it. */
  lemma {:induction false} AdvancedValue(prev: map<string, int>, s: seq<Product>, k: string)
    requires k in CyclingIds(s)
    ensures k in Advanced(prev, s)
    ensures exists j | 0 <= j < |s| :: s[j].id == k && Cycles(s[j]) && Advanced(prev, s)[k] == NextImage(prev, s[j])
  {
    var init, last := s[..|s| - 1], s[|s| - 1];
    if Cycles(last) && k == last.id {
      assert s[|s| - 1] == last;
    } else {
      var i :| 0 <= i < |s| && Cycles(s[i]) && s[i].id == k;
      assert i < |init| && init[i] == s[i];
      AdvancedValue(prev, init, k);
      var j :| 0 <= j < |init| && init[j].id == k && Cycles(init[j]) && Advanced(prev, init)[k] == NextImage(prev, init[j]);
      assert s[j] == init[j];
    }
  }

  /** A tick keeps every index non-negative. */
  lemma {:induction false} AdvancedNonNegative(prev: map<string, int>, s: seq<Product>)
    requires NonNegativeIndices(prev)
    ensures NonNegativeIndices(Advanced(prev, s))
  {
    if s != [] {
      AdvancedNonNegative(prev, s[..|s| - 1]);
    }
  }

  /** One tick adds exactly the cycling ids to the map, leaves every other
      entry alone, gives each cycling id the next image of a product
      carrying it, and keeps the indices in range when none was negative. */
  lemma AdvancedEntries(prev: map<string, int>, s: seq<Product>)
    ensures Advanced(prev, s).Keys == prev.Keys + CyclingIds(s)
    ensures forall k | k in prev && k !in CyclingIds(s) :: Advanced(prev, s)[k] == prev[k]
    ensures forall k | k in CyclingIds(s) :: exists j | 0 <= j < |s| ::
      s[j].id == k && Cycles(s[j]) && Advanced(prev, s)[k] == NextImage(prev, s[j])
    ensures NonNegativeIndices(prev) ==> NonNegativeIndices(Advanced(prev, s))
  {
    AdvancedKeys(prev, s);
    forall k | k in prev && k !in CyclingIds(s) ensures Advanced(prev, s)[k] == prev[k] {
      AdvancedKeepsOthers(prev, s, k);
    }
    forall k | k in CyclingIds(s)
      ensures exists j | 0 <= j < |s| :: s[j].id == k && Cycles(s[j]) && Advanced(prev, s)[k] == NextImage(prev, s[j])
    {
      AdvancedValue(prev, s, k);
    }
    if NonNegativeIndices(prev) {
      AdvancedNonNegative(prev, s);
    }
  }

  // ---------------------------------------------------------------------
  // The page
  // ---------------------------------------------------------------------

  class ProductsPage {
    var products: seq<Product>
    var loading: bool
    var filters: Filters
    var currentPage: int
    var selectedProduct: Option<Product>
    var activeImage: int
    var quantity: int
    var selectedSize: string
    var currentImageIndex: map<string, int>
    const store: CartContext.CartProvider

    /** The first render. */
    constructor (store: CartContext.CartProvider)
      ensures this.store == store
      ensures products == [] && loading && currentPage == 1 && currentImageIndex == map[]
      ensures filters == Filters("", All, All, None, None, Default)
      ensures selectedProduct == None && activeImage == 0 && quantity == 1 && selectedSize == ""
    {
      this.store := store;
      products := [];
      loading := true;
      filters := Filters("", All, All, None, None, Default);
      currentPage := 1;
      selectedProduct := None;
      activeImage := 0;
      quantity := 1;
      selectedSize := "";
      currentImageIndex := map[];
    }

    /** `loadProducts` up to the `await`: `loading` is set, and the filters
        of the render that started this run are the ones its response will
        be filtered with. */
    method BeginLoad() returns (captured: Filters)
      modifies this`loading
      ensures loading && captured == filters
    {
      loading := true;
      captured := filters;
    }

    /** `loadProducts` after `getProducts` settles, with the response reduced
        to its outcome (`None` when it throws), the filters the run captured,
        and `localeCompare` reduced to a collation rank. On success the page
        shows the kept, arranged products from page 1, whatever the filters
        are by now; on failure the list and the page stay. `loading` ends
        false either way. */
    method FinishLoad(captured: Filters, fetched: Option<seq<Product>>, collation: string -> int)
      modifies this`products, this`currentPage, this`loading
      ensures fetched.None? ==> products == old(products) && currentPage == old(currentPage)
      ensures fetched.Some? ==> products == Arrange(KeptProducts(fetched.value, captured), captured.sortBy, collation)
      ensures fetched.Some? ==> currentPage == 1
      ensures !loading
    {
      if fetched.None? {
        loading := false;
        return;
      }
      var f := captured;
      var data := fetched.value;
      if !IsBlank(f.search) {
        data := Filter(data, SearchTest(f));
      }
      if f.category.Only? {
        data := Filter(data, CategoryTest(f));
      }
      if f.gender.Only? {
        data := Filter(data, GenderTest(f));
      }
      if f.minPrice.Some? {
        data := Filter(data, MinPriceTest(f));
      }
      if f.maxPrice.Some? {
        data := Filter(data, MaxPriceTest(f));
      }
      assert data == KeptProducts(fetched.value, f);
      var key := SortKey(f.sortBy, collation);
      if key.Some? {
        data := SortByKey(data, key.value);
      }
      products := data;
      currentPage := 1;
      loading := false;
    }

    /** A run of `loadProducts` whose response arrives before any other run
        starts or settles. */
    method LoadProducts(fetched: Option<seq<Product>>, collation: string -> int)
      modifies this`products, this`currentPage, this`loading
      ensures fetched.None? ==> products == old(products) && currentPage == old(currentPage)
      ensures fetched.Some? ==> products == Arrange(KeptProducts(fetched.value, filters), filters.sortBy, collation)
      ensures fetched.Some? ==> currentPage == 1
      ensures !loading
    {
      var captured := BeginLoad();
      FinishLoad(captured, fetched, collation);
    }

    /** A change to any of the filter and sort controls. */
    method SetFilters(f: Filters)
      modifies this`filters
      ensures filters == f
    {
      filters := f;
    }

    /** Two runs that overlap: the second starts after a filter change, its
        response settles first, and the first run's response settles last.
        The page then shows the first run's list, filtered with the filters
        that are no longer selected. */
    method StaleResponseWins(newer: Filters, first: seq<Product>, second: seq<Product>, collation: string -> int)
      modifies this`products, this`currentPage, this`loading, this`filters
      ensures filters == newer
      ensures products == Arrange(KeptProducts(first, old(filters)), old(filters).sortBy, collation)
      ensures !loading
    {
      var older := BeginLoad();
      SetFilters(newer);
      var captured := BeginLoad();
      FinishLoad(captured, Some(second), collation);
      FinishLoad(older, Some(first), collation);
    }

    /** One tick of the image timer: `setCurrentImageIndex` with the map
        the `forEach` over the products builds (see `AdvancedEntries`). */
    method CycleImages()
      modifies this`currentImageIndex
      ensures currentImageIndex == Advanced(old(currentImageIndex), products)
    {
      var prev := currentImageIndex;
      var newIndex := prev;
      for i := 0 to |products|
        invariant newIndex == Advanced(prev, products[..i])
      {
        var product := products[i];
        assert products[..i + 1][..i] == products[..i];
        if |product.imageUrls| > 1 {
          var currentIdx := ShownIndex(prev, product.id);
          newIndex := newIndex[product.id := JsRem(currentIdx + 1, |product.imageUrls|)];
        }
      }
      assert products[..|products|] == products;
      currentImageIndex := newIndex;
    }

    /** Opening the modal on a product resets its image, quantity and size. */
    method OpenProduct(p: Product)
      modifies this`selectedProduct, this`activeImage, this`quantity, this`selectedSize
      ensures selectedProduct == Some(p) && activeImage == 0 && quantity == 1 && selectedSize == ""
    {
      selectedProduct := Some(p);
      activeImage := 0;
      quantity := 1;
      selectedSize := "";
    }

    /** The modal's "Add to Cart": refused (an alert) while no size is
        chosen; otherwise adds the product with the chosen quantity and
        size and closes the modal. A cart whose lines all carry a size keeps
        that shape. */
    method AddSelectedToCart() returns (alerted: bool)
      requires selectedProduct.Some?
      modifies this`selectedProduct, store, store.storage
      ensures alerted <==> selectedSize == ""
      ensures alerted ==> store.cart == old(store.cart) && selectedProduct == old(selectedProduct)
      ensures alerted ==> store.storage.entries == old(store.storage.entries)
      ensures !alerted ==> store.cart == CartContext.AddItem(old(store.cart), old(selectedProduct).value, quantity, Some(selectedSize))
      ensures !alerted ==> selectedProduct == None
      ensures !alerted && store.hasLoaded ==>
        store.storage.entries == old(store.storage.entries)[CartContext.CartKey := CartContext.Serialized(store.cart)]
      ensures !alerted && !store.hasLoaded ==> store.storage.entries == old(store.storage.entries)
      ensures store.hasLoaded == old(store.hasLoaded)
      ensures CartContext.AllSized(old(store.cart)) ==> CartContext.AllSized(store.cart)
    {
      if selectedSize == "" {
        return true;
      }
      if CartContext.AllSized(store.cart) {
        CartContext.SizedAddKeepsAllSized(store.cart, selectedProduct.value, quantity, selectedSize);
      }
      store.AddToCart(selectedProduct.value, quantity, Some(selectedSize));
      selectedProduct := None;
      alerted := false;
    }
  }
}
