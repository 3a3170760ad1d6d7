/** The catalog page (src/pages/ProductListPage.tsx): optional filters that
    are applied one after another, an inclusive price range, three sort
    orders, checkbox toggling, the Clear Filters reset and the distinct
    brand/shape/frame-type lists that feed the checkboxes. */
module ProductList {
  import opened Models
  import opened Seqs

  /** The page's filter state; `priceRange` is the pair (priceLo, priceHi). */
  datatype Filters = Filters(
    category: string,
    brands: seq<string>,
    shapes: seq<string>,
    frameTypes: seq<string>,
    priceLo: real,
    priceHi: real)

  /** The state on arrival: the category comes from the URL, or ''. */
  function InitialFilters(category: string): (f: Filters)
    ensures f.brands == [] && f.shapes == [] && f.frameTypes == []
    ensures f.priceLo == 0.0 && f.priceHi == 200.0 && f.category == category
  {
    Filters(category, [], [], [], 0.0, 200.0)
  }

  // The five conditions. An empty category or an empty checkbox list is no
  // condition at all; the price range is closed at both ends.
  predicate CategoryOk(f: Filters, p: Product) { f.category == "" || p.category == f.category }
  predicate BrandOk(f: Filters, p: Product) { |f.brands| == 0 || p.brand in f.brands }
  predicate ShapeOk(f: Filters, p: Product) { |f.shapes| == 0 || p.shape in f.shapes }
  predicate FrameTypeOk(f: Filters, p: Product) { |f.frameTypes| == 0 || p.frameType in f.frameTypes }
  predicate PriceOk(f: Filters, p: Product) { f.priceLo <= p.price <= f.priceHi }

  predicate Matches(f: Filters, p: Product)
  {
    CategoryOk(f, p) && BrandOk(f, p) && ShapeOk(f, p) && FrameTypeOk(f, p) && PriceOk(f, p)
  }

  /** The reference definition: one filter by the conjunction. */
  function Filtered(products: seq<Product>, f: Filters): (r: seq<Product>)
    ensures IsSubseq(r, products)
    ensures forall p :: p in r <==> p in products && Matches(f, p)
    ensures r == Filter(products, All(f))
  {
    var keep := All(f);
    FilterIsSubseq(products, keep);
    forall p ensures p in Filter(products, keep) <==> p in products && Matches(f, p) {
      FilterMember(products, keep, p);
    }
    Filter(products, keep)
  }

  /** One step of the pipeline: applying `step` to the result of `acc` is the
      filter by `next` when `next` is their conjunction; skipping a step that
      is no condition also gives the filter by `next`. */
  lemma PipelineStep(products: seq<Product>, acc: Product -> bool, step: Product -> bool,
                     next: Product -> bool, applied: bool)
    requires applied ==> forall p :: next(p) == (acc(p) && step(p))
    requires !applied ==> forall p :: next(p) == acc(p)
    ensures (if applied then Filter(Filter(products, acc), step) else Filter(products, acc)) == Filter(products, next)
  {
    if applied {
      FilterFilter(products, acc, step, next);
    } else {
      FilterExt(products, acc, next);
    }
  }

  /** Sorted in non-decreasing order of `key`. */
  ghost predicate SortedBy(s: seq<Product>, key: Product -> real)
  {
    forall i, j :: 0 <= i < j < |s| ==> key(s[i]) <= key(s[j])
  }

  /** `Array.prototype.sort` with a numeric comparator, in place: insertion
      sort by adjacent swaps. */
  method SortByKey(a: array<Product>, key: Product -> real)
    modifies a
    ensures SortedBy(a[..], key)
    ensures multiset(a[..]) == multiset(old(a[..]))
  {
    var i := 0;
    while i < a.Length
      invariant 0 <= i <= a.Length
      invariant forall k, l :: 0 <= k < l < i ==> key(a[k]) <= key(a[l])
      invariant multiset(a[..]) == multiset(old(a[..]))
    {
      InsertLast(a, key, i);
      i := i + 1;
    }
  }

  /** Moves `a[i]` left past every larger element of the sorted prefix. */
  method InsertLast(a: array<Product>, key: Product -> real, i: nat)
    requires i < a.Length
    requires forall k, l :: 0 <= k < l < i ==> key(a[k]) <= key(a[l])
    modifies a
    ensures forall k, l :: 0 <= k < l <= i ==> key(a[k]) <= key(a[l])
    ensures multiset(a[..]) == multiset(old(a[..]))
  {
    var j := i;
    while j > 0 && key(a[j - 1]) > key(a[j])
      invariant 0 <= j <= i
      invariant forall k, l :: 0 <= k < l <= i && k != j && l != j ==> key(a[k]) <= key(a[l])
      invariant forall l :: j < l <= i ==> key(a[j]) < key(a[l])
      invariant multiset(a[..]) == multiset(old(a[..]))
    {
      a[j - 1], a[j] := a[j], a[j - 1];
      j := j - 1;
    }
  }

  /** The sort key each order sorts ascending by. */
  function SortKey(sortBy: string): Product -> real
  {
    if sortBy == "price-high" then (p: Product) => -p.price
    else if sortBy == "rating" then (p: Product) => -p.rating
    else (p: Product) => p.price
  }

  predicate SortsResult(sortBy: string)
  {
    sortBy == "price-low" || sortBy == "price-high" || sortBy == "rating"
  }

  // The five steps of the pipeline as filters, and the conjunction of the
  // first k conditions.
  function ByCategory(c: string): Product -> bool { (p: Product) => p.category == c }
  function ByBrand(bs: seq<string>): Product -> bool { (p: Product) => p.brand in bs }
  function ByShape(ss: seq<string>): Product -> bool { (p: Product) => p.shape in ss }
  function ByFrameType(ts: seq<string>): Product -> bool { (p: Product) => p.frameType in ts }
  function ByPrice(lo: real, hi: real): Product -> bool { (p: Product) => lo <= p.price <= hi }

  function Everything(): Product -> bool { (p: Product) => true }
  function UpToCategory(f: Filters): Product -> bool { (p: Product) => CategoryOk(f, p) }
  function UpToBrand(f: Filters): Product -> bool { (p: Product) => CategoryOk(f, p) && BrandOk(f, p) }
  function UpToShape(f: Filters): Product -> bool { (p: Product) => CategoryOk(f, p) && BrandOk(f, p) && ShapeOk(f, p) }
  function UpToFrameType(f: Filters): Product -> bool
  {
    (p: Product) => CategoryOk(f, p) && BrandOk(f, p) && ShapeOk(f, p) && FrameTypeOk(f, p)
  }
  function All(f: Filters): Product -> bool { (p: Product) => Matches(f, p) }

  /** The filter half of `applyFiltersAndSort`: each chosen condition narrows
      a local copy in turn; the price range always applies. The outcome is
      the single filter by the conjunction. */
  method ApplyFilters(products: seq<Product>, f: Filters) returns (filtered: seq<Product>)
    ensures filtered == Filtered(products, f)
  {
    filtered := products;
    FilterAll(products, Everything());

    PipelineStep(products, Everything(), ByCategory(f.category), UpToCategory(f), f.category != "");
    if f.category != "" {
      filtered := Filter(filtered, ByCategory(f.category));
    }
    assert filtered == Filter(products, UpToCategory(f));

    PipelineStep(products, UpToCategory(f), ByBrand(f.brands), UpToBrand(f), |f.brands| > 0);
    if |f.brands| > 0 {
      filtered := Filter(filtered, ByBrand(f.brands));
    }
    assert filtered == Filter(products, UpToBrand(f));

    PipelineStep(products, UpToBrand(f), ByShape(f.shapes), UpToShape(f), |f.shapes| > 0);
    if |f.shapes| > 0 {
      filtered := Filter(filtered, ByShape(f.shapes));
    }
    assert filtered == Filter(products, UpToShape(f));

    PipelineStep(products, UpToShape(f), ByFrameType(f.frameTypes), UpToFrameType(f), |f.frameTypes| > 0);
    if |f.frameTypes| > 0 {
      filtered := Filter(filtered, ByFrameType(f.frameTypes));
    }
    assert filtered == Filter(products, UpToFrameType(f));

    PipelineStep(products, UpToFrameType(f), ByPrice(f.priceLo, f.priceHi), All(f), true);
    filtered := Filter(filtered, ByPrice(f.priceLo, f.priceHi));
  }

  /** `applyFiltersAndSort`: the filters, then the chosen sort on a copy in
      place; 'featured', 'newest' and unknown keys keep the filtered order. */
  method ApplyFiltersAndSort(products: seq<Product>, f: Filters, sortBy: string) returns (r: seq<Product>)
    ensures multiset(r) == multiset(Filtered(products, f))
    ensures forall p :: p in r <==> p in products && Matches(f, p)
    ensures sortBy == "price-low" ==> forall i, j :: 0 <= i < j < |r| ==> r[i].price <= r[j].price
    ensures sortBy == "price-high" ==> forall i, j :: 0 <= i < j < |r| ==> r[i].price >= r[j].price
    ensures sortBy == "rating" ==> forall i, j :: 0 <= i < j < |r| ==> r[i].rating >= r[j].rating
    ensures !SortsResult(sortBy) ==> r == Filtered(products, f)
  {
    var filtered := ApplyFilters(products, f);
    if SortsResult(sortBy) {
      var a := new Product[|filtered|](i requires 0 <= i < |filtered| => filtered[i]);
      assert a[..] == filtered;
      SortByKey(a, SortKey(sortBy));
      r := a[..];
      MultisetSameMembers(r, filtered);
    } else {
      r := filtered;
    }
  }

  lemma MultisetSameMembers(a: seq<Product>, b: seq<Product>)
    requires multiset(a) == multiset(b)
    ensures forall x :: x in a <==> x in b
  {
    assert forall x :: x in a <==> x in multiset(a);
    assert forall x :: x in b <==> x in multiset(b);
  }

  // ---------------------------------------------------------------------
  // Checkbox toggling and Clear Filters
  // ---------------------------------------------------------------------

  /** `toggleFilter` on one list: a present value is removed everywhere, an
      absent one appended. */
  function Toggle(list: seq<string>, value: string): (r: seq<string>)
    ensures value in list ==> value !in r && forall v :: v in list && v != value ==> v in r
    ensures forall v :: v in r ==> v in list || v == value
    ensures value in list ==> IsSubseq(r, list)
    ensures value !in list ==> r == list + [value]
    ensures value in list ==> r == Without(list, value)
  {
    if value in list then Without(list, value) else list + [value]
  }

  /** Toggling keeps a checkbox list duplicate-free. */
  lemma ToggleNoDup(list: seq<string>, value: string)
    requires NoDup(list)
    ensures NoDup(Toggle(list, value))
  {
    if value in list {
      FilterNoDup(list, NotEqual(value));
    }
  }

  /** Toggling an absent value twice gives the list back. Toggling a present
      value twice gives the same elements (as a multiset, for a duplicate-free
      list) with that value moved to the end. */
  lemma ToggleTwice(list: seq<string>, value: string)
    requires NoDup(list)
    ensures value !in list ==> Toggle(Toggle(list, value), value) == list
    ensures multiset(Toggle(Toggle(list, value), value)) == multiset(list)
    ensures value in list ==> Toggle(Toggle(list, value), value) == Toggle(list, value) + [value]
  {
    if value !in list {
      FilterRemovesLast(list, value);
    } else {
      var k :| 0 <= k < |list| && list[k] == value;
      FilterRemovesOne(list, value, k);
      RemoveOneMultiset(list, k);
    }
  }

  lemma {:induction false} FilterRemovesLast(list: seq<string>, value: string)
    requires value !in list
    ensures Filter(list + [value], NotEqual(value)) == list
  {
    if list == [] {
    } else {
      assert (list + [value])[1..] == list[1..] + [value];
      FilterRemovesLast(list[1..], value);
    }
  }

  /** Removing a value that occurs once, at `k`, removes exactly that slot. */
  lemma {:induction false} FilterRemovesOne(list: seq<string>, value: string, k: nat)
    requires NoDup(list) && k < |list| && list[k] == value
    ensures Filter(list, NotEqual(value)) == list[..k] + list[k + 1..]
  {
    if k == 0 {
      assert value !in list[1..];
      FilterAll(list[1..], NotEqual(value));
    } else {
      var tail := list[1..];
      assert NoDup(tail);
      assert tail[k - 1] == value;
      FilterRemovesOne(tail, value, k - 1);
      assert list[..k] + list[k + 1..] == [list[0]] + (tail[..k - 1] + tail[k..]);
    }
  }

  lemma RemoveOneMultiset(list: seq<string>, k: nat)
    requires k < |list|
    ensures multiset(list) == multiset(list[..k] + list[k + 1..]) + multiset{list[k]}
  {
    assert list == list[..k] + [list[k]] + list[k + 1..];
  }

  /** The order of a toggled-twice list can change: ["A", "B"] toggling "A"
      twice gives ["B", "A"]. */
  lemma ToggleTwiceReorders()
    ensures Toggle(Toggle(["A", "B"], "A"), "A") == ["B", "A"]
  {
    FilterRemovesOne(["A", "B"], "A", 0);
    assert ["A", "B"][1..] == ["B"];
  }

  datatype CheckboxList = Brands | Shapes | FrameTypes

  /** `toggleFilter(type, value)`: only the named list changes. */
  function ToggleFilter(f: Filters, which: CheckboxList, value: string): (g: Filters)
    ensures g.category == f.category && g.priceLo == f.priceLo && g.priceHi == f.priceHi
    ensures g.brands == (if which == Brands then Toggle(f.brands, value) else f.brands)
    ensures g.shapes == (if which == Shapes then Toggle(f.shapes, value) else f.shapes)
    ensures g.frameTypes == (if which == FrameTypes then Toggle(f.frameTypes, value) else f.frameTypes)
  {
    match which
    case Brands => f.(brands := Toggle(f.brands, value))
    case Shapes => f.(shapes := Toggle(f.shapes, value))
    case FrameTypes => f.(frameTypes := Toggle(f.frameTypes, value))
  }

  /** The Clear Filters button: the category stays, everything else returns
      to the arrival state. */
  function ClearFilters(f: Filters): (g: Filters)
    ensures g == InitialFilters(f.category)
  {
    Filters(f.category, [], [], [], 0.0, 200.0)
  }

  /** After Clear Filters the list holds exactly the products of the category
      (any, if none is chosen) priced from 0 to 200 inclusive. */
  lemma ClearedFiltersKeep(products: seq<Product>, f: Filters, p: Product)
    ensures p in Filtered(products, ClearFilters(f)) <==>
      p in products && (f.category == "" || p.category == f.category) && 0.0 <= p.price <= 200.0
  {
  }

  /** Both ends of the price range are kept. */
  lemma PriceRangeInclusive(products: seq<Product>, f: Filters, p: Product)
    requires p in products && CategoryOk(f, p) && BrandOk(f, p) && ShapeOk(f, p) && FrameTypeOk(f, p)
    requires p.price == f.priceLo || p.price == f.priceHi
    requires f.priceLo <= f.priceHi
    ensures p in Filtered(products, f)
  {
  }

  // ---------------------------------------------------------------------
  // Distinct values for the checkboxes
  // ---------------------------------------------------------------------

  function BrandsOf(products: seq<Product>): (r: seq<string>)
    ensures |r| == |products| && forall i :: 0 <= i < |products| ==> r[i] == products[i].brand
  {
    seq(|products|, i requires 0 <= i < |products| => products[i].brand)
  }

  function ShapesOf(products: seq<Product>): (r: seq<string>)
    ensures |r| == |products| && forall i :: 0 <= i < |products| ==> r[i] == products[i].shape
  {
    seq(|products|, i requires 0 <= i < |products| => products[i].shape)
  }

  function FrameTypesOf(products: seq<Product>): (r: seq<string>)
    ensures |r| == |products| && forall i :: 0 <= i < |products| ==> r[i] == products[i].frameType
  {
    seq(|products|, i requires 0 <= i < |products| => products[i].frameType)
  }

  function UniqueBrands(products: seq<Product>): seq<string> { Dedup(BrandsOf(products)) }
  function UniqueShapes(products: seq<Product>): seq<string> { Dedup(ShapesOf(products)) }
  function UniqueFrameTypes(products: seq<Product>): seq<string> { Dedup(FrameTypesOf(products)) }

  /** Each checkbox list is duplicate-free, offers exactly the values that
      occur, and lists them in order of first occurrence. */
  lemma UniqueListsFacts(products: seq<Product>)
    ensures NoDup(UniqueBrands(products)) && NoDup(UniqueShapes(products)) && NoDup(UniqueFrameTypes(products))
    ensures forall b :: b in UniqueBrands(products) <==> exists p :: p in products && p.brand == b
    ensures forall s :: s in UniqueShapes(products) <==> exists p :: p in products && p.shape == s
    ensures forall t :: t in UniqueFrameTypes(products) <==> exists p :: p in products && p.frameType == t
    ensures forall i, j :: 0 <= i < j < |UniqueBrands(products)| ==>
      UniqueBrands(products)[i] in BrandsOf(products) && UniqueBrands(products)[j] in BrandsOf(products) &&
      FirstIndex(BrandsOf(products), UniqueBrands(products)[i]) < FirstIndex(BrandsOf(products), UniqueBrands(products)[j])
  {
    DedupFacts(BrandsOf(products));
    DedupFacts(ShapesOf(products));
    DedupFacts(FrameTypesOf(products));
    forall b ensures b in BrandsOf(products) <==> exists p :: p in products && p.brand == b {
      if b in BrandsOf(products) {
        var i :| 0 <= i < |products| && BrandsOf(products)[i] == b;
        assert products[i] in products;
      }
    }
    forall s ensures s in ShapesOf(products) <==> exists p :: p in products && p.shape == s {
      if s in ShapesOf(products) {
        var i :| 0 <= i < |products| && ShapesOf(products)[i] == s;
        assert products[i] in products;
      }
    }
    forall t ensures t in FrameTypesOf(products) <==> exists p :: p in products && p.frameType == t {
      if t in FrameTypesOf(products) {
        var i :| 0 <= i < |products| && FrameTypesOf(products)[i] == t;
        assert products[i] in products;
      }
    }
    forall i, j | 0 <= i < j < |UniqueBrands(products)|
      ensures UniqueBrands(products)[i] in BrandsOf(products) && UniqueBrands(products)[j] in BrandsOf(products)
      ensures FirstIndex(BrandsOf(products), UniqueBrands(products)[i]) < FirstIndex(BrandsOf(products), UniqueBrands(products)[j])
    {
      DedupOrder(BrandsOf(products), i, j);
    }
  }
}
