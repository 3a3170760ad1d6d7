/** The client-side wishlist (src/context/WishlistContext.tsx): a list of
    products held by the page. A guest adds without duplicates; a signed-in
    user's add and remove go through the backend first and change the list
    only when the call did not throw. The signed-in user and the backend's
    outcome are parameters. */
module Wishlist {
  import opened Models
  import opened Seqs

  function HasId(id: string): Product -> bool { (p: Product) => p.id == id }
  function LacksId(id: string): Product -> bool { (p: Product) => p.id != id }

  /** `isInWishlist`: `items.some(item => item.id === id)`. */
  function InList(items: seq<Product>, id: string): (b: bool)
    ensures b <==> exists i :: 0 <= i < |items| && items[i].id == id
  {
    FindIndex(items, HasId(id)) != -1
  }

  /** No two items share an id. */
  predicate IdsDistinct(items: seq<Product>)
  {
    forall i, j :: 0 <= i < j < |items| ==> items[i].id != items[j].id
  }

  /** The guest update: unchanged if an item has the id, else appended. */
  function GuestAdd(items: seq<Product>, product: Product): seq<Product>
  {
    if FindIndex(items, HasId(product.id)) != -1 then items else items + [product]
  }

  /** `prev.filter(p => p.id !== productId)`. */
  function RemoveById(items: seq<Product>, id: string): (r: seq<Product>)
    ensures !InList(r, id)
    ensures IsSubseq(r, items)
    ensures forall p :: p in r <==> p in items && p.id != id
    ensures r == Filter(items, LacksId(id))
  {
    FilterIsSubseq(items, LacksId(id));
    forall p ensures p in Filter(items, LacksId(id)) <==> p in items && p.id != id {
      FilterMember(items, LacksId(id), p);
    }
    Filter(items, LacksId(id))
  }

  /** A guest add leaves the product's id in the list, appends only when the
      id was absent, keeps ids distinct, and a second add changes nothing. */
  lemma GuestAddLaws(items: seq<Product>, product: Product)
    ensures InList(GuestAdd(items, product), product.id)
    ensures InList(items, product.id) ==> GuestAdd(items, product) == items
    ensures !InList(items, product.id) ==> GuestAdd(items, product) == items + [product]
    ensures IdsDistinct(items) ==> IdsDistinct(GuestAdd(items, product))
    ensures GuestAdd(GuestAdd(items, product), product) == GuestAdd(items, product)
  {
    var r := GuestAdd(items, product);
    assert InList(r, product.id) by {
      if !InList(items, product.id) {
        assert r[|items|] == product;
      }
    }
  }

  /** Removing twice is removing once, and removing after a guest add is
      just removing. */
  lemma RemoveLaws(items: seq<Product>, product: Product)
    ensures RemoveById(RemoveById(items, product.id), product.id) == RemoveById(items, product.id)
    ensures RemoveById(GuestAdd(items, product), product.id) == RemoveById(items, product.id)
    ensures IdsDistinct(items) ==> IdsDistinct(RemoveById(items, product.id))
  {
    FilterAll(RemoveById(items, product.id), LacksId(product.id));
    if !InList(items, product.id) {
      FilterConcat(items, [product], LacksId(product.id));
    }
    if IdsDistinct(items) {
      FilterKeepsIdsDistinct(items, LacksId(product.id));
    }
  }

  lemma {:induction false} FilterKeepsIdsDistinct(items: seq<Product>, keep: Product -> bool)
    requires IdsDistinct(items)
    ensures IdsDistinct(Filter(items, keep))
  {
    if items != [] {
      FilterKeepsIdsDistinct(items[1..], keep);
      var r := Filter(items[1..], keep);
      forall p | p in r ensures p.id != items[0].id {
        FilterMember(items[1..], keep, p);
        var j :| 0 <= j < |items[1..]| && items[1..][j] == p;
        assert items[j + 1] == p;
      }
    }
  }

  /** The signed-in add appends without a duplicate check
      (`WishlistStore.AddToWishlist`: `items == old(items) + [product]`), so
      adding a product whose id is already listed lists that id twice. */
  lemma SignedInAddDuplicates(items: seq<Product>, p: Product)
    requires InList(items, p.id)
    ensures !IdsDistinct(items + [p])
  {
    var i :| 0 <= i < |items| && items[i].id == p.id;
    assert (items + [p])[i].id == (items + [p])[|items|].id;
  }

  /** The provider's state. */
  class WishlistStore {
    var items: seq<Product>
    var loading: bool

    /** The initial state; `saved` is what local storage held, if anything. */
    constructor (saved: Option<seq<Product>>)
      ensures items == (if saved.Some? then saved.value else []) && !loading
    {
      items := if saved.Some? then saved.value else [];
      loading := false;
    }

    /** `isInWishlist`. */
    function IsInWishlist(productId: string): (b: bool)
      reads this
      ensures b <==> exists i :: 0 <= i < |items| && items[i].id == productId
    {
      InList(items, productId)
    }

    /** `loadUserWishlist`: with a user, a successful response replaces the
        list; a failed or thrown call keeps it. Loading ends false. */
    method LoadUserWishlist(user: Option<User>, outcome: ApiOutcome<seq<Product>>)
      modifies this
      ensures user.None? ==> items == old(items) && loading == old(loading)
      ensures user.Some? && outcome.Returned? && outcome.response.Ok? ==> items == outcome.response.data
      ensures user.Some? && !(outcome.Returned? && outcome.response.Ok?) ==> items == old(items)
      ensures user.Some? ==> !loading
    {
      if user.None? {
        return;
      }
      loading := true;
      if outcome.Returned? && outcome.response.Ok? {
        items := outcome.response.data;
      }
      loading := false;
    }

    /** `addToWishlist`. Signed in: the product is appended once the call
        returns, whatever the response says, and nothing changes if it
        throws. Guest: the duplicate-free add. */
    method AddToWishlist(user: Option<User>, product: Product, outcome: ApiOutcome<seq<string>>)
      modifies this
      ensures user.Some? && outcome.Returned? ==> items == old(items) + [product]
      ensures user.Some? && outcome.Threw? ==> items == old(items)
      ensures user.Some? ==> !loading
      ensures user.None? ==> items == GuestAdd(old(items), product) && loading == old(loading)
      ensures InList(items, product.id) || (user.Some? && outcome.Threw? && items == old(items))
    {
      if user.Some? {
        loading := true;
        if outcome.Returned? {
          items := items + [product];
          assert items[|items| - 1] == product;
        }
        loading := false;
      } else {
        GuestAddLaws(items, product);
        items := GuestAdd(items, product);
      }
    }

    /** `removeFromWishlist`: on both paths every item with the id goes and
        the rest keep their order; signed in, a thrown call changes nothing. */
    method RemoveFromWishlist(user: Option<User>, productId: string, outcome: ApiOutcome<seq<string>>)
      modifies this
      ensures user.Some? && outcome.Threw? ==> items == old(items)
      ensures user.None? || outcome.Returned? ==> items == RemoveById(old(items), productId) && !IsInWishlist(productId)
      ensures user.Some? ==> !loading
      ensures user.None? ==> loading == old(loading)
    {
      if user.Some? {
        loading := true;
        if outcome.Returned? {
          items := RemoveById(items, productId);
        }
        loading := false;
      } else {
        items := RemoveById(items, productId);
      }
    }
  }
}
