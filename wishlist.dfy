/**
 * The wishlist screen: an in-memory list of saved items, removal by id,
 * the item count line, and the per-item stock status and bag button.
 */
module Wishlist {
  import opened Wrappers
  import opened Text

  datatype WishlistItem = WishlistItem(
    id: string,
    name: string,
    price: string,
    originalPrice: Option<string>,
    image: string,
    inStock: bool)

  /** The list the screen starts with (images left out as empty strings). */
  const MockItems: seq<WishlistItem> := [
    WishlistItem("1", "Essence Mascara Lash Princess", "$9.99", Some("$19.48"), "", true),
    WishlistItem("2", "Eyeshadow Palette", "$19.99", None, "", true),
    WishlistItem("3", "Matte Lipstick Set", "$24.99", None, "", false),
    WishlistItem("4", "Foundation", "$29.99", None, "", true)
  ]

  /** How many items carry the id. */
  function CountWithId(items: seq<WishlistItem>, id: string): (n: nat)
    ensures n <= |items|
  {
    if items == [] then 0
    else (if items[0].id == id then 1 else 0) + CountWithId(items[1..], id)
  }

  /** `items.filter(item => item.id !== itemId)`: no item with the id is
      left, every other item is kept, and the list shrinks by the number of
      items that had the id. */
  function Removed(items: seq<WishlistItem>, id: string): (r: seq<WishlistItem>)
    ensures |r| == |items| - CountWithId(items, id)
    ensures forall k :: 0 <= k < |r| ==> r[k].id != id && r[k] in items
    ensures forall x :: x in items && x.id != id ==> x in r
  {
    if items == [] then []
    else (if items[0].id != id then [items[0]] else []) + Removed(items[1..], id)
  }

  /** Removal works item by item: it distributes over concatenation, so the
      kept items stay in their original order. */
  lemma {:induction false} RemovedAppend(a: seq<WishlistItem>, b: seq<WishlistItem>, id: string)
    ensures Removed(a + b, id) == Removed(a, id) + Removed(b, id)
  {
    if a != [] {
      assert (a + b)[1..] == a[1..] + b;
      RemovedAppend(a[1..], b, id);
    } else {
      assert a + b == b;
    }
  }

  /** Removing an id no item carries leaves the list as it is. */
  lemma {:induction false} RemovedAbsent(items: seq<WishlistItem>, id: string)
    requires forall k :: 0 <= k < |items| ==> items[k].id != id
    ensures Removed(items, id) == items
  {
    if items != [] {
      RemovedAbsent(items[1..], id);
    }
  }

  /** Removing the same id twice is removing it once. */
  lemma RemovedIdempotent(items: seq<WishlistItem>, id: string)
    ensures Removed(Removed(items, id), id) == Removed(items, id)
  {
    RemovedAbsent(Removed(items, id), id);
  }

  /** What the screen shows below its header. */
  datatype Body = EmptyWishlist | ItemList(countText: string, items: seq<WishlistItem>)

  /** "item" for exactly one, "items" otherwise. */
  function ItemNoun(n: nat): (w: string)
    ensures w == "item" <==> n == 1
    ensures w == "item" || w == "items"
  {
    if n == 1 then "item" else "items"
  }

  /** An empty list shows the empty state; otherwise "N item(s) in your wishlist". */
  function BodyFor(items: seq<WishlistItem>): (b: Body)
    ensures b.EmptyWishlist? <==> items == []
    ensures b.ItemList? ==> b.items == items && b.countText == IntToString(|items|) + " " + ItemNoun(|items|) + " in your wishlist"
  {
    if |items| == 0 then EmptyWishlist
    else ItemList(IntToString(|items|) + " " + ItemNoun(|items|) + " in your wishlist", items)
  }

  /** The count line says "item" exactly when there is one item. */
  lemma CountTextSingular(items: seq<WishlistItem>)
    requires items != []
    ensures BodyFor(items).countText == IntToString(|items|) + " item in your wishlist" <==> |items| == 1
  {
    var n := IntToString(|items|);
    if |items| != 1 {
      assert |BodyFor(items).countText| == |n| + |" items in your wishlist"|;
    }
  }

  /** The status line and the bag button of one item. */
  datatype ItemActions = ItemActions(status: string, addDisabled: bool, addLabel: string, originalPriceShown: bool)

  function ActionsFor(item: WishlistItem): (a: ItemActions)
    ensures a.addDisabled <==> !item.inStock
    ensures a.addLabel == "Notify Me" <==> !item.inStock
    ensures a.status == (if item.inStock then "In Stock" else "Out of Stock")
    ensures a.originalPriceShown <==> Truthy(item.originalPrice)
  {
    ItemActions(
      if item.inStock then "In Stock" else "Out of Stock",
      !item.inStock,
      if item.inStock then "Add to Bag" else "Notify Me",
      Truthy(item.originalPrice))
  }

  class WishlistScreen {
    var wishlistItems: seq<WishlistItem>

    constructor ()
      ensures wishlistItems == MockItems
    {
      wishlistItems := MockItems;
    }

    /** The heart button of an item: drop every item with its id. */
    method RemoveFromWishlist(itemId: string)
      modifies this
      ensures wishlistItems == Removed(old(wishlistItems), itemId)
      ensures forall k :: 0 <= k < |wishlistItems| ==> wishlistItems[k].id != itemId
      ensures |wishlistItems| == |old(wishlistItems)| - CountWithId(old(wishlistItems), itemId)
    {
      wishlistItems := Removed(wishlistItems, itemId);
    }
  }
}
