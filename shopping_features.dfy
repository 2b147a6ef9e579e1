/**
 * The shopping panel: resolving the saved item ids to products for the
 * wishlist, tagging products on a post, and the switch that shows the shop.
 */
module Shopping {
  import opened Wrappers

  datatype Product = Product(
    id: int, name: string, price: real, image: string, description: string,
    sizes: seq<string>, colors: seq<string>, tags: seq<string>, inStock: bool, shopLink: string)

  /** A point on the photo, as fractions of its width and height. */
  datatype Position = Position(x: real, y: real)

  datatype TaggedProduct = TaggedProduct(product: Product, position: Position)

  const MockProducts: seq<Product> := [
    Product(1, "Vintage Denim Jacket", 89.99, "https://example.com/jacket.jpg", "Classic vintage denim jacket",
      ["S", "M", "L", "XL"], ["Blue", "Black"], ["vintage", "denim", "jacket"], true, "https://shop.example.com/product/1"),
    Product(2, "Minimalist Watch", 199.99, "https://example.com/watch.jpg", "Elegant minimalist timepiece",
      ["One Size"], ["Silver", "Gold", "Rose Gold"], ["watch", "minimalist", "accessories"], true, "https://shop.example.com/product/2")
  ]

  const MockSavedItems: seq<int> := [1]

  /** Where the tagger places every product: the middle of the photo. */
  const CentrePosition := Position(0.5, 0.5)

  /** `products.find(p => p.id === id)`: the first product with that id, if any. */
  function FindProduct(products: seq<Product>, id: int): (r: Option<Product>)
    ensures r.None? <==> forall i :: 0 <= i < |products| ==> products[i].id != id
    ensures r.Some? ==> exists i :: (0 <= i < |products| && products[i] == r.value && r.value.id == id
                                     && forall j :: 0 <= j < i ==> products[j].id != id)
  {
    if products == [] then None
    else if products[0].id == id then Some(products[0])
    else
      var r := FindProduct(products[1..], id);
      if r.Some? then
        var i :| 0 <= i < |products[1..]| && products[1..][i] == r.value && r.value.id == id
          && forall j :: 0 <= j < i ==> products[1..][j].id != id;
        assert products[i + 1] == r.value;
        assert forall j :: 0 <= j < i + 1 ==> products[j].id != id by {
          forall j | 0 <= j < i + 1 ensures products[j].id != id {
            if j > 0 { assert products[j] == products[1..][j - 1]; }
          }
        }
        r
      else
        assert forall i :: 0 <= i < |products| ==> products[i].id != id by {
          forall i | 0 <= i < |products| ensures products[i].id != id {
            if i > 0 { assert products[i] == products[1..][i - 1]; }
          }
        }
        r
  }

  /**
   * The wishlist: the product found for each saved id, in saved order; ids
   * without a product are skipped. `WishlistResolvesEveryId`,
   * `WishlistSkipsMisses` and `WishlistConcat` state this entry by entry.
   */
  function Wishlist(products: seq<Product>, savedItems: seq<int>): (r: seq<Product>)
    ensures |r| <= |savedItems|
    ensures forall i :: 0 <= i < |r| ==> r[i] in products
  {
    if savedItems == [] then []
    else
      var found := FindProduct(products, savedItems[0]);
      (if found.Some? then [found.value] else []) + Wishlist(products, savedItems[1..])
  }

  /** The wishlist of a concatenation is the concatenation of the wishlists, so saved order is kept. */
  lemma {:induction false} WishlistConcat(products: seq<Product>, a: seq<int>, b: seq<int>)
    ensures Wishlist(products, a + b) == Wishlist(products, a) + Wishlist(products, b)
    decreases |a|
  {
    if a != [] {
      assert (a + b)[0] == a[0] && (a + b)[1..] == a[1..] + b;
      WishlistConcat(products, a[1..], b);
      var head := FindProduct(products, a[0]);
      var x := if head.Some? then [head.value] else [];
      assert Wishlist(products, a + b) == x + Wishlist(products, a[1..] + b);
      assert x + (Wishlist(products, a[1..]) + Wishlist(products, b)) == (x + Wishlist(products, a[1..])) + Wishlist(products, b);
    } else {
      assert a + b == b;
    }
  }

  /** When every saved id has a product, the wishlist lists exactly their first matches, one per id. */
  lemma {:induction false} WishlistResolvesEveryId(products: seq<Product>, savedItems: seq<int>)
    requires forall i :: 0 <= i < |savedItems| ==> FindProduct(products, savedItems[i]).Some?
    ensures |Wishlist(products, savedItems)| == |savedItems|
    ensures forall i :: 0 <= i < |savedItems| ==>
      Wishlist(products, savedItems)[i] == FindProduct(products, savedItems[i]).value
    decreases |savedItems|
  {
    if savedItems != [] {
      assert forall i :: 0 <= i < |savedItems[1..]| ==> savedItems[1..][i] == savedItems[i + 1];
      WishlistResolvesEveryId(products, savedItems[1..]);
    }
  }

  /** Ids that match no product contribute nothing. */
  lemma {:induction false} WishlistSkipsMisses(products: seq<Product>, savedItems: seq<int>)
    requires forall i :: 0 <= i < |savedItems| ==> FindProduct(products, savedItems[i]).None?
    ensures Wishlist(products, savedItems) == []
    decreases |savedItems|
  {
    if savedItems != [] {
      assert forall i :: 0 <= i < |savedItems[1..]| ==> savedItems[1..][i] == savedItems[i + 1];
      WishlistSkipsMisses(products, savedItems[1..]);
    }
  }

  /** With the mock data the wishlist holds the denim jacket alone. */
  lemma MockWishlist()
    ensures Wishlist(MockProducts, MockSavedItems) == [MockProducts[0]]
  {
  }

  /** The product tagger. */
  class ProductTagger {
    var taggedProducts: seq<TaggedProduct>
    /** The arguments `onProductTagged` has received, oldest first. */
    var reported: seq<TaggedProduct>

    constructor ()
      ensures taggedProducts == [] && reported == []
    {
      taggedProducts, reported := [], [];
    }

    /** `handleProductTag`: one entry appended, and the callback gets the same product and position. */
    method HandleProductTag(product: Product, position: Position)
      modifies this
      ensures taggedProducts == old(taggedProducts) + [TaggedProduct(product, position)]
      ensures reported == old(reported) + [TaggedProduct(product, position)]
    {
      taggedProducts := taggedProducts + [TaggedProduct(product, position)];
      reported := reported + [TaggedProduct(product, position)];
    }

    /** A press on a product button tags it at the centre. */
    method PressProduct(product: Product)
      modifies this
      ensures taggedProducts == old(taggedProducts) + [TaggedProduct(product, CentrePosition)]
      ensures reported == old(reported) + [TaggedProduct(product, CentrePosition)]
    {
      HandleProductTag(product, CentrePosition);
    }
  }

  /** The shopping panel's state. */
  class ShoppingPanel {
    var products: seq<Product>
    var savedItems: seq<int>
    var isShopEnabled: bool

    constructor ()
      ensures products == [] && savedItems == [] && !isShopEnabled
    {
      products, savedItems, isShopEnabled := [], [], false;
    }

    /** `fetchShoppingData`'s products and saved ids. */
    method FetchShoppingData()
      modifies this`products, this`savedItems
      ensures products == MockProducts && savedItems == MockSavedItems
    {
      products, savedItems := MockProducts, MockSavedItems;
    }

    method ToggleShop()
      modifies this`isShopEnabled
      ensures isShopEnabled == !old(isShopEnabled)
    {
      isShopEnabled := !isShopEnabled;
    }

    /** The products rendered in the product section: none while the shop is off. */
    function ShownProducts(): (r: seq<Product>)
      reads this
      ensures isShopEnabled ==> r == products
      ensures !isShopEnabled ==> r == []
    {
      if isShopEnabled then products else []
    }

    /** The wishlist rendered: none while the shop is off. */
    function ShownWishlist(): (r: seq<Product>)
      reads this
      ensures !isShopEnabled ==> r == []
      ensures isShopEnabled ==> r == Wishlist(products, savedItems)
    {
      if isShopEnabled then Wishlist(products, savedItems) else []
    }
  }
}
