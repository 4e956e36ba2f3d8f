/**
 * The marketplace store and the operations that change it: the product and
 * order serializers' `create`, the chat order and chat listing, the detail
 * view's view counter, the wishlist toggle and the seller-only update.
 */
module Market {
  import opened Wrappers
  import opened Text
  import opened Intent
  import opened Listing
  import opened Catalog

  /** A user: username and e-mail address ("" when none is set). */
  datatype User = User(username: string, email: string)

  /**
   * Why an operation stopped: the product id names no product
   * (`Product.DoesNotExist`, or the 404 of `get_object_or_404`), or the
   * order data holds no quantity (`KeyError: 'quantity'`).
   */
  datatype MarketError = ProductNotFound | MissingQuantity

  datatype Outcome<+T> = Done(value: T) | Failed(error: MarketError)

  /** The user the product serializer falls back to when no one is logged in. */
  const DefaultSeller: string := "test_seller"

  /** The user the order serializer falls back to when no one is logged in. */
  const DefaultBuyer: string := "anonymous_buyer"

  const GeneralCategory: string := "General"

  /**
   * The data a client sends to create a product. `seller` and `views` are
   * read-only fields: a client may send them, the serializer drops them.
   * `chat_session_id` is not a field of the serializer at all, so it is not
   * part of the request: the stored product's session reference stays null.
   */
  datatype ProductRequest = ProductRequest(
    title: string,
    description: string,
    categoryId: Option<nat>,
    productType: string,
    price: int,
    condition: string,
    brand: string,
    location: string,
    available: bool,
    quantity: nat,
    status: ProductStatus,
    listedViaChat: bool,
    seller: string,
    views: nat)

  /** The product `ProductSerializer.create` stores for a request. */
  function NewProduct(req: ProductRequest, id: nat, seller: string, categoryId: nat): (p: Product)
    ensures p.id == id && p.seller == seller && p.categoryId == categoryId
    ensures p.available && p.views == 0 && p.chatSessionId.None?
    ensures && p.title == req.title && p.description == req.description && p.productType == req.productType
            && p.price == req.price && p.condition == req.condition && p.brand == req.brand
            && p.location == req.location && p.quantity == req.quantity && p.status == req.status
            && p.listedViaChat == req.listedViaChat
  {
    Product(id, seller, req.title, req.description, categoryId, req.productType, req.price,
      req.condition, req.brand, req.location, true, req.quantity, req.status,
      req.listedViaChat, None, 0)
  }

  /** Whatever a client sends for `available`, `seller` and `views`, the stored product is the same. */
  lemma {:induction false} NewProductIgnoresReadOnly(req: ProductRequest, id: nat, seller: string, categoryId: nat,
                                  available: bool, clientSeller: string, clientViews: nat)
    ensures NewProduct(req.(available := available, seller := clientSeller, views := clientViews), id, seller, categoryId)
      == NewProduct(req, id, seller, categoryId)
  {
  }

  /**
   * The data a client sends to create an order. `buyer` and `totalPrice`
   * are read-only fields: a client may send them, the serializer drops them.
   * `quantity` is None when the client leaves it out. As for products,
   * `chat_session_id` is not a serializer field and the order keeps null.
   */
  datatype OrderRequest = OrderRequest(
    productId: nat,
    quantity: Option<nat>,
    status: OrderStatus,
    buyerEmail: string,
    buyerPhone: string,
    deliveryAddress: string,
    orderedViaChat: bool,
    buyer: string,
    totalPrice: int)

  /**
   * The product after `qty` units of it are ordered: when the stock does
   * not exceed the order it is marked sold and unavailable with its
   * quantity left as it was, otherwise the stock goes down by exactly `qty`
   * and stays at least 1. Nothing else about the product changes.
   */
  function AfterOrder(p: Product, qty: nat): (r: Product)
    ensures r.(quantity := p.quantity, status := p.status, available := p.available) == p
    ensures p.quantity <= qty ==> r.status == Sold && !r.available && r.quantity == p.quantity
    ensures qty < p.quantity ==>
      r.quantity + qty == p.quantity && 1 <= r.quantity && r.status == p.status && r.available == p.available
  {
    if p.quantity <= qty then p.(status := Sold, available := false)
    else p.(quantity := p.quantity - qty)
  }

  /** The product after `n` chat orders, each for one unit. */
  function AfterChatOrders(p: Product, n: nat): Product {
    if n == 0 then p else AfterOrder(AfterChatOrders(p, n - 1), 1)
  }

  /** Before the last unit, each chat order takes one unit and leaves the product on sale as it was. */
  lemma {:induction false} ChatOrdersTakeOneUnit(p: Product, n: nat)
    requires n < p.quantity
    ensures AfterChatOrders(p, n) == p.(quantity := p.quantity - n)
  {
    if n > 0 {
      ChatOrdersTakeOneUnit(p, n - 1);
    }
  }

  /** A product with stock q is sold out by its q-th chat order, which leaves one unit on record. */
  lemma {:induction false} ChatOrdersSellOut(p: Product)
    requires 1 <= p.quantity
    ensures AfterChatOrders(p, p.quantity) == p.(quantity := 1, status := Sold, available := false)
  {
    ChatOrdersTakeOneUnit(p, p.quantity - 1);
    var last := AfterChatOrders(p, p.quantity - 1);
    assert AfterChatOrders(p, p.quantity) == AfterOrder(last, 1);
  }

  /** A sold-out product can still be ordered from chat; it stays sold and its record does not change. */
  lemma {:induction false} ChatOrderOfSoldProduct(p: Product)
    requires p.quantity <= 1 && p.status == Sold && !p.available
    ensures AfterOrder(p, 1) == p
  {
  }

  /** The address a chat order is confirmed to: the user's e-mail, else `<username>@example.com`. */
  function ChatOrderEmail(user: User): (e: string)
    ensures user.email != "" ==> e == user.email
    ensures user.email == "" ==> e == user.username + "@example.com"
  {
    if user.email != "" then user.email else user.username + "@example.com"
  }

  /** The text of `str(Product.DoesNotExist)` as the chat shows it. */
  const ProductMissingText: string := "Product matching query does not exist."

  /** The marks that open the chat's replies to an order command. */
  const SuccessMark: char := '✅'
  const FailureMark: char := '❌'

  /**
   * The chat reply to an order command whose order was created: it opens
   * with the success mark and shows the order id, the product's title, its
   * price and the order's status.
   */
  function OrderSuccessText(orderId: nat, title: string, priceCents: int, status: OrderStatus): (r: string)
    ensures |r| > 0 && r[0] == SuccessMark
    ensures Contains(r, NatToString(orderId)) && Contains(r, title)
    ensures Contains(r, DecimalText(priceCents)) && Contains(r, OrderStatusName(status))
  {
    var head := [SuccessMark] + " **Order Created Successfully!**\n\n\U{1F194} Order ID: ";
    TemplateShowsFour(head, NatToString(orderId), "\n\U{1F4E6} Product: ", title,
                      "\n\U{1F4B0} Price: $", DecimalText(priceCents), "\n\U{1F4CA} Status: ", OrderStatusName(status),
                      "\n\n\U{1F4F1} You can track your order in the Marketplace section of the app.");
    Join([head, NatToString(orderId), "\n\U{1F4E6} Product: ", title,
          "\n\U{1F4B0} Price: $", DecimalText(priceCents), "\n\U{1F4CA} Status: ", OrderStatusName(status),
          "\n\n\U{1F4F1} You can track your order in the Marketplace section of the app."], "")
  }

  /** The chat reply to an order command that failed with `error`: it opens with the failure mark and shows the error. */
  function OrderFailedText(error: string): (r: string)
    ensures |r| > 0 && r[0] == FailureMark
    ensures Contains(r, error)
  {
    var parts := [[FailureMark] + " **Order Failed**: ", error, "\n\n\U{1F4A1} Please check the product ID and try again."];
    JoinHasEach(parts, "", 1);
    JoinStartsWithFirst(parts, "");
    Join(parts, "")
  }

  /** A wishlist after toggling `entry`: added when absent, removed when present. */
  function Toggled(wishlist: set<(string, nat)>, entry: (string, nat)): (r: set<(string, nat)>)
    ensures entry in r <==> entry !in wishlist
    ensures forall e :: e != entry ==> (e in r <==> e in wishlist)
  {
    if entry in wishlist then wishlist - {entry} else wishlist + {entry}
  }

  /** Toggling the same entry twice restores the wishlist. */
  lemma {:induction false} ToggleTwice(wishlist: set<(string, nat)>, entry: (string, nat))
    ensures Toggled(Toggled(wishlist, entry), entry) == wishlist
  {
    var once := Toggled(wishlist, entry);
    assert forall e :: e in Toggled(once, entry) <==> e in wishlist;
  }

  /**
   * The fields a product update may set; None leaves a field as it is.
   * `seller` and `views` are read-only: a client may send them, they are dropped.
   */
  datatype ProductPatch = ProductPatch(
    title: Option<string>,
    description: Option<string>,
    categoryId: Option<nat>,
    productType: Option<string>,
    price: Option<int>,
    condition: Option<string>,
    brand: Option<string>,
    location: Option<string>,
    available: Option<bool>,
    quantity: Option<nat>,
    status: Option<ProductStatus>,
    listedViaChat: Option<bool>,
    seller: Option<string>,
    views: Option<nat>)

  /** The product after an update: given fields replaced, id, seller and views kept. */
  function Patched(p: Product, patch: ProductPatch): (r: Product)
    ensures r.id == p.id && r.seller == p.seller && r.views == p.views
    ensures patch.price.Some? ==> r.price == patch.price.value
    ensures patch.price.None? ==> r.price == p.price
  {
    p.(title := patch.title.GetOr(p.title),
       description := patch.description.GetOr(p.description),
       categoryId := patch.categoryId.GetOr(p.categoryId),
       productType := patch.productType.GetOr(p.productType),
       price := patch.price.GetOr(p.price),
       condition := patch.condition.GetOr(p.condition),
       brand := patch.brand.GetOr(p.brand),
       location := patch.location.GetOr(p.location),
       available := patch.available.GetOr(p.available),
       quantity := patch.quantity.GetOr(p.quantity),
       status := patch.status.GetOr(p.status),
       listedViaChat := patch.listedViaChat.GetOr(p.listedViaChat))
  }

  /** An update with no fields leaves the product as it was. */
  lemma {:induction false} EmptyPatch(p: Product, seller: Option<string>, views: Option<nat>)
    ensures Patched(p, ProductPatch(None, None, None, None, None, None, None, None, None, None, None, None, seller, views)) == p
  {
  }

  /** Every stored product id is below the next one to hand out. */
  ghost predicate IdsBelow(products: map<nat, Product>, nextProductId: nat) {
    forall k :: k in products ==> k < nextProductId
  }

  /** Orders are numbered 1, 2, ... in creation order and name stored products. */
  ghost predicate OrdersNumbered(orders: seq<Order>, products: map<nat, Product>) {
    forall i :: 0 <= i < |orders| ==> orders[i].id == i + 1 && orders[i].productId in products
  }

  /** Every wishlist entry names a stored product. */
  ghost predicate WishesStored(wishlist: set<(string, nat)>, products: map<nat, Product>) {
    forall e :: e in wishlist ==> e.1 in products
  }

  /** Every category id is below the next one to hand out. */
  ghost predicate CategoryIdsBelow(categories: map<string, nat>, nextCategoryId: nat) {
    forall c :: c in categories ==> categories[c] < nextCategoryId
  }

  /** The product, order, wishlist and category tables. */
  /** The categories after `get_or_create(name='General')`: "General" is there, and only it may have been added. */
  ghost predicate GeneralAdded(categories: map<string, nat>, categories': map<string, nat>) {
    && GeneralCategory in categories'
    && (GeneralCategory in categories ==> categories' == categories)
    && (GeneralCategory !in categories ==> categories' == categories[GeneralCategory := categories'[GeneralCategory]])
  }

  /**
   * The product a chat listing stores: title and price read from the
   * message, the message as description, a new product sold by the sender,
   * one unit, flagged as listed via the chat and available.
   */
  function ChatListing(id: nat, seller: string, message: string, categoryId: nat): (p: Product)
    ensures p.id == id && p.seller == seller && p.categoryId == categoryId && p.description == message
    ensures p.title == ListingTitle(message) && p.price == ListingPrice(message)
    ensures p.listedViaChat && p.available && p.views == 0 && p.chatSessionId.None?
  {
    Product(id, seller, ListingTitle(message), message, categoryId,
      "product", ListingPrice(message), "new", "", "", true, 1, Available, true, None, 0)
  }

  /** The order a chat order command places: one pending unit at the product's price, flagged as a chat order. */
  function ChatOrder(orderId: nat, user: User, productId: nat, price: int): (o: Order)
    ensures o.id == orderId && o.buyer == user.username && o.productId == productId
    ensures o.quantity == 1 && o.totalPrice == price && o.status == Pending
    ensures o.buyerEmail == ChatOrderEmail(user) && o.orderedViaChat && o.chatSessionId.None?
  {
    Order(orderId, user.username, productId, 1, price, Pending, ChatOrderEmail(user), "", "", true, None)
  }

  class Marketplace {
    var products: map<nat, Product>
    var nextProductId: nat
    var orders: seq<Order>
    var wishlist: set<(string, nat)>
    var categories: map<string, nat>
    var nextCategoryId: nat

    ghost predicate Valid()
      reads this
    {
      && IdsConsistent(products)
      && 1 <= nextProductId && IdsBelow(products, nextProductId)
      && OrdersNumbered(orders, products)
      && WishesStored(wishlist, products)
      && 1 <= nextCategoryId && CategoryIdsBelow(categories, nextCategoryId)
    }

    constructor ()
      ensures Valid()
      ensures products == map[] && orders == [] && wishlist == {} && categories == map[]
    {
      products, nextProductId := map[], 1;
      orders, wishlist := [], {};
      categories, nextCategoryId := map[], 1;
    }

    /** `Category.objects.get_or_create(name='General')`. */
    method GetOrCreateGeneral() returns (id: nat)
      requires Valid()
      modifies this
      ensures Valid()
      ensures GeneralCategory in categories && id == categories[GeneralCategory]
      ensures GeneralCategory in old(categories) ==> categories == old(categories)
      ensures GeneralCategory !in old(categories) ==> categories == old(categories)[GeneralCategory := id]
      ensures GeneralAdded(old(categories), categories)
      ensures products == old(products) && nextProductId == old(nextProductId)
      ensures orders == old(orders) && wishlist == old(wishlist)
    {
      if GeneralCategory in categories {
        id := categories[GeneralCategory];
      } else {
        id := nextCategoryId;
        categories := categories[GeneralCategory := id];
        nextCategoryId := nextCategoryId + 1;
      }
    }

    /** Stores `p` under the next product id. */
    method Insert(p: Product)
      requires Valid() && p.id == nextProductId
      modifies this
      ensures Valid()
      ensures products == old(products)[p.id := p] && nextProductId == old(nextProductId) + 1
      ensures orders == old(orders) && wishlist == old(wishlist) && categories == old(categories)
    {
      products := products[p.id := p];
      nextProductId := nextProductId + 1;
    }

    /**
     * `ProductSerializer.create`: the product is available whatever was
     * sent, its seller is the logged-in user or "test_seller", it has no
     * views, and it goes to the "General" category when none is given.
     */
    method CreateProduct(req: ProductRequest, requester: Option<string>) returns (p: Product)
      requires Valid()
      modifies this
      ensures Valid()
      ensures p.id == old(nextProductId) && products == old(products)[p.id := p]
      ensures nextProductId == old(nextProductId) + 1
      ensures req.categoryId.Some? ==> p == NewProduct(req, p.id, requester.GetOr(DefaultSeller), req.categoryId.value)
      ensures req.categoryId.None? ==>
        GeneralAdded(old(categories), categories)
        && p == NewProduct(req, p.id, requester.GetOr(DefaultSeller), categories[GeneralCategory])
      ensures req.categoryId.Some? ==> categories == old(categories)
      ensures orders == old(orders) && wishlist == old(wishlist)
    {
      var categoryId: nat;
      if req.categoryId.Some? {
        categoryId := req.categoryId.value;
      } else {
        categoryId := GetOrCreateGeneral();
      }
      p := NewProduct(req, nextProductId, requester.GetOr(DefaultSeller), categoryId);
      Insert(p);
    }

    /** `create_product_from_chat`: the product serializer with `listed_via_chat` forced on. */
    method CreateProductFromChatView(req: ProductRequest, requester: string) returns (p: Product)
      requires Valid()
      modifies this
      ensures Valid()
      ensures p.listedViaChat && p.available && p.seller == requester && p.views == 0 && p.chatSessionId.None?
      ensures p.id == old(nextProductId) && products == old(products)[p.id := p]
      ensures nextProductId == old(nextProductId) + 1
      ensures req.categoryId.Some? ==>
        p == NewProduct(req.(listedViaChat := true), p.id, requester, req.categoryId.value)
        && categories == old(categories)
      ensures req.categoryId.None? ==>
        GeneralAdded(old(categories), categories)
        && p == NewProduct(req.(listedViaChat := true), p.id, requester, categories[GeneralCategory])
      ensures orders == old(orders) && wishlist == old(wishlist)
    {
      p := CreateProduct(req.(listedViaChat := true), Some(requester));
    }

    /**
     * `OrderSerializer.create`: the buyer is the logged-in user or
     * "anonymous_buyer", the total is the product's price times the ordered
     * quantity taken before the product changes, and the product is then
     * updated by `AfterOrder`. There is no stock check.
     */
    method CreateOrder(req: OrderRequest, requester: Option<string>) returns (r: Outcome<Order>)
      requires Valid()
      modifies this
      ensures Valid()
      ensures req.productId !in old(products) ==>
        r == Failed(ProductNotFound) && products == old(products) && orders == old(orders)
      ensures req.productId in old(products) && req.quantity.None? ==>
        r == Failed(MissingQuantity) && products == old(products) && orders == old(orders)
      ensures req.productId in old(products) && req.quantity.Some? ==>
        var p, qty := old(products)[req.productId], req.quantity.value;
        && r == Done(Order(|old(orders)| + 1, requester.GetOr(DefaultBuyer), req.productId, qty,
             p.price * qty, req.status, req.buyerEmail, req.buyerPhone, req.deliveryAddress,
             req.orderedViaChat, None))
        && orders == old(orders) + [r.value]
        && products == old(products)[req.productId := AfterOrder(p, qty)]
      ensures wishlist == old(wishlist) && categories == old(categories) && nextProductId == old(nextProductId)
    {
      var buyer := requester.GetOr(DefaultBuyer);
      if req.productId !in products {
        return Failed(ProductNotFound);
      }
      var product := products[req.productId];
      if req.quantity.None? {
        return Failed(MissingQuantity);
      }
      var qty := req.quantity.value;
      var total := product.price * qty;
      var order := Order(|orders| + 1, buyer, req.productId, qty, total, req.status,
        req.buyerEmail, req.buyerPhone, req.deliveryAddress, req.orderedViaChat, None);
      orders := orders + [order];
      products := products[req.productId := AfterOrder(product, qty)];
      r := Done(order);
    }

    /** `create_order_from_chat`: the order serializer with `ordered_via_chat` forced on. */
    method CreateOrderFromChatView(req: OrderRequest, requester: string) returns (r: Outcome<Order>)
      requires Valid()
      modifies this
      ensures Valid()
      ensures req.productId !in old(products) ==>
        r == Failed(ProductNotFound) && products == old(products) && orders == old(orders)
      ensures req.productId in old(products) && req.quantity.None? ==>
        r == Failed(MissingQuantity) && products == old(products) && orders == old(orders)
      ensures req.productId in old(products) && req.quantity.Some? ==>
        var p, qty := old(products)[req.productId], req.quantity.value;
        && r == Done(Order(|old(orders)| + 1, requester, req.productId, qty,
             p.price * qty, req.status, req.buyerEmail, req.buyerPhone, req.deliveryAddress, true, None))
        && orders == old(orders) + [r.value]
        && products == old(products)[req.productId := AfterOrder(p, qty)]
      ensures wishlist == old(wishlist) && categories == old(categories) && nextProductId == old(nextProductId)
    {
      r := CreateOrder(req.(orderedViaChat := true), Some(requester));
    }

    /**
     * `create_marketplace_order_from_chat`: one unit at the product's price,
     * status pending, flagged as a chat order, with no availability check.
     */
    method CreateChatOrder(user: User, productId: nat) returns (r: Outcome<Order>)
      requires Valid()
      modifies this
      ensures Valid()
      ensures productId !in old(products) ==>
        r == Failed(ProductNotFound) && products == old(products) && orders == old(orders)
      ensures productId in old(products) ==>
        var p := old(products)[productId];
        && r == Done(ChatOrder(|old(orders)| + 1, user, productId, p.price))
        && orders == old(orders) + [r.value]
        && products == old(products)[productId := AfterOrder(p, 1)]
      ensures wishlist == old(wishlist) && categories == old(categories) && nextProductId == old(nextProductId)
    {
      if productId !in products {
        return Failed(ProductNotFound);
      }
      var product := products[productId];
      var order := ChatOrder(|orders| + 1, user, productId, product.price);
      orders := orders + [order];
      products := products[productId := AfterOrder(product, 1)];
      r := Done(order);
    }

    /**
     * `process_order_from_chat`: no reply unless the message holds an order
     * command; otherwise the order is attempted and the reply reports it.
     */
    method ProcessOrderFromChat(user: User, message: string) returns (reply: Option<string>)
      requires Valid()
      modifies this
      ensures Valid()
      ensures reply.None? <==> OrderCommand(message).None?
      ensures OrderCommand(message).None? ==> products == old(products) && orders == old(orders)
      ensures OrderCommand(message).Some? ==>
        var id := OrderCommand(message).value;
        && (id in old(products) ==>
             reply == Some(OrderSuccessText(|old(orders)| + 1, old(products)[id].title, old(products)[id].price, Pending))
             && products == old(products)[id := AfterOrder(old(products)[id], 1)]
             && orders == old(orders) + [ChatOrder(|old(orders)| + 1, user, id, old(products)[id].price)])
        && (id !in old(products) ==>
             reply == Some(OrderFailedText(ProductMissingText)) && products == old(products) && orders == old(orders))
      ensures wishlist == old(wishlist) && categories == old(categories) && nextProductId == old(nextProductId)
    {
      match OrderCommand(message)
      case None =>
        reply := None;
      case Some(id) =>
        var r := CreateChatOrder(user, id);
        match r
        case Done(order) =>
          var product := products[id];
          reply := Some(OrderSuccessText(order.id, product.title, product.price, order.status));
        case Failed(_) =>
          reply := Some(OrderFailedText(ProductMissingText));
    }

    /**
     * `create_marketplace_product_from_chat`: title and price read from the
     * message, the message as description, the "General" category, the
     * sender as seller, flagged as a chat listing and available.
     */
    method CreateListingFromChat(user: User, message: string) returns (p: Product)
      requires Valid()
      modifies this
      ensures Valid()
      ensures p.id == old(nextProductId) && products == old(products)[p.id := p]
      ensures nextProductId == old(nextProductId) + 1
      ensures GeneralAdded(old(categories), categories)
      ensures p == ChatListing(p.id, user.username, message, categories[GeneralCategory])
      ensures orders == old(orders) && wishlist == old(wishlist)
    {
      var title := ChatListingTitle(message);
      var price := ListingPrice(message);
      var category := GetOrCreateGeneral();
      p := Product(nextProductId, user.username, title, message, category,
        "product", price, "new", "", "", true, 1, Available, true, None, 0);
      assert p == ChatListing(nextProductId, user.username, message, category);
      Insert(p);
    }

    /** `ProductDetailView.get_object`: the product with its view count raised by exactly one. */
    method RetrieveProduct(id: nat) returns (r: Option<Product>)
      requires Valid()
      modifies this
      ensures Valid()
      ensures id !in old(products) ==> r.None? && products == old(products)
      ensures id in old(products) ==>
        var p := old(products)[id];
        r == Some(p.(views := p.views + 1)) && products == old(products)[id := r.value]
      ensures orders == old(orders) && wishlist == old(wishlist) && categories == old(categories)
      ensures nextProductId == old(nextProductId)
    {
      if id !in products {
        return None;
      }
      var p := products[id];
      var seen := p.(views := p.views + 1);
      products := products[id := seen];
      r := Some(seen);
    }

    /**
     * `toggle_wishlist`: the (user, product) entry is added when absent and
     * removed when present, and the reply says whether it is now present.
     * A missing product is reported as an error and nothing changes.
     */
    method ToggleWishlist(username: string, productId: nat) returns (r: Outcome<bool>)
      requires Valid()
      modifies this
      ensures Valid()
      ensures productId !in products ==> r == Failed(ProductNotFound) && wishlist == old(wishlist)
      ensures productId in products ==>
        && wishlist == Toggled(old(wishlist), (username, productId))
        && r == Done((username, productId) in wishlist)
      ensures products == old(products) && orders == old(orders) && categories == old(categories)
      ensures nextProductId == old(nextProductId)
    {
      if productId !in products {
        return Failed(ProductNotFound);
      }
      var entry := (username, productId);
      var added := entry !in wishlist;
      wishlist := Toggled(wishlist, entry);
      r := Done(added);
    }

    /**
     * `ProductUpdateView`: only the requester's own products can be found
     * for update; any other id is not found and nothing changes.
     */
    method UpdateProduct(requester: string, id: nat, patch: ProductPatch) returns (r: Outcome<Product>)
      requires Valid()
      modifies this
      ensures Valid()
      ensures (id !in old(products) || old(products)[id].seller != requester) ==>
        r == Failed(ProductNotFound) && products == old(products)
      ensures id in old(products) && old(products)[id].seller == requester ==>
        r == Done(Patched(old(products)[id], patch)) && products == old(products)[id := r.value]
      ensures orders == old(orders) && wishlist == old(wishlist) && categories == old(categories)
      ensures nextProductId == old(nextProductId)
    {
      if id !in products || products[id].seller != requester {
        return Failed(ProductNotFound);
      }
      var updated := Patched(products[id], patch);
      products := products[id := updated];
      r := Done(updated);
    }
  }
}
