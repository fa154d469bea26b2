/**
 * The two JPA entities whose behaviour the store's rules depend on: a
 * catalogue `Product` and a customer `Order`. A product is "sold" when it is
 * attached to an order (its `order` reference is not null). `Delivery`,
 * `Customer` and `Employee` appear only as far as `Order` and the checkout
 * handler touch them.
 */
module Entities {
  import opened Wrappers
  import opened JavaLang

  class Product {
    /** PRODUCT_ID, generated by the database; 0 until then. */
    var productId: int
    var productTitle: string
    /** The TYPE column (`type` in Java): the catalogue category. */
    var productType: string
    /** BRAND_NAME; the controllers' `getBrand()` reads this field. */
    var brandName: string
    var fullPrice: real
    var salePrice: real
    /** Java `null` is `None`. */
    var specification: Option<string>
    var imageURL: Option<string>
    /** The order this product is sold in, or `null` while it is unsold. */
    var order: Order?
    /** Non-empty when the product is shown on the home page. */
    var onMain: string
    /** How many times the product was added to its order. */
    var quantity: int

    /** The five-argument constructor: specification and image stay `null`. */
    constructor (productTitle: string, productType: string, brandName: string,
                 fullPrice: real, salePrice: real)
      ensures this.productTitle == productTitle && this.productType == productType
      ensures this.brandName == brandName
      ensures this.fullPrice == fullPrice && this.salePrice == salePrice
      ensures specification == None && imageURL == None
      ensures order == null && productId == 0 && onMain == "" && quantity == 0
    {
      this.productTitle := productTitle;
      this.productType := productType;
      this.brandName := brandName;
      this.fullPrice := fullPrice;
      this.salePrice := salePrice;
      specification := None;
      imageURL := None;
      order := null;
      productId := 0;
      onMain := "";
      quantity := 0;
    }

    /** The seven-argument constructor: all seven columns are set. */
    constructor WithDetails(productTitle: string, productType: string, brandName: string,
                            fullPrice: real, salePrice: real,
                            specification: string, image: string)
      ensures this.productTitle == productTitle && this.productType == productType
      ensures this.brandName == brandName
      ensures this.fullPrice == fullPrice && this.salePrice == salePrice
      ensures this.specification == Some(specification) && imageURL == Some(image)
      ensures order == null && productId == 0 && onMain == "" && quantity == 0
    {
      this.productTitle := productTitle;
      this.productType := productType;
      this.brandName := brandName;
      this.fullPrice := fullPrice;
      this.salePrice := salePrice;
      this.specification := Some(specification);
      imageURL := Some(image);
      order := null;
      productId := 0;
      onMain := "";
      quantity := 0;
    }

    /** `getPrice` is another name for the full price. */
    function Price(): (r: real)
      reads this
      ensures r == fullPrice
    {
      fullPrice
    }

    method SetPrice(price: real)
      modifies this`fullPrice
      ensures fullPrice == price && Price() == price
    {
      fullPrice := price;
    }

    method SetOrder(order: Order?)
      modifies this`order
      ensures this.order == order
    {
      this.order := order;
    }

    method SetProductTitle(productTitle: string)
      modifies this`productTitle
      ensures this.productTitle == productTitle
    {
      this.productTitle := productTitle;
    }

    method SetType(productType: string)
      modifies this`productType
      ensures this.productType == productType
    {
      this.productType := productType;
    }

    method SetBrandName(brandName: string)
      modifies this`brandName
      ensures this.brandName == brandName
    {
      this.brandName := brandName;
    }

    method SetProductId(productId: int)
      modifies this`productId
      ensures this.productId == productId
    {
      this.productId := productId;
    }

    method SetFullPrice(fullPrice: real)
      modifies this`fullPrice
      ensures this.fullPrice == fullPrice && Price() == fullPrice
    {
      this.fullPrice := fullPrice;
    }

    method SetSalePrice(salePrice: real)
      modifies this`salePrice
      ensures this.salePrice == salePrice
    {
      this.salePrice := salePrice;
    }

    method SetSpecification(specification: Option<string>)
      modifies this`specification
      ensures this.specification == specification
    {
      this.specification := specification;
    }

    method SetImageURL(imageURL: Option<string>)
      modifies this`imageURL
      ensures this.imageURL == imageURL
    {
      this.imageURL := imageURL;
    }

    method SetOnMain(onMain: string)
      modifies this`onMain
      ensures this.onMain == onMain
    {
      this.onMain := onMain;
    }

    method SetQuantity(quantity: int)
      modifies this`quantity
      ensures this.quantity == quantity
    {
      this.quantity := quantity;
    }

    /**
     * `equals`: the same object, or another `Product` with an equal title and
     * the same order. `Order` keeps `Object.equals`, so orders compare by
     * reference.
     */
    function Equals(o: object?): (r: bool)
      reads this, o
      ensures r <==> o is Product && productTitle == (o as Product).productTitle
                                  && order == (o as Product).order
    {
      if this == o then true
      else if o == null || !(o is Product) then false
      else
        var other := o as Product;
        if productTitle != other.productTitle then false
        else if order != null then order == other.order
        else other.order == null
    }

    /** `hashCode`: 31 times the title's hash plus the order's identity hash, in `int`. */
    function HashCode(): (h: int)
      reads this
      ensures IsInt32(h)
    {
      Wrap32(31 * StringHash(productTitle) + (if order != null then order.identityHash else 0))
    }
  }

  /** `equals` is reflexive. */
  lemma EqualsReflexive(p: Product)
    ensures p.Equals(p)
  {
  }

  /** `equals` is false for `null` and for objects of other classes. */
  lemma EqualsOnlyProducts(p: Product, o: object?)
    ensures o == null ==> !p.Equals(o)
    ensures !(o is Product) ==> !p.Equals(o)
  {
  }

  /** `equals` is symmetric. */
  lemma EqualsSymmetric(p: Product, q: Product)
    ensures p.Equals(q) <==> q.Equals(p)
  {
  }

  /** `equals` is transitive. */
  lemma EqualsTransitive(p: Product, q: Product, r: Product)
    requires p.Equals(q) && q.Equals(r)
    ensures p.Equals(r)
  {
  }

  /** Equal products have equal hash codes, as `Object.hashCode` demands. */
  lemma EqualProductsEqualHashes(p: Product, q: Product)
    requires p.Equals(q)
    ensures p.HashCode() == q.HashCode()
  {
  }

  /**
   * A `java.util.List<Product>` (an `ArrayList`): an object whose contents
   * change in place, so every holder of the reference sees the change. The
   * handlers fill one; an order keeps its products in one.
   */
  class ProductList {
    var items: seq<Product>

    constructor ()
      ensures items == []
    {
      items := [];
    }

    method Add(p: Product)
      modifies this
      ensures items == old(items) + [p]
    {
      items := items + [p];
    }

    method AddAll(ps: seq<Product>)
      modifies this
      ensures items == old(items) + ps
    {
      items := items + ps;
    }

    method Clear()
      modifies this
      ensures items == []
    {
      items := [];
    }
  }

  class Order {
    var orderId: int
    var orderPrice: real
    var orderPriceWithDiscount: real
    var orderQuantity: int
    var orderDiscount: int
    var dateCreated: string
    var delivery: Delivery?
    /** The list object itself: `getProducts` hands it out and `setProducts` stores the caller's. */
    var products: ProductList
    var customer: Customer?
    var employee: Employee?
    /** `Object.hashCode()` of this order: chosen by the runtime, fixed for its life. */
    const identityHash: int

    /** A new order is empty and dated `today` (the value of `LocalDate.now()`). */
    constructor (today: string, identityHash: int)
      requires IsInt32(identityHash)
      ensures dateCreated == today && fresh(products) && products.items == []
      ensures this.identityHash == identityHash
      ensures orderId == 0 && orderQuantity == 0 && orderDiscount == 0
      ensures orderPrice == 0.0 && orderPriceWithDiscount == 0.0
      ensures delivery == null && customer == null && employee == null
    {
      this.identityHash := identityHash;
      dateCreated := today;
      products := new ProductList();
      orderId, orderQuantity, orderDiscount := 0, 0, 0;
      orderPrice, orderPriceWithDiscount := 0.0, 0.0;
      delivery, customer, employee := null, null, null;
    }

    /** The quantity counter agrees with the product list. */
    ghost predicate QuantityConsistent()
      reads this, products
    {
      orderQuantity == |products.items|
    }

    /** Every product in the list is attached to this order. */
    ghost predicate ProductsAttached()
      reads this, products, products.items
    {
      forall p :: p in products.items ==> p.order == this
    }

    /**
     * `addProduct`: append the product, attach it (or count it once more if it
     * is attached already), then bring the quantity and the price up to date.
     */
    method AddProduct(product: Product)
      modifies products, this`orderQuantity, this`orderPrice
      modifies product`order, product`quantity, product`onMain
      ensures products.items == old(products.items) + [product]
      ensures QuantityConsistent()
      ensures orderPrice == old(orderPrice) + product.fullPrice
      ensures product.order == this
      ensures old(product.order) != this ==> product.quantity == 1 && product.onMain == ""
      ensures old(product.order) == this ==>
                product.quantity == old(product.quantity) + 1 && product.onMain == old(product.onMain)
      ensures old(ProductsAttached()) ==> ProductsAttached()
    {
      products.Add(product);
      if product.order != this {
        product.SetOnMain("");
        product.SetQuantity(1);
        product.SetOrder(this);
      } else {
        product.SetQuantity(product.quantity + 1);
      }
      SetOrderQuantity(|products.items|);
      SetOrderPrice(orderPrice + product.fullPrice);
    }

    method SetEmployee(employee: Employee?)
      modifies this`employee
      ensures this.employee == employee
    {
      this.employee := employee;
    }

    method SetCustomer(customer: Customer?)
      modifies this`customer
      ensures this.customer == customer
    {
      this.customer := customer;
    }

    method SetOrderPriceWithDiscount(orderPriceWithDiscount: real)
      modifies this`orderPriceWithDiscount
      ensures this.orderPriceWithDiscount == orderPriceWithDiscount
    {
      this.orderPriceWithDiscount := orderPriceWithDiscount;
    }

    method SetOrderPrice(orderPrice: real)
      modifies this`orderPrice
      ensures this.orderPrice == orderPrice
    {
      this.orderPrice := orderPrice;
    }

    method SetOrderQuantity(orderQuantity: int)
      modifies this`orderQuantity
      ensures this.orderQuantity == orderQuantity
    {
      this.orderQuantity := orderQuantity;
    }

    method SetOrderDiscount(orderDiscount: int)
      modifies this`orderDiscount
      ensures this.orderDiscount == orderDiscount
    {
      this.orderDiscount := orderDiscount;
    }

    /** Stores the caller's list object; the quantity counter is left as it was. */
    method SetProducts(products: ProductList)
      modifies this`products
      ensures this.products == products
    {
      this.products := products;
    }

    method SetDelivery(delivery: Delivery?)
      modifies this`delivery
      ensures this.delivery == delivery
    {
      this.delivery := delivery;
    }
  }

  /**
   * `addProduct` restores the quantity counter, but `setProducts` can break it
   * again: one product added, then the list replaced by an empty one.
   */
  method SetProductsBreaksQuantity(today: string, identityHash: int, product: Product)
      returns (order: Order)
    requires IsInt32(identityHash)
    modifies product
    ensures order.orderQuantity == 1 && order.products.items == []
    ensures !order.QuantityConsistent()
  {
    order := new Order(today, identityHash);
    order.AddProduct(product);
    var empty := new ProductList();
    order.SetProducts(empty);
  }

  /**
   * After `setProducts(list)` the order and the caller share one list, so
   * `addProduct` grows the caller's list as well.
   */
  method SharedListGrows(today: string, identityHash: int, list: ProductList, product: Product)
      returns (order: Order)
    requires IsInt32(identityHash)
    modifies list, product
    ensures order.products == list
    ensures list.items == old(list.items) + [product]
    ensures order.QuantityConsistent()
  {
    order := new Order(today, identityHash);
    order.SetProducts(list);
    order.AddProduct(product);
  }

  /**
   * The caller that handed its list to `setProducts` can still change it, and
   * the order's quantity counter does not follow: here the caller clears it.
   */
  method SharedListEditBreaksQuantity(today: string, identityHash: int, list: ProductList, product: Product)
      returns (order: Order)
    requires IsInt32(identityHash)
    modifies list, product
    ensures order.products == list && list.items == []
    ensures order.orderQuantity == |old(list.items)| + 1
    ensures !order.QuantityConsistent()
  {
    order := new Order(today, identityHash);
    order.SetProducts(list);
    order.AddProduct(product);
    list.Clear();
  }

  /** Stand-in for the delivery entity: the two fields the checkout sets. */
  class Delivery {
    /** The name of a delivery type: "PICKUP", "COURIER" or "UNMANNED_AIRCRAFT". */
    var deliveryType: string
    var order: Order?

    constructor ()
      ensures deliveryType == "" && order == null
    {
      deliveryType := "";
      order := null;
    }

    method SetDeliveryType(deliveryType: string)
      modifies this`deliveryType
      ensures this.deliveryType == deliveryType
    {
      this.deliveryType := deliveryType;
    }

    method SetOrder(order: Order?)
      modifies this`order
      ensures this.order == order
    {
      this.order := order;
    }
  }

  /** Stand-in for the customer entity: the contact fields the checkout sets. */
  class Customer {
    var name: string
    var surname: string
    var phone: string
    var email: string
    var city: string
    var address: string

    constructor (name: string, surname: string, phone: string,
                 email: string, city: string, address: string)
      ensures this.name == name && this.surname == surname && this.phone == phone
      ensures this.email == email && this.city == city && this.address == address
    {
      this.name, this.surname, this.phone := name, surname, phone;
      this.email, this.city, this.address := email, city, address;
    }
  }

  /** Stand-in for the employee entity, which no rule here inspects. */
  class Employee {
  }
}
