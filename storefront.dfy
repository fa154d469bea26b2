/**
 * The storefront's main controller: the catalogue pages, the cart guard and
 * checkout. The catalogue (`productService.getAll()`) is passed in as a
 * sequence of products; persistence calls on the services are not modelled.
 */
module Storefront {
  import opened Wrappers
  import opened JavaLang
  import opened Entities
  import opened Selection

  /** `groupByBrand`: append the catalogue products of brand `param`. */
  method GroupByBrand(catalogue: seq<Product>, groupOfProducts: ProductList, param: string)
    modifies groupOfProducts
    ensures groupOfProducts.items == old(groupOfProducts.items) + Select(catalogue, BrandIs(param))
  {
    groupOfProducts.AddAll(Select(catalogue, BrandIs(param)));
  }

  /** The varargs `groupByType`: append the catalogue products of type param[0] or param[1]. */
  method GroupByTypes(catalogue: seq<Product>, groupOfProducts: ProductList, param: seq<string>)
    requires |param| >= 1
    modifies groupOfProducts
    ensures groupOfProducts.items == old(groupOfProducts.items) + Select(catalogue, TypesCriterion(param))
  {
    groupOfProducts.AddAll(Select(catalogue, TypesCriterion(param)));
  }

  /**
   * `groupByType(type, list)`: narrow the list in place to the products of
   * one type, by collecting them into a fresh list, clearing the argument
   * and refilling it.
   */
  method NarrowToType(productType: string, groupOfProducts: ProductList)
    modifies groupOfProducts
    ensures groupOfProducts.items == Select(old(groupOfProducts.items), TypeIs(productType))
  {
    var kept := new ProductList();
    var items := groupOfProducts.items;
    for i := 0 to |items|
      modifies kept
      invariant groupOfProducts.items == items
      invariant kept.items == Select(items[..i], TypeIs(productType))
    {
      var product := items[i];
      SelectPrefixStep(items, i, TypeIs(productType));
      if product.productType == productType {
        kept.Add(product);
      }
    }
    assert items[..|items|] == items;
    ghost var want := kept.items;
    assert want == Select(items, TypeIs(productType));
    groupOfProducts.Clear();
    groupOfProducts.AddAll(kept.items);
  }

  /** `groupByModel`: append the products whose lower-cased title and brand contain `model` and `brand`. */
  method GroupByModel(catalogue: seq<Product>, groupOfProducts: ProductList, model: string, brand: string)
    modifies groupOfProducts
    ensures groupOfProducts.items == old(groupOfProducts.items) + Select(catalogue, ModelLike(model, brand))
  {
    groupOfProducts.AddAll(Select(catalogue, ModelLike(model, brand)));
  }

  /** Narrowing twice by the same type gives the same list as narrowing once. */
  lemma NarrowToTypeIdempotent(items: seq<Product>, productType: string)
    ensures Select(Select(items, TypeIs(productType)), TypeIs(productType)) == Select(items, TypeIs(productType))
    ensures SubsequenceOf(Select(items, TypeIs(productType)), items)
  {
    SelectIdempotent(items, TypeIs(productType));
    SelectIsSubsequence(items, TypeIs(productType));
  }

  /** The products `groupByModel` appends, spelled out. */
  lemma GroupByModelSelects(catalogue: seq<Product>, model: string, brand: string)
    ensures forall p :: p in Select(catalogue, ModelLike(model, brand)) <==>
              p in catalogue && Contains(ToLower(p.productTitle), model) && Contains(ToLower(p.brandName), brand)
  {
    SelectMembership(catalogue, ModelLike(model, brand));
  }

  /** The products the varargs `groupByType` appends, spelled out. */
  lemma GroupByTypesSelects(catalogue: seq<Product>, param: seq<string>)
    requires |param| >= 1
    ensures forall p :: p in Select(catalogue, TypesCriterion(param)) <==>
              p in catalogue && (p.productType == param[0] || p.productType == (if |param| > 1 then param[1] else ""))
  {
    SelectMembership(catalogue, TypesCriterion(param));
    forall p | p in catalogue
      ensures Matches(p, TypesCriterion(param)) <==>
                p.productType == param[0] || p.productType == (if |param| > 1 then param[1] else "")
    {
      TypesCriterionMatches(param, p);
    }
  }

  /** The products of one brand and one type, spelled out. */
  lemma BrandAndTypeSelects(catalogue: seq<Product>, brand: string, productType: string)
    ensures forall p :: p in Select(catalogue, Both(BrandIs(brand), TypeIs(productType))) <==>
              p in catalogue && p.brandName == brand && p.productType == productType
  {
    SelectMembership(catalogue, Both(BrandIs(brand), TypeIs(productType)));
    forall p | p in catalogue
      ensures Matches(p, Both(BrandIs(brand), TypeIs(productType))) <==>
                p.brandName == brand && p.productType == productType
    {
      assert Matches(p, Both(BrandIs(brand), TypeIs(productType))) ==
               (Matches(p, BrandIs(brand)) && Matches(p, TypeIs(productType)));
    }
  }

  /** `getModelAndView`: a Samsung category page lists the Samsung products of one type. */
  method GetModelAndView(catalogue: seq<Product>, productType: string) returns (groupOfProducts: seq<Product>)
    ensures groupOfProducts == Select(catalogue, Both(BrandIs("Samsung"), TypeIs(productType)))
    ensures forall p :: p in groupOfProducts <==>
              p in catalogue && p.brandName == "Samsung" && p.productType == productType
  {
    var group := new ProductList();
    GroupByBrand(catalogue, group, "Samsung");
    assert group.items == Select(catalogue, BrandIs("Samsung"));
    ghost var brandList := group.items;
    NarrowToType(productType, group);
    groupOfProducts := group.items;
    assert groupOfProducts == Select(catalogue, Both(BrandIs("Samsung"), TypeIs(productType))) by {
      assert groupOfProducts == Select(brandList, TypeIs(productType));
      SelectThenSelect(catalogue, BrandIs("Samsung"), TypeIs(productType));
    }
    BrandAndTypeSelects(catalogue, "Samsung", productType);
  }

  /**
   * `home`: every catalogue product, in order, and the id of some product
   * titled "Meizu MX6" for the slider, when there is one.
   */
  method Home(catalogue: seq<Product>) returns (groupOfProducts: seq<Product>, meizuId: Option<int>)
    ensures groupOfProducts == catalogue
    ensures meizuId == None <==> forall p :: p in catalogue ==> p.productTitle != "Meizu MX6"
    ensures meizuId != None ==>
              exists p :: p in catalogue && p.productTitle == "Meizu MX6" && p.productId == meizuId.value
  {
    var group := new ProductList();
    for i := 0 to |catalogue|
      invariant group.items == catalogue[..i]
    {
      group.Add(catalogue[i]);
      assert catalogue[..i + 1] == catalogue[..i] + [catalogue[i]];
    }
    assert catalogue[..|catalogue|] == catalogue;
    groupOfProducts := group.items;
    var sliderProduct := FindAnyTitled(catalogue, "Meizu MX6");
    if sliderProduct != null {
      meizuId := Some(sliderProduct.productId);
    } else {
      meizuId := None;
    }
  }

  /** `onSales`: the products whose full price differs from their sale price. */
  method OnSales(catalogue: seq<Product>) returns (groupOfProducts: seq<Product>)
    ensures groupOfProducts == Select(catalogue, OnSale)
    ensures forall p :: p in groupOfProducts <==> p in catalogue && p.fullPrice != p.salePrice
  {
    var group := new ProductList();
    group.AddAll(Select(catalogue, OnSale));
    groupOfProducts := group.items;
    SelectMembership(catalogue, OnSale);
  }

  /** The delivery kinds, as the enum `DeliveryType`. */
  datatype DeliveryType = PICKUP | COURIER | UNMANNED_AIRCRAFT {
    /** `name()` of the enum constant. */
    function Name(): string {
      match this
      case PICKUP => "PICKUP"
      case COURIER => "COURIER"
      case UNMANNED_AIRCRAFT => "UNMANNED_AIRCRAFT"
    }
  }

  /** The checkout's delivery choice: "PICKUP", "COURIER", and anything else means a drone. */
  function DeliveryFor(deliveryType: string): (d: DeliveryType)
    ensures d == PICKUP <==> deliveryType == "PICKUP"
    ensures d == COURIER <==> deliveryType == "COURIER"
    ensures d == UNMANNED_AIRCRAFT <==> deliveryType != "PICKUP" && deliveryType != "COURIER"
  {
    if deliveryType == PICKUP.Name() then PICKUP
    else if deliveryType == COURIER.Name() then COURIER
    else UNMANNED_AIRCRAFT
  }

  /** The name of every delivery kind maps back to that kind. */
  lemma DeliveryForName(d: DeliveryType)
    ensures DeliveryFor(d.Name()) == d
  {
  }

  /** The session's cart, seen only through its number of positions. */
  class ShoppingCart {
    var size: nat

    constructor (size: nat)
      ensures this.size == size
    {
      this.size := size;
    }

    method Clear()
      modifies this
      ensures size == 0
    {
      size := 0;
    }
  }

  /** What `removeProductFromCart` does: only redirect, or remove a position and redirect. */
  datatype CartRemoval = Skip(view: string) | Remove(productId: int, view: string)

  /** `removeProductFromCart`: with an empty cart, go home and remove nothing. */
  function RemoveProductFromCart(cartSize: nat, id: int, url: string): (r: CartRemoval)
    ensures r.Skip? <==> cartSize == 0
    ensures r.Skip? ==> r.view == "redirect:/"
    ensures r.Remove? ==> r.productId == id && r.view == "redirect:" + url
  {
    if cartSize == 0 then Skip("redirect:/")
    else Remove(id, "redirect:" + url)
  }

  /** The result of `viewCheckout`. */
  datatype CheckoutOutcome =
    | RedirectHome
    | Placed(order: Order, delivery: Delivery, customer: Customer)

  /**
   * `viewCheckout`: with an empty cart, redirect home and create nothing;
   * otherwise create the customer, the order priced at the cart's price and
   * its delivery, then empty the cart. `cartPrice` is the cart's
   * `getPrice()`, `today` the value of `LocalDate.now()` and `orderHash` the
   * identity hash the runtime gives the new order.
   */
  method ViewCheckout(cart: ShoppingCart, name: string, surname: string, phone: string,
                      email: string, city: string, address: string, deliveryType: string,
                      cartPrice: real, today: string, orderHash: int)
      returns (outcome: CheckoutOutcome)
    requires IsInt32(orderHash)
    modifies cart
    ensures old(cart.size) == 0 ==> outcome == RedirectHome && cart.size == 0
    ensures old(cart.size) > 0 ==> outcome.Placed? && cart.size == 0
    ensures outcome.Placed? ==>
              && fresh(outcome.order) && fresh(outcome.delivery) && fresh(outcome.customer)
              && outcome.order.customer == outcome.customer
              && outcome.order.delivery == outcome.delivery
              && outcome.order.orderPrice == cartPrice
              && outcome.order.dateCreated == today
              && outcome.delivery.order == outcome.order
              && outcome.delivery.deliveryType == DeliveryFor(deliveryType).Name()
              && outcome.customer.name == name && outcome.customer.surname == surname
              && outcome.customer.phone == phone && outcome.customer.email == email
              && outcome.customer.city == city && outcome.customer.address == address
  {
    if cart.size > 0 {
      var customer := new Customer(name, surname, phone, email, city, address);
      var order := new Order(today, orderHash);
      order.SetOrderPrice(cartPrice);
      order.SetCustomer(customer);

      var delivery := new Delivery();
      var kind := DeliveryFor(deliveryType);
      delivery.SetDeliveryType(kind.Name());
      delivery.SetOrder(order);

      order.SetDelivery(delivery);
      cart.Clear();
      outcome := Placed(order, delivery, customer);
    } else {
      outcome := RedirectHome;
    }
  }
}
