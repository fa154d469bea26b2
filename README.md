# MangoStore business rules in Dafny

MangoStore is an online electronics shop built on Spring MVC and JPA. Under
the framework glue sits a small layer of rules, and this project models that
layer and proves properties of it:

- **Catalogue pages.** Each page picks products out of the whole catalogue:
  by brand, by one or two types, by a lower-cased substring match on title and
  brand, by "on sale" (full price differs from sale price), and on the older
  controller's home page by the `onMain` flag. A Samsung category page narrows
  a brand list in place to one type. The older controller's category and sales
  pages list only unsold products (not attached to an order); its home page
  lists every product flagged `onMain`, sold or not.
- **Cart and checkout guards.** An empty cart sends the customer home, both
  when removing a position and at checkout. A checkout maps the delivery
  string onto the three delivery kinds, builds the order and empties the cart.
- **Entities.** `Product` has setters, a `price` alias for the full price,
  and `equals`/`hashCode` over the title and the order reference. `Order`
  has `addProduct`, which keeps the product list, the quantity counter and
  the running price in step, and attaches the product.

Layout, one module per file:

- `java_lang.dfy` (`JavaLang`): Java `int` wrap-around, `String.hashCode`,
  `toLowerCase` and `contains`.
- `wrappers.dfy` (`Wrappers`): `Option`, for Java's nullable values.
- `entities.dfy` (`Entities`): the `Product` and `Order` classes and
  `ProductList`, the `java.util.List<Product>` they and the handlers share.
  Also minimal `Delivery`, `Customer` and `Employee` classes holding only what
  `Order` and the checkout touch.
- `selection.dfy` (`Selection`): the filter predicates as a `Criterion`
  datatype, `Matches`, and `Select`, which keeps the matching products in
  catalogue order. Also the lemmas about `Select`.
- `storefront.dfy` (`Storefront`): the current controller
  (`controller/MainController.java`).
- `legacy_storefront.dfy` (`LegacyStorefront`): the older controller
  (`MainController.java` at the package root).

Modelling choices:

- The catalogue `productService.getAll()` is an input `seq<Product>`.
- Prices are `real` and are compared exactly.
- The controllers call `getBrand()` and `getOnMain()`, and `Order.addProduct`
  calls `setOnMain`, `setQuantity` and `getQuantity`; `Product.java` declares
  none of them. The model
  gives `Product` the fields `onMain: string` and `quantity: int`, and reads
  `getBrand()` as the accessor of the one brand column, `brandName`. A second
  brand field would never be set by any constructor or setter.
- Java's `type` field is called `productType`, because `type` is a Dafny keyword.
- A `java.util.List<Product>` is a `ProductList` object with a `seq<Product>`
  field. The helpers update the caller's list in place. An order holds a
  reference to one: `setProducts` stores the caller's list itself, so the
  caller and the order see each other's changes.
- Getters other than `getPrice` are the fields themselves.

## Model

| member | source | states |
|---|---|---|
| `JavaLang.StringHashIsPolynomial` | src/main/java/ua/com/mangostore/entity/Product.java:178 | The title's `hashCode`, computed as h = 31*h + c in `int` arithmetic, is an `int` and equals the documented polynomial s[0]*31^(n-1)+...+s[n-1] reduced to 32 bits |
| `JavaLang.ContainsIff` | src/main/java/ua/com/mangostore/controller/MainController.java:325-326 | `contains(s, sub)` holds iff `sub` occurs in `s` at some index |
| `Entities.Product.constructor` | src/main/java/ua/com/mangostore/entity/Product.java:57-63 | Sets title, type, brand, full price and sale price; specification and image stay null (`None`); the product is unsold |
| `Entities.Product.WithDetails` | src/main/java/ua/com/mangostore/entity/Product.java:65-75 | Sets all seven columns; the product is unsold |
| `Entities.Product.Price` | src/main/java/ua/com/mangostore/entity/Product.java:84-86 | `getPrice` is an alias that returns the full price |
| `Entities.Product.SetPrice` | src/main/java/ua/com/mangostore/entity/Product.java:88-90 | `setPrice(p)` sets the full price, so `getPrice` and `getFullPrice` both return p; no other field changes |
| `Entities.Product.SetOrder` | src/main/java/ua/com/mangostore/entity/Product.java:43-45 | Sets only the order reference |
| `Entities.Product.SetProductTitle` | src/main/java/ua/com/mangostore/entity/Product.java:96-98 | Sets only the title |
| `Entities.Product.SetType` | src/main/java/ua/com/mangostore/entity/Product.java:104-106 | Sets only the type |
| `Entities.Product.SetBrandName` | src/main/java/ua/com/mangostore/entity/Product.java:112-114 | Sets only the brand |
| `Entities.Product.SetProductId` | src/main/java/ua/com/mangostore/entity/Product.java:128-130 | Sets only the id |
| `Entities.Product.SetFullPrice` | src/main/java/ua/com/mangostore/entity/Product.java:136-138 | Sets only the full price, which `getPrice` then returns |
| `Entities.Product.SetSalePrice` | src/main/java/ua/com/mangostore/entity/Product.java:144-146 | Sets only the sale price |
| `Entities.Product.SetSpecification` | src/main/java/ua/com/mangostore/entity/Product.java:152-154 | Sets only the specification |
| `Entities.Product.SetImageURL` | src/main/java/ua/com/mangostore/entity/Product.java:160-162 | Sets only the image URL |
| `Entities.Product.SetOnMain` | src/main/java/ua/com/mangostore/entity/Order.java:52 | Sets only the home-page flag |
| `Entities.Product.SetQuantity` | src/main/java/ua/com/mangostore/entity/Order.java:53 | Sets only the quantity |
| `Entities.Product.Equals` | src/main/java/ua/com/mangostore/entity/Product.java:164-174 | `equals(o)` holds iff o is a `Product` with an equal title and the same order reference (both null, or the same `Order`) |
| `Entities.Product.HashCode` | src/main/java/ua/com/mangostore/entity/Product.java:176-181 | `hashCode` is a 32-bit `int` |
| `Entities.EqualsReflexive` | src/main/java/ua/com/mangostore/entity/Product.java:166 | Every product equals itself |
| `Entities.EqualsOnlyProducts` | src/main/java/ua/com/mangostore/entity/Product.java:167 | `equals` is false for null and for objects that are not products |
| `Entities.EqualsSymmetric` | src/main/java/ua/com/mangostore/entity/Product.java:169-172 | `p.equals(q)` iff `q.equals(p)` |
| `Entities.EqualsTransitive` | src/main/java/ua/com/mangostore/entity/Product.java:169-172 | `p.equals(q)` and `q.equals(r)` give `p.equals(r)` |
| `Entities.EqualProductsEqualHashes` | src/main/java/ua/com/mangostore/entity/Product.java:164-181 | Equal products have equal hash codes |
| `Entities.Order.constructor` | src/main/java/ua/com/mangostore/entity/Order.java:35-47 | A new order has a fresh, empty product list of its own, is dated with the given day, and has zero prices, quantity and discount and no delivery, customer or employee |
| `Entities.Order.AddProduct` | src/main/java/ua/com/mangostore/entity/Order.java:49-61 | The order's list object, shared with whoever else holds it, becomes its old contents plus the product at the end, `orderQuantity` equals the list's length whatever it was before, the price grows by exactly the product's full price, and the product belongs to this order. A product new to the order gets quantity 1 and an empty `onMain`; one already in it gets its quantity raised by 1 and is counted again. If every listed product was attached before, every one still is |
| `Entities.Order.SetEmployee` | src/main/java/ua/com/mangostore/entity/Order.java:67-69 | Sets only the employee |
| `Entities.Order.SetCustomer` | src/main/java/ua/com/mangostore/entity/Order.java:75-77 | Sets only the customer |
| `Entities.Order.SetOrderPriceWithDiscount` | src/main/java/ua/com/mangostore/entity/Order.java:83-85 | Sets only the discounted price |
| `Entities.Order.SetOrderPrice` | src/main/java/ua/com/mangostore/entity/Order.java:91-93 | Sets only the price |
| `Entities.Order.SetOrderQuantity` | src/main/java/ua/com/mangostore/entity/Order.java:99-101 | Sets only the quantity counter |
| `Entities.Order.SetOrderDiscount` | src/main/java/ua/com/mangostore/entity/Order.java:107-109 | Sets only the discount |
| `Entities.Order.SetProducts` | src/main/java/ua/com/mangostore/entity/Order.java:115-117 | Stores the caller's list object itself, so the two share it; nothing else changes, the quantity counter included |
| `Entities.Order.SetDelivery` | src/main/java/ua/com/mangostore/entity/Order.java:123-125 | Sets only the delivery |
| `Entities.SetProductsBreaksQuantity` | src/main/java/ua/com/mangostore/entity/Order.java:115-117 | After `addProduct` and then `setProducts` with an empty list, `orderQuantity` is 1 and no longer equals the list's size |
| `Entities.SharedListGrows` | src/main/java/ua/com/mangostore/entity/Order.java:49-61 | After `setProducts(list)`, `addProduct` appends to the caller's `list` itself, and the order's counter matches that list |
| `Entities.SharedListEditBreaksQuantity` | src/main/java/ua/com/mangostore/entity/Order.java:111-117 | A caller that handed its list to `setProducts` and clears it afterwards leaves the order with an empty list and a quantity counter one above the list's old length |
| `Entities.Customer.constructor` | src/main/java/ua/com/mangostore/controller/MainController.java:757-763 | A new customer holds exactly the given name, surname, phone, email, city and address |
| `Entities.Delivery.SetDeliveryType` | src/main/java/ua/com/mangostore/controller/MainController.java:771-777 | Sets only the delivery type name |
| `Entities.Delivery.SetOrder` | src/main/java/ua/com/mangostore/controller/MainController.java:778 | Sets only the delivery's order |
| `Selection.TypesCriterion` | src/main/java/ua/com/mangostore/controller/MainController.java:468-469 | The varargs type test takes param[0] as its first type, and param[1] as its second when given, with "" as the second otherwise |
| `Selection.TypesCriterionMatches` | src/main/java/ua/com/mangostore/controller/MainController.java:467-469 | The varargs type test accepts type param[0], or param[1] when given, or "" when only one argument is given |
| `Selection.Select` | src/main/java/ua/com/mangostore/controller/MainController.java:380-384 | The filter every page applies: the products of the catalogue that pass the predicate, in catalogue order. What it returns is stated by `SelectCount`, `SelectMembership` and `SelectIsSubsequence` |
| `Selection.SelectCount` | src/main/java/ua/com/mangostore/controller/MainController.java:380-384 | A filtered list holds each product as many times as the catalogue does if it matches, and not at all otherwise |
| `Selection.SelectMembership` | src/main/java/ua/com/mangostore/controller/MainController.java:380-384 | A product is in a filtered list iff it is in the catalogue and matches the predicate |
| `Selection.SelectIsSubsequence` | src/main/java/ua/com/mangostore/controller/MainController.java:485-494 | A filtered list is a subsequence of its input, in the same relative order |
| `Selection.SelectIdempotent` | src/main/java/ua/com/mangostore/controller/MainController.java:485-494 | Filtering a filtered list again by the same predicate changes nothing |
| `Selection.SelectThenSelect` | src/main/java/ua/com/mangostore/controller/MainController.java:205-207 | Filtering by one predicate and then another equals filtering by both at once |
| `Selection.LastTitled` | src/main/java/ua/com/mangostore/MainController.java:80-88 | The slider product the older home page's loop ends with: when there is one, it is a catalogue product with the title |
| `Selection.LastTitledSpec` | src/main/java/ua/com/mangostore/MainController.java:80-88 | The slider lookup finds a product iff some product has the title; the product it finds has the title and no later product does |
| `Selection.FindAnyTitled` | src/main/java/ua/com/mangostore/controller/MainController.java:113-116 | `findAny` gives null iff no catalogue product has the title; otherwise some catalogue product with that title |
| `Storefront.GroupByBrand` | src/main/java/ua/com/mangostore/controller/MainController.java:371-385 | Appends to the caller's list the catalogue products of the given brand, in catalogue order; earlier contents are kept |
| `Storefront.GroupByTypes` | src/main/java/ua/com/mangostore/controller/MainController.java:467-483 | Appends the catalogue products whose type is param[0] or param[1] ("" when absent), in catalogue order |
| `Storefront.GroupByTypesSelects` | src/main/java/ua/com/mangostore/controller/MainController.java:467-483 | A product is appended iff it is in the catalogue and its type is param[0] or param[1] ("" when absent) |
| `Storefront.NarrowToType` | src/main/java/ua/com/mangostore/controller/MainController.java:485-494 | Narrows the list in place to the elements of the given type, in their old order |
| `Storefront.NarrowToTypeIdempotent` | src/main/java/ua/com/mangostore/controller/MainController.java:485-494 | Narrowing twice gives the same list as narrowing once, and the result is a subsequence of the input |
| `Storefront.GroupByModel` | src/main/java/ua/com/mangostore/controller/MainController.java:313-329 | Appends the products that pass the lower-cased title and brand substring tests, in catalogue order |
| `Storefront.GroupByModelSelects` | src/main/java/ua/com/mangostore/controller/MainController.java:323-328 | A product is appended iff its lower-cased title contains `model` and its lower-cased brand contains `brand` |
| `Storefront.BrandAndTypeSelects` | src/main/java/ua/com/mangostore/controller/MainController.java:205-207 | A product passes the brand-then-type filter iff it is in the catalogue with that brand and that type |
| `Storefront.GetModelAndView` | src/main/java/ua/com/mangostore/controller/MainController.java:201-211 | A Samsung category page lists exactly the catalogue products of brand "Samsung" and the requested type, in catalogue order |
| `Storefront.Home` | src/main/java/ua/com/mangostore/controller/MainController.java:95-124 | The home page lists the whole catalogue in order; `meizu_id` is set iff some product is titled "Meizu MX6", and then it is the id of such a product |
| `Storefront.OnSales` | src/main/java/ua/com/mangostore/controller/MainController.java:552-574 | The sales page lists exactly the products whose full price differs from their sale price, in catalogue order |
| `Storefront.DeliveryFor` | src/main/java/ua/com/mangostore/controller/MainController.java:770-777 | "PICKUP" gives PICKUP, "COURIER" gives COURIER, and every other string gives UNMANNED_AIRCRAFT |
| `Storefront.DeliveryForName` | src/main/java/ua/com/mangostore/controller/MainController.java:771-776 | The name of each delivery kind maps back to that kind |
| `Storefront.ShoppingCart.Clear` | src/main/java/ua/com/mangostore/controller/MainController.java:792 | Clearing leaves the cart empty |
| `Storefront.RemoveProductFromCart` | src/main/java/ua/com/mangostore/controller/MainController.java:721-731 | With an empty cart it redirects to "/" and removes nothing; otherwise it removes the position of product `id` and redirects to `url` |
| `Storefront.ViewCheckout` | src/main/java/ua/com/mangostore/controller/MainController.java:747-797 | An empty cart redirects home, creates no order and leaves the cart as it was. Otherwise it creates a customer with the given details, an order dated today at the cart's price, and a delivery of the mapped kind, all linked to each other, and the cart ends empty |
| `LegacyStorefront.AppendUnsold` | src/main/java/ua/com/mangostore/MainController.java:269-273 | The shared loop appends, in catalogue order, exactly the unsold products that pass the helper's test |
| `LegacyStorefront.GroupByBrand` | src/main/java/ua/com/mangostore/MainController.java:268-274 | Appends exactly the unsold products of the given brand, in catalogue order |
| `LegacyStorefront.GroupByType` | src/main/java/ua/com/mangostore/MainController.java:356-364 | Appends exactly the unsold products whose type is param[0] or param[1] ("" when absent) |
| `LegacyStorefront.GroupByModel` | src/main/java/ua/com/mangostore/MainController.java:218-226 | Appends exactly the unsold products that pass the lower-cased title and brand substring tests |
| `LegacyStorefront.LegacySelectionUnsold` | src/main/java/ua/com/mangostore/MainController.java:220-222 | Whatever a legacy helper appends is an unsold catalogue product that passes the helper's test, and every such product is appended |
| `LegacyStorefront.Home` | src/main/java/ua/com/mangostore/MainController.java:75-96 | The home page lists the products with a non-empty `onMain`, in catalogue order. `meizu_id` and `meizu_alt` are set only when a product is titled "Meizu MX6", and then from the last such product |
| `LegacyStorefront.HomeSelects` | src/main/java/ua/com/mangostore/MainController.java:81-84 | A product is on the home page iff it is in the catalogue and its `onMain` is non-empty |
| `LegacyStorefront.OnSales` | src/main/java/ua/com/mangostore/MainController.java:416-429 | The sales page lists exactly the unsold products whose full price differs from their sale price, in catalogue order |

## Left out

- Spring wiring, view names, `ModelAndView` attributes other than the slider
  ids, and redirects other than the cart guards. These are rendering glue.
- `AppConfig.java` and `SecurityConfig.java`. They hold bean and security
  configuration, with no behaviour of their own.
- Service and repository calls (`getAll`, `getById`, `addOrder`,
  `addDelivery`). The catalogue is an input; persistence is not modelled.
- The shopping cart service. The cart is only its size; `getPrice()` is a
  parameter of `ViewCheckout`. `ShoppingCartService.remove` is shown only as
  the `Remove` outcome of `RemoveProductFromCart`.
- `Order.addSalePositions`, which `viewCheckout` calls. `Order.java` does not
  declare it, so checkout does not attach the cart's positions to the order.
- The source of `Delivery`, `Customer`, `Employee` and the `DeliveryType` enum
  is not part of this model. The model holds minimal stand-ins with only the
  fields the order and the checkout touch; `Customer` takes its six contact
  fields in its constructor instead of through six setters.
- The no-argument `Product()` constructor, which only JPA uses. Null `String`
  fields in general: every string is non-null except specification and image.
- `LocalDate.now()` and the runtime's identity hash of an `Order`. Both are
  parameters.
- Floating-point `double` prices. Prices are exact reals with no rounding.
- `toString`, JPA annotations, lazy fetching and cascades.
- `getOrderId` and the other getters, which just read fields. `getProducts`
  hands out the order's list object itself, which a caller reaches as
  `order.products`.
- `setProducts(null)`: the model's list reference is never null.
- The category handlers other than `getModelAndView`. Each only calls the
  modelled `groupBy` helpers with constant arguments.
- The other handlers of both controllers: in the current one `viewProduct`,
  `viewCart`, `addProductToCart`, the static pages and `unauthorized`, and in
  the older one `addProductToBasket` and the like. They are service calls and
  rendering glue.
- Selection.TypesCriterion, Storefront.GroupByTypes and
  LegacyStorefront.GroupByType require at least one argument. Java throws
  `ArrayIndexOutOfBoundsException` at `param[0]` when there is none; every
  call site passes one or two constant arguments, so that exception is not
  modelled.
- Entities.Product.HashCode: its contract states only the `int` range. How it
  combines the title hash and the order's identity hash is in its body, and
  `EqualProductsEqualHashes` is the property proved about it.
- Entities.Order.AddProduct: does not model `int` overflow of `quantity + 1`.
- `toLowerCase` maps only Latin A-Z and Cyrillic U+0400..U+042F. Other
  letters keep their case, and the default locale is not modelled.
- `String.hashCode` uses the character's scalar value. This is Java's UTF-16
  code unit only for characters in the Basic Multilingual Plane.
- Storefront.Home: `findAny` may return any product with the title, so the
  contract does not say which one.
