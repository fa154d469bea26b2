/**
 * The older main controller. Its category and sales pages list only unsold
 * products (those not attached to an order); its home page lists every
 * product flagged for it, sold or not, together with a slider for the
 * product titled "Meizu MX6". Each helper is a loop over the catalogue that
 * appends to a list.
 */
module LegacyStorefront {
  import opened Wrappers
  import opened Entities
  import opened Selection

  /**
   * The loop every legacy `groupBy*` helper runs: append, in catalogue order,
   * each product that is unsold and matches c.
   */
  method AppendUnsold(catalogue: seq<Product>, groupOfProducts: ProductList, c: Criterion)
    modifies groupOfProducts
    ensures groupOfProducts.items == old(groupOfProducts.items) + Select(catalogue, Both(Unsold, c))
  {
    ghost var start := groupOfProducts.items;
    for i := 0 to |catalogue|
      invariant groupOfProducts.items == start + Select(catalogue[..i], Both(Unsold, c))
    {
      var product := catalogue[i];
      SelectPrefixStep(catalogue, i, Both(Unsold, c));
      if product.order == null && Matches(product, c) {
        groupOfProducts.Add(product);
      }
    }
    assert catalogue[..|catalogue|] == catalogue;
  }

  /** `groupByBrand`: append the unsold products of brand `param`. */
  method GroupByBrand(catalogue: seq<Product>, groupOfProducts: ProductList, param: string)
    modifies groupOfProducts
    ensures groupOfProducts.items == old(groupOfProducts.items) + Select(catalogue, Both(Unsold, BrandIs(param)))
  {
    AppendUnsold(catalogue, groupOfProducts, BrandIs(param));
  }

  /** `groupByType`: append the unsold products of type param[0] or param[1] ("" if absent). */
  method GroupByType(catalogue: seq<Product>, groupOfProducts: ProductList, param: seq<string>)
    requires |param| >= 1
    modifies groupOfProducts
    ensures groupOfProducts.items == old(groupOfProducts.items) + Select(catalogue, Both(Unsold, TypesCriterion(param)))
  {
    AppendUnsold(catalogue, groupOfProducts, TypesCriterion(param));
  }

  /** `groupByModel`: append the unsold products whose lower-cased title and brand contain `model` and `brand`. */
  method GroupByModel(catalogue: seq<Product>, groupOfProducts: ProductList, model: string, brand: string)
    modifies groupOfProducts
    ensures groupOfProducts.items == old(groupOfProducts.items) + Select(catalogue, Both(Unsold, ModelLike(model, brand)))
  {
    AppendUnsold(catalogue, groupOfProducts, ModelLike(model, brand));
  }

  /** Whatever a legacy helper selects is unsold, is in the catalogue, and matches its own test. */
  lemma LegacySelectionUnsold(catalogue: seq<Product>, c: Criterion)
    ensures forall p :: p in Select(catalogue, Both(Unsold, c)) <==>
              p in catalogue && p.order == null && Matches(p, c)
  {
    SelectMembership(catalogue, Both(Unsold, c));
    forall p | p in catalogue
      ensures Matches(p, Both(Unsold, c)) <==> p.order == null && Matches(p, c)
    {
      assert Matches(p, Both(Unsold, c)) == (Matches(p, Unsold) && Matches(p, c));
    }
  }

  /**
   * `home`: the products flagged for the home page, in catalogue order, and
   * the id and title of the last product titled "Meizu MX6", when there is one.
   */
  method Home(catalogue: seq<Product>)
      returns (groupOfProducts: seq<Product>, meizuId: Option<int>, meizuAlt: Option<string>)
    ensures groupOfProducts == Select(catalogue, OnMain)
    ensures LastTitled(catalogue, "Meizu MX6") == null ==> meizuId == None && meizuAlt == None
    ensures LastTitled(catalogue, "Meizu MX6") != null ==>
              && meizuId == Some(LastTitled(catalogue, "Meizu MX6").productId)
              && meizuAlt == Some("Meizu MX6")
  {
    var group := new ProductList();
    var sliderProduct: Product? := null;
    for i := 0 to |catalogue|
      invariant group.items == Select(catalogue[..i], OnMain)
      invariant sliderProduct == LastTitled(catalogue[..i], "Meizu MX6")
    {
      var product := catalogue[i];
      assert catalogue[..i + 1][..i] == catalogue[..i];
      SelectPrefixStep(catalogue, i, OnMain);
      if |product.onMain| != 0 {
        group.Add(product);
      }
      if product.productTitle == "Meizu MX6" {
        sliderProduct := product;
      }
    }
    assert catalogue[..|catalogue|] == catalogue;
    groupOfProducts := group.items;
    if sliderProduct != null {
      meizuId := Some(sliderProduct.productId);
      meizuAlt := Some(sliderProduct.productTitle);
    } else {
      meizuId, meizuAlt := None, None;
    }
    LastTitledSpec(catalogue, "Meizu MX6");
  }

  /** The home page lists exactly the products with a non-empty `onMain` flag. */
  lemma HomeSelects(catalogue: seq<Product>)
    ensures forall p :: p in Select(catalogue, OnMain) <==> p in catalogue && |p.onMain| != 0
  {
    SelectMembership(catalogue, OnMain);
  }

  /** `onSales`: the unsold products whose full price differs from their sale price. */
  method OnSales(catalogue: seq<Product>) returns (groupOfProducts: seq<Product>)
    ensures groupOfProducts == Select(catalogue, Both(Unsold, OnSale))
    ensures forall p :: p in groupOfProducts <==>
              p in catalogue && p.order == null && p.fullPrice != p.salePrice
  {
    var group := new ProductList();
    for i := 0 to |catalogue|
      invariant group.items == Select(catalogue[..i], Both(Unsold, OnSale))
    {
      var product := catalogue[i];
      SelectPrefixStep(catalogue, i, Both(Unsold, OnSale));
      if product.order == null && product.fullPrice != product.salePrice {
        group.Add(product);
      }
    }
    assert catalogue[..|catalogue|] == catalogue;
    groupOfProducts := group.items;
    OnSalesSelects(catalogue);
  }

  /** The sales page lists exactly the unsold products whose two prices differ. */
  lemma OnSalesSelects(catalogue: seq<Product>)
    ensures forall p :: p in Select(catalogue, Both(Unsold, OnSale)) <==>
              p in catalogue && p.order == null && p.fullPrice != p.salePrice
  {
    LegacySelectionUnsold(catalogue, OnSale);
  }
}
