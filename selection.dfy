/**
 * The catalogue filters behind the store's pages. Every page keeps, in
 * catalogue order, the products that satisfy one predicate; the predicates
 * are described by `Criterion` and tested by `Matches`, and `Select` keeps
 * the matching products.
 */
module Selection {
  import opened JavaLang
  import opened Entities

  /** The predicates the handlers filter by. */
  datatype Criterion =
    | BrandIs(brand: string)                  // the brand is `brand`
    | TypeIs(productType: string)             // the type is `productType`
    | ModelLike(model: string, brand: string) // the lower-cased title contains `model` and the lower-cased brand `brand`
    | OnSale                                  // the full price differs from the sale price
    | OnMain                                  // the home-page flag is non-empty
    | Unsold                                  // the product belongs to no order
    | Either(left: Criterion, right: Criterion)
    | Both(left: Criterion, right: Criterion)

  predicate Matches(p: Product, c: Criterion)
    reads p
  {
    match c
    case BrandIs(b) => p.brandName == b
    case TypeIs(t) => p.productType == t
    case ModelLike(m, b) => Contains(ToLower(p.productTitle), m) && Contains(ToLower(p.brandName), b)
    case OnSale => p.fullPrice != p.salePrice
    case OnMain => |p.onMain| != 0
    case Unsold => p.order == null
    case Either(l, r) => Matches(p, l) || Matches(p, r)
    case Both(l, r) => Matches(p, l) && Matches(p, r)
  }

  /**
   * The criterion of the varargs `groupByType(list, param...)`: the type is
   * param[0] or param[1], with "" standing in for a missing second argument.
   * Arguments after the second are ignored.
   */
  function TypesCriterion(param: seq<string>): (r: Criterion)
    requires |param| >= 1
    ensures r.Either? && r.left == TypeIs(param[0])
    ensures |param| > 1 ==> r.right == TypeIs(param[1])
    ensures |param| == 1 ==> r.right == TypeIs("")
  {
    Either(TypeIs(param[0]), TypeIs(if |param| > 1 then param[1] else ""))
  }

  /** What `TypesCriterion` accepts, spelled out. */
  lemma TypesCriterionMatches(param: seq<string>, p: Product)
    requires |param| >= 1
    ensures Matches(p, TypesCriterion(param)) <==>
              p.productType == param[0] || (|param| > 1 && p.productType == param[1])
                                        || (|param| == 1 && p.productType == "")
  {
  }

  /** The products of s that match c, in the order of s. */
  function Select(s: seq<Product>, c: Criterion): (r: seq<Product>)
    reads s
  {
    if |s| == 0 then []
    else
      var last := s[|s| - 1];
      Select(s[..|s| - 1], c) + (if Matches(last, c) then [last] else [])
  }

  /** a can be obtained from b by deleting elements (so a keeps b's order). */
  predicate SubsequenceOf<T(==)>(a: seq<T>, b: seq<T>) {
    if |a| == 0 then true
    else if |b| == 0 then false
    else if a[|a| - 1] == b[|b| - 1] then SubsequenceOf(a[..|a| - 1], b[..|b| - 1])
    else SubsequenceOf(a, b[..|b| - 1])
  }

  /** Extending the input by one product extends the selection by it exactly when it matches. */
  lemma SelectSnoc(s: seq<Product>, p: Product, c: Criterion)
    ensures Select(s + [p], c) == Select(s, c) + (if Matches(p, c) then [p] else [])
  {
    assert (s + [p])[..|s|] == s;
  }

  /** Taking one more element of s as input extends the selection by it exactly when it matches. */
  lemma SelectPrefixStep(s: seq<Product>, i: int, c: Criterion)
    requires 0 <= i < |s|
    ensures Select(s[..i + 1], c) == Select(s[..i], c) + (if Matches(s[i], c) then [s[i]] else [])
  {
    assert s[..i + 1][..i] == s[..i];
  }

  /** Each product occurs in the selection as often as in the input if it matches, and never otherwise. */
  lemma {:induction false} SelectCount(s: seq<Product>, c: Criterion, x: Product)
    ensures multiset(Select(s, c))[x] == if Matches(x, c) then multiset(s)[x] else 0
  {
    if |s| != 0 {
      var init, last := s[..|s| - 1], s[|s| - 1];
      SelectCount(init, c, x);
      assert s == init + [last];
    }
  }

  /** A product is selected exactly when it is in the input and matches. */
  lemma SelectMembership(s: seq<Product>, c: Criterion)
    ensures forall x :: x in Select(s, c) <==> x in s && Matches(x, c)
  {
    forall x
      ensures x in Select(s, c) <==> x in s && Matches(x, c)
    {
      SelectCount(s, c, x);
    }
  }

  /** The selection keeps the input's order: it is a subsequence of the input. */
  lemma {:induction false} SelectIsSubsequence(s: seq<Product>, c: Criterion)
    ensures SubsequenceOf(Select(s, c), s)
  {
    if |s| != 0 {
      var init, last := s[..|s| - 1], s[|s| - 1];
      SelectIsSubsequence(init, c);
      var a := Select(s, c);
      if Matches(last, c) {
        assert a[..|a| - 1] == Select(init, c);
      } else {
        assert a == Select(init, c);
        if |a| != 0 {
          SelectMembership(init, c);
          assert a[|a| - 1] in Select(init, c);
        }
      }
    }
  }

  /** Filtering a filtered list again by the same criterion changes nothing. */
  lemma {:induction false} SelectIdempotent(s: seq<Product>, c: Criterion)
    ensures Select(Select(s, c), c) == Select(s, c)
  {
    if |s| != 0 {
      var init, last := s[..|s| - 1], s[|s| - 1];
      SelectIdempotent(init, c);
      if Matches(last, c) {
        SelectSnoc(Select(init, c), last, c);
      } else {
        assert Select(s, c) == Select(init, c);
      }
    }
  }

  /** Filtering by a, then by b, is filtering by both. */
  lemma {:induction false} SelectThenSelect(s: seq<Product>, a: Criterion, b: Criterion)
    ensures Select(Select(s, a), b) == Select(s, Both(a, b))
  {
    if |s| != 0 {
      var init, last := s[..|s| - 1], s[|s| - 1];
      SelectThenSelect(init, a, b);
      if Matches(last, a) {
        SelectSnoc(Select(init, a), last, b);
      } else {
        assert Select(s, a) == Select(init, a);
      }
    }
  }

  /** The last product of s titled `title`, or `null` if there is none. */
  function LastTitled(s: seq<Product>, title: string): (r: Product?)
    reads s
    ensures r != null ==> r in s && r.productTitle == title
  {
    if |s| == 0 then null
    else if s[|s| - 1].productTitle == title then s[|s| - 1]
    else LastTitled(s[..|s| - 1], title)
  }

  /** `LastTitled` finds a product exactly when one carries the title, and no later product does. */
  lemma {:induction false} LastTitledSpec(s: seq<Product>, title: string)
    ensures LastTitled(s, title) == null <==> forall p :: p in s ==> p.productTitle != title
    ensures LastTitled(s, title) != null ==>
              exists i :: 0 <= i < |s| && s[i] == LastTitled(s, title) && s[i].productTitle == title
                          && forall j :: i < j < |s| ==> s[j].productTitle != title
  {
    if |s| != 0 {
      var init := s[..|s| - 1];
      assert s == init + [s[|s| - 1]];
      LastTitledSpec(init, title);
      if s[|s| - 1].productTitle != title {
        assert forall p :: p in s ==> p in init || p == s[|s| - 1];
        if LastTitled(init, title) != null {
          var i :| 0 <= i < |init| && init[i] == LastTitled(init, title) && init[i].productTitle == title
                   && forall j :: i < j < |init| ==> init[j].productTitle != title;
          assert s[i] == init[i];
        }
      }
    }
  }

  /**
   * `stream().filter(title equals).findAny()`: some product of s with the
   * title, or `null` when none has it. Which one is left open, as `findAny` does.
   */
  function FindAnyTitled(s: seq<Product>, title: string): (r: Product?)
    reads s
    ensures r == null <==> forall p :: p in s ==> p.productTitle != title
    ensures r != null ==> r in s && r.productTitle == title
  {
    if |s| == 0 then null
    else if s[0].productTitle == title then s[0]
    else
      var r := FindAnyTitled(s[1..], title);
      assert forall p :: p in s ==> p == s[0] || p in s[1..];
      r
  }
}
