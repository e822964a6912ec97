/** Discounts and products as the commerce tools report them, and whether a discount applies to one
    product at one moment. */
module ProductTarget {
  import opened Common

  datatype Redemption = CODE | AUTOMATIC

  datatype Support = SUPPORTED | NOT_SUPPORTED

  datatype Offer = Offer(
    offerId: string, title: string, redemption: Redemption, code: Option<string>,
    startsAt: Option<string>, endsAt: Option<string>, support: Support)

  datatype TargetKind = EVERYTHING | SELECTED | UNKNOWN

  datatype Targeting = Targeting(
    kind: TargetKind,
    includedProductIds: seq<string>, includedVariantIds: seq<string>,
    includedCategoryIds: seq<string>, includedCollectionIds: seq<string>,
    excludedProductIds: seq<string>, excludedVariantIds: seq<string>,
    excludedCategoryIds: seq<string>, excludedCollectionIds: seq<string>)

  datatype Facts = Facts(
    targeting: Targeting, complete: bool, providerStatus: string, unavailableAt: Option<string>,
    unrepresentedConditions: seq<string>, minimumQuantity: Option<int>, minimumSubtotal: Option<string>,
    maximumSubtotal: Option<string>, everyCustomer: bool, excludesSaleItems: Option<bool>,
    usageLimit: Option<int>, usageCount: Option<int>, perCustomerLimit: Option<int>)

  datatype Details = Details(providerDiscountId: Option<string>, offer: Offer, facts: Facts)

  /** `saleEvidence` is absent, or says what the sale price is, if there is one. */
  datatype Product = Product(
    productId: string, variantId: Option<string>, categoryIds: Option<seq<string>>,
    collectionIds: Option<seq<string>>, saleEvidence: Option<Option<string>>)

  /** Foreign functions: trimming and upper-casing a status, and reading a date. */
  datatype Library = Library(canonicalStatus: string -> string, parseDate: string -> Option<int>)

  // ---------------------------------------------------------------- the predicate

  predicate AnyIn(ids: Option<seq<string>>, list: seq<string>) {
    ids.Some? && exists k :: 0 <= k < |ids.value| && ids.value[k] in list
  }

  predicate SameOffer(option: Offer, source: Offer) {
    && option.offerId == source.offerId && option.redemption == source.redemption && option.code == source.code
    && option.startsAt == source.startsAt && option.endsAt == source.endsAt
  }

  predicate Included(t: Targeting, p: Product) {
    || t.kind == EVERYTHING
    || (|t.includedProductIds| > 0 && p.productId in t.includedProductIds)
    || (|t.includedVariantIds| > 0 && p.variantId.Some? && p.variantId.value in t.includedVariantIds)
    || (|t.includedCategoryIds| > 0 && AnyIn(p.categoryIds, t.includedCategoryIds))
    || (|t.includedCollectionIds| > 0 && AnyIn(p.collectionIds, t.includedCollectionIds))
  }

  predicate Excluded(t: Targeting, p: Product) {
    || p.productId in t.excludedProductIds
    || (p.variantId.Some? && p.variantId.value in t.excludedVariantIds)
    || AnyIn(p.categoryIds, t.excludedCategoryIds)
    || AnyIn(p.collectionIds, t.excludedCollectionIds)
  }

  /** An absent bound never fails; an unreadable one always does. */
  predicate DatesFail(lib: Library, offer: Offer, now: int) {
    || (offer.startsAt.Some?
        && var start := lib.parseDate(offer.startsAt.value); start.None? || start.value > now)
    || (offer.endsAt.Some?
        && var end := lib.parseDate(offer.endsAt.value); end.None? || end.value <= now)
  }

  predicate ConditionsFail(details: Details) {
    var f := details.facts;
    || f.targeting.kind == UNKNOWN || !f.complete || details.offer.support != SUPPORTED
    || |f.unrepresentedConditions| > 0 || f.minimumQuantity.Some? || f.minimumSubtotal.Some?
    || f.maximumSubtotal.Some? || !f.everyCustomer || f.excludesSaleItems.None?
    || f.usageLimit.None? || f.perCustomerLimit.None?
    || (f.usageLimit.value > 0 && (f.usageCount.None? || f.usageCount.value >= f.usageLimit.value))
    || f.perCustomerLimit.value > 0
  }

  /** `evaluatedAt` is None when it is not a valid date. */
  predicate Matches(lib: Library, option: Offer, details: Details, product: Product, evaluatedAt: Option<int>) {
    var f := details.facts;
    if !SameOffer(option, details.offer) || option.support != SUPPORTED || details.offer.support != SUPPORTED
       || f.unavailableAt.Some? || lib.canonicalStatus(f.providerStatus) !in ["ACTIVE", "ENABLED"]
       || evaluatedAt.None? then false
    else if DatesFail(lib, details.offer, evaluatedAt.value) then false
    else if !Included(f.targeting, product) then false
    else if Excluded(f.targeting, product) then false
    else if ConditionsFail(details) then false
    else if f.excludesSaleItems.value && (product.saleEvidence.None? || product.saleEvidence.value.Some?) then false
    else true
  }

  // ---------------------------------------------------------------- what it means

  /** The handles by which a targeting rule can take hold of a product. */
  datatype Handle =
    | ById(id: string) | ByVariant(variant: string) | ByCategory(category: string) | ByCollection(collection: string)

  function Elements(ids: Option<seq<string>>): set<string> {
    if ids.None? then {} else set id | id in ids.value
  }

  function HandlesOf(p: Product): set<Handle> {
    {ById(p.productId)}
    + (if p.variantId.Some? then {ByVariant(p.variantId.value)} else {})
    + (set c | c in Elements(p.categoryIds) :: ByCategory(c))
    + (set c | c in Elements(p.collectionIds) :: ByCollection(c))
  }

  function Handles(products: seq<string>, variants: seq<string>, categories: seq<string>, collections: seq<string>)
    : set<Handle>
  {
    (set x | x in products :: ById(x)) + (set x | x in variants :: ByVariant(x))
    + (set x | x in categories :: ByCategory(x)) + (set x | x in collections :: ByCollection(x))
  }

  function IncludedHandles(t: Targeting): set<Handle> {
    Handles(t.includedProductIds, t.includedVariantIds, t.includedCategoryIds, t.includedCollectionIds)
  }

  function ExcludedHandles(t: Targeting): set<Handle> {
    Handles(t.excludedProductIds, t.excludedVariantIds, t.excludedCategoryIds, t.excludedCollectionIds)
  }

  lemma AnyInIff(ids: Option<seq<string>>, list: seq<string>)
    ensures AnyIn(ids, list) <==> exists id :: id in Elements(ids) && id in list
  {
    if ids.Some? {
      forall id | id in ids.value && id in list
        ensures AnyIn(ids, list)
      {
        var k :| 0 <= k < |ids.value| && ids.value[k] == id;
      }
      if AnyIn(ids, list) {
        var k :| 0 <= k < |ids.value| && ids.value[k] in list;
        assert ids.value[k] in Elements(ids);
      }
    }
  }

  lemma MeetIff(p: Product, products: seq<string>, variants: seq<string>, categories: seq<string>,
                collections: seq<string>)
    ensures HandlesOf(p) !! Handles(products, variants, categories, collections) <==>
            !(p.productId in products || (p.variantId.Some? && p.variantId.value in variants)
              || AnyIn(p.categoryIds, categories) || AnyIn(p.collectionIds, collections))
  {
    AnyInIff(p.categoryIds, categories);
    AnyInIff(p.collectionIds, collections);
    var mine, theirs := HandlesOf(p), Handles(products, variants, categories, collections);
    if p.productId in products { assert ById(p.productId) in mine && ById(p.productId) in theirs; }
    if p.variantId.Some? && p.variantId.value in variants {
      assert ByVariant(p.variantId.value) in mine && ByVariant(p.variantId.value) in theirs;
    }
    forall c | c in Elements(p.categoryIds) && c in categories
      ensures ByCategory(c) in mine && ByCategory(c) in theirs
    {}
    forall c | c in Elements(p.collectionIds) && c in collections
      ensures ByCollection(c) in mine && ByCollection(c) in theirs
    {}
  }

  /** The moment lies in the offer's window, closed at the start and open at the end. */
  predicate InWindow(lib: Library, offer: Offer, now: int) {
    && (offer.startsAt.Some? ==>
          lib.parseDate(offer.startsAt.value).Some? && lib.parseDate(offer.startsAt.value).value <= now)
    && (offer.endsAt.Some? ==>
          lib.parseDate(offer.endsAt.value).Some? && now < lib.parseDate(offer.endsAt.value).value)
  }

  /** Nothing about the discount is unknown or depends on the basket or the customer, and uses are left. */
  predicate Unconditional(f: Facts) {
    && f.complete && f.targeting.kind != UNKNOWN && f.everyCustomer && |f.unrepresentedConditions| == 0
    && f.minimumQuantity == None && f.minimumSubtotal == None && f.maximumSubtotal == None
    && f.usageLimit.Some?
    && (f.usageLimit.value <= 0 || (f.usageCount.Some? && f.usageCount.value < f.usageLimit.value))
    && f.perCustomerLimit.Some? && f.perCustomerLimit.value <= 0
  }

  /** A match says: listing and source are one live, supported offer; the moment is in its window; a
      rule takes hold of the product, or all products are meant, and no exclusion does; and nothing
      else is asked, except that a product known to have no sale price may be required. */
  lemma MatchIff(lib: Library, option: Offer, details: Details, product: Product, evaluatedAt: Option<int>)
    ensures Matches(lib, option, details, product, evaluatedAt) <==>
            && option.(title := details.offer.title) == details.offer && option.support == SUPPORTED
            && details.facts.unavailableAt == None
            && lib.canonicalStatus(details.facts.providerStatus) in {"ACTIVE", "ENABLED"}
            && evaluatedAt.Some? && InWindow(lib, option, evaluatedAt.value)
            && (details.facts.targeting.kind == EVERYTHING
                || !(HandlesOf(product) !! IncludedHandles(details.facts.targeting)))
            && HandlesOf(product) !! ExcludedHandles(details.facts.targeting)
            && Unconditional(details.facts)
            && details.facts.excludesSaleItems.Some?
            && (details.facts.excludesSaleItems.value ==>
                  product.saleEvidence.Some? && product.saleEvidence.value.None?)
  {
    hide HandlesOf, Handles, AnyIn;
    var t := details.facts.targeting;
    MeetIff(product, t.includedProductIds, t.includedVariantIds, t.includedCategoryIds, t.includedCollectionIds);
    MeetIff(product, t.excludedProductIds, t.excludedVariantIds, t.excludedCategoryIds, t.excludedCollectionIds);
    EmptyListsCannotInclude(product, t);
  }

  /** The guards against empty lists decide nothing. */
  lemma EmptyListsCannotInclude(p: Product, t: Targeting)
    ensures Included(t, p) <==>
            t.kind == EVERYTHING || p.productId in t.includedProductIds
            || (p.variantId.Some? && p.variantId.value in t.includedVariantIds)
            || AnyIn(p.categoryIds, t.includedCategoryIds) || AnyIn(p.collectionIds, t.includedCollectionIds)
  {}

  /** A discount that matches at two moments matches at every moment between them. */
  lemma MatchIsConvexInTime(lib: Library, option: Offer, details: Details, product: Product, a: int, b: int, now: int)
    requires a <= now <= b
    requires Matches(lib, option, details, product, Some(a)) && Matches(lib, option, details, product, Some(b))
    ensures Matches(lib, option, details, product, Some(now))
  {}
}
