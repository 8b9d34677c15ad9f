/**
 * The zod schemas of the shared library, as the bounds they put on each field
 * and the defaults they fill in, and `validateSchema`, which returns the
 * parsed data or throws. A schema's parse is a function from the input to
 * either the parsed value or the paths of the fields that failed, in schema
 * order; the `email()`, `url()` and `uuid()` format checks are predicates
 * passed in.
 */
module Schemas {
  import opened Wrappers
  import opened JsText
  import opened Seqs

  /** The field names the schemas check, as the paths of zod's issues. */
  datatype Path =
    | Page | Limit | SortBy | SortOrder
    | Name | Slug | Description | Price | Currency | Images | CategoryId | StockQuantity
    | Email | Password | FirstName | LastName | Phone | AcceptTerms
    | Company | Street | City | PostalCode | Country
    | ProductId | VariantId | Quantity
    | Rating | Title | Text
    | Code | Type | Value | MinimumAmount | UsageLimit
    | Query | MinPrice | MaxPrice | NewPassword | ShippingAddress | BillingAddress | Notes
    | Image | ParentId | Subject | Message | Weight | Address | File

  /** What `safeParse` returns: the parsed data, or the paths of the failing fields in schema order. */
  datatype SafeParse<+T> = Parsed(data: T) | Invalid(issues: seq<Path>)

  /** The fields of a schema whose check fails, in the schema's field order. */
  function Issues(paths: seq<Path>, fails: Path -> bool): (r: seq<Path>)
    ensures Subseq(r, paths)
  {
    FilterSubseq(paths, fails);
    Filter(paths, fails)
  }

  /** A field is reported exactly when it belongs to the schema and its check fails. */
  lemma IssuesMember(paths: seq<Path>, fails: Path -> bool, p: Path)
    ensures p in Issues(paths, fails) <==> p in paths && fails(p)
  {
    FilterMember(paths, fails, p);
  }

  /** No issue is reported exactly when every field's check passes. */
  lemma NoIssues(paths: seq<Path>, fails: Path -> bool)
    ensures Issues(paths, fails) == [] <==> forall p | p in paths :: !fails(p)
  {
    FilterEmpty(paths, fails);
  }

  /** A parse that succeeds exactly when there is no issue. */
  function ParseWith<T>(issues: seq<Path>, data: T): (r: SafeParse<T>)
    ensures r.Parsed? <==> issues == []
    ensures r.Parsed? ==> r.data == data
    ensures r.Invalid? ==> r.issues == issues
  {
    if issues == [] then Parsed(data) else Invalid(issues)
  }

  /** The error `validateSchema` throws; its message is "Validation error: " and zod's rendering of the issues. */
  datatype ValidationError = ValidationError(issues: seq<Path>)

  /** `validateSchema(schema, data)`. */
  function ValidateSchema<T>(parsed: SafeParse<T>): (r: Result<T, ValidationError>)
    ensures r.Success? <==> parsed.Parsed?
    ensures r.Success? ==> r.value == parsed.data
    ensures r.Failure? ==> r.error.issues == parsed.issues
  {
    match parsed
    case Parsed(data) => Success(data)
    case Invalid(issues) => Failure(ValidationError(issues))
  }

  /** `z.string().min(lo).max(hi)`. */
  predicate LengthIn(s: string, lo: nat, hi: nat) { lo <= |s| <= hi }

  /** `z.number().min(lo).max(hi)`. */
  predicate Between(x: int, lo: int, hi: int) { lo <= x <= hi }

  // ----- PaginationSchema -----

  datatype PaginationInput = PaginationInput(page: Option<int>, limit: Option<int>, sortBy: Option<string>, sortOrder: Option<string>)

  datatype Pagination = Pagination(page: int, limit: int, sortBy: Option<string>, sortOrder: string)

  const PaginationPaths: seq<Path> := [Page, Limit, SortBy, SortOrder]

  /** Whether the check on field `p` of `PaginationSchema` fails. */
  predicate PaginationFails(i: PaginationInput, p: Path) {
    match p
    case Page => i.page.Some? && i.page.value < 1
    case Limit => i.limit.Some? && !Between(i.limit.value, 1, 100)
    case SortOrder => i.sortOrder.Some? && i.sortOrder.value !in {"ASC", "DESC"}
    case _ => false
  }

  function PaginationCheck(i: PaginationInput): (r: Path -> bool) {
    p => PaginationFails(i, p)
  }

  function PaginationIssues(i: PaginationInput): (r: seq<Path>) {
    Issues(PaginationPaths, PaginationCheck(i))
  }

  lemma PaginationReported(i: PaginationInput, p: Path)
    ensures p in PaginationIssues(i) <==> p in PaginationPaths && PaginationFails(i, p)
  {
    IssuesMember(PaginationPaths, PaginationCheck(i), p);
  }

  /** The pagination fields with their defaults filled in: page 1, limit 20, sortOrder DESC. */
  function WithPaginationDefaults(i: PaginationInput): (r: Pagination) {
    Pagination(i.page.GetOr(1), i.limit.GetOr(20), i.sortBy, i.sortOrder.GetOr("DESC"))
  }

  /** `PaginationSchema.safeParse`. */
  function ParsePagination(i: PaginationInput): (r: SafeParse<Pagination>) {
    ParseWith(PaginationIssues(i), WithPaginationDefaults(i))
  }

  /** A parsed pagination has page >= 1, limit in [1, 100] and an order of ASC or DESC. */
  lemma PaginationBounds(i: PaginationInput)
    ensures var r := ParsePagination(i);
      && (r.Parsed? ==> r.data.page >= 1 && Between(r.data.limit, 1, 100) && r.data.sortOrder in {"ASC", "DESC"})
      && (r.Parsed? <==> (i.page.None? || i.page.value >= 1) && (i.limit.None? || Between(i.limit.value, 1, 100))
                         && (i.sortOrder.None? || i.sortOrder.value in {"ASC", "DESC"}))
  {
    var issues := PaginationIssues(i);
    if issues == [] {
      PaginationReported(i, Page);
      PaginationReported(i, Limit);
      PaginationReported(i, SortOrder);
    } else {
      PaginationReported(i, issues[0]);
    }
  }

  /** An empty query parses to page 1, limit 20, DESC. */
  lemma PaginationDefaults()
    ensures ParsePagination(PaginationInput(None, None, None, None)) == Parsed(Pagination(1, 20, None, "DESC"))
  {
    NoIssues(PaginationPaths, PaginationCheck(PaginationInput(None, None, None, None)));
  }

  // ----- ProductCreateSchema -----

  datatype ProductCreateInput = ProductCreateInput(
    name: string,
    slug: Option<string>,
    description: string,
    price: int,
    currency: Option<string>,
    images: seq<string>,
    categoryId: string,
    stockQuantity: Option<int>)

  datatype ProductCreate = ProductCreate(
    name: string,
    slug: Option<string>,
    description: string,
    price: int,
    currency: string,
    images: seq<string>,
    categoryId: string,
    stockQuantity: int)

  /** `z.array(z.string().url())` elements: every image passes the URL check. */
  predicate AllUrls(images: seq<string>, isUrl: string -> bool) {
    forall k | 0 <= k < |images| :: isUrl(images[k])
  }

  const ProductCreatePaths: seq<Path> := [Name, Slug, Description, Price, Currency, Images, CategoryId, StockQuantity]

  /** Whether the check on field `p` of `ProductCreateSchema` fails. */
  predicate ProductCreateFails(i: ProductCreateInput, isUrl: string -> bool, isUuid: string -> bool, p: Path) {
    match p
    case Name => !LengthIn(i.name, 1, 200)
    case Slug => i.slug.Some? && !LengthIn(i.slug.value, 1, 200)
    case Description => !LengthIn(i.description, 1, 2000)
    case Price => i.price < 0
    case Currency => i.currency.Some? && |i.currency.value| != 3
    case Images => |i.images| < 1 || !AllUrls(i.images, isUrl)
    case CategoryId => !isUuid(i.categoryId)
    case StockQuantity => i.stockQuantity.Some? && i.stockQuantity.value < 0
    case _ => false
  }

  function ProductCreateCheck(i: ProductCreateInput, isUrl: string -> bool, isUuid: string -> bool): (r: Path -> bool) {
    p => ProductCreateFails(i, isUrl, isUuid, p)
  }

  function ProductCreateIssues(i: ProductCreateInput, isUrl: string -> bool, isUuid: string -> bool): (r: seq<Path>) {
    Issues(ProductCreatePaths, ProductCreateCheck(i, isUrl, isUuid))
  }

  lemma ProductCreateReported(i: ProductCreateInput, isUrl: string -> bool, isUuid: string -> bool, p: Path)
    ensures p in ProductCreateIssues(i, isUrl, isUuid) <==> p in ProductCreatePaths && ProductCreateFails(i, isUrl, isUuid, p)
  {
    IssuesMember(ProductCreatePaths, ProductCreateCheck(i, isUrl, isUuid), p);
  }

  /** `ProductCreateSchema.safeParse`: currency defaults to EUR and stock to 0. */
  function ParseProductCreate(i: ProductCreateInput, isUrl: string -> bool, isUuid: string -> bool): (r: SafeParse<ProductCreate>) {
    ParseWith(ProductCreateIssues(i, isUrl, isUuid),
      ProductCreate(i.name, i.slug, i.description, i.price, i.currency.GetOr("EUR"), i.images, i.categoryId,
                    i.stockQuantity.GetOr(0)))
  }

  /** A parsed product has a three-letter currency (EUR when omitted), a non-negative price and stock, and an image. */
  lemma ProductCreateParsed(i: ProductCreateInput, isUrl: string -> bool, isUuid: string -> bool)
    requires ParseProductCreate(i, isUrl, isUuid).Parsed?
    ensures var p := ParseProductCreate(i, isUrl, isUuid).data;
      && |p.currency| == 3 && (i.currency.None? ==> p.currency == "EUR")
      && p.price >= 0 && p.stockQuantity >= 0 && |p.images| >= 1
      && AllUrls(p.images, isUrl)
  {
    ProductCreateReported(i, isUrl, isUuid, Price);
    ProductCreateReported(i, isUrl, isUuid, Currency);
    ProductCreateReported(i, isUrl, isUuid, Images);
    ProductCreateReported(i, isUrl, isUuid, StockQuantity);
  }

  // ----- UserRegisterSchema -----

  datatype UserRegisterInput = UserRegisterInput(
    email: string, password: string, firstName: string, lastName: string, phone: Option<string>, acceptTerms: bool)

  const UserRegisterPaths: seq<Path> := [Email, Password, FirstName, LastName, Phone, AcceptTerms]

  /** Whether the check on field `p` of `UserRegisterSchema` fails. */
  predicate UserRegisterFails(i: UserRegisterInput, isEmail: string -> bool, p: Path) {
    match p
    case Email => !isEmail(i.email)
    case Password => !LengthIn(i.password, 8, 128)
    case FirstName => !LengthIn(i.firstName, 1, 50)
    case LastName => !LengthIn(i.lastName, 1, 50)
    case AcceptTerms => !i.acceptTerms
    case _ => false
  }

  function UserRegisterCheck(i: UserRegisterInput, isEmail: string -> bool): (r: Path -> bool) {
    p => UserRegisterFails(i, isEmail, p)
  }

  function UserRegisterIssues(i: UserRegisterInput, isEmail: string -> bool): (r: seq<Path>) {
    Issues(UserRegisterPaths, UserRegisterCheck(i, isEmail))
  }

  lemma UserRegisterReported(i: UserRegisterInput, isEmail: string -> bool, p: Path)
    ensures p in UserRegisterIssues(i, isEmail) <==> p in UserRegisterPaths && UserRegisterFails(i, isEmail, p)
  {
    IssuesMember(UserRegisterPaths, UserRegisterCheck(i, isEmail), p);
  }

  function ParseUserRegister(i: UserRegisterInput, isEmail: string -> bool): (r: SafeParse<UserRegisterInput>) {
    ParseWith(UserRegisterIssues(i, isEmail), i)
  }

  /** Registration goes through only with the terms accepted and a password of 8 to 128 characters. */
  lemma RegisterNeedsTerms(i: UserRegisterInput, isEmail: string -> bool)
    ensures ParseUserRegister(i, isEmail).Parsed? ==> i.acceptTerms && LengthIn(i.password, 8, 128)
    ensures !i.acceptTerms ==> ValidateSchema(ParseUserRegister(i, isEmail)).Failure?
  {
    UserRegisterReported(i, isEmail, AcceptTerms);
    UserRegisterReported(i, isEmail, Password);
  }

  // ----- AddressSchema -----

  datatype AddressInput = AddressInput(
    firstName: string, lastName: string, company: Option<string>, street: string, city: string,
    postalCode: string, country: string, phone: Option<string>)

  const AddressPaths: seq<Path> := [FirstName, LastName, Company, Street, City, PostalCode, Country, Phone]

  /** Whether the check on field `p` of `AddressSchema` fails. */
  predicate AddressFails(i: AddressInput, p: Path) {
    match p
    case FirstName => !LengthIn(i.firstName, 1, 50)
    case LastName => !LengthIn(i.lastName, 1, 50)
    case Company => i.company.Some? && |i.company.value| > 100
    case Street => !LengthIn(i.street, 1, 200)
    case City => !LengthIn(i.city, 1, 100)
    case PostalCode => !LengthIn(i.postalCode, 1, 20)
    case Country => |i.country| != 2
    case _ => false
  }

  function AddressCheck(i: AddressInput): (r: Path -> bool) {
    p => AddressFails(i, p)
  }

  function AddressIssues(i: AddressInput): (r: seq<Path>) {
    Issues(AddressPaths, AddressCheck(i))
  }

  lemma AddressReported(i: AddressInput, p: Path)
    ensures p in AddressIssues(i) <==> p in AddressPaths && AddressFails(i, p)
  {
    IssuesMember(AddressPaths, AddressCheck(i), p);
  }

  function ParseAddress(i: AddressInput): (r: SafeParse<AddressInput>) {
    ParseWith(AddressIssues(i), i)
  }

  /** Every field of the address is within the bounds `AddressSchema` sets. */
  predicate AddressInBounds(i: AddressInput) {
    && LengthIn(i.firstName, 1, 50) && LengthIn(i.lastName, 1, 50)
    && (i.company.None? || |i.company.value| <= 100)
    && LengthIn(i.street, 1, 200) && LengthIn(i.city, 1, 100) && LengthIn(i.postalCode, 1, 20)
    && |i.country| == 2
  }

  /** An address parses exactly when every field is within its bounds. */
  lemma AddressParsed(i: AddressInput)
    ensures ParseAddress(i).Parsed? <==> AddressInBounds(i)
  {
    var issues := AddressIssues(i);
    if issues == [] {
      NoIssueInBounds(i);
    } else {
      var p := issues[0];
      assert p in issues;
      AddressReported(i, p);
      FailingFieldOutOfBounds(i, p);
    }
  }

  lemma NoIssueInBounds(i: AddressInput)
    requires AddressIssues(i) == []
    ensures AddressInBounds(i)
  {
    NoIssueAddressee(i);
    NoIssueLocation(i);
  }

  lemma NoIssueAddressee(i: AddressInput)
    requires AddressIssues(i) == []
    ensures LengthIn(i.firstName, 1, 50) && LengthIn(i.lastName, 1, 50) && (i.company.None? || |i.company.value| <= 100)
  {
    AddressReported(i, FirstName);
    AddressReported(i, LastName);
    AddressReported(i, Company);
  }

  lemma NoIssueLocation(i: AddressInput)
    requires AddressIssues(i) == []
    ensures LengthIn(i.street, 1, 200) && LengthIn(i.city, 1, 100) && LengthIn(i.postalCode, 1, 20) && |i.country| == 2
  {
    AddressReported(i, Street);
    AddressReported(i, City);
    AddressReported(i, PostalCode);
    AddressReported(i, Country);
  }

  lemma FailingFieldOutOfBounds(i: AddressInput, p: Path)
    requires AddressFails(i, p)
    ensures !AddressInBounds(i)
  {
  }

  // ----- AddToCartSchema and UpdateCartItemSchema -----

  datatype AddToCartInput = AddToCartInput(productId: string, variantId: Option<string>, quantity: int)

  const AddToCartPaths: seq<Path> := [ProductId, VariantId, Quantity]

  /** Whether the check on field `p` of `AddToCartSchema` fails. */
  predicate AddToCartFails(i: AddToCartInput, isUuid: string -> bool, p: Path) {
    match p
    case ProductId => !isUuid(i.productId)
    case VariantId => i.variantId.Some? && !isUuid(i.variantId.value)
    case Quantity => !Between(i.quantity, 1, 100)
    case _ => false
  }

  function AddToCartCheck(i: AddToCartInput, isUuid: string -> bool): (r: Path -> bool) {
    p => AddToCartFails(i, isUuid, p)
  }

  function AddToCartIssues(i: AddToCartInput, isUuid: string -> bool): (r: seq<Path>) {
    Issues(AddToCartPaths, AddToCartCheck(i, isUuid))
  }

  lemma AddToCartReported(i: AddToCartInput, isUuid: string -> bool, p: Path)
    ensures p in AddToCartIssues(i, isUuid) <==> p in AddToCartPaths && AddToCartFails(i, isUuid, p)
  {
    IssuesMember(AddToCartPaths, AddToCartCheck(i, isUuid), p);
  }

  /** `UpdateCartItemSchema`: its only field is the quantity. */
  function UpdateCartItemIssues(quantity: int): (r: seq<Path>)
    ensures Quantity in r <==> !Between(quantity, 1, 100)
    ensures |r| <= 1
  {
    FailIf(!Between(quantity, 1, 100), Quantity)
  }

  /** Adding and updating accept the same quantities: 1 to 100. */
  lemma CartQuantitiesAgree(i: AddToCartInput, isUuid: string -> bool)
    ensures (Quantity in AddToCartIssues(i, isUuid)) <==> UpdateCartItemIssues(i.quantity) != []
  {
    AddToCartReported(i, isUuid, Quantity);
    assert AddToCartPaths[2] == Quantity;
    assert AddToCartFails(i, isUuid, Quantity) <==> !Between(i.quantity, 1, 100);
  }

  // ----- ReviewCreateSchema -----

  datatype ReviewCreateInput = ReviewCreateInput(
    productId: string, rating: int, title: Option<string>, text: string, images: Option<seq<string>>)

  const ReviewCreatePaths: seq<Path> := [ProductId, Rating, Title, Text, Images]

  /** Whether the check on field `p` of `ReviewCreateSchema` fails. */
  predicate ReviewCreateFails(i: ReviewCreateInput, isUrl: string -> bool, isUuid: string -> bool, p: Path) {
    match p
    case ProductId => !isUuid(i.productId)
    case Rating => !Between(i.rating, 1, 5)
    case Title => i.title.Some? && |i.title.value| > 100
    case Text => !LengthIn(i.text, 10, 1000)
    case Images => i.images.Some? && (|i.images.value| > 5 || !AllUrls(i.images.value, isUrl))
    case _ => false
  }

  function ReviewCreateCheck(i: ReviewCreateInput, isUrl: string -> bool, isUuid: string -> bool): (r: Path -> bool) {
    p => ReviewCreateFails(i, isUrl, isUuid, p)
  }

  function ReviewCreateIssues(i: ReviewCreateInput, isUrl: string -> bool, isUuid: string -> bool): (r: seq<Path>) {
    Issues(ReviewCreatePaths, ReviewCreateCheck(i, isUrl, isUuid))
  }

  lemma ReviewCreateReported(i: ReviewCreateInput, isUrl: string -> bool, isUuid: string -> bool, p: Path)
    ensures p in ReviewCreateIssues(i, isUrl, isUuid) <==> p in ReviewCreatePaths && ReviewCreateFails(i, isUrl, isUuid, p)
  {
    IssuesMember(ReviewCreatePaths, ReviewCreateCheck(i, isUrl, isUuid), p);
  }

  function ParseReviewCreate(i: ReviewCreateInput, isUrl: string -> bool, isUuid: string -> bool): (r: SafeParse<ReviewCreateInput>) {
    ParseWith(ReviewCreateIssues(i, isUrl, isUuid), i)
  }

  /** A parsed review has a rating of 1 to 5, a text of 10 to 1000 characters and at most five image URLs. */
  lemma ReviewParsed(i: ReviewCreateInput, isUrl: string -> bool, isUuid: string -> bool)
    requires ParseReviewCreate(i, isUrl, isUuid).Parsed?
    ensures Between(i.rating, 1, 5) && LengthIn(i.text, 10, 1000)
    ensures i.images.Some? ==> |i.images.value| <= 5 && AllUrls(i.images.value, isUrl)
  {
    ReviewCreateReported(i, isUrl, isUuid, Rating);
    ReviewCreateReported(i, isUrl, isUuid, Text);
    ReviewCreateReported(i, isUrl, isUuid, Images);
  }

  // ----- CouponCreateSchema -----

  datatype CouponCreateInput = CouponCreateInput(
    code: string, couponType: string, value: int, minimumAmount: Option<int>, usageLimit: Option<int>,
    isActive: Option<bool>)

  datatype CouponCreate = CouponCreate(
    code: string, couponType: string, value: int, minimumAmount: Option<int>, usageLimit: Option<int>, isActive: bool)

  const CouponCreatePaths: seq<Path> := [Code, Type, Value, MinimumAmount, UsageLimit]

  /** Whether the check on field `p` of `CouponCreateSchema` fails. */
  predicate CouponCreateFails(i: CouponCreateInput, p: Path) {
    match p
    case Code => !LengthIn(i.code, 3, 20)
    case Type => i.couponType !in {"PERCENTAGE", "FIXED_AMOUNT"}
    case Value => i.value < 0
    case MinimumAmount => i.minimumAmount.Some? && i.minimumAmount.value < 0
    case UsageLimit => i.usageLimit.Some? && i.usageLimit.value < 1
    case _ => false
  }

  function CouponCreateCheck(i: CouponCreateInput): (r: Path -> bool) {
    p => CouponCreateFails(i, p)
  }

  function CouponCreateIssues(i: CouponCreateInput): (r: seq<Path>) {
    Issues(CouponCreatePaths, CouponCreateCheck(i))
  }

  lemma CouponCreateReported(i: CouponCreateInput, p: Path)
    ensures p in CouponCreateIssues(i) <==> p in CouponCreatePaths && CouponCreateFails(i, p)
  {
    IssuesMember(CouponCreatePaths, CouponCreateCheck(i), p);
  }

  /** `CouponCreateSchema.safeParse`: the code is upper-cased after its length check; coupons are active by default. */
  function ParseCouponCreate(i: CouponCreateInput): (r: SafeParse<CouponCreate>) {
    ParseWith(CouponCreateIssues(i),
      CouponCreate(ToUpper(i.code), i.couponType, i.value, i.minimumAmount, i.usageLimit, i.isActive.GetOr(true)))
  }

  /** A parsed coupon code is upper-case, of 3 to 20 characters, and the same letters as the input. */
  lemma CouponCodeUpper(i: CouponCreateInput)
    requires ParseCouponCreate(i).Parsed?
    ensures var c := ParseCouponCreate(i).data;
      && LengthIn(c.code, 3, 20)
      && (forall k | 0 <= k < |c.code| :: !IsLower(c.code[k]))
      && ToUpper(c.code) == c.code
      && c.couponType in {"PERCENTAGE", "FIXED_AMOUNT"} && c.value >= 0
  {
    CouponCreateReported(i, Code);
    CouponCreateReported(i, Type);
    CouponCreateReported(i, Value);
  }

  // ----- SearchSchema -----

  /** `SearchSchema`: a query of 1 to 200 characters and the pagination fields; `filters` has no check. */
  datatype SearchInput = SearchInput(query: string, pagination: PaginationInput)

  datatype Search = Search(query: string, pagination: Pagination)

  const SearchPaths: seq<Path> := [Query, Page, Limit, SortBy, SortOrder]

  /** Whether the check on field `p` of `SearchSchema` fails; the spread pagination fields keep their checks. */
  predicate SearchFails(i: SearchInput, p: Path) {
    match p
    case Query => !LengthIn(i.query, 1, 200)
    case _ => PaginationFails(i.pagination, p)
  }

  function SearchCheck(i: SearchInput): (r: Path -> bool) {
    p => SearchFails(i, p)
  }

  function SearchIssues(i: SearchInput): (r: seq<Path>) {
    Issues(SearchPaths, SearchCheck(i))
  }

  lemma SearchReported(i: SearchInput, p: Path)
    ensures p in SearchIssues(i) <==> p in SearchPaths && SearchFails(i, p)
  {
    IssuesMember(SearchPaths, SearchCheck(i), p);
  }

  /** `SearchSchema.safeParse`: the pagination defaults apply as in `PaginationSchema`. */
  function ParseSearch(i: SearchInput): (r: SafeParse<Search>) {
    ParseWith(SearchIssues(i), Search(i.query, WithPaginationDefaults(i.pagination)))
  }

  /** A search parses exactly when its query is 1 to 200 characters and its pagination parses, with the same values. */
  lemma SearchParsed(i: SearchInput)
    ensures ParseSearch(i).Parsed? <==> LengthIn(i.query, 1, 200) && ParsePagination(i.pagination).Parsed?
    ensures ParseSearch(i).Parsed? ==> ParseSearch(i).data.pagination == ParsePagination(i.pagination).data
  {
    PaginationBounds(i.pagination);
    var issues := SearchIssues(i);
    if issues == [] {
      SearchReported(i, Query);
      SearchReported(i, Page);
      SearchReported(i, Limit);
      SearchReported(i, SortOrder);
    } else {
      var p := issues[0];
      assert p in issues;
      SearchReported(i, p);
    }
  }

  // ----- ProductSearchSchema -----

  datatype ProductSearchInput = ProductSearchInput(
    query: Option<string>, categoryId: Option<string>, minPrice: Option<int>, maxPrice: Option<int>,
    inStock: Option<bool>, rating: Option<int>, pagination: PaginationInput)

  datatype ProductSearch = ProductSearch(
    query: Option<string>, categoryId: Option<string>, minPrice: Option<int>, maxPrice: Option<int>,
    inStock: Option<bool>, rating: Option<int>, pagination: Pagination)

  const ProductSearchPaths: seq<Path> := [Query, CategoryId, MinPrice, MaxPrice, Rating, Page, Limit, SortBy, SortOrder]

  /** Whether the check on field `p` of `ProductSearchSchema` fails. */
  predicate ProductSearchFails(i: ProductSearchInput, isUuid: string -> bool, p: Path) {
    match p
    case CategoryId => i.categoryId.Some? && !isUuid(i.categoryId.value)
    case MinPrice => i.minPrice.Some? && i.minPrice.value < 0
    case MaxPrice => i.maxPrice.Some? && i.maxPrice.value < 0
    case Rating => i.rating.Some? && !Between(i.rating.value, 1, 5)
    case _ => PaginationFails(i.pagination, p)
  }

  function ProductSearchCheck(i: ProductSearchInput, isUuid: string -> bool): (r: Path -> bool) {
    p => ProductSearchFails(i, isUuid, p)
  }

  function ProductSearchIssues(i: ProductSearchInput, isUuid: string -> bool): (r: seq<Path>) {
    Issues(ProductSearchPaths, ProductSearchCheck(i, isUuid))
  }

  lemma ProductSearchReported(i: ProductSearchInput, isUuid: string -> bool, p: Path)
    ensures p in ProductSearchIssues(i, isUuid) <==> p in ProductSearchPaths && ProductSearchFails(i, isUuid, p)
  {
    IssuesMember(ProductSearchPaths, ProductSearchCheck(i, isUuid), p);
  }

  function ParseProductSearch(i: ProductSearchInput, isUuid: string -> bool): (r: SafeParse<ProductSearch>) {
    ParseWith(ProductSearchIssues(i, isUuid),
      ProductSearch(i.query, i.categoryId, i.minPrice, i.maxPrice, i.inStock, i.rating, WithPaginationDefaults(i.pagination)))
  }

  /** The filter fields of a product search are within their bounds. */
  predicate ProductFiltersInBounds(i: ProductSearchInput, isUuid: string -> bool) {
    && (i.categoryId.None? || isUuid(i.categoryId.value))
    && (i.minPrice.None? || i.minPrice.value >= 0) && (i.maxPrice.None? || i.maxPrice.value >= 0)
    && (i.rating.None? || Between(i.rating.value, 1, 5))
  }

  /** A product search parses exactly when its filters are within bounds and its pagination parses. */
  lemma ProductSearchParsed(i: ProductSearchInput, isUuid: string -> bool)
    ensures ParseProductSearch(i, isUuid).Parsed? <==>
      ProductFiltersInBounds(i, isUuid) && ParsePagination(i.pagination).Parsed?
  {
    PaginationBounds(i.pagination);
    if ProductSearchIssues(i, isUuid) == [] {
      ProductSearchFiltersReported(i, isUuid);
      ProductSearchReported(i, isUuid, Page);
      ProductSearchReported(i, isUuid, Limit);
      ProductSearchReported(i, isUuid, SortOrder);
    } else {
      ProductSearchIssueOutOfBounds(i, isUuid);
    }
  }

  lemma ProductSearchFiltersReported(i: ProductSearchInput, isUuid: string -> bool)
    requires ProductSearchIssues(i, isUuid) == []
    ensures ProductFiltersInBounds(i, isUuid)
  {
    ProductSearchPricesReported(i, isUuid);
    ProductSearchReported(i, isUuid, CategoryId);
    ProductSearchReported(i, isUuid, Rating);
  }

  lemma ProductSearchPricesReported(i: ProductSearchInput, isUuid: string -> bool)
    requires ProductSearchIssues(i, isUuid) == []
    ensures (i.minPrice.None? || i.minPrice.value >= 0) && (i.maxPrice.None? || i.maxPrice.value >= 0)
  {
    ProductSearchReported(i, isUuid, MinPrice);
    ProductSearchReported(i, isUuid, MaxPrice);
  }

  lemma ProductSearchIssueOutOfBounds(i: ProductSearchInput, isUuid: string -> bool)
    requires ProductSearchIssues(i, isUuid) != []
    ensures !ProductFiltersInBounds(i, isUuid) || (exists p | p in PaginationPaths :: PaginationFails(i.pagination, p))
  {
    var p := ProductSearchIssues(i, isUuid)[0];
    assert p in ProductSearchIssues(i, isUuid);
    ProductSearchReported(i, isUuid, p);
  }

  /** Nothing ties the two price bounds together: a minimum above the maximum parses. */
  lemma PriceRangeUnordered()
    ensures ParseProductSearch(ProductSearchInput(None, None, Some(10), Some(5), None, None,
                                                  PaginationInput(None, None, None, None)), _ => true).Parsed?
  {
    var i := ProductSearchInput(None, None, Some(10), Some(5), None, None, PaginationInput(None, None, None, None));
    ProductSearchParsed(i, _ => true);
  }

  // ----- UserLoginSchema, UserUpdateSchema, PasswordResetRequestSchema, PasswordResetSchema -----

  datatype UserLoginInput = UserLoginInput(email: string, password: string, rememberMe: Option<bool>)

  const UserLoginPaths: seq<Path> := [Email, Password]

  /** Whether the check on field `p` of `UserLoginSchema` fails: any non-empty password is accepted. */
  predicate UserLoginFails(i: UserLoginInput, isEmail: string -> bool, p: Path) {
    match p
    case Email => !isEmail(i.email)
    case Password => |i.password| < 1
    case _ => false
  }

  function UserLoginCheck(i: UserLoginInput, isEmail: string -> bool): (r: Path -> bool) {
    p => UserLoginFails(i, isEmail, p)
  }

  function UserLoginIssues(i: UserLoginInput, isEmail: string -> bool): (r: seq<Path>) {
    Issues(UserLoginPaths, UserLoginCheck(i, isEmail))
  }

  lemma UserLoginReported(i: UserLoginInput, isEmail: string -> bool, p: Path)
    ensures p in UserLoginIssues(i, isEmail) <==> p in UserLoginPaths && UserLoginFails(i, isEmail, p)
  {
    IssuesMember(UserLoginPaths, UserLoginCheck(i, isEmail), p);
  }

  function ParseUserLogin(i: UserLoginInput, isEmail: string -> bool): (r: SafeParse<UserLoginInput>) {
    ParseWith(UserLoginIssues(i, isEmail), i)
  }

  /** A login parses exactly when the email passes the format check and the password is not empty. */
  lemma UserLoginParsed(i: UserLoginInput, isEmail: string -> bool)
    ensures ParseUserLogin(i, isEmail).Parsed? <==> isEmail(i.email) && i.password != ""
  {
    var issues := UserLoginIssues(i, isEmail);
    if issues == [] {
      UserLoginReported(i, isEmail, Email);
      UserLoginReported(i, isEmail, Password);
    } else {
      var p := issues[0];
      assert p in issues;
      UserLoginReported(i, isEmail, p);
    }
  }

  datatype UserUpdateInput = UserUpdateInput(firstName: Option<string>, lastName: Option<string>, phone: Option<string>)

  const UserUpdatePaths: seq<Path> := [FirstName, LastName, Phone]

  /** Whether the check on field `p` of `UserUpdateSchema` fails: a given name has 1 to 50 characters. */
  predicate UserUpdateFails(i: UserUpdateInput, p: Path) {
    match p
    case FirstName => i.firstName.Some? && !LengthIn(i.firstName.value, 1, 50)
    case LastName => i.lastName.Some? && !LengthIn(i.lastName.value, 1, 50)
    case _ => false
  }

  function UserUpdateCheck(i: UserUpdateInput): (r: Path -> bool) {
    p => UserUpdateFails(i, p)
  }

  function UserUpdateIssues(i: UserUpdateInput): (r: seq<Path>) {
    Issues(UserUpdatePaths, UserUpdateCheck(i))
  }

  lemma UserUpdateReported(i: UserUpdateInput, p: Path)
    ensures p in UserUpdateIssues(i) <==> p in UserUpdatePaths && UserUpdateFails(i, p)
  {
    IssuesMember(UserUpdatePaths, UserUpdateCheck(i), p);
  }

  function ParseUserUpdate(i: UserUpdateInput): (r: SafeParse<UserUpdateInput>) {
    ParseWith(UserUpdateIssues(i), i)
  }

  /** An update parses exactly when each given name has 1 to 50 characters, as registration demands. */
  lemma UserUpdateParsed(i: UserUpdateInput)
    ensures ParseUserUpdate(i).Parsed? <==>
      (i.firstName.None? || LengthIn(i.firstName.value, 1, 50)) && (i.lastName.None? || LengthIn(i.lastName.value, 1, 50))
  {
    var issues := UserUpdateIssues(i);
    if issues == [] {
      UserUpdateReported(i, FirstName);
      UserUpdateReported(i, LastName);
    } else {
      var p := issues[0];
      assert p in issues;
      UserUpdateReported(i, p);
    }
  }

  /** `PasswordResetRequestSchema` and `NewsletterSubscribeSchema`: only the email format is checked. */
  function EmailOnlyIssues(email: string, isEmail: string -> bool): (r: seq<Path>)
    ensures r == [] <==> isEmail(email)
    ensures r != [] ==> r == [Email]
  {
    FailIf(!isEmail(email), Email)
  }

  datatype PasswordResetInput = PasswordResetInput(token: string, newPassword: string)

  const PasswordResetPaths: seq<Path> := [NewPassword]

  /** Whether the check on field `p` of `PasswordResetSchema` fails: the token is any string. */
  predicate PasswordResetFails(i: PasswordResetInput, p: Path) {
    match p
    case NewPassword => !LengthIn(i.newPassword, 8, 128)
    case _ => false
  }

  function PasswordResetCheck(i: PasswordResetInput): (r: Path -> bool) {
    p => PasswordResetFails(i, p)
  }

  function PasswordResetIssues(i: PasswordResetInput): (r: seq<Path>) {
    Issues(PasswordResetPaths, PasswordResetCheck(i))
  }

  lemma PasswordResetReported(i: PasswordResetInput, p: Path)
    ensures p in PasswordResetIssues(i) <==> p in PasswordResetPaths && PasswordResetFails(i, p)
  {
    IssuesMember(PasswordResetPaths, PasswordResetCheck(i), p);
  }

  /** A reset accepts exactly the new passwords that registration accepts. */
  lemma ResetAcceptsRegisterPasswords(r: PasswordResetInput, u: UserRegisterInput, isEmail: string -> bool)
    requires r.newPassword == u.password
    ensures PasswordResetIssues(r) == [] <==> Password !in UserRegisterIssues(u, isEmail)
  {
    PasswordResetReported(r, NewPassword);
    UserRegisterReported(u, isEmail, Password);
    if PasswordResetIssues(r) != [] {
      var p := PasswordResetIssues(r)[0];
      assert p in PasswordResetIssues(r);
      PasswordResetReported(r, p);
    }
  }

  // ----- CheckoutSchema and ShippingRateSchema -----

  datatype CheckoutInput = CheckoutInput(
    shippingAddress: AddressInput, billingAddress: AddressInput, couponCode: Option<string>,
    paymentMethodId: Option<string>, notes: Option<string>)

  const CheckoutPaths: seq<Path> := [ShippingAddress, BillingAddress, Notes]

  /** Whether the check on field `p` of `CheckoutSchema` fails; a nested address fails when any of its fields does. */
  predicate CheckoutFails(i: CheckoutInput, p: Path) {
    match p
    case ShippingAddress => !AddressInBounds(i.shippingAddress)
    case BillingAddress => !AddressInBounds(i.billingAddress)
    case Notes => i.notes.Some? && |i.notes.value| > 500
    case _ => false
  }

  function CheckoutCheck(i: CheckoutInput): (r: Path -> bool) {
    p => CheckoutFails(i, p)
  }

  function CheckoutIssues(i: CheckoutInput): (r: seq<Path>) {
    Issues(CheckoutPaths, CheckoutCheck(i))
  }

  lemma CheckoutReported(i: CheckoutInput, p: Path)
    ensures p in CheckoutIssues(i) <==> p in CheckoutPaths && CheckoutFails(i, p)
  {
    IssuesMember(CheckoutPaths, CheckoutCheck(i), p);
  }

  function ParseCheckout(i: CheckoutInput): (r: SafeParse<CheckoutInput>) {
    ParseWith(CheckoutIssues(i), i)
  }

  /** Both addresses and the notes are within the bounds `CheckoutSchema` sets. */
  predicate CheckoutInBounds(i: CheckoutInput) {
    AddressInBounds(i.shippingAddress) && AddressInBounds(i.billingAddress) && (i.notes.None? || |i.notes.value| <= 500)
  }

  /** A checkout parses exactly when both addresses parse on their own and the notes have at most 500 characters. */
  lemma CheckoutParsed(i: CheckoutInput)
    ensures ParseCheckout(i).Parsed? <==>
      && ParseAddress(i.shippingAddress).Parsed? && ParseAddress(i.billingAddress).Parsed?
      && (i.notes.None? || |i.notes.value| <= 500)
  {
    AddressParsed(i.shippingAddress);
    AddressParsed(i.billingAddress);
    if CheckoutIssues(i) == [] {
      CheckoutNoIssue(i);
    } else {
      CheckoutIssueOutOfBounds(i);
    }
  }

  lemma CheckoutNoIssue(i: CheckoutInput)
    requires CheckoutIssues(i) == []
    ensures CheckoutInBounds(i)
  {
    CheckoutReported(i, ShippingAddress);
    CheckoutReported(i, BillingAddress);
    CheckoutReported(i, Notes);
  }

  lemma CheckoutIssueOutOfBounds(i: CheckoutInput)
    requires CheckoutIssues(i) != []
    ensures !CheckoutInBounds(i)
  {
    var p := CheckoutIssues(i)[0];
    assert p in CheckoutIssues(i);
    CheckoutReported(i, p);
  }

  datatype ShippingRateInput = ShippingRateInput(weight: int, zone: string, address: AddressInput)

  const ShippingRatePaths: seq<Path> := [Weight, Address]

  /** Whether the check on field `p` of `ShippingRateSchema` fails: the zone is any string. */
  predicate ShippingRateFails(i: ShippingRateInput, p: Path) {
    match p
    case Weight => i.weight < 0
    case Address => !AddressInBounds(i.address)
    case _ => false
  }

  function ShippingRateCheck(i: ShippingRateInput): (r: Path -> bool) {
    p => ShippingRateFails(i, p)
  }

  function ShippingRateIssues(i: ShippingRateInput): (r: seq<Path>) {
    Issues(ShippingRatePaths, ShippingRateCheck(i))
  }

  lemma ShippingRateReported(i: ShippingRateInput, p: Path)
    ensures p in ShippingRateIssues(i) <==> p in ShippingRatePaths && ShippingRateFails(i, p)
  {
    IssuesMember(ShippingRatePaths, ShippingRateCheck(i), p);
  }

  function ParseShippingRate(i: ShippingRateInput): (r: SafeParse<ShippingRateInput>) {
    ParseWith(ShippingRateIssues(i), i)
  }

  /** A shipping-rate request parses exactly when the weight is not negative and the address parses. */
  lemma ShippingRateParsed(i: ShippingRateInput)
    ensures ParseShippingRate(i).Parsed? <==> i.weight >= 0 && ParseAddress(i.address).Parsed?
  {
    AddressParsed(i.address);
    if ShippingRateIssues(i) == [] {
      ShippingRateReported(i, Weight);
      ShippingRateReported(i, Address);
    } else {
      ShippingRateIssueOutOfBounds(i);
    }
  }

  lemma ShippingRateIssueOutOfBounds(i: ShippingRateInput)
    requires ShippingRateIssues(i) != []
    ensures !(i.weight >= 0 && AddressInBounds(i.address))
  {
    var p := ShippingRateIssues(i)[0];
    assert p in ShippingRateIssues(i);
    ShippingRateReported(i, p);
  }

  // ----- CategoryCreateSchema -----

  datatype CategoryCreateInput = CategoryCreateInput(
    name: string, slug: Option<string>, description: Option<string>, image: Option<string>,
    parentId: Option<string>, sortOrder: Option<int>)

  datatype CategoryCreate = CategoryCreate(
    name: string, slug: Option<string>, description: Option<string>, image: Option<string>,
    parentId: Option<string>, sortOrder: int)

  const CategoryCreatePaths: seq<Path> := [Name, Slug, Description, Image, ParentId, SortOrder]

  /** Whether the check on field `p` of `CategoryCreateSchema` fails. */
  predicate CategoryCreateFails(i: CategoryCreateInput, isUrl: string -> bool, isUuid: string -> bool, p: Path) {
    match p
    case Name => !LengthIn(i.name, 1, 100)
    case Slug => i.slug.Some? && !LengthIn(i.slug.value, 1, 100)
    case Description => i.description.Some? && |i.description.value| > 500
    case Image => i.image.Some? && !isUrl(i.image.value)
    case ParentId => i.parentId.Some? && !isUuid(i.parentId.value)
    case SortOrder => i.sortOrder.Some? && i.sortOrder.value < 0
    case _ => false
  }

  function CategoryCreateCheck(i: CategoryCreateInput, isUrl: string -> bool, isUuid: string -> bool): (r: Path -> bool) {
    p => CategoryCreateFails(i, isUrl, isUuid, p)
  }

  function CategoryCreateIssues(i: CategoryCreateInput, isUrl: string -> bool, isUuid: string -> bool): (r: seq<Path>) {
    Issues(CategoryCreatePaths, CategoryCreateCheck(i, isUrl, isUuid))
  }

  lemma CategoryCreateReported(i: CategoryCreateInput, isUrl: string -> bool, isUuid: string -> bool, p: Path)
    ensures p in CategoryCreateIssues(i, isUrl, isUuid) <==>
      p in CategoryCreatePaths && CategoryCreateFails(i, isUrl, isUuid, p)
  {
    IssuesMember(CategoryCreatePaths, CategoryCreateCheck(i, isUrl, isUuid), p);
  }

  /** `CategoryCreateSchema.safeParse`: sortOrder defaults to 0. */
  function ParseCategoryCreate(i: CategoryCreateInput, isUrl: string -> bool, isUuid: string -> bool): (r: SafeParse<CategoryCreate>) {
    ParseWith(CategoryCreateIssues(i, isUrl, isUuid),
      CategoryCreate(i.name, i.slug, i.description, i.image, i.parentId, i.sortOrder.GetOr(0)))
  }

  /** A parsed category has a name and a slug of 1 to 100 characters, at most 500 of description and a sort order of at least 0. */
  lemma CategoryCreateParsed(i: CategoryCreateInput, isUrl: string -> bool, isUuid: string -> bool)
    requires ParseCategoryCreate(i, isUrl, isUuid).Parsed?
    ensures var c := ParseCategoryCreate(i, isUrl, isUuid).data;
      && LengthIn(c.name, 1, 100) && (c.slug.None? || LengthIn(c.slug.value, 1, 100))
      && (c.description.None? || |c.description.value| <= 500)
      && c.sortOrder >= 0 && (i.sortOrder.None? ==> c.sortOrder == 0)
  {
    CategoryCreateReported(i, isUrl, isUuid, Name);
    CategoryCreateReported(i, isUrl, isUuid, Slug);
    CategoryCreateReported(i, isUrl, isUuid, Description);
    CategoryCreateReported(i, isUrl, isUuid, SortOrder);
  }

  // ----- ContactSchema -----

  datatype ContactInput = ContactInput(name: string, email: string, subject: string, message: string)

  const ContactPaths: seq<Path> := [Name, Email, Subject, Message]

  /** Whether the check on field `p` of `ContactSchema` fails. */
  predicate ContactFails(i: ContactInput, isEmail: string -> bool, p: Path) {
    match p
    case Name => !LengthIn(i.name, 1, 100)
    case Email => !isEmail(i.email)
    case Subject => !LengthIn(i.subject, 1, 200)
    case Message => !LengthIn(i.message, 10, 2000)
    case _ => false
  }

  function ContactCheck(i: ContactInput, isEmail: string -> bool): (r: Path -> bool) {
    p => ContactFails(i, isEmail, p)
  }

  function ContactIssues(i: ContactInput, isEmail: string -> bool): (r: seq<Path>) {
    Issues(ContactPaths, ContactCheck(i, isEmail))
  }

  lemma ContactReported(i: ContactInput, isEmail: string -> bool, p: Path)
    ensures p in ContactIssues(i, isEmail) <==> p in ContactPaths && ContactFails(i, isEmail, p)
  {
    IssuesMember(ContactPaths, ContactCheck(i, isEmail), p);
  }

  function ParseContact(i: ContactInput, isEmail: string -> bool): (r: SafeParse<ContactInput>) {
    ParseWith(ContactIssues(i, isEmail), i)
  }

  /** Every field of the contact message is within the bounds `ContactSchema` sets. */
  predicate ContactInBounds(i: ContactInput, isEmail: string -> bool) {
    LengthIn(i.name, 1, 100) && isEmail(i.email) && LengthIn(i.subject, 1, 200) && LengthIn(i.message, 10, 2000)
  }

  /** A contact message parses exactly when each field is within its bounds. */
  lemma ContactParsed(i: ContactInput, isEmail: string -> bool)
    ensures ParseContact(i, isEmail).Parsed? <==> ContactInBounds(i, isEmail)
  {
    if ContactIssues(i, isEmail) == [] {
      ContactNoIssue(i, isEmail);
    } else {
      ContactIssueOutOfBounds(i, isEmail);
    }
  }

  lemma ContactNoIssue(i: ContactInput, isEmail: string -> bool)
    requires ContactIssues(i, isEmail) == []
    ensures ContactInBounds(i, isEmail)
  {
    ContactReported(i, isEmail, Name);
    ContactReported(i, isEmail, Email);
    ContactReported(i, isEmail, Subject);
    ContactReported(i, isEmail, Message);
  }

  lemma ContactIssueOutOfBounds(i: ContactInput, isEmail: string -> bool)
    requires ContactIssues(i, isEmail) != []
    ensures !ContactInBounds(i, isEmail)
  {
    var p := ContactIssues(i, isEmail)[0];
    assert p in ContactIssues(i, isEmail);
    ContactReported(i, isEmail, p);
  }

  // ----- FileUploadSchema -----

  /** The upload's size in bytes (None when `file` or its `size` is missing) and its declared type. */
  datatype FileUploadInput = FileUploadInput(size: Option<int>, fileType: string)

  const MaxUploadBytes := 5 * 1024 * 1024

  const FileUploadPaths: seq<Path> := [File, Type]

  /** Whether the check on field `p` of `FileUploadSchema` fails: `undefined <= n` is false, so a missing size fails. */
  predicate FileUploadFails(i: FileUploadInput, p: Path) {
    match p
    case File => i.size.None? || i.size.value > MaxUploadBytes
    case Type => i.fileType !in {"image", "document"}
    case _ => false
  }

  function FileUploadCheck(i: FileUploadInput): (r: Path -> bool) {
    p => FileUploadFails(i, p)
  }

  function FileUploadIssues(i: FileUploadInput): (r: seq<Path>) {
    Issues(FileUploadPaths, FileUploadCheck(i))
  }

  lemma FileUploadReported(i: FileUploadInput, p: Path)
    ensures p in FileUploadIssues(i) <==> p in FileUploadPaths && FileUploadFails(i, p)
  {
    IssuesMember(FileUploadPaths, FileUploadCheck(i), p);
  }

  /**
   * An upload passes exactly when it has a size of at most 5 MiB and is an
   * image or a document; a file of exactly 5 MiB passes although the message
   * says "less than 5MB".
   */
  lemma FileUploadAccepted(i: FileUploadInput)
    ensures FileUploadIssues(i) == [] <==>
      i.size.Some? && i.size.value <= MaxUploadBytes && i.fileType in {"image", "document"}
    ensures i.size == Some(MaxUploadBytes) && i.fileType == "image" ==> FileUploadIssues(i) == []
  {
    var issues := FileUploadIssues(i);
    if issues == [] {
      FileUploadReported(i, File);
      FileUploadReported(i, Type);
    } else {
      var p := issues[0];
      assert p in issues;
      FileUploadReported(i, p);
    }
  }

  // ----- The update schemas: `.partial()` of a create schema -----

  /**
   * `ProductUpdateSchema = ProductCreateSchema.partial()`: every field is
   * optional, a given field keeps its check, and no default is filled in.
   */
  datatype ProductUpdateInput = ProductUpdateInput(
    name: Option<string>, slug: Option<string>, description: Option<string>, price: Option<int>,
    currency: Option<string>, images: Option<seq<string>>, categoryId: Option<string>, stockQuantity: Option<int>)

  /** Whether the check on field `p` of `ProductUpdateSchema` fails. */
  predicate ProductUpdateFails(i: ProductUpdateInput, isUrl: string -> bool, isUuid: string -> bool, p: Path) {
    match p
    case Name => i.name.Some? && !LengthIn(i.name.value, 1, 200)
    case Slug => i.slug.Some? && !LengthIn(i.slug.value, 1, 200)
    case Description => i.description.Some? && !LengthIn(i.description.value, 1, 2000)
    case Price => i.price.Some? && i.price.value < 0
    case Currency => i.currency.Some? && |i.currency.value| != 3
    case Images => i.images.Some? && (|i.images.value| < 1 || !AllUrls(i.images.value, isUrl))
    case CategoryId => i.categoryId.Some? && !isUuid(i.categoryId.value)
    case StockQuantity => i.stockQuantity.Some? && i.stockQuantity.value < 0
    case _ => false
  }

  function ProductUpdateCheck(i: ProductUpdateInput, isUrl: string -> bool, isUuid: string -> bool): (r: Path -> bool) {
    p => ProductUpdateFails(i, isUrl, isUuid, p)
  }

  function ProductUpdateIssues(i: ProductUpdateInput, isUrl: string -> bool, isUuid: string -> bool): (r: seq<Path>) {
    Issues(ProductCreatePaths, ProductUpdateCheck(i, isUrl, isUuid))
  }

  lemma ProductUpdateReported(i: ProductUpdateInput, isUrl: string -> bool, isUuid: string -> bool, p: Path)
    ensures p in ProductUpdateIssues(i, isUrl, isUuid) <==> p in ProductCreatePaths && ProductUpdateFails(i, isUrl, isUuid, p)
  {
    IssuesMember(ProductCreatePaths, ProductUpdateCheck(i, isUrl, isUuid), p);
  }

  /** A create input with every field given, as an update. */
  function ProductAsUpdate(i: ProductCreateInput): (r: ProductUpdateInput) {
    ProductUpdateInput(Some(i.name), i.slug, Some(i.description), Some(i.price), i.currency, Some(i.images),
                       Some(i.categoryId), i.stockQuantity)
  }

  /** A field given in an update is checked exactly as on creation. */
  lemma ProductUpdateKeepsChecks(i: ProductCreateInput, isUrl: string -> bool, isUuid: string -> bool, p: Path)
    ensures p in ProductUpdateIssues(ProductAsUpdate(i), isUrl, isUuid) <==> p in ProductCreateIssues(i, isUrl, isUuid)
  {
    ProductUpdateReported(ProductAsUpdate(i), isUrl, isUuid, p);
    ProductCreateReported(i, isUrl, isUuid, p);
  }

  /** An empty product update raises no issue: every field of the partial schema may be left out. */
  lemma EmptyProductUpdate(isUrl: string -> bool, isUuid: string -> bool)
    ensures ProductUpdateIssues(ProductUpdateInput(None, None, None, None, None, None, None, None), isUrl, isUuid) == []
  {
    var i := ProductUpdateInput(None, None, None, None, None, None, None, None);
    NoIssues(ProductCreatePaths, ProductUpdateCheck(i, isUrl, isUuid));
  }

  /** `ReviewUpdateSchema = ReviewCreateSchema.partial().omit({productId: true})`. */
  datatype ReviewUpdateInput = ReviewUpdateInput(
    rating: Option<int>, title: Option<string>, text: Option<string>, images: Option<seq<string>>)

  const ReviewUpdatePaths: seq<Path> := [Rating, Title, Text, Images]

  /** Whether the check on field `p` of `ReviewUpdateSchema` fails. */
  predicate ReviewUpdateFails(i: ReviewUpdateInput, isUrl: string -> bool, p: Path) {
    match p
    case Rating => i.rating.Some? && !Between(i.rating.value, 1, 5)
    case Title => i.title.Some? && |i.title.value| > 100
    case Text => i.text.Some? && !LengthIn(i.text.value, 10, 1000)
    case Images => i.images.Some? && (|i.images.value| > 5 || !AllUrls(i.images.value, isUrl))
    case _ => false
  }

  function ReviewUpdateCheck(i: ReviewUpdateInput, isUrl: string -> bool): (r: Path -> bool) {
    p => ReviewUpdateFails(i, isUrl, p)
  }

  function ReviewUpdateIssues(i: ReviewUpdateInput, isUrl: string -> bool): (r: seq<Path>) {
    Issues(ReviewUpdatePaths, ReviewUpdateCheck(i, isUrl))
  }

  lemma ReviewUpdateReported(i: ReviewUpdateInput, isUrl: string -> bool, p: Path)
    ensures p in ReviewUpdateIssues(i, isUrl) <==> p in ReviewUpdatePaths && ReviewUpdateFails(i, isUrl, p)
  {
    IssuesMember(ReviewUpdatePaths, ReviewUpdateCheck(i, isUrl), p);
  }

  function ReviewAsUpdate(i: ReviewCreateInput): (r: ReviewUpdateInput) {
    ReviewUpdateInput(Some(i.rating), i.title, Some(i.text), i.images)
  }

  /** A review field given in an update is checked as on creation; the product id is no longer a field. */
  lemma ReviewUpdateKeepsChecks(i: ReviewCreateInput, isUrl: string -> bool, isUuid: string -> bool, p: Path)
    ensures p in ReviewUpdateIssues(ReviewAsUpdate(i), isUrl) <==> p in ReviewCreateIssues(i, isUrl, isUuid) && p != ProductId
  {
    ReviewUpdateReported(ReviewAsUpdate(i), isUrl, p);
    ReviewCreateReported(i, isUrl, isUuid, p);
  }

  /** `CategoryUpdateSchema = CategoryCreateSchema.partial()`. */
  datatype CategoryUpdateInput = CategoryUpdateInput(
    name: Option<string>, slug: Option<string>, description: Option<string>, image: Option<string>,
    parentId: Option<string>, sortOrder: Option<int>)

  /** Whether the check on field `p` of `CategoryUpdateSchema` fails. */
  predicate CategoryUpdateFails(i: CategoryUpdateInput, isUrl: string -> bool, isUuid: string -> bool, p: Path) {
    match p
    case Name => i.name.Some? && !LengthIn(i.name.value, 1, 100)
    case Slug => i.slug.Some? && !LengthIn(i.slug.value, 1, 100)
    case Description => i.description.Some? && |i.description.value| > 500
    case Image => i.image.Some? && !isUrl(i.image.value)
    case ParentId => i.parentId.Some? && !isUuid(i.parentId.value)
    case SortOrder => i.sortOrder.Some? && i.sortOrder.value < 0
    case _ => false
  }

  function CategoryUpdateCheck(i: CategoryUpdateInput, isUrl: string -> bool, isUuid: string -> bool): (r: Path -> bool) {
    p => CategoryUpdateFails(i, isUrl, isUuid, p)
  }

  function CategoryUpdateIssues(i: CategoryUpdateInput, isUrl: string -> bool, isUuid: string -> bool): (r: seq<Path>) {
    Issues(CategoryCreatePaths, CategoryUpdateCheck(i, isUrl, isUuid))
  }

  lemma CategoryUpdateReported(i: CategoryUpdateInput, isUrl: string -> bool, isUuid: string -> bool, p: Path)
    ensures p in CategoryUpdateIssues(i, isUrl, isUuid) <==>
      p in CategoryCreatePaths && CategoryUpdateFails(i, isUrl, isUuid, p)
  {
    IssuesMember(CategoryCreatePaths, CategoryUpdateCheck(i, isUrl, isUuid), p);
  }

  function CategoryAsUpdate(i: CategoryCreateInput): (r: CategoryUpdateInput) {
    CategoryUpdateInput(Some(i.name), i.slug, i.description, i.image, i.parentId, i.sortOrder)
  }

  /** A category field given in an update is checked exactly as on creation. */
  lemma CategoryUpdateKeepsChecks(i: CategoryCreateInput, isUrl: string -> bool, isUuid: string -> bool, p: Path)
    ensures p in CategoryUpdateIssues(CategoryAsUpdate(i), isUrl, isUuid) <==> p in CategoryCreateIssues(i, isUrl, isUuid)
  {
    CategoryUpdateReported(CategoryAsUpdate(i), isUrl, isUuid, p);
    CategoryCreateReported(i, isUrl, isUuid, p);
  }

  /** `CouponUpdateSchema = CouponCreateSchema.partial().omit({code: true})`. */
  datatype CouponUpdateInput = CouponUpdateInput(
    couponType: Option<string>, value: Option<int>, minimumAmount: Option<int>, usageLimit: Option<int>,
    isActive: Option<bool>)

  const CouponUpdatePaths: seq<Path> := [Type, Value, MinimumAmount, UsageLimit]

  /** Whether the check on field `p` of `CouponUpdateSchema` fails. */
  predicate CouponUpdateFails(i: CouponUpdateInput, p: Path) {
    match p
    case Type => i.couponType.Some? && i.couponType.value !in {"PERCENTAGE", "FIXED_AMOUNT"}
    case Value => i.value.Some? && i.value.value < 0
    case MinimumAmount => i.minimumAmount.Some? && i.minimumAmount.value < 0
    case UsageLimit => i.usageLimit.Some? && i.usageLimit.value < 1
    case _ => false
  }

  function CouponUpdateCheck(i: CouponUpdateInput): (r: Path -> bool) {
    p => CouponUpdateFails(i, p)
  }

  function CouponUpdateIssues(i: CouponUpdateInput): (r: seq<Path>) {
    Issues(CouponUpdatePaths, CouponUpdateCheck(i))
  }

  lemma CouponUpdateReported(i: CouponUpdateInput, p: Path)
    ensures p in CouponUpdateIssues(i) <==> p in CouponUpdatePaths && CouponUpdateFails(i, p)
  {
    IssuesMember(CouponUpdatePaths, CouponUpdateCheck(i), p);
  }

  function CouponAsUpdate(i: CouponCreateInput): (r: CouponUpdateInput) {
    CouponUpdateInput(Some(i.couponType), Some(i.value), i.minimumAmount, i.usageLimit, i.isActive)
  }

  /** A coupon field given in an update is checked as on creation; the code can no longer be changed. */
  lemma CouponUpdateKeepsChecks(i: CouponCreateInput, p: Path)
    ensures p in CouponUpdateIssues(CouponAsUpdate(i)) <==> p in CouponCreateIssues(i) && p != Code
  {
    CouponUpdateReported(CouponAsUpdate(i), p);
    CouponCreateReported(i, p);
  }
}
