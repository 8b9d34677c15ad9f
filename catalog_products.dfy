/**
 * The catalog's `ProductService` and its request bodies. Stock updates clamp
 * the quantity at 0 and derive `inStock` from it; `update` copies the fields
 * present in the body onto the stored product; `findAll` fills in query
 * defaults and reports page metadata. The SQL query itself runs in the
 * database: its rows and total count are parameters here, and the model
 * states the query's parameters.
 */
module CatalogProducts {
  import opened Wrappers
  import opened JsText

  /** A row of the `products` table (prices in cents). */
  datatype Product = Product(
    id: string,
    slug: string,
    name: string,
    description: string,
    price: int,
    currency: string,
    images: seq<string>,
    categoryId: string,
    inStock: bool,
    stockQuantity: int)

  datatype Error = NotFound(message: string)

  // ----- request bodies -----

  /** `FindProductsDto`; `sortOrder` is the raw value before its upper-casing transform. */
  datatype FindProductsDto = FindProductsDto(
    search: Option<string>,
    category: Option<string>,
    limit: Option<int>,
    offset: Option<int>,
    sortBy: Option<string>,
    sortOrder: Option<string>)

  const SortFields: set<string> := {"name", "price", "createdAt", "updatedAt"}

  /** The `@Transform(value.toUpperCase())` applied before validation. */
  function NormalizedSortOrder(d: FindProductsDto): (r: Option<string>) {
    match d.sortOrder
    case None => None
    case Some(s) => Some(ToUpper(s))
  }

  /** The properties of a `FindProductsDto` that fail validation. */
  function FindViolations(d: FindProductsDto): (r: seq<string>)
    ensures "limit" in r <==> d.limit.Some? && d.limit.value < 1
    ensures "offset" in r <==> d.offset.Some? && d.offset.value < 0
    ensures "sortBy" in r <==> d.sortBy.Some? && d.sortBy.value !in SortFields
    ensures "sortOrder" in r <==> d.sortOrder.Some? && ToUpper(d.sortOrder.value) !in {"ASC", "DESC"}
    ensures "search" !in r && "category" !in r
  {
    FailIf(d.limit.Some? && d.limit.value < 1, "limit")
      + FailIf(d.offset.Some? && d.offset.value < 0, "offset")
      + FailIf(d.sortBy.Some? && d.sortBy.value !in SortFields, "sortBy")
      + FailIf(d.sortOrder.Some? && ToUpper(d.sortOrder.value) !in {"ASC", "DESC"}, "sortOrder")
  }

  predicate ValidFind(d: FindProductsDto) {
    FindViolations(d) == []
  }

  /** A valid query has a positive limit and a non-negative offset when given, and known sort values. */
  lemma {:induction false} ValidFindMeans(d: FindProductsDto)
    ensures ValidFind(d) <==>
      && (d.limit.None? || d.limit.value >= 1)
      && (d.offset.None? || d.offset.value >= 0)
      && (d.sortBy.None? || d.sortBy.value in SortFields)
      && (d.sortOrder.None? || ToUpper(d.sortOrder.value) in {"ASC", "DESC"})
  {
    var r := FindViolations(d);
    if r != [] {
      assert r[0] in r;
    }
  }

  /** Any casing of "asc" passes and reaches the service as "ASC". */
  lemma LowerCaseSortOrderAccepted(d: FindProductsDto)
    requires d.sortOrder == Some("asc") && d.limit.None? && d.offset.None? && d.sortBy.None?
    ensures ValidFind(d) && NormalizedSortOrder(d) == Some("ASC")
  {
    assert ToUpper("asc") == "ASC";
  }

  /** `CreateProductDto`; `images` is an array of strings by its type. */
  datatype CreateProductDto = CreateProductDto(
    name: string,
    slug: Option<string>,
    description: string,
    price: int,
    currency: Option<string>,
    images: seq<string>,
    categoryId: string,
    inStock: Option<bool>,
    stockQuantity: Option<int>)

  const MaxNameLength: nat := 100
  const MaxDescriptionLength: nat := 2000

  /** The properties of a `CreateProductDto` that fail validation. */
  function CreateProductViolations(d: CreateProductDto, isUuid: string -> bool): (r: seq<string>)
    ensures "name" in r <==> |d.name| > MaxNameLength
    ensures "description" in r <==> |d.description| > MaxDescriptionLength
    ensures "price" in r <==> d.price < 0
    ensures "categoryId" in r <==> !isUuid(d.categoryId)
    ensures "stockQuantity" in r <==> d.stockQuantity.Some? && d.stockQuantity.value < 0
  {
    FailIf(|d.name| > MaxNameLength, "name")
      + FailIf(|d.description| > MaxDescriptionLength, "description")
      + FailIf(d.price < 0, "price")
      + FailIf(!isUuid(d.categoryId), "categoryId")
      + FailIf(d.stockQuantity.Some? && d.stockQuantity.value < 0, "stockQuantity")
  }

  /** The slug, currency and images carry only type checks, so they are never reported. */
  lemma CreateProductTypedOnly(d: CreateProductDto, isUuid: string -> bool)
    ensures var r := CreateProductViolations(d, isUuid);
      "slug" !in r && "currency" !in r && "images" !in r
  {
    var r := CreateProductViolations(d, isUuid);
    var names := ["name", "description", "price", "categoryId", "stockQuantity"];
    assert forall x | x in r :: x in names;
    assert "slug"[0] != "name"[0];
    assert "slug" !in names && "currency" !in names && "images" !in names;
  }

  /** `UpdateProductDto`: every field of `CreateProductDto`, each optional. */
  datatype UpdateProductDto = UpdateProductDto(
    name: Option<string>,
    slug: Option<string>,
    description: Option<string>,
    price: Option<int>,
    currency: Option<string>,
    images: Option<seq<string>>,
    categoryId: Option<string>,
    inStock: Option<bool>,
    stockQuantity: Option<int>)

  // ----- findAll -----

  /** The parameters `findAll` gives the query builder. */
  datatype ProductQuery = ProductQuery(
    searchPattern: Option<string>,
    categorySlug: Option<string>,
    orderBy: string,
    order: string,
    limit: int,
    offset: int)

  /** `search` and `category` filter only when truthy; the rest take their defaults when missing. */
  function PlanQuery(d: FindProductsDto): (q: ProductQuery)
    ensures q.searchPattern.Some? <==> d.search.Some? && d.search.value != ""
    ensures q.searchPattern.Some? ==> q.searchPattern.value == "%" + d.search.value + "%"
    ensures q.categorySlug.Some? <==> d.category.Some? && d.category.value != ""
    ensures q.categorySlug.Some? ==> q.categorySlug == d.category
    ensures q.limit == d.limit.GetOr(20) && q.offset == d.offset.GetOr(0)
    ensures q.orderBy == "product." + d.sortBy.GetOr("createdAt")
    ensures q.order == NormalizedSortOrder(d).GetOr("DESC")
  {
    ProductQuery(
      if d.search.Some? && d.search.value != "" then Some("%" + d.search.value + "%") else None,
      if d.category.Some? && d.category.value != "" then d.category else None,
      "product." + d.sortBy.GetOr("createdAt"),
      NormalizedSortOrder(d).GetOr("DESC"),
      d.limit.GetOr(20),
      d.offset.GetOr(0))
  }

  datatype PageMeta = PageMeta(total: nat, limit: int, offset: int, pages: nat)

  datatype ProductPage = ProductPage(data: seq<Product>, meta: PageMeta)

  /**
   * The `findAll` response for a validated query, given the page of rows and
   * the total match count the database returned.
   */
  function FindAllResponse(d: FindProductsDto, rows: seq<Product>, total: nat): (r: ProductPage)
    requires ValidFind(d)
    ensures r.data == rows
    ensures r.meta.total == total && r.meta.limit == PlanQuery(d).limit && r.meta.offset == PlanQuery(d).offset
    ensures r.meta.limit >= 1 && r.meta.offset >= 0
    ensures (r.meta.pages - 1) * r.meta.limit < total <= r.meta.pages * r.meta.limit
  {
    var q := PlanQuery(d);
    ProductPage(rows, PageMeta(total, q.limit, q.offset, CeilDiv(total, q.limit)))
  }

  /** With no query values the defaults are limit 20, offset 0, newest first. */
  lemma FindAllDefaults(rows: seq<Product>, total: nat)
    ensures var d := FindProductsDto(None, None, None, None, None, None);
      && ValidFind(d)
      && PlanQuery(d) == ProductQuery(None, None, "product.createdAt", "DESC", 20, 0)
      && FindAllResponse(d, rows, total).meta.pages == CeilDiv(total, 20)
  {
  }

  // ----- update and updateStock -----

  /** `Object.assign(product, dto)`: the fields present in `d` overwrite, the others stay. */
  function ApplyUpdate(p: Product, d: UpdateProductDto): (r: Product)
    ensures r.id == p.id
    ensures r.name == d.name.GetOr(p.name) && r.slug == d.slug.GetOr(p.slug)
    ensures r.description == d.description.GetOr(p.description) && r.price == d.price.GetOr(p.price)
    ensures r.currency == d.currency.GetOr(p.currency) && r.images == d.images.GetOr(p.images)
    ensures r.categoryId == d.categoryId.GetOr(p.categoryId) && r.inStock == d.inStock.GetOr(p.inStock)
    ensures r.stockQuantity == d.stockQuantity.GetOr(p.stockQuantity)
  {
    p.(name := d.name.GetOr(p.name), slug := d.slug.GetOr(p.slug), description := d.description.GetOr(p.description),
       price := d.price.GetOr(p.price), currency := d.currency.GetOr(p.currency), images := d.images.GetOr(p.images),
       categoryId := d.categoryId.GetOr(p.categoryId), inStock := d.inStock.GetOr(p.inStock),
       stockQuantity := d.stockQuantity.GetOr(p.stockQuantity))
  }

  /** Applying the same update twice is the same as once; an empty update changes nothing. */
  lemma ApplyUpdateIdempotent(p: Product, d: UpdateProductDto)
    ensures ApplyUpdate(ApplyUpdate(p, d), d) == ApplyUpdate(p, d)
    ensures ApplyUpdate(p, UpdateProductDto(None, None, None, None, None, None, None, None, None)) == p
  {
  }

  /** The stock after `updateStock`: set, add or subtract (any other operation keeps it), then clamp at 0. */
  function StockAfter(current: int, quantity: int, operation: string): (r: int)
    ensures r >= 0
    ensures operation == "set" ==> r == Max0(quantity)
    ensures operation == "add" ==> r == Max0(current + quantity)
    ensures operation == "subtract" ==> r == Max0(current - quantity)
    ensures operation !in {"set", "add", "subtract"} ==> r == Max0(current)
  {
    var raw := if operation == "set" then quantity
               else if operation == "add" then current + quantity
               else if operation == "subtract" then current - quantity
               else current;
    Max0(raw)
  }

  /** `Math.max(0, x)`. */
  function Max0(x: int): (r: int)
    ensures r >= 0 && r >= x && (r == 0 || r == x)
  {
    if x < 0 then 0 else x
  }

  /** `updateStock` on the loaded product: only `stockQuantity` and `inStock` change. */
  function ApplyStock(p: Product, quantity: int, operation: string): (r: Product)
    ensures r.stockQuantity == StockAfter(p.stockQuantity, quantity, operation)
    ensures r.stockQuantity >= 0
    ensures r.inStock <==> r.stockQuantity > 0
    ensures r.(stockQuantity := p.stockQuantity, inStock := p.inStock) == p
  {
    var s := StockAfter(p.stockQuantity, quantity, operation);
    p.(stockQuantity := s, inStock := s > 0)
  }

  /**
   * Adding then subtracting the same amount restores a non-negative stock;
   * subtracting then adding does not when the subtraction was clamped.
   */
  lemma StockAddSubtract(p: Product, q: nat)
    requires p.stockQuantity >= 0
    ensures ApplyStock(ApplyStock(p, q, "add"), q, "subtract").stockQuantity == p.stockQuantity
    ensures q > p.stockQuantity ==> ApplyStock(ApplyStock(p, q, "subtract"), q, "add").stockQuantity == q
  {
  }

  class ProductService {
    /** The `products` table, by id. */
    var products: map<string, Product>

    ghost predicate Valid()
      reads this
    {
      forall id | id in products :: products[id].id == id
    }

    constructor ()
      ensures Valid() && products == map[]
    {
      products := map[];
    }

    /** `findOne(id)`: the product, or NotFound. */
    method FindOne(id: string) returns (r: Result<Product, Error>)
      ensures r.Success? <==> id in products
      ensures r.Success? ==> r.value == products[id]
      ensures r.Failure? ==> r.error == NotFound("Product with ID " + id + " not found")
    {
      if id in products {
        r := Success(products[id]);
      } else {
        r := Failure(NotFound("Product with ID " + id + " not found"));
      }
    }

    /** `findBySlug(slug)`: a product with that slug, or NotFound. */
    method FindBySlug(slug: string) returns (r: Result<Product, Error>)
      requires Valid()
      ensures r.Success? <==> exists id | id in products :: products[id].slug == slug
      ensures r.Success? ==> r.value.id in products && products[r.value.id] == r.value && r.value.slug == slug
      ensures r.Failure? ==> r.error == NotFound("Product with slug " + slug + " not found")
    {
      var todo := products.Keys;
      while todo != {}
        invariant todo <= products.Keys
        invariant forall id | id in products.Keys - todo :: products[id].slug != slug
        decreases |todo|
      {
        var id :| id in todo;
        if products[id].slug == slug {
          return Success(products[id]);
        }
        todo := todo - {id};
      }
      r := Failure(NotFound("Product with slug " + slug + " not found"));
    }

    /** `update(id, dto)`: NotFound, or the stored product with the present fields overwritten. */
    method Update(id: string, d: UpdateProductDto) returns (r: Result<Product, Error>)
      requires Valid()
      modifies this
      ensures Valid()
      ensures id !in old(products) ==> r.Failure? && products == old(products)
      ensures id in old(products) ==>
        r == Success(ApplyUpdate(old(products)[id], d)) && products == old(products)[id := r.value]
    {
      var found := FindOne(id);
      if found.Failure? {
        return found;
      }
      var p := ApplyUpdate(found.value, d);
      products := products[id := p];
      r := Success(p);
    }

    /** `updateStock(id, quantity, operation)`. */
    method UpdateStock(id: string, quantity: int, operation: string) returns (r: Result<Product, Error>)
      requires Valid()
      modifies this
      ensures Valid()
      ensures id !in old(products) ==> r.Failure? && products == old(products)
      ensures id in old(products) ==>
        r == Success(ApplyStock(old(products)[id], quantity, operation)) && products == old(products)[id := r.value]
    {
      var found := FindOne(id);
      if found.Failure? {
        return found;
      }
      var p := ApplyStock(found.value, quantity, operation);
      products := products[id := p];
      r := Success(p);
    }
  }
}
