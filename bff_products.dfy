/**
 * The BFF's mock `ProductService`: a fixed list of products answered with
 * `filter`, `slice` and `find`. The simulated network delay is not modelled.
 * Each query is a function of the stored list, which no query changes.
 */
module BffProducts {
  import opened Wrappers
  import opened JsText
  import opened Seqs

  /** The GraphQL `Product` (price in cents); the float `rating` and the dates are not modelled. */
  datatype Product = Product(
    id: string,
    name: string,
    slug: string,
    description: string,
    price: int,
    currency: string,
    images: seq<string>,
    categoryId: string,
    inStock: bool,
    stockQuantity: int,
    reviewCount: int)

  /** `ProductsInput`; an absent input is the one with every field `None`. */
  datatype ProductsInput = ProductsInput(category: Option<string>, search: Option<string>, limit: Option<int>, offset: Option<int>)

  const NoInput := ProductsInput(None, None, None, None)

  /** The four products the service starts with. */
  const Seed: seq<Product> := [
    Product("1", "Smartphone Premium", "smartphone-premium",
            "Un smartphone haut de gamme avec toutes les dernières fonctionnalités",
            89900, "EUR", ["https://images.pexels.com/photos/607812/pexels-photo-607812.jpeg"],
            "electronics", true, 50, 124),
    Product("2", "Casque Audio Pro", "casque-audio-pro",
            "Casque audio professionnel avec réduction de bruit active",
            29900, "EUR", ["https://images.pexels.com/photos/3394650/pexels-photo-3394650.jpeg"],
            "electronics", true, 30, 89),
    Product("3", "Montre Connectée", "montre-connectee",
            "Montre intelligente avec suivi fitness et notifications",
            39900, "EUR", ["https://images.pexels.com/photos/437037/pexels-photo-437037.jpeg"],
            "electronics", true, 25, 203),
    Product("4", "Laptop Gaming", "laptop-gaming",
            "Ordinateur portable gaming haute performance",
            129900, "EUR", ["https://images.pexels.com/photos/18105/pexels-photo.jpg"],
            "electronics", true, 15, 156)
  ]

  /** A string field counts as given only when truthy (non-empty). */
  predicate Given(s: Option<string>) { s.Some? && s.value != "" }

  /** The lower-cased name or description contains the lower-cased term. */
  predicate MatchesSearch(p: Product, term: string) {
    Contains(ToLower(p.name), ToLower(term)) || Contains(ToLower(p.description), ToLower(term))
  }

  /** What the two filters of `findAll` ask of a product, stated independently of their order. */
  predicate Selected(p: Product, input: ProductsInput) {
    && (Given(input.category) ==> p.categoryId == input.category.value)
    && (Given(input.search) ==> MatchesSearch(p, input.search.value))
  }

  /** `p => p.categoryId === category`. */
  function InCategory(category: string): (r: Product -> bool) {
    (p: Product) => p.categoryId == category
  }

  /** The search callback for a term. */
  function Hits(term: string): (r: Product -> bool) {
    (p: Product) => MatchesSearch(p, term)
  }

  /** The category filter, applied when `input.category` is truthy. */
  function ByCategory(products: seq<Product>, input: ProductsInput): (r: seq<Product>) {
    if Given(input.category) then Filter(products, InCategory(input.category.value))
    else products
  }

  /** The search filter, applied when `input.search` is truthy. */
  function BySearch(products: seq<Product>, input: ProductsInput): (r: seq<Product>) {
    if Given(input.search) then Filter(products, Hits(input.search.value))
    else products
  }

  /** `result.slice(0, input.limit)` when the limit is truthy (non-zero). */
  function ByLimit(products: seq<Product>, input: ProductsInput): (r: seq<Product>) {
    if input.limit.Some? && input.limit.value != 0 then Slice(products, 0, input.limit.value)
    else products
  }

  /** `findAll(input)`: category filter, then search filter, then limit; `offset` is ignored. */
  function FindAll(products: seq<Product>, input: ProductsInput): (r: seq<Product>) {
    ByLimit(BySearch(ByCategory(products, input), input), input)
  }

  /** The two filters in sequence keep exactly the selected products, in stored order. */
  lemma FiltersAreSelection(products: seq<Product>, input: ProductsInput)
    ensures BySearch(ByCategory(products, input), input) == Filter(products, (p: Product) => Selected(p, input))
  {
    var sel := (p: Product) => Selected(p, input);
    if Given(input.category) && Given(input.search) {
      FilterFilter(products, InCategory(input.category.value), Hits(input.search.value), sel);
    } else if Given(input.category) {
      FilterExt(products, InCategory(input.category.value), sel);
    } else if Given(input.search) {
      FilterExt(products, Hits(input.search.value), sel);
    } else {
      FilterAll(products, sel);
    }
  }

  /** With no input `findAll` returns the whole list in stored order. */
  lemma FindAllNoInput(products: seq<Product>)
    ensures FindAll(products, NoInput) == products
  {
  }

  /**
   * Without a truthy limit `findAll` returns exactly the selected products in
   * stored order; a positive limit keeps the first `limit` of them and a
   * negative one drops that many from the end, as `slice` does. The offset
   * never matters.
   */
  lemma FindAllSpec(products: seq<Product>, input: ProductsInput)
    ensures var sel := Filter(products, (p: Product) => Selected(p, input));
      var r := FindAll(products, input);
      && (input.limit.None? || input.limit.value == 0 ==> r == sel)
      && (input.limit.Some? && input.limit.value > 0 ==>
            r == sel[..if input.limit.value < |sel| then input.limit.value else |sel|])
      && (input.limit.Some? && input.limit.value < 0 ==>
            r == sel[..if |sel| + input.limit.value > 0 then |sel| + input.limit.value else 0])
      && r == FindAll(products, input.(offset := None))
  {
    FiltersAreSelection(products, input);
  }

  /**
   * Every result is selected, and the result is an order-preserving
   * subsequence of the stored list.
   */
  lemma FindAllSubseq(products: seq<Product>, input: ProductsInput)
    ensures var r := FindAll(products, input);
      && Subseq(r, products)
      && forall i | 0 <= i < |r| :: Selected(r[i], input)
  {
    var sel := Filter(products, (p: Product) => Selected(p, input));
    FiltersAreSelection(products, input);
    FilterSubseq(products, (p: Product) => Selected(p, input));
    var r := FindAll(products, input);
    if input.limit.Some? && input.limit.value != 0 {
      var k := |r|;
      assert r == sel[..k];
      PrefixSubseq(sel, k);
      SubseqTrans(r, sel, products);
    }
  }

  /** The two fields the service looks products up by. */
  datatype LookupKey = ById | BySlug

  function KeyOf(p: Product, key: LookupKey): (r: string) {
    match key
    case ById => p.id
    case BySlug => p.slug
  }

  /** `products.find(p => p[key] === value)`: the first product whose key field is `value`, or null. */
  function FindBy(products: seq<Product>, key: LookupKey, value: string): (r: Option<Product>)
    ensures r.Some? ==> r.value in products && KeyOf(r.value, key) == value
    ensures r.None? <==> forall p | p in products :: KeyOf(p, key) != value
  {
    Find(products, (p: Product) => KeyOf(p, key) == value)
  }

  /** The lookup returns the first match in stored order. */
  lemma FindByIsFirst(products: seq<Product>, key: LookupKey, value: string)
    ensures FindBy(products, key, value).Some? ==>
      exists i | 0 <= i < |products| :: products[i] == FindBy(products, key, value).value
        && forall j | 0 <= j < i :: KeyOf(products[j], key) != value
  {
    if FindBy(products, key, value).Some? {
      FindIsFirst(products, (p: Product) => KeyOf(p, key) == value);
    }
  }

  /** `findById(id)`. */
  function FindById(products: seq<Product>, id: string): (r: Option<Product>)
    ensures r.Some? ==> r.value in products && r.value.id == id
    ensures r.None? <==> forall p | p in products :: p.id != id
  {
    FindBy(products, ById, id)
  }

  /** `findBySlug(slug)`. */
  function FindBySlug(products: seq<Product>, slug: string): (r: Option<Product>)
    ensures r.Some? ==> r.value in products && r.value.slug == slug
    ensures r.None? <==> forall p | p in products :: p.slug != slug
  {
    FindBy(products, BySlug, slug)
  }

  /** Both lookups return the first match in stored order. */
  lemma LookupsAreFirst(products: seq<Product>, id: string, slug: string)
    ensures FindById(products, id).Some? ==>
      exists i | 0 <= i < |products| :: products[i] == FindById(products, id).value
        && forall j | 0 <= j < i :: products[j].id != id
    ensures FindBySlug(products, slug).Some? ==>
      exists i | 0 <= i < |products| :: products[i] == FindBySlug(products, slug).value
        && forall j | 0 <= j < i :: products[j].slug != slug
  {
    FindByIsFirst(products, ById, id);
    FindByIsFirst(products, BySlug, slug);
  }

  /** In the seed list, ids and slugs pick out one product each. */
  lemma SeedLookups()
    ensures FindById(Seed, "2") == Some(Seed[1]) && FindBySlug(Seed, "laptop-gaming") == Some(Seed[3])
    ensures FindById(Seed, "5").None?
  {
    SeedIdTwo();
    SeedSlugLaptop();
    SeedNoIdFive();
  }

  lemma SeedIdTwo()
    ensures FindById(Seed, "2") == Some(Seed[1])
  {
    assert Seed[0].id != "2" && Seed[1].id == "2";
  }

  lemma SeedSlugLaptop()
    ensures FindBySlug(Seed, "laptop-gaming") == Some(Seed[3])
  {
    assert Seed[0].slug[0] == 's' && Seed[1].slug[0] == 'c' && Seed[2].slug[0] == 'm';
    assert Seed[3].slug == "laptop-gaming";
  }

  lemma SeedNoIdFive()
    ensures FindById(Seed, "5").None?
  {
    assert forall p | p in Seed :: p.id != "5";
  }
}
