/**
 * The product records of the dataset and the three lookups over them:
 * `searchProducts`, `getProductByName` and `getProductsForSkinType`. The
 * dataset itself is an input here: every lookup takes the product sequence.
 */
module Catalog {
  import opened Text
  import opened Collections

  /** A `CosmeticProduct` record, without its `rank`. */
  datatype Product = Product(
    id: string,
    brand: string,
    name: string,
    price: string,
    ingredients: string,
    combination: bool,
    dry: bool,
    normal: bool,
    oily: bool,
    sensitive: bool,
    productType: string)

  /** The five skin types a product is flagged for. */
  datatype SkinType = Combination | Dry | Normal | Oily | Sensitive

  /** `product[skinType] === true`. */
  function Flag(p: Product, skinType: SkinType): bool
  {
    match skinType
    case Combination => p.combination
    case Dry => p.dry
    case Normal => p.normal
    case Oily => p.oily
    case Sensitive => p.sensitive
  }

  /** `!type || product.product_type === type`: an absent or empty type matches every product. */
  predicate TypeMatches(p: Product, productType: Option<string>)
  {
    productType == None || productType.value == "" || p.productType == productType.value
  }

  /** The name or the brand contains the query, ignoring case. */
  predicate NameOrBrandMatches(p: Product, query: string)
  {
    Includes(Lower(p.name), Lower(query)) || Includes(Lower(p.brand), Lower(query))
  }

  function SearchTest(query: string, productType: Option<string>): Product -> bool
  {
    (p: Product) => NameOrBrandMatches(p, query) && TypeMatches(p, productType)
  }

  const SearchLimit := 20

  /** `searchProducts(query, type)`. */
  function SearchProducts(products: seq<Product>, query: string, productType: Option<string>): (r: seq<Product>)
    ensures |r| <= SearchLimit
  {
    Take(Filter(products, SearchTest(query, productType)), SearchLimit)
  }

  /**
   * Search results are products of the dataset, in dataset order, whose
   * name or brand contains the query and whose type matches; when fewer
   * than 20 come back, every matching product is among them.
   */
  lemma SearchProductsSpec(products: seq<Product>, query: string, productType: Option<string>)
    ensures var r := SearchProducts(products, query, productType);
      && IsSubseq(r, products)
      && (forall p :: p in r ==> NameOrBrandMatches(p, query) && TypeMatches(p, productType))
      && (|r| < SearchLimit ==>
            forall p :: p in products && NameOrBrandMatches(p, query) && TypeMatches(p, productType) ==> p in r)
  {
    TakeFilter(products, SearchTest(query, productType), SearchLimit);
  }

  predicate ExactName(p: Product, name: string)
  {
    Lower(p.name) == Lower(name)
  }

  predicate PartialName(p: Product, name: string)
  {
    Includes(Lower(p.name), Lower(name))
  }

  function ExactTest(name: string): Product -> bool
  {
    (p: Product) => ExactName(p, name)
  }

  function PartialTest(name: string): Product -> bool
  {
    (p: Product) => PartialName(p, name)
  }

  /** `getProductByName(name)`: the first exact case-insensitive match, else the first partial one. */
  function GetProductByName(products: seq<Product>, name: string): Option<Product>
  {
    match Find(products, ExactTest(name))
    case Some(p) => Some(p)
    case None => Find(products, PartialTest(name))
  }

  /**
   * When some product's name equals the query ignoring case, the first such
   * product is returned; otherwise the first product whose name contains
   * the query; and nothing exactly when no name contains it.
   */
  lemma GetProductByNameSpec(products: seq<Product>, name: string)
    ensures var r := GetProductByName(products, name);
      && ((exists i :: 0 <= i < |products| && ExactName(products[i], name)) ==>
            r.Some? && IsFirst(products, ExactTest(name), r.value))
      && ((forall i :: 0 <= i < |products| ==> !ExactName(products[i], name)) ==>
            r.Some? ==> IsFirst(products, PartialTest(name), r.value))
      && (r == None <==> forall i :: 0 <= i < |products| ==> !PartialName(products[i], name))
  {
    FindSpec(products, ExactTest(name));
    FindSpec(products, PartialTest(name));
    forall i | 0 <= i < |products| && ExactName(products[i], name) ensures PartialName(products[i], name) {
      IncludesSelf(Lower(name));
    }
  }

  function SkinTest(skinType: SkinType, productType: Option<string>): Product -> bool
  {
    (p: Product) => Flag(p, skinType) && TypeMatches(p, productType)
  }

  const SkinTypeLimit := 10

  /** `getProductsForSkinType(skinType, productType)`. */
  function GetProductsForSkinType(products: seq<Product>, skinType: SkinType, productType: Option<string>): (r: seq<Product>)
    ensures |r| <= SkinTypeLimit
  {
    Take(Filter(products, SkinTest(skinType, productType)), SkinTypeLimit)
  }

  /**
   * The products returned are flagged for the skin type and of the type
   * asked for, in dataset order; fewer than 10 means all such products.
   */
  lemma GetProductsForSkinTypeSpec(products: seq<Product>, skinType: SkinType, productType: Option<string>)
    ensures var r := GetProductsForSkinType(products, skinType, productType);
      && IsSubseq(r, products)
      && (forall p :: p in r ==> Flag(p, skinType) && TypeMatches(p, productType))
      && (|r| < SkinTypeLimit ==>
            forall p :: p in products && Flag(p, skinType) && TypeMatches(p, productType) ==> p in r)
  {
    TakeFilter(products, SkinTest(skinType, productType), SkinTypeLimit);
  }
}
