/**
 * The shapes of the catalog data (src/types/product.types.ts): what the
 * GraphQL products query returns, and the flattened records the transformer
 * produces from it.
 */
module ShopTypes {
  import opened Wrappers

  /** A namespaced custom attribute; `valueType` is the declared type of its value (`type` in the API). */
  datatype Metafield = Metafield(namespace: string, key: string, value: string, valueType: string)

  datatype MetafieldEdge = MetafieldEdge(node: Metafield)

  /** `metafields` stands for the `metafields.edges` connection. */
  datatype Variant = Variant(
    id: string,
    title: string,
    sku: Option<string>,
    price: string,
    inventoryQuantity: int,
    metafields: seq<MetafieldEdge>)

  datatype VariantEdge = VariantEdge(node: Variant)

  datatype Image = Image(id: string, url: string, altText: Option<string>, width: int, height: int)

  datatype ImageEdge = ImageEdge(node: Image)

  /**
   * A product as the products query returns it. `images` is the
   * `images.edges` connection, which the transformer reads but which the
   * declared Product type and the query do not have: `None` is a product
   * whose response carries no images field at all.
   */
  datatype Product = Product(
    id: string,
    title: string,
    handle: string,
    status: string,
    productType: string,
    vendor: string,
    tags: seq<string>,
    metafields: seq<MetafieldEdge>,
    variants: seq<VariantEdge>,
    images: Option<seq<ImageEdge>>)

  datatype ProductEdge = ProductEdge(node: Product)

  datatype PageInfo = PageInfo(hasNextPage: bool, endCursor: Option<string>)

  /** The `data.products` part of one page of the products query. */
  datatype ProductsResponse = ProductsResponse(edges: seq<ProductEdge>, pageInfo: PageInfo)

  /** A parsed JSON value; numbers are kept as their source text. */
  datatype Json =
    | JNull
    | JBool(b: bool)
    | JNumber(text: string)
    | JString(s: string)
    | JArray(items: seq<Json>)
    | JObject(members: seq<(string, Json)>)

  /**
   * A flattened metafield value: the raw string, or the parsed JSON of a
   * structured metafield.
   */
  datatype MetafieldValue = Raw(text: string) | Parsed(json: Json)

  /** Metafields keyed by `namespace + "." + key`. */
  type TransformedMetafields = map<string, MetafieldValue>

  datatype TransformedVariant = TransformedVariant(
    id: string,
    title: string,
    sku: Option<string>,
    price: string,
    inventoryQuantity: int,
    metafields: TransformedMetafields)

  datatype TransformedImage = TransformedImage(id: string, url: string, altText: Option<string>, width: int, height: int)

  datatype TransformedProduct = TransformedProduct(
    id: string,
    title: string,
    handle: string,
    status: string,
    productType: string,
    vendor: string,
    tags: seq<string>,
    images: seq<TransformedImage>,
    metafields: TransformedMetafields,
    variants: seq<TransformedVariant>)

  /** Options of one catalog fetch; every field may be absent. */
  datatype FetchOptions = FetchOptions(cursor: Option<string>, limit: Option<int>, maxProducts: Option<int>)
}
