/**
 * The response flattener (src/utils/transformer.ts): Shopify global ids are
 * shortened to their last path segment, metafield edges are folded into a
 * map keyed by `namespace.key`, and products and variants are copied field by
 * field into the flat output records.
 *
 * `JSON.parse` is not modelled; every operation that needs it takes it as the
 * parameter `parse`, which answers `None` where the real parser throws.
 */
module Transformer {
  import opened Wrappers
  import opened ShopTypes

  // ---------------------------------------------------------------------------
  // Global ids
  // ---------------------------------------------------------------------------

  /** `String.prototype.split` with a one-character separator. */
  function Split(s: string, sep: char): (parts: seq<string>)
    ensures |parts| >= 1
    ensures forall i :: 0 <= i < |parts| ==> sep !in parts[i]
    ensures Join(parts, sep) == s
  {
    if s == [] then [[]]
    else
      var rest := Split(s[1..], sep);
      if s[0] == sep then
        [[]] + rest
      else
        var parts := [[s[0]] + rest[0]] + rest[1..];
        assert parts[1..] == rest[1..];
        parts
  }

  /** `Array.prototype.join` with a one-character separator: Split undone. */
  function Join(parts: seq<string>, sep: char): string
    requires |parts| >= 1
  {
    if |parts| == 1 then parts[0] else parts[0] + [sep] + Join(parts[1..], sep)
  }

  /** Joining splits off the last part after the last separator. */
  lemma {:induction false} JoinLast(parts: seq<string>, sep: char)
    requires |parts| >= 2
    ensures Join(parts, sep) == Join(parts[..|parts| - 1], sep) + [sep] + parts[|parts| - 1]
  {
    if |parts| > 2 {
      JoinLast(parts[1..], sep);
      assert parts[1..][..|parts| - 2] == parts[..|parts| - 1][1..];
    }
  }

  /**
   * The last `/`-separated segment of a global id such as
   * `gid://shopify/Product/123`: the longest suffix without a `/`.
   */
  function ExtractId(gid: string): (id: string)
    ensures '/' !in id
    ensures |id| <= |gid| && gid[|gid| - |id|..] == id
    ensures |id| < |gid| ==> gid[|gid| - |id| - 1] == '/'
    ensures '/' !in gid ==> id == gid
  {
    var parts := Split(gid, '/');
    if |parts| == 1 then parts[0]
    else
      JoinLast(parts, '/');
      parts[|parts| - 1]
  }

  /** The three properties of ExtractId's contract pin its result down. */
  lemma ExtractIdUnique(gid: string, id: string)
    requires '/' !in id
    requires |id| <= |gid| && gid[|gid| - |id|..] == id
    requires |id| < |gid| ==> gid[|gid| - |id| - 1] == '/'
    ensures ExtractId(gid) == id
  {
  }

  lemma ExtractIdOfProductGid()
    ensures ExtractId("gid://shopify/Product/123") == "123"
  {
    var gid := "gid://shopify/Product/123";
    assert gid[|gid| - 3..] == "123";
    ExtractIdUnique(gid, "123");
  }

  // ---------------------------------------------------------------------------
  // Metafields
  // ---------------------------------------------------------------------------

  /** The metafield types whose values are JSON text. */
  predicate IsStructured(valueType: string)
  {
    valueType == "json" || valueType == "list.metaobject_reference"
  }

  function MetafieldKey(m: Metafield): string
  {
    m.namespace + "." + m.key
  }

  /** The keys the edges produce, collisions merged. */
  ghost function KeysOf(edges: seq<MetafieldEdge>): set<string>
  {
    set i | 0 <= i < |edges| :: MetafieldKey(edges[i].node)
  }

  /**
   * The value stored for one metafield: the parsed JSON of a structured
   * metafield whose value parses, otherwise the raw string untouched.
   */
  function StoredValue(m: Metafield, parse: string -> Option<Json>): (v: MetafieldValue)
    ensures v.Raw? ==> v.text == m.value
    ensures v.Parsed? ==> IsStructured(m.valueType) && parse(m.value) == Some(v.json)
    ensures IsStructured(m.valueType) && parse(m.value).Some? ==> v.Parsed?
  {
    if IsStructured(m.valueType) then
      match parse(m.value)
      case Some(j) => Parsed(j)
      case None => Raw(m.value)
    else
      Raw(m.value)
  }

  /**
   * The metafield map of an edge list, as a left fold: each edge overwrites
   * the entry of its key. It has one key per distinct `namespace.key`.
   */
  function Flatten(edges: seq<MetafieldEdge>, parse: string -> Option<Json>): (m: TransformedMetafields)
    ensures m.Keys == KeysOf(edges)
  {
    if edges == [] then map[]
    else
      var init := edges[..|edges| - 1];
      var last := edges[|edges| - 1].node;
      assert KeysOf(edges) == KeysOf(init) + {MetafieldKey(last)} by {
        forall k | k in KeysOf(edges) ensures k in KeysOf(init) + {MetafieldKey(last)} {
          var i :| 0 <= i < |edges| && k == MetafieldKey(edges[i].node);
          if i < |edges| - 1 { assert init[i] == edges[i]; }
        }
        forall k | k in KeysOf(init) ensures k in KeysOf(edges) {
          var i :| 0 <= i < |init| && k == MetafieldKey(init[i].node);
          assert init[i] == edges[i];
        }
      }
      Flatten(init, parse)[MetafieldKey(last) := StoredValue(last, parse)]
  }

  /** Each key holds the value of the last edge that produced it. */
  lemma {:induction false} FlattenLastWins(edges: seq<MetafieldEdge>, parse: string -> Option<Json>, j: nat)
    requires j < |edges|
    requires forall l :: j < l < |edges| ==> MetafieldKey(edges[l].node) != MetafieldKey(edges[j].node)
    ensures MetafieldKey(edges[j].node) in Flatten(edges, parse)
    ensures Flatten(edges, parse)[MetafieldKey(edges[j].node)] == StoredValue(edges[j].node, parse)
  {
    if j < |edges| - 1 {
      var init := edges[..|edges| - 1];
      assert init[j] == edges[j];
      forall l | j < l < |init| ensures MetafieldKey(init[l].node) != MetafieldKey(init[j].node) {
        assert init[l] == edges[l];
      }
      FlattenLastWins(init, parse, j);
    }
  }

  /** Keys collide through dots inside a namespace or key; the later edge wins. */
  lemma DottedKeysCollide(parse: string -> Option<Json>)
    ensures var edges := [MetafieldEdge(Metafield("a.b", "c", "x", "single_line_text_field")),
                          MetafieldEdge(Metafield("a", "b.c", "y", "single_line_text_field"))];
            Flatten(edges, parse) == map["a.b.c" := Raw("y")]
  {
    var edges := [MetafieldEdge(Metafield("a.b", "c", "x", "single_line_text_field")),
                  MetafieldEdge(Metafield("a", "b.c", "y", "single_line_text_field"))];
    assert edges[..1][..0] == [];
    assert MetafieldKey(edges[0].node) == "a.b.c" == MetafieldKey(edges[1].node);
  }

  /**
   * `transformMetafields`: the loop that assigns one key per edge into a
   * fresh object.
   */
  method TransformMetafields(edges: seq<MetafieldEdge>, parse: string -> Option<Json>) returns (result: TransformedMetafields)
    ensures result == Flatten(edges, parse)
  {
    result := map[];
    for i := 0 to |edges|
      invariant result == Flatten(edges[..i], parse)
    {
      var m := edges[i].node;
      var metafieldKey := m.namespace + "." + m.key;
      if m.valueType == "json" || m.valueType == "list.metaobject_reference" {
        match parse(m.value) {
          case Some(j) => result := result[metafieldKey := Parsed(j)];
          case None => result := result[metafieldKey := Raw(m.value)];
        }
      } else {
        result := result[metafieldKey := Raw(m.value)];
      }
      assert edges[..i + 1][..i] == edges[..i];
    }
    assert edges[..|edges|] == edges;
  }

  // ---------------------------------------------------------------------------
  // Variants, images and products
  // ---------------------------------------------------------------------------

  /** `transformVariant`: scalars copied, id shortened, metafields flattened. */
  function TransformVariant(v: Variant, parse: string -> Option<Json>): (r: TransformedVariant)
    ensures r.title == v.title && r.sku == v.sku && r.price == v.price
    ensures r.inventoryQuantity == v.inventoryQuantity
    ensures r.id == ExtractId(v.id)
    ensures r.metafields == Flatten(v.metafields, parse)
    ensures r.metafields.Keys == KeysOf(v.metafields)
  {
    TransformedVariant(
      ExtractId(v.id), v.title, v.sku, v.price, v.inventoryQuantity,
      Flatten(v.metafields, parse))
  }

  /** One image of `transformProduct`: id shortened, the rest copied. */
  function TransformImage(img: Image): (r: TransformedImage)
    ensures r.url == img.url && r.altText == img.altText
    ensures r.width == img.width && r.height == img.height
    ensures r.id == ExtractId(img.id)
  {
    TransformedImage(ExtractId(img.id), img.url, img.altText, img.width, img.height)
  }

  /** The variant edges mapped through TransformVariant, in order. */
  function TransformVariants(edges: seq<VariantEdge>, parse: string -> Option<Json>): (r: seq<TransformedVariant>)
    ensures |r| == |edges|
    ensures forall i :: 0 <= i < |edges| ==> r[i] == TransformVariant(edges[i].node, parse)
  {
    if edges == [] then []
    else [TransformVariant(edges[0].node, parse)] + TransformVariants(edges[1..], parse)
  }

  /** The image edges mapped through TransformImage, in order. */
  function TransformImages(edges: seq<ImageEdge>): (r: seq<TransformedImage>)
    ensures |r| == |edges|
    ensures forall i :: 0 <= i < |edges| ==> r[i] == TransformImage(edges[i].node)
  {
    if edges == [] then []
    else [TransformImage(edges[0].node)] + TransformImages(edges[1..])
  }

  /**
   * `transformProduct`, with an absent `images` connection read as an empty
   * one (see TransformProductAsWritten for the code as it stands).
   */
  function TransformProduct(p: Product, parse: string -> Option<Json>): (r: TransformedProduct)
    ensures r.title == p.title && r.handle == p.handle && r.status == p.status
    ensures r.productType == p.productType && r.vendor == p.vendor && r.tags == p.tags
    ensures r.id == ExtractId(p.id)
    ensures r.metafields == Flatten(p.metafields, parse)
    ensures r.metafields.Keys == KeysOf(p.metafields)
    ensures |r.variants| == |p.variants|
    ensures forall i :: 0 <= i < |p.variants| ==> r.variants[i] == TransformVariant(p.variants[i].node, parse)
    ensures p.images.None? ==> r.images == []
    ensures p.images.Some? ==> |r.images| == |p.images.value|
    ensures p.images.Some? ==> forall i :: 0 <= i < |p.images.value| ==> r.images[i] == TransformImage(p.images.value[i].node)
  {
    TransformedProduct(
      ExtractId(p.id), p.title, p.handle, p.status, p.productType, p.vendor, p.tags,
      match p.images
      case None => []
      case Some(edges) => TransformImages(edges),
      Flatten(p.metafields, parse),
      TransformVariants(p.variants, parse))
  }

  /** `transformProducts`: an order-preserving element-wise map. */
  function TransformProducts(products: seq<Product>, parse: string -> Option<Json>): (r: seq<TransformedProduct>)
    ensures |r| == |products|
    ensures forall i :: 0 <= i < |products| ==> r[i] == TransformProduct(products[i], parse)
  {
    if products == [] then []
    else [TransformProduct(products[0], parse)] + TransformProducts(products[1..], parse)
  }

  /** Transforming the concatenation of pages is concatenating their transforms. */
  lemma {:induction false} TransformProductsAppend(a: seq<Product>, b: seq<Product>, parse: string -> Option<Json>)
    ensures TransformProducts(a + b, parse) == TransformProducts(a, parse) + TransformProducts(b, parse)
  {
    if a == [] {
      assert a + b == b;
    } else {
      assert (a + b)[1..] == a[1..] + b;
      TransformProductsAppend(a[1..], b, parse);
    }
  }

  // ---------------------------------------------------------------------------
  // transformProduct as the code stands
  // ---------------------------------------------------------------------------

  /**
   * `transformProduct` exactly as written: it reads `product.images.edges`,
   * which throws a TypeError (`None` here) when the response has no images
   * field; otherwise it agrees with TransformProduct.
   */
  function TransformProductAsWritten(p: Product, parse: string -> Option<Json>): (r: Option<TransformedProduct>)
    ensures r.None? <==> p.images.None?
    ensures r.Some? ==> r.value == TransformProduct(p, parse)
  {
    match p.images
    case None => None
    case Some(edges) =>
      Some(TransformedProduct(
        ExtractId(p.id), p.title, p.handle, p.status, p.productType, p.vendor, p.tags,
        TransformImages(edges),
        Flatten(p.metafields, parse),
        TransformVariants(p.variants, parse)))
  }

  /** `products.map(transformProduct)` as written: the first throw aborts the map. */
  function TransformProductsAsWritten(products: seq<Product>, parse: string -> Option<Json>): (r: Option<seq<TransformedProduct>>)
    ensures r.None? <==> exists p :: p in products && p.images.None?
    ensures r.Some? ==> r.value == TransformProducts(products, parse)
  {
    if products == [] then Some([])
    else
      var head := TransformProductAsWritten(products[0], parse);
      var tail := TransformProductsAsWritten(products[1..], parse);
      assert forall p :: p in products <==> p == products[0] || p in products[1..];
      if head.None? || tail.None? then None else Some([head.value] + tail.value)
  }

  /**
   * The products query selects no images, so no product it returns has an
   * images field, and as written any non-empty page cannot be transformed.
   */
  lemma QueriedProductsBreakTransform(products: seq<Product>, parse: string -> Option<Json>)
    requires |products| > 0
    requires forall p :: p in products ==> p.images.None?
    ensures TransformProductsAsWritten(products, parse).None?
    ensures |TransformProducts(products, parse)| == |products|
  {
    assert products[0] in products;
  }
}
