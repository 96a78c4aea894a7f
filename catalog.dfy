/** The product records the pages hold as constant arrays. */
module Catalog {

  /** A product record. `size` is "" when the record has none (every use of it
      only asks whether it is truthy); the `inStock` flag is not modelled. */
  datatype Product = Product(id: int, name: string, description: string, price: string, image: string, size: string)

  /** The size the pages fall back to: body products (ids from 100 on) are 250ml, perfumes 100ml. */
  function DefaultSize(id: int): string {
    if id >= 100 then "250ml" else "100ml"
  }

  /** The record the shop and search pages put in the cart: the product with its size
      replaced by the default one for its id. */
  function WithDefaultSize(p: Product): (r: Product)
    ensures r.id == p.id && r.name == p.name && r.price == p.price && r.image == p.image
    ensures r.description == p.description
    ensures r.size == (if p.id >= 100 then "250ml" else "100ml")
  {
    p.(size := DefaultSize(p.id))
  }

  predicate DistinctIds(ps: seq<Product>) {
    forall i, j :: 0 <= i < j < |ps| ==> ps[i].id != ps[j].id
  }

  /** The perfume carousel of the shop page. */
  const ShopPerfumes: seq<Product> := [
    Product(1, "Velour Mist",
      "Soft and captivating - a blend of white florals and warm musk that lingers like silk on the skin.",
      "$72.00", "/perfume-removebg-preview (1).png", ""),
    Product(2, "Eclat d'Aube",
      "(Glow of Dawn) - a radiant mix of citrus and amber, inspired by the quiet elegance of early morning light.",
      "$83.00", "/perfume10-removebg-preview.png", ""),
    Product(3, "Whispered Iris",
      "Delicate yet confident - notes of iris and vanilla wrapped in subtle wood, a scent that speaks in whispers.",
      "$90.00", "/perfume4-removebg-preview.png", ""),
    Product(4, "Noir Amara",
      "Darkly elegant - amber, patchouli, and rose intertwined in a sensual harmony of mystery and grace.",
      "$65.00", "/perfume9-removebg-preview.png", ""),
    Product(5, "Midnight Bloom",
      "A mysterious blend of dark florals and rich vanilla that captivates the senses.",
      "$88.00", "/perfume2-removebg-preview.png", ""),
    Product(6, "Sunset Serenade",
      "Warm and inviting - notes of amber, sandalwood, and a hint of citrus create an unforgettable evening scent.",
      "$75.00", "/perfume3-removebg-preview.png", ""),
    Product(7, "Arcadia Musk",
      "A sophisticated blend of musk and soft florals that creates an aura of timeless elegance.",
      "$95.00", "/Arcadia20620Musk-removebg-preview.png", "")
  ]

  /** The body-product carousel of the shop page. */
  const ShopBodyProducts: seq<Product> := [
    Product(101, "Body Lotion",
      "Nourishing body lotion infused with natural ingredients for silky smooth skin.",
      "$45.00", "/body_product-removebg-preview.png", ""),
    Product(102, "Body Wash",
      "Gentle cleansing body wash with aromatic fragrances for a luxurious shower experience.",
      "$38.00", "/body_product1-removebg-preview.png", ""),
    Product(103, "Body Oil",
      "Hydrating body oil that leaves your skin glowing and beautifully scented.",
      "$52.00", "/body_product2-removebg-preview.png", ""),
    Product(104, "Body Scrub",
      "Exfoliating body scrub to reveal soft, radiant skin with every use.",
      "$42.00", "/body_product-removebg-preview.png", "")
  ]

  /** The search page's catalogue holds the same eleven records as the shop page. */
  const SearchProducts: seq<Product> := ShopPerfumes + ShopBodyProducts

  /** The product detail page's catalogue: the same products with sizes and long descriptions. */
  const DetailProducts: seq<Product> := [
    Product(1, "Velour Mist",
      "Soft and captivating - a blend of white florals and warm musk that lingers like silk on the skin. This fragrance opens with delicate notes of white florals that create an airy, ethereal beginning. As it develops, warm musk notes emerge, creating a sensual and lasting impression. Perfect for those who appreciate understated elegance and timeless sophistication.",
      "$72.00", "/perfume-removebg-preview (1).png", "100ml"),
    Product(2, "Eclat d'Aube",
      "(Glow of Dawn) - a radiant mix of citrus and amber, inspired by the quiet elegance of early morning light. The fragrance begins with bright citrus notes that sparkle like morning dew, gradually transitioning into a warm amber heart. This scent captures the peaceful beauty of dawn, offering a luminous and uplifting experience that lasts throughout the day.",
      "$83.00", "/perfume10-removebg-preview.png", "100ml"),
    Product(3, "Whispered Iris",
      "Delicate yet confident - notes of iris and vanilla wrapped in subtle wood, a scent that speaks in whispers. The iris provides an elegant, powdery softness while vanilla adds warmth and comfort. Subtle wood notes ground the fragrance, creating a sophisticated blend that is both gentle and memorable.",
      "$90.00", "/perfume4-removebg-preview.png", "100ml"),
    Product(4, "Noir Amara",
      "Darkly elegant - amber, patchouli, and rose intertwined in a sensual harmony of mystery and grace. Rich amber creates depth while patchouli adds an earthy sophistication. The rose note brings a touch of romance, resulting in a fragrance that is both mysterious and alluring.",
      "$65.00", "/perfume9-removebg-preview.png", "100ml"),
    Product(5, "Midnight Bloom",
      "A mysterious blend of dark florals and rich vanilla that captivates the senses. This fragrance opens with deep floral notes that create an enchanting atmosphere, while vanilla adds a creamy, comforting warmth. Perfect for evening wear, Midnight Bloom is both seductive and sophisticated.",
      "$88.00", "/perfume2-removebg-preview.png", "100ml"),
    Product(6, "Sunset Serenade",
      "Warm and inviting - notes of amber, sandalwood, and a hint of citrus create an unforgettable evening scent. The amber provides warmth and depth, while sandalwood adds a creamy, luxurious quality. A subtle citrus note brightens the composition, making it perfect for those golden hour moments.",
      "$75.00", "/perfume3-removebg-preview.png", "100ml"),
    Product(7, "Arcadia Musk",
      "A sophisticated blend of musk and soft florals that creates an aura of timeless elegance. The musk provides a sensual, skin-like quality while soft florals add refinement and grace. This fragrance is both modern and classic, perfect for those who appreciate understated luxury.",
      "$95.00", "/Arcadia20620Musk-removebg-preview.png", "100ml"),
    Product(101, "Body Lotion",
      "Nourishing body lotion infused with natural ingredients for silky smooth skin. This luxurious formula deeply hydrates and softens your skin, leaving it feeling supple and beautifully scented. Enriched with natural oils and botanical extracts, it provides long-lasting moisture while maintaining the elegant fragrance of our signature scents.",
      "$45.00", "/body_product-removebg-preview.png", "250ml"),
    Product(102, "Body Wash",
      "Gentle cleansing body wash with aromatic fragrances for a luxurious shower experience. This rich, creamy formula cleanses while nourishing your skin, leaving it feeling refreshed and delicately scented. Perfect for daily use, it transforms your shower into a spa-like experience with our signature fragrance notes.",
      "$38.00", "/body_product1-removebg-preview.png", "300ml"),
    Product(103, "Body Oil",
      "Hydrating body oil that leaves your skin glowing and beautifully scented. This luxurious oil absorbs quickly without leaving a greasy residue, providing intense hydration and a radiant glow. Infused with our signature fragrance, it creates a lasting, elegant scent that lingers throughout the day.",
      "$52.00", "/body_product2-removebg-preview.png", "100ml"),
    Product(104, "Body Scrub",
      "Exfoliating body scrub to reveal soft, radiant skin with every use. This gentle yet effective scrub removes dead skin cells while nourishing with natural ingredients. The fine exfoliating particles work to smooth and refine your skin texture, leaving it feeling silky and refreshed with a subtle, elegant fragrance.",
      "$42.00", "/body_product-removebg-preview.png", "200ml")
  ]

  /** Ids that strictly increase along the sequence. */
  predicate IncreasingIds(ps: seq<Product>) {
    forall i :: 0 <= i < |ps| - 1 ==> ps[i].id < ps[i + 1].id
  }

  lemma {:induction false} IncreasingIdsAreDistinct(ps: seq<Product>)
    requires IncreasingIds(ps)
    ensures DistinctIds(ps)
    ensures forall j :: 0 < j < |ps| ==> ps[0].id < ps[j].id
  {
    if |ps| > 1 {
      IncreasingIdsAreDistinct(ps[1..]);
      forall j | 1 < j < |ps| ensures ps[0].id < ps[j].id {
        assert ps[1..][j - 1] == ps[j];
      }
    }
  }

  /** Every catalogue id names one product, so a lookup by id has at most one answer. */
  lemma CatalogueIdsDistinct()
    ensures DistinctIds(SearchProducts) && DistinctIds(DetailProducts)
  {
    assert IncreasingIds(SearchProducts);
    IncreasingIdsAreDistinct(SearchProducts);
    assert IncreasingIds(DetailProducts);
    IncreasingIdsAreDistinct(DetailProducts);
  }

  /** Perfumes have ids below 100 and body products ids from 100 on, which is what
      the pages' size and type defaults rely on. */
  lemma CatalogueKinds()
    ensures forall p :: p in ShopPerfumes ==> 0 < p.id < 100
    ensures forall p :: p in ShopBodyProducts ==> p.id >= 100
  {
  }

  /** The product page's ids are positive, so each is the text of a natural number. */
  lemma DetailIdsPositive()
    ensures forall p :: p in DetailProducts ==> p.id > 0
  {
    assert IncreasingIds(DetailProducts);
    IncreasingIdsAreDistinct(DetailProducts);
    forall p | p in DetailProducts ensures p.id > 0 {
      var j :| 0 <= j < |DetailProducts| && DetailProducts[j] == p;
    }
  }
}
