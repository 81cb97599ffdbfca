/**
 * The product showcase section (storefront/src/components/sections/product-showcase.tsx):
 * which products are shown and what each card shows.
 */
module ProductShowcase {
  import opened Wrappers

  datatype Price = Price(calculatedAmount: Option<real>)

  datatype Variant = Variant(calculatedPrice: Option<Price>)

  datatype Product = Product(
    id: string,
    title: Option<string>,
    thumbnail: Option<string>,
    handle: string,
    variants: Option<seq<Variant>>)

  const Placeholder := "https://via.placeholder.com/300x300"

  function FallbackProduct(id: string, title: string, handle: string, amount: real): Product
  {
    Product(id, Some(title), Some(Placeholder), handle, Some([Variant(Some(Price(Some(amount))))]))
  }

  /** The products shown when none are passed in. */
  const FallbackProducts: seq<Product> := [
    FallbackProduct("1", "Premium Headphones", "premium-headphones", 299.0),
    FallbackProduct("2", "Smart Watch", "smart-watch", 199.0),
    FallbackProduct("3", "Wireless Speaker", "wireless-speaker", 129.0)]

  const MaxShown := 6

  /**
   * `featuredProducts.length > 0 ? featuredProducts.slice(0, 6) : fallbackProducts`, with the
   * default `[]` when the prop is omitted.
   */
  function DisplayProducts(featured: Option<seq<Product>>): (shown: seq<Product>)
    ensures 1 <= |shown| <= MaxShown
    ensures featured.None? || featured.value == [] ==> shown == FallbackProducts
    ensures featured.Some? && featured.value != [] ==>
      |shown| == (if |featured.value| < MaxShown then |featured.value| else MaxShown)
      && shown == featured.value[..|shown|]
  {
    var products := featured.GetOr([]);
    if |products| > 0 then
      (if |products| <= MaxShown then products else products[..MaxShown])
    else FallbackProducts
  }

  /** `x || fallback` on an optional string: missing and empty both fall back. */
  function OrString(s: Option<string>, fallback: string): string
  {
    if s.Some? && s.value != "" then s.value else fallback
  }

  /** `product.variants?.[0]?.calculated_price?.calculated_amount`. */
  function FirstAmount(p: Product): Option<real>
  {
    if p.variants.Some? && |p.variants.value| > 0 && p.variants.value[0].calculatedPrice.Some? then
      p.variants.value[0].calculatedPrice.value.calculatedAmount
    else None
  }

  /**
   * `amount / 100 || 99`: a missing amount divides to `NaN` and a zero amount to 0, both
   * falsy, so both show 99.
   */
  function DisplayPrice(p: Product): (price: real)
    ensures FirstAmount(p).None? || FirstAmount(p) == Some(0.0) ==> price == 99.0
    ensures FirstAmount(p).Some? && FirstAmount(p).value != 0.0 ==> price * 100.0 == FirstAmount(p).value
  {
    var amount := FirstAmount(p);
    if amount.Some? && amount.value / 100.0 != 0.0 then amount.value / 100.0 else 99.0
  }

  /** A card's link: the country segment, the products segment, then the product handle. */
  function ProductHref(countryCode: string, handle: string): (href: string)
    ensures |href| == |countryCode| + |handle| + 11
    ensures href[..|countryCode| + 1] == "/" + countryCode
    ensures href[|countryCode| + 1..|countryCode| + 11] == "/products/"
    ensures href[|countryCode| + 11..] == handle
  {
    "/" + countryCode + "/products/" + handle
  }

  /** The single "View All Products" link below the cards: the country segment, then the store segment. */
  function StoreHref(countryCode: string): (href: string)
    ensures |href| == |countryCode| + 7
    ensures href[..|countryCode| + 1] == "/" + countryCode
    ensures href[|countryCode| + 1..] == "/store"
  {
    "/" + countryCode + "/store"
  }

  /** The store link is never a product link of the same country. */
  lemma StoreHrefIsNoProductHref(countryCode: string, handle: string)
    ensures StoreHref(countryCode) != ProductHref(countryCode, handle)
  {
    var n := |countryCode| + 1;
    assert StoreHref(countryCode)[n + 1] == "/store"[1];
    assert ProductHref(countryCode, handle)[n + 1] == "/products/"[1];
  }

  /** A product card: image source and alt text, the badge, the price and the link. */
  datatype ProductCard = ProductCard(key: string, imageSrc: string, alt: string, featuredBadge: bool, price: real, href: string)

  function Cards(featured: Option<seq<Product>>, countryCode: string): (cards: seq<ProductCard>)
    ensures |cards| == |DisplayProducts(featured)|
    ensures forall i :: 0 <= i < |cards| ==>
      var p := DisplayProducts(featured)[i];
      && cards[i].key == p.id
      && cards[i].imageSrc == OrString(p.thumbnail, Placeholder)
      && cards[i].alt == OrString(p.title, "Product")
      && (cards[i].featuredBadge <==> i == 0)
      && cards[i].price == DisplayPrice(p)
      && cards[i].href == ProductHref(countryCode, p.handle)
  {
    var shown := DisplayProducts(featured);
    seq(|shown|, i requires 0 <= i < |shown| =>
      ProductCard(shown[i].id, OrString(shown[i].thumbnail, Placeholder), OrString(shown[i].title, "Product"),
                  i == 0, DisplayPrice(shown[i]), ProductHref(countryCode, shown[i].handle)))
  }

  /** Exactly one card, the first, carries the Featured badge. */
  lemma OneFeaturedBadge(featured: Option<seq<Product>>, countryCode: string)
    ensures Cards(featured, countryCode)[0].featuredBadge
    ensures forall i :: 0 < i < |Cards(featured, countryCode)| ==> !Cards(featured, countryCode)[i].featuredBadge
  {
  }

  /** Missing or empty thumbnails and titles fall back to the placeholder image and `"Product"`. */
  lemma ImageFallbacks(p: Product)
    ensures p.thumbnail.None? || p.thumbnail == Some("") ==> OrString(p.thumbnail, Placeholder) == Placeholder
    ensures p.title.None? || p.title == Some("") ==> OrString(p.title, "Product") == "Product"
    ensures p.title.Some? && p.title.value != "" ==> OrString(p.title, "Product") == p.title.value
  {
  }

  /** Within one country the product link determines the product handle. */
  lemma ProductHrefDeterminesHandle(countryCode: string, h1: string, h2: string)
    requires ProductHref(countryCode, h1) == ProductHref(countryCode, h2)
    ensures h1 == h2
  {
    var prefix := "/" + countryCode + "/products/";
    assert ProductHref(countryCode, h1) == prefix + h1;
    assert ProductHref(countryCode, h2) == prefix + h2;
    assert h1 == (prefix + h1)[|prefix|..];
    assert h2 == (prefix + h2)[|prefix|..];
  }

  /** The fallback amounts are divided too: the first fallback card shows 2.99. */
  lemma FallbackPrices()
    ensures DisplayPrice(FallbackProducts[0]) == 2.99
    ensures DisplayPrice(FallbackProducts[1]) == 1.99
    ensures DisplayPrice(FallbackProducts[2]) == 1.29
  {
  }
}
