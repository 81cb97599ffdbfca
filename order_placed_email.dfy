/**
 * The order-placed email (backend/src/modules/email-notifications/templates/themed-order-placed.tsx):
 * the preview default, one block per order item with alternating backgrounds, the amounts
 * handed to the currency formatter, and the confirmation link.
 */
module OrderPlacedEmail {
  import opened Wrappers

  const DefaultPreview := "Your order has been placed successfully!"

  /** The `preview` prop with its default: a given preview is used, even an empty one. */
  function Preview(preview: Option<string>): (p: string)
    ensures preview.Some? ==> p == preview.value
    ensures preview.None? ==> p == DefaultPreview
  {
    preview.GetOr(DefaultPreview)
  }

  datatype OrderItem = OrderItem(id: string, productTitle: string, title: string, unitPrice: real, quantity: real)

  const EvenRowBackground := "#f6e6ee"
  const OddRowBackground := "#ffffff"

  /** `index % 2 === 0 ? '#f6e6ee' : '#ffffff'`. */
  function RowBackground(index: nat): (background: string)
    ensures background == EvenRowBackground || background == OddRowBackground
    ensures background == EvenRowBackground <==> index % 2 == 0
  {
    if index % 2 == 0 then EvenRowBackground else OddRowBackground
  }

  /**
   * What `Intl.NumberFormat(...).format` is given: the amount divided by 100 (the amount is
   * taken to be in cents) and the currency code in upper case.
   */
  datatype FormatterInput = FormatterInput(value: real, currency: string)

  function FormatCurrencyInput(amount: real, currency: string): (f: FormatterInput)
    ensures f.value * 100.0 == amount
    ensures |f.currency| == |currency|
    ensures forall i :: 0 <= i < |currency| ==> f.currency[i] == UpperChar(currency[i])
  {
    FormatterInput(amount / 100.0, ToUpper(currency))
  }

  /** Upper-casing of one character; only ASCII letters change. */
  function UpperChar(c: char): char
  {
    if 'a' <= c <= 'z' then (c as int - 32) as char else c
  }

  function ToUpper(s: string): (r: string)
    ensures |r| == |s|
    ensures forall i :: 0 <= i < |s| ==> r[i] == UpperChar(s[i])
  {
    if s == [] then [] else [UpperChar(s[0])] + ToUpper(s[1..])
  }

  /** Upper-casing twice is upper-casing once. */
  lemma {:induction false} ToUpperIdempotent(s: string)
    ensures ToUpper(ToUpper(s)) == ToUpper(s)
  {
    if s != [] {
      ToUpperIdempotent(s[1..]);
    }
  }

  /** The order total line formats the raw order total with the order's currency, like every item line. */
  function OrderTotalInput(rawTotal: real, currencyCode: string): (f: FormatterInput)
    ensures f.value * 100.0 == rawTotal
    ensures f.currency == ToUpper(currencyCode)
  {
    FormatCurrencyInput(rawTotal, currencyCode)
  }

  /** One item block: its key, its background and the formatter input of its line total. */
  datatype ItemBlock = ItemBlock(key: string, background: string, total: FormatterInput)

  /** `order.items.map((item, index) => ...)`. */
  function ItemBlocks(items: seq<OrderItem>, currencyCode: string): (blocks: seq<ItemBlock>)
    ensures |blocks| == |items|
    ensures forall i :: 0 <= i < |items| ==>
      && blocks[i].key == items[i].id
      && blocks[i].background == (if i % 2 == 0 then EvenRowBackground else OddRowBackground)
      && blocks[i].total.value * 100.0 == items[i].unitPrice * items[i].quantity
      && blocks[i].total.currency == ToUpper(currencyCode)
  {
    seq(|items|, i requires 0 <= i < |items| => Block(items[i], i, currencyCode))
  }

  function Block(item: OrderItem, index: nat, currencyCode: string): (b: ItemBlock)
    ensures b.key == item.id && b.background == RowBackground(index)
    ensures b.total.value * 100.0 == item.unitPrice * item.quantity
    ensures b.total.currency == ToUpper(currencyCode)
  {
    ItemBlock(item.id, RowBackground(index), FormatCurrencyInput(item.unitPrice * item.quantity, currencyCode))
  }

  /** Every item line is formatted in the currency of the order total line. */
  lemma ItemCurrencyIsTotalCurrency(items: seq<OrderItem>, currencyCode: string, rawTotal: real, i: nat)
    requires i < |items|
    ensures ItemBlocks(items, currencyCode)[i].total.currency == OrderTotalInput(rawTotal, currencyCode).currency
  {
  }

  /** Neighbouring blocks never share a background. */
  lemma BackgroundsAlternate(items: seq<OrderItem>, currencyCode: string, i: nat)
    requires i + 1 < |items|
    ensures ItemBlocks(items, currencyCode)[i].background != ItemBlocks(items, currencyCode)[i + 1].background
  {
  }

  const DefaultBaseUrl := "http://localhost:3000"

  const ConfirmedPath := "/order/confirmed/"

  /**
   * The button link: the base URL (the configured one, or the localhost one when it is unset
   * or empty), then the order-confirmed path, then the display id.
   */
  function ConfirmationUrl(baseUrl: Option<string>, displayId: string): (url: string)
    ensures |url| >= |ConfirmedPath| + |displayId|
    ensures url[|url| - |displayId|..] == displayId
    ensures url[|url| - |displayId| - |ConfirmedPath|..|url| - |displayId|] == ConfirmedPath
    ensures baseUrl.Some? && baseUrl.value != "" ==>
      |url| == |baseUrl.value| + |ConfirmedPath| + |displayId| && url[..|baseUrl.value|] == baseUrl.value
    ensures baseUrl.None? || baseUrl == Some("") ==>
      |url| == |DefaultBaseUrl| + |ConfirmedPath| + |displayId| && url[..|DefaultBaseUrl|] == DefaultBaseUrl
  {
    var base := if baseUrl.Some? && baseUrl.value != "" then baseUrl.value else DefaultBaseUrl;
    base + ConfirmedPath + displayId
  }

  /** Under one base URL, the link determines the order: different display ids give different links. */
  lemma {:induction false} ConfirmationUrlDeterminesOrder(baseUrl: Option<string>, id1: string, id2: string)
    requires ConfirmationUrl(baseUrl, id1) == ConfirmationUrl(baseUrl, id2)
    ensures id1 == id2
  {
    var base := if baseUrl.Some? && baseUrl.value != "" then baseUrl.value else DefaultBaseUrl;
    assert |ConfirmationUrl(baseUrl, id1)| == |base| + |ConfirmedPath| + |id1|;
    assert |ConfirmationUrl(baseUrl, id2)| == |base| + |ConfirmedPath| + |id2|;
  }
}
