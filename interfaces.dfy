/**
 * The chat rendering of handle_interfaces.py: the catalog, product-detail and
 * cart messages with their inline keyboards. Everything here is pure text and
 * keyboard construction; the messages are handed to the chat as `Reply`
 * values.
 */
module Interfaces {
  import opened Wrappers
  import opened PyText

  // ---------------------------------------------------------------------------
  // Chat output
  // ---------------------------------------------------------------------------

  /** An inline button: the text shown and the callback payload it sends back. */
  datatype Button = Button(text: string, payload: string)

  /** Inline keyboard markup: a list of button rows. */
  type Keyboard = seq<seq<Button>>

  datatype Reply =
    | Text(text: string)                                        // chat.reply_text(text)
    | TextWithKeyboard(text: string, keyboard: Keyboard)        // chat.reply_text(text, reply_markup=...)
    | Photo(url: string, caption: string, keyboard: Keyboard)   // bot.send_photo(chat_id, url, caption=..., reply_markup=...)

  // ---------------------------------------------------------------------------
  // The commerce API records the renderer reads (only the fields it reads)
  // ---------------------------------------------------------------------------

  /**
   * A product: `id`, `name`, `meta.display_price.with_tax.formatted`,
   * `meta.stock.level`, `description` and `relationships.main_image.data.id`.
   */
  datatype Product = Product(
    id: string,
    name: string,
    price: string,
    stockLevel: int,
    description: string,
    imageId: string)

  /**
   * A cart item: `id`, `name`, `quantity`, and the formatted unit and line
   * prices under `meta.display_price.with_tax`.
   */
  datatype CartItem = CartItem(
    id: string,
    name: string,
    quantity: int,
    unitPrice: string,
    linePrice: string)

  /** A cart response: its `data` items and the formatted total under `meta`. */
  datatype Cart = Cart(items: seq<CartItem>, total: string)

  // ---------------------------------------------------------------------------
  // Fixed payloads, shared with the router in bot.py
  // ---------------------------------------------------------------------------

  const CartPayload: string := "Cart"
  const BackToMenuPayload: string := "Back to menu"
  const PayPayload: string := "Pay"

  const CartButton: Button := Button("Cart", CartPayload)
  const BackToMenuButton: Button := Button("Back to menu", BackToMenuPayload)
  const PayButton: Button := Button("Pay", PayPayload)

  // ---------------------------------------------------------------------------
  // send_products
  // ---------------------------------------------------------------------------

  /** One row per product, in order, labelled with its name and carrying its id. */
  function ProductRows(products: seq<Product>): (rows: Keyboard)
    ensures |rows| == |products|
    ensures forall i :: 0 <= i < |products| ==> rows[i] == [Button(products[i].name, products[i].id)]
  {
    if products == [] then []
    else [[Button(products[0].name, products[0].id)]] + ProductRows(products[1..])
  }

  /** The catalog keyboard: the product rows followed by one final Cart row. */
  function CatalogKeyboard(products: seq<Product>): (kb: Keyboard)
    ensures |kb| == |products| + 1
    ensures forall i :: 0 <= i < |products| ==> kb[i] == [Button(products[i].name, products[i].id)]
    ensures kb[|products|] == [CartButton]
  {
    ProductRows(products) + [[CartButton]]
  }

  /** The catalog message: the text `Catalog` with the catalog keyboard. */
  function CatalogView(products: seq<Product>): (r: Reply)
    ensures r.TextWithKeyboard? && r.text == "Catalog"
    ensures |r.keyboard| == |products| + 1 && r.keyboard[|products|] == [CartButton]
    ensures forall i :: 0 <= i < |products| ==> r.keyboard[i] == [Button(products[i].name, products[i].id)]
  {
    TextWithKeyboard("Catalog", CatalogKeyboard(products))
  }

  // ---------------------------------------------------------------------------
  // send_product_details (caption and keyboard; the image URL is an input)
  // ---------------------------------------------------------------------------

  const Quantities: seq<int> := [1, 5, 10]

  /** A quantity button: label `'{q} kg'`, payload `'{id};{q}'`. */
  function QuantityButton(productId: string, quantity: int): (b: Button)
    ensures |b.payload| > |productId| && b.payload[..|productId|] == productId
    ensures b.payload[|productId|] == ';'
    ensures b.text == b.payload[|productId| + 1..] + " kg"
  {
    assert (productId + ";" + IntToDecimal(quantity))[..|productId|] == productId;
    assert (productId + ";" + IntToDecimal(quantity))[|productId| + 1..] == IntToDecimal(quantity);
    Button(IntToDecimal(quantity) + " kg", productId + ";" + IntToDecimal(quantity))
  }

  /** The text after a quantity button's `;` is what `int()` reads back as its quantity. */
  lemma QuantityButtonParses(productId: string, quantity: int)
    ensures ParseInt(QuantityButton(productId, quantity).payload[|productId| + 1..]) == Some(quantity)
  {
    ParseIntOfDecimal(quantity);
  }

  function ProductKeyboard(p: Product): (kb: Keyboard)
    ensures |kb| == 2 && |kb[0]| == |Quantities| == 3
    ensures forall j :: 0 <= j < 3 ==> kb[0][j] == QuantityButton(p.id, Quantities[j])
    ensures kb[0] == [Button("1 kg", p.id + ";1"), Button("5 kg", p.id + ";5"), Button("10 kg", p.id + ";10")]
    ensures kb[1] == [BackToMenuButton, CartButton]
  {
    var row := seq(|Quantities|, j requires 0 <= j < |Quantities| => QuantityButton(p.id, Quantities[j]));
    assert IntToDecimal(1) == "1" && IntToDecimal(5) == "5";
    assert IntToDecimal(10) == NatToDecimal(1) + "0" == "10";
    assert row[0] == Button("1 kg", p.id + ";1");
    assert row[1] == Button("5 kg", p.id + ";5");
    assert row[2] == Button("10 kg", p.id + ";10");
    [row, [BackToMenuButton, CartButton]]
  }

  /** The caption opens with the product name followed by a blank line. */
  function ProductCaption(p: Product): (c: string)
    ensures |c| > |p.name| + 1 && c[|p.name|] == '\n' && c[|p.name| + 1] == '\n'
    ensures forall i :: 0 <= i < |p.name| ==> c[i] == p.name[i]
  {
    p.name + "\n\n"
    + ((p.price + " per kg") + "\n\n"
    + ((IntToDecimal(p.stockLevel) + " kg in stock") + "\n\n"
    + p.description))
  }

  /** A line followed by a blank line splits off as that line and an empty piece. */
  lemma SplitParagraph(line: string, rest: string)
    requires '\n' !in line
    ensures Split(line + "\n\n" + rest, '\n') == [line, ""] + Split(rest, '\n')
  {
    assert line + "\n\n" + rest == line + ['\n'] + ("" + ['\n'] + rest);
    SplitAtFirstSep(line, '\n', "" + ['\n'] + rest);
    SplitAtFirstSep("", '\n', rest);
  }

  /** A rendered integer followed by a line's tail holds no line break. */
  lemma DecimalLineUnbroken(i: int, tail: string)
    requires '\n' !in tail
    ensures '\n' !in IntToDecimal(i) + tail
  {
    var q := IntToDecimal(i);
    var line := q + tail;
    assert forall k :: 0 <= k < |q| ==> line[k] == q[k];
    assert forall k :: |q| <= k < |line| ==> line[k] == tail[k - |q|];
  }

  /**
   * The caption's lines: the name, the price per kg and the stock in kg, each
   * followed by a blank line, then the description's own lines.
   */
  lemma ProductCaptionLines(p: Product)
    requires '\n' !in p.name && '\n' !in p.price
    ensures Split(ProductCaption(p), '\n')
         == [p.name, "", p.price + " per kg", "", IntToDecimal(p.stockLevel) + " kg in stock", ""]
            + Split(p.description, '\n')
  {
    var price := p.price + " per kg";
    var stock := IntToDecimal(p.stockLevel) + " kg in stock";
    var r2 := stock + "\n\n" + p.description;
    var d := Split(p.description, '\n');
    assert Split(p.name + "\n\n" + (price + "\n\n" + r2), '\n') == [p.name, ""] + ([price, ""] + ([stock, ""] + d)) by {
      assert '\n' !in price;
      DecimalLineUnbroken(p.stockLevel, " kg in stock");
      SplitParagraph(p.name, price + "\n\n" + r2);
      SplitParagraph(price, r2);
      SplitParagraph(stock, p.description);
    }
  }

  /** The product message: a photo of the image URL, captioned, with the quantity keyboard. */
  function ProductView(p: Product, imageUrl: string): (r: Reply)
    ensures r.Photo? && r.url == imageUrl
    ensures r.caption == ProductCaption(p) && |r.keyboard| == 2
    ensures r.keyboard[0] == [Button("1 kg", p.id + ";1"), Button("5 kg", p.id + ";5"), Button("10 kg", p.id + ";10")]
    ensures r.keyboard[1] == [BackToMenuButton, CartButton]
  {
    Photo(imageUrl, ProductCaption(p), ProductKeyboard(p))
  }

  // ---------------------------------------------------------------------------
  // format_cart_item_for_display and send_cart
  // ---------------------------------------------------------------------------

  function FormatCartItem(item: CartItem): (s: string)
    ensures |s| >= 2 && s[|s| - 2] == '\n' && s[|s| - 1] == '\n'
  {
    item.name + "\n"
    + ((item.unitPrice + " per kg") + "\n"
    + ((IntToDecimal(item.quantity) + " kg in cart for " + item.linePrice) + "\n\n"))
  }

  /**
   * A formatted item's lines: the name, the unit price per kg, the quantity
   * with the line price, then two empty pieces from the closing blank line.
   */
  lemma CartItemLines(item: CartItem)
    requires '\n' !in item.name && '\n' !in item.unitPrice && '\n' !in item.linePrice
    ensures Split(FormatCartItem(item), '\n')
         == [item.name, item.unitPrice + " per kg",
             IntToDecimal(item.quantity) + " kg in cart for " + item.linePrice, "", ""]
  {
    var q := IntToDecimal(item.quantity);
    var unit := item.unitPrice + " per kg";
    var position := q + " kg in cart for " + item.linePrice;
    assert '\n' !in unit;
    assert '\n' !in position by {
      assert '\n' !in " kg in cart for " + item.linePrice;
      DecimalLineUnbroken(item.quantity, " kg in cart for " + item.linePrice);
      assert q + (" kg in cart for " + item.linePrice) == position;
    }
    var r2 := position + "\n\n";
    calc {
      Split(FormatCartItem(item), '\n');
      Split(item.name + ['\n'] + (unit + ['\n'] + r2), '\n');
      { SplitAtFirstSep(item.name, '\n', unit + ['\n'] + r2); }
      [item.name] + Split(unit + ['\n'] + r2, '\n');
      { SplitAtFirstSep(unit, '\n', r2); }
      [item.name] + ([unit] + Split(r2, '\n'));
      { assert r2 + "" == r2; SplitParagraph(position, ""); SplitWithoutSep("", '\n'); }
      [item.name] + ([unit] + ([position, ""] + [""]));
    }
  }

  /** `''.join(format_cart_item_for_display(i) for i in items)`. */
  function JoinedItems(items: seq<CartItem>): (s: string)
    ensures s == "" <==> items == []
  {
    if items == [] then "" else FormatCartItem(items[0]) + JoinedItems(items[1..])
  }

  /** The items are concatenated in order. */
  lemma {:induction false} JoinedItemsAppend(a: seq<CartItem>, b: seq<CartItem>)
    ensures JoinedItems(a + b) == JoinedItems(a) + JoinedItems(b)
  {
    if a == [] {
      assert a + b == b;
    } else {
      var c := a + b;
      assert c[0] == a[0];
      assert c[1..] == a[1..] + b;
      JoinedItemsAppend(a[1..], b);
    }
  }

  /**
   * The cart text. `send_cart` tests whether the joined text is empty; since
   * every formatted item is non-empty, that is exactly an empty item list.
   */
  function CartText(cart: Cart): (t: string)
    ensures cart.items == [] ==> t == "Your cart is empty"
    ensures cart.items != [] ==> t == "Your cart:\n\n" + JoinedItems(cart.items) + "Total: " + cart.total
  {
    var body := JoinedItems(cart.items);
    if body == "" then "Your cart is empty" else "Your cart:\n\n" + body + "Total: " + cart.total
  }

  /** One remove row per cart item, in order. */
  function CartRows(items: seq<CartItem>): (rows: Keyboard)
    ensures |rows| == |items|
    ensures forall i :: 0 <= i < |items| ==> rows[i] == [Button("Remove " + items[i].name + " from Cart", items[i].id)]
  {
    if items == [] then []
    else [[Button("Remove " + items[0].name + " from Cart", items[0].id)]] + CartRows(items[1..])
  }

  /** The cart keyboard: the remove rows, then Pay, then Back to menu. */
  function CartKeyboard(items: seq<CartItem>): (kb: Keyboard)
    ensures |kb| == |items| + 2
    ensures forall i :: 0 <= i < |items| ==> kb[i] == [Button("Remove " + items[i].name + " from Cart", items[i].id)]
    ensures kb[|items|] == [PayButton] && kb[|items| + 1] == [BackToMenuButton]
    ensures items == [] ==> kb == [[PayButton], [BackToMenuButton]]
  {
    CartRows(items) + [[PayButton], [BackToMenuButton]]
  }

  /**
   * The cart message. An empty cart reads `Your cart is empty` with only the
   * Pay and Back to menu rows.
   */
  function CartView(cart: Cart): (r: Reply)
    ensures r.TextWithKeyboard? && |r.keyboard| == |cart.items| + 2
    ensures cart.items == [] ==> r == TextWithKeyboard("Your cart is empty", [[PayButton], [BackToMenuButton]])
    ensures cart.items != [] ==> r.text == "Your cart:\n\n" + JoinedItems(cart.items) + "Total: " + cart.total
    ensures forall i :: 0 <= i < |cart.items| ==>
      r.keyboard[i] == [Button("Remove " + cart.items[i].name + " from Cart", cart.items[i].id)]
    ensures r.keyboard[|cart.items|] == [PayButton] && r.keyboard[|cart.items| + 1] == [BackToMenuButton]
  {
    TextWithKeyboard(CartText(cart), CartKeyboard(cart.items))
  }
}
