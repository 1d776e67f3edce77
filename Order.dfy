/**
 * The order notification: the statuses the send goes through, the payment
 * choices, and the template parameters composed from the form and the cart.
 * The localized timestamp (`order_date`) depends on the clock and the
 * browser's locale and is not part of the model.
 */
module Order {
  import opened Text
  import opened Cart
  import opened Checkout

  /** `'none' | 'sending' | 'sent' | 'error'` */
  datatype EmailStatus = Unsent | Sending | Sent | Error

  datatype PaymentMethod = PayNow | PayPal

  datatype Language = English | Chinese

  const OrderRecipient := "order@yoload.asia"

  function MethodLabel(m: PaymentMethod): string {
    match m
    case PayNow => "PayNow"
    case PayPal => "PayPal"
  }

  /** The template parameters handed to the messaging service. */
  datatype EmailParams = EmailParams(
    toEmail: string, fromName: string, fromEmail: string, customerPhone: string,
    customerAddress: string, orderNotes: string, orderItems: string,
    subtotal: string, shipping: string, totalAmount: string, paymentMethod: string)

  /** Reads an amount back from "S$", a decimal integer and ".00". */
  function ParseMoney(s: string): Option<int> {
    if |s| >= 5 && s[..2] == "S$" && s[|s| - 3..] == ".00" then ParseInt(s[2..|s| - 3]) else None
  }

  /** An amount as the storefront shows it: the "S$" prefix and two decimals. */
  function Money(amount: int): string {
    "S$" + Fixed2(amount)
  }

  /** An amount the storefront shows reads back as that amount. */
  lemma MoneyReadBack(amount: int)
    ensures ParseMoney(Money(amount)) == Some(amount)
  {
    var t := Fixed2(amount);
    Fixed2ReadBack(amount);
    assert Money(amount)[2..|t| - 1] == t[..|t| - 3];
  }

  function DisplayName(item: CartItem, lang: Language): string {
    if lang == English then item.name else item.nameZh
  }

  lemma {:induction false} DigitsHaveNoNewline(s: string)
    requires AllDigits(s)
    ensures '\n' !in s
  {
    assert forall i :: 0 <= i < |s| ==> s[i] != '\n';
  }

  lemma RenderingHasNoNewline(i: int)
    ensures '\n' !in IntToString(i)
  {
    var s := IntToString(i);
    if i < 0 {
      DigitsHaveNoNewline(s[1..]);
      assert s == [s[0]] + s[1..];
    } else {
      DigitsHaveNoNewline(s);
    }
  }

  /**
   * One line of the item block: name, quantity and line total. It starts
   * with the product's name, and what follows is digits and punctuation,
   * so it holds a newline exactly when the name does.
   */
  function ItemLine(item: CartItem, lang: Language): (line: string)
    ensures DisplayName(item, lang) <= line
    ensures '\n' in line <==> '\n' in DisplayName(item, lang)
  {
    RenderingHasNoNewline(item.quantity);
    RenderingHasNoNewline(LineTotal(item));
    var name := DisplayName(item, lang);
    var rest := " x" + IntToString(item.quantity) + " - " + Money(LineTotal(item));
    assert '\n' !in rest;
    assert name + rest == name + " x" + IntToString(item.quantity) + " - " + Money(LineTotal(item));
    name + rest
  }

  /**
   * An item line reads back: after the name come " x", the quantity and
   * " - ", then the line total as an amount.
   */
  lemma ItemLineReadBack(item: CartItem, lang: Language)
    ensures exists q, m :: (ItemLine(item, lang) == DisplayName(item, lang) + " x" + q + " - " + m
                            && ParseInt(q) == Some(item.quantity) && ParseMoney(m) == Some(item.price * item.quantity))
  {
    IntToStringReadBack(item.quantity);
    MoneyReadBack(LineTotal(item));
    assert ItemLine(item, lang) == DisplayName(item, lang) + " x" + IntToString(item.quantity) + " - " + Money(LineTotal(item));
  }

  /** `cart.map(item => ItemLine(item))` */
  function ItemLines(cart: seq<CartItem>, lang: Language): seq<string> {
    seq(|cart|, i requires 0 <= i < |cart| => ItemLine(cart[i], lang))
  }

  /** `${firstName} ${lastName}` */
  function FullName(form: CheckoutForm): string {
    form.firstName + " " + form.lastName
  }

  /**
   * The sender's name reads back: the first name is the text before the
   * first space when it holds none, and both names are when neither does.
   */
  lemma FullNameSplits(form: CheckoutForm)
    ensures ' ' !in form.firstName ==> Split(FullName(form), ' ')[0] == form.firstName
    ensures ' ' !in form.firstName && ' ' !in form.lastName ==> Split(FullName(form), ' ') == [form.firstName, form.lastName]
  {
    if ' ' !in form.firstName {
      SplitAtFirstSeparator(form.firstName, ' ', form.lastName);
      if ' ' !in form.lastName {
        SplitWithoutSeparator(form.lastName, ' ');
      }
    }
  }

  /** The address, city, postal code and country joined by ", ". */
  function ShippingAddress(form: CheckoutForm): string {
    Join([form.address, form.city, form.postalCode, form.country], ", ")
  }

  /**
   * When none of the four address fields holds a comma, splitting the
   * address at its commas gives the four back, each after the first with
   * its leading space.
   */
  lemma ShippingAddressSplits(form: CheckoutForm)
    requires ',' !in form.address && ',' !in form.city && ',' !in form.postalCode && ',' !in form.country
    ensures Split(ShippingAddress(form), ',') == [form.address, " " + form.city, " " + form.postalCode, " " + form.country]
  {
    AddressSplits(form.address, form.city, form.postalCode, form.country);
  }

  lemma AddressSplits(a: string, b: string, c: string, d: string)
    requires ',' !in a && ',' !in b && ',' !in c && ',' !in d
    ensures Split(Join([a, b, c, d], ", "), ',') == [a, " " + b, " " + c, " " + d]
  {
    var j3 := Join([b, c, d], ", ");
    assert Join([a, b, c, d], ", ") == a + ", " + j3 by { JoinStep([a, b, c, d], ", "); }
    CommaSpace(a, j3);
    SplitAtFirstSeparator(a, ',', " " + j3);
    CitySplits(b, c, d);
    ConsFour(a, " " + b, " " + c, " " + d);
  }

  /** The address after its first comma. */
  lemma CitySplits(b: string, c: string, d: string)
    requires ',' !in b && ',' !in c && ',' !in d
    ensures Split(" " + Join([b, c, d], ", "), ',') == [" " + b] + [" " + c, " " + d]
  {
    var j2 := Join([c, d], ", ");
    assert Join([b, c, d], ", ") == b + ", " + j2 by { JoinStep([b, c, d], ", "); }
    CommaSpace(b, j2);
    SplitAtFirstSeparator(" " + b, ',', " " + j2);
    PostalCodeSplits(c, d);
  }

  /** The address after its second comma. */
  lemma PostalCodeSplits(c: string, d: string)
    requires ',' !in c && ',' !in d
    ensures Split(" " + Join([c, d], ", "), ',') == [" " + c, " " + d]
  {
    assert Join([c, d], ", ") == c + ", " + d by { JoinStep([c, d], ", "); }
    CommaSpace(c, d);
    SplitAtFirstSeparator(" " + c, ',', " " + d);
    SplitWithoutSeparator(" " + d, ',');
  }

  lemma ConsFour<T>(w: T, x: T, y: T, z: T)
    ensures [w] + ([x] + [y, z]) == [w, x, y, z]
  {
  }

  lemma JoinStep(parts: seq<string>, sep: string)
    requires |parts| >= 2
    ensures Join(parts, sep) == parts[0] + sep + Join(parts[1..], sep)
  {
  }

  lemma CommaSpace(x: string, y: string)
    ensures x + ", " + y == x + [','] + (" " + y)
    ensures " " + (x + ", " + y) == (" " + x) + [','] + (" " + y)
  {
    assert ", " == [','] + " ";
  }

  /** The parameters `sendOrderEmail` composes from the form and the cart. */
  function OrderEmail(form: CheckoutForm, cart: seq<CartItem>, payment: PaymentMethod, lang: Language): EmailParams {
    EmailParams(
      OrderRecipient, FullName(form), form.email, form.phone, ShippingAddress(form), form.notes,
      Join(ItemLines(cart, lang), "\n"),
      Money(Subtotal(cart)), Money(ShippingCost(cart)), "S$" + TotalPrice(cart),
      MethodLabel(payment))
  }

  /**
   * The subtotal, shipping and total of the email read back as the cart's
   * subtotal, its shipping cost and their sum.
   */
  lemma OrderEmailAmounts(form: CheckoutForm, cart: seq<CartItem>, payment: PaymentMethod, lang: Language)
    ensures ParseMoney(OrderEmail(form, cart, payment, lang).subtotal) == Some(Subtotal(cart))
    ensures ParseMoney(OrderEmail(form, cart, payment, lang).shipping) == Some(ShippingCost(cart))
    ensures ParseMoney(OrderEmail(form, cart, payment, lang).totalAmount) == Some(Subtotal(cart) + ShippingCost(cart))
  {
    var e := OrderEmail(form, cart, payment, lang);
    assert e.subtotal == Money(Subtotal(cart)) && e.shipping == Money(ShippingCost(cart));
    assert e.totalAmount == Money(TotalAmount(cart));
    MoneyReadBack(Subtotal(cart));
    MoneyReadBack(ShippingCost(cart));
    MoneyReadBack(TotalAmount(cart));
  }

  /**
   * The item block of the email splits back, at its newlines, into one line
   * per cart line, in cart order, as long as no product name holds a newline.
   */
  lemma ItemBlockLines(cart: seq<CartItem>, lang: Language)
    requires |cart| >= 1
    requires forall i :: 0 <= i < |cart| ==> '\n' !in DisplayName(cart[i], lang)
    ensures Split(Join(ItemLines(cart, lang), "\n"), '\n') == ItemLines(cart, lang)
  {
    var lines := ItemLines(cart, lang);
    assert forall i :: 0 <= i < |lines| ==> '\n' !in lines[i];
    SplitJoin(lines, '\n');
  }

  /** The shipping line of the email reads "S$20.00" for a non-empty cart and "S$0.00" for an empty one. */
  lemma OrderEmailShipping(form: CheckoutForm, cart: seq<CartItem>, payment: PaymentMethod, lang: Language)
    ensures cart == [] ==> OrderEmail(form, cart, payment, lang).shipping == "S$0.00"
    ensures cart != [] ==> OrderEmail(form, cart, payment, lang).shipping == "S$20.00"
  {
    ShippingTexts();
  }

  /** The two shipping amounts as the email writes them. */
  lemma ShippingTexts()
    ensures Money(0) == "S$0.00" && Money(ShippingFee) == "S$20.00"
  {
    assert NatToString(20) == "20" by { assert NatToString(2) == "2"; }
  }
}
