/**
 * The `Home` component's cart and checkout state, as an object whose fields
 * are the component's state variables and whose methods are its handlers.
 * `handleCompleteOrder` is asynchronous: it suspends while the messaging
 * service answers and again during a one-second delay, and the other
 * handlers can run in between. Its three stretches of synchronous work are
 * three methods: `SubmitOrder` up to the send, `EmailAnswered` once the
 * service answers, and `FinishOrder` after the delay. What the suspended
 * call holds on to across the awaits is a `PendingOrder` value.
 */
module Storefront {
  import opened Text
  import opened Catalog
  import opened Cart
  import opened Checkout
  import opened Order

  /** Which notice `addToCart` raises: a new line, or a raised quantity. */
  datatype CartNotice = Added | QuantityIncreased

  /** An observable step of the order workflow, recorded in the order the component takes it. */
  datatype Step =
    | ProcessingStarted
    | EmailStatusSet(status: EmailStatus)
    | EmailDispatched(params: EmailParams)
    | PaymentPrompted(payment: PaymentMethod, amount: int)
    | OrderCompleted
    | CartCleared
    | ProcessingEnded

  /**
   * What a suspended `handleCompleteOrder` keeps from the render it started
   * in: the email it handed to the service, and that render's payment method
   * and cart, which it reads again after the awaits.
   */
  datatype PendingOrder = PendingOrder(email: EmailParams, payment: PaymentMethod, cart: seq<CartItem>)

  /** The outcome's status once the messaging service answers. */
  function Outcome(delivered: bool): EmailStatus {
    if delivered then Sent else Error
  }

  /** The steps after the delay: the payment prompt with the grand total, then completion, clearing and the end of processing. */
  function ClosingSteps(payment: PaymentMethod, cart: seq<CartItem>): seq<Step> {
    [PaymentPrompted(payment, TotalAmount(cart)), OrderCompleted, CartCleared, ProcessingEnded]
  }

  /** The state variables together, to say in one place what a handler leaves alone. */
  datatype State = State(
    cart: seq<CartItem>, checkoutForm: CheckoutForm, selectedPaymentMethod: PaymentMethod,
    isProcessing: bool, orderComplete: bool, emailStatus: EmailStatus,
    language: Language, isCartOpen: bool, isCheckoutOpen: bool)

  class Home {
    var cart: seq<CartItem>
    var checkoutForm: CheckoutForm
    var selectedPaymentMethod: PaymentMethod
    var isProcessing: bool
    var orderComplete: bool
    var emailStatus: EmailStatus
    var language: Language
    var isCartOpen: bool
    var isCheckoutOpen: bool
    /** The workflow steps taken so far, oldest first. */
    ghost var steps: seq<Step>

    function Snapshot(): State
      reads this
    {
      State(cart, checkoutForm, selectedPaymentMethod, isProcessing, orderComplete, emailStatus, language, isCartOpen, isCheckoutOpen)
    }

    /** One line per product id and every quantity at least 1, whether or not an order is in flight. */
    ghost predicate Valid()
      reads this
    {
      Cart.Valid(cart)
    }

    constructor ()
      ensures Valid() && steps == []
      ensures Snapshot() == State([], EmptyForm, PayNow, false, false, Unsent, English, false, false)
    {
      cart := [];
      checkoutForm := EmptyForm;
      selectedPaymentMethod := PayNow;
      isProcessing := false;
      orderComplete := false;
      emailStatus := Unsent;
      language := English;
      isCartOpen := false;
      isCheckoutOpen := false;
      steps := [];
    }

    method AddToCart(p: Product) returns (notice: CartNotice)
      requires Valid() && WellFormedPrice(p.price)
      modifies this
      ensures Valid() && steps == old(steps)
      ensures Snapshot() == old(Snapshot()).(cart := AddItem(old(cart), p))
      ensures notice == if Contains(old(cart), p.id) then QuantityIncreased else Added
    {
      notice := if Contains(cart, p.id) then QuantityIncreased else Added;
      AddItemValid(cart, p);
      cart := AddItem(cart, p);
    }

    method RemoveFromCart(productId: string)
      requires Valid()
      modifies this
      ensures Valid() && steps == old(steps)
      ensures Snapshot() == old(Snapshot()).(cart := Remove(old(cart), productId))
    {
      RemoveValid(cart, productId);
      cart := Remove(cart, productId);
    }

    method UpdateQuantity(productId: string, newQuantity: int)
      requires Valid()
      modifies this
      ensures Valid() && steps == old(steps)
      ensures Snapshot() == old(Snapshot()).(cart := Cart.UpdateQuantity(old(cart), productId, newQuantity))
    {
      if newQuantity <= 0 {
        RemoveFromCart(productId);
        return;
      }
      UpdateQuantityValid(cart, productId, newQuantity);
      cart := Cart.UpdateQuantity(cart, productId, newQuantity);
    }

    /** `handleCheckoutFormChange` */
    method ChangeField(field: Field, value: string)
      requires Valid()
      modifies this
      ensures Valid() && steps == old(steps)
      ensures Snapshot() == old(Snapshot()).(checkoutForm := Set(old(checkoutForm), field, value))
    {
      checkoutForm := Set(checkoutForm, field, value);
    }

    /** `setSelectedPaymentMethod` from the two payment buttons. */
    method SelectPaymentMethod(payment: PaymentMethod)
      requires Valid()
      modifies this
      ensures Valid() && steps == old(steps)
      ensures Snapshot() == old(Snapshot()).(selectedPaymentMethod := payment)
    {
      selectedPaymentMethod := payment;
    }

    /** `setIsCartOpen`: the cart icons open the drawer; its own close and "continue shopping" shut it. */
    method SetCartOpen(open: bool)
      requires Valid()
      modifies this
      ensures Valid() && steps == old(steps)
      ensures Snapshot() == old(Snapshot()).(isCartOpen := open)
    {
      isCartOpen := open;
    }

    /** The cart's checkout button: the cart closes and checkout opens. */
    method OpenCheckout()
      requires Valid()
      modifies this
      ensures Valid() && steps == old(steps)
      ensures Snapshot() == old(Snapshot()).(isCartOpen := false, isCheckoutOpen := true)
    {
      isCartOpen := false;
      isCheckoutOpen := true;
    }

    /**
     * The checkout dialog's own close (`onOpenChange`): only the dialog
     * closes, so a completed order stays complete.
     */
    method CloseCheckout()
      requires Valid()
      modifies this
      ensures Valid() && steps == old(steps)
      ensures Snapshot() == old(Snapshot()).(isCheckoutOpen := false)
    {
      isCheckoutOpen := false;
    }

    /**
     * `sendOrderEmail` up to its await: shows "sending", composes the
     * parameters from the render's cart, payment method and language, and
     * hands them to the messaging service.
     */
    method SendOrderEmail(orderData: CheckoutForm) returns (params: EmailParams)
      modifies this
      ensures params == OrderEmail(orderData, old(cart), old(selectedPaymentMethod), old(language))
      ensures Snapshot() == old(Snapshot()).(emailStatus := Sending)
      ensures steps == old(steps) + [EmailStatusSet(Sending), EmailDispatched(params)]
    {
      params := OrderEmail(orderData, cart, selectedPaymentMethod, language);
      emailStatus := Sending;
      steps := steps + [EmailStatusSet(Sending), EmailDispatched(params)];
    }

    /**
     * `sendOrderEmail` after its await: "sent" when the service accepted the
     * message, "error" when it failed. The failure is caught here and goes
     * no further.
     */
    method EmailAnswered(delivered: bool)
      requires Valid()
      modifies this
      ensures Valid()
      ensures Snapshot() == old(Snapshot()).(emailStatus := Outcome(delivered))
      ensures steps == old(steps) + [EmailStatusSet(Outcome(delivered))]
    {
      emailStatus := Outcome(delivered);
      steps := steps + [EmailStatusSet(Outcome(delivered))];
    }

    /**
     * `handleCompleteOrder` up to its first await. The button is disabled
     * while an order is in flight. An incomplete form stops it before
     * anything changes; otherwise processing starts and the email goes out,
     * and the call suspends with this render's payment method and cart.
     */
    method SubmitOrder() returns (pending: Option<PendingOrder>)
      requires Valid() && !isProcessing
      modifies this
      ensures Valid()
      ensures !Validate(old(checkoutForm)) ==>
        pending == None && Snapshot() == old(Snapshot()) && steps == old(steps)
      ensures Validate(old(checkoutForm)) ==>
        && pending == Some(PendingOrder(OrderEmail(old(checkoutForm), old(cart), old(selectedPaymentMethod), old(language)),
                                        old(selectedPaymentMethod), old(cart)))
        && Snapshot() == old(Snapshot()).(isProcessing := true, emailStatus := Sending)
        && steps == old(steps) + [ProcessingStarted] + [EmailStatusSet(Sending), EmailDispatched(pending.value.email)]
    {
      if !Validate(checkoutForm) {
        pending := None;
        return;
      }
      isProcessing := true;
      steps := steps + [ProcessingStarted];
      var payment, submitted := selectedPaymentMethod, cart;
      var params := SendOrderEmail(checkoutForm);
      pending := Some(PendingOrder(params, payment, submitted));
    }

    /**
     * `handleCompleteOrder` after the delay. It prompts for the payment
     * method of the render the order started in, with that render's grand
     * total, then marks the order complete, empties the cart, whatever was
     * added meanwhile, and ends processing. The prompt is the result.
     */
    method FinishOrder(pending: PendingOrder) returns (prompted: PaymentMethod, amount: int)
      requires Valid()
      modifies this
      ensures Valid()
      ensures prompted == pending.payment && amount == TotalAmount(pending.cart)
      ensures Snapshot() == old(Snapshot()).(cart := [], orderComplete := true, isProcessing := false)
      ensures steps == old(steps) + ClosingSteps(pending.payment, pending.cart)
    {
      prompted, amount := pending.payment, TotalAmount(pending.cart);
      orderComplete := true;
      cart := [];
      isProcessing := false;
      steps := steps + ClosingSteps(pending.payment, pending.cart);
    }

    /**
     * `handleCompleteOrder` when no other handler runs during its awaits: an
     * incomplete form changes nothing; otherwise the email of the form and
     * cart as they were goes out, and the order ends complete with the cart
     * empty and processing over, whatever the email's fate. The result is the
     * email handed to the messaging service, if any.
     */
    method CompleteOrder(delivered: bool) returns (email: Option<EmailParams>)
      requires Valid() && !isProcessing
      modifies this
      ensures Valid() && !isProcessing
      ensures !Validate(old(checkoutForm)) ==>
        email == None && Snapshot() == old(Snapshot()) && steps == old(steps)
      ensures Validate(old(checkoutForm)) ==>
        && email == Some(OrderEmail(old(checkoutForm), old(cart), old(selectedPaymentMethod), old(language)))
        && Snapshot() == old(Snapshot()).(cart := [], orderComplete := true, emailStatus := Outcome(delivered))
        && steps == old(steps) + [ProcessingStarted] + [EmailStatusSet(Sending), EmailDispatched(email.value)]
                    + [EmailStatusSet(Outcome(delivered))] + ClosingSteps(old(selectedPaymentMethod), old(cart))
    {
      var pending := SubmitOrder();
      if pending == None {
        email := None;
        return;
      }
      EmailAnswered(delivered);
      var _, _ := FinishOrder(pending.value);
      email := Some(pending.value.email);
    }

    /** `resetCheckout` ("back to shopping"): closes checkout and clears the form and the order's status. */
    method ResetCheckout()
      requires Valid()
      modifies this
      ensures Valid() && steps == old(steps)
      ensures Snapshot() == old(Snapshot()).(isCheckoutOpen := false, orderComplete := false,
                                             emailStatus := Unsent, checkoutForm := EmptyForm)
    {
      isCheckoutOpen := false;
      orderComplete := false;
      emailStatus := Unsent;
      checkoutForm := EmptyForm;
    }
  }

  /** A form a buyer would submit: every required field filled in, no notes. */
  const SampleForm := CheckoutForm("Ana", "Lim", "ana@example.com", "91234567",
    "1 Orchard Road", "Singapore", "238801", "Singapore", "")

  /** Types the sample form's required fields in, one change at a time. */
  method FillRequired(home: Home)
    requires home.Valid()
    modifies home
    ensures home.Valid() && home.steps == old(home.steps)
    ensures home.Snapshot() == old(home.Snapshot()).(checkoutForm := SampleForm.(notes := old(home.checkoutForm.notes)))
  {
    home.ChangeField(FirstName, "Ana");
    home.ChangeField(LastName, "Lim");
    home.ChangeField(Email, "ana@example.com");
    home.ChangeField(Phone, "91234567");
    home.ChangeField(Address, "1 Orchard Road");
    home.ChangeField(City, "Singapore");
    home.ChangeField(PostalCode, "238801");
    home.ChangeField(Country, "Singapore");
  }

  /** The sample form passes validation. */
  lemma SampleFormAccepted()
    ensures Validate(SampleForm)
  {
    forall f | f != Notes
      ensures Get(SampleForm, f) != [] && !IsWhitespace(Get(SampleForm, f)[0])
    {
      var c := Get(SampleForm, f)[0];
      assert c in "ALa912S";
    }
    LeadingContentAccepted(SampleForm);
  }

  /** A fresh page where the buyer put one bottle in the cart and filled the form in. */
  method ReadyToOrder() returns (home: Home)
    ensures fresh(home) && home.Valid() && home.steps == []
    ensures home.Snapshot() == State([NewLine(Anejo)], SampleForm, PayNow, false, false, Unsent, English, false, false)
  {
    home := new Home();
    AnejoPrice();
    var _ := home.AddToCart(Anejo);
    FillRequired(home);
  }

  /** The item block of a one-bottle order splits back into its one item line. */
  lemma OneAnejoItemBlock()
    ensures WellFormedPrice(Anejo.price)
    ensures Split(Join(ItemLines([NewLine(Anejo)], English), "\n"), '\n') == ItemLines([NewLine(Anejo)], English)
  {
    AnejoPrice();
    var cart := [NewLine(Anejo)];
    assert '\n' !in DisplayName(cart[0], English);
    ItemBlockLines(cart, English);
  }

  /**
   * A buyer adds two bottles, fills the form, leaves notes blank, pays by
   * PayNow, and the email fails: the order still completes with an empty
   * cart, the email carried the grand total of 320, and the status says the
   * email failed. Back to shopping then clears the status and keeps the
   * payment choice.
   */
  method OrderCompletesDespiteEmailFailure()
    returns (email: Option<EmailParams>, status: EmailStatus, cartAfter: seq<CartItem>, complete: bool,
             statusAfterReset: EmailStatus, paymentAfterReset: PaymentMethod)
    ensures email.Some? && ParseMoney(email.value.totalAmount) == Some(320)
    ensures status == Error && cartAfter == [] && complete
    ensures statusAfterReset == Unsent && paymentAfterReset == PayNow
  {
    var home := ReadyToOrder();
    AnejoPrice();
    var _ := home.AddToCart(Anejo);
    ghost var cart := [NewLine(Anejo).(quantity := 2)];
    assert home.cart == cart by {
      AddExisting([NewLine(Anejo)], Anejo, 0);
    }
    TwoAnejos();
    assert Subtotal(cart) + ShippingCost(cart) == 320;
    OrderEmailAmounts(SampleForm, cart, PayNow, English);
    SampleFormAccepted();
    email := home.CompleteOrder(false);
    status, cartAfter, complete := home.emailStatus, home.cart, home.orderComplete;
    home.ResetCheckout();
    statusAfterReset, paymentAfterReset := home.emailStatus, home.selectedPaymentMethod;
  }

  /** With one required field left blank, completing the order changes nothing and sends nothing. */
  method BlankFieldBlocksOrder() returns (email: Option<EmailParams>, cartAfter: seq<CartItem>, complete: bool, status: EmailStatus)
    ensures email == None && cartAfter == [NewLine(Anejo)]
    ensures !complete && status == Unsent
  {
    var home := ReadyToOrder();
    home.ChangeField(City, "  ");
    assert !Validate(home.checkoutForm) by {
      ValidateRefusesBlank(home.checkoutForm, City);
    }
    email := home.CompleteOrder(true);
    cartAfter, complete, status := home.cart, home.orderComplete, home.emailStatus;
  }

  /**
   * The buyer switches to PayPal while the order waits: the prompt is still
   * the PayNow one, read from the render the order started in, while PayPal
   * stays selected.
   */
  method PaymentSwitchedWhileWaiting() returns (prompted: PaymentMethod, selected: PaymentMethod)
    ensures prompted == PayNow && selected == PayPal
  {
    var home := ReadyToOrder();
    SampleFormAccepted();
    var pending := home.SubmitOrder();
    home.EmailAnswered(true);
    home.SelectPaymentMethod(PayPal);
    var amount;
    prompted, amount := home.FinishOrder(pending.value);
    selected := home.selectedPaymentMethod;
  }

  /**
   * The buyer closes checkout and adds another bottle while the order
   * waits: the email went out with the first bottle only, and the bottle
   * added meanwhile is wiped when the order completes.
   */
  method CartEditWhileWaitingIsLost() returns (emailed: EmailParams, cartMeanwhile: seq<CartItem>, cartAfter: seq<CartItem>)
    ensures ParseMoney(emailed.subtotal) == Some(150)
    ensures Split(emailed.orderItems, '\n') == ItemLines([NewLine(Anejo)], English)
    ensures Contains(cartMeanwhile, ExtraAnejo.id) && cartAfter == []
  {
    var home := ReadyToOrder();
    AnejoPrice();
    ExtraAnejoPrice();
    SampleFormAccepted();
    var pending := home.SubmitOrder();
    assert Subtotal([NewLine(Anejo)]) == 150 by { SingleLineSubtotal(NewLine(Anejo)); }
    OrderEmailAmounts(SampleForm, [NewLine(Anejo)], PayNow, English);
    OneAnejoItemBlock();
    home.CloseCheckout();
    var _ := home.AddToCart(ExtraAnejo);
    cartMeanwhile := home.cart;
    home.EmailAnswered(true);
    var _, _ := home.FinishOrder(pending.value);
    emailed, cartAfter := pending.value.email, home.cart;
  }

  /**
   * After an order completes, closing the dialog by its own close leaves the
   * order marked complete, so the next checkout opens on the completed order
   * rather than on the form.
   */
  method ReopenedCheckoutShowsCompletedOrder() returns (open: bool, complete: bool)
    ensures open && complete
  {
    var home := ReadyToOrder();
    home.OpenCheckout();
    SampleFormAccepted();
    var _ := home.CompleteOrder(true);
    home.CloseCheckout();
    AnejoPrice();
    var _ := home.AddToCart(Anejo);
    home.OpenCheckout();
    open, complete := home.isCheckoutOpen, home.orderComplete;
  }
}
