/** The checkout page: the bill (subtotal, 5% tax rounded to the rupee, free
    delivery), the details form and its validation, the choice of payment
    option, and placing the order. The clock readings the page takes while
    paying and the outcome of the gateway call are parameters. */
module Checkout {
  import opened Util
  import opened Text
  import opened CartStore
  import opened OrderStore
  import opened ToastStore
  import Payment
  import OrdersPage

  // ---------------------------------------------------------------------------
  // The bill

  /** `Math.round(subtotal * 0.05)`, computed on integers. */
  function Taxes(subtotal: int): int {
    (5 * subtotal + 50) / 100
  }

  const DeliveryFee := 0

  function Total(subtotal: int): int {
    subtotal + Taxes(subtotal) + DeliveryFee
  }

  /** The tax is 5% of the subtotal rounded half up, as `Math.round` rounds:
      the largest integer not above `subtotal / 20 + 1/2`. */
  lemma TaxesRounding(subtotal: int)
    ensures Taxes(subtotal) as real <= subtotal as real / 20.0 + 0.5 < Taxes(subtotal) as real + 1.0
  {
    var t := Taxes(subtotal);
    var r := (5 * subtotal + 50) % 100;
    assert 5 * subtotal + 50 == 100 * t + r;
    assert subtotal as real / 20.0 + 0.5 == (100 * t + r) as real / 100.0;
    assert (100 * t + r) as real / 100.0 == t as real + r as real / 100.0;
  }

  /** The tax is within half a rupee of 5% of the subtotal, never negative on
      a non-negative subtotal, and the total is the subtotal plus the tax. */
  lemma TaxesBounds(subtotal: int)
    ensures -10 < 20 * Taxes(subtotal) - subtotal <= 10
    ensures subtotal >= 0 ==> 0 <= Taxes(subtotal) <= subtotal
    ensures Total(subtotal) == subtotal + Taxes(subtotal)
  {
    var t := Taxes(subtotal);
    var r := (5 * subtotal + 50) % 100;
    assert 5 * subtotal + 50 == 100 * t + r;
  }

  // ---------------------------------------------------------------------------
  // The order lines

  /** One cart line as the order records it: `{ id, name, price, quantity, image }`. */
  function ItemOf(line: CartLine): OrderItem {
    OrderItem(line.Id(), line.product.Name(), line.product.Price(), line.quantity, line.product.Image())
  }

  /** `items.map(...)`: the cart lines projected to order items, in cart order. */
  function Projected(lines: seq<CartLine>): (r: seq<OrderItem>)
    ensures |r| == |lines|
    ensures forall i :: 0 <= i < |lines| ==> r[i] == ItemOf(lines[i])
  {
    if lines == [] then [] else [ItemOf(lines[0])] + Projected(lines[1..])
  }

  /** The sum of price times quantity over order items. */
  function LineSum(items: seq<OrderItem>): int {
    if items == [] then 0 else items[0].price * items[0].quantity + LineSum(items[1..])
  }

  /** The recorded items carry the cart's unit count, and their prices add up
      to the subtotal that was charged. */
  lemma {:induction false} ProjectedTotals(lines: seq<CartLine>)
    ensures OrdersPage.ItemCount(Projected(lines)) == TotalItems(lines)
    ensures LineSum(Projected(lines)) == TotalPrice(lines)
  {
    if lines != [] {
      ProjectedTotals(lines[1..]);
      var p := Projected(lines);
      assert p[1..] == Projected(lines[1..]);
    }
  }

  /** Re-ordering a recorded order puts each product's units back: for a cart
      of positive quantities, the units of every id are its cart quantity. */
  lemma {:induction false} ProjectedReorder(lines: seq<CartLine>, id: int)
    requires WellFormed(lines)
    ensures OrdersPage.ReorderUnits(Projected(lines), id) == Quantity(lines, id)
    decreases |lines|
  {
    if lines != [] {
      var init := lines[..|lines| - 1];
      var last := lines[|lines| - 1];
      var p := Projected(lines);
      assert p[..|p| - 1] == Projected(init);
      assert p[|p| - 1] == ItemOf(last);
      assert lines == init + [last];
      assert WellFormed(init);
      ProjectedReorder(init, id);
      QuantityAppend(init, last, id);
    }
  }

  /** What `addOrder` receives for the current cart and form. */
  function Draft(lines: seq<CartLine>, form: CustomerForm, option: PaymentOption,
                 status: PaymentStatus, transactionId: Option<string>): OrderDraft {
    var subtotal := TotalPrice(lines);
    OrderDraft(Projected(lines), subtotal, Taxes(subtotal), DeliveryFee, Total(subtotal),
               form, option.name, status, transactionId)
  }

  /** An order draft's figures agree with one another and with its items. */
  lemma DraftConsistent(lines: seq<CartLine>, form: CustomerForm, option: PaymentOption,
                        status: PaymentStatus, transactionId: Option<string>)
    ensures var d := Draft(lines, form, option, status, transactionId);
      LineSum(d.items) == d.subtotal
      && d.total == d.subtotal + d.taxes + d.deliveryFee && d.deliveryFee == 0
      && OrdersPage.ItemCount(d.items) == TotalItems(lines)
  {
    ProjectedTotals(lines);
  }

  // ---------------------------------------------------------------------------
  // The form

  datatype Field = NameField | PhoneField | EmailField | NotesField | AddressField

  /** `{ ...prev, [name]: value }`. */
  function WithField(form: CustomerForm, field: Field, value: string): CustomerForm {
    match field
    case NameField => form.(name := value)
    case PhoneField => form.(phone := value)
    case EmailField => form.(email := value)
    case NotesField => form.(notes := value)
    case AddressField => form.(address := value)
  }

  /** `/^[6-9]\d{9}$/`: ten digits, the first of them 6 to 9. */
  predicate IndianMobile(t: string) {
    |t| == 10 && '6' <= t[0] <= '9' && AllDigits(t)
  }

  /** The class `[^\s@]`, throughout. */
  predicate NoSpaceOrAt(s: string) {
    forall k :: 0 <= k < |s| ==> !IsSpace(s[k]) && s[k] != '@'
  }

  /** `/^[^\s@]+@[^\s@]+\.[^\s@]+$/`: some split into three non-empty runs
      without white space or `@`, joined by `@` and a dot. */
  predicate EmailRegex(s: string) {
    exists i, j :: 0 < i < |s| && 0 < j < |s| && i + 1 < j && j + 1 < |s|
      && s[i] == '@' && s[j] == '.'
      && NoSpaceOrAt(s[..i]) && NoSpaceOrAt(s[i + 1..j]) && NoSpaceOrAt(s[j + 1..])
  }

  /** The position of the first `c` in `s`, or -1. */
  function IndexOfChar(s: string, c: char): (r: int)
    ensures -1 <= r < |s|
    ensures r >= 0 ==> s[r] == c && c !in s[..r]
    ensures r < 0 ==> c !in s
  {
    if s == [] then -1
    else if s[0] == c then 0
    else
      var k := IndexOfChar(s[1..], c);
      assert s == [s[0]] + s[1..];
      if k < 0 then -1 else (assert s[..k + 1] == [s[0]] + s[1..][..k]; k + 1)
  }

  /** A direct test for the address shape: one `@`, not first, no white
      space, and a dot strictly inside what follows the `@`. */
  predicate ValidEmail(s: string) {
    var i := IndexOfChar(s, '@');
    0 < i && NoSpaceOrAt(s[..i])
    && var rest := s[i + 1..];
       NoSpaceOrAt(rest) && |rest| >= 3 && '.' in rest[1..|rest| - 1]
  }

  /** The direct test accepts only strings the regular expression matches. */
  lemma ValidEmailMatches(s: string)
    requires ValidEmail(s)
    ensures EmailRegex(s)
  {
    var i := IndexOfChar(s, '@');
    var rest := s[i + 1..];
    var mid := rest[1..|rest| - 1];
    var k :| 0 <= k < |mid| && mid[k] == '.';
    var j := i + 2 + k;
    assert s[j] == '.';
    assert s[i + 1..j] == rest[..k + 1];
    assert s[j + 1..] == rest[k + 2..];
    assert NoSpaceOrAt(rest[..k + 1]);
    assert NoSpaceOrAt(rest[k + 2..]);
  }

  lemma NoSpaceOrAtConcat(x: string, y: string)
    ensures NoSpaceOrAt(x + y) <==> NoSpaceOrAt(x) && NoSpaceOrAt(y)
  {
    if NoSpaceOrAt(x + y) {
      assert forall k :: 0 <= k < |x| ==> x[k] == (x + y)[k];
      assert forall k :: 0 <= k < |y| ==> y[k] == (x + y)[|x| + k];
    }
  }

  /** The first `c` is at `a` when `s[a]` is `c` and no `c` comes before it. */
  lemma IndexOfCharAt(s: string, c: char, a: int)
    requires 0 <= a < |s| && s[a] == c && c !in s[..a]
    ensures IndexOfChar(s, c) == a
  {
    assert s[a] in s;
    var i := IndexOfChar(s, c);
    assert forall k :: 0 <= k < a ==> s[..a][k] == s[k];
    assert forall k :: 0 <= k < i ==> s[..i][k] == s[k];
  }

  /** A match at the split `a`, `j` passes the direct test. */
  lemma MatchAtIsValidEmail(s: string, a: int, j: int)
    requires 0 < a && a + 1 < j && j + 1 < |s| && s[a] == '@' && s[j] == '.'
    requires NoSpaceOrAt(s[..a]) && NoSpaceOrAt(s[a + 1..j]) && NoSpaceOrAt(s[j + 1..])
    ensures ValidEmail(s)
  {
    assert '@' !in s[..a];
    IndexOfCharAt(s, '@', a);
    var rest := s[a + 1..];
    var left, right := s[a + 1..j], s[j + 1..];
    assert rest == left + [s[j]] + right by {
      assert |rest| == |left| + 1 + |right|;
      forall k | 0 <= k < |rest| ensures rest[k] == (left + [s[j]] + right)[k] {
        assert rest[k] == s[a + 1 + k];
      }
    }
    NoSpaceOrAtConcat(left, [s[j]]);
    NoSpaceOrAtConcat(left + [s[j]], right);
    assert rest[1..|rest| - 1][j - a - 2] == '.';
  }

  /** Every string the regular expression matches passes the direct test. */
  lemma MatchIsValidEmail(s: string)
    requires EmailRegex(s)
    ensures ValidEmail(s)
  {
    var a, j :| 0 < a < |s| && 0 < j < |s| && a + 1 < j && j + 1 < |s|
      && s[a] == '@' && s[j] == '.'
      && NoSpaceOrAt(s[..a]) && NoSpaceOrAt(s[a + 1..j]) && NoSpaceOrAt(s[j + 1..]);
    MatchAtIsValidEmail(s, a, j);
  }

  /** The direct test accepts exactly the strings the regular expression matches. */
  lemma EmailIff(s: string)
    ensures ValidEmail(s) <==> EmailRegex(s)
  {
    if ValidEmail(s) {
      ValidEmailMatches(s);
    }
    if EmailRegex(s) {
      MatchIsValidEmail(s);
    }
  }

  /** The name rule: required, judged after trimming. */
  function NameError(name: string): (r: Option<string>)
    ensures r.Some? <==> AllSpace(name)
    ensures r.Some? ==> r.value != ""
  {
    TrimEmptyIffBlank(name);
    if Trim(name) == "" then Some("Name is required") else None
  }

  /** The phone rule: required, then a mobile number, judged after trimming. */
  function PhoneError(phone: string): (r: Option<string>)
    ensures r.Some? <==> !IndianMobile(Trim(phone))
    ensures r.Some? ==> r.value != ""
  {
    var t := Trim(phone);
    if t == "" then Some("Phone number is required")
    else if !IndianMobile(t) then Some("Enter a valid 10-digit phone number")
    else None
  }

  /** The email rule: optional, but well formed when given. */
  function EmailError(email: string): (r: Option<string>)
    ensures r.Some? <==> email != "" && !ValidEmail(email)
    ensures r.Some? ==> r.value != ""
  {
    if email != "" && !ValidEmail(email) then Some("Enter a valid email address") else None
  }

  /** The message the rule for `f` produces, if any; notes and address have no rule. */
  function FieldError(form: CustomerForm, f: Field): Option<string> {
    match f
    case NameField => NameError(form.name)
    case PhoneField => PhoneError(form.phone)
    case EmailField => EmailError(form.email)
    case _ => None
  }

  /** `validateForm`'s error map: one entry for each rule that fails, holding
      that rule's message. */
  function FormErrors(form: CustomerForm): (r: map<Field, string>)
    ensures r.Keys <= {NameField, PhoneField, EmailField}
  {
    map f | f in {NameField, PhoneField, EmailField} && FieldError(form, f).Some? :: FieldError(form, f).value
  }

  lemma FormErrorsName(form: CustomerForm)
    ensures NameField in FormErrors(form) <==> AllSpace(form.name)
  {
  }

  lemma FormErrorsPhone(form: CustomerForm)
    ensures PhoneField in FormErrors(form) <==> !IndianMobile(Trim(form.phone))
  {
  }

  lemma FormErrorsEmail(form: CustomerForm)
    ensures EmailField in FormErrors(form) <==> form.email != "" && !EmailRegex(form.email)
  {
    EmailIff(form.email);
  }

  lemma FormErrorsMessages(form: CustomerForm)
    ensures forall f :: f in FormErrors(form) ==> FormErrors(form)[f] != ""
  {
  }

  /** The error map names the name exactly when it is blank, the phone
      exactly when its trimmed form is no mobile number, and the email exactly
      when one is given that the regular expression rejects; every entry
      carries a message. */
  lemma FormErrorsSpec(form: CustomerForm)
    ensures NameField in FormErrors(form) <==> AllSpace(form.name)
    ensures PhoneField in FormErrors(form) <==> !IndianMobile(Trim(form.phone))
    ensures EmailField in FormErrors(form) <==> form.email != "" && !EmailRegex(form.email)
    ensures forall f :: f in FormErrors(form) ==> FormErrors(form)[f] != ""
  {
    FormErrorsName(form);
    FormErrorsPhone(form);
    FormErrorsEmail(form);
    FormErrorsMessages(form);
  }

  /** The form passes exactly when no rule fails. */
  lemma FormValidIff(form: CustomerForm)
    ensures FormErrors(form) == map[] <==>
      !AllSpace(form.name) && IndianMobile(Trim(form.phone)) && (form.email == "" || EmailRegex(form.email))
  {
    var r := FormErrors(form);
    FormErrorsSpec(form);
    if NameField !in r && PhoneField !in r && EmailField !in r {
      assert r.Keys == {};
    }
  }

  /** An empty phone number gets the "required" message and a malformed one
      the "valid number" message. */
  lemma PhoneMessages(form: CustomerForm)
    ensures Trim(form.phone) == "" ==> FormErrors(form)[PhoneField] == "Phone number is required"
    ensures Trim(form.phone) != "" && !IndianMobile(Trim(form.phone)) ==>
      FormErrors(form)[PhoneField] == "Enter a valid 10-digit phone number"
  {
  }

  /** An ordinary address is accepted. */
  lemma EmailAccepted()
    ensures EmailRegex("diner@cafe.in")
  {
    var s := "diner@cafe.in";
    assert s[5] == '@' && s[10] == '.';
    assert s[..5] == "diner" && s[6..10] == "cafe" && s[11..] == "in";
  }

  /** An address with nothing after the dot, or with a space before the `@`, is rejected. */
  lemma EmailRejected()
    ensures !EmailRegex("a@b.")
    ensures !EmailRegex("a b@c.de")
  {
    var t := "a b@c.de";
    EmailIff(t);
    assert IndexOfChar(t, '@') == 3;
    assert t[..3][1] == ' ';
  }

  /** The profile prefill effect: a saved name replaces the typed one, and
      the phone comes from the signed-in number without `+91`, else from the
      saved phone, else stays as typed. `authPhone` is "" when signed out. */
  function Prefilled(form: CustomerForm, savedName: string, savedPhone: string, authPhone: string): (r: CustomerForm)
    ensures r.email == form.email && r.notes == form.notes && r.address == form.address
    ensures savedName == "" ==> r.name == form.name
    ensures savedName == "" && savedPhone == "" && authPhone == "" ==> r == form
  {
    var fromAuth := RemoveFirst(authPhone, "+91");
    form.(name := if savedName != "" then savedName else form.name,
          phone := if fromAuth != "" then fromAuth else if savedPhone != "" then savedPhone else form.phone)
  }

  /** A signed-in number `+91` followed by the digits fills in just the digits. */
  lemma PrefillSignedIn(form: CustomerForm, savedName: string, savedPhone: string, digits: string)
    requires digits != ""
    ensures Prefilled(form, savedName, savedPhone, "+91" + digits).phone == digits
  {
    var s := "+91" + digits;
    assert StartsWith(s, "+91");
    assert s[3..] == digits;
  }

  // ---------------------------------------------------------------------------
  // Payment options and the page

  datatype PaymentOption = PaymentOption(id: string, name: string, description: string, popular: bool)

  const PaymentOptions := [
    PaymentOption("phonepe", "PhonePe", "UPI Payment", true),
    PaymentOption("gpay", "Google Pay", "UPI Payment", true),
    PaymentOption("paytm", "Paytm", "UPI, Wallet, Cards", false),
    PaymentOption("upi", "Other UPI", "Any UPI App", false),
    PaymentOption("card", "Credit/Debit Card", "Visa, Mastercard, RuPay", false),
    PaymentOption("netbanking", "Net Banking", "All Indian Banks", false),
    PaymentOption("cod", "Pay at Counter", "Cash or Card at pickup", false)
  ]

  /** The options paid through the UPI gateway. */
  predicate IsUpi(option: PaymentOption) {
    option.id in ["phonepe", "gpay", "paytm", "upi"]
  }

  /** Four of the listed options go through the gateway, one is paid at the
      counter and the rest are paid at once. */
  lemma OptionsByRoute()
    ensures |PaymentOptions| == 7
    ensures forall i :: 0 <= i < 4 ==> IsUpi(PaymentOptions[i])
    ensures forall i :: 4 <= i < 7 ==> !IsUpi(PaymentOptions[i])
    ensures forall i :: 0 <= i < 7 ==> (PaymentOptions[i].id == "cod" <==> i == 6)
  {
    assert !IsUpi(PaymentOptions[4]) && !IsUpi(PaymentOptions[5]) && !IsUpi(PaymentOptions[6]);
  }

  datatype Step = DetailsStep | PaymentStep | ProcessingStep | SuccessStep

  /** The empty-cart effect: the page sends the diner home when the cart is
      empty, unless it is showing the success screen. */
  predicate LeavesPage(lines: seq<CartLine>, step: Step) {
    |lines| == 0 && step != SuccessStep
  }

  /** The message the catch block shows: the error's message, or a fixed text. */
  function FailureMessage(message: string): string {
    if message != "" then message else "Payment failed. Please try again."
  }

  /** A failed gateway call always shows the gateway's own message. */
  lemma GatewayFailureShown(thrown: string)
    ensures FailureMessage(Payment.FailureText(thrown)) == Payment.FailureText(thrown)
  {
  }

  /** The clock readings taken while paying: the order id sent to the gateway,
      the transaction id's clock, the stored transaction's stamp, the two
      toasts, and the id and date `addOrder` stamps. */
  datatype Instants = Instants(
    orderDataId: int, transactionClock: nat, storedAt: int,
    redirectToast: int, resultToast: int, placedId: int, placedDate: string)

  class CheckoutPage {
    var step: Step
    var selectedPayment: Option<PaymentOption>
    var form: CustomerForm
    var errors: map<Field, string>

    constructor()
      ensures step == DetailsStep && selectedPayment == None
      ensures form == CustomerForm("", "", "", "", "") && errors == map[]
    {
      step := DetailsStep;
      selectedPayment := None;
      form := CustomerForm("", "", "", "", "");
      errors := map[];
    }

    method PrefillFromProfile(savedName: string, savedPhone: string, authPhone: string)
      modifies `form
      ensures form == Prefilled(old(form), savedName, savedPhone, authPhone)
    {
      form := Prefilled(form, savedName, savedPhone, authPhone);
    }

    /** The location effect: a detected address fills an empty address field. */
    method PrefillAddress(detected: string)
      modifies `form
      ensures form == if detected != "" && old(form).address == "" then old(form).(address := detected) else old(form)
    {
      if detected != "" && form.address == "" {
        form := form.(address := detected);
      }
    }

    /** `validateForm()`: replaces the errors and reports whether there are none. */
    method ValidateForm() returns (valid: bool)
      modifies `errors
      ensures errors == FormErrors(form)
      ensures valid <==> !AllSpace(form.name) && IndianMobile(Trim(form.phone)) && (form.email == "" || EmailRegex(form.email))
      ensures valid <==> errors == map[]
    {
      errors := FormErrors(form);
      valid := |errors| == 0;
      FormValidIff(form);
      assert valid <==> errors.Keys == {};
    }

    /** `handleInputChange`: stores the value and blanks a shown error for that field. */
    method HandleInputChange(field: Field, value: string)
      modifies `form, `errors
      ensures form == WithField(old(form), field, value)
      ensures errors == if field in old(errors) && old(errors)[field] != "" then old(errors)[field := ""] else old(errors)
    {
      form := WithField(form, field, value);
      if field in errors && errors[field] != "" {
        errors := errors[field := ""];
      }
    }

    /** `handleProceedToPayment`: moves to the payment step only on a valid form. */
    method HandleProceedToPayment()
      modifies `errors, `step
      ensures errors == FormErrors(form)
      ensures step == if errors == map[] then PaymentStep else old(step)
    {
      var valid := ValidateForm();
      if valid {
        step := PaymentStep;
      }
    }

    /** The back button: from the payment step back to the details, otherwise
      leave the page (`navigateBack`). */
    method HandleBack() returns (navigateBack: bool)
      modifies `step
      ensures navigateBack <==> old(step) != PaymentStep
      ensures step == if old(step) == PaymentStep then DetailsStep else old(step)
    {
      navigateBack := step != PaymentStep;
      if !navigateBack {
        step := DetailsStep;
      }
    }

    /** The ending every placed order shares: `addOrder`, `clearCart`, the
        success step and a success toast. */
    method PlaceOrder(draft: OrderDraft, message: string, cart: Cart, orders: Orders, toasts: Toasts, at: Instants)
      modifies `step, cart, orders, toasts
      ensures step == SuccessStep && cart.items == [] && cart.Valid()
      ensures orders.orders == [Stamp(draft, at.placedId, at.placedDate)] + old(orders.orders)
      ensures toasts.toasts == Raised(old(toasts.toasts), at.resultToast, message, Some(Success))
    {
      var placed := orders.AddOrder(draft, at.placedId, at.placedDate);
      cart.ClearCart();
      step := SuccessStep;
      toasts.AddToast(message, Some(Success), at.resultToast);
    }

    /** The gateway branch of `handlePayment`: the payment order carries the
        cart's lines and the total; an initiated payment places a completed
        order with its transaction id, a failed one shows its error and
        returns to the payment step. */
    method PayThroughGateway(option: PaymentOption, config: Payment.GatewayConfig,
                             cart: Cart, orders: Orders, toasts: Toasts, gateway: Payment.PaymentService,
                             at: Instants, random: string, thrown: Option<string>)
      modifies `step, cart, orders, toasts, gateway
      ensures thrown.Some? ==>
        step == PaymentStep
        && cart.items == old(cart.items) && orders.orders == old(orders.orders)
        && gateway.pending == old(gateway.pending)
        && toasts.toasts == Raised(old(toasts.toasts), at.resultToast, Payment.FailureText(thrown.value), Some(Error))
      ensures thrown.None? ==>
        var txn := Payment.TransactionId(at.transactionClock, random);
        var subtotal := TotalPrice(old(cart.items));
        gateway.pending == Some(Payment.Recorded(txn,
          Payment.PaymentOrder(at.orderDataId, Total(subtotal), Projected(old(cart.items))), at.storedAt))
        && orders.orders == [Stamp(Draft(old(cart.items), form, option, Completed, Some(txn)), at.placedId, at.placedDate)] + old(orders.orders)
        && toasts.toasts == Raised(Raised(old(toasts.toasts), at.redirectToast, "Redirecting to payment...", Some(Info)),
                                   at.resultToast, "Payment successful!", Some(Success))
        && step == SuccessStep && cart.items == []
    {
      var lines := cart.items;
      var subtotal := TotalPrice(lines);
      var taxes := Taxes(subtotal);
      var total := subtotal + taxes + DeliveryFee;
      var items := Projected(lines);
      var order := Payment.PaymentOrder(at.orderDataId, total, items);
      var result := gateway.InitiatePayment(config, order, form.phone, at.transactionClock, random, at.storedAt, thrown);
      if result.Initiated? {
        toasts.AddToast("Redirecting to payment...", Some(Info), at.redirectToast);
        var draft := OrderDraft(items, subtotal, taxes, DeliveryFee, total, form, option.name, Completed, Some(result.transactionId));
        PlaceOrder(draft, "Payment successful!", cart, orders, toasts, at);
      } else {
        GatewayFailureShown(thrown.value);
        toasts.AddToast(FailureMessage(result.error), Some(Error), at.resultToast);
        step := PaymentStep;
      }
    }

    /** `handlePayment(option)`. Gateway options initiate a payment and, when
        that succeeds, record a completed order with the transaction id; the
        counter option records a pending order; the rest a completed one. A
        failed initiation shows its error and returns to the payment step. */
    method HandlePayment(option: PaymentOption, config: Payment.GatewayConfig,
                         cart: Cart, orders: Orders, toasts: Toasts, gateway: Payment.PaymentService,
                         at: Instants, random: string, thrown: Option<string>)
      modifies this, cart, orders, toasts, gateway
      ensures selectedPayment == Some(option) && form == old(form) && errors == old(errors)
      ensures IsUpi(option) && thrown.Some? ==>
        step == PaymentStep
        && cart.items == old(cart.items) && orders.orders == old(orders.orders)
        && gateway.pending == old(gateway.pending)
        && toasts.toasts == Raised(old(toasts.toasts), at.resultToast, Payment.FailureText(thrown.value), Some(Error))
      ensures IsUpi(option) && thrown.None? ==>
        var txn := Payment.TransactionId(at.transactionClock, random);
        var subtotal := TotalPrice(old(cart.items));
        step == SuccessStep && cart.items == []
        && gateway.pending == Some(Payment.Recorded(txn,
          Payment.PaymentOrder(at.orderDataId, Total(subtotal), Projected(old(cart.items))), at.storedAt))
        && orders.orders == [Stamp(Draft(old(cart.items), form, option, Completed, Some(txn)), at.placedId, at.placedDate)] + old(orders.orders)
        && toasts.toasts == Raised(Raised(old(toasts.toasts), at.redirectToast, "Redirecting to payment...", Some(Info)),
                                   at.resultToast, "Payment successful!", Some(Success))
      ensures !IsUpi(option) ==>
        step == SuccessStep && cart.items == []
        && gateway.pending == old(gateway.pending)
        && orders.orders == [Stamp(Draft(old(cart.items), form, option,
                                         if option.id == "cod" then Pending else Completed, None),
                                   at.placedId, at.placedDate)] + old(orders.orders)
        && toasts.toasts == Raised(old(toasts.toasts), at.resultToast,
                                   if option.id == "cod" then "Order placed! Pay at counter." else "Payment successful!",
                                   Some(Success))
      ensures step != PaymentStep ==> step == SuccessStep && cart.items == [] && !LeavesPage(cart.items, step)
    {
      selectedPayment := Some(option);
      step := ProcessingStep;
      if IsUpi(option) {
        PayThroughGateway(option, config, cart, orders, toasts, gateway, at, random, thrown);
        return;
      }
      var lines := cart.items;
      var subtotal := TotalPrice(lines);
      var taxes := Taxes(subtotal);
      var total := subtotal + taxes + DeliveryFee;
      var items := Projected(lines);
      if option.id == "cod" {
        var draft := OrderDraft(items, subtotal, taxes, DeliveryFee, total, form, option.name, Pending, None);
        PlaceOrder(draft, "Order placed! Pay at counter.", cart, orders, toasts, at);
      } else {
        var draft := OrderDraft(items, subtotal, taxes, DeliveryFee, total, form, option.name, Completed, None);
        PlaceOrder(draft, "Payment successful!", cart, orders, toasts, at);
      }
    }
  }
}
