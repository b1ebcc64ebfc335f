/** The checkout page: fees and totals, and the two-step flow from the
    shipping address to the placed order. Amounts are in cents. */
module Checkout {
  import opened Seqs
  import opened Cart

  const FreeDeliveryAbove: int := 250000
  const StandardDeliveryFee: int := 15000
  const CodFee: int := 5000

  /** `total > 2500 ? 0 : 150`. */
  function DeliveryFee(subtotal: int): (r: int)
    ensures r == 0 <==> subtotal > FreeDeliveryAbove
    ensures r == 0 || r == StandardDeliveryFee
  {
    if subtotal > FreeDeliveryAbove then 0 else StandardDeliveryFee
  }

  /** `finalTotal`: the subtotal plus delivery. */
  function FinalTotal(subtotal: int): (r: int)
    ensures subtotal <= r <= subtotal + StandardDeliveryFee
    ensures r == subtotal <==> subtotal > FreeDeliveryAbove
    ensures subtotal <= FreeDeliveryAbove ==> r == subtotal + StandardDeliveryFee
  {
    subtotal + DeliveryFee(subtotal)
  }

  /** Free delivery makes a slightly larger basket cheaper overall: the
      total is not monotone at the threshold. */
  lemma ThresholdDip()
    ensures FinalTotal(FreeDeliveryAbove + 1) < FinalTotal(FreeDeliveryAbove)
  {
  }

  /** The Total line of the summary: cash on delivery adds its fee. */
  function GrandTotal(subtotal: int, payment: string): (r: int)
    ensures payment == "cod" ==> r == FinalTotal(subtotal) + CodFee
    ensures payment != "cod" ==> r == FinalTotal(subtotal)
  {
    FinalTotal(subtotal) + (if payment == "cod" then CodFee else 0)
  }

  /** The total `handlePlaceOrder` hands to the dashboard: `finalTotal`,
      whatever payment method was chosen. */
  function ConfirmedTotal(subtotal: int, payment: string): int
  {
    FinalTotal(subtotal)
  }

  /** The confirmed order total is the total the summary showed except
      under cash on delivery, where it leaves out the fee. */
  lemma ConfirmedTotalOmitsCodFee(subtotal: int, payment: string)
    ensures ConfirmedTotal(subtotal, payment) == GrandTotal(subtotal, payment) <==> payment != "cod"
    ensures payment == "cod" ==> GrandTotal(subtotal, payment) - ConfirmedTotal(subtotal, payment) == CodFee
  {
  }

  datatype AddressField =
    FirstName | LastName | Email | Phone | Street | City | Province | PostalCode

  datatype ShippingAddress = ShippingAddress(
    firstName: string, lastName: string, email: string, phone: string,
    address: string, city: string, province: string, postalCode: string)

  const EmptyAddress := ShippingAddress("", "", "", "", "", "", "", "")

  function Get(a: ShippingAddress, f: AddressField): string
  {
    match f
    case FirstName => a.firstName
    case LastName => a.lastName
    case Email => a.email
    case Phone => a.phone
    case Street => a.address
    case City => a.city
    case Province => a.province
    case PostalCode => a.postalCode
  }

  /** `{ ...prev, [field]: value }`: only the named field changes. */
  function With(a: ShippingAddress, f: AddressField, value: string): (r: ShippingAddress)
    ensures Get(r, f) == value
    ensures forall g :: g != f ==> Get(r, g) == Get(a, g)
  {
    match f
    case FirstName => a.(firstName := value)
    case LastName => a.(lastName := value)
    case Email => a.(email := value)
    case Phone => a.(phone := value)
    case Street => a.(address := value)
    case City => a.(city := value)
    case Province => a.(province := value)
    case PostalCode => a.(postalCode := value)
  }

  const RequiredFields: seq<AddressField> :=
    [FirstName, LastName, Email, Phone, Street, City, Province, PostalCode]

  lemma EveryFieldRequired(f: AddressField)
    ensures f in RequiredFields
  {
    match f
    case FirstName => assert RequiredFields[0] == f;
    case LastName => assert RequiredFields[1] == f;
    case Email => assert RequiredFields[2] == f;
    case Phone => assert RequiredFields[3] == f;
    case Street => assert RequiredFields[4] == f;
    case City => assert RequiredFields[5] == f;
    case Province => assert RequiredFields[6] == f;
    case PostalCode => assert RequiredFields[7] == f;
  }

  /** `requiredFields.filter(field => !shippingAddress[field])`. */
  function MissingFields(a: ShippingAddress): (r: seq<AddressField>)
    ensures forall f :: f in r <==> Get(a, f) == ""
    ensures |r| == 0 <==> forall f :: Get(a, f) != ""
  {
    var r := Filter(RequiredFields, (f: AddressField) => Get(a, f) == "");
    forall f ensures f in r <==> Get(a, f) == "" {
      EveryFieldRequired(f);
    }
    assert |r| > 0 ==> r[0] in r;
    r
  }

  /** Where a button sends the shopper. */
  datatype Exit = Stay | ToCart | ToDashboard(orderTotal: int)

  class CheckoutPage {
    const subtotal: int
    const cart: CartRecorder
    var step: int
    var address: ShippingAddress
    var selectedPayment: string
    var exit: Exit

    ghost predicate Valid()
      reads this
    {
      step == 1 || step == 2
    }

    /** Opening checkout with an empty cart redirects to the cart;
        `lineCount` is the number of cart lines (`items.length`). */
    constructor (cart: CartRecorder, subtotal: int, lineCount: int)
      ensures this.cart == cart && this.subtotal == subtotal
      ensures step == 1 && address == EmptyAddress && selectedPayment == "card"
      ensures exit == if lineCount == 0 then ToCart else Stay
      ensures Valid()
    {
      this.cart := cart;
      this.subtotal := subtotal;
      step := 1;
      address := EmptyAddress;
      selectedPayment := "card";
      exit := if lineCount == 0 then ToCart else Stay;
    }

    method HandleInputChange(field: AddressField, value: string)
      modifies this
      ensures address == With(old(address), field, value)
      ensures step == old(step) && selectedPayment == old(selectedPayment) && exit == old(exit)
    {
      address := With(address, field, value);
    }

    method SelectPayment(id: string)
      modifies this
      ensures selectedPayment == id
      ensures step == old(step) && address == old(address) && exit == old(exit)
    {
      selectedPayment := id;
    }

    /** The address form, shown at step 1: on to payment only when all eight
        fields are filled in. */
    method HandleAddressSubmit()
      requires step == 1
      modifies this
      ensures step == 2 <==> forall f :: Get(address, f) != ""
      ensures step == 1 <==> exists f :: Get(address, f) == ""
      ensures address == old(address) && selectedPayment == old(selectedPayment) && exit == old(exit)
      ensures Valid()
    {
      var missing := MissingFields(address);
      if |missing| > 0 {
        assert Get(address, missing[0]) == "";
        return;
      }
      step := 2;
    }

    /** The Back button: to the cart from step 1, to step 1 from step 2. */
    method Back()
      requires Valid()
      modifies this
      ensures old(step) == 1 ==> exit == ToCart && step == 1
      ensures old(step) == 2 ==> exit == old(exit) && step == 1
      ensures address == old(address) && selectedPayment == old(selectedPayment)
      ensures Valid()
    {
      if step == 1 {
        exit := ToCart;
      } else {
        step := 1;
      }
    }

    /** The Place Order button, shown at step 2: the cart is cleared once and
        the dashboard is told `finalTotal`. */
    method HandlePlaceOrder()
      requires step == 2
      modifies this, cart
      ensures cart.calls == old(cart.calls) + [CartCall.ClearCart]
      ensures exit == ToDashboard(ConfirmedTotal(subtotal, selectedPayment))
      ensures exit.orderTotal == GrandTotal(subtotal, selectedPayment) - (if selectedPayment == "cod" then CodFee else 0)
      ensures step == old(step) && address == old(address) && selectedPayment == old(selectedPayment)
    {
      cart.ClearCart();
      exit := ToDashboard(ConfirmedTotal(subtotal, selectedPayment));
    }
  }
}
