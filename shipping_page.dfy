/**
 * The shipping step of checkout: five required fields of at least two
 * characters, a submit that saves the address and moves on to payment, and
 * a "choose on map" button that saves whatever the fields hold, unchecked.
 */
module ShippingPage {
  import opened Common
  import opened Types
  import opened FormRules
  import Store
  import Client

  const MinLength: nat := 2

  const PaymentPath := "/payment"
  const MapPath := "/map"
  const LoginPath := "/login?redirect=/shipping"

  /**
   * The destructuring the page starts with,
   * `const { userInfo, cart: { shippingAddress } } = state`, against the
   * store as utils/Store.tsx defines it. `userInfo` reads as `undefined`,
   * and the state has no `cart`, so rendering throws: the mount effect,
   * the submit handler and the map handler never come to exist.
   */
  function StateAsWritten(s: Store.State): (r: Result<seq<Store.JsValue>>)
    ensures r == Err(Store.TypeError)
  {
    var paths := [["userInfo"], ["cart", "shippingAddress"]];
    Store.MissingPropertyThrows(s, "cart", "shippingAddress");
    assert Store.Read(Store.StateObject(s), paths[1]).Err?;
    Store.ReadAll(Store.StateObject(s), paths)
  }

  datatype ShippingErrors = ShippingErrors(
    fullName: Option<FieldError>,
    address: Option<FieldError>,
    city: Option<FieldError>,
    postalCode: Option<FieldError>,
    country: Option<FieldError>)

  function Validate(a: ShippingAddress): ShippingErrors {
    ShippingErrors(
      CheckText(a.fullName, MinLength),
      CheckText(a.address, MinLength),
      CheckText(a.city, MinLength),
      CheckText(a.postalCode, MinLength),
      CheckText(a.country, MinLength))
  }

  predicate NoErrors(e: ShippingErrors) {
    e.fullName.None? && e.address.None? && e.city.None? && e.postalCode.None? && e.country.None?
  }

  /** Every field of a submittable address is at least two UTF-16 code units long, and conversely. */
  lemma ValidAddressIff(a: ShippingAddress)
    ensures NoErrors(Validate(a)) <==>
      && Utf16Length(a.fullName) >= 2 && Utf16Length(a.address) >= 2 && Utf16Length(a.city) >= 2
      && Utf16Length(a.postalCode) >= 2 && Utf16Length(a.country) >= 2
  {
  }

  /** A single empty field is reported as missing and stops the submit. */
  lemma EmptyFieldIsRequired(a: ShippingAddress)
    requires a.city == ""
    ensures Validate(a).city == Some(Required) && !NoErrors(Validate(a))
  {
  }

  /** Dispatch the address to the store, save it in its cookie, and go to `path`. */
  method Save(b: Client.Browser, a: ShippingAddress, path: string)
    modifies b
    ensures b.dispatched == old(b.dispatched) + [Store.SaveShippingAddress(a)]
    ensures b.cookies == old(b.cookies)["shippingAddress" := Client.ShippingAddressCookie(a)]
    ensures b.history == old(b.history) + [path]
    ensures b.store == old(b.store) && b.notices == old(b.notices)
  {
    b.Dispatch(Store.SaveShippingAddress(a));
    b.SetCookie("shippingAddress", Client.ShippingAddressCookie(a));
    b.Push(path);
  }

  /** `handleSubmit(submitHandler)`: the handler runs only on a valid form. */
  method Submit(b: Client.Browser, form: ShippingAddress) returns (submitted: bool)
    modifies b
    ensures submitted <==> NoErrors(Validate(form))
    ensures submitted ==>
      && b.dispatched == old(b.dispatched) + [Store.SaveShippingAddress(form)]
      && b.cookies == old(b.cookies)["shippingAddress" := Client.ShippingAddressCookie(form)]
      && b.history == old(b.history) + [PaymentPath]
    ensures !submitted ==>
      b.dispatched == old(b.dispatched) && b.cookies == old(b.cookies) && b.history == old(b.history)
    ensures b.store == old(b.store) && b.notices == old(b.notices)
  {
    submitted := NoErrors(Validate(form));
    if submitted {
      Save(b, form, PaymentPath);
    }
  }

  /**
   * `chooseLocationHandler`: the current field values are saved and the map
   * opened without validation, so an empty or one-letter address is stored.
   */
  method ChooseLocation(b: Client.Browser, form: ShippingAddress)
    modifies b
    ensures b.dispatched == old(b.dispatched) + [Store.SaveShippingAddress(form)]
    ensures b.cookies == old(b.cookies)["shippingAddress" := Client.ShippingAddressCookie(form)]
    ensures b.history == old(b.history) + [MapPath]
    ensures b.store == old(b.store) && b.notices == old(b.notices)
  {
    Save(b, form, MapPath);
  }

  /**
   * The mount effect: an anonymous visitor is sent to log in, and, since the
   * effect does not return there, the form is filled from `stored` in
   * either case. The result is the form's values afterwards.
   */
  method Mount(b: Client.Browser, userInfo: Option<UserInfo>, stored: ShippingAddress) returns (form: ShippingAddress)
    modifies b
    ensures form == stored
    ensures b.history == old(b.history) + (if userInfo.None? then [LoginPath] else [])
    ensures b.dispatched == old(b.dispatched) && b.cookies == old(b.cookies)
    ensures b.store == old(b.store) && b.notices == old(b.notices)
  {
    if userInfo.None? {
      b.Push(LoginPath);
    }
    form := ShippingAddress("", "", "", "", "");
    form := form.(fullName := stored.fullName);
    form := form.(address := stored.address);
    form := form.(city := stored.city);
    form := form.(country := stored.country);
    form := form.(postalCode := stored.postalCode);
  }
}
