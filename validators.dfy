/**
 * backend/utils/validators.js: the express-validator chains as predicates on
 * the submitted field values, each chain giving the list of failed rules in
 * declaration order, and `handleValidationErrors`.
 *
 * Values are the submitted strings; a required field that is missing is the
 * empty string, an `.optional()` field that is missing is `None` (and skips
 * its rules). `.trim()` sanitises the value before the rules after it.
 * `isEmail`, `isMobilePhone('es-CO')`, `isMongoId` and `isFloat({ min: 0 })`
 * are library predicates and are taken as parameters.
 */
module Validators {
  import opened Wrappers
  import opened Text
  import ProductModel
  import OrderModel

  datatype Rule = Length | Email | Phone | PasswordLength | PasswordClasses | Required
                | NonNegativeNumber | Integer | MongoId | OneOf | NonEmptyArray

  /** One failed rule: the field path (`items[0].quantity` for wildcards) and the rule. */
  datatype FieldError = FieldError(path: string, rule: Rule)

  datatype Library = Library(
    isEmail: string -> bool,
    isMobilePhoneCO: string -> bool,
    isMongoId: string -> bool,
    isFloatMin0: string -> bool)

  function Rule1(ok: bool, path: string, rule: Rule): (errs: seq<FieldError>)
    ensures errs == [] <==> ok
    ensures !ok ==> errs == [FieldError(path, rule)]
  {
    if ok then [] else [FieldError(path, rule)]
  }

  /** `.isLength({ min, max })` on the (trimmed) value. */
  predicate LengthIn(s: string, min: nat, max: nat) {
    min <= |s| <= max
  }

  /** `.optional().trim().isLength({ max })`: a missing value passes. */
  predicate OptionalMax(s: Option<string>, max: nat) {
    s.None? || |Trim(s.value)| <= max
  }

  /** `.trim().notEmpty()` */
  predicate Filled(s: string) {
    Trim(s) != ""
  }

  // ---------------------------------------------------------------------
  // Integers and passwords

  predicate IsSign(c: char) { c == '+' || c == '-' }

  /** `isInt` with its default options: an optional sign and decimal digits (leading zeros allowed). */
  predicate IsIntText(s: string) {
    if |s| > 0 && IsSign(s[0]) then |s| > 1 && AllDigits(s[1..]) else |s| > 0 && AllDigits(s)
  }

  function IntTextValue(s: string): int
    requires IsIntText(s)
  {
    if IsSign(s[0]) then
      var v: int := DigitsValue(s[1..]);
      if s[0] == '-' then -v else v
    else DigitsValue(s)
  }

  /** `.isInt({ min })` */
  predicate IntAtLeast(s: string, min: int) {
    IsIntText(s) && IntTextValue(s) >= min
  }

  /** The decimal rendering of a natural passes `isInt` with its value. */
  lemma IntTextOfNat(n: nat)
    ensures IsIntText(NatToString(n)) && IntTextValue(NatToString(n)) == n
  {
    NatToStringValue(n);
    assert !IsSign(NatToString(n)[0]) by { assert IsDigit(NatToString(n)[0]); }
  }

  lemma NegativeStockRejected()
    ensures !IntAtLeast("-1", 0) && IntAtLeast("+0", 0) && IntAtLeast("007", 0)
  {
    assert DigitsValue("1") == 1 by { assert "1"[..0] == ""; }
    assert "-1"[1..] == "1";
    assert "+0"[1..] == "0";
    assert DigitsValue("0") == 0 by { assert "0"[..0] == ""; }
  }

  /** JavaScript's line terminators, which `.` in a regular expression does not match. */
  predicate IsLineTerminator(c: char) {
    c == '\n' || c == '\r' || c == '\U{2028}' || c == '\U{2029}'
  }

  /** The text before the first line terminator. */
  function FirstLine(s: string): (r: string)
    ensures r <= s
    ensures forall k :: 0 <= k < |r| ==> !IsLineTerminator(r[k])
    ensures |r| < |s| ==> IsLineTerminator(s[|r|])
  {
    if s == [] || IsLineTerminator(s[0]) then [] else [s[0]] + FirstLine(s[1..])
  }

  /**
   * `/^(?=.*[a-z])(?=.*[A-Z])(?=.*\d)/`: each lookahead scans from the start
   * over non-terminators, so the three classes must occur on the first line.
   */
  predicate HasPasswordClasses(s: string) {
    var line := FirstLine(s);
    && (exists i :: 0 <= i < |line| && IsAsciiLower(line[i]))
    && (exists i :: 0 <= i < |line| && IsAsciiUpper(line[i]))
    && (exists i :: 0 <= i < |line| && IsDigit(line[i]))
  }

  /** Without a line break the first line is the whole string. */
  lemma {:induction false} FirstLineWhole(s: string)
    requires forall k :: 0 <= k < |s| ==> !IsLineTerminator(s[k])
    ensures FirstLine(s) == s
  {
    if s != [] {
      assert forall k :: 0 <= k < |s[1..]| ==> s[1..][k] == s[k + 1];
      FirstLineWhole(s[1..]);
    }
  }

  /** A one-line password with a lowercase letter, an uppercase letter and a digit, such as `Abc123`, passes. */
  lemma ThreeClassesAccepted(s: string, lower: nat, upper: nat, digit: nat)
    requires forall k :: 0 <= k < |s| ==> !IsLineTerminator(s[k])
    requires lower < |s| && IsAsciiLower(s[lower])
    requires upper < |s| && IsAsciiUpper(s[upper])
    requires digit < |s| && IsDigit(s[digit])
    ensures HasPasswordClasses(s)
  {
    FirstLineWhole(s);
  }

  /** A password without an uppercase letter, such as `abc123`, fails the class rule. */
  lemma MissingUpperRejected(s: string)
    requires forall k :: 0 <= k < |s| ==> !IsAsciiUpper(s[k])
    ensures !HasPasswordClasses(s)
  {
    var line := FirstLine(s);
    assert forall i :: 0 <= i < |line| ==> line[i] == s[i];
  }

  /** A class that only occurs after a line break does not count. */
  lemma SecondLineIgnored()
    ensures !HasPasswordClasses("Ab\n123456")
  {
    var s := "Ab\n123456";
    assert FirstLine(s) == "Ab" by {
      assert s[1..] == "b\n123456";
      assert s[1..][1..] == "\n123456";
    }
  }

  // ---------------------------------------------------------------------
  // The chains

  datatype Registration = Registration(name: string, email: string, password: string, phone: Option<string>)

  function RegistrationErrors(r: Registration, lib: Library): (errs: seq<FieldError>)
    ensures errs == [] <==>
      && LengthIn(Trim(r.name), 2, 100)
      && lib.isEmail(r.email)
      && |r.password| >= 6 && HasPasswordClasses(r.password)
      && (r.phone.Some? ==> lib.isMobilePhoneCO(r.phone.value))
  {
    Rule1(LengthIn(Trim(r.name), 2, 100), "name", Length)
    + Rule1(lib.isEmail(r.email), "email", Email)
    + Rule1(|r.password| >= 6, "password", PasswordLength)
    + Rule1(HasPasswordClasses(r.password), "password", PasswordClasses)
    + (if r.phone.Some? then Rule1(lib.isMobilePhoneCO(r.phone.value), "phone", Phone) else [])
  }

  /** A short password with no digit fails both password rules: each failing rule is reported. */
  lemma PasswordRulesReportedSeparately(r: Registration, lib: Library)
    requires LengthIn(Trim(r.name), 2, 100) && lib.isEmail(r.email) && r.phone.None?
    requires |r.password| < 6 && !HasPasswordClasses(r.password)
    ensures RegistrationErrors(r, lib) == [FieldError("password", PasswordLength), FieldError("password", PasswordClasses)]
  {
  }

  function LoginErrors(email: string, password: string, lib: Library): (errs: seq<FieldError>)
    ensures errs == [] <==> lib.isEmail(email) && password != ""
  {
    Rule1(lib.isEmail(email), "email", Email) + Rule1(password != "", "password", Required)
  }

  datatype ProductFields = ProductFields(
    name: string, description: string, price: string, stock: string,
    category: string, producer: string, unit: string)

  function ProductErrors(p: ProductFields, lib: Library): (errs: seq<FieldError>)
    ensures errs == [] <==>
      && LengthIn(Trim(p.name), 2, 100)
      && LengthIn(Trim(p.description), 10, 1000)
      && lib.isFloatMin0(p.price)
      && IntAtLeast(p.stock, 0)
      && lib.isMongoId(p.category) && lib.isMongoId(p.producer)
      && p.unit in ProductModel.UnitNames
  {
    Rule1(LengthIn(Trim(p.name), 2, 100), "name", Length)
    + Rule1(LengthIn(Trim(p.description), 10, 1000), "description", Length)
    + Rule1(lib.isFloatMin0(p.price), "price", NonNegativeNumber)
    + Rule1(IntAtLeast(p.stock, 0), "stock", Integer)
    + Rule1(lib.isMongoId(p.category), "category", MongoId)
    + Rule1(lib.isMongoId(p.producer), "producer", MongoId)
    + Rule1(p.unit in ProductModel.UnitNames, "unit", OneOf)
  }

  /**
   * The route validator is stricter than the schema: a product body it accepts
   * also passes the schema's name, description, stock and unit constraints.
   */
  lemma ValidatorImpliesSchema(p: ProductFields, lib: Library, input: ProductModel.ProductInput)
    requires ProductErrors(p, lib) == []
    requires input.name == Trim(p.name) && input.description == Trim(p.description)
    requires input.stock == IntTextValue(p.stock) && input.unit == p.unit && input.price >= 0
    ensures ProductModel.SchemaErrors(input) == []
  {
    TrimIdempotent(p.name);
    TrimIdempotent(p.description);
  }

  function CategoryErrors(name: string, description: Option<string>): (errs: seq<FieldError>)
    ensures errs == [] <==> LengthIn(Trim(name), 2, 50) && OptionalMax(description, 200)
  {
    Rule1(LengthIn(Trim(name), 2, 50), "name", Length)
    + Rule1(OptionalMax(description, 200), "description", Length)
  }

  datatype ProducerFields = ProducerFields(
    name: string, email: Option<string>, phone: string, location: string, description: Option<string>)

  function ProducerErrors(p: ProducerFields, lib: Library): (errs: seq<FieldError>)
    ensures errs == [] <==>
      && LengthIn(Trim(p.name), 2, 100)
      && (p.email.Some? ==> lib.isEmail(p.email.value))
      && Filled(p.phone)
      && lib.isMongoId(p.location)
      && OptionalMax(p.description, 500)
  {
    Rule1(LengthIn(Trim(p.name), 2, 100), "name", Length)
    + (if p.email.Some? then Rule1(lib.isEmail(p.email.value), "email", Email) else [])
    + Rule1(Filled(p.phone), "phone", Required)
    + Rule1(lib.isMongoId(p.location), "location", MongoId)
    + Rule1(OptionalMax(p.description, 500), "description", Length)
  }

  function LocationErrors(city: string, department: string, country: Option<string>): (errs: seq<FieldError>)
    ensures errs == [] <==>
      LengthIn(Trim(city), 2, 100) && LengthIn(Trim(department), 2, 100) && OptionalMax(country, 100)
  {
    Rule1(LengthIn(Trim(city), 2, 100), "city", Length)
    + Rule1(LengthIn(Trim(department), 2, 100), "department", Length)
    + Rule1(OptionalMax(country, 100), "country", Length)
  }

  datatype ItemFields = ItemFields(product: string, quantity: string)

  datatype OrderFields = OrderFields(
    items: seq<ItemFields>, street: string, city: string, department: string, phone: string,
    paymentMethod: Option<string>, notes: Option<string>)

  function ItemPath(k: nat, field: string): string {
    "items[" + NatToString(k) + "]." + field
  }

  /** The wildcard rules `items.*.product` and `items.*.quantity`, one error per failing element. */
  function ItemErrors(items: seq<ItemFields>, from: nat, field: string, ok: ItemFields -> bool): (errs: seq<FieldError>)
    ensures errs == [] <==> forall k :: 0 <= k < |items| ==> ok(items[k])
    decreases |items|
  {
    if items == [] then []
    else Rule1(ok(items[0]), ItemPath(from, field), if field == "product" then MongoId else Integer)
         + ItemErrors(items[1..], from + 1, field, ok)
  }

  function OrderItemsErrors(items: seq<ItemFields>, lib: Library): (errs: seq<FieldError>)
    ensures errs == [] <==>
      && |items| >= 1
      && (forall k :: 0 <= k < |items| ==> lib.isMongoId(items[k].product))
      && (forall k :: 0 <= k < |items| ==> IntAtLeast(items[k].quantity, 1))
  {
    Rule1(|items| >= 1, "items", NonEmptyArray)
    + ItemErrors(items, 0, "product", (i: ItemFields) => lib.isMongoId(i.product))
    + ItemErrors(items, 0, "quantity", (i: ItemFields) => IntAtLeast(i.quantity, 1))
  }

  function AddressErrors(o: OrderFields): (errs: seq<FieldError>)
    ensures errs == [] <==> Filled(o.street) && Filled(o.city) && Filled(o.department) && Filled(o.phone)
  {
    Rule1(Filled(o.street), "shippingAddress.street", Required)
    + Rule1(Filled(o.city), "shippingAddress.city", Required)
    + Rule1(Filled(o.department), "shippingAddress.department", Required)
    + Rule1(Filled(o.phone), "shippingAddress.phone", Required)
  }

  function OrderErrors(o: OrderFields, lib: Library): (errs: seq<FieldError>)
    ensures errs == [] <==>
      && |o.items| >= 1
      && (forall k :: 0 <= k < |o.items| ==> lib.isMongoId(o.items[k].product))
      && (forall k :: 0 <= k < |o.items| ==> IntAtLeast(o.items[k].quantity, 1))
      && Filled(o.street) && Filled(o.city) && Filled(o.department) && Filled(o.phone)
      && (o.paymentMethod.Some? ==> o.paymentMethod.value in OrderModel.PaymentMethodNames)
      && OptionalMax(o.notes, 500)
  {
    var items := OrderItemsErrors(o.items, lib);
    var address := AddressErrors(o);
    var payment := Rule1(o.paymentMethod.None? || o.paymentMethod.value in OrderModel.PaymentMethodNames, "paymentMethod", OneOf);
    var notes := Rule1(OptionalMax(o.notes, 500), "notes", Length);
    assert |items + address + payment + notes| == |items| + |address| + |payment| + |notes|;
    items + address + payment + notes
  }

  /** An accepted payment method names one of the schema's four methods. */
  lemma AcceptedPaymentMethodParses(o: OrderFields, lib: Library)
    requires OrderErrors(o, lib) == [] && o.paymentMethod.Some?
    ensures OrderModel.ParsePaymentMethod(o.paymentMethod.value).Some?
  {
  }

  datatype Outcome = BadRequest(errors: seq<FieldError>) | Next

  /** `handleValidationErrors`: 400 with the list exactly when there is an error, else pass through. */
  function HandleValidationErrors(errs: seq<FieldError>): (r: Outcome)
    ensures r.BadRequest? <==> errs != []
    ensures r.BadRequest? ==> r.errors == errs
  {
    if errs != [] then BadRequest(errs) else Next
  }
}
