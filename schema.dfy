/**
 * The order ("pedido") schema: the rules a candidate order must satisfy
 * before the wizard may submit it, the default form values, and the option
 * catalogues the wizard offers (operations, payment methods, platforms).
 *
 * The schema library collects every failed check of every field, and a
 * validated order has its currency defaulted to "USD". The error list is
 * given in the order the fields are declared (nested `details` last), the
 * order of a synchronous parse.
 */
module PedidoSchema {

  datatype Option<T> = None | Some(value: T)

  datatype Result<T, E> = Ok(value: T) | Err(error: E)

  /** One validation issue: the path of the offending field and its message. */
  datatype FieldError = FieldError(path: seq<string>, message: string)

  // ---------------------------------------------------------------------
  // Enumerations
  // ---------------------------------------------------------------------

  datatype Operation = Compra | Venta | Cashout

  datatype PaymentMethod = Efectivo | Banco | CuentaCorriente

  /** The members of the operation enum, as the schema lists them. */
  const OPERATION_VALUES: seq<string> := ["compra", "venta", "cashout"]

  /** The members of the payment-method enum, as the schema lists them. */
  const PAYMENT_METHOD_VALUES: seq<string> := ["EFECTIVO", "BANCO", "CUENTA_CORRIENTE"]

  function OperationValue(op: Operation): string
  {
    match op
    case Compra => "compra"
    case Venta => "venta"
    case Cashout => "cashout"
  }

  function PaymentMethodValue(m: PaymentMethod): string
  {
    match m
    case Efectivo => "EFECTIVO"
    case Banco => "BANCO"
    case CuentaCorriente => "CUENTA_CORRIENTE"
  }

  /** Reads an operation; defined exactly on the enum's members. */
  function ParseOperation(s: string): (r: Option<Operation>)
    ensures r.Some? <==> s in OPERATION_VALUES
    ensures r.Some? ==> OperationValue(r.value) == s
  {
    if s == "compra" then Some(Compra)
    else if s == "venta" then Some(Venta)
    else if s == "cashout" then Some(Cashout)
    else None
  }

  /** Reads a payment method; defined exactly on the enum's members. */
  function ParsePaymentMethod(s: string): (r: Option<PaymentMethod>)
    ensures r.Some? <==> s in PAYMENT_METHOD_VALUES
    ensures r.Some? ==> PaymentMethodValue(r.value) == s
  {
    if s == "EFECTIVO" then Some(Efectivo)
    else if s == "BANCO" then Some(Banco)
    else if s == "CUENTA_CORRIENTE" then Some(CuentaCorriente)
    else None
  }

  lemma ParseOperationInverse(op: Operation)
    ensures OperationValue(op) in OPERATION_VALUES
    ensures ParseOperation(OperationValue(op)) == Some(op)
  {
  }

  lemma ParsePaymentMethodInverse(m: PaymentMethod)
    ensures PaymentMethodValue(m) in PAYMENT_METHOD_VALUES
    ensures ParsePaymentMethod(PaymentMethodValue(m)) == Some(m)
  {
  }

  // ---------------------------------------------------------------------
  // Candidate (unvalidated) and validated orders
  // ---------------------------------------------------------------------

  /** The `details` object as the form holds it; absent keys are None. */
  datatype DetailsInput = DetailsInput(
    email: Option<string>,
    paymentMethod: Option<string>,
    financing: Option<bool>,
    notes: Option<string>,
    accountInfo: Option<string>)

  /**
   * An order as the form holds it. The amount is the number the schema
   * coerces the amount input to; that coercion is not part of this model.
   */
  datatype PedidoInput = PedidoInput(
    name: Option<string>,
    userPhone: Option<string>,
    operation: Option<string>,
    platform: Option<string>,
    amount: real,
    currency: Option<string>,
    comprobanteUrl: Option<string>,
    details: Option<DetailsInput>)

  datatype Details = Details(
    email: Option<string>,
    paymentMethod: PaymentMethod,
    financing: Option<bool>,
    notes: Option<string>,
    accountInfo: Option<string>)

  /** A validated, normalised order (the schema's output type). */
  datatype Pedido = Pedido(
    name: string,
    userPhone: string,
    operation: Operation,
    platform: string,
    amount: real,
    currency: string,
    comprobanteUrl: Option<string>,
    details: Details)

  // ---------------------------------------------------------------------
  // Messages and limits
  // ---------------------------------------------------------------------

  /** The schema library's message for an absent required value. */
  const REQUIRED := "Required"
  const NAME_TOO_SHORT := "El nombre debe tener al menos 2 caracteres"
  const NAME_TOO_LONG := "El nombre es demasiado largo"
  const PHONE_TOO_SHORT := "El teléfono debe tener al menos 6 caracteres"
  const PHONE_TOO_LONG := "El teléfono es demasiado largo"
  const INVALID_OPERATION := "Tipo de operación inválido"
  const PLATFORM_MISSING := "Selecciona una plataforma"
  const PLATFORM_TOO_LONG := "El nombre de la plataforma es demasiado largo"
  const AMOUNT_NOT_POSITIVE := "El monto debe ser mayor a 0"
  const AMOUNT_TOO_LARGE := "El monto no puede exceder 1,000,000"
  const INVALID_URL := "URL de comprobante inválida"
  const INVALID_EMAIL := "Email inválido"
  const MISSING_PAYMENT_METHOD := "Selecciona un método de pago"
  const NOTES_TOO_LONG := "Las notas no pueden exceder 500 caracteres"

  const DEFAULT_CURRENCY := "USD"
  const MAX_AMOUNT: real := 1000000.0

  // ---------------------------------------------------------------------
  // Field rules
  // ---------------------------------------------------------------------

  /** Whether a character is encoded as two UTF-16 code units (a surrogate pair). */
  predicate IsAstral(c: char)
  {
    c as int >= 0x1_0000
  }

  /**
   * The length the schema's minimum and maximum checks compare: the number
   * of UTF-16 code units, two for each character outside the Basic
   * Multilingual Plane and one for every other character.
   */
  function Utf16Length(s: string): (n: nat)
    ensures |s| <= n <= 2 * |s|
    ensures (forall i :: 0 <= i < |s| ==> !IsAstral(s[i])) ==> n == |s|
  {
    if s == [] then 0
    else (if IsAstral(s[0]) then 2 else 1) + Utf16Length(s[1..])
  }


  /**
   * A required string with a minimum and a maximum length: each bound that
   * fails contributes its own message.
   */
  function LengthErrors(path: seq<string>, v: Option<string>, min: nat, max: nat,
                        minMessage: string, maxMessage: string): (errs: seq<FieldError>)
    requires min <= max
    ensures errs == [] <==> v.Some? && min <= Utf16Length(v.value) <= max
    ensures v.None? ==> errs == [FieldError(path, REQUIRED)]
    ensures v.Some? && Utf16Length(v.value) < min ==> errs == [FieldError(path, minMessage)]
    ensures v.Some? && max < Utf16Length(v.value) ==> errs == [FieldError(path, maxMessage)]
  {
    match v
    case None => [FieldError(path, REQUIRED)]
    case Some(s) =>
      var n := Utf16Length(s);
      (if n < min then [FieldError(path, minMessage)] else []) +
      (if max < n then [FieldError(path, maxMessage)] else [])
  }

  function NameErrors(v: Option<string>): (errs: seq<FieldError>)
    ensures errs == [] <==> v.Some? && 2 <= Utf16Length(v.value) <= 100
    ensures v.None? ==> errs == [FieldError(["name"], REQUIRED)]
    ensures v.Some? && Utf16Length(v.value) < 2 ==> errs == [FieldError(["name"], NAME_TOO_SHORT)]
    ensures v.Some? && 100 < Utf16Length(v.value) ==> errs == [FieldError(["name"], NAME_TOO_LONG)]
  {
    LengthErrors(["name"], v, 2, 100, NAME_TOO_SHORT, NAME_TOO_LONG)
  }

  /** A single emoji counts as two units, so as a name it meets the minimum of 2. */
  lemma EmojiCountsTwice()
    ensures Utf16Length("\U{1F600}") == 2
    ensures NameErrors(Some("\U{1F600}")) == []
  {
    assert IsAstral("\U{1F600}"[0]);
    assert "\U{1F600}"[1..] == "";
  }

  function PhoneErrors(v: Option<string>): (errs: seq<FieldError>)
    ensures errs == [] <==> v.Some? && 6 <= Utf16Length(v.value) <= 20
    ensures v.None? ==> errs == [FieldError(["user_phone"], REQUIRED)]
    ensures v.Some? && Utf16Length(v.value) < 6 ==> errs == [FieldError(["user_phone"], PHONE_TOO_SHORT)]
    ensures v.Some? && 20 < Utf16Length(v.value) ==> errs == [FieldError(["user_phone"], PHONE_TOO_LONG)]
  {
    LengthErrors(["user_phone"], v, 6, 20, PHONE_TOO_SHORT, PHONE_TOO_LONG)
  }

  function PlatformErrors(v: Option<string>): (errs: seq<FieldError>)
    ensures errs == [] <==> v.Some? && 2 <= Utf16Length(v.value) <= 50
    ensures v.None? ==> errs == [FieldError(["platform"], REQUIRED)]
    ensures v.Some? && Utf16Length(v.value) < 2 ==> errs == [FieldError(["platform"], PLATFORM_MISSING)]
    ensures v.Some? && 50 < Utf16Length(v.value) ==> errs == [FieldError(["platform"], PLATFORM_TOO_LONG)]
  {
    LengthErrors(["platform"], v, 2, 50, PLATFORM_MISSING, PLATFORM_TOO_LONG)
  }

  /** The operation enum: its custom message covers absence as well. */
  function OperationErrors(v: Option<string>): (errs: seq<FieldError>)
    ensures errs == [] <==> v.Some? && v.value in OPERATION_VALUES
    ensures errs != [] ==> errs == [FieldError(["operation"], INVALID_OPERATION)]
  {
    if v.Some? && ParseOperation(v.value).Some? then []
    else [FieldError(["operation"], INVALID_OPERATION)]
  }

  /** Positive, finite (given) and at most 1,000,000. */
  function AmountErrors(amount: real): (errs: seq<FieldError>)
    ensures errs == [] <==> 0.0 < amount <= MAX_AMOUNT
    ensures amount <= 0.0 ==> errs == [FieldError(["amount"], AMOUNT_NOT_POSITIVE)]
    ensures MAX_AMOUNT < amount ==> errs == [FieldError(["amount"], AMOUNT_TOO_LARGE)]
  {
    (if amount <= 0.0 then [FieldError(["amount"], AMOUNT_NOT_POSITIVE)] else []) +
    (if MAX_AMOUNT < amount then [FieldError(["amount"], AMOUNT_TOO_LARGE)] else [])
  }

  /**
   * A string that may be absent or empty, and otherwise must pass a format
   * check (e-mail or URL); `wellFormed` stands for the library's check.
   */
  function OptionalFormatErrors(path: seq<string>, v: Option<string>,
                                wellFormed: string -> bool, message: string): (errs: seq<FieldError>)
    ensures errs == [] <==> v.None? || v.value == "" || wellFormed(v.value)
    ensures errs != [] ==> errs == [FieldError(path, message)]
  {
    if v.None? || v.value == "" || wellFormed(v.value) then []
    else [FieldError(path, message)]
  }

  /** The payment-method enum: its custom message covers absence as well. */
  function PaymentMethodErrors(v: Option<string>): (errs: seq<FieldError>)
    ensures errs == [] <==> v.Some? && v.value in PAYMENT_METHOD_VALUES
    ensures errs != [] ==> errs == [FieldError(["details", "payment_method"], MISSING_PAYMENT_METHOD)]
  {
    if v.Some? && ParsePaymentMethod(v.value).Some? then []
    else [FieldError(["details", "payment_method"], MISSING_PAYMENT_METHOD)]
  }

  function NotesErrors(v: Option<string>): (errs: seq<FieldError>)
    ensures errs == [] <==> v.None? || Utf16Length(v.value) <= 500
    ensures errs != [] ==> errs == [FieldError(["details", "notes"], NOTES_TOO_LONG)]
  {
    if v.Some? && 500 < Utf16Length(v.value) then [FieldError(["details", "notes"], NOTES_TOO_LONG)] else []
  }

  /** The nested details object: required, then its e-mail, payment-method and notes rules. */
  function DetailsErrors(v: Option<DetailsInput>, isEmail: string -> bool): (errs: seq<FieldError>)
    ensures v.None? ==> errs == [FieldError(["details"], REQUIRED)]
    ensures errs == [] <==>
              && v.Some?
              && (v.value.email.None? || v.value.email.value == "" || isEmail(v.value.email.value))
              && v.value.paymentMethod.Some? && v.value.paymentMethod.value in PAYMENT_METHOD_VALUES
              && (v.value.notes.None? || Utf16Length(v.value.notes.value) <= 500)
  {
    match v
    case None => [FieldError(["details"], REQUIRED)]
    case Some(d) =>
      OptionalFormatErrors(["details", "email"], d.email, isEmail, INVALID_EMAIL) +
      PaymentMethodErrors(d.paymentMethod) +
      NotesErrors(d.notes)
  }

  /** Every issue the schema reports for a candidate, in the schema's order. */
  function Errors(c: PedidoInput, isEmail: string -> bool, isUrl: string -> bool): seq<FieldError>
  {
    NameErrors(c.name) +
    PhoneErrors(c.userPhone) +
    OperationErrors(c.operation) +
    PlatformErrors(c.platform) +
    AmountErrors(c.amount) +
    OptionalFormatErrors(["comprobante_url"], c.comprobanteUrl, isUrl, INVALID_URL) +
    DetailsErrors(c.details, isEmail)
  }

  // ---------------------------------------------------------------------
  // The validator
  // ---------------------------------------------------------------------

  /**
   * The rules of the schema, stated declaratively, one conjunct per rule.
   * Financing, account information and currency accept any value of their type.
   */
  predicate WellFormed(c: PedidoInput, isEmail: string -> bool, isUrl: string -> bool)
  {
    && c.name.Some? && 2 <= Utf16Length(c.name.value) <= 100
    && c.userPhone.Some? && 6 <= Utf16Length(c.userPhone.value) <= 20
    && c.operation.Some? && c.operation.value in OPERATION_VALUES
    && c.platform.Some? && 2 <= Utf16Length(c.platform.value) <= 50
    && 0.0 < c.amount <= MAX_AMOUNT
    && (c.comprobanteUrl.None? || c.comprobanteUrl.value == "" || isUrl(c.comprobanteUrl.value))
    && c.details.Some?
    && (c.details.value.email.None? || c.details.value.email.value == "" || isEmail(c.details.value.email.value))
    && c.details.value.paymentMethod.Some? && c.details.value.paymentMethod.value in PAYMENT_METHOD_VALUES
    && (c.details.value.notes.None? || Utf16Length(c.details.value.notes.value) <= 500)
  }

  /** The currency a validated order carries: the given one, or "USD". */
  function CurrencyOrDefault(v: Option<string>): string
  {
    match v
    case None => DEFAULT_CURRENCY
    case Some(s) => s
  }

  /**
   * Validates a candidate order: either the normalised order, or every
   * issue found. `isEmail` and `isUrl` stand for the library's format checks.
   */
  function Validate(c: PedidoInput, isEmail: string -> bool, isUrl: string -> bool): (r: Result<Pedido, seq<FieldError>>)
    ensures r.Err? ==> r.error != [] && r.error == Errors(c, isEmail, isUrl)
    ensures r.Ok? ==> c.name == Some(r.value.name) && c.userPhone == Some(r.value.userPhone)
    ensures r.Ok? ==> c.operation == Some(OperationValue(r.value.operation))
    ensures r.Ok? ==> c.platform == Some(r.value.platform) && c.amount == r.value.amount
    ensures r.Ok? ==> r.value.currency == (if c.currency.None? then "USD" else c.currency.value)
    ensures r.Ok? ==> c.comprobanteUrl == r.value.comprobanteUrl
    ensures r.Ok? ==> c.details.Some? && c.details.value.email == r.value.details.email
    ensures r.Ok? ==> c.details.value.paymentMethod == Some(PaymentMethodValue(r.value.details.paymentMethod))
    ensures r.Ok? ==> c.details.value.financing == r.value.details.financing
    ensures r.Ok? ==> c.details.value.notes == r.value.details.notes
    ensures r.Ok? ==> c.details.value.accountInfo == r.value.details.accountInfo
  {
    var errs := Errors(c, isEmail, isUrl);
    if errs != [] then Err(errs)
    else
      var d := c.details.value;
      Ok(Pedido(
        c.name.value,
        c.userPhone.value,
        ParseOperation(c.operation.value).value,
        c.platform.value,
        c.amount,
        CurrencyOrDefault(c.currency),
        c.comprobanteUrl,
        Details(d.email, ParsePaymentMethod(d.paymentMethod.value).value, d.financing, d.notes, d.accountInfo)))
  }

  /** The validator accepts exactly the candidates that satisfy every rule. */
  lemma ValidateAcceptsExactlyWellFormed(c: PedidoInput, isEmail: string -> bool, isUrl: string -> bool)
    ensures Validate(c, isEmail, isUrl).Ok? <==> WellFormed(c, isEmail, isUrl)
  {
  }

  /** A validated order, written back as form input. */
  function AsInput(p: Pedido): PedidoInput
  {
    PedidoInput(
      Some(p.name), Some(p.userPhone), Some(OperationValue(p.operation)), Some(p.platform),
      p.amount, Some(p.currency), p.comprobanteUrl,
      Some(DetailsInput(p.details.email, Some(PaymentMethodValue(p.details.paymentMethod)),
                        p.details.financing, p.details.notes, p.details.accountInfo)))
  }

  /** Validation is idempotent: a validated order validates to itself. */
  lemma ValidateIdempotent(c: PedidoInput, isEmail: string -> bool, isUrl: string -> bool)
    requires Validate(c, isEmail, isUrl).Ok?
    ensures Validate(AsInput(Validate(c, isEmail, isUrl).value), isEmail, isUrl) == Validate(c, isEmail, isUrl)
  {
  }

  /** A zero or negative amount is refused, with the amount's own message. */
  lemma NonPositiveAmountRejected(c: PedidoInput, isEmail: string -> bool, isUrl: string -> bool)
    requires c.amount <= 0.0
    ensures Validate(c, isEmail, isUrl).Err?
    ensures FieldError(["amount"], AMOUNT_NOT_POSITIVE) in Validate(c, isEmail, isUrl).error
  {
  }

  /** A missing payment method is refused, with the payment method's message. */
  lemma MissingPaymentMethodRejected(c: PedidoInput, isEmail: string -> bool, isUrl: string -> bool)
    requires c.details.Some? && c.details.value.paymentMethod.None?
    ensures Validate(c, isEmail, isUrl).Err?
    ensures FieldError(["details", "payment_method"], MISSING_PAYMENT_METHOD) in Validate(c, isEmail, isUrl).error
  {
  }

  // ---------------------------------------------------------------------
  // Default values and catalogues
  // ---------------------------------------------------------------------

  /** The wizard's initial form values. */
  const DEFAULT_VALUES: PedidoInput := PedidoInput(
    Some(""), Some(""), Some("compra"), Some(""), 0.0, Some("USD"), Some(""),
    Some(DetailsInput(Some(""), Some("BANCO"), Some(false), Some(""), Some(""))))

  /**
   * The initial values do not validate: name, phone and platform are too
   * short and the amount is zero. The enum defaults are nevertheless members.
   */
  lemma DefaultValuesRejected(isEmail: string -> bool, isUrl: string -> bool)
    ensures Validate(DEFAULT_VALUES, isEmail, isUrl) == Err([
      FieldError(["name"], NAME_TOO_SHORT),
      FieldError(["user_phone"], PHONE_TOO_SHORT),
      FieldError(["platform"], PLATFORM_MISSING),
      FieldError(["amount"], AMOUNT_NOT_POSITIVE)])
    ensures ParseOperation(DEFAULT_VALUES.operation.value) == Some(Compra)
    ensures ParsePaymentMethod(DEFAULT_VALUES.details.value.paymentMethod.value) == Some(Banco)
    ensures CurrencyOrDefault(DEFAULT_VALUES.currency) == DEFAULT_CURRENCY
  {
    var c := DEFAULT_VALUES;
    assert NameErrors(c.name) == [FieldError(["name"], NAME_TOO_SHORT)];
    assert PhoneErrors(c.userPhone) == [FieldError(["user_phone"], PHONE_TOO_SHORT)];
    assert OperationErrors(c.operation) == [] by { assert c.operation.value in OPERATION_VALUES; }
    assert PlatformErrors(c.platform) == [FieldError(["platform"], PLATFORM_MISSING)];
    assert AmountErrors(c.amount) == [FieldError(["amount"], AMOUNT_NOT_POSITIVE)];
    assert PaymentMethodErrors(c.details.value.paymentMethod) == [] by {
      assert c.details.value.paymentMethod.value in PAYMENT_METHOD_VALUES;
    }
    assert DetailsErrors(c.details, isEmail) == [];
    assert OptionalFormatErrors(["comprobante_url"], c.comprobanteUrl, isUrl, INVALID_URL) == [];
    assert Errors(c, isEmail, isUrl) == [
      FieldError(["name"], NAME_TOO_SHORT),
      FieldError(["user_phone"], PHONE_TOO_SHORT),
      FieldError(["platform"], PLATFORM_MISSING),
      FieldError(["amount"], AMOUNT_NOT_POSITIVE)];
  }

  /** A card the wizard offers for an enum field: the value it sets, its title and description. */
  datatype ChoiceOption = ChoiceOption(value: string, title: string, description: string)

  datatype PlatformCategory = Fichas | Crypto | Other

  datatype PlatformOption = PlatformOption(value: string, title: string, category: PlatformCategory)

  const OPERATIONS: seq<ChoiceOption> := [
    ChoiceOption("compra", "Comprar Fichas/Crypto", "Compra activos digitales"),
    ChoiceOption("venta", "Vender Fichas/Crypto", "Vende tus activos"),
    ChoiceOption("cashout", "Cashout", "Retira tu dinero")
  ]

  const PAYMENT_METHODS: seq<ChoiceOption> := [
    ChoiceOption("EFECTIVO", "Efectivo", "Pago en efectivo"),
    ChoiceOption("BANCO", "Transferencia Bancaria", "Transferencia o depósito bancario"),
    ChoiceOption("CUENTA_CORRIENTE", "Cuenta Corriente", "Financiamiento disponible")
  ]

  const PLATFORMS: seq<PlatformOption> := [
    PlatformOption("GGPoker", "GGPoker", Fichas),
    PlatformOption("PokerStars", "PokerStars", Fichas),
    PlatformOption("ACR", "Americas Cardroom (ACR)", Fichas),
    PlatformOption("PartyPoker", "PartyPoker", Fichas),
    PlatformOption("WPN", "Winning Poker Network", Fichas),
    PlatformOption("BTC", "Bitcoin (BTC)", Crypto),
    PlatformOption("USDT", "Tether (USDT)", Crypto),
    PlatformOption("ETH", "Ethereum (ETH)", Crypto),
    PlatformOption("USDC", "USD Coin (USDC)", Crypto),
    PlatformOption("OTRO", "Otra plataforma", Other)
  ]

  /** The values a catalogue of choices offers, in catalogue order. */
  function OptionValues(opts: seq<ChoiceOption>): (vs: seq<string>)
    ensures |vs| == |opts|
    ensures forall i :: 0 <= i < |opts| ==> vs[i] == opts[i].value
  {
    if opts == [] then [] else [opts[0].value] + OptionValues(opts[1..])
  }

  /** The operation catalogue offers exactly the enum's members, in the enum's order. */
  lemma OperationsMatchEnum()
    ensures OptionValues(OPERATIONS) == OPERATION_VALUES
    ensures forall op: Operation :: OperationValue(op) in OptionValues(OPERATIONS)
  {
  }

  /** The payment-method catalogue offers exactly the enum's members, in the enum's order. */
  lemma PaymentMethodsMatchEnum()
    ensures OptionValues(PAYMENT_METHODS) == PAYMENT_METHOD_VALUES
    ensures forall m: PaymentMethod :: PaymentMethodValue(m) in OptionValues(PAYMENT_METHODS)
  {
  }

  /** Every platform in the catalogue passes the platform rule. */
  lemma PlatformsPassPlatformRule()
    ensures forall i :: 0 <= i < |PLATFORMS| ==> PlatformErrors(Some(PLATFORMS[i].value)) == []
  {
  }
}
