/**
 * The order wizard's controller: a six-step counter with forward and back
 * navigation, the stepper's per-step flags, the visible navigation
 * controls, the payload sent to the order store, the classification of the
 * store's answer, and the submission state (`isSubmitting`, the created
 * order). Rendering is not modelled; the notification ("toast") the page
 * raises is returned as a value.
 */
module OrderWizard {
  import opened PedidoSchema

  // ---------------------------------------------------------------------
  // Steps and navigation
  // ---------------------------------------------------------------------

  datatype Step = Step(id: int, name: string, description: string)

  const STEPS: seq<Step> := [
    Step(1, "Operación", "Qué deseas hacer"),
    Step(2, "Activo", "Selecciona la plataforma"),
    Step(3, "Monto", "Cantidad a operar"),
    Step(4, "Pago", "Método de pago"),
    Step(5, "Contacto", "Tus datos"),
    Step(6, "Confirmación", "Revisa tu pedido")
  ]

  /** A step number the wizard can show. */
  predicate InRange(step: int)
  {
    1 <= step <= |STEPS|
  }

  /** Steps are numbered 1 to 6 in order. */
  lemma StepIdsAreSequential()
    ensures |STEPS| == 6
    ensures forall i :: 0 <= i < |STEPS| ==> STEPS[i].id == i + 1
  {
  }

  /** The step shown for a step number. */
  function StepInfo(step: int): (s: Step)
    requires InRange(step)
    ensures s.id == step && s in STEPS
  {
    STEPS[step - 1]
  }

  /** The step after "Siguiente": one further, except on the last step. */
  function Next(step: int): int
  {
    if step < |STEPS| then step + 1 else step
  }

  /** The step after "Anterior": one back, except on the first step. */
  function Prev(step: int): int
  {
    if step > 1 then step - 1 else step
  }

  /** Navigation never leaves the range of steps, and does nothing at the ends. */
  lemma NavigationKeepsRange(step: int)
    requires InRange(step)
    ensures InRange(Next(step)) && InRange(Prev(step))
    ensures Next(step) == step <==> step == |STEPS|
    ensures Prev(step) == step <==> step == 1
  {
  }

  /** Going forward and then back returns to the same step, and vice versa. */
  lemma NavigationUndoes(step: int)
    ensures 1 <= step < |STEPS| ==> Prev(Next(step)) == step
    ensures 1 < step <= |STEPS| ==> Next(Prev(step)) == step
  {
  }

  datatype Move = Forward | Back

  function Apply(step: int, m: Move): int
  {
    match m
    case Forward => Next(step)
    case Back => Prev(step)
  }

  /** The step reached after a sequence of button presses. */
  function Navigate(step: int, moves: seq<Move>): int
    decreases |moves|
  {
    if moves == [] then step else Navigate(Apply(step, moves[0]), moves[1..])
  }

  function Repeat(m: Move, n: nat): (ms: seq<Move>)
    ensures |ms| == n
    ensures forall i :: 0 <= i < n ==> ms[i] == m
  {
    if n == 0 then [] else [m] + Repeat(m, n - 1)
  }

  function Min(a: int, b: int): int { if a <= b then a else b }

  function Max(a: int, b: int): int { if a >= b then a else b }

  /** Starting in range, no sequence of presses leaves the range. */
  lemma {:induction false} NavigateStaysInRange(step: int, moves: seq<Move>)
    requires InRange(step)
    ensures InRange(Navigate(step, moves))
    decreases |moves|
  {
    if moves != [] {
      NavigationKeepsRange(step);
      NavigateStaysInRange(Apply(step, moves[0]), moves[1..]);
    }
  }

  lemma {:induction false} NavigateAppend(step: int, a: seq<Move>, b: seq<Move>)
    ensures Navigate(step, a + b) == Navigate(Navigate(step, a), b)
    decreases |a|
  {
    if a == [] {
      assert a + b == b;
    } else {
      assert (a + b)[1..] == a[1..] + b;
      NavigateAppend(Apply(step, a[0]), a[1..], b);
    }
  }

  /** n presses of "Siguiente" reach step + n, stopping at the last step. */
  lemma {:induction false} ForwardsClamp(step: int, n: nat)
    requires InRange(step)
    ensures Navigate(step, Repeat(Forward, n)) == Min(step + n, |STEPS|)
    decreases n
  {
    if n > 0 {
      var ms := Repeat(Forward, n);
      assert ms[1..] == Repeat(Forward, n - 1);
      ForwardsClamp(Next(step), n - 1);
    }
  }

  /** n presses of "Anterior" reach step - n, stopping at the first step. */
  lemma {:induction false} BacksClamp(step: int, n: nat)
    requires InRange(step)
    ensures Navigate(step, Repeat(Back, n)) == Max(step - n, 1)
    decreases n
  {
    if n > 0 {
      var ms := Repeat(Back, n);
      assert ms[1..] == Repeat(Back, n - 1);
      BacksClamp(Prev(step), n - 1);
    }
  }

  /**
   * Pressing "Siguiente" n times and then "Anterior" n times returns to the
   * starting step whenever the last step was not overshot, and from the
   * first step always.
   */
  lemma ForwardThenBackReturns(step: int, n: nat)
    requires InRange(step)
    ensures step + n <= |STEPS| || step == 1 ==>
              Navigate(step, Repeat(Forward, n) + Repeat(Back, n)) == step
  {
    NavigateAppend(step, Repeat(Forward, n), Repeat(Back, n));
    ForwardsClamp(step, n);
    BacksClamp(Min(step + n, |STEPS|), n);
  }

  // ---------------------------------------------------------------------
  // The stepper and the navigation controls
  // ---------------------------------------------------------------------

  datatype StepStatus = StepStatus(completed: bool, active: bool)

  function StatusOf(current: int, step: Step): StepStatus
  {
    StepStatus(current > step.id, current == step.id)
  }

  /** The stepper's flags, one per step, in step order. */
  function Stepper(current: int): (row: seq<StepStatus>)
    ensures |row| == |STEPS|
    ensures forall i :: 0 <= i < |row| ==> row[i].completed == (current > STEPS[i].id) && row[i].active == (current == STEPS[i].id)
  {
    seq(|STEPS|, i requires 0 <= i < |STEPS| => StatusOf(current, STEPS[i]))
  }

  /**
   * The stepper shows the current step as the only active one, every
   * earlier step as completed, and no step as both.
   */
  lemma StepperShape(current: int)
    requires InRange(current)
    ensures forall i :: 0 <= i < |STEPS| ==> (Stepper(current)[i].active <==> i == current - 1)
    ensures forall i :: 0 <= i < |STEPS| ==> (Stepper(current)[i].completed <==> i < current - 1)
    ensures forall i :: 0 <= i < |STEPS| ==> !(Stepper(current)[i].completed && Stepper(current)[i].active)
  {
  }

  /** The completed steps are a prefix of the steps, wherever the counter is. */
  lemma CompletedStepsArePrefix(current: int)
    ensures forall i, j :: 0 <= i <= j < |STEPS| && Stepper(current)[j].completed ==> Stepper(current)[i].completed
  {
  }

  function ActiveSteps(current: int): set<int>
  {
    set i | 0 <= i < |STEPS| && Stepper(current)[i].active
  }

  /** Exactly one step is active. */
  lemma ExactlyOneActive(current: int)
    requires InRange(current)
    ensures ActiveSteps(current) == {current - 1}
    ensures |ActiveSteps(current)| == 1
  {
  }

  datatype ForwardControl = NextButton | SubmitButton(enabled: bool)

  datatype Controls = Controls(backEnabled: bool, forward: ForwardControl)

  /**
   * The controls under the form: "Anterior" (disabled on the first step),
   * and "Siguiente" before the last step or the submit button on it, the
   * latter disabled while a submission is in flight.
   */
  function ControlsFor(current: int, isSubmitting: bool): (c: Controls)
    ensures InRange(current) ==> (c.forward.SubmitButton? <==> current == |STEPS|)
    ensures c.backEnabled <==> current != 1
    ensures c.forward.SubmitButton? ==> (c.forward.enabled <==> !isSubmitting)
  {
    Controls(current != 1, if current < |STEPS| then NextButton else SubmitButton(!isSubmitting))
  }

  // ---------------------------------------------------------------------
  // The payload
  // ---------------------------------------------------------------------

  const PENDING := "pendiente"

  /** The validated details plus the referral tag taken from the page's URL. */
  datatype PayloadDetails = PayloadDetails(
    email: Option<string>,
    paymentMethod: PaymentMethod,
    financing: Option<bool>,
    notes: Option<string>,
    accountInfo: Option<string>,
    whatsappRef: Option<string>)

  /** The record inserted into the order store. */
  datatype Payload = Payload(
    name: string,
    userPhone: string,
    operation: Operation,
    platform: string,
    amount: real,
    currency: string,
    comprobanteUrl: Option<string>,
    details: PayloadDetails,
    idempotencyKey: string,
    status: string)

  /** The validated order a payload carries, without what submission adds. */
  function OrderOf(p: Payload): Pedido
  {
    var d := p.details;
    Pedido(p.name, p.userPhone, p.operation, p.platform, p.amount, p.currency, p.comprobanteUrl,
           Details(d.email, d.paymentMethod, d.financing, d.notes, d.accountInfo))
  }

  /**
   * The payload for a validated order: the order unchanged, plus the
   * idempotency key, the referral tag inside the details, and the
   * "pendiente" status.
   */
  function BuildPayload(data: Pedido, key: string, whatsappRef: Option<string>): (p: Payload)
    ensures OrderOf(p) == data
    ensures p.idempotencyKey == key && p.details.whatsappRef == whatsappRef && p.status == PENDING
  {
    var d := data.details;
    Payload(data.name, data.userPhone, data.operation, data.platform, data.amount, data.currency,
            data.comprobanteUrl,
            PayloadDetails(d.email, d.paymentMethod, d.financing, d.notes, d.accountInfo, whatsappRef),
            key, PENDING)
  }

  /** A pending payload is determined by its order, key and referral tag. */
  lemma BuildPayloadFromParts(p: Payload)
    requires p.status == PENDING
    ensures BuildPayload(OrderOf(p), p.idempotencyKey, p.details.whatsappRef) == p
  {
  }

  /** Two submissions of the same order with different keys are different payloads. */
  lemma DistinctKeysDistinctPayloads(data: Pedido, k1: string, k2: string, whatsappRef: Option<string>)
    ensures BuildPayload(data, k1, whatsappRef) == BuildPayload(data, k2, whatsappRef) <==> k1 == k2
  {
  }

  // ---------------------------------------------------------------------
  // The store's answer and the notification
  // ---------------------------------------------------------------------

  /** The order store's stored record, as far as the confirmation shows it. */
  datatype StoredPedido = StoredPedido(id: string, operation: string, platform: string, amount: real, currency: string)

  /** How the insert ended: a stored record, an error with a code, or an exception. */
  datatype InsertOutcome =
    | Inserted(record: StoredPedido)
    | Rejected(code: string, message: string)
    | Threw

  datatype Notice = ToastSuccess(text: string) | ToastError(text: string)

  /** The unique-constraint violation code: the idempotency key was already used. */
  const UNIQUE_VIOLATION := "23505"
  const CREATED := "¡Pedido creado exitosamente!"
  const ALREADY_PROCESSED := "Este pedido ya fue procesado"
  const CREATE_FAILED := "Error al crear el pedido"

  /**
   * The notification for an insert outcome. The three failure kinds have
   * three distinguishable messages: the "already processed" one exactly for
   * code 23505, the exception one exactly for an exception.
   */
  function Classify(outcome: InsertOutcome): (n: Notice)
    ensures n.ToastSuccess? <==> outcome.Inserted?
    ensures outcome.Inserted? ==> n == ToastSuccess(CREATED)
    ensures n == ToastError(ALREADY_PROCESSED) <==> outcome.Rejected? && outcome.code == UNIQUE_VIOLATION
    ensures n == ToastError(CREATE_FAILED) <==> outcome.Threw?
    ensures outcome.Rejected? && outcome.code != UNIQUE_VIOLATION ==> n == ToastError("Error: " + outcome.message)
  {
    match outcome
    case Inserted(_) => ToastSuccess(CREATED)
    case Rejected(code, message) =>
      if code == UNIQUE_VIOLATION then ToastError(ALREADY_PROCESSED)
      else
        var text := "Error: " + message;
        assert text[1] != ALREADY_PROCESSED[1] && text[5] != CREATE_FAILED[5];
        ToastError(text)
    case Threw => ToastError(CREATE_FAILED)
  }

  datatype Confirmation = Confirmation(shortId: string, operation: string, platform: string, amount: real, currency: string)

  /**
   * The first eight characters of an identifier (all of it when shorter).
   * The page slices eight UTF-16 code units; for an identifier with no
   * character outside the Basic Multilingual Plane (a UUID, say) the two agree.
   */
  function ShortId(id: string): (s: string)
    ensures |s| == Min(|id|, 8)
    ensures s == id[..|s|]
    ensures (forall i :: 0 <= i < |id| ==> !IsAstral(id[i])) ==> Utf16Length(s) == Min(Utf16Length(id), 8)
  {
    if |id| <= 8 then id else id[..8]
  }

  /** The confirmation view: a short identifier and four fields verbatim. */
  function ConfirmationOf(r: StoredPedido): (v: Confirmation)
    ensures v.shortId == r.id[..Min(|r.id|, 8)]
    ensures v.operation == r.operation && v.platform == r.platform
    ensures v.amount == r.amount && v.currency == r.currency
  {
    Confirmation(ShortId(r.id), r.operation, r.platform, r.amount, r.currency)
  }

  // ---------------------------------------------------------------------
  // The controller's state
  // ---------------------------------------------------------------------

  /** The empty details object a nested form write creates when none exists. */
  const NO_DETAILS := DetailsInput(None, None, None, None, None)

  function DetailsOrEmpty(d: Option<DetailsInput>): DetailsInput
  {
    match d
    case None => NO_DETAILS
    case Some(v) => v
  }

  class Wizard {
    var currentStep: int
    var isSubmitting: bool
    /** The stored order once an insert succeeded; the page then shows the confirmation. */
    var created: Option<StoredPedido>
    /** The form's current values. */
    var form: PedidoInput
    /** The referral tag read from the page's URL. */
    const whatsappRef: Option<string>

    ghost predicate Valid()
      reads this
    {
      InRange(currentStep)
    }

    constructor (whatsappRef: Option<string>)
      ensures Valid()
      ensures currentStep == 1 && !isSubmitting && created == None && form == DEFAULT_VALUES
      ensures this.whatsappRef == whatsappRef
    {
      this.whatsappRef := whatsappRef;
      currentStep := 1;
      isSubmitting := false;
      created := None;
      form := DEFAULT_VALUES;
    }

    /** "Siguiente": only the step changes, and only below the last step. */
    method NextStep()
      requires Valid()
      modifies this`currentStep
      ensures Valid()
      ensures currentStep == Next(old(currentStep))
      ensures old(currentStep) == |STEPS| ==> currentStep == old(currentStep)
      ensures form == old(form)
    {
      if currentStep < |STEPS| {
        currentStep := currentStep + 1;
      }
    }

    /** "Anterior": only the step changes, and only above the first step. */
    method PrevStep()
      requires Valid()
      modifies this`currentStep
      ensures Valid()
      ensures currentStep == Prev(old(currentStep))
      ensures old(currentStep) == 1 ==> currentStep == old(currentStep)
      ensures form == old(form)
    {
      if currentStep > 1 {
        currentStep := currentStep - 1;
      }
    }

    /** Picking an operation card: the operation is set, then the wizard advances. */
    method ChooseOperation(i: nat)
      requires Valid() && i < |OPERATIONS|
      modifies this`form, this`currentStep
      ensures Valid()
      ensures form == old(form).(operation := Some(OPERATIONS[i].value))
      ensures currentStep == Next(old(currentStep))
      ensures OperationErrors(form.operation) == []
    {
      OperationsMatchEnum();
      form := form.(operation := Some(OPERATIONS[i].value));
      NextStep();
    }

    /** Picking a platform card: only the platform changes. */
    method ChoosePlatform(i: nat)
      requires Valid() && i < |PLATFORMS|
      modifies this`form
      ensures Valid()
      ensures form == old(form).(platform := Some(PLATFORMS[i].value))
      ensures PlatformErrors(form.platform) == []
    {
      PlatformsPassPlatformRule();
      form := form.(platform := Some(PLATFORMS[i].value));
    }

    /** Picking a payment-method card: only the details' payment method changes. */
    method ChoosePaymentMethod(i: nat)
      requires Valid() && i < |PAYMENT_METHODS|
      modifies this`form
      ensures Valid()
      ensures form == old(form).(details := Some(DetailsOrEmpty(old(form).details).(paymentMethod := Some(PAYMENT_METHODS[i].value))))
      ensures PaymentMethodErrors(form.details.value.paymentMethod) == []
    {
      PaymentMethodsMatchEnum();
      var d := DetailsOrEmpty(form.details);
      form := form.(details := Some(d.(paymentMethod := Some(PAYMENT_METHODS[i].value))));
    }

    /**
     * Submitting the form, up to the insert request: an invalid form is
     * refused with its errors and nothing changes; a valid one marks the
     * submission in flight and yields the payload to insert.
     */
    method Submit(key: string, isEmail: string -> bool, isUrl: string -> bool) returns (r: Result<Payload, seq<FieldError>>)
      requires Valid()
      modifies this`isSubmitting
      ensures Valid()
      ensures r.Ok? <==> Validate(form, isEmail, isUrl).Ok?
      ensures r.Err? ==> r.error == Validate(form, isEmail, isUrl).error && isSubmitting == old(isSubmitting)
      ensures r.Ok? ==> r.value == BuildPayload(Validate(form, isEmail, isUrl).value, key, whatsappRef)
      ensures r.Ok? ==> isSubmitting
    {
      var v := Validate(form, isEmail, isUrl);
      if v.Err? {
        return Err(v.error);
      }
      isSubmitting := true;
      r := Ok(BuildPayload(v.value, key, whatsappRef));
    }

    /**
     * The insert's answer, through to the end of the submission: the
     * notification, the created order on success (kept as it was on every
     * failure), and the in-flight flag cleared on every path.
     */
    method Complete(outcome: InsertOutcome) returns (notice: Notice)
      requires Valid() && isSubmitting
      modifies this`isSubmitting, this`created
      ensures Valid()
      ensures !isSubmitting
      ensures notice == Classify(outcome)
      ensures created == if outcome.Inserted? then Some(outcome.record) else old(created)
    {
      match outcome {
        case Rejected(code, message) =>
          if code == UNIQUE_VIOLATION {
            notice := ToastError(ALREADY_PROCESSED);
          } else {
            notice := ToastError("Error: " + message);
          }
        case Inserted(record) =>
          created := Some(record);
          notice := ToastSuccess(CREATED);
        case Threw =>
          notice := ToastError(CREATE_FAILED);
      }
      isSubmitting := false;
    }
  }
}
