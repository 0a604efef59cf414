# Finex order wizard — Dafny model

This project models the non-visual core of the `/orden` order wizard of the Finex web site. The wizard is a six-step form. It collects an operation, a platform, an amount, a payment method and contact details, then inserts one order ("pedido") into the order store with a client-generated idempotency key.

Two modules, one per source file:

- `schema.dfy`, module `PedidoSchema` (`lib/schemas/pedido.ts`). A pure validator (`Validate`) that turns a candidate order into a normalised `Pedido` (currency defaulted to "USD") or into the list of field errors with the schema's own messages. The list follows the order in which the fields are declared, which is the order of a synchronous parse. The page runs the schema asynchronously and reads errors by field path, so that order is not visible there. String lengths are counted as the schema library counts them, in UTF-16 code units (`Utf16Length`), so a character outside the Basic Multilingual Plane counts twice. It also holds the form's default values and the three option catalogues (operations, payment methods, platforms). Every field rule is a function whose contract states the rule. `WellFormed` is an independent, declarative statement of all the rules, and `ValidateAcceptsExactlyWellFormed` connects the two.
- `wizard.dfy`, module `OrderWizard` (`app/orden/page.tsx`). The state the page updates in place is a class `Wizard`: `currentStep`, `isSubmitting`, the created order (`pedidoCreado`) and the form values. Its methods are `NextStep`, `PrevStep`, the three card pickers, `Submit` and `Complete`. Each method is specified by pure functions, which carry the lemmas:
  - `Next`/`Prev`/`Navigate` for the step counter;
  - `Stepper` for the stepper's completed/active flags;
  - `ControlsFor` for the navigation buttons;
  - `BuildPayload` for the inserted record;
  - `Classify` for the notification.

The asynchronous `onSubmit` is split at its `await` into two methods:

- `Wizard.Submit` covers validation by the form library, setting `isSubmitting` and building the payload.
- `Wizard.Complete` takes the insert's outcome as input. That outcome is a stored record, an error with a code and message, or a thrown exception. The method produces the notification, stores the record on success and clears `isSubmitting` on every path, as the `finally` block does.

The notification ("toast") is returned as a `Notice` value. The idempotency key, the referral tag read from the URL, and the e-mail and URL format checks are parameters.

Notes on the code as written:

- The default form values fail validation on name, phone and platform (all too short) and on amount (zero). The operation and payment-method defaults are enum members (`DefaultValuesRejected`).
- The payload's details gain one field, `whatsapp_ref`, the value of the `ref` query parameter.
- `onSubmit` does not check the step. The submit button exists only on the last step, but `Submit` itself has no step precondition.

## Model

| member | source | states |
|---|---|---|
| `PedidoSchema.ParseOperation` | lib/schemas/pedido.ts:22-24 | an operation string is read exactly when it is one of compra/venta/cashout, and reads back as that string |
| `PedidoSchema.ParsePaymentMethod` | lib/schemas/pedido.ts:6-8 | a payment method is read exactly when it is one of EFECTIVO/BANCO/CUENTA_CORRIENTE, and reads back as that string |
| `PedidoSchema.ParseOperationInverse` | lib/schemas/pedido.ts:22 | every operation's string is an enum member and parses back to the same operation |
| `PedidoSchema.ParsePaymentMethodInverse` | lib/schemas/pedido.ts:6 | every payment method's string is an enum member and parses back to the same method |
| `PedidoSchema.Utf16Length` | lib/schemas/pedido.ts:16-27 | the length the min/max checks compare: UTF-16 code units, between the character count and twice it, and equal to it when no character needs a surrogate pair |
| `PedidoSchema.EmojiCountsTwice` | lib/schemas/pedido.ts:16-18 | one emoji has UTF-16 length 2 and is therefore an acceptable name |
| `PedidoSchema.LengthErrors` | lib/schemas/pedido.ts:16-27 | a required bounded string yields no error iff present with min ≤ UTF-16 length ≤ max; absent gives "Required", too short the min message, too long the max message |
| `PedidoSchema.NameErrors` | lib/schemas/pedido.ts:16-18 | name accepted iff present with 2 ≤ UTF-16 length ≤ 100; absent gives "Required", otherwise the too-short or too-long message |
| `PedidoSchema.PhoneErrors` | lib/schemas/pedido.ts:19-21 | user_phone accepted iff present with 6 ≤ UTF-16 length ≤ 20; absent gives "Required", otherwise the too-short or too-long message |
| `PedidoSchema.OperationErrors` | lib/schemas/pedido.ts:22-24 | operation accepted iff present and an enum member; otherwise exactly "Tipo de operación inválido" |
| `PedidoSchema.PlatformErrors` | lib/schemas/pedido.ts:25-27 | platform accepted iff present with 2 ≤ UTF-16 length ≤ 50; absent gives "Required", otherwise "Selecciona una plataforma" or the too-long message |
| `PedidoSchema.AmountErrors` | lib/schemas/pedido.ts:28-31 | amount accepted iff 0 < amount ≤ 1,000,000; zero and negatives get the positive message, larger values the maximum message |
| `PedidoSchema.OptionalFormatErrors` | lib/schemas/pedido.ts:33 | an e-mail or URL field is accepted iff absent, empty or well formed; otherwise exactly its one message |
| `PedidoSchema.PaymentMethodErrors` | lib/schemas/pedido.ts:6-8 | payment_method accepted iff present and an enum member; otherwise exactly "Selecciona un método de pago" |
| `PedidoSchema.NotesErrors` | lib/schemas/pedido.ts:10 | notes accepted iff absent or at most 500 UTF-16 units; otherwise exactly the notes message |
| `PedidoSchema.DetailsErrors` | lib/schemas/pedido.ts:4-12 | the details object yields no error iff present and its e-mail, payment-method and notes rules hold; absent gives "Required" |
| `PedidoSchema.Validate` | lib/schemas/pedido.ts:15-35 | a refusal carries every field error, and at least one; an accepted order keeps every field of the input, turns the enum strings into enum values and defaults an absent currency to "USD" |
| `PedidoSchema.ValidateAcceptsExactlyWellFormed` | lib/schemas/pedido.ts:4-35 | the validator accepts a candidate iff it satisfies every rule of the schema |
| `PedidoSchema.ValidateIdempotent` | lib/schemas/pedido.ts:15-35 | a validated order, fed back as input, validates to itself |
| `PedidoSchema.NonPositiveAmountRejected` | lib/schemas/pedido.ts:28-29 | an amount of zero or less is refused, and the refusal lists the amount's positive message |
| `PedidoSchema.MissingPaymentMethodRejected` | lib/schemas/pedido.ts:6-8 | a missing payment method is refused, and the refusal lists "Selecciona un método de pago" |
| `PedidoSchema.DefaultValuesRejected` | lib/schemas/pedido.ts:40-55 | the default values are refused with exactly the name, phone, platform and amount errors, in that order; their operation (compra) and payment method (BANCO) are enum members and their currency is USD |
| `PedidoSchema.OptionValues` | lib/schemas/pedido.ts:58-68 | the values a choice catalogue offers, one per option, in catalogue order |
| `PedidoSchema.OperationsMatchEnum` | lib/schemas/pedido.ts:58-62 | the OPERATIONS values are exactly the operation enum's members, in its order, and every operation is offered |
| `PedidoSchema.PaymentMethodsMatchEnum` | lib/schemas/pedido.ts:64-68 | the PAYMENT_METHODS values are exactly the payment-method enum's members, in its order, and every method is offered |
| `PedidoSchema.PlatformsPassPlatformRule` | lib/schemas/pedido.ts:70-86 | every PLATFORMS value satisfies the platform length rule |
| `OrderWizard.StepIdsAreSequential` | app/orden/page.tsx:23-30 | there are six steps, numbered 1 to 6 in order |
| `OrderWizard.StepInfo` | app/orden/page.tsx:53 | for an in-range counter, `STEPS[currentStep-1]` is a valid index and is the step with that number |
| `OrderWizard.NavigationKeepsRange` | app/orden/page.tsx:55-61 | next and previous keep the counter in 1..6; next is a no-op exactly on step 6, previous exactly on step 1 |
| `OrderWizard.NavigationUndoes` | app/orden/page.tsx:55-61 | below step 6, previous undoes next; above step 1, next undoes previous |
| `OrderWizard.NavigateStaysInRange` | app/orden/page.tsx:36-61 | from an in-range step, any sequence of button presses stays in 1..6 |
| `OrderWizard.ForwardsClamp` | app/orden/page.tsx:55-57 | n presses of next from step s reach min(s + n, 6) |
| `OrderWizard.BacksClamp` | app/orden/page.tsx:59-61 | n presses of previous from step s reach max(s − n, 1) |
| `OrderWizard.ForwardThenBackReturns` | app/orden/page.tsx:55-61 | n nexts then n previouses return to the start if step 6 was not overshot, and always return to step 1 from step 1 |
| `OrderWizard.Stepper` | app/orden/page.tsx:194-196 | one flag pair per step: completed iff the counter is past the step's id, active iff it equals it |
| `OrderWizard.StepperShape` | app/orden/page.tsx:194-196 | step k is active iff it is the current step, completed iff it comes before it, and never both |
| `OrderWizard.CompletedStepsArePrefix` | app/orden/page.tsx:195 | the completed steps always form a prefix of the steps |
| `OrderWizard.ExactlyOneActive` | app/orden/page.tsx:196 | for an in-range counter, exactly one step is active: the current one |
| `OrderWizard.ControlsFor` | app/orden/page.tsx:486-523 | the submit button is shown instead of "Siguiente" exactly on step 6, and is disabled while submitting; "Anterior" is disabled exactly on step 1 |
| `OrderWizard.BuildPayload` | app/orden/page.tsx:69-77 | the payload carries the validated order unchanged, plus the given idempotency key, the referral tag inside the details and status "pendiente" |
| `OrderWizard.BuildPayloadFromParts` | app/orden/page.tsx:69-77 | a pending payload is rebuilt exactly from its order, key and referral tag, so nothing else was added |
| `OrderWizard.DistinctKeysDistinctPayloads` | app/orden/page.tsx:67-71 | two submissions of the same order are equal payloads iff their keys are equal |
| `OrderWizard.Classify` | app/orden/page.tsx:85-98 | success notice "¡Pedido creado exitosamente!" iff the insert succeeded; "Este pedido ya fue procesado" iff error code 23505; "Error al crear el pedido" iff an exception; any other error gives "Error: " + its message |
| `OrderWizard.ShortId` | app/orden/page.tsx:130 | the shown identifier is the id's prefix of length min(8, length of id); for an id with no character outside the Basic Multilingual Plane that is min(8, its UTF-16 length) code units, as `slice(0, 8)` takes |
| `OrderWizard.ConfirmationOf` | app/orden/page.tsx:128-145 | the confirmation shows the short id and the stored operation, platform, amount and currency verbatim |
| `OrderWizard.Wizard.constructor` | app/orden/page.tsx:36-50 | the wizard starts on step 1, not submitting, with no created order and the default form values |
| `OrderWizard.Wizard.NextStep` | app/orden/page.tsx:55-57 | the counter becomes Next of the old one and stays in range; the form values are unchanged |
| `OrderWizard.Wizard.PrevStep` | app/orden/page.tsx:59-61 | the counter becomes Prev of the old one and stays in range; the form values are unchanged |
| `OrderWizard.Wizard.ChooseOperation` | app/orden/page.tsx:242-245 | picking an operation sets only the operation, which then passes its rule, and advances one step |
| `OrderWizard.Wizard.ChoosePlatform` | app/orden/page.tsx:286 | picking a platform sets only the platform, which then passes the platform rule |
| `OrderWizard.Wizard.ChoosePaymentMethod` | app/orden/page.tsx:351 | picking a payment method sets only the details' payment method, which then passes its rule |
| `OrderWizard.Wizard.Submit` | app/orden/page.tsx:63-77 | an invalid form is refused with the validator's errors and nothing changes; a valid one sets isSubmitting and yields the payload built from the validated order, the key and the referral tag |
| `OrderWizard.Wizard.Complete` | app/orden/page.tsx:79-101 | isSubmitting is false afterwards on every path; the notice is the outcome's classification; the created order becomes the returned record on success and is unchanged on every failure |

## Left out

- The order store client and the network insert (`lib/supabase.ts`, app/orden/page.tsx:79-83). The insert's outcome is an input to `Wizard.Complete`: a stored record, an error with code and message, or an exception.
- The idempotency key generator (`uuidv4`). The key is a parameter of `Wizard.Submit`, so the uniqueness of generated keys is not modelled.
- The schema library's e-mail and URL format checks. They are the parameters `isEmail` and `isUrl`.
- The amount's text-to-number coercion and the finiteness check. The amount is a `real`, so NaN and infinities do not arise.
- The form library's wiring:
  - typing into the registered text inputs is not modelled as operations, so `Wizard.form` is the form state those inputs write;
  - the display of field errors and on-change validation are not modelled;
  - the query-string reader is not modelled; the referral tag is a constructor parameter.
- The notification library and `console.error`. The notification is the returned `Notice`.
- All JSX rendering and styling. This includes the review panel on step 6, the connector lines between stepper steps (which use the same `currentStep > step.id` test as the completed flag), and the catalogues' icons, colours and emoji.
- The landing page and its components (`app/page.tsx`, `app/layout.tsx`, `components/*`). They are presentation only.
- Concurrency. The model does not represent an insert in flight while other events occur. The split into `Submit` and `Complete` only shows the state between the two halves.
- `Wizard.Complete`: once an order is created the page renders only the confirmation (app/orden/page.tsx:104-162), so `Complete`, `NextStep`, `PrevStep`, the three card pickers and `Submit` are no longer reachable. The model does not make the confirmed state absorbing: those methods still apply, and a later success would replace the stored record.
- `OrderWizard.ShortId`: takes eight characters where `slice(0, 8)` takes eight UTF-16 code units. The stored id is taken to be ASCII (the store assigns a UUID), where the two coincide, as `ShortId`'s third ensures states. An id with characters outside the Basic Multilingual Plane would show more characters in the model, and a slice ending inside a surrogate pair cannot be represented as a Dafny string. `OrderWizard.ConfirmationOf` inherits the same assumption.
