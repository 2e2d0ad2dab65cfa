/**
 * The registration wizard (`RegistrationPage.tsx`): step 1 picks a service package,
 * step 2 takes the client's details, step 3 takes the payment (the full price or an
 * amount of the client's choosing) with a proof image, and step 4 shows the case
 * number and password the store issued.
 */
module Registration {
  import opened Wrappers
  import opened Types
  import opened StoreContext

  /** `'Full' | 'Custom'`. */
  datatype Plan = FullPlan | CustomPlan

  /**
   * What `Number(text)` gives for the text of a number field: a number, or `NaN` for
   * text that is not one. The empty text is the number 0.
   */
  datatype Numeric = Number(value: int) | NotANumber

  /** `Number(x) || 0`: `NaN` (and 0) fall back to 0. */
  function OrZero(n: Numeric): (r: int)
    ensures n.Number? ==> r == n.value
    ensures n.NotANumber? ==> r == 0
  {
    match n
    case Number(v) => v
    case NotANumber => 0
  }

  datatype RegistrationForm = RegistrationForm(fullName: string, idCard: string, phone: string, email: string, address: string)

  const BlankForm := RegistrationForm("", "", "", "", "")

  /** The inputs of the details form, one per field. */
  datatype DetailField = FullNameField | IdCardField | PhoneField | EmailField | AddressField

  /** `{...formData, <field>: value}`: the one field takes the typed text, the others are kept. */
  function WithDetail(f: RegistrationForm, k: DetailField, v: string): (r: RegistrationForm)
    ensures k == FullNameField ==> r == f.(fullName := v)
    ensures k == IdCardField ==> r == f.(idCard := v)
    ensures k == PhoneField ==> r == f.(phone := v)
    ensures k == EmailField ==> r == f.(email := v)
    ensures k == AddressField ==> r == f.(address := v)
  {
    match k
    case FullNameField => f.(fullName := v)
    case IdCardField => f.(idCard := v)
    case PhoneField => f.(phone := v)
    case EmailField => f.(email := v)
    case AddressField => f.(address := v)
  }

  /** Filling every field of the blank form makes it complete exactly when no typed text is empty. */
  lemma FilledFormComplete(a: string, b: string, c: string, d: string, e: string)
    ensures var f := WithDetail(WithDetail(WithDetail(WithDetail(WithDetail(BlankForm,
                       FullNameField, a), IdCardField, b), PhoneField, c), EmailField, d), AddressField, e);
      FormComplete(f) <==> a != "" && b != "" && c != "" && d != "" && e != ""
  {
  }

  /**
   * Every field of the details form carries `required`, so the browser submits it only
   * when none is empty. The browser's check of the e-mail address's format is not part
   * of this predicate.
   */
  predicate FormComplete(f: RegistrationForm) {
    f.fullName != "" && f.idCard != "" && f.phone != "" && f.email != "" && f.address != ""
  }

  datatype Credentials = Credentials(caseId: string, password: string)

  /** `(pkg.price * 0.5).toString()`, the custom amount proposed when a package is picked. */
  function HalfPrice(pkg: ServicePackage): (r: Numeric)
    ensures r.Number? && (pkg.price % 2 == 0 ==> r.value + r.value == pkg.price)
  {
    Number(pkg.price / 2)
  }

  /** Every package on offer has an even price, so half of it is a whole number of baht. */
  lemma PackagePricesEven()
    ensures forall p :: p in Packages ==> p.price % 2 == 0
  {
  }

  /** The amount the payment handler registers: the price, or the number typed in. */
  function AmountToPay(pkg: ServicePackage, plan: Plan, custom: Numeric): (r: Numeric)
    ensures plan == FullPlan ==> r == Number(pkg.price)
    ensures plan == CustomPlan ==> r == custom
  {
    if plan == FullPlan then Number(pkg.price) else custom
  }

  /** `selectedPkg?.price || 0`. */
  function TotalPrice(selected: Option<ServicePackage>): (r: int)
    ensures selected.Some? ==> r == selected.value.price
    ensures selected.None? ==> r == 0
  {
    if selected.Some? then selected.value.price else 0
  }

  /** The amount shown as due today: the total, or the typed number with `NaN` read as 0. */
  function PayNowAmount(selected: Option<ServicePackage>, plan: Plan, custom: Numeric): (r: int)
    ensures plan == FullPlan ==> r == TotalPrice(selected)
    ensures plan == CustomPlan ==> r == OrZero(custom)
  {
    if plan == FullPlan then TotalPrice(selected) else OrZero(custom)
  }

  /** `Math.max(0, totalPrice - payNowAmount)`. */
  function RemainingAmount(selected: Option<ServicePackage>, plan: Plan, custom: Numeric): (r: int)
    ensures r >= 0
    ensures r >= TotalPrice(selected) - PayNowAmount(selected, plan, custom)
    ensures r == 0 || r == TotalPrice(selected) - PayNowAmount(selected, plan, custom)
  {
    var d := TotalPrice(selected) - PayNowAmount(selected, plan, custom);
    if d > 0 then d else 0
  }

  /** The submit button of the payment step is enabled. */
  predicate SubmitEnabled(proof: Option<string>, submitting: bool, payNow: int) {
    proof.Some? && !submitting && payNow > 0
  }

  /**
   * The amount shown as due today and the amount the handler registers agree whenever
   * the shown amount is positive, and the handler sees a positive number exactly then.
   */
  lemma ShownAmountIsPaid(pkg: ServicePackage, plan: Plan, custom: Numeric)
    ensures PayNowAmount(Some(pkg), plan, custom) > 0 <==>
              AmountToPay(pkg, plan, custom).Number? && AmountToPay(pkg, plan, custom).value > 0
    ensures PayNowAmount(Some(pkg), plan, custom) > 0 ==>
              AmountToPay(pkg, plan, custom) == Number(PayNowAmount(Some(pkg), plan, custom))
  {
  }

  /** What is due today and what remains add up to the price, unless more than the price is paid now. */
  lemma SummaryAddsUp(selected: Option<ServicePackage>, plan: Plan, custom: Numeric)
    ensures PayNowAmount(selected, plan, custom) <= TotalPrice(selected) ==>
              PayNowAmount(selected, plan, custom) + RemainingAmount(selected, plan, custom) == TotalPrice(selected)
    ensures PayNowAmount(selected, plan, custom) > TotalPrice(selected) ==> RemainingAmount(selected, plan, custom) == 0
  {
  }

  /** A package on offer is the one its id finds: the ids are distinct. */
  lemma PackageFoundById(pkg: ServicePackage)
    requires pkg in Packages
    ensures PackageById(pkg.id) == Some(pkg)
  {
  }

  /**
   * The case a registration of a package on offer creates carries the remaining amount
   * the summary showed as long as no more than the price is paid now; paying more
   * leaves a negative remaining amount on the case although the summary showed 0.
   */
  lemma RegisteredRemaining(pkg: ServicePackage, plan: Plan, custom: Numeric, fullName: string, proofId: string,
                            caseId: string, password: string, clock: Clock)
    requires pkg in Packages
    requires AmountToPay(pkg, plan, custom).Number?
    ensures var amount := AmountToPay(pkg, plan, custom).value;
            var c := RegisteredCase(fullName, pkg.id, PackageById(pkg.id), proofId, amount, caseId, password, clock);
            (amount <= pkg.price ==> c.financials.amountRemaining == RemainingAmount(Some(pkg), plan, custom)) &&
            (amount > pkg.price ==> c.financials.amountRemaining < 0 && RemainingAmount(Some(pkg), plan, custom) == 0) &&
            (c.paymentType == Some(if amount < pkg.price then BillingMode.Installment else Full))
  {
    PackageFoundById(pkg);
  }

  /** The payment handler goes on to register: a package is chosen and the amount is a positive number. */
  predicate Payable(selected: Option<ServicePackage>, plan: Plan, custom: Numeric) {
    selected.Some? && AmountToPay(selected.value, plan, custom).Number? && AmountToPay(selected.value, plan, custom).value > 0
  }

  /** The proof id handed to the store: the file store's id, or `""` without a file or when saving failed. */
  function ProofId(proofFile: Option<string>, stored: Option<string>): string {
    if proofFile.Some? && stored.Some? then stored.value else ""
  }

  class Wizard {
    const store: Store
    var step: nat
    var selectedPkg: Option<ServicePackage>
    var plan: Plan
    var customAmount: Numeric
    var form: RegistrationForm
    /** The chosen proof image, as the opaque id of the file. */
    var proofFile: Option<string>
    var result: Option<Credentials>
    var isSubmitting: bool

    /**
     * The steps run from 1 to 4; the middle two show the chosen package and the last the
     * issued credentials. Between two events no submission is in flight.
     */
    predicate Valid()
      reads this
    {
      1 <= step <= 4 && (step == 2 || step == 3 ==> selectedPkg.Some?) && (step == 4 ==> result.Some?) &&
      !isSubmitting
    }

    constructor(s: Store)
      ensures store == s && step == 1 && selectedPkg == None && plan == FullPlan
      ensures customAmount == Number(0) && form == BlankForm && proofFile == None
      ensures result == None && !isSubmitting && Valid()
    {
      store := s;
      step := 1;
      selectedPkg := None;
      plan := FullPlan;
      customAmount := Number(0);
      form := BlankForm;
      proofFile := None;
      result := None;
      isSubmitting := false;
    }

    /** `handleSelectPackage`: the package is kept, half its price proposed as the custom amount. */
    method SelectPackage(pkg: ServicePackage)
      requires Valid() && step == 1
      modifies this
      ensures selectedPkg == Some(pkg) && step == 2 && customAmount == HalfPrice(pkg)
      ensures plan == old(plan) && form == old(form) && proofFile == old(proofFile)
      ensures result == old(result) && isSubmitting == old(isSubmitting)
      ensures Valid()
    {
      selectedPkg := Some(pkg);
      step := 2;
      customAmount := HalfPrice(pkg);
    }

    /** `handleInfoSubmit`: the details form moves on to the payment step once every field is filled in. */
    method SubmitDetails()
      requires Valid() && step == 2
      modifies this
      ensures FormComplete(form) ==> step == 3
      ensures !FormComplete(form) ==> step == 2
      ensures selectedPkg == old(selectedPkg) && plan == old(plan) && customAmount == old(customAmount)
      ensures form == old(form) && proofFile == old(proofFile) && result == old(result)
      ensures isSubmitting == old(isSubmitting)
      ensures Valid()
    {
      if FormComplete(form) {
        step := 3;
      }
    }

    /** The "change" link and the back button of the details step. */
    method BackToPackages()
      requires Valid() && step == 2
      modifies this
      ensures step == 1
      ensures selectedPkg == old(selectedPkg) && plan == old(plan) && customAmount == old(customAmount)
      ensures form == old(form) && proofFile == old(proofFile) && result == old(result)
      ensures isSubmitting == old(isSubmitting)
      ensures Valid()
    {
      step := 1;
    }

    /** The back button of the payment step. */
    method BackToDetails()
      requires Valid() && step == 3
      modifies this
      ensures step == 2
      ensures selectedPkg == old(selectedPkg) && plan == old(plan) && customAmount == old(customAmount)
      ensures form == old(form) && proofFile == old(proofFile) && result == old(result)
      ensures isSubmitting == old(isSubmitting)
      ensures Valid()
    {
      step := 2;
    }

    /** A click on one of the two plan cards. */
    method ChoosePlan(p: Plan)
      modifies this
      ensures plan == p
      ensures step == old(step) && selectedPkg == old(selectedPkg) && customAmount == old(customAmount)
      ensures form == old(form) && proofFile == old(proofFile) && result == old(result)
      ensures isSubmitting == old(isSubmitting)
      ensures old(Valid()) ==> Valid()
    {
      plan := p;
    }

    /** Typing into the custom amount field also selects the custom plan. */
    method EnterCustomAmount(n: Numeric)
      modifies this
      ensures customAmount == n && plan == CustomPlan
      ensures step == old(step) && selectedPkg == old(selectedPkg)
      ensures form == old(form) && proofFile == old(proofFile) && result == old(result)
      ensures isSubmitting == old(isSubmitting)
      ensures old(Valid()) ==> Valid()
    {
      customAmount := n;
      plan := CustomPlan;
    }

    /** The `onChange` of one input of the details form. */
    method EditDetail(k: DetailField, v: string)
      modifies this
      ensures form == WithDetail(old(form), k, v)
      ensures step == old(step) && selectedPkg == old(selectedPkg) && plan == old(plan)
      ensures customAmount == old(customAmount) && proofFile == old(proofFile) && result == old(result)
      ensures isSubmitting == old(isSubmitting)
      ensures old(Valid()) ==> Valid()
    {
      form := WithDetail(form, k, v);
    }

    /** `setProofFile(e.target.files?.[0] || null)`: the chosen file, or none. */
    method ChooseProof(file: Option<string>)
      modifies this
      ensures proofFile == file
      ensures step == old(step) && selectedPkg == old(selectedPkg) && plan == old(plan)
      ensures customAmount == old(customAmount) && form == old(form) && result == old(result)
      ensures isSubmitting == old(isSubmitting)
      ensures old(Valid()) ==> Valid()
    {
      proofFile := file;
    }

    /**
     * `handlePaymentSubmit`. Without a package nothing happens; an amount that is not
     * positive is refused (the alert); otherwise the store registers the case and the
     * wizard shows the credentials. `stored` is the file store's id for the proof image,
     * `None` when saving it failed; the store then records the empty id. `draw` and
     * `password` are the random parts of the case number and the password.
     */
    method SubmitPayment(stored: Option<string>, draw: nat, password: string, clock: Clock)
      returns (registered: bool)
      requires Valid() && draw < 10000
      modifies this, store
      ensures selectedPkg == old(selectedPkg) && plan == old(plan) && customAmount == old(customAmount)
      ensures form == old(form) && proofFile == old(proofFile)
      ensures registered <==> Payable(selectedPkg, plan, customAmount)
      ensures registered ==>
                store.cases == [RegisteredCase(form.fullName, selectedPkg.value.id, PackageById(selectedPkg.value.id),
                                               ProofId(proofFile, stored), AmountToPay(selectedPkg.value, plan, customAmount).value,
                                               RegistrationCaseId(clock.year, draw), password, clock)] + old(store.cases) &&
                result == Some(Credentials(RegistrationCaseId(clock.year, draw), password)) && step == 4
      ensures !registered ==> store.cases == old(store.cases) && result == old(result) && step == old(step)
      ensures store.inquiries == old(store.inquiries) && store.users == old(store.users)
      ensures store.currentUser == old(store.currentUser)
      ensures Valid()
    {
      registered := Payable(selectedPkg, plan, customAmount);
      if registered {
        Register(stored, draw, password, clock);
      }
    }

    /** The registering branch of `handlePaymentSubmit`. */
    method Register(stored: Option<string>, draw: nat, password: string, clock: Clock)
      requires Payable(selectedPkg, plan, customAmount) && draw < 10000
      modifies this, store
      ensures selectedPkg == old(selectedPkg) && plan == old(plan) && customAmount == old(customAmount)
      ensures form == old(form) && proofFile == old(proofFile)
      ensures store.cases == [RegisteredCase(form.fullName, selectedPkg.value.id, PackageById(selectedPkg.value.id),
                                             ProofId(proofFile, stored), AmountToPay(selectedPkg.value, plan, customAmount).value,
                                             RegistrationCaseId(clock.year, draw), password, clock)] + old(store.cases)
      ensures result == Some(Credentials(RegistrationCaseId(clock.year, draw), password)) && step == 4 && !isSubmitting
      ensures store.inquiries == old(store.inquiries) && store.users == old(store.users)
      ensures store.currentUser == old(store.currentUser)
    {
      var pkg := selectedPkg.value;
      isSubmitting := true;
      var caseId, pass := store.RegisterNewCase(form.fullName, pkg.id, ProofId(proofFile, stored),
                                                AmountToPay(pkg, plan, customAmount).value, draw, password, clock);
      result := Some(Credentials(caseId, pass));
      step := 4;
      isSubmitting := false;
    }

    /** Whenever the button can be pressed on the payment step, the case is registered. */
    lemma EnabledSubmitRegisters()
      requires Valid() && step == 3
      requires SubmitEnabled(proofFile, isSubmitting, PayNowAmount(selectedPkg, plan, customAmount))
      ensures Payable(selectedPkg, plan, customAmount)
    {
      ShownAmountIsPaid(selectedPkg.value, plan, customAmount);
    }
  }
}
