/**
 * The records of the law-office system (`types.ts`). Optional TypeScript fields are
 * `Option`s; the string-literal unions and enums are datatypes whose constructors
 * render as the source's literals.
 */
module Types {
  import opened Wrappers

  datatype CaseType = Civil | Criminal | Family | Corporate | Other

  datatype InquiryStatus = New | InProgress | Closed

  datatype UserRole = Chief | Lawyer

  datatype InternalUser = InternalUser(
    id: int,
    username: string,
    password: Option<string>,
    name: string,
    role: UserRole,
    image: Option<string>,
    email: Option<string>,
    phone: Option<string>,
    specialty: Option<string>)

  datatype Inquiry = Inquiry(
    id: string,
    name: string,
    email: string,
    phone: string,
    caseType: CaseType,
    message: string,
    status: InquiryStatus,
    createdAt: string,
    aiSummary: Option<string>)

  /** `'completed' | 'current' | 'pending'`. */
  datatype EventStatus = Completed | Current | Pending

  datatype TimelineEvent = TimelineEvent(
    id: string,
    title: string,
    date: string,
    description: string,
    status: EventStatus)

  datatype CaseDocument = CaseDocument(
    id: string,
    name: string,
    date: string,
    size: string,
    url: Option<string>,
    mimeType: Option<string>,
    uploadedBy: Option<string>)

  datatype LoginStatus = Success | Failed

  datatype LoginHistoryEntry = LoginHistoryEntry(
    id: string,
    timestamp: string,
    ip: string,
    device: string,
    status: LoginStatus)

  /** `'status' | 'document' | 'alert'`. */
  datatype NotificationKind = StatusNotice | DocumentNotice | AlertNotice

  datatype ClientNotification = ClientNotification(
    id: string,
    title: string,
    message: string,
    timestamp: string,
    read: bool,
    kind: NotificationKind)

  /** A service package; its description and feature list are display text and left out. */
  datatype ServicePackage = ServicePackage(
    id: string,
    title: string,
    price: int,
    caseType: CaseType,
    popular: bool)

  datatype PaymentKind = Initial | Installment

  /** `'Pending' | 'Verified'`. Constructor names shared with other enums are written qualified. */
  datatype PaymentStatus = Pending | Verified

  datatype PaymentRecord = PaymentRecord(
    id: string,
    date: string,
    amount: int,
    kind: PaymentKind,
    slipUrl: string,
    status: PaymentStatus)

  datatype CaseFinancials = CaseFinancials(
    totalPrice: int,
    amountPaid: int,
    amountRemaining: int,
    payments: seq<PaymentRecord>)

  /** `'Open' | 'Closed' | 'Pending Court' | 'Payment Verification' | 'Rejected'`. */
  datatype CaseStatus = Open | Closed | PendingCourt | PaymentVerification | Rejected

  /** `'Full' | 'Installment'`, the deprecated billing mode recorded at registration. */
  datatype BillingMode = Full | Installment

  datatype Appointment = Appointment(date: string, time: string, location: string, title: string)

  datatype LegalCase = LegalCase(
    id: string,
    clientName: string,
    caseType: CaseType,
    subtype: string,
    password: string,
    lawyerId: int,
    status: CaseStatus,
    rejectionReason: Option<string>,
    timeline: seq<TimelineEvent>,
    documents: seq<CaseDocument>,
    loginHistory: seq<LoginHistoryEntry>,
    notifications: seq<ClientNotification>,
    nextAppointment: Option<Appointment>,
    financials: CaseFinancials,
    packageId: Option<string>,
    paymentProof: Option<string>,
    paymentType: Option<BillingMode>)

  /** `'General' | 'Civil' | 'Criminal' | 'Family' | 'Business'`. */
  datatype TermCategory = General | Civil | Criminal | Family | Business

  datatype GlossaryTerm = GlossaryTerm(word: string, definition: string, category: TermCategory)

  /**
   * What the browser supplies at the moment of an operation: `Date.now().toString()`,
   * `toISOString()`, `toLocaleDateString('th-TH')`, the Thai date-time of
   * `toLocaleString('th-TH', ...)`, and `getFullYear()`.
   */
  datatype Clock = Clock(stamp: string, iso: string, thaiDate: string, thaiDateTime: string, year: int)

  /**
   * `Partial<LegalCase>`: `None` is a key the object does not have. For an optional
   * field, `Some(None)` is a key present with the value `undefined`, which a spread
   * copies over.
   */
  datatype CasePatch = CasePatch(
    id: Option<string>,
    clientName: Option<string>,
    caseType: Option<CaseType>,
    subtype: Option<string>,
    password: Option<string>,
    lawyerId: Option<int>,
    status: Option<CaseStatus>,
    rejectionReason: Option<Option<string>>,
    timeline: Option<seq<TimelineEvent>>,
    documents: Option<seq<CaseDocument>>,
    loginHistory: Option<seq<LoginHistoryEntry>>,
    notifications: Option<seq<ClientNotification>>,
    nextAppointment: Option<Option<Appointment>>,
    financials: Option<CaseFinancials>,
    packageId: Option<Option<string>>,
    paymentProof: Option<Option<string>>,
    paymentType: Option<Option<BillingMode>>)

  const NoChanges := CasePatch(None, None, None, None, None, None, None, None, None, None,
                               None, None, None, None, None, None, None)

  /** `{ ...c, ...updates }`. */
  function Patched(c: LegalCase, u: CasePatch): (r: LegalCase)
    ensures u == NoChanges ==> r == c
  {
    LegalCase(
      u.id.GetOr(c.id),
      u.clientName.GetOr(c.clientName),
      u.caseType.GetOr(c.caseType),
      u.subtype.GetOr(c.subtype),
      u.password.GetOr(c.password),
      u.lawyerId.GetOr(c.lawyerId),
      u.status.GetOr(c.status),
      u.rejectionReason.GetOr(c.rejectionReason),
      u.timeline.GetOr(c.timeline),
      u.documents.GetOr(c.documents),
      u.loginHistory.GetOr(c.loginHistory),
      u.notifications.GetOr(c.notifications),
      u.nextAppointment.GetOr(c.nextAppointment),
      u.financials.GetOr(c.financials),
      u.packageId.GetOr(c.packageId),
      u.paymentProof.GetOr(c.paymentProof),
      u.paymentType.GetOr(c.paymentType))
  }

  /** `Partial<InternalUser>`, read as `CasePatch` is. */
  datatype UserPatch = UserPatch(
    id: Option<int>,
    username: Option<string>,
    password: Option<Option<string>>,
    name: Option<string>,
    role: Option<UserRole>,
    image: Option<Option<string>>,
    email: Option<Option<string>>,
    phone: Option<Option<string>>,
    specialty: Option<Option<string>>)

  /** `{ ...u, ...updates }`. */
  function PatchedUser(u: InternalUser, p: UserPatch): (r: InternalUser)
    ensures p.id.None? ==> r.id == u.id
    ensures p.role.None? ==> r.role == u.role
    ensures p.name.Some? ==> r.name == p.name.value
    ensures p == UserPatch(None, None, None, None, None, None, None, None, None) ==> r == u
  {
    InternalUser(
      p.id.GetOr(u.id),
      p.username.GetOr(u.username),
      p.password.GetOr(u.password),
      p.name.GetOr(u.name),
      p.role.GetOr(u.role),
      p.image.GetOr(u.image),
      p.email.GetOr(u.email),
      p.phone.GetOr(u.phone),
      p.specialty.GetOr(u.specialty))
  }
}
