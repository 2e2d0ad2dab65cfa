/**
 * The in-memory store of the law-office system (`context/StoreContext.tsx`): service
 * packages, inquiries, legal cases with their financial sub-record, and internal users.
 *
 * Every operation of the source replaces one of its arrays by a `map`/`filter`/spread
 * of the old one. Here each per-record transform is a function on `LegalCase` (or
 * `Inquiry`, `InternalUser`) with a contract that says what changes and that nothing
 * else does; the class `Store` holds the four state fields and its methods replace them
 * by those functions. Timestamps, random draws and locale formatting arrive as
 * parameters (`Clock`, `draw`, `password`), the file store as the id it returned.
 */
module StoreContext {
  import opened Wrappers
  import opened Seqs
  import opened Text
  import opened Types

  // ---------------------------------------------------------------- seed data

  const EstateTitle := "คดีจัดการมรดก (ไม่มีข้อโต้แย้ง)"
  const DivorceTitle := "คดีฟ้องหย่า (สมัครใจ)"
  const DefenseTitle := "ต่อสู้คดีแพ่ง (เริ่มต้น)"
  const ConsultTitle := "ที่ปรึกษากฎหมายธุรกิจ (รายเดือน)"
  const DemandTitle := "หนังสือทวงถาม / โนติส (Demand Letter)"

  const Packages: seq<ServicePackage> := [
    ServicePackage("pkg_estate_simple", EstateTitle, 8000, CaseType.Family, true),
    ServicePackage("pkg_divorce_mutual", DivorceTitle, 15000, CaseType.Family, false),
    ServicePackage("pkg_civil_defense", DefenseTitle, 20000, CaseType.Civil, false),
    ServicePackage("pkg_consult_hour", ConsultTitle, 5000, Corporate, false),
    ServicePackage("pkg_demand_letter", DemandTitle, 3000, CaseType.Civil, false)
  ]

  /** The Chief's user id; new registrations are assigned to it. */
  const ChiefId := 999

  const InitialUsers: seq<InternalUser> := [
    InternalUser(ChiefId, "admin", Some("admin"), "หัวหน้าสำนักงาน (Chief)", Chief,
      Some("https://ui-avatars.com/api/?name=Chief+Admin&background=0D8ABC&color=fff"),
      Some("chief@chanachai.com"), Some("02-123-4567"), Some("บริหารจัดการ")),
    InternalUser(1, "somchai", Some("password"), "ทนายสมชาย ยุติธรรม", Lawyer,
      Some("https://ui-avatars.com/api/?name=Somchai+Y&background=random"),
      Some("somchai@chanachai.com"), Some("081-111-1111"), Some("คดีแพ่งและธุรกิจ")),
    InternalUser(2, "wilai", Some("password"), "ทนายวิไล รักษา", Lawyer,
      Some("https://ui-avatars.com/api/?name=Wilai+R&background=random"),
      Some("wilai@chanachai.com"), Some("082-222-2222"), Some("คดีครอบครัว"))
  ]

  /** The seeded inquiry; `createdAt` is the ISO time two days before start-up. */
  function InitialInquiries(createdAt: string): seq<Inquiry> {
    [Inquiry("1", "สมชาย ใจดี", "somchai@example.com", "081-234-5678", CaseType.Civil,
       "ต้องการฟ้องร้องเรื่องผิดสัญญาเช่าซื้อรถยนต์ คู่กรณีไม่ยอมจ่ายค่างวดมา 3 เดือนแล้ว",
       New, createdAt, Some("ผิดสัญญาเช่าซื้อรถยนต์ ค้างชำระ 3 งวด"))]
  }

  const InitialCases: seq<LegalCase> := [
    LegalCase("C-2024-089", "คุณสมชาย ใจดี", CaseType.Civil, "ผิดสัญญาเช่าซื้อ", "password123", 1, Open, None,
      [TimelineEvent("1", "ยื่นคำฟ้องต่อศาล", "15 มีนาคม 2567",
         "ทนายความได้ดำเนินการยื่นคำฟ้องเรียบร้อยแล้ว ศาลประทับรับฟ้อง", Completed),
       TimelineEvent("2", "รอวันนัดไกล่เกลี่ย", "20 เมษายน 2567",
         "เตรียมเอกสารหลักฐานตัวจริงเพื่อนำสืบในชั้นศาล", Current)],
      [], [], [],
      Some(Appointment("20 เม.ย.", "09:00 น.", "ศาลแพ่งรัชดา", "นัดไกล่เกลี่ย")),
      CaseFinancials(20000, 20000, 0,
        [PaymentRecord("p1", "15/03/2024", 20000, Initial, "https://placehold.co/400x600?text=Slip", Verified)]),
      None, None, Some(Full))
  ]

  // ---------------------------------------------------------------- fixed texts

  const SubmittedMarker := "แจ้งชำระเงินงวด"
  const SubmittedTitle := SubmittedMarker + " (Payment Submitted)"
  const AwaitingCheck := "รอตรวจสอบ"
  const Checked := "ตรวจสอบแล้ว"
  const VerifiedTitle := "ชำระเงินงวดสำเร็จ (Payment Verified)"
  const SubmittedText := "ลูกความแจ้งชำระเงิน "
  const VerifiedNoticeTitle := "การชำระเงินได้รับการยืนยัน"
  const VerifiedNoticeText := "เจ้าหน้าที่ตรวจสอบยอดเงินของท่านเรียบร้อยแล้ว"
  const ApprovedTitle := "คดีได้รับการอนุมัติ (Case Approved)"
  const ApprovedText := "เจ้าหน้าที่ตรวจสอบข้อมูลและการชำระเงินเรียบร้อยแล้ว เริ่มดำเนินการตามขั้นตอน"
  const RejectedTitle := "คำขอเปิดคดีถูกปฏิเสธ"
  const RejectedText := "คำขอของคุณถูกปฏิเสธเนื่องจาก: "
  const RejectedClosing := ". กรุณาติดต่อเจ้าหน้าที่หากมีข้อสงสัย"
  const UploadedTitle := "มีเอกสารใหม่ในคดีของคุณ"
  const UploadedText := "ทนายความได้อัพโหลดเอกสาร: "
  const IpAddress := "127.0.0.1"
  const Device := "Web Browser"

  // ---------------------------------------------------------------- shared notions

  /** The money identity every operation but a free-form patch keeps. */
  predicate Balanced(f: CaseFinancials) {
    f.amountPaid + f.amountRemaining == f.totalPrice
  }

  /**
   * Each payment of `before` is still at its place in `after`, unchanged or turned from
   * Pending to Verified; payments are only ever added at the end. In particular a
   * Verified payment is never turned back.
   */
  predicate PaymentsAdvance(before: seq<PaymentRecord>, after: seq<PaymentRecord>) {
    |before| <= |after| &&
    forall i :: 0 <= i < |before| ==> after[i] == before[i] || after[i] == before[i].(status := Verified)
  }

  predicate IsUnread(n: ClientNotification) {
    !n.read
  }

  /** `notifications.filter(n => !n.read).length`. */
  function UnreadCount(ns: seq<ClientNotification>): nat {
    |Filter(ns, IsUnread)|
  }

  /** A notification created now; the store always creates them unread. */
  function Notice(title: string, message: string, kind: NotificationKind, clock: Clock): ClientNotification {
    ClientNotification(clock.stamp, title, message, clock.iso, false, kind)
  }

  /** Prepending one unread notification raises the unread count by one. */
  lemma UnreadAfterPrepend(n: ClientNotification, ns: seq<ClientNotification>)
    requires !n.read
    ensures UnreadCount([n] + ns) == UnreadCount(ns) + 1
  {
    assert ([n] + ns)[1..] == ns;
  }

  /** The sum of the amounts of the Verified payments. */
  function VerifiedTotal(ps: seq<PaymentRecord>): int
    decreases |ps|
  {
    if ps == [] then 0
    else (if ps[0].status == Verified then ps[0].amount else 0) + VerifiedTotal(ps[1..])
  }

  /** The sum of the amounts of all payments, verified or not. */
  function AmountTotal(ps: seq<PaymentRecord>): int
    decreases |ps|
  {
    if ps == [] then 0 else ps[0].amount + AmountTotal(ps[1..])
  }

  lemma {:induction false} AmountTotalAppend(ps: seq<PaymentRecord>, p: PaymentRecord)
    ensures AmountTotal(ps + [p]) == AmountTotal(ps) + p.amount
    decreases |ps|
  {
    if ps == [] {
      assert ([] + [p])[1..] == [];
    } else {
      assert (ps + [p])[1..] == ps[1..] + [p];
      AmountTotalAppend(ps[1..], p);
    }
  }

  /** `SERVICE_PACKAGES.find(p => p.id === id)`. */
  function PackageById(id: string): (r: Option<ServicePackage>)
    ensures r.Some? ==> r.value in Packages && r.value.id == id
    ensures r.None? ==> forall p :: p in Packages ==> p.id != id
  {
    Find(Packages, (p: ServicePackage) => p.id == id)
  }

  // ---------------------------------------------------------------- registration

  /** The case number of a registration, `C-<year>-<draw padded to 4 digits>`. */
  function RegistrationCaseId(year: int, draw: nat): string
    requires draw < 10000
  {
    "C-" + IntToString(year) + "-" + PadStart(NatToString(draw), 4)
  }

  function InitialPayment(amount: int, proofId: string, clock: Clock): PaymentRecord {
    PaymentRecord(clock.stamp, clock.thaiDate, amount, Initial, proofId, PaymentStatus.Pending)
  }

  // The fixed texts are named constants, so that proofs about the records do not unfold them.
  const ReceivedTitle := "ได้รับคำขอเปิดคดี (Request Received)"
  const ReceivedText := "ระบบได้รับข้อมูลแล้ว อยู่ระหว่างตรวจสอบการชำระเงิน ("
  const ReceivedNoticeTitle := "ได้รับข้อมูลการจ้างว่าความ"
  const ReceivedNoticeText := "ระบบได้รับข้อมูลของท่านแล้ว กรุณารอเจ้าหน้าที่ตรวจสอบการชำระเงินและอนุมัติคดี"

  function RequestReceived(initial: int, clock: Clock): TimelineEvent {
    TimelineEvent("1", ReceivedTitle, clock.thaiDate, ReceivedText + LocaleAmount(initial) + " บาท)", Current)
  }

  function RegistrationNotice(clock: Clock): ClientNotification {
    Notice(ReceivedNoticeTitle, ReceivedNoticeText, StatusNotice, clock)
  }

  /**
   * The case `registerNewCase` creates, where `pkg` is the package found for
   * `packageId` (`PackageById`) and `proofId` is what the file store returned for the
   * proof image, or `""` when there was none or saving it failed. The initial amount is
   * counted as paid already, while its payment is still Pending.
   */
  function RegisteredCase(fullName: string, packageId: string, pkg: Option<ServicePackage>, proofId: string,
                          initial: int, caseId: string, password: string, clock: Clock): (c: LegalCase)
    ensures c.id == caseId && c.password == password && c.clientName == fullName
    ensures c.status == PaymentVerification && c.lawyerId == ChiefId
    ensures pkg.None? ==> c.financials.totalPrice == 0 && c.caseType == Other && c.subtype == "General Case"
    ensures pkg.Some? ==>
      c.financials.totalPrice == pkg.value.price && c.caseType == pkg.value.caseType && c.subtype == pkg.value.title
    ensures c.financials.amountPaid == initial
    ensures c.financials.amountRemaining == c.financials.totalPrice - initial
    ensures Balanced(c.financials)
    ensures c.financials.payments == [InitialPayment(initial, proofId, clock)]
    ensures c.paymentType == Some(if initial < c.financials.totalPrice then BillingMode.Installment else Full)
    ensures c.timeline == [RequestReceived(initial, clock)]
    ensures c.notifications == [RegistrationNotice(clock)] && UnreadCount(c.notifications) == 1
    ensures c.documents == [] && c.loginHistory == [] && c.packageId == Some(packageId)
  {
    var total := if pkg.Some? then pkg.value.price else 0;
    UnreadAfterPrepend(RegistrationNotice(clock), []);
    LegalCase(
      caseId, fullName,
      if pkg.Some? then pkg.value.caseType else Other,
      if pkg.Some? then pkg.value.title else "General Case",
      password, ChiefId, PaymentVerification, None,
      [RequestReceived(initial, clock)], [], [], [RegistrationNotice(clock)], None,
      CaseFinancials(total, initial, total - initial, [InitialPayment(initial, proofId, clock)]),
      Some(packageId), Some(proofId),
      Some(if initial < total then BillingMode.Installment else Full))
  }

  // ---------------------------------------------------------------- payments

  /** The timeline entry announcing a submitted payment that awaits checking. */
  function SubmittedEvent(amount: int, clock: Clock): TimelineEvent {
    TimelineEvent(clock.stamp, SubmittedTitle, clock.thaiDate,
      SubmittedText + LocaleAmount(amount) + " บาท (" + AwaitingCheck + ")", EventStatus.Pending)
  }

  /** The entries `verifyPayment` completes: a pending entry whose title mentions a submitted payment. */
  predicate AwaitsVerification(t: TimelineEvent) {
    Contains(t.title, SubmittedMarker) && t.status == EventStatus.Pending
  }

  lemma SubmittedEventAwaits(amount: int, clock: Clock)
    ensures AwaitsVerification(SubmittedEvent(amount, clock))
  {
    ContainsPrefix(SubmittedMarker, " (Payment Submitted)");
  }

  /** `submitAdditionalPayment` on the matching case, once the proof is stored as `proofId`. */
  function WithPaymentSubmitted(c: LegalCase, amount: int, proofId: string, clock: Clock): (r: LegalCase)
    ensures r.financials.payments ==
      c.financials.payments + [PaymentRecord(clock.stamp, clock.thaiDate, amount, PaymentKind.Installment, proofId, PaymentStatus.Pending)]
    ensures |r.timeline| == |c.timeline| + 1 && r.timeline[1..] == c.timeline
    ensures AwaitsVerification(r.timeline[0])
    ensures r.financials.totalPrice == c.financials.totalPrice
    ensures r.financials.amountPaid == c.financials.amountPaid
    ensures r.financials.amountRemaining == c.financials.amountRemaining
    ensures r.(timeline := c.timeline, financials := c.financials) == c
    ensures PaymentsAdvance(c.financials.payments, r.financials.payments)
    ensures Balanced(c.financials) ==> Balanced(r.financials)
  {
    SubmittedEventAwaits(amount, clock);
    var payment := PaymentRecord(clock.stamp, clock.thaiDate, amount, PaymentKind.Installment, proofId, PaymentStatus.Pending);
    c.(timeline := [SubmittedEvent(amount, clock)] + c.timeline,
       financials := c.financials.(payments := c.financials.payments + [payment]))
  }

  function HasPaymentId(paymentId: string): PaymentRecord -> bool {
    (p: PaymentRecord) => p.id == paymentId
  }

  function MarkVerified(p: PaymentRecord): PaymentRecord {
    p.(status := Verified)
  }

  /** A completed payment entry: new title, and the first "awaiting check" in its text turned into "checked". */
  function Settled(t: TimelineEvent): TimelineEvent {
    t.(status := Completed, title := VerifiedTitle, description := ReplaceFirst(t.description, AwaitingCheck, Checked))
  }

  function VerifiedNotice(clock: Clock): ClientNotification {
    Notice(VerifiedNoticeTitle, VerifiedNoticeText, StatusNotice, clock)
  }

  /** `verifyPayment` acts on a case exactly when its first payment with that id is still Pending. */
  predicate VerifiesSomething(c: LegalCase, paymentId: string) {
    var found := Find(c.financials.payments, HasPaymentId(paymentId));
    found.Some? && found.value.status == PaymentStatus.Pending
  }

  /**
   * `verifyPayment` on the matching case. The amount of the first payment with that id
   * is added to `amountPaid` and `amountRemaining` recomputed from it (never clamped);
   * every payment with that id is marked Verified, and every pending entry that
   * mentions a submitted payment is completed, whichever payment it announced.
   */
  function WithPaymentVerified(c: LegalCase, paymentId: string, clock: Clock): (r: LegalCase)
    ensures !VerifiesSomething(c, paymentId) ==> r == c
    ensures VerifiesSomething(c, paymentId) ==>
      var p := Find(c.financials.payments, HasPaymentId(paymentId)).value;
      && r.financials.amountPaid == c.financials.amountPaid + p.amount
      && r.financials.totalPrice == c.financials.totalPrice
      && Balanced(r.financials)
      && |r.financials.payments| == |c.financials.payments|
      && (forall i :: 0 <= i < |c.financials.payments| ==>
            r.financials.payments[i] ==
              if c.financials.payments[i].id == paymentId then c.financials.payments[i].(status := Verified)
              else c.financials.payments[i])
      && |r.timeline| == |c.timeline|
      && (forall i :: 0 <= i < |c.timeline| ==>
            r.timeline[i] == if AwaitsVerification(c.timeline[i]) then Settled(c.timeline[i]) else c.timeline[i])
      && r.notifications == [VerifiedNotice(clock)] + c.notifications
      && UnreadCount(r.notifications) == UnreadCount(c.notifications) + 1
      && r.(timeline := c.timeline, notifications := c.notifications, financials := c.financials) == c
    ensures r.id == c.id
    ensures PaymentsAdvance(c.financials.payments, r.financials.payments)
    ensures Balanced(c.financials) ==> Balanced(r.financials)
  {
    if !VerifiesSomething(c, paymentId) then c
    else
      var p := Find(c.financials.payments, HasPaymentId(paymentId)).value;
      var paid := c.financials.amountPaid + p.amount;
      UnreadAfterPrepend(VerifiedNotice(clock), c.notifications);
      c.(timeline := MapWhere(c.timeline, AwaitsVerification, Settled),
         notifications := [VerifiedNotice(clock)] + c.notifications,
         financials := c.financials.(
           amountPaid := paid,
           amountRemaining := c.financials.totalPrice - paid,
           payments := MapWhere(c.financials.payments, HasPaymentId(paymentId), MarkVerified)))
  }

  /** Verifying the same payment again, at any later time, changes nothing. */
  lemma VerifyIdempotent(c: LegalCase, paymentId: string, first: Clock, second: Clock)
    ensures WithPaymentVerified(WithPaymentVerified(c, paymentId, first), paymentId, second)
         == WithPaymentVerified(c, paymentId, first)
  {
    var r := WithPaymentVerified(c, paymentId, first);
    if VerifiesSomething(c, paymentId) {
      var found := Find(r.financials.payments, HasPaymentId(paymentId));
      if found.Some? {
        var i :| 0 <= i < |r.financials.payments| && r.financials.payments[i] == found.value;
        assert c.financials.payments[i].id == paymentId;
      }
    }
  }

  // ---------------------------------------------------------------- approval and rejection

  function ApprovalEvent(clock: Clock): TimelineEvent {
    TimelineEvent(clock.stamp, ApprovedTitle, clock.thaiDate, ApprovedText, Current)
  }

  predicate IsPendingPayment(p: PaymentRecord) {
    p.status == PaymentStatus.Pending
  }

  /**
   * `approveCase(id, updates)` on the matching case: `updates` are spread over the case
   * first, then the status, the financials and the timeline are written from the old
   * case, so `updates` cannot change those three. The amounts are left as they are.
   */
  function WithApproval(c: LegalCase, updates: CasePatch, clock: Clock): (r: LegalCase)
    ensures r.status == Open
    ensures r.financials == ApprovedFinancials(c.financials)
    ensures |r.timeline| == |c.timeline| + 1 && r.timeline[0] == ApprovalEvent(clock) && r.timeline[1..] == c.timeline
  {
    Patched(c, updates).(status := Open, financials := ApprovedFinancials(c.financials),
                         timeline := [ApprovalEvent(clock)] + c.timeline)
  }

  /** The financials after approval: every payment Verified, the amounts left as they are. */
  function ApprovedFinancials(f: CaseFinancials): (r: CaseFinancials)
    ensures r.totalPrice == f.totalPrice && r.amountPaid == f.amountPaid && r.amountRemaining == f.amountRemaining
    ensures r.payments == AllVerified(f.payments)
    ensures PaymentsAdvance(f.payments, r.payments)
    ensures Balanced(f) ==> Balanced(r)
  {
    f.(payments := AllVerified(f.payments))
  }

  /** Every field other than the status, the financials and the timeline comes from `{ ...c, ...updates }`. */
  lemma ApprovalKeepsUpdates(c: LegalCase, updates: CasePatch, clock: Clock)
    ensures var s := Patched(c, updates);
      WithApproval(c, updates, clock).(status := s.status, financials := s.financials, timeline := s.timeline) == s
  {
  }

  /** Called without updates, approval changes only the status, the payments and the timeline. */
  lemma ApprovalWithoutUpdates(c: LegalCase, clock: Clock)
    ensures WithApproval(c, NoChanges, clock).(status := c.status, financials := c.financials, timeline := c.timeline) == c
  {
    assert Patched(c, NoChanges) == c;
  }

  /** `payments.map(p => p.status === 'Pending' ? { ...p, status: 'Verified' } : p)`: every payment Verified. */
  function AllVerified(ps: seq<PaymentRecord>): (r: seq<PaymentRecord>)
    ensures |r| == |ps|
    ensures forall i :: 0 <= i < |ps| ==> r[i] == ps[i].(status := Verified)
    ensures PaymentsAdvance(ps, r)
  {
    MapWhere(ps, IsPendingPayment, MarkVerified)
  }

  function RejectionNotice(reason: string, clock: Clock): ClientNotification {
    Notice(RejectedTitle, RejectedText + reason + RejectedClosing, AlertNotice, clock)
  }

  /** `rejectCase` on the matching case. */
  function WithRejection(c: LegalCase, reason: string, clock: Clock): (r: LegalCase)
    ensures r.status == Rejected && r.rejectionReason == Some(reason)
    ensures |r.notifications| == |c.notifications| + 1 && r.notifications[1..] == c.notifications
    ensures r.notifications[0].kind == AlertNotice && !r.notifications[0].read
    ensures r.notifications[0].title == RejectedTitle
    ensures r.notifications[0].message == RejectedText + reason + RejectedClosing && Contains(r.notifications[0].message, reason)
    ensures r.notifications[0].id == clock.stamp && r.notifications[0].timestamp == clock.iso
    ensures r.(status := c.status, rejectionReason := c.rejectionReason, notifications := c.notifications) == c
  {
    ContainsPrefix(reason, RejectedClosing);
    ContainsSuffix(RejectedText, reason + RejectedClosing, reason);
    assert RejectedText + reason + RejectedClosing == RejectedText + (reason + RejectedClosing);
    c.(status := Rejected, rejectionReason := Some(reason), notifications := [RejectionNotice(reason, clock)] + c.notifications)
  }

  // ---------------------------------------------------------------- logins, notifications, documents

  const MaxLoginHistory := 10

  function LoginEntry(success: bool, clock: Clock): LoginHistoryEntry {
    LoginHistoryEntry(clock.stamp, clock.thaiDateTime, IpAddress, Device, if success then Success else Failed)
  }

  /** `recordLogin` on the matching case: newest entry first, at most ten kept. */
  function WithLogin(c: LegalCase, success: bool, clock: Clock): (r: LegalCase)
    ensures 1 <= |r.loginHistory| <= MaxLoginHistory
    ensures |r.loginHistory| == if |c.loginHistory| < MaxLoginHistory then |c.loginHistory| + 1 else MaxLoginHistory
    ensures r.loginHistory[0] == LoginEntry(success, clock)
    ensures r.loginHistory[1..] <= c.loginHistory
    ensures r.(loginHistory := c.loginHistory) == c
  {
    var h := [LoginEntry(success, clock)] + c.loginHistory;
    assert Take(h, MaxLoginHistory)[1..] == Take(c.loginHistory, MaxLoginHistory - 1);
    c.(loginHistory := Take(h, MaxLoginHistory))
  }

  /** `pushNotification` on the matching case. */
  function WithNotification(c: LegalCase, title: string, message: string, kind: NotificationKind, clock: Clock): (r: LegalCase)
    ensures |r.notifications| == |c.notifications| + 1 && r.notifications[1..] == c.notifications
    ensures r.notifications[0] == ClientNotification(clock.stamp, title, message, clock.iso, false, kind)
    ensures UnreadCount(r.notifications) == UnreadCount(c.notifications) + 1
    ensures r.(notifications := c.notifications) == c
  {
    UnreadAfterPrepend(Notice(title, message, kind, clock), c.notifications);
    c.(notifications := [Notice(title, message, kind, clock)] + c.notifications)
  }

  function MarkRead(n: ClientNotification): ClientNotification {
    n.(read := true)
  }

  /** `markAllNotificationsRead` on the matching case. */
  function WithAllRead(c: LegalCase): (r: LegalCase)
    ensures |r.notifications| == |c.notifications|
    ensures forall i :: 0 <= i < |c.notifications| ==> r.notifications[i] == c.notifications[i].(read := true)
    ensures UnreadCount(r.notifications) == 0
    ensures r.(notifications := c.notifications) == c
  {
    var ns := Map(c.notifications, MarkRead);
    FilterKeepsNone(ns, IsUnread);
    c.(notifications := ns)
  }

  lemma AllReadIdempotent(c: LegalCase)
    ensures WithAllRead(WithAllRead(c)) == WithAllRead(c)
  {
  }

  /** `addGeneratedDocument` on the matching case: the document goes first, no notification. */
  function WithDocument(c: LegalCase, doc: CaseDocument): (r: LegalCase)
    ensures |r.documents| == |c.documents| + 1 && r.documents[0] == doc && r.documents[1..] == c.documents
    ensures r.(documents := c.documents) == c
  {
    c.(documents := [doc] + c.documents)
  }

  /** The record `addCaseDocument` builds for an uploaded file stored as `fileId`. */
  function UploadedDocument(fileName: string, size: string, mimeType: string, uploader: string,
                            fileId: string, clock: Clock): CaseDocument {
    CaseDocument(clock.stamp, fileName, clock.thaiDate, size, Some(fileId), Some(mimeType), Some(uploader))
  }

  /** `addCaseDocument` on the matching case: the document goes first and the client is told. */
  function WithUpload(c: LegalCase, doc: CaseDocument, clock: Clock): (r: LegalCase)
    ensures r.documents == [doc] + c.documents
    ensures |r.notifications| == |c.notifications| + 1 && r.notifications[1..] == c.notifications
    ensures r.notifications[0].kind == DocumentNotice && UnreadCount(r.notifications) == UnreadCount(c.notifications) + 1
    ensures r.notifications[0] == Notice(UploadedTitle, UploadedText + doc.name, DocumentNotice, clock)
    ensures r.(documents := c.documents, notifications := c.notifications) == c
  {
    var n := Notice(UploadedTitle, UploadedText + doc.name, DocumentNotice, clock);
    UnreadAfterPrepend(n, c.notifications);
    c.(documents := [doc] + c.documents, notifications := [n] + c.notifications)
  }

  // ---------------------------------------------------------------- the lifecycle as written

  /**
   * Registration already counts the initial amount as paid; approving the case then
   * marks the payment Verified without adding anything, so after register-then-approve
   * the verified amounts add up to `amountPaid`.
   */
  lemma RegisterThenApprove(fullName: string, packageId: string, pkg: Option<ServicePackage>, proofId: string, initial: int,
                            caseId: string, password: string, registered: Clock, approved: Clock)
    ensures var c := WithApproval(RegisteredCase(fullName, packageId, pkg, proofId, initial, caseId, password, registered),
                                  NoChanges, approved);
      c.status == Open && VerifiedTotal(c.financials.payments) == c.financials.amountPaid && Balanced(c.financials)
  {
    var c0 := RegisteredCase(fullName, packageId, pkg, proofId, initial, caseId, password, registered);
    ApprovalVerifiesEverything(c0.financials.payments);
    assert WithApproval(c0, NoChanges, approved).financials.payments == AllVerified(c0.financials.payments);
    assert c0.financials.payments[1..] == [];
  }

  /**
   * Verifying the initial payment instead adds its amount a second time: `amountPaid`
   * becomes twice the initial amount while the verified amounts add up to it once.
   */
  lemma VerifyInitialCountsTwice(fullName: string, packageId: string, pkg: Option<ServicePackage>, proofId: string, initial: int,
                                 caseId: string, password: string, registered: Clock, verified: Clock)
    ensures var c0 := RegisteredCase(fullName, packageId, pkg, proofId, initial, caseId, password, registered);
      var c := WithPaymentVerified(c0, registered.stamp, verified);
      c.financials.amountPaid == 2 * initial && VerifiedTotal(c.financials.payments) == initial
  {
    var c0 := RegisteredCase(fullName, packageId, pkg, proofId, initial, caseId, password, registered);
    assert c0.financials.payments[0].id == registered.stamp;
    assert VerifiesSomething(c0, registered.stamp);
    var c := WithPaymentVerified(c0, registered.stamp, verified);
    assert c.financials.payments[1..] == [];
  }

  /**
   * Approval marks every payment Verified but leaves `amountPaid` alone: afterwards the
   * verified amounts are all amounts ever submitted, whatever was counted before.
   */
  lemma {:induction false} ApprovalVerifiesEverything(ps: seq<PaymentRecord>)
    ensures VerifiedTotal(AllVerified(ps)) == AmountTotal(ps)
    decreases |ps|
  {
    if ps != [] {
      assert AllVerified(ps)[1..] == AllVerified(ps[1..]);
      ApprovalVerifiesEverything(ps[1..]);
    }
  }

  /**
   * An installment submitted before approval becomes Verified on approval, but its
   * amount is never added to `amountPaid`.
   */
  lemma ApproveSkipsInstallments(c: LegalCase, amount: int, slip: string, submitted: Clock, approved: Clock)
    ensures var r := WithApproval(WithPaymentSubmitted(c, amount, slip, submitted), NoChanges, approved);
      && r.financials.amountPaid == c.financials.amountPaid
      && VerifiedTotal(r.financials.payments) == AmountTotal(c.financials.payments) + amount
  {
    var s := WithPaymentSubmitted(c, amount, slip, submitted);
    var p := PaymentRecord(submitted.stamp, submitted.thaiDate, amount, PaymentKind.Installment, slip, PaymentStatus.Pending);
    AmountTotalAppend(c.financials.payments, p);
    ApprovalVerifiesEverything(s.financials.payments);
    assert WithApproval(s, NoChanges, approved).financials.payments == AllVerified(s.financials.payments);
  }

  /** A submitted installment that is then verified is counted once and its entry completed. */
  lemma SubmitThenVerify(c: LegalCase, amount: int, slip: string, submitted: Clock, verified: Clock)
    requires forall i :: 0 <= i < |c.financials.payments| ==> c.financials.payments[i].id != submitted.stamp
    ensures var r := WithPaymentVerified(WithPaymentSubmitted(c, amount, slip, submitted), submitted.stamp, verified);
      && r.financials.amountPaid == c.financials.amountPaid + amount
      && r.financials.amountRemaining == c.financials.totalPrice - c.financials.amountPaid - amount
      && r.financials.payments[|c.financials.payments|].status == Verified
      && r.timeline[0].status == Completed && r.timeline[0].title == VerifiedTitle
  {
    var s := WithPaymentSubmitted(c, amount, slip, submitted);
    var n := |c.financials.payments|;
    var found := Find(s.financials.payments, HasPaymentId(submitted.stamp));
    assert s.financials.payments[n].id == submitted.stamp;
    assert found.Some?;
    assert found.value == s.financials.payments[n];
  }

  // ---------------------------------------------------------------- case lists

  function HasCaseId(id: string): LegalCase -> bool {
    (c: LegalCase) => c.id == id
  }

  /** `cases.map(c => c.id === id ? f(c) : c)`. */
  function UpdateCase(cases: seq<LegalCase>, id: string, f: LegalCase -> LegalCase): (r: seq<LegalCase>)
    ensures |r| == |cases|
    ensures forall i :: 0 <= i < |cases| ==> r[i] == if cases[i].id == id then f(cases[i]) else cases[i]
  {
    MapWhere(cases, HasCaseId(id), f)
  }

  function SubmitStep(amount: int, proofId: string, clock: Clock): LegalCase -> LegalCase {
    (c: LegalCase) => WithPaymentSubmitted(c, amount, proofId, clock)
  }

  function VerifyStep(paymentId: string, clock: Clock): LegalCase -> LegalCase {
    (c: LegalCase) => WithPaymentVerified(c, paymentId, clock)
  }

  function ApproveStep(updates: CasePatch, clock: Clock): LegalCase -> LegalCase {
    (c: LegalCase) => WithApproval(c, updates, clock)
  }

  function RejectStep(reason: string, clock: Clock): LegalCase -> LegalCase {
    (c: LegalCase) => WithRejection(c, reason, clock)
  }

  function PatchStep(updates: CasePatch): LegalCase -> LegalCase {
    (c: LegalCase) => Patched(c, updates)
  }

  function LoginStep(success: bool, clock: Clock): LegalCase -> LegalCase {
    (c: LegalCase) => WithLogin(c, success, clock)
  }

  function DocumentStep(doc: CaseDocument): LegalCase -> LegalCase {
    (c: LegalCase) => WithDocument(c, doc)
  }

  function UploadStep(doc: CaseDocument, clock: Clock): LegalCase -> LegalCase {
    (c: LegalCase) => WithUpload(c, doc, clock)
  }

  function NotifyStep(title: string, message: string, kind: NotificationKind, clock: Clock): LegalCase -> LegalCase {
    (c: LegalCase) => WithNotification(c, title, message, kind, clock)
  }

  function ReadStep(): LegalCase -> LegalCase {
    (c: LegalCase) => WithAllRead(c)
  }

  /** On the whole list, too, verifying a payment twice is verifying it once. */
  lemma VerifyPaymentTwice(cases: seq<LegalCase>, id: string, paymentId: string, first: Clock, second: Clock)
    ensures UpdateCase(UpdateCase(cases, id, VerifyStep(paymentId, first)), id, VerifyStep(paymentId, second))
         == UpdateCase(cases, id, VerifyStep(paymentId, first))
  {
    forall c: LegalCase | HasCaseId(id)(c)
      ensures HasCaseId(id)(VerifyStep(paymentId, first)(c))
      ensures VerifyStep(paymentId, second)(VerifyStep(paymentId, first)(c)) == VerifyStep(paymentId, first)(c)
    {
      VerifyIdempotent(c, paymentId, first, second);
    }
    MapWhereAbsorbs(cases, HasCaseId(id), VerifyStep(paymentId, first), VerifyStep(paymentId, second));
  }

  predicate AllBalanced(cases: seq<LegalCase>) {
    forall i :: 0 <= i < |cases| ==> Balanced(cases[i].financials)
  }

  /**
   * Every lifecycle step keeps `amountPaid + amountRemaining == totalPrice` on every case
   * where it held; only a free-form `updateLegalCase` or `addCase` can break it.
   */
  lemma LifecycleKeepsBalance(cases: seq<LegalCase>, id: string, amount: int, proofId: string, paymentId: string,
                              updates: CasePatch, reason: string, clock: Clock)
    requires AllBalanced(cases)
    ensures AllBalanced(UpdateCase(cases, id, SubmitStep(amount, proofId, clock)))
    ensures AllBalanced(UpdateCase(cases, id, VerifyStep(paymentId, clock)))
    ensures AllBalanced(UpdateCase(cases, id, ApproveStep(updates, clock)))
    ensures AllBalanced(UpdateCase(cases, id, RejectStep(reason, clock)))
  {
  }

  function Without(cases: seq<LegalCase>, id: string): (r: seq<LegalCase>)
    ensures forall c :: c in r <==> c in cases && c.id != id
    ensures forall c :: multiset(r)[c] == if c.id != id then multiset(cases)[c] else 0
    ensures IsSubsequence(r, cases)
  {
    var keep := (c: LegalCase) => c.id != id;
    FilterIsSubsequence(cases, keep);
    forall c ensures c in Filter(cases, keep) <==> c in cases && c.id != id {
      FilterMembers(cases, keep, c);
    }
    forall c ensures multiset(Filter(cases, keep))[c] == if c.id != id then multiset(cases)[c] else 0 {
      FilterCount(cases, keep, c);
    }
    Filter(cases, keep)
  }

  /** `c => c.lawyerId === currentUser?.id`; with nobody logged in the id is `undefined` and matches no case. */
  function AssignedTo(userId: Option<int>): LegalCase -> bool {
    (c: LegalCase) => Some(c.lawyerId) == userId
  }

  /**
   * The cases a user sees: the Chief every case, anybody else the cases assigned to
   * their id, and nobody (no one logged in) no case at all.
   */
  function Visible(cases: seq<LegalCase>, user: Option<InternalUser>): (r: seq<LegalCase>)
    ensures user.Some? && user.value.role == Chief ==> r == cases
    ensures user.Some? && user.value.role == Lawyer ==>
      forall c :: c in r <==> c in cases && c.lawyerId == user.value.id
    ensures user.Some? && user.value.role == Lawyer ==>
      forall c :: multiset(r)[c] == if c.lawyerId == user.value.id then multiset(cases)[c] else 0
    ensures user.None? ==> r == []
    ensures IsSubsequence(r, cases)
  {
    if user.Some? && user.value.role == Chief then
      ReflexiveSubsequence(cases);
      cases
    else
      AssignedCases(cases, if user.Some? then Some(user.value.id) else None)
  }

  function AssignedCases(cases: seq<LegalCase>, userId: Option<int>): (r: seq<LegalCase>)
    ensures forall c :: c in r <==> c in cases && Some(c.lawyerId) == userId
    ensures forall c :: multiset(r)[c] == if Some(c.lawyerId) == userId then multiset(cases)[c] else 0
    ensures userId.None? ==> r == []
    ensures IsSubsequence(r, cases)
  {
    FilterIsSubsequence(cases, AssignedTo(userId));
    forall c ensures c in Filter(cases, AssignedTo(userId)) <==> c in cases && Some(c.lawyerId) == userId {
      FilterMembers(cases, AssignedTo(userId), c);
    }
    forall c ensures multiset(Filter(cases, AssignedTo(userId)))[c] == if Some(c.lawyerId) == userId then multiset(cases)[c] else 0 {
      FilterCount(cases, AssignedTo(userId), c);
    }
    if userId.None? then
      FilterKeepsNone(cases, AssignedTo(userId));
      Filter(cases, AssignedTo(userId))
    else
      Filter(cases, AssignedTo(userId))
  }

  // ---------------------------------------------------------------- statistics

  datatype Stats = Stats(
    totalInquiries: nat,
    activeCases: nat,
    pendingApprovals: nat,
    closedInquiries: nat,
    byType: map<CaseType, nat>)

  predicate IsActive(c: LegalCase) {
    c.status == Open || c.status == PendingCourt
  }

  predicate AwaitsApproval(c: LegalCase) {
    c.status == PaymentVerification
  }

  predicate IsClosedInquiry(i: Inquiry) {
    i.status == InquiryStatus.Closed
  }

  function InquiryType(i: Inquiry): CaseType {
    i.caseType
  }

  /** `inquiries.reduce(...)` by type: each type that occurs, with how many inquiries have it. */
  function CountByType(inquiries: seq<Inquiry>): (m: map<CaseType, nat>)
    ensures forall t :: t in m <==> exists i :: 0 <= i < |inquiries| && inquiries[i].caseType == t
    ensures forall t :: t in m ==> m[t] == |Filter(inquiries, KeyIs(InquiryType, t))|
    ensures Total(m) == |inquiries|
  {
    var types := Map(inquiries, InquiryType);
    TallyTotal(types);
    TypeCounts(inquiries);
    TypeKeys(inquiries);
    Tally(types)
  }

  lemma TypeCounts(inquiries: seq<Inquiry>)
    ensures var m := Tally(Map(inquiries, InquiryType));
      forall t :: t in m ==> m[t] == |Filter(inquiries, KeyIs(InquiryType, t))|
  {
    forall t | t in Tally(Map(inquiries, InquiryType))
      ensures Tally(Map(inquiries, InquiryType))[t] == |Filter(inquiries, KeyIs(InquiryType, t))|
    {
      KeyCount(inquiries, InquiryType, t);
    }
  }

  lemma TypeKeys(inquiries: seq<Inquiry>)
    ensures forall t :: t in Map(inquiries, InquiryType) <==> exists i :: 0 <= i < |inquiries| && inquiries[i].caseType == t
  {
    var types := Map(inquiries, InquiryType);
    forall t ensures t in types <==> exists i :: 0 <= i < |inquiries| && inquiries[i].caseType == t {
      if t in types {
        var k :| 0 <= k < |types| && types[k] == t;
        assert inquiries[k].caseType == t;
      }
    }
  }

  /** The dashboard counters over all inquiries and the visible cases. */
  function StatsOf(inquiries: seq<Inquiry>, visible: seq<LegalCase>): (s: Stats)
    ensures s.totalInquiries == |inquiries|
    ensures s.activeCases == |Filter(visible, IsActive)| && s.pendingApprovals == |Filter(visible, AwaitsApproval)|
    ensures s.activeCases + s.pendingApprovals <= |visible|
    ensures s.closedInquiries == |Filter(inquiries, IsClosedInquiry)| <= |inquiries|
    ensures s.byType == CountByType(inquiries)
  {
    FilterDisjoint(visible, IsActive, AwaitsApproval);
    Stats(|inquiries|, |Filter(visible, IsActive)|, |Filter(visible, AwaitsApproval)|,
          |Filter(inquiries, IsClosedInquiry)|, CountByType(inquiries))
  }

  // ---------------------------------------------------------------- users

  predicate IsStaff(u: InternalUser) {
    u.role == Lawyer || u.role == Chief
  }

  /** `users.filter(u => u.role === LAWYER || u.role === CHIEF)`: with two roles, every user. */
  function StaffOf(users: seq<InternalUser>): (r: seq<InternalUser>)
    ensures r == users
  {
    FilterKeepsAll(users, IsStaff);
    Filter(users, IsStaff)
  }

  function HasUsername(username: string): InternalUser -> bool {
    (u: InternalUser) => u.username == username
  }

  /**
   * `loginAdmin`: the first user with that username, provided its password is `pass`.
   * A later user with the same username is never considered.
   */
  function AdminLogin(users: seq<InternalUser>, username: string, pass: string): (r: Option<InternalUser>)
    ensures r.Some? <==> exists i :: 0 <= i < |users| && users[i].username == username && users[i].password == Some(pass)
                                     && forall j :: 0 <= j < i ==> users[j].username != username
    ensures r.Some? ==> r.value in users && r.value.username == username && r.value.password == Some(pass)
  {
    match FindIndex(users, HasUsername(username))
    case None => None
    case Some(i) => if users[i].password == Some(pass) then Some(users[i]) else None
  }

  /** `updateUser`'s effect on `currentUser`: patched when it is the same user. */
  function CurrentAfterUpdate(current: Option<InternalUser>, id: int, updates: UserPatch): (r: Option<InternalUser>)
    ensures current.None? ==> r.None?
    ensures current.Some? && current.value.id == id ==> r == Some(PatchedUser(current.value, updates))
    ensures current.Some? && current.value.id != id ==> r == current
  {
    if current.Some? && current.value.id == id then Some(PatchedUser(current.value, updates)) else current
  }

  function HasUserId(id: int): InternalUser -> bool {
    (u: InternalUser) => u.id == id
  }

  function PatchUserStep(updates: UserPatch): InternalUser -> InternalUser {
    (u: InternalUser) => PatchedUser(u, updates)
  }

  // ---------------------------------------------------------------- inquiries

  /** The fields of the contact form. */
  datatype InquiryForm = InquiryForm(name: string, email: string, phone: string, caseType: CaseType, message: string)

  /** `addInquiry`'s record; `summary` stands for what the language model returned. */
  function NewInquiry(form: InquiryForm, summary: string, id: string, clock: Clock): (r: Inquiry)
    ensures r.status == New && r.aiSummary == Some(summary) && r.createdAt == clock.iso && r.id == id
    ensures r.name == form.name && r.email == form.email && r.phone == form.phone
    ensures r.caseType == form.caseType && r.message == form.message
  {
    Inquiry(id, form.name, form.email, form.phone, form.caseType, form.message, New, clock.iso, Some(summary))
  }

  function HasInquiryId(id: string): Inquiry -> bool {
    (i: Inquiry) => i.id == id
  }

  function SetInquiryStatus(status: InquiryStatus): Inquiry -> Inquiry {
    (i: Inquiry) => i.(status := status)
  }

  // ---------------------------------------------------------------- the store

  class Store {
    var inquiries: seq<Inquiry>
    var cases: seq<LegalCase>
    var users: seq<InternalUser>
    var currentUser: Option<InternalUser>

    /** The store as the provider starts it, from the seed data. */
    constructor(seededAt: string)
      ensures inquiries == InitialInquiries(seededAt) && cases == InitialCases
      ensures users == InitialUsers && currentUser == None
    {
      inquiries := InitialInquiries(seededAt);
      cases := InitialCases;
      users := InitialUsers;
      currentUser := None;
    }

    function VisibleCases(): seq<LegalCase>
      reads this
    {
      Visible(cases, currentUser)
    }

    function CurrentStats(): Stats
      reads this
    {
      StatsOf(inquiries, VisibleCases())
    }

    function AvailableLawyers(): seq<InternalUser>
      reads this
    {
      StaffOf(users)
    }

    /** `getCaseById`. */
    function CaseById(id: string): Option<LegalCase>
      reads this
    {
      Find(cases, HasCaseId(id))
    }

    method AddInquiry(form: InquiryForm, summary: string, id: string, clock: Clock)
      modifies this
      ensures inquiries == [NewInquiry(form, summary, id, clock)] + old(inquiries)
      ensures cases == old(cases) && users == old(users) && currentUser == old(currentUser)
    {
      inquiries := [NewInquiry(form, summary, id, clock)] + inquiries;
    }

    method UpdateInquiryStatus(id: string, status: InquiryStatus)
      modifies this
      ensures inquiries == MapWhere(old(inquiries), HasInquiryId(id), SetInquiryStatus(status))
      ensures cases == old(cases) && users == old(users) && currentUser == old(currentUser)
    {
      inquiries := MapWhere(inquiries, HasInquiryId(id), SetInquiryStatus(status));
    }

    method DeleteInquiry(id: string)
      modifies this
      ensures inquiries == Filter(old(inquiries), (i: Inquiry) => i.id != id)
      ensures forall i :: i in inquiries <==> i in old(inquiries) && i.id != id
      ensures cases == old(cases) && users == old(users) && currentUser == old(currentUser)
    {
      var keep := (i: Inquiry) => i.id != id;
      forall i ensures i in Filter(inquiries, keep) <==> i in inquiries && i.id != id {
        FilterMembers(inquiries, keep, i);
      }
      inquiries := Filter(inquiries, keep);
    }

    method AddCase(c: LegalCase)
      modifies this
      ensures cases == [c] + old(cases)
      ensures inquiries == old(inquiries) && users == old(users) && currentUser == old(currentUser)
    {
      cases := [c] + cases;
    }

    /**
     * `registerNewCase`: the new case goes first; the case number and the password are
     * returned. `draw` is the random four-digit part of the number.
     */
    method RegisterNewCase(fullName: string, packageId: string, proofId: string, initial: int,
                           draw: nat, password: string, clock: Clock)
      returns (caseId: string, pass: string)
      requires draw < 10000
      modifies this
      ensures caseId == RegistrationCaseId(clock.year, draw) && pass == password
      ensures cases == [RegisteredCase(fullName, packageId, PackageById(packageId), proofId, initial, caseId, password, clock)]
                       + old(cases)
      ensures inquiries == old(inquiries) && users == old(users) && currentUser == old(currentUser)
    {
      caseId := RegistrationCaseId(clock.year, draw);
      pass := password;
      cases := [RegisteredCase(fullName, packageId, PackageById(packageId), proofId, initial, caseId, password, clock)] + cases;
    }

    /**
     * `submitAdditionalPayment`: `stored` is the id the file store returned for the
     * proof, or `None` when saving failed, in which case the call fails (`ok` false)
     * and nothing changes.
     */
    method SubmitAdditionalPayment(caseId: string, amount: int, stored: Option<string>, clock: Clock)
      returns (ok: bool)
      modifies this
      ensures ok <==> stored.Some?
      ensures ok ==> cases == UpdateCase(old(cases), caseId, SubmitStep(amount, stored.value, clock))
      ensures !ok ==> cases == old(cases)
      ensures inquiries == old(inquiries) && users == old(users) && currentUser == old(currentUser)
    {
      ok := stored.Some?;
      if ok {
        cases := UpdateCase(cases, caseId, SubmitStep(amount, stored.value, clock));
      }
    }

    method VerifyPayment(caseId: string, paymentId: string, clock: Clock)
      modifies this
      ensures cases == UpdateCase(old(cases), caseId, VerifyStep(paymentId, clock))
      ensures inquiries == old(inquiries) && users == old(users) && currentUser == old(currentUser)
    {
      cases := UpdateCase(cases, caseId, VerifyStep(paymentId, clock));
    }

    /** `approveCase`; a call without `updates` passes `NoChanges`. */
    method ApproveCase(id: string, updates: CasePatch, clock: Clock)
      modifies this
      ensures cases == UpdateCase(old(cases), id, ApproveStep(updates, clock))
      ensures inquiries == old(inquiries) && users == old(users) && currentUser == old(currentUser)
    {
      cases := UpdateCase(cases, id, ApproveStep(updates, clock));
    }

    method RejectCase(id: string, reason: string, clock: Clock)
      modifies this
      ensures cases == UpdateCase(old(cases), id, RejectStep(reason, clock))
      ensures inquiries == old(inquiries) && users == old(users) && currentUser == old(currentUser)
    {
      cases := UpdateCase(cases, id, RejectStep(reason, clock));
    }

    method UpdateLegalCase(id: string, updates: CasePatch)
      modifies this
      ensures cases == UpdateCase(old(cases), id, PatchStep(updates))
      ensures inquiries == old(inquiries) && users == old(users) && currentUser == old(currentUser)
    {
      cases := UpdateCase(cases, id, PatchStep(updates));
    }

    method RecordLogin(caseId: string, success: bool, clock: Clock)
      modifies this
      ensures cases == UpdateCase(old(cases), caseId, LoginStep(success, clock))
      ensures inquiries == old(inquiries) && users == old(users) && currentUser == old(currentUser)
    {
      cases := UpdateCase(cases, caseId, LoginStep(success, clock));
    }

    method DeleteCase(id: string)
      modifies this
      ensures cases == Without(old(cases), id)
      ensures inquiries == old(inquiries) && users == old(users) && currentUser == old(currentUser)
    {
      cases := Without(cases, id);
    }

    /**
     * `addCaseDocument`: `stored` is the file store's id for the upload, or `None` when
     * saving failed, in which case nothing changes.
     */
    method AddCaseDocument(caseId: string, fileName: string, size: string, mimeType: string, uploader: string,
                           stored: Option<string>, clock: Clock)
      modifies this
      ensures stored.Some? ==> cases == UpdateCase(old(cases), caseId,
                                 UploadStep(UploadedDocument(fileName, size, mimeType, uploader, stored.value, clock), clock))
      ensures stored.None? ==> cases == old(cases)
      ensures inquiries == old(inquiries) && users == old(users) && currentUser == old(currentUser)
    {
      if stored.Some? {
        var doc := UploadedDocument(fileName, size, mimeType, uploader, stored.value, clock);
        cases := UpdateCase(cases, caseId, UploadStep(doc, clock));
      }
    }

    method AddGeneratedDocument(caseId: string, doc: CaseDocument)
      modifies this
      ensures cases == UpdateCase(old(cases), caseId, DocumentStep(doc))
      ensures inquiries == old(inquiries) && users == old(users) && currentUser == old(currentUser)
    {
      cases := UpdateCase(cases, caseId, DocumentStep(doc));
    }

    method PushNotification(caseId: string, title: string, message: string, kind: NotificationKind, clock: Clock)
      modifies this
      ensures cases == UpdateCase(old(cases), caseId, NotifyStep(title, message, kind, clock))
      ensures inquiries == old(inquiries) && users == old(users) && currentUser == old(currentUser)
    {
      cases := UpdateCase(cases, caseId, NotifyStep(title, message, kind, clock));
    }

    method MarkAllNotificationsRead(caseId: string)
      modifies this
      ensures cases == UpdateCase(old(cases), caseId, ReadStep())
      ensures inquiries == old(inquiries) && users == old(users) && currentUser == old(currentUser)
    {
      cases := UpdateCase(cases, caseId, ReadStep());
    }

    /** `addLawyer`: `draw` is the random part of the id, which is `draw + 100`. */
    method AddLawyer(data: InternalUser, draw: nat)
      requires draw < 10000
      modifies this
      ensures users == old(users) + [data.(id := draw + 100)]
      ensures 100 <= users[|users| - 1].id < 10100
      ensures inquiries == old(inquiries) && cases == old(cases) && currentUser == old(currentUser)
    {
      users := users + [data.(id := draw + 100)];
    }

    method UpdateUser(id: int, updates: UserPatch)
      modifies this
      ensures users == MapWhere(old(users), HasUserId(id), PatchUserStep(updates))
      ensures currentUser == CurrentAfterUpdate(old(currentUser), id, updates)
      ensures inquiries == old(inquiries) && cases == old(cases)
    {
      users := MapWhere(users, HasUserId(id), PatchUserStep(updates));
      currentUser := CurrentAfterUpdate(currentUser, id, updates);
    }

    method DeleteUser(id: int)
      modifies this
      ensures users == Filter(old(users), (u: InternalUser) => u.id != id)
      ensures forall u :: u in users <==> u in old(users) && u.id != id
      ensures inquiries == old(inquiries) && cases == old(cases) && currentUser == old(currentUser)
    {
      var keep := (u: InternalUser) => u.id != id;
      forall u ensures u in Filter(users, keep) <==> u in users && u.id != id {
        FilterMembers(users, keep, u);
      }
      users := Filter(users, keep);
    }

    method LoginAdmin(username: string, pass: string) returns (ok: bool)
      modifies this
      ensures ok <==> AdminLogin(old(users), username, pass).Some?
      ensures ok ==> currentUser == AdminLogin(old(users), username, pass)
      ensures !ok ==> currentUser == old(currentUser)
      ensures inquiries == old(inquiries) && cases == old(cases) && users == old(users)
    {
      var found := AdminLogin(users, username, pass);
      ok := found.Some?;
      if ok {
        currentUser := found;
      }
    }

    method LogoutAdmin()
      modifies this
      ensures currentUser == None
      ensures inquiries == old(inquiries) && cases == old(cases) && users == old(users)
    {
      currentUser := None;
    }
  }
}
