/**
 * The case-management page of the back office (`pages/admin/CaseManagement.tsx`): the
 * list of cases a user may see with its search box and status tabs, the timeline
 * editor (edit a field, add, delete, drag to a new place), reassignment to another
 * lawyer, new cases created by hand, and documents generated from templates.
 */
module CaseManagement {
  import opened Wrappers
  import opened Seqs
  import opened Text
  import opened Types
  import opened StoreContext

  // ---------------------------------------------------------------- the case list

  /** The tabs above the list: all cases, or the cases in one status. */
  datatype Tab = AllTab | StatusTab(status: CaseStatus)

  /** The search text occurs, ignoring case, in the client's name or in the case number. */
  predicate MatchesSearch(c: LegalCase, search: string) {
    Contains(Lower(c.clientName), Lower(search)) || Contains(Lower(c.id), Lower(search))
  }

  predicate MatchesTab(c: LegalCase, tab: Tab) {
    tab.AllTab? || c.status == tab.status
  }

  function Listed(search: string, tab: Tab): LegalCase -> bool {
    (c: LegalCase) => MatchesSearch(c, search) && MatchesTab(c, tab)
  }

  /**
   * `filteredCases`, applied to the cases the user may see (`myCases`, which is the
   * store's `Visible`): a case is listed exactly when it matches the search and the tab,
   * and the list keeps the order of the cases.
   */
  function FilteredCases(mine: seq<LegalCase>, search: string, tab: Tab): (r: seq<LegalCase>)
    ensures forall c :: c in r <==> c in mine && MatchesSearch(c, search) && MatchesTab(c, tab)
    ensures forall c :: multiset(r)[c] == if MatchesSearch(c, search) && MatchesTab(c, tab) then multiset(mine)[c] else 0
    ensures IsSubsequence(r, mine)
  {
    FilterIsSubsequence(mine, Listed(search, tab));
    forall c ensures c in Filter(mine, Listed(search, tab)) <==> c in mine && Listed(search, tab)(c) {
      FilterMembers(mine, Listed(search, tab), c);
    }
    forall c ensures multiset(Filter(mine, Listed(search, tab)))[c] == if Listed(search, tab)(c) then multiset(mine)[c] else 0 {
      FilterCount(mine, Listed(search, tab), c);
    }
    Filter(mine, Listed(search, tab))
  }

  /** With the search box empty and the tab on All, every visible case is listed. */
  lemma EmptySearchListsAll(mine: seq<LegalCase>)
    ensures FilteredCases(mine, "", AllTab) == mine
  {
    forall i | 0 <= i < |mine| ensures Listed("", AllTab)(mine[i]) {
      assert OccursAt(Lower(mine[i].clientName), 0, Lower(""));
    }
    FilterKeepsAll(mine, Listed("", AllTab));
  }

  /** A status tab lists a subsequence of what All lists for the same search. */
  lemma TabNarrowsAll(mine: seq<LegalCase>, search: string, status: CaseStatus)
    ensures IsSubsequence(FilteredCases(mine, search, StatusTab(status)), FilteredCases(mine, search, AllTab))
  {
    FilterMonotone(mine, Listed(search, StatusTab(status)), Listed(search, AllTab));
  }

  /** The search ignores case: typing it in lower case lists the same cases. */
  lemma SearchIgnoresCase(mine: seq<LegalCase>, search: string, tab: Tab)
    ensures FilteredCases(mine, Lower(search), tab) == FilteredCases(mine, search, tab)
  {
    LowerIdempotent(search);
    FilterExtensional(mine, Listed(Lower(search), tab), Listed(search, tab));
  }

  // ---------------------------------------------------------------- editing the timeline

  /** The keys of a timeline event that `handleTimelineChange` can be given. */
  datatype Field = IdField | TitleField | DateField | DescriptionField | StatusField

  /** The status as the source spells it. */
  function StatusText(s: EventStatus): string {
    match s
    case Completed => "completed"
    case Current => "current"
    case Pending => "pending"
  }

  /** The status a string stands for, if it is one of the three. */
  function ParseStatus(v: string): (r: Option<EventStatus>)
    ensures r.Some? ==> v == StatusText(r.value)
  {
    if v == "completed" then Some(Completed)
    else if v == "current" then Some(Current)
    else if v == "pending" then Some(EventStatus.Pending)
    else None
  }

  /** A status's spelling parses back to that status. */
  lemma StatusRoundTrip(s: EventStatus)
    ensures ParseStatus(StatusText(s)) == Some(s)
  {
  }

  /** The value of one key of an event, as the form shows it. */
  function FieldText(e: TimelineEvent, f: Field): string {
    match f
    case IdField => e.id
    case TitleField => e.title
    case DateField => e.date
    case DescriptionField => e.description
    case StatusField => StatusText(e.status)
  }

  /** Two events that show the same value under every key are the same event. */
  lemma SameFieldsSameEvent(a: TimelineEvent, b: TimelineEvent)
    requires forall f :: FieldText(a, f) == FieldText(b, f)
    ensures a == b
  {
    assert FieldText(a, IdField) == FieldText(b, IdField);
    assert FieldText(a, TitleField) == FieldText(b, TitleField);
    assert FieldText(a, DateField) == FieldText(b, DateField);
    assert FieldText(a, DescriptionField) == FieldText(b, DescriptionField);
    assert FieldText(a, StatusField) == FieldText(b, StatusField);
    StatusRoundTrip(a.status);
    StatusRoundTrip(b.status);
  }

  /**
   * `{ ...e, [field]: value }`. Only the three spellings of a status come from the
   * status selector, so a status edit is one of them.
   */
  function Edited(e: TimelineEvent, f: Field, v: string): (r: TimelineEvent)
    requires f == StatusField ==> ParseStatus(v).Some?
    ensures FieldText(r, f) == v
    ensures forall g :: g != f ==> FieldText(r, g) == FieldText(e, g)
  {
    match f
    case IdField => e.(id := v)
    case TitleField => e.(title := v)
    case DateField => e.(date := v)
    case DescriptionField => e.(description := v)
    case StatusField => e.(status := ParseStatus(v).value)
  }

  /** `handleTimelineChange(index, field, value)`: one key of one event is set, nothing else changes. */
  function ChangedAt(s: seq<TimelineEvent>, index: nat, f: Field, v: string): (r: seq<TimelineEvent>)
    requires index < |s|
    requires f == StatusField ==> ParseStatus(v).Some?
    ensures |r| == |s|
    ensures FieldText(r[index], f) == v
    ensures forall g :: g != f ==> FieldText(r[index], g) == FieldText(s[index], g)
    ensures forall k :: 0 <= k < |s| && k != index ==> r[k] == s[k]
  {
    s[index := Edited(s[index], f, v)]
  }

  /** The event `handleAddEvent` appends: empty title and description, still pending. */
  function BlankEvent(clock: Clock): TimelineEvent {
    TimelineEvent(clock.stamp, "", clock.thaiDate, "", EventStatus.Pending)
  }

  /** `handleDeleteEvent(index)`: the event at `index` goes, the others close up in order. */
  function DeletedAt<T>(s: seq<T>, index: nat): (r: seq<T>)
    ensures index < |s| ==> |r| == |s| - 1
    ensures index >= |s| ==> r == s
    ensures forall k :: 0 <= k < |r| ==> r[k] == if k < index then s[k] else s[k + 1]
  {
    if index < |s| then s[..index] + s[index + 1..] else s
  }

  /** Deleting the event just added gives back the timeline as it was. */
  lemma AddThenDelete(s: seq<TimelineEvent>, clock: Clock)
    ensures DeletedAt(s + [BlankEvent(clock)], |s|) == s
  {
  }

  // ---------------------------------------------------------------- drag and drop

  /**
   * `splice(from, 1)` followed by `splice(to, 0, item)`: the item at `from` is taken out
   * and put back so that it sits at `to`.
   */
  function Moved<T>(s: seq<T>, from: nat, to: nat): (r: seq<T>)
    requires from < |s| && to < |s|
  {
    var rest := s[..from] + s[from + 1..];
    rest[..to] + [s[from]] + rest[to..]
  }

  /** Moving keeps the length and the events, and puts the dragged event at the target. */
  lemma MovedPermutes<T>(s: seq<T>, from: nat, to: nat)
    requires from < |s| && to < |s|
    ensures |Moved(s, from, to)| == |s|
    ensures multiset(Moved(s, from, to)) == multiset(s)
    ensures Moved(s, from, to)[to] == s[from]
  {
    var rest := s[..from] + s[from + 1..];
    assert s == s[..from] + [s[from]] + s[from + 1..];
    assert multiset(s) == multiset(rest) + multiset{s[from]};
    assert rest == rest[..to] + rest[to..];
    assert multiset(Moved(s, from, to)) == multiset(rest[..to]) + multiset{s[from]} + multiset(rest[to..]);
  }

  /** The other events keep their order: taking the dragged one out again gives the rest. */
  lemma MovedKeepsOthers<T>(s: seq<T>, from: nat, to: nat)
    requires from < |s| && to < |s|
    ensures DeletedAt(Moved(s, from, to), to) == DeletedAt(s, from)
  {
    var rest := s[..from] + s[from + 1..];
    var m := Moved(s, from, to);
    assert m[..to] == rest[..to];
    assert m[to + 1..] == rest[to..];
    assert rest[..to] + rest[to..] == rest;
  }

  /** Dropping an event back where it was taken from changes nothing. */
  lemma MovedInPlace<T>(s: seq<T>, i: nat)
    requires i < |s|
    ensures Moved(s, i, i) == s
  {
    assert s == s[..i] + [s[i]] + s[i + 1..];
  }

  /** `splice(from, 1)` on an array: the items after `from` move up one place. */
  method SpliceOut<T>(a: array<T>, from: nat)
    requires from < a.Length
    modifies a
    ensures a[..a.Length - 1] == DeletedAt(old(a[..]), from)
  {
    ghost var rest := DeletedAt(a[..], from);
    var i := from;
    while i < a.Length - 1
      invariant from <= i <= a.Length - 1
      invariant forall k :: 0 <= k < i ==> a[k] == rest[k]
      invariant forall k :: i <= k < a.Length ==> a[k] == old(a[k])
    {
      a[i] := a[i + 1];
      i := i + 1;
    }
  }

  /**
   * `splice(to, 0, item)` on an array whose last place is free: the items from `to` on
   * move down one place and `item` is written at `to`.
   */
  method SpliceIn<T>(a: array<T>, to: nat, item: T)
    requires to < a.Length
    modifies a
    ensures a[..] == old(a[..a.Length - 1])[..to] + [item] + old(a[..a.Length - 1])[to..]
  {
    ghost var rest := a[..a.Length - 1];
    var j := a.Length - 1;
    while j > to
      invariant to <= j <= a.Length - 1
      invariant forall k :: 0 <= k < j ==> a[k] == rest[k]
      invariant forall k :: j < k < a.Length ==> a[k] == rest[k - 1]
    {
      a[j] := a[j - 1];
      j := j - 1;
    }
    a[to] := item;
    assert a[..to] == rest[..to];
    assert a[to + 1..] == rest[to..];
    assert a[..] == a[..to] + [a[to]] + a[to + 1..];
  }

  /** `handleDrop`'s two splices on a copy of the timeline, done on an array. */
  method MoveEvent<T>(s: seq<T>, from: nat, to: nat) returns (r: seq<T>)
    requires from < |s| && to < |s|
    ensures r == Moved(s, from, to)
  {
    var n := |s|;
    var a := new T[n](i requires 0 <= i < n => s[i]);
    assert a[..] == s;
    var item := a[from];
    SpliceOut(a, from);
    SpliceIn(a, to, item);
    r := a[..];
  }

  // ---------------------------------------------------------------- lawyers

  const NotSpecified := "ไม่ระบุ"

  function UnknownLawyer(id: int): string {
    "Unknown (ID: " + IntToString(id) + ")"
  }

  function HasLawyerId(id: int): InternalUser -> bool {
    (l: InternalUser) => l.id == id
  }

  /**
   * `getLawyerName(id)`: 'ไม่ระบุ' for no lawyer (id 0), else the name of the first
   * staff member with that id, falling back to `Unknown (ID: n)` when there is none or
   * the name is empty.
   */
  function LawyerName(lawyers: seq<InternalUser>, id: int): (r: string)
    ensures id == 0 ==> r == NotSpecified
    ensures id != 0 && (forall i :: 0 <= i < |lawyers| ==> lawyers[i].id != id) ==> r == UnknownLawyer(id)
    ensures forall i :: 0 <= i < |lawyers| && id != 0 && lawyers[i].id == id
                        && (forall j :: 0 <= j < i ==> lawyers[j].id != id) ==>
              r == if lawyers[i].name != "" then lawyers[i].name else UnknownLawyer(id)
  {
    if id == 0 then NotSpecified
    else match FindIndex(lawyers, HasLawyerId(id))
      case Some(k) =>
        assert forall i :: 0 <= i < |lawyers| && lawyers[i].id == id ==>
                             (forall j :: 0 <= j < i ==> lawyers[j].id != id) ==> i == k;
        if lawyers[k].name != "" then lawyers[k].name else UnknownLawyer(id)
      case None => UnknownLawyer(id)
  }

  // ---------------------------------------------------------------- reassignment

  const ReassignmentTitle := "เปลี่ยนผู้รับผิดชอบ (Reassignment)"

  /**
   * The log event of a reassignment: completed, dated now, and described as a change from
   * the old lawyer to the new one, followed by the note, or `-` when there is none.
   */
  function ReassignmentEvent(oldName: string, newName: string, note: string, clock: Clock): (e: TimelineEvent)
    ensures e.id == clock.stamp && e.date == clock.thaiDate && e.status == Completed
    ensures e.title == ReassignmentTitle
    ensures "เปลี่ยนจาก: " + oldName <= e.description && Contains(e.description, newName)
    ensures var shown := if note == "" then "-" else note;
      |shown| <= |e.description| && e.description[|e.description| - |shown|..] == shown
  {
    var head, shown := "เปลี่ยนจาก: " + oldName + " เป็น: ", if note == "" then "-" else note;
    var tail := ".\nหมายเหตุ: " + shown;
    var d := head + (newName + tail);
    ContainsPrefix(newName, tail);
    ContainsSuffix(head, newName + tail, newName);
    assert d[..|"เปลี่ยนจาก: " + oldName|] == "เปลี่ยนจาก: " + oldName;
    assert d[|d| - |shown|..] == shown;
    TimelineEvent(clock.stamp, ReassignmentTitle, clock.thaiDate, d, Completed)
  }

  /** The timeline after a reassignment: the log event, then the timeline the page holds for the case. */
  function ReassignedTimeline(sel: LegalCase, newId: int, note: string, lawyers: seq<InternalUser>, clock: Clock)
    : (t: seq<TimelineEvent>)
    ensures |t| == |sel.timeline| + 1 && t[1..] == sel.timeline
    ensures t[0] == ReassignmentEvent(LawyerName(lawyers, sel.lawyerId), LawyerName(lawyers, newId), note, clock)
  {
    [ReassignmentEvent(LawyerName(lawyers, sel.lawyerId), LawyerName(lawyers, newId), note, clock)] + sel.timeline
  }

  /** `{ lawyerId, timeline }`. */
  function ReassignPatch(newId: int, t: seq<TimelineEvent>): CasePatch {
    NoChanges.(lawyerId := Some(newId), timeline := Some(t))
  }

  /** The update written to the store changes the lawyer and the timeline and nothing else. */
  lemma ReassignChangesTwoFields(c: LegalCase, newId: int, t: seq<TimelineEvent>)
    ensures Patched(c, ReassignPatch(newId, t)) == c.(lawyerId := newId, timeline := t)
  {
  }

  const ReassignedTitle := "เปลี่ยนแปลงทนายความ"

  function ReassignedMessage(newName: string): string {
    "คดีของคุณได้รับการดูแลโดย " + newName
  }

  // ---------------------------------------------------------------- new cases

  /** The fields of the "new case" form. */
  datatype NewCaseForm = NewCaseForm(
    clientName: string,
    caseType: CaseType,
    subtype: string,
    password: string,
    status: CaseStatus,
    lawyerId: int)

  /** `currentUser?.id || 1`: the signed-in user, or lawyer 1 when there is none (or the id is 0). */
  function DefaultLawyer(user: Option<InternalUser>): (id: int)
    ensures id != 0
    ensures user.Some? && user.value.id != 0 ==> id == user.value.id
    ensures !(user.Some? && user.value.id != 0) ==> id == 1
  {
    if user.Some? && user.value.id != 0 then user.value.id else 1
  }

  function BlankForm(user: Option<InternalUser>): NewCaseForm {
    NewCaseForm("", CaseType.Civil, "", "", Open, DefaultLawyer(user))
  }

  /**
   * `C-<year>-<nnn>`, `draw` being the random part: the year, then the draw's digits
   * after as many zeros as make three characters.
   */
  function CreatedCaseId(year: int, draw: nat): (r: string)
    requires draw < 1000
    ensures var head := "C-" + IntToString(year) + "-";
      |r| == |head| + 3 && r[..|head|] == head
    ensures |NatToString(draw)| <= 3 && r[|r| - |NatToString(draw)|..] == NatToString(draw)
    ensures forall i :: |r| - 3 <= i < |r| - |NatToString(draw)| ==> r[i] == '0'
  {
    var head, tail := "C-" + IntToString(year) + "-", PadStart(NatToString(draw), 3);
    ShortNumber(draw);
    PaddedAfter(head, NatToString(draw), 3);
    head + tail
  }

  /** Two cases created in the same year with different draws get different numbers. */
  lemma CreatedIdsDiffer(year: int, a: nat, b: nat)
    requires a < 1000 && b < 1000 && a != b
    ensures CreatedCaseId(year, a) != CreatedCaseId(year, b)
  {
    var head := "C-" + IntToString(year) + "-";
    if CreatedCaseId(year, a) == CreatedCaseId(year, b) {
      assert CreatedCaseId(year, a)[|head|..] == PadStart(NatToString(a), 3);
      assert CreatedCaseId(year, b)[|head|..] == PadStart(NatToString(b), 3);
      PaddedNumbersDiffer(a, b, 3);
    }
  }

  /**
   * The case `handleCreateCase` adds: the form's fields, empty timeline, documents,
   * notifications and login history, every amount zero and no payment; the fields the
   * form does not have are absent.
   */
  function CreatedCase(form: NewCaseForm, caseId: string): (r: LegalCase)
    ensures r.id == caseId && r.clientName == form.clientName && r.caseType == form.caseType
    ensures r.subtype == form.subtype && r.password == form.password
    ensures r.status == form.status && r.lawyerId == form.lawyerId
    ensures r.timeline == [] && r.documents == [] && r.notifications == [] && r.loginHistory == []
    ensures r.financials == CaseFinancials(0, 0, 0, [])
    ensures Balanced(r.financials) && UnreadCount(r.notifications) == 0
    ensures VerifiedTotal(r.financials.payments) == r.financials.amountPaid
    ensures r.rejectionReason.None? && r.nextAppointment.None? && r.packageId.None?
    ensures r.paymentProof.None? && r.paymentType.None?
  {
    LegalCase(caseId, form.clientName, form.caseType, form.subtype, form.password, form.lawyerId, form.status,
              None, [], [], [], [], None, CaseFinancials(0, 0, 0, []), None, None, None)
  }

  // ---------------------------------------------------------------- document templates

  /** The three placeholders a template may hold. */
  datatype Hole = ClientNameHole | DateHole | LawyerNameHole

  function Placeholder(h: Hole): (r: string)
    ensures |r| > 1 && r[0] == '[' && '[' !in r[1..]
  {
    match h
    case ClientNameHole => "[CLIENT_NAME]"
    case DateHole => "[DATE]"
    case LawyerNameHole => "[LAWYER_NAME]"
  }

  lemma PlaceholdersDiffer(h: Hole, k: Hole)
    requires h != k
    ensures Placeholder(h)[1] != Placeholder(k)[1]
  {
  }

  /** A template's text, cut at its placeholders. */
  datatype Piece = Lit(text: string) | Slot(hole: Hole)

  datatype DocTemplate = DocTemplate(id: string, name: string, body: seq<Piece>)

  // The texts are written in short pieces.
  const AppointmentText1 := "หนังสือแต่งทนายความ\n\n"
    + "ทำที่ สำนักงานชนะชัยทนาย"
    + "ความ\nวันที่ "
  const AppointmentText2 := "\n\nข้าพเจ้า "
  const AppointmentText3 := " ผู้แต่งทนายความ\n"
    + "ขอแต่งตั้งให้ "
  const AppointmentText4 := " เป็นทนายความของข้าพเจ้า"
    + "\n\nลงชื่อ................"
    + "........................"
    + "..............ผู้แต่งทนา"
    + "ย"
  const Appointment := DocTemplate("attorney_appt", "ใบแต่งทนายความ (Attorney Appointment)",
    [Lit(AppointmentText1), Slot(DateHole), Lit(AppointmentText2), Slot(ClientNameHole), Lit(AppointmentText3), Slot(LawyerNameHole), Lit(AppointmentText4)])

  const PowerOfAttorneyText1 := "หนังสือมอบอำนาจ\n\n"
    + "ข้าพเจ้า "
  const PowerOfAttorneyText2 := " ขอมอบอำนาจให้ "
  const PowerOfAttorneyText3 := " ดำเนินการแทนข้าพเจ้าในเ"
    + "รื่อง..."
  const PowerOfAttorney := DocTemplate("power_of_attorney", "หนังสือมอบอำนาจ (Power of Attorney)",
    [Lit(PowerOfAttorneyText1), Slot(ClientNameHole), Lit(PowerOfAttorneyText2), Slot(LawyerNameHole), Lit(PowerOfAttorneyText3)])

  const EngagementText1 := "สัญญาจ้างว่าความ\n\n"
    + "คู่สัญญา: "
  const EngagementText2 := " และ "
  const EngagementText3 := "\nข้อตกลงในการให้บริการทา"
    + "งกฎหมาย..."
  const Engagement := DocTemplate("engagement_letter", "สัญญาจ้างว่าความ (Engagement Letter)",
    [Lit(EngagementText1), Slot(ClientNameHole), Lit(EngagementText2), Slot(LawyerNameHole), Lit(EngagementText3)])

  const FilingCoverText1 := "คำฟ้อง\n\nศาล............."
    + "........................"
    + "\nคดีหมายเลขดำที่........"
    + "..............\n\n"
  const FilingCoverText2 := " ......................."
    + "................ โจทก์"
  const FilingCover := DocTemplate("court_filing_cover", "หน้าปกคำฟ้อง (Court Filing Cover Letter)",
    [Lit(FilingCoverText1), Slot(ClientNameHole), Lit(FilingCoverText2)])

  const SummonsText1 := "หมายเรียก\n\n"
    + "ขอให้ท่านมาศาลเพื่อการไก"
    + "ล่เกลี่ย ให้การ "
    + "และสืบพยาน ในวันที่..."
  const Summons := DocTemplate("summons_draft", "หมายเรียก (Summons Draft)",
    [Lit(SummonsText1)])

  const BailApplicationText1 := "คำร้องขอปล่อยชั่วคราว\n\n"
    + "ข้าพเจ้ามีความประสงค์ขอป"
    + "ระกันตัวผู้ต้องหา..."
  const BailApplication := DocTemplate("bail_application", "คำร้องขอปล่อยชั่วคราว (Bail Application Form)",
    [Lit(BailApplicationText1)])

  /** `DOC_TEMPLATES`, in their order. */
  const Templates: seq<DocTemplate> := [Appointment, PowerOfAttorney, Engagement, FilingCover, Summons, BailApplication]

  /** The text pieces hold no `[`: every `[` of a template opens a placeholder. */
  predicate Plain(ps: seq<Piece>) {
    forall i :: 0 <= i < |ps| && ps[i].Lit? ==> '[' !in ps[i].text
  }

  lemma TemplatesPlain()
    ensures forall t :: t in Templates ==> Plain(t.body)
  {
    AppointmentPlain();
    PowerOfAttorneyPlain();
    EngagementPlain();
    FilingCoverPlain();
    SummonsPlain();
    BailApplicationPlain();
  }

  lemma AppointmentPlain()
    ensures Plain(Appointment.body)
  {
    AppointmentText1Plain();
    AppointmentText2Plain();
    AppointmentText3Plain();
    AppointmentText4Plain();
  }

  lemma AppointmentText1Plain()
    ensures '[' !in AppointmentText1
  {
  }

  lemma AppointmentText2Plain()
    ensures '[' !in AppointmentText2
  {
  }

  lemma AppointmentText3Plain()
    ensures '[' !in AppointmentText3
  {
  }

  lemma AppointmentText4Plain()
    ensures '[' !in AppointmentText4
  {
  }

  lemma PowerOfAttorneyPlain()
    ensures Plain(PowerOfAttorney.body)
  {
    PowerOfAttorneyText1Plain();
    PowerOfAttorneyText2Plain();
    PowerOfAttorneyText3Plain();
  }

  lemma PowerOfAttorneyText1Plain()
    ensures '[' !in PowerOfAttorneyText1
  {
  }

  lemma PowerOfAttorneyText2Plain()
    ensures '[' !in PowerOfAttorneyText2
  {
  }

  lemma PowerOfAttorneyText3Plain()
    ensures '[' !in PowerOfAttorneyText3
  {
  }

  lemma EngagementPlain()
    ensures Plain(Engagement.body)
  {
    EngagementText1Plain();
    EngagementText2Plain();
    EngagementText3Plain();
  }

  lemma EngagementText1Plain()
    ensures '[' !in EngagementText1
  {
  }

  lemma EngagementText2Plain()
    ensures '[' !in EngagementText2
  {
  }

  lemma EngagementText3Plain()
    ensures '[' !in EngagementText3
  {
  }

  lemma FilingCoverPlain()
    ensures Plain(FilingCover.body)
  {
    FilingCoverText1Plain();
    FilingCoverText2Plain();
  }

  lemma FilingCoverText1Plain()
    ensures '[' !in FilingCoverText1
  {
  }

  lemma FilingCoverText2Plain()
    ensures '[' !in FilingCoverText2
  {
  }

  lemma SummonsPlain()
    ensures Plain(Summons.body)
  {
    SummonsText1Plain();
  }

  lemma SummonsText1Plain()
    ensures '[' !in SummonsText1
  {
  }

  lemma BailApplicationPlain()
    ensures Plain(BailApplication.body)
  {
    BailApplicationText1Plain();
  }

  lemma BailApplicationText1Plain()
    ensures '[' !in BailApplicationText1
  {
  }

  function PieceText(p: Piece, v: Hole -> string): string {
    match p
    case Lit(s) => s
    case Slot(h) => v(h)
  }

  /** The pieces written out, each placeholder `h` as `v(h)`. */
  function Render(ps: seq<Piece>, v: Hole -> string): string
    decreases |ps|
  {
    if ps == [] then "" else PieceText(ps[0], v) + Render(ps[1..], v)
  }

  /** The template's content as the source writes it, with its placeholders. */
  function Content(t: DocTemplate): string {
    Render(t.body, Placeholder)
  }

  function Values(client: string, date: string, lawyer: string): Hole -> string {
    (h: Hole) => match h
      case ClientNameHole => client
      case DateHole => date
      case LawyerNameHole => lawyer
  }

  /** Each placeholder still stands for itself or has been given a text without `[`. */
  predicate Staged(v: Hole -> string) {
    forall h :: v(h) == Placeholder(h) || '[' !in v(h)
  }

  function Assign(v: Hole -> string, h: Hole, x: string): Hole -> string {
    (k: Hole) => if k == h then x else v(k)
  }

  lemma {:induction false} RenderExtensional(ps: seq<Piece>, v: Hole -> string, w: Hole -> string)
    requires forall h :: v(h) == w(h)
    ensures Render(ps, v) == Render(ps, w)
    decreases |ps|
  {
    if ps != [] {
      RenderExtensional(ps[1..], v, w);
    }
  }

  /** A placeholder other than the one being replaced is passed over. */
  lemma OtherPlaceholderSkipped(k: Hole, h: Hole, b: string, x: string)
    requires k != h
    ensures ReplaceAll(Placeholder(k) + b, Placeholder(h), x) == Placeholder(k) + ReplaceAll(b, Placeholder(h), x)
  {
    var a, p := Placeholder(k), Placeholder(h);
    forall j: nat | j < |a| ensures !OccursAt(a + b, j, p) {
      if j + |p| <= |a + b| {
        assert (a + b)[j..j + |p|][0] == (a + b)[j];
        if j == 0 {
          PlaceholdersDiffer(k, h);
          assert (a + b)[j..j + |p|][1] == a[1];
        } else {
          assert a[j] == a[1..][j - 1];
          assert (a + b)[j] == a[j];
        }
      }
    }
    ReplaceAllSkip(a, b, p, x);
  }

  /**
   * Replacing every occurrence of a placeholder that is still in place fills exactly
   * that placeholder's slots, provided the texts around them hold no `[`.
   */
  lemma {:induction false} RenderReplace(ps: seq<Piece>, v: Hole -> string, h: Hole, x: string)
    requires Plain(ps) && Staged(v) && v(h) == Placeholder(h) && '[' !in x
    ensures ReplaceAll(Render(ps, v), Placeholder(h), x) == Render(ps, Assign(v, h, x))
    decreases |ps|
  {
    if ps != [] {
      assert Plain(ps[1..]) by {
        forall i | 0 <= i < |ps[1..]| && ps[1..][i].Lit? ensures '[' !in ps[1..][i].text {
          assert ps[1..][i] == ps[i + 1];
        }
      }
      RenderReplace(ps[1..], v, h, x);
      var rest := Render(ps[1..], v);
      var p := Placeholder(h);
      match ps[0]
      case Lit(s) =>
        assert ps[0].Lit?;
        ReplaceAllSkipText(s, rest, p, x);
      case Slot(k) =>
        if k == h {
          ReplaceAllMatch(rest, p, x);
        } else if v(k) == Placeholder(k) {
          OtherPlaceholderSkipped(k, h, rest, x);
        } else {
          ReplaceAllSkipText(v(k), rest, p, x);
        }
    }
  }

  /** With no `[` in the texts or the values, the result holds no `[` at all. */
  lemma {:induction false} RenderWithoutBracket(ps: seq<Piece>, v: Hole -> string)
    requires Plain(ps) && forall h :: '[' !in v(h)
    ensures '[' !in Render(ps, v)
    decreases |ps|
  {
    if ps != [] {
      assert Plain(ps[1..]) by {
        forall i | 0 <= i < |ps[1..]| && ps[1..][i].Lit? ensures '[' !in ps[1..][i].text {
          assert ps[1..][i] == ps[i + 1];
        }
      }
      RenderWithoutBracket(ps[1..], v);
      assert ps[0].Lit? ==> '[' !in ps[0].text;
    }
  }

  /** A slot whose placeholder is still in place leaves that placeholder in the result. */
  lemma {:induction false} RenderKeepsPlaceholder(ps: seq<Piece>, v: Hole -> string, h: Hole)
    requires Slot(h) in ps && v(h) == Placeholder(h)
    ensures Contains(Render(ps, v), Placeholder(h))
    decreases |ps|
  {
    if ps[0] == Slot(h) {
      ContainsPrefix(Placeholder(h), Render(ps[1..], v));
    } else {
      assert Slot(h) in ps[1..];
      RenderKeepsPlaceholder(ps[1..], v, h);
      ContainsSuffix(PieceText(ps[0], v), Render(ps[1..], v), Placeholder(h));
    }
  }

  lemma NoBracketNoPlaceholder(s: string, h: Hole)
    requires '[' !in s
    ensures !Contains(s, Placeholder(h))
  {
    var p := Placeholder(h);
    forall i: nat | i <= |s| ensures !OccursAt(s, i, p) {
      if i + |p| <= |s| {
        assert s[i..i + |p|][0] == s[i];
      }
    }
  }

  /**
   * The content each placeholder filled with its value: the client's name, the date
   * and the lawyer's name. When neither the template's text nor the values hold a `[`,
   * no placeholder is left.
   */
  function FilledContent(t: DocTemplate, client: string, date: string, lawyer: string): (r: string)
    ensures Plain(t.body) && '[' !in client && '[' !in date && '[' !in lawyer ==>
      !Contains(r, Placeholder(ClientNameHole)) && !Contains(r, Placeholder(DateHole)) && !Contains(r, Placeholder(LawyerNameHole))
  {
    FilledHasNoPlaceholder(t, client, date, lawyer);
    Render(t.body, Values(client, date, lawyer))
  }

  lemma FilledHasNoPlaceholder(t: DocTemplate, client: string, date: string, lawyer: string)
    ensures var r := Render(t.body, Values(client, date, lawyer));
      Plain(t.body) && '[' !in client && '[' !in date && '[' !in lawyer ==>
      !Contains(r, Placeholder(ClientNameHole)) && !Contains(r, Placeholder(DateHole)) && !Contains(r, Placeholder(LawyerNameHole))
  {
    if Plain(t.body) && '[' !in client && '[' !in date && '[' !in lawyer {
      var r := Render(t.body, Values(client, date, lawyer));
      RenderWithoutBracket(t.body, Values(client, date, lawyer));
      NoBracketNoPlaceholder(r, ClientNameHole);
      NoBracketNoPlaceholder(r, DateHole);
      NoBracketNoPlaceholder(r, LawyerNameHole);
    }
  }

  /**
   * The three `content.replace(/\[...\]/g, value)` calls of `handleGenerateDoc`, in
   * their order. The value is a replacement pattern, so a `$&` in it stands for the
   * placeholder itself.
   */
  function GeneratedContentAsWritten(t: DocTemplate, client: string, date: string, lawyer: string): string {
    var c1 := ReplaceAllJs(Content(t), Placeholder(ClientNameHole), client);
    var c2 := ReplaceAllJs(c1, Placeholder(DateHole), date);
    ReplaceAllJs(c2, Placeholder(LawyerNameHole), lawyer)
  }

  /** While the values hold neither `$` nor `[`, the replace calls fill the template as intended. */
  lemma AsWrittenFillsPlainValues(t: DocTemplate, client: string, date: string, lawyer: string)
    requires Plain(t.body)
    requires '$' !in client && '$' !in date && '$' !in lawyer
    requires '[' !in client && '[' !in date && '[' !in lawyer
    ensures GeneratedContentAsWritten(t, client, date, lawyer) == FilledContent(t, client, date, lawyer)
  {
    var v0: Hole -> string := Placeholder;
    var v1 := Assign(v0, ClientNameHole, client);
    var v2 := Assign(v1, DateHole, date);
    var v3 := Assign(v2, LawyerNameHole, lawyer);
    ReplaceAllJsPlain(Render(t.body, v0), Placeholder(ClientNameHole), client);
    RenderReplace(t.body, v0, ClientNameHole, client);
    ReplaceAllJsPlain(Render(t.body, v1), Placeholder(DateHole), date);
    RenderReplace(t.body, v1, DateHole, date);
    ReplaceAllJsPlain(Render(t.body, v2), Placeholder(LawyerNameHole), lawyer);
    RenderReplace(t.body, v2, LawyerNameHole, lawyer);
    RenderExtensional(t.body, v3, Values(client, date, lawyer));
  }

  /**
   * A client named `$&` gets every template that asks for the client's name back with
   * `[CLIENT_NAME]` still in it: the replacement pattern puts the matched placeholder back.
   */
  lemma DollarNameKeepsPlaceholder(t: DocTemplate, date: string, lawyer: string)
    requires Plain(t.body) && Slot(ClientNameHole) in t.body
    requires '$' !in date && '$' !in lawyer && '[' !in date && '[' !in lawyer
    ensures Contains(GeneratedContentAsWritten(t, "$&", date, lawyer), Placeholder(ClientNameHole))
  {
    var v0: Hole -> string := Placeholder;
    var v2 := Assign(v0, DateHole, date);
    var v3 := Assign(v2, LawyerNameHole, lawyer);
    ReplaceAllJsMatchedText(Content(t), Placeholder(ClientNameHole));
    ReplaceAllJsPlain(Render(t.body, v0), Placeholder(DateHole), date);
    RenderReplace(t.body, v0, DateHole, date);
    ReplaceAllJsPlain(Render(t.body, v2), Placeholder(LawyerNameHole), lawyer);
    RenderReplace(t.body, v2, LawyerNameHole, lawyer);
    RenderKeepsPlaceholder(t.body, v3, ClientNameHole);
  }

  /**
   * A document generated from one of the templates leaves no placeholder behind as long
   * as the client's name, the date and the lawyer's name hold neither `$` nor `[`.
   */
  lemma GeneratedHasNoPlaceholder(t: DocTemplate, client: string, date: string, lawyer: string)
    requires t in Templates
    requires '$' !in client && '$' !in date && '$' !in lawyer
    requires '[' !in client && '[' !in date && '[' !in lawyer
    ensures var r := GeneratedContentAsWritten(t, client, date, lawyer);
      !Contains(r, Placeholder(ClientNameHole)) && !Contains(r, Placeholder(DateHole)) && !Contains(r, Placeholder(LawyerNameHole))
  {
    TemplatesPlain();
    AsWrittenFillsPlainValues(t, client, date, lawyer);
    FilledHasNoPlaceholder(t, client, date, lawyer);
  }

  /** The attorney-appointment form generated for a client named `$&` keeps `[CLIENT_NAME]`. */
  lemma AppointmentForDollarName(date: string, lawyer: string)
    requires '$' !in date && '$' !in lawyer && '[' !in date && '[' !in lawyer
    ensures Contains(GeneratedContentAsWritten(Appointment, "$&", date, lawyer), "[CLIENT_NAME]")
  {
    AppointmentPlain();
    assert Appointment.body[3] == Slot(ClientNameHole);
    DollarNameKeepsPlaceholder(Appointment, date, lawyer);
  }

  function HasTemplateId(id: string): DocTemplate -> bool {
    (t: DocTemplate) => t.id == id
  }

  /**
   * The generated document's name: the template's name up to its first " (", then
   * `_<case number>.txt`.
   */
  function DocName(t: DocTemplate, caseId: string): (r: string)
    ensures exists stem :: r == stem + "_" + caseId + ".txt" && stem <= t.name && !Contains(stem, " (")
                           && (Contains(t.name, " (") ==> OccursAt(t.name, |stem|, " ("))
                           && (!Contains(t.name, " (") ==> stem == t.name)
  {
    var stem := SplitFirst(t.name, " (");
    assert stem <= t.name;
    stem + "_" + caseId + ".txt"
  }

  /** The document record of a generated file; `url` is the data URL of its content. */
  function GeneratedDocument(t: DocTemplate, caseId: string, url: string, clock: Clock): (d: CaseDocument)
    ensures d.name == DocName(t, caseId) && d.url == Some(url)
    ensures d.id == clock.stamp && d.date == clock.thaiDate && d.size == "1 KB"
    ensures d.mimeType == Some("text/plain") && d.uploadedBy == Some("System (AI)")
  {
    CaseDocument(clock.stamp, DocName(t, caseId), clock.thaiDate, "1 KB", Some(url), Some("text/plain"), Some("System (AI)"))
  }

  // ---------------------------------------------------------------- the page

  const TimelineUpdatedTitle := "อัพเดทไทม์ไลน์"
  const TimelineUpdatedMessage := "มีความคืบหน้าใหม่ในไทม์ไลน์คดีของคุณ"

  /** A case status as the source spells it. */
  function CaseStatusText(s: CaseStatus): string {
    match s
    case Open => "Open"
    case Closed => "Closed"
    case PendingCourt => "Pending Court"
    case PaymentVerification => "Payment Verification"
    case Rejected => "Rejected"
  }

  /** Different statuses are spelled differently, so the client's message names the status set. */
  lemma CaseStatusTextInjective(a: CaseStatus, b: CaseStatus)
    requires CaseStatusText(a) == CaseStatusText(b)
    ensures a == b
  {
  }

  const StatusChangedTitle := "อัพเดทสถานะ"

  function StatusChangedMessage(s: CaseStatus): string {
    "สถานะคดีของคุณถูกเปลี่ยนเป็น: " + CaseStatusText(s)
  }

  /** The page's state over the store: the open case, the timeline being edited, and the forms. */
  class Page {
    const store: Store
    var selectedCase: Option<LegalCase>
    var editingTimeline: seq<TimelineEvent>
    var draggedItemIndex: Option<nat>
    var pendingLawyerId: Option<int>
    var lawyerChangeNote: string
    var newCase: NewCaseForm

    constructor(s: Store)
      ensures store == s && selectedCase == None && editingTimeline == [] && draggedItemIndex == None
      ensures pendingLawyerId == None && lawyerChangeNote == "" && newCase == BlankForm(s.currentUser)
    {
      store := s;
      selectedCase := None;
      editingTimeline := [];
      draggedItemIndex := None;
      pendingLawyerId := None;
      lawyerChangeNote := "";
      newCase := BlankForm(s.currentUser);
    }

    /** Opening a case; the effect on its id loads its timeline into the editor when the case changes. */
    method SelectCase(c: LegalCase)
      modifies this
      ensures selectedCase == Some(c)
      ensures old(selectedCase).None? || old(selectedCase).value.id != c.id ==> editingTimeline == c.timeline
      ensures old(selectedCase).Some? && old(selectedCase).value.id == c.id ==> editingTimeline == old(editingTimeline)
      ensures draggedItemIndex == old(draggedItemIndex) && pendingLawyerId == old(pendingLawyerId)
      ensures lawyerChangeNote == old(lawyerChangeNote) && newCase == old(newCase)
    {
      if selectedCase.None? || selectedCase.value.id != c.id {
        editingTimeline := c.timeline;
      }
      selectedCase := Some(c);
    }

    method TimelineChange(index: nat, f: Field, v: string)
      requires index < |editingTimeline|
      requires f == StatusField ==> ParseStatus(v).Some?
      modifies this
      ensures editingTimeline == ChangedAt(old(editingTimeline), index, f, v)
      ensures selectedCase == old(selectedCase) && draggedItemIndex == old(draggedItemIndex)
      ensures pendingLawyerId == old(pendingLawyerId) && lawyerChangeNote == old(lawyerChangeNote) && newCase == old(newCase)
    {
      editingTimeline := ChangedAt(editingTimeline, index, f, v);
    }

    method AddEvent(clock: Clock)
      modifies this
      ensures editingTimeline == old(editingTimeline) + [BlankEvent(clock)]
      ensures selectedCase == old(selectedCase) && draggedItemIndex == old(draggedItemIndex)
      ensures pendingLawyerId == old(pendingLawyerId) && lawyerChangeNote == old(lawyerChangeNote) && newCase == old(newCase)
    {
      editingTimeline := editingTimeline + [BlankEvent(clock)];
    }

    method DeleteEvent(index: nat)
      modifies this
      ensures editingTimeline == DeletedAt(old(editingTimeline), index)
      ensures selectedCase == old(selectedCase) && draggedItemIndex == old(draggedItemIndex)
      ensures pendingLawyerId == old(pendingLawyerId) && lawyerChangeNote == old(lawyerChangeNote) && newCase == old(newCase)
    {
      editingTimeline := DeletedAt(editingTimeline, index);
    }

    method DragStart(index: nat)
      requires index < |editingTimeline|
      modifies this
      ensures draggedItemIndex == Some(index)
      ensures selectedCase == old(selectedCase) && editingTimeline == old(editingTimeline)
      ensures pendingLawyerId == old(pendingLawyerId) && lawyerChangeNote == old(lawyerChangeNote) && newCase == old(newCase)
    {
      draggedItemIndex := Some(index);
    }

    /**
     * `handleDrop(index)`: nothing happens when nothing is being dragged or the item is
     * dropped on itself; otherwise the dragged event moves to `index` and the drag ends.
     */
    method Drop(index: nat)
      requires index < |editingTimeline|
      requires draggedItemIndex.Some? ==> draggedItemIndex.value < |editingTimeline|
      modifies this
      ensures old(draggedItemIndex).None? || old(draggedItemIndex) == Some(index) ==>
                editingTimeline == old(editingTimeline) && draggedItemIndex == old(draggedItemIndex)
      ensures old(draggedItemIndex).Some? && old(draggedItemIndex) != Some(index) ==>
                editingTimeline == Moved(old(editingTimeline), old(draggedItemIndex).value, index) && draggedItemIndex == None
      ensures selectedCase == old(selectedCase)
      ensures pendingLawyerId == old(pendingLawyerId) && lawyerChangeNote == old(lawyerChangeNote) && newCase == old(newCase)
    {
      if draggedItemIndex.None? || draggedItemIndex == Some(index) {
        return;
      }
      editingTimeline := MoveEvent(editingTimeline, draggedItemIndex.value, index);
      draggedItemIndex := None;
    }

    /** `handleSaveTimeline`: the edited timeline is written to the case and the client is told. */
    method SaveTimeline(clock: Clock)
      modifies this, store
      ensures old(selectedCase).None? ==> store.cases == old(store.cases)
      ensures old(selectedCase).Some? ==>
        var id := old(selectedCase).value.id;
        store.cases == UpdateCase(UpdateCase(old(store.cases), id, PatchStep(NoChanges.(timeline := Some(old(editingTimeline))))),
                                  id, NotifyStep(TimelineUpdatedTitle, TimelineUpdatedMessage, StatusNotice, clock))
      ensures store.inquiries == old(store.inquiries) && store.users == old(store.users) && store.currentUser == old(store.currentUser)
      ensures selectedCase == old(selectedCase) && editingTimeline == old(editingTimeline) && draggedItemIndex == old(draggedItemIndex)
      ensures pendingLawyerId == old(pendingLawyerId) && lawyerChangeNote == old(lawyerChangeNote) && newCase == old(newCase)
    {
      if selectedCase.Some? {
        var id := selectedCase.value.id;
        store.UpdateLegalCase(id, NoChanges.(timeline := Some(editingTimeline)));
        store.PushNotification(id, TimelineUpdatedTitle, TimelineUpdatedMessage, StatusNotice, clock);
      }
    }

    /**
     * The status `<select>` of a case in the list, once the change is confirmed: the
     * store case gets the status and the client a status notice naming it. The open
     * case on the page is not touched.
     */
    method ChangeStatus(caseId: string, status: CaseStatus, clock: Clock)
      modifies store
      ensures store.cases == UpdateCase(UpdateCase(old(store.cases), caseId, PatchStep(NoChanges.(status := Some(status)))),
                                        caseId, NotifyStep(StatusChangedTitle, StatusChangedMessage(status), StatusNotice, clock))
      ensures store.inquiries == old(store.inquiries) && store.users == old(store.users) && store.currentUser == old(store.currentUser)
    {
      store.UpdateLegalCase(caseId, NoChanges.(status := Some(status)));
      store.PushNotification(caseId, StatusChangedTitle, StatusChangedMessage(status), StatusNotice, clock);
    }

    /** Closing the case window: no case is open and no drag is in progress. */
    method CloseCase()
      modifies this
      ensures selectedCase == None && draggedItemIndex == None
      ensures editingTimeline == old(editingTimeline) && pendingLawyerId == old(pendingLawyerId)
      ensures lawyerChangeNote == old(lawyerChangeNote) && newCase == old(newCase)
    {
      selectedCase := None;
      draggedItemIndex := None;
    }

    /** `initiateLawyerChange(newId)`: only the Chief may start a reassignment. */
    method InitiateLawyerChange(newId: int)
      modifies this
      ensures old(store.currentUser).Some? && old(store.currentUser).value.role == Chief ==>
                pendingLawyerId == Some(newId) && lawyerChangeNote == ""
      ensures !(old(store.currentUser).Some? && old(store.currentUser).value.role == Chief) ==>
                pendingLawyerId == old(pendingLawyerId) && lawyerChangeNote == old(lawyerChangeNote)
      ensures selectedCase == old(selectedCase) && editingTimeline == old(editingTimeline)
      ensures draggedItemIndex == old(draggedItemIndex) && newCase == old(newCase)
    {
      if store.currentUser.Some? && store.currentUser.value.role == Chief {
        pendingLawyerId := Some(newId);
        lawyerChangeNote := "";
      }
    }

    method SetLawyerChangeNote(note: string)
      modifies this
      ensures lawyerChangeNote == note
      ensures selectedCase == old(selectedCase) && editingTimeline == old(editingTimeline)
      ensures draggedItemIndex == old(draggedItemIndex) && pendingLawyerId == old(pendingLawyerId) && newCase == old(newCase)
    {
      lawyerChangeNote := note;
    }

    /**
     * `handleConfirmLawyerChange`: without an open case or a chosen lawyer nothing
     * happens; otherwise the case gets the new lawyer and a timeline that starts with
     * the log of the change, the client is alerted, and the page shows the updated case.
     */
    method ConfirmLawyerChange(clock: Clock)
      modifies this, store
      ensures old(selectedCase).None? || old(pendingLawyerId).None? ==>
        store.cases == old(store.cases) && selectedCase == old(selectedCase)
        && editingTimeline == old(editingTimeline) && pendingLawyerId == old(pendingLawyerId)
      ensures old(selectedCase).Some? && old(pendingLawyerId).Some? ==>
        var sel, n, lawyers := old(selectedCase).value, old(pendingLawyerId).value, old(store.AvailableLawyers());
        var t := ReassignedTimeline(sel, n, old(lawyerChangeNote), lawyers, clock);
        && store.cases == UpdateCase(UpdateCase(old(store.cases), sel.id, PatchStep(ReassignPatch(n, t))), sel.id,
                                     NotifyStep(ReassignedTitle, ReassignedMessage(LawyerName(lawyers, n)), AlertNotice, clock))
        && selectedCase == Some(sel.(lawyerId := n, timeline := t))
        && editingTimeline == t && pendingLawyerId == None
      ensures store.inquiries == old(store.inquiries) && store.users == old(store.users) && store.currentUser == old(store.currentUser)
      ensures draggedItemIndex == old(draggedItemIndex) && lawyerChangeNote == old(lawyerChangeNote) && newCase == old(newCase)
    {
      if selectedCase.None? || pendingLawyerId.None? {
        return;
      }
      var sel, n := selectedCase.value, pendingLawyerId.value;
      var lawyers := store.AvailableLawyers();
      var t := ReassignedTimeline(sel, n, lawyerChangeNote, lawyers, clock);
      store.UpdateLegalCase(sel.id, ReassignPatch(n, t));
      selectedCase := Some(sel.(lawyerId := n, timeline := t));
      editingTimeline := t;
      store.PushNotification(sel.id, ReassignedTitle, ReassignedMessage(LawyerName(lawyers, n)), AlertNotice, clock);
      pendingLawyerId := None;
    }

    /**
     * `handleCreateCase`: the case built from the form goes first in the store and the
     * form is cleared. `draw` is the random part of the case number.
     */
    method CreateCase(year: int, draw: nat)
      requires draw < 1000
      modifies this, store
      ensures store.cases == [CreatedCase(old(newCase), CreatedCaseId(year, draw))] + old(store.cases)
      ensures newCase == BlankForm(old(store.currentUser))
      ensures store.inquiries == old(store.inquiries) && store.users == old(store.users) && store.currentUser == old(store.currentUser)
      ensures selectedCase == old(selectedCase) && editingTimeline == old(editingTimeline)
      ensures draggedItemIndex == old(draggedItemIndex) && pendingLawyerId == old(pendingLawyerId)
      ensures lawyerChangeNote == old(lawyerChangeNote)
    {
      store.AddCase(CreatedCase(newCase, CreatedCaseId(year, draw)));
      newCase := BlankForm(store.currentUser);
    }

    /**
     * `handleGenerateDoc(templateId)`: with an open case and a known template, the filled
     * content is produced and the document record is added to the case; `url` is the
     * data URL the file reader makes of that content.
     */
    method GenerateDoc(templateId: string, url: string, clock: Clock) returns (content: Option<string>)
      modifies store
      ensures old(selectedCase).None? || Find(Templates, HasTemplateId(templateId)).None? ==>
                content.None? && store.cases == old(store.cases)
      ensures old(selectedCase).Some? && Find(Templates, HasTemplateId(templateId)).Some? ==>
        var sel, t := old(selectedCase).value, Find(Templates, HasTemplateId(templateId)).value;
        && content == Some(GeneratedContentAsWritten(t, sel.clientName, clock.thaiDate, LawyerName(old(store.AvailableLawyers()), sel.lawyerId)))
        && store.cases == UpdateCase(old(store.cases), sel.id, DocumentStep(GeneratedDocument(t, sel.id, url, clock)))
      ensures store.inquiries == old(store.inquiries) && store.users == old(store.users) && store.currentUser == old(store.currentUser)
    {
      if selectedCase.None? {
        return None;
      }
      var found := Find(Templates, HasTemplateId(templateId));
      if found.None? {
        return None;
      }
      var sel, t := selectedCase.value, found.value;
      content := Some(GeneratedContentAsWritten(t, sel.clientName, clock.thaiDate, LawyerName(store.AvailableLawyers(), sel.lawyerId)));
      store.AddGeneratedDocument(sel.id, GeneratedDocument(t, sel.id, url, clock));
    }
  }
}
