/**
 * The client portal (`ClientPortal.tsx`): a client signs in with a case number and
 * the case password, sees the case, opens the notification list (which marks the
 * notifications read) and reports an installment payment with a proof image.
 *
 * The page keeps the id of the active case, not a copy of it: the case shown is
 * looked up in the store again on every render, so it reflects the store's updates.
 */
module ClientPortal {
  import opened Wrappers
  import opened Seqs
  import opened Types
  import opened StoreContext

  const LoginFailed := "ไม่พบข้อมูลคดี หรือ รหัสผ่านไม่ถูกต้อง"

  function HasCredentials(caseId: string, password: string): LegalCase -> bool {
    (c: LegalCase) => c.id == caseId && c.password == password
  }

  /** The case `cases.find(c => c.id === caseId && c.password === password)` finds. */
  function MatchingCase(cases: seq<LegalCase>, caseId: string, password: string): (r: Option<LegalCase>)
    ensures r.Some? <==> exists i :: 0 <= i < |cases| && cases[i].id == caseId && cases[i].password == password
    ensures r.Some? ==> r.value.id == caseId && r.value.password == password
    ensures r.Some? ==> exists i :: 0 <= i < |cases| && cases[i] == r.value &&
                          forall j :: 0 <= j < i ==> !(cases[j].id == caseId && cases[j].password == password)
  {
    match FindIndex(cases, HasCredentials(caseId, password))
    case Some(i) => Some(cases[i])
    case None => None
  }

  /**
   * `activeCase?.notifications.filter(n => !n.read).length || 0`: nothing when no case
   * is active, otherwise the number of unread notifications.
   */
  function UnreadBadge(active: Option<LegalCase>): (r: nat)
    ensures active.None? ==> r == 0
    ensures active.Some? ==>
      (r == 0 <==> forall i :: 0 <= i < |active.value.notifications| ==> active.value.notifications[i].read)
    ensures active.Some? ==> r <= |active.value.notifications|
    ensures active.Some? ==> r == UnreadCount(active.value.notifications)
  {
    match active
    case None => 0
    case Some(c) =>
      var ns := c.notifications;
      if forall i :: 0 <= i < |ns| ==> ns[i].read then
        FilterKeepsNone(ns, IsUnread);
        UnreadCount(ns)
      else
        var k :| 0 <= k < |ns| && !ns[k].read;
        FilterMembers(ns, IsUnread, ns[k]);
        UnreadCount(ns)
  }

  /** No two cases share a case number. */
  predicate UniqueIds(cases: seq<LegalCase>) {
    forall i, j :: 0 <= i < j < |cases| ==> cases[i].id != cases[j].id
  }

  /**
   * Looking a case up by its number after an update of that number that keeps case
   * numbers finds the updated case.
   */
  lemma FindUpdated(cases: seq<LegalCase>, id: string, f: LegalCase -> LegalCase)
    requires forall c: LegalCase :: c.id == id ==> f(c).id == id
    ensures Find(UpdateCase(cases, id, f), HasCaseId(id)) ==
              match Find(cases, HasCaseId(id))
              case Some(c) => Some(f(c))
              case None => None
  {
    var u := UpdateCase(cases, id, f);
    forall i | 0 <= i < |cases|
      ensures HasCaseId(id)(u[i]) == HasCaseId(id)(cases[i])
    {
    }
    var before := FindIndex(cases, HasCaseId(id));
    var after := FindIndex(u, HasCaseId(id));
    if before.Some? {
      assert HasCaseId(id)(u[before.value]);
      assert after.Some? && after.value == before.value;
    }
  }

  /**
   * With case numbers unique, the case the portal then shows is the case the
   * credentials matched, with the successful login recorded on it.
   */
  lemma LoginOpensMatchingCase(cases: seq<LegalCase>, caseId: string, password: string, clock: Clock)
    requires UniqueIds(cases)
    requires MatchingCase(cases, caseId, password).Some?
    ensures Find(UpdateCase(cases, caseId, LoginStep(true, clock)), HasCaseId(caseId))
            == Some(WithLogin(MatchingCase(cases, caseId, password).value, true, clock))
  {
    var m := MatchingCase(cases, caseId, password).value;
    var i :| 0 <= i < |cases| && cases[i] == m;
    assert HasCaseId(caseId)(cases[i]);
    FindUpdated(cases, caseId, LoginStep(true, clock));
    var j := FindIndex(cases, HasCaseId(caseId)).value;
    assert cases[j].id == cases[i].id;
  }

  /** After a successful login the case number still leads to a case. */
  lemma LoginFindsCase(cases: seq<LegalCase>, caseId: string, password: string, clock: Clock)
    requires MatchingCase(cases, caseId, password).Some?
    ensures Find(UpdateCase(cases, caseId, LoginStep(true, clock)), HasCaseId(caseId)).Some?
  {
    var i :| 0 <= i < |cases| && cases[i] == MatchingCase(cases, caseId, password).value;
    assert HasCaseId(caseId)(cases[i]);
    FindUpdated(cases, caseId, LoginStep(true, clock));
  }

  class Portal {
    const store: Store
    var isLoggedIn: bool
    var error: string
    var activeCaseId: Option<string>
    var showNotifications: bool
    /** `Number(paymentAmount)`; the text field is modelled by the number it holds. */
    var paymentAmount: int
    /** The chosen proof image, as the opaque id of the file. */
    var paymentProof: Option<string>

    constructor(s: Store)
      ensures store == s && !isLoggedIn && error == "" && activeCaseId == None
      ensures !showNotifications && paymentAmount == 0 && paymentProof == None
    {
      store := s;
      isLoggedIn := false;
      error := "";
      activeCaseId := None;
      showNotifications := false;
      paymentAmount := 0;
      paymentProof := None;
    }

    /** `cases.find(c => c.id === activeCaseId)`. */
    function ActiveCase(): (r: Option<LegalCase>)
      reads this, store
      ensures r.Some? ==> activeCaseId == Some(r.value.id) && r.value in store.cases
      ensures r.None? <==> activeCaseId.None? || forall c :: c in store.cases ==> c.id != activeCaseId.value
      ensures r.Some? ==> exists i :: 0 <= i < |store.cases| && store.cases[i] == r.value &&
                            forall j :: 0 <= j < i ==> store.cases[j].id != r.value.id
    {
      match activeCaseId
      case None => None
      case Some(id) =>
        FindFirst(store.cases, HasCaseId(id));
        Find(store.cases, HasCaseId(id))
    }

    /** The case page shows only when signed in and the active case still exists. */
    predicate ShowsCase()
      reads this, store
    {
      isLoggedIn && ActiveCase().Some?
    }

    /**
     * `handleLogin`: on matching credentials the case becomes active, a successful login
     * is recorded on it and the payment amount defaults to what remains to be paid; on
     * a mismatch only the error message is set (the failed attempt is not recorded).
     */
    method Login(caseId: string, password: string, clock: Clock)
      modifies this, store
      ensures match MatchingCase(old(store.cases), caseId, password)
              case Some(c) =>
                activeCaseId == Some(caseId) && isLoggedIn && error == "" &&
                paymentAmount == c.financials.amountRemaining &&
                store.cases == UpdateCase(old(store.cases), caseId, LoginStep(true, clock)) &&
                ShowsCase()
              case None =>
                activeCaseId == old(activeCaseId) && isLoggedIn == old(isLoggedIn) && error == LoginFailed &&
                paymentAmount == old(paymentAmount) && store.cases == old(store.cases)
      ensures showNotifications == old(showNotifications) && paymentProof == old(paymentProof)
      ensures store.inquiries == old(store.inquiries) && store.users == old(store.users)
      ensures store.currentUser == old(store.currentUser)
    {
      var found := MatchingCase(store.cases, caseId, password);
      if found.Some? {
        error := "";
        activeCaseId := Some(caseId);
        isLoggedIn := true;
        paymentAmount := found.value.financials.amountRemaining;
        LoginFindsCase(store.cases, caseId, password, clock);
        store.RecordLogin(caseId, true, clock);
      } else {
        error := LoginFailed;
      }
    }

    /** The sign-out button. */
    method Logout()
      modifies this
      ensures !isLoggedIn && activeCaseId == None && !ShowsCase()
      ensures error == old(error) && showNotifications == old(showNotifications)
      ensures paymentAmount == old(paymentAmount) && paymentProof == old(paymentProof)
    {
      isLoggedIn := false;
      activeCaseId := None;
    }

    /** `setPaymentAmount(e.target.value)`, the field read as the number it holds. */
    method EnterPaymentAmount(n: int)
      modifies this
      ensures paymentAmount == n
      ensures isLoggedIn == old(isLoggedIn) && error == old(error) && activeCaseId == old(activeCaseId)
      ensures showNotifications == old(showNotifications) && paymentProof == old(paymentProof)
    {
      paymentAmount := n;
    }

    /** `setPaymentProof(e.target.files?.[0] || null)`: the chosen file, or none. */
    method ChooseProof(file: Option<string>)
      modifies this
      ensures paymentProof == file
      ensures isLoggedIn == old(isLoggedIn) && error == old(error) && activeCaseId == old(activeCaseId)
      ensures showNotifications == old(showNotifications) && paymentAmount == old(paymentAmount)
    {
      paymentProof := file;
    }

    /**
     * `handleOpenNotifications`: toggles the list; opening it with a case active marks
     * all of that case's notifications read, so the badge drops to zero.
     */
    method ToggleNotifications()
      modifies this, store
      ensures showNotifications == !old(showNotifications)
      ensures !old(showNotifications) && old(ActiveCase()).Some? ==>
                store.cases == UpdateCase(old(store.cases), old(ActiveCase()).value.id, ReadStep()) &&
                ActiveCase() == Some(WithAllRead(old(ActiveCase()).value)) &&
                UnreadBadge(ActiveCase()) == 0
      ensures old(showNotifications) || old(ActiveCase()).None? ==> store.cases == old(store.cases)
      ensures isLoggedIn == old(isLoggedIn) && activeCaseId == old(activeCaseId) && error == old(error)
      ensures paymentAmount == old(paymentAmount) && paymentProof == old(paymentProof)
      ensures store.inquiries == old(store.inquiries) && store.users == old(store.users)
      ensures store.currentUser == old(store.currentUser)
    {
      var active := ActiveCase();
      var opening := !showNotifications;
      showNotifications := !showNotifications;
      if opening && active.Some? {
        FindUpdated(store.cases, active.value.id, ReadStep());
        store.MarkAllNotificationsRead(active.value.id);
      }
    }

    /**
     * `handlePaymentSubmit`: without an active case or a proof image nothing happens;
     * otherwise the payment is submitted, and the chosen proof is cleared when the store
     * accepted it. `stored` is the file store's id for the proof, `None` when saving it
     * failed.
     */
    method SubmitPayment(stored: Option<string>, clock: Clock)
      modifies this, store
      ensures old(ActiveCase()).None? || old(paymentProof).None? ==>
                store.cases == old(store.cases) && paymentProof == old(paymentProof)
      ensures old(ActiveCase()).Some? && old(paymentProof).Some? ==>
                (stored.Some? ==> store.cases == UpdateCase(old(store.cases), old(ActiveCase()).value.id,
                                                  SubmitStep(old(paymentAmount), stored.value, clock)) &&
                                  paymentProof == None) &&
                (stored.None? ==> store.cases == old(store.cases) && paymentProof == old(paymentProof))
      ensures isLoggedIn == old(isLoggedIn) && activeCaseId == old(activeCaseId) && error == old(error)
      ensures showNotifications == old(showNotifications) && paymentAmount == old(paymentAmount)
      ensures store.inquiries == old(store.inquiries) && store.users == old(store.users)
      ensures store.currentUser == old(store.currentUser)
    {
      var active := ActiveCase();
      if active.None? || paymentProof.None? {
        return;
      }
      var ok := store.SubmitAdditionalPayment(active.value.id, paymentAmount, stored, clock);
      if ok {
        paymentProof := None;
      }
    }
  }
}
