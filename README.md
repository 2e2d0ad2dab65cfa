# A law office's case store and its pages, in Dafny

This project models the core of a Thai law office's web application. The application
runs without a server. The clients and the staff work on one in-memory store:

- **The store** (module `StoreContext`). It holds the inquiries from the contact form,
  the legal cases with their financial sub-record, and the internal users (the Chief
  and the lawyers). It also holds the user who is signed in to the back office.
  Every operation replaces one of these lists by a `map`, `filter` or spread of the old
  one. A case runs through a small payment lifecycle:
  - registration creates the case with one Pending payment;
  - a client reports an installment;
  - the office verifies a payment;
  - the Chief approves or rejects the case.
- **The back office's case page** (module `CaseManagement`):
  - the list of visible cases, with a search box and status tabs;
  - the timeline editor (edit a field, add, delete, drag to a new place);
  - reassignment of a case to another lawyer;
  - cases created by hand;
  - documents generated from six templates.
- **The client portal** (module `ClientPortal`): the client
  - signs in with a case number and a password;
  - opens the notification list;
  - reports a payment.
- **The registration wizard** (module `Registration`): package, details, payment, credentials.
- **The dashboard** (module `Dashboard`): the cases each lawyer holds, the workload chart,
  and the newest inquiries.
- **The glossary page and the glossary tooltip** (modules `GlossaryPage`,
  `GlossaryTooltip`).

The supporting modules are:

- Wrappers: `Option`.
- Seqs: filter, find, map-where, tally, and the subsequence relation.
- Text: `toLowerCase`, `includes`, `indexOf` and `split(sep)[0]`; `replace` with a
  literal text and with a replacement pattern; decimal rendering of numbers.
- Types: the records of the application.

The store is a class `Store` with one `seq` field for each list, plus the signed-in
user. Its methods replace those fields. Each per-case transform is a function on
`LegalCase`, and its contract says what changes and that nothing else does. The method
applies the transform through `UpdateCase` to the case with the given number.

Each page is a class whose fields are the page's state, or a set of pure functions where
the page only computes. The drag-and-drop move of a timeline event splices an array in
place, as the source does.

Some inputs are nondeterministic or come from outside. They arrive as parameters:

- the current time, as a `Clock`: the stamp used as an id, the ISO text, the Thai date
  text and the year;
- the random draws behind case numbers and lawyer ids (`draw`);
- generated passwords;
- the id the file store returns for a saved file;
- the summary the language model writes for an inquiry.

## Model

| member | source | states |
|---|---|---|
| StoreContext.Store.constructor | context/StoreContext.tsx:201-204 | The store starts from the seeded inquiries, the seeded case and the seeded users, with nobody signed in. |
| StoreContext.PackageById | context/StoreContext.tsx:296 | A found package is on offer and carries the id. None means no package on offer has that id. |
| StoreContext.RegisteredCase | context/StoreContext.tsx:295-360 | A registration creates a case as follows. Its status is Payment Verification and it is assigned to the Chief. `amountPaid` is the initial amount and `amountRemaining` is the price minus it, so the money balances. The price is 0, the type Other and the subtype "General Case" when the package is unknown. There is exactly one payment, of type Initial and status Pending. `paymentType` is Installment iff the initial amount is below the price. The timeline has one entry and there is one unread notification. There are no documents and no logins. |
| StoreContext.Store.RegisterNewCase | context/StoreContext.tsx:295-366 | The registered case is put first in `cases`. The returned case number is `C-<year>-<draw in 4 digits>` and the returned password is the generated one. No other list changes. |
| StoreContext.UnreadAfterPrepend | context/StoreContext.tsx:430-437 | Putting one unread notification in front raises the unread count by exactly one. |
| StoreContext.AmountTotalAppend | context/StoreContext.tsx:385-400 | Appending a payment adds its amount to the sum of all payment amounts. |
| StoreContext.SubmittedEventAwaits | context/StoreContext.tsx:385-391 | The entry an installment report adds is one that a later verification completes. |
| StoreContext.WithPaymentSubmitted | context/StoreContext.tsx:380-403 | One Installment/Pending payment is added at the end of the payments. One pending timeline entry is put first. The price, `amountPaid` and `amountRemaining` are unchanged, and nothing else in the case changes. Existing payments stay where they are, and the money balance is kept. |
| StoreContext.Store.SubmitAdditionalPayment | context/StoreContext.tsx:368-408 | The call succeeds iff the proof was stored. On success, exactly the case with that number gets the installment. On failure, the cases are unchanged. The other lists never change. |
| StoreContext.WithPaymentVerified | context/StoreContext.tsx:410-453 | If the payment is absent or already Verified, the case is returned unchanged. Otherwise: `amountPaid` grows by that payment's amount and the price stays the same, so the money balances afterwards (`amountRemaining` is not clamped). Every payment with that id becomes Verified and the others are unchanged, with the same count. Every pending entry that mentions a submitted installment is completed. One unread notification is put first. Nothing else changes. |
| StoreContext.VerifyIdempotent | context/StoreContext.tsx:414-415 | Verifying the same payment a second time, at any later time, gives the case the first verification gave. |
| StoreContext.VerifyPaymentTwice | context/StoreContext.tsx:410-453 | On the whole case list too, verifying twice is verifying once. |
| StoreContext.Store.VerifyPayment | context/StoreContext.tsx:410-453 | Exactly the case with that number is verified. No other list changes. |
| StoreContext.AllVerified | context/StoreContext.tsx:461-470 | Approval's payment map keeps the count and the order. Every payment ends up Verified with its other fields unchanged, and no Verified payment is turned back. |
| StoreContext.ApprovedFinancials | context/StoreContext.tsx:472-490 | After approval all three money fields are unchanged and every payment is Verified. The money balance is kept. |
| StoreContext.WithApproval | context/StoreContext.tsx:455-494 | Approval sets the status to Open whatever `updates` says, because it is written after the spread. The financials become `ApprovedFinancials` of the old ones. Exactly one timeline entry is put first. The current status is not checked. |
| StoreContext.ApprovalKeepsUpdates | context/StoreContext.tsx:472-490 | Every field other than the status, the financials and the timeline comes from the old case spread with `updates`. |
| StoreContext.ApprovalWithoutUpdates | context/StoreContext.tsx:455-494 | Without updates, approval changes only the status, the financials and the timeline. |
| StoreContext.Store.ApproveCase | context/StoreContext.tsx:455-494 | Exactly the case with that number is approved. No other list changes. |
| StoreContext.ApprovalVerifiesEverything | context/StoreContext.tsx:461-470 | After approval's map, the Verified amounts add up to the sum of all payment amounts. |
| StoreContext.RegisterThenApprove | context/StoreContext.tsx:356 | After registration and then approval, the case is Open with balanced money. Its Verified amounts add up to `amountPaid` exactly. |
| StoreContext.VerifyInitialCountsTwice | context/StoreContext.tsx:356 | Registration counts the initial amount as paid already, and verifying the initial payment adds it again. The result is `amountPaid` equal to twice the initial amount, while the Verified amounts add up to it once. |
| StoreContext.ApproveSkipsInstallments | context/StoreContext.tsx:461-470 | An installment reported before approval becomes Verified on approval, but its amount is never added to `amountPaid`. |
| StoreContext.SubmitThenVerify | context/StoreContext.tsx:410-428 | Take an installment reported under a fresh id and then verified. It is counted once in `amountPaid` and in `amountRemaining`. Its payment is Verified and its timeline entry is completed. |
| StoreContext.WithRejection | context/StoreContext.tsx:496-517 | Rejection sets the status to Rejected and the reason as given. It puts exactly one unread alert notification first, titled as the source titles it, stamped with the clock, and whose message is the fixed text around the reason, so it contains the reason. The timeline, the financials, the documents and every other field are unchanged. |
| StoreContext.Store.RejectCase | context/StoreContext.tsx:496-517 | Exactly the case with that number is rejected. No other list changes. |
| StoreContext.LifecycleKeepsBalance | context/StoreContext.tsx:368-517 | Four steps keep `amountPaid + amountRemaining == totalPrice` on every case where it held: an installment report, a verification, an approval and a rejection. |
| StoreContext.UpdateCase | context/StoreContext.tsx:519-521 | The length is unchanged. Exactly the cases with that number are transformed, and every other case is left as it is. |
| StoreContext.Store.UpdateLegalCase | context/StoreContext.tsx:519-521 | The case with that number is spread with the updates. No other list changes. |
| Types.Patched | context/StoreContext.tsx:519-521 | Spreading an empty patch over a case gives the case back. |
| StoreContext.WithLogin | context/StoreContext.tsx:523-544 | The new entry comes first and at most ten entries are kept. The length grows by one up to ten. The rest are a prefix of the previous entries, in order. No other field changes. |
| StoreContext.Store.RecordLogin | context/StoreContext.tsx:523-544 | Exactly the case with that number records the login. No other list changes. |
| StoreContext.Without | context/StoreContext.tsx:546-548 | Deletion keeps exactly the cases with another number, each as often as it occurs, in order. |
| StoreContext.Store.DeleteCase | context/StoreContext.tsx:546-548 | The cases become `Without` of the old ones. No other list changes. |
| StoreContext.Store.AddCase | context/StoreContext.tsx:291-293 | The case goes first and nothing else changes. |
| StoreContext.WithUpload | context/StoreContext.tsx:551-584 | An upload puts the document first and exactly one unread document notification first. The notification is titled `มีเอกสารใหม่ในคดีของคุณ`, its message names the file, and its id and time come from the clock. Nothing else changes. |
| StoreContext.Store.AddCaseDocument | context/StoreContext.tsx:551-584 | If the file store saved the file, the case with that number gets the upload. Otherwise the cases are unchanged. |
| StoreContext.WithDocument | context/StoreContext.tsx:586-594 | A generated document goes first. There is no notification and nothing else changes. |
| StoreContext.Store.AddGeneratedDocument | context/StoreContext.tsx:586-594 | Exactly the case with that number gets the document. No other list changes. |
| StoreContext.WithNotification | context/StoreContext.tsx:596-611 | Exactly one notification is put first. It carries the given title, message and kind, the time, and `read` false. The unread count grows by one and nothing else changes. |
| StoreContext.Store.PushNotification | context/StoreContext.tsx:596-611 | Exactly the case with that number gets the notification. No other list changes. |
| StoreContext.WithAllRead | context/StoreContext.tsx:613-623 | The length is unchanged. Every notification is the old one with `read` true and its other fields kept, so the unread count is 0. Nothing else changes. |
| StoreContext.AllReadIdempotent | context/StoreContext.tsx:613-623 | Marking everything read twice is marking it once. |
| StoreContext.Store.MarkAllNotificationsRead | context/StoreContext.tsx:613-623 | Exactly the case with that number has all its notifications read. No other list changes. |
| StoreContext.NewInquiry | context/StoreContext.tsx:270-280 | The new inquiry carries the form's fields, the given summary, id and time, and status New. |
| StoreContext.Store.AddInquiry | context/StoreContext.tsx:270-280 | The new inquiry goes first and nothing else changes. |
| StoreContext.Store.UpdateInquiryStatus | context/StoreContext.tsx:282-284 | The inquiries with that id get the status and the others are unchanged. Nothing else changes. |
| StoreContext.Store.DeleteInquiry | context/StoreContext.tsx:286-288 | Exactly the inquiries with another id are kept, in order. Nothing else changes. |
| StoreContext.Store.AddLawyer | context/StoreContext.tsx:628-634 | The user is appended with id `draw + 100`, which lies in 100..10099. Nothing else changes. |
| Types.PatchedUser | context/StoreContext.tsx:636-643 | Spreading a patch over a user keeps the id and the role unless the patch sets them, and takes the patch's name. An empty patch changes nothing. |
| StoreContext.CurrentAfterUpdate | context/StoreContext.tsx:638-642 | The signed-in user is patched iff it is the updated user. Nobody being signed in stays so. |
| StoreContext.Store.UpdateUser | context/StoreContext.tsx:636-643 | The users with that id are patched and the others are unchanged. The signed-in user follows `CurrentAfterUpdate`. |
| StoreContext.Store.DeleteUser | context/StoreContext.tsx:645-647 | Exactly the users with another id are kept, in order. Nothing else changes. |
| StoreContext.AdminLogin | context/StoreContext.tsx:649-657 | Login finds a user iff some user has that username and that password. The user found is the first with that username. A later user with the same username is never considered. |
| StoreContext.Store.LoginAdmin | context/StoreContext.tsx:649-657 | It returns true iff `AdminLogin` finds a user, who then becomes the signed-in user. Otherwise nothing changes. |
| StoreContext.Store.LogoutAdmin | context/StoreContext.tsx:659-662 | Nobody is signed in afterwards and nothing else changes. |
| StoreContext.Visible | context/StoreContext.tsx:664-666 | The Chief sees every case. A lawyer sees exactly the cases assigned to their id, each as often as it occurs, in order. With nobody signed in, no case is visible. The result is always a subsequence of the cases. |
| StoreContext.AssignedCases | context/StoreContext.tsx:666 | A case is kept iff it is assigned to the id, as often as it occurs. With no id, nothing is kept. The order is kept. |
| StoreContext.CountByType | context/StoreContext.tsx:673-676 | Each type that occurs is a key. Its count is the number of inquiries of that type. The counts add up to the number of inquiries. |
| StoreContext.TypeCounts | context/StoreContext.tsx:673-676 | The tally of the types gives each type the number of inquiries of that type. |
| StoreContext.TypeKeys | context/StoreContext.tsx:673-676 | A type is among the inquiries' types iff some inquiry has it. |
| StoreContext.StatsOf | context/StoreContext.tsx:668-677 | It states the counters as follows. The total is the number of inquiries. The active count covers visible cases that are Open or Pending Court. The pending-approval count covers visible cases in Payment Verification. Together these two are at most the number of visible cases. The closed count covers closed inquiries. The counts by type come from `CountByType`. |
| StoreContext.StaffOf | context/StoreContext.tsx:684 | With only two roles, the available lawyers are all users, in order. |
| CaseManagement.FilteredCases | pages/admin/CaseManagement.tsx:301-306 | A visible case is listed iff the client's name or the case number contains the search text (ignoring case) and the case matches the tab. A listed case appears as often as among the visible cases, and the list keeps their order. |
| CaseManagement.EmptySearchListsAll | pages/admin/CaseManagement.tsx:301-306 | With an empty search and the All tab, every visible case is listed, in order. |
| CaseManagement.TabNarrowsAll | pages/admin/CaseManagement.tsx:304 | A status tab lists a subsequence of what the All tab lists for the same search. |
| CaseManagement.SearchIgnoresCase | pages/admin/CaseManagement.tsx:302-303 | Typing the search in lower case lists the same cases. |
| CaseManagement.StatusRoundTrip | pages/admin/CaseManagement.tsx:139-143 | A status's spelling parses back to that status. |
| CaseManagement.ParseStatus | pages/admin/CaseManagement.tsx:139-143 | A text parses to a status only when it is that status's spelling. |
| CaseManagement.SameFieldsSameEvent | pages/admin/CaseManagement.tsx:139-143 | Two events that show the same value under every key are the same event. |
| CaseManagement.Edited | pages/admin/CaseManagement.tsx:141 | The edited key shows the new value. Every other key shows what it showed before. |
| CaseManagement.ChangedAt | pages/admin/CaseManagement.tsx:139-143 | The length is unchanged and the event at the index shows the new value under the key. Every other key of that event and every other event is unchanged. |
| CaseManagement.Page.TimelineChange | pages/admin/CaseManagement.tsx:139-143 | The edited timeline becomes `ChangedAt` of the old one. The rest of the page's state is unchanged. |
| CaseManagement.Page.AddEvent | pages/admin/CaseManagement.tsx:145-154 | Exactly the blank event is appended at the end. The rest of the page's state is unchanged. |
| CaseManagement.DeletedAt | pages/admin/CaseManagement.tsx:156-159 | The event at the index is removed and the others close up in order. An index outside the timeline removes nothing. |
| CaseManagement.AddThenDelete | pages/admin/CaseManagement.tsx:145-159 | Deleting the event just added gives back the timeline as it was. |
| CaseManagement.Page.DeleteEvent | pages/admin/CaseManagement.tsx:156-159 | The edited timeline becomes `DeletedAt` of the old one. The rest of the page's state is unchanged. |
| CaseManagement.MovedPermutes | pages/admin/CaseManagement.tsx:178-181 | A move keeps the length and the multiset of events. The dragged event lands at the target index. |
| CaseManagement.MovedKeepsOthers | pages/admin/CaseManagement.tsx:178-181 | The other events keep their relative order: taking the moved event out again gives the timeline without the dragged one. |
| CaseManagement.MovedInPlace | pages/admin/CaseManagement.tsx:178-181 | Moving an event onto its own place changes nothing. |
| CaseManagement.SpliceOut | pages/admin/CaseManagement.tsx:180 | `splice(from, 1)` done in place: the array's first `n-1` places hold the array without the item at `from`. |
| CaseManagement.SpliceIn | pages/admin/CaseManagement.tsx:181 | `splice(to, 0, item)` done in place on an array whose last place is free: the item is inserted at `to` and the rest shift down. |
| CaseManagement.MoveEvent | pages/admin/CaseManagement.tsx:178-181 | The two splices on a copy of the timeline give `Moved`, which the three lemmas above describe. |
| CaseManagement.Page.DragStart | pages/admin/CaseManagement.tsx:162-166 | The dragged index is recorded and nothing else changes. |
| CaseManagement.Page.Drop | pages/admin/CaseManagement.tsx:173-185 | Nothing changes when nothing is dragged or the event is dropped on itself. Otherwise the dragged event moves to the target and the drag ends. |
| CaseManagement.Page.SaveTimeline | pages/admin/CaseManagement.tsx:131-137 | With a case open, its timeline is replaced by the edited one and one status notification is pushed. Without a case open, nothing changes. |
| CaseManagement.Page.constructor | pages/admin/CaseManagement.tsx:62-69 | The page starts with no case open, nothing dragged, no reassignment pending, and a new-case form defaulting to the signed-in lawyer. |
| CaseManagement.Page.SelectCase | pages/admin/CaseManagement.tsx:72-77 | Opening a different case loads its timeline into the editor. Re-opening the same case keeps the edits. |
| CaseManagement.LawyerName | pages/admin/CaseManagement.tsx:296-299 | Id 0 gives 'ไม่ระบุ'. An id no lawyer has gives `Unknown (ID: n)`. Otherwise the first lawyer with that id gives their name, or `Unknown (ID: n)` when the name is empty. |
| CaseManagement.ReassignmentEvent | pages/admin/CaseManagement.tsx:202-208 | The reassignment log event is completed and dated now, titled `เปลี่ยนผู้รับผิดชอบ (Reassignment)`. Its description starts with the change from the old lawyer, names the new lawyer, and ends with the note, or with `-` when the note is empty. |
| CaseManagement.ReassignedTimeline | pages/admin/CaseManagement.tsx:210 | The new timeline is the reassignment log event for the old and the new lawyer's names and the note, followed by the case's old timeline. |
| CaseManagement.ReassignChangesTwoFields | pages/admin/CaseManagement.tsx:213-216 | The update written to the store changes the lawyer and the timeline and nothing else. |
| CaseManagement.Page.InitiateLawyerChange | pages/admin/CaseManagement.tsx:188-193 | Only the Chief can start a reassignment, which records the new id and clears the note. For anyone else nothing changes. |
| CaseManagement.Page.SetLawyerChangeNote | pages/admin/CaseManagement.tsx:195-231 | The note is set and nothing else changes. |
| CaseManagement.Page.ConfirmLawyerChange | pages/admin/CaseManagement.tsx:195-231 | With no open case or no chosen lawyer, nothing changes. Otherwise the case gets the new lawyer and the `ReassignedTimeline`, and the client gets an alert naming the new lawyer. The page shows the updated case and timeline, and the pending choice is cleared. |
| CaseManagement.CaseStatusTextInjective | types.ts:115 | The five case statuses are spelled differently. |
| CaseManagement.Page.ChangeStatus | pages/admin/CaseManagement.tsx:389-399 | A confirmed choice in the status list sets that status on the store's case. The client then gets a status notice naming the status. The open case on the page is not touched. |
| CaseManagement.Page.CloseCase | pages/admin/CaseManagement.tsx:468 | Closing the case window leaves no case open and no drag in progress. The editor, the reassignment state and the new-case form are kept. |
| CaseManagement.DefaultLawyer | pages/admin/CaseManagement.tsx:68 | The form's lawyer is the signed-in user's id. It is lawyer 1 when nobody is signed in or the id is 0, and it is never 0. |
| CaseManagement.CreatedCaseId | pages/admin/CaseManagement.tsx:81 | A hand-made case number is `C-`, the year and `-`, then three characters: the draw's digits after leading zeros. |
| CaseManagement.CreatedIdsDiffer | pages/admin/CaseManagement.tsx:81 | Two cases created in the same year with different draws get different case numbers. |
| CaseManagement.CreatedCase | pages/admin/CaseManagement.tsx:83-96 | A hand-made case has the form's fields and empty lists. Every amount is 0 and there are no payments, so its money balances and its Verified amounts match `amountPaid`. The fields the form lacks are absent. |
| CaseManagement.Page.CreateCase | pages/admin/CaseManagement.tsx:79-99 | The created case goes first in the store and the form is cleared. The other lists are unchanged. |
| CaseManagement.Placeholder | pages/admin/CaseManagement.tsx:272-274 | Each placeholder opens with `[` and has no other `[`. |
| CaseManagement.PlaceholdersDiffer | pages/admin/CaseManagement.tsx:272-274 | Two different placeholders differ already in their second character. |
| CaseManagement.TemplatesPlain | pages/admin/CaseManagement.tsx:8-15 | In all six templates, every `[` opens a placeholder. |
| CaseManagement.RenderExtensional | pages/admin/CaseManagement.tsx:271-274 | Filling a template depends only on the values the placeholders get. |
| CaseManagement.OtherPlaceholderSkipped | pages/admin/CaseManagement.tsx:272-274 | Replacing one placeholder passes over another one. |
| CaseManagement.RenderReplace | pages/admin/CaseManagement.tsx:272-274 | Replacing every occurrence of a placeholder still in place fills exactly that placeholder's slots. |
| CaseManagement.RenderWithoutBracket | pages/admin/CaseManagement.tsx:272-274 | With no `[` in the template's text or the values, the result has no `[`. |
| CaseManagement.RenderKeepsPlaceholder | pages/admin/CaseManagement.tsx:272-274 | A slot whose placeholder is still in place leaves that placeholder in the result. |
| CaseManagement.NoBracketNoPlaceholder | pages/admin/CaseManagement.tsx:272-274 | A text without `[` contains no placeholder. |
| CaseManagement.FilledContent | pages/admin/CaseManagement.tsx:271-274 | The template is filled with the client's name, the date and the lawyer's name. Take a template of the catalogue and values without `[`: then none of `[CLIENT_NAME]`, `[DATE]` and `[LAWYER_NAME]` remains. |
| CaseManagement.FilledHasNoPlaceholder | pages/admin/CaseManagement.tsx:271-274 | The three replacements leave no placeholder when neither the template's text nor the values hold a `[`. |
| CaseManagement.AsWrittenFillsPlainValues | pages/admin/CaseManagement.tsx:272-274 | The three `replace` calls as written give `FilledContent` whenever the values hold neither `$` nor `[`. |
| CaseManagement.GeneratedHasNoPlaceholder | pages/admin/CaseManagement.tsx:266-274 | A document generated from a template of the catalogue has none of the three placeholders left whenever the client's name, the date and the lawyer's name hold neither `$` nor `[`. |
| CaseManagement.DollarNameKeepsPlaceholder | pages/admin/CaseManagement.tsx:272 | Take a client named `$&` and a template that asks for the client's name. As written, the generated content still contains `[CLIENT_NAME]`. |
| CaseManagement.AppointmentForDollarName | pages/admin/CaseManagement.tsx:272 | The attorney-appointment form generated for a client named `$&` keeps `[CLIENT_NAME]`. |
| CaseManagement.DocName | pages/admin/CaseManagement.tsx:283 | The document's name is a prefix of the template's name without `" ("`, then `_<case number>.txt`. |
| CaseManagement.GeneratedDocument | pages/admin/CaseManagement.tsx:281-289 | The generated document has `DocName` as its name and the data URL of its content. Its id and date come from the clock, its size is `1 KB`, its type `text/plain` and its uploader `System (AI)`. |
| CaseManagement.Page.GenerateDoc | pages/admin/CaseManagement.tsx:266-294 | Without an open case or a known template, nothing happens. Otherwise the content is what the three `replace` calls as written make of the template with the client's name, the date and the lawyer's name, and the document is added to the open case. |
| ClientPortal.MatchingCase | pages/public/ClientPortal.tsx:32 | A case is found iff some case has both that number and that password. The one found is the first such case. |
| ClientPortal.Portal.constructor | pages/public/ClientPortal.tsx:9-19 | The portal starts signed out, with no error, no active case, the list closed, amount 0 and no proof. |
| ClientPortal.Portal.ActiveCase | pages/public/ClientPortal.tsx:22 | The case shown carries the active case number and is in the store. There is none exactly when no case number is active or no case has it. Otherwise it is the first case with that number. |
| ClientPortal.Portal.Login | pages/public/ClientPortal.tsx:24-47 | On matching credentials: the case becomes active, the user is signed in and the error is cleared. The payment amount defaults to the case's remaining amount, a successful login is recorded on that case, and the case page shows. On a mismatch, only the error message is set and the store is unchanged. |
| ClientPortal.FindUpdated | pages/public/ClientPortal.tsx:22 | Take an update that keeps case numbers. Looking the case up after it finds the updated case. |
| ClientPortal.LoginOpensMatchingCase | pages/public/ClientPortal.tsx:32-36 | With unique case numbers, the case the portal then shows is the matched case with the login recorded. |
| ClientPortal.LoginFindsCase | pages/public/ClientPortal.tsx:35-36 | After a successful login the case number still leads to a case. |
| ClientPortal.Portal.Logout | pages/public/ClientPortal.tsx:207 | Signing out clears the active case, and the case page no longer shows. |
| ClientPortal.Portal.ToggleNotifications | pages/public/ClientPortal.tsx:49-54 | The list toggles. Opening it with a case active marks that case's notifications read, so the badge drops to 0. Closing it, or having no case active, leaves the store unchanged. |
| ClientPortal.Portal.EnterPaymentAmount | pages/public/ClientPortal.tsx:279 | Typing an amount sets it and nothing else on the page. |
| ClientPortal.Portal.ChooseProof | pages/public/ClientPortal.tsx:290 | Choosing a slip sets the proof, or clears it when no file is chosen, and nothing else on the page. |
| ClientPortal.UnreadBadge | pages/public/ClientPortal.tsx:73 | It is 0 without an active case. Otherwise it is `UnreadCount`, the number of unread notifications. It is at most the number of notifications, and 0 iff every notification is read. |
| ClientPortal.Portal.SubmitPayment | pages/public/ClientPortal.tsx:56-71 | Without an active case or a proof, nothing happens. Otherwise the installment is reported on the active case, and the proof is cleared when the store accepted it. |
| Registration.OrZero | pages/public/RegistrationPage.tsx:73 | `Number(x) \|\| 0`: a number is kept and NaN becomes 0. |
| Registration.HalfPrice | pages/public/RegistrationPage.tsx:34 | The proposed custom amount is a number, exactly half of an even price. |
| Registration.PackagePricesEven | context/StoreContext.tsx:106-148 | Every package on offer has an even price. |
| Registration.PackageFoundById | context/StoreContext.tsx:106-148 | The package ids are distinct: a package on offer is what its id finds. |
| Registration.AmountToPay | pages/public/RegistrationPage.tsx:48 | The amount to pay is the package price under plan Full, and the custom amount otherwise. |
| Registration.TotalPrice | pages/public/RegistrationPage.tsx:72 | The total is the chosen package's price, or 0 without a package. |
| Registration.PayNowAmount | pages/public/RegistrationPage.tsx:73 | The amount due now is the total under plan Full. Otherwise it is the custom amount, with NaN read as 0. |
| Registration.RemainingAmount | pages/public/RegistrationPage.tsx:74 | The remaining amount is `max(0, total - pay now)`. It is never negative and is either 0 or the difference. |
| Registration.ShownAmountIsPaid | pages/public/RegistrationPage.tsx:48-52 | The shown amount is positive iff the handler sees a positive number. The two amounts are then equal. |
| Registration.SummaryAddsUp | pages/public/RegistrationPage.tsx:72-74 | Pay-now plus remaining is the total unless more than the total is paid now. Paying more shows 0 remaining. |
| Registration.RegisteredRemaining | pages/public/RegistrationPage.tsx:56 | The case a registration creates carries the remaining amount the summary showed, unless more than the price is paid. Paying more leaves a negative remainder on the case. It is an installment iff it pays less than the price. |
| Registration.Wizard.constructor | pages/public/RegistrationPage.tsx:10-28 | The wizard starts at step 1. It has no package, plan Full, amount 0, an empty form, no proof and no result. |
| Registration.Wizard.SelectPackage | pages/public/RegistrationPage.tsx:31-36 | Picking a package moves from step 1 to step 2, keeps the package, and proposes half its price. |
| Registration.Wizard.SubmitDetails | pages/public/RegistrationPage.tsx:38-42 | The completed details form moves from step 2 to step 3. An incomplete one stays at step 2. |
| Registration.Wizard.BackToPackages | pages/public/RegistrationPage.tsx:160 | Going back moves from step 2 to step 1 and keeps everything else. |
| Registration.Wizard.BackToDetails | pages/public/RegistrationPage.tsx:312 | Going back moves from step 3 to step 2 and keeps everything else. |
| Registration.Wizard.ChoosePlan | pages/public/RegistrationPage.tsx:216 | A plan card sets the plan and nothing else. |
| Registration.Wizard.EnterCustomAmount | pages/public/RegistrationPage.tsx:243-247 | Typing an amount sets it and selects the custom plan. |
| Registration.WithDetail | pages/public/RegistrationPage.tsx:165-193 | Typing into one input of the details form sets that field and keeps the other four. |
| Registration.FilledFormComplete | pages/public/RegistrationPage.tsx:165-193 | The blank form with all five fields typed is complete exactly when no typed text is empty. |
| Registration.Wizard.EditDetail | pages/public/RegistrationPage.tsx:165-193 | The form becomes `WithDetail` for that input, nothing else changes, and the wizard's invariant is kept. |
| Registration.Wizard.ChooseProof | pages/public/RegistrationPage.tsx:302 | Choosing a slip sets the proof file, or clears it when no file is chosen. Nothing else changes, and the invariant is kept. |
| Registration.Wizard.SubmitPayment | pages/public/RegistrationPage.tsx:44-65 | The wizard registers iff a package is chosen and the amount to pay is a positive number. Registering puts the case first in the store, stores the returned credentials and moves to step 4. Otherwise nothing changes. |
| Registration.Wizard.Register | pages/public/RegistrationPage.tsx:54-58 | The store registers the chosen package with the form's name, the proof's id and the amount. The returned case number and password are kept, step 4 is reached and the submitting flag is cleared. |
| Registration.Wizard.EnabledSubmitRegisters | pages/public/RegistrationPage.tsx:315 | When the button is enabled on step 3, pressing it registers. |
| Dashboard.CasesPerLawyer | pages/admin/Dashboard.tsx:17-21 | Each lawyer id that holds a case is a key. Its count is the number of cases with that lawyer and is at least 1. The counts add up to the number of cases. |
| Dashboard.LawyerCounts | pages/admin/Dashboard.tsx:17-21 | The tally gives each lawyer id the number of cases with that lawyer. |
| Dashboard.LawyerKeys | pages/admin/Dashboard.tsx:17-21 | An id is among the cases' lawyer ids iff some case has it. |
| Dashboard.Insert | pages/admin/Dashboard.tsx:23 | Inserting into an increasing list keeps it increasing and adds exactly the one value. |
| Dashboard.Ascending | pages/admin/Dashboard.tsx:23 | The distinct values of the list, strictly increasing. |
| Dashboard.LawyerIds | pages/admin/Dashboard.tsx:23 | The chart's keys are the lawyer ids that hold a case, each once, in increasing order. |
| Dashboard.LawyerLabel | pages/admin/Dashboard.tsx:24 | The label is the found lawyer's name, or `ID: <id>` when there is no lawyer or the name is empty. |
| Dashboard.BarLabelAsWritten | pages/admin/Dashboard.tsx:24-26 | The label as written is the text of `LawyerLabel` up to its first space, or the whole label when it has no space. |
| Dashboard.UnnamedBarsLookAlike | pages/admin/Dashboard.tsx:24-26 | As written, every id without a named lawyer is labelled `ID:`, so two such bars look alike. |
| Dashboard.FallbackLabelCut | pages/admin/Dashboard.tsx:26 | Splitting `ID: <id>` at the first space leaves `ID:`. |
| Dashboard.BarLabel | pages/admin/Dashboard.tsx:24-26 | The label meant is a named lawyer's first name, and otherwise the whole `ID: <id>`. |
| Dashboard.UnnamedBarsDiffer | pages/admin/Dashboard.tsx:24-26 | With the corrected label, two different unnamed ids get different labels. |
| Dashboard.LawyerData | pages/admin/Dashboard.tsx:23-29 | There is one bar per lawyer id holding a case, in key order. Each bar has that id's label as written (the text of `LawyerLabel` before its first space) and its case count, which is at least 1. |
| Dashboard.RecentInquiries | pages/admin/Dashboard.tsx:34 | The recent inquiries are the first min(5, n) inquiries, in order. |
| GlossaryPage.FilteredTerms | pages/public/GlossaryPage.tsx:12-17 | A term is kept iff its word or definition contains the search text, ignoring case, and the category is All or the term's own. A kept term appears as often as in the glossary, and the order is kept. |
| GlossaryPage.EmptySearchShowsAll | pages/public/GlossaryPage.tsx:13-15 | With an empty search and All, every term is shown, in order. |
| GlossaryPage.CategoryNarrowsAll | pages/public/GlossaryPage.tsx:15 | One category shows a subsequence of what All shows for the same search. |
| GlossaryPage.SearchIgnoresCase | pages/public/GlossaryPage.tsx:13-14 | Typing the search in lower case shows the same terms. |
| GlossaryTooltip.LookupTerm | components/GlossaryTooltip.tsx:14-17 | A term is found iff some entry matches: the entry's word contains the word, or the word contains the entry's first space-separated token, both ignoring case. The one found is the first matching entry. |
| GlossaryTooltip.LookupIgnoresWordCase | components/GlossaryTooltip.tsx:15-16 | Looking up the lower-cased word finds the same term. |
| GlossaryTooltip.MatchIgnoresEntryCase | components/GlossaryTooltip.tsx:15-16 | Lower-casing an entry's word does not change whether it matches. |
| GlossaryTooltip.DisplayContent | components/GlossaryTooltip.tsx:19 | The content is the children if present, else the text if present, else the word. |
| GlossaryTooltip.Render | components/GlossaryTooltip.tsx:19-43 | The content shown is `DisplayContent`. There is no tooltip iff no entry matches. A tooltip shows the first matching entry's word and definition. |
| Text.LowerFirstWord | components/GlossaryTooltip.tsx:16 | Lower-casing and then taking the first space-separated token is the same as the other way round. |
| Text.ReplaceAllJsPlain | pages/admin/CaseManagement.tsx:272-274 | A global `replace` with a replacement text free of `$` replaces every match literally. |
| Text.ReplaceAllJsMatchedText | pages/admin/CaseManagement.tsx:272 | A global `replace` whose replacement is `$&` gives back the text unchanged. |
| Text.SplitFirst | pages/admin/CaseManagement.tsx:283 | `split(sep)[0]` is the prefix before the first separator. It has no separator in it, and is the whole text when there is none. |
| Text.PaddedShape | pages/admin/CaseManagement.tsx:81 | `padStart(width, '0')` ends with the text itself, and everything before it is `0`. |
| Text.PaddedNumbersDiffer | pages/admin/CaseManagement.tsx:81 | Two numbers padded to the same width give the same text only when they are equal. |
| Text.NoLeadingZero | pages/admin/CaseManagement.tsx:81 | Only the number 0 is written with a leading `0`. |
| Seqs.FindFirst | pages/public/ClientPortal.tsx:22 | `find` returns the first element that passes the test. |
| Seqs.FilterCount | context/StoreContext.tsx:546-548 | `filter` keeps every passing element as often as it occurs, and no other element. |

## Left out

- Browser storage is not modelled: the load and persist effects and their JSON parsing
  (context/StoreContext.tsx:208-252), and the `localStorage` writes in `loginAdmin`,
  `updateUser` and `logoutAdmin`. This is I/O.
- The file store (`services/storageService.ts`, IndexedDB) is not part of this model.
  A saved file is the id it returned (`Some(id)`), and a failure to save is `None`.
  `FileReader`, `Blob` and `window.open` are outside the model as well; the generated
  document's data URL is a parameter.
- The language-model service and the chat widget are not part of this model. The
  inquiry summary is a parameter of `StoreContext.Store.AddInquiry`.
- `Date.now()` and `Math.random()` are not modelled. They become the `Clock`, `draw` and
  `password` parameters. The clock also carries the dates already formatted
  (`toLocaleDateString`), so date formatting is outside the model.
- `Text.LocaleAmount` models `toLocaleString()` for the amounts in the case texts as
  digits in groups of three, separated by commas. This is the browser's default locale
  assumed, not modelled: another locale would group or separate the digits differently.
- Asynchrony is not modelled: `await`, the simulated delays, and React's batching of
  state updates. Each handler is one atomic method, and the loading and paying flags
  are left out.
- The timeline editor's toggle (pages/admin/CaseManagement.tsx:608) and the open/closed
  flags of the two editors are not modelled. Opening the editor reloads it from the
  page's copy of the case, which can be older than the store's copy. As it stands, the
  model loads the editor only in `CaseManagement.Page.SelectCase` and
  `CaseManagement.Page.ConfirmLawyerChange`.
- CaseManagement.Page.Drop: it requires the recorded drag index to lie within the
  editor's timeline. The source does not ensure this. A drop onto the dragged item itself
  and `handleDeleteEvent` both leave the index set, so a later drop can splice with a
  stale index and insert `undefined` into the timeline. That case is not modelled,
  because a timeline event here is always a complete record.
- Browser dialogs are not modelled. `window.confirm`, `prompt` and `alert` are outside.
  In particular, the confirmation-guarded wrappers of the case page are left out:
  - `handleDeleteClick` (only the Chief; then `deleteCase`);
  - `handleApprove` (`approveCase` plus a notification);
  - `handleReject` (`rejectCase` with the prompted reason);
  - `handlePaymentSubmit`, `handleSaveDetails`, `handleFileUpload` and `getPackageName`
    (pages/admin/CaseManagement.tsx:101-128, 233-260, 319-322).

  Each of them only calls the store operations modelled above.
  The status list of a case (pages/admin/CaseManagement.tsx:389-399) is guarded by a
  confirmation too. `CaseManagement.Page.ChangeStatus` is its confirmed path; a refused
  confirmation changes nothing.
- `formatFileSize` (context/StoreContext.tsx:60-66) uses floating point. The uploaded
  document's size text is a parameter.
- Money is in whole baht. Fractional amounts are outside the model.
- Registration.HalfPrice: it rounds half of an odd price down, while the source's
  `price * 0.5` would be fractional. Every package on offer has an even price
  (`Registration.PackagePricesEven`), so the two agree on every package that exists.
- Registration.Wizard.SubmitPayment: it refuses a custom amount that is not a number.
  The source's guard `amountToPay <= 0` is false for NaN, so the handler as written
  would register a case with a NaN amount. The case record here holds integers only.
  `Registration.Wizard.EnabledSubmitRegisters` shows that the enabled button never
  submits NaN, because the amount due now must then be positive.
- Registration.Wizard.SubmitPayment: the path where `registerNewCase` throws (the
  alert, staying at step 3) is not modelled. The modelled store operation cannot fail,
  because a failure to store the proof is recorded as the empty id.
- The browser's format check of the `type="email"` field of the registration details
  form (pages/public/RegistrationPage.tsx:185) is not modelled: the form counts as
  complete once no field is empty.
- ClientPortal.Portal.Login: the payment amount field holds the number
  `amountRemaining` rather than its text.
- `Text.Lower` maps only the ASCII letters A-Z. Thai text has no case, and other
  scripts are outside the model.
- Dashboard.LawyerIds: the order of `Object.keys` is stated for lawyer ids that are
  array indices. A negative lawyer id is also put in increasing order, whereas a browser
  lists such a key after the index keys, in insertion order.
- The chart of inquiries by type (`dataByType`, pages/admin/Dashboard.tsx:12-15) is not
  modelled; its counts are `StoreContext.CountByType`.
- The glossary terms (`data/glossaryData`) are not part of this model. The term list is
  a parameter. The category buttons (pages/public/GlossaryPage.tsx:10, 71) are the
  `CategoryFilter` value, and the search box (line 63) is the search text.
- React children are modelled as a text, `children || text || word` as the first
  present of the three.
- The Chief-only gates of the lawyer management and admin layout pages, and their
  no-self-delete guard, are not modelled. `StoreContext.Store.DeleteUser` deletes any
  user, as the store does.
- Rendering, routing and the presentation-only pages are not modelled.

## Findings

| source | as written | input that shows it | evidently intended | confidence | as-written member | corrected member |
|---|---|---|---|---|---|---|
| pages/admin/CaseManagement.tsx:272-274 | `content.replace(/\[CLIENT_NAME\]/g, name)` treats the client's name (and the date and the lawyer's name) as a replacement pattern, so `$&`, `$'` and the like in a name are expanded | a client named `$&` and the attorney-appointment template: the generated document still says `[CLIENT_NAME]` | the placeholders are filled with the values taken literally, so no placeholder remains | not executed | CaseManagement.GeneratedContentAsWritten (shown by CaseManagement.DollarNameKeepsPlaceholder and CaseManagement.AppointmentForDollarName) | CaseManagement.FilledContent (proved by CaseManagement.FilledHasNoPlaceholder) |
| pages/admin/Dashboard.tsx:24-26 | the fallback label `ID: <id>` is cut at its first space like a name, so it becomes `ID:` | two cases with lawyer ids 7 and 8, neither of which is a registered lawyer: both bars are labelled `ID:` | a bar without a named lawyer keeps its id, so the bars can be told apart | not executed | Dashboard.BarLabelAsWritten (shown by Dashboard.UnnamedBarsLookAlike) | Dashboard.BarLabel (proved by Dashboard.UnnamedBarsDiffer) |
