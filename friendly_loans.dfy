/**
 * The data of src/pages/FriendlyLoans.tsx and the parts of that page that are
 * not the per-friend aggregation: what a loan owes, the three form schemas,
 * the submission of the loan form (reuse a friend by name or create one, then
 * create or update the loan) and the "Remaining / Fully Repaid" line.
 *
 * Strings stand for the page's untyped fields; "" stands for a field that is
 * missing, `null` or `undefined` wherever the page only tests it for
 * truthiness.
 */
module FriendlyLoans {
  import opened Wrappers

  /** A row of the `friends` table. */
  datatype Friend = Friend(id: string, name: string, contactNumber: string)

  /** A row of the `repayments` table, as nested under its loan. */
  datatype Repayment = Repayment(amount: real)

  /**
   * A loan as the page receives it: `joinedFriendId` is `loan.friends?.id`
   * (the joined friend row), `friendId` is `loan.friend_id`, `loanType` is
   * `loan.type` and `repayments` is absent when the join brought none.
   */
  datatype Loan = Loan(
    id: string,
    joinedFriendId: string,
    friendId: string,
    amount: real,
    loanType: string,
    status: string,
    repayments: Option<seq<Repayment>>)

  /** `loan.friends?.id || loan.friend_id`. */
  function FriendKey(loan: Loan): (k: string)
    ensures loan.joinedFriendId != "" ==> k == loan.joinedFriendId
    ensures loan.joinedFriendId == "" ==> k == loan.friendId
  {
    if loan.joinedFriendId != "" then loan.joinedFriendId else loan.friendId
  }

  /** `repayments.reduce((sum, r) => sum + Number(r.amount), 0)`. */
  function SumRepayments(rs: seq<Repayment>): (r: real)
    ensures (forall x :: x in rs ==> x.amount >= 0.0) ==> r >= 0.0
  {
    if rs == [] then 0.0
    else
      assert forall x :: x in rs[..|rs| - 1] ==> x in rs;
      SumRepayments(rs[..|rs| - 1]) + rs[|rs| - 1].amount
  }

  lemma {:induction false} SumRepaymentsAppend(a: seq<Repayment>, b: seq<Repayment>)
    ensures SumRepayments(a + b) == SumRepayments(a) + SumRepayments(b)
  {
    if b == [] {
      assert a + b == a;
    } else {
      assert (a + b)[..|a + b| - 1] == a + b[..|b| - 1];
      assert (a + b)[|a + b| - 1] == b[|b| - 1];
      SumRepaymentsAppend(a, b[..|b| - 1]);
    }
  }

  /** The sum does not depend on the order repayments are listed in. */
  lemma {:induction false} SumRepaymentsPermutation(a: seq<Repayment>, b: seq<Repayment>)
    requires multiset(a) == multiset(b)
    ensures SumRepayments(a) == SumRepayments(b)
  {
    if a != [] {
      var x := a[|a| - 1];
      assert x in multiset(b);
      var i :| 0 <= i < |b| && b[i] == x;
      assert b == b[..i] + [x] + b[i + 1..];
      var rest := b[..i] + b[i + 1..];
      assert a == a[..|a| - 1] + [x];
      assert multiset(a) == multiset(a[..|a| - 1]) + multiset{x};
      assert multiset(b) == multiset(b[..i]) + multiset{x} + multiset(b[i + 1..]);
      assert multiset(rest) == multiset(b[..i]) + multiset(b[i + 1..]);
      assert multiset(a[..|a| - 1]) == multiset(a) - multiset{x};
      assert multiset(rest) == multiset(b) - multiset{x};
      SumRepaymentsPermutation(a[..|a| - 1], rest);
      SumRepaymentsAppend(b[..i] + [x], b[i + 1..]);
      SumRepaymentsAppend(b[..i], [x]);
      SumRepaymentsAppend(b[..i], b[i + 1..]);
    }
  }

  /** `(loan.repayments || []).reduce(...)`: a missing list repays nothing. */
  function Repaid(loan: Loan): (r: real)
    ensures loan.repayments.None? ==> r == 0.0
    ensures loan.repayments.Some? && (forall x :: x in loan.repayments.value ==> x.amount >= 0.0) ==> r >= 0.0
  {
    SumRepayments(loan.repayments.GetOr([]))
  }

  /** `Number(loan.amount) - repaid`: what is still owed; negative when overpaid. */
  function RemainingOnLoan(loan: Loan): (r: real)
    ensures r + Repaid(loan) == loan.amount
    ensures loan.repayments.None? ==> r == loan.amount
  {
    loan.amount - Repaid(loan)
  }

  /** Paying back more than was lent leaves a negative remainder. */
  lemma OverpaidIsNegative(loan: Loan, extra: real)
    requires extra > 0.0 && loan.repayments == Some([Repayment(loan.amount + extra)])
    ensures RemainingOnLoan(loan) == -extra
  {
    var rs := [Repayment(loan.amount + extra)];
    assert rs[..0] == [];
    assert SumRepayments(rs) == loan.amount + extra;
  }

  /** `status === 'pending' || status === 'partially_paid'`. */
  predicate IsActive(loan: Loan) {
    loan.status == "pending" || loan.status == "partially_paid"
  }

  /** `friends.find(f => f.id === id)`. */
  function FindFriend(friends: seq<Friend>, id: string): (r: Option<Friend>)
    ensures r.Some? ==> r.value in friends && r.value.id == id
    ensures r.None? ==> forall f :: f in friends ==> f.id != id
  {
    if friends == [] then None
    else if friends[0].id == id then Some(friends[0])
    else FindFriend(friends[1..], id)
  }

  /** `Array.find` returns the first friend in list order that has the id. */
  lemma {:induction false} FindFriendFirst(friends: seq<Friend>, id: string, i: nat)
    requires i < |friends| && friends[i].id == id
    requires forall j :: 0 <= j < i ==> friends[j].id != id
    ensures FindFriend(friends, id) == Some(friends[i])
    decreases i
  {
    if i > 0 {
      assert friends[0].id != id;
      assert forall j :: 0 <= j < i - 1 ==> friends[1..][j] == friends[j + 1];
      FindFriendFirst(friends[1..], id, i - 1);
    }
  }

  // ---------------------------------------------------------------------------
  // The "remaining" line of the loan history dialog

  datatype RepaymentLine = RemainingShown(remaining: real) | FullyRepaid

  /** `remainingAmount > 0 ? "Remaining: ..." : "Fully Repaid"`. */
  function RemainingLine(loan: Loan): (r: RepaymentLine)
    ensures r == FullyRepaid <==> Repaid(loan) >= loan.amount
    ensures r.RemainingShown? ==> r.remaining > 0.0 && r.remaining + Repaid(loan) == loan.amount
  {
    var remainingAmount := RemainingOnLoan(loan);
    if remainingAmount > 0.0 then RemainingShown(remainingAmount) else FullyRepaid
  }

  // ---------------------------------------------------------------------------
  // Form schemas

  /** `!value` for an optional string: absent or empty. */
  predicate Falsy(s: Option<string>) {
    s.None? || s.value == ""
  }

  /** The fields a schema can attach an error to. */
  datatype FormField =
    | NameField | ContactNumberField
    | FriendIdField | NewFriendNameField | AmountField | TypeField | LoanDateField
    | ReasonField | NotesField | StatusField
    | RepaymentDateField

  /** `friendFormSchema`: name and contact number each at least one character. */
  function FriendFormErrors(name: string, contactNumber: string): (r: set<FormField>)
    ensures r <= {NameField, ContactNumberField}
    ensures NameField in r <==> |name| < 1
    ensures ContactNumberField in r <==> |contactNumber| < 1
  {
    (if |name| < 1 then {NameField} else {}) + (if |contactNumber| < 1 then {ContactNumberField} else {})
  }

  /** The `friend_id` value that asks for a new friend. */
  const NewFriendSentinel: string := "__new__"

  /**
   * A value in a `z.string().optional()` field: left undefined, `null` (as a
   * stored row can hold one), or a string.
   */
  datatype OptionalText = Undefined | Null | Text(value: string)

  /** The loan form as submitted; `amount` already coerced to a number, dates as day numbers. */
  datatype LoanForm = LoanForm(
    friendId: string,
    newFriendName: Option<string>,
    newFriendContact: Option<string>,
    amount: real,
    loanType: string,
    loanDate: Option<int>,
    dueDate: Option<int>,
    reason: OptionalText,
    notes: OptionalText,
    status: OptionalText)

  /**
   * `loanFormSchema`. Field checks (`min(1)`, `positive()`) only mark the
   * parse as failed, while a value outside `z.enum`, a missing `z.date()` or
   * a `null` in an optional string (a type error: `.optional()` admits
   * `undefined` only, and `.default` replaces `undefined` only) abandons the
   * object, and then the `.refine` on it is not evaluated.
   */
  function LoanFormErrors(v: LoanForm): (r: set<FormField>)
    ensures FriendIdField in r <==> v.friendId == ""
    ensures AmountField in r <==> v.amount <= 0.0
    ensures TypeField in r <==> v.loanType != "taken" && v.loanType != "given"
    ensures LoanDateField in r <==> v.loanDate.None?
    ensures ReasonField in r <==> v.reason.Null?
    ensures NotesField in r <==> v.notes.Null?
    ensures StatusField in r <==> v.status.Null?
    ensures NewFriendNameField in r <==>
      TypeField !in r && LoanDateField !in r && ReasonField !in r && NotesField !in r && StatusField !in r &&
      v.friendId == NewFriendSentinel && (Falsy(v.newFriendName) || Falsy(v.newFriendContact))
    ensures r <= LoanFormFields
  {
    set f | f in LoanFormFields && LoanFieldFails(v, f)
  }

  /** The fields of the loan form. */
  const LoanFormFields: set<FormField> :=
    {FriendIdField, AmountField, TypeField, LoanDateField, ReasonField, NotesField, StatusField, NewFriendNameField}

  /** Whether `loanFormSchema` puts an error on field `f` of the loan form. */
  predicate LoanFieldFails(v: LoanForm, f: FormField) {
    var aborted :=
      v.loanType !in {"taken", "given"} || v.loanDate.None? || v.reason.Null? || v.notes.Null? || v.status.Null?;
    match f
    case FriendIdField => |v.friendId| < 1
    case AmountField => v.amount <= 0.0
    case TypeField => v.loanType !in {"taken", "given"}
    case LoanDateField => v.loanDate.None?
    case ReasonField => v.reason.Null?
    case NotesField => v.notes.Null?
    case StatusField => v.status.Null?
    case NewFriendNameField =>
      !aborted && v.friendId == NewFriendSentinel && (Falsy(v.newFriendName) || Falsy(v.newFriendContact))
    case _ => false
  }

  /** A new friend without a name or a contact never passes, and when nothing else is wrong the one error is on `new_friend_name`. */
  lemma NewFriendNeedsNameAndContact(v: LoanForm)
    requires v.friendId == NewFriendSentinel && (Falsy(v.newFriendName) || Falsy(v.newFriendContact))
    ensures LoanFormErrors(v) != {}
    ensures v.amount > 0.0 && v.loanType in {"taken", "given"} && v.loanDate.Some? &&
            !v.reason.Null? && !v.notes.Null? && !v.status.Null? ==>
      LoanFormErrors(v) == {NewFriendNameField}
  {
    var r := LoanFormErrors(v);
    if v.loanType in {"taken", "given"} && v.loanDate.Some? && !v.reason.Null? && !v.notes.Null? && !v.status.Null? {
      assert NewFriendNameField in r;
    } else {
      assert TypeField in r || LoanDateField in r || ReasonField in r || NotesField in r || StatusField in r;
    }
  }

  /**
   * `openEditLoanDialog` resets the form with the stored row spread into it,
   * so a loan whose `reason` or `notes` column is `null` puts `null` into an
   * optional string field. The schema rejects it and abandons the object:
   * such a loan cannot be saved until that field is typed into, and the
   * new-friend check is not reached.
   */
  lemma NullTextBlocksSave(v: LoanForm)
    requires v.reason.Null? || v.notes.Null?
    ensures LoanFormErrors(v) != {}
    ensures NewFriendNameField !in LoanFormErrors(v)
    ensures v.reason.Null? ==> ReasonField in LoanFormErrors(v)
    ensures v.notes.Null? ==> NotesField in LoanFormErrors(v)
  {
  }

  /** `status: z.string().optional().default('pending')`: only an undefined status is defaulted. */
  function LoanStatus(v: LoanForm): (s: OptionalText)
    ensures v.status.Undefined? ==> s == Text("pending")
    ensures !v.status.Undefined? ==> s == v.status
  {
    if v.status.Undefined? then Text("pending") else v.status
  }

  /** The dialog's reset values (`type: 'taken'`, `status: 'pending'`, `friend_id: ''`) cannot be submitted as they are. */
  lemma DefaultLoanFormRejected(today: int, amount: real)
    ensures FriendIdField in LoanFormErrors(LoanForm("", None, None, amount, "taken", Some(today), None, Undefined, Undefined, Text("pending")))
  {
  }

  /** `repaymentFormSchema`: a positive amount and a date. */
  function RepaymentFormErrors(amount: real, repaymentDate: Option<int>): (r: set<FormField>)
    ensures r <= {AmountField, RepaymentDateField}
    ensures AmountField in r <==> amount <= 0.0
    ensures RepaymentDateField in r <==> repaymentDate.None?
  {
    (if amount > 0.0 then {} else {AmountField}) + (if repaymentDate.Some? then {} else {RepaymentDateField})
  }

  // ---------------------------------------------------------------------------
  // Submitting the loan form

  /** `loanPayload`: what is sent to the store for the loan itself. */
  datatype LoanPayload = LoanPayload(
    amount: real, loanType: string, loanDate: int, dueDate: Option<int>,
    reason: OptionalText, notes: OptionalText, status: OptionalText)

  /** What the page asks the store to do with the loan. */
  datatype LoanAction =
    | NoAction
    | CreateLoan(payload: LoanPayload, friendId: string)
    | UpdateLoan(loanId: string, payload: LoanPayload, friendId: string)

  /** `friendsService.getFriendByName`: a friend with exactly that name, if any. */
  function FindFriendByName(friends: seq<Friend>, name: string): (r: Option<Friend>)
    ensures r.Some? ==> r.value in friends && r.value.name == name
    ensures r.None? ==> forall f :: f in friends ==> f.name != name
  {
    if friends == [] then None
    else if friends[0].name == name then Some(friends[0])
    else FindFriendByName(friends[1..], name)
  }

  /**
   * The store's query promises no order, but among friends with distinct
   * names the answer does not depend on one: it is the friend with that name.
   */
  lemma {:induction false} FindFriendByNameUnique(friends: seq<Friend>, name: string, i: nat)
    requires UniqueNames(friends) && i < |friends| && friends[i].name == name
    ensures FindFriendByName(friends, name) == Some(friends[i])
    decreases i
  {
    if i > 0 {
      assert friends[0].name != name by {
        assert friends[0].name != friends[i].name;
      }
      var rest := friends[1..];
      assert UniqueNames(rest) by {
        forall a, b | 0 <= a < b < |rest|
          ensures rest[a].name != rest[b].name
        {
          assert rest[a] == friends[a + 1] && rest[b] == friends[b + 1];
        }
      }
      assert rest[i - 1] == friends[i];
      FindFriendByNameUnique(rest, name, i - 1);
    }
  }

  /** No two friends share a name. */
  predicate UniqueNames(friends: seq<Friend>) {
    forall i, j :: 0 <= i < j < |friends| ==> friends[i].name != friends[j].name
  }

  /** No two friends share an id. */
  predicate UniqueIds(friends: seq<Friend>) {
    forall i, j :: 0 <= i < j < |friends| ==> friends[i].id != friends[j].id
  }

  function PayloadOf(v: LoanForm): LoanPayload
    requires v.loanDate.Some?
  {
    LoanPayload(v.amount, v.loanType, v.loanDate.value, v.dueDate, v.reason, v.notes, LoanStatus(v))
  }

  /** The page's own guard in `onLoanSubmit`: a new friend without a name or a contact. */
  predicate MissingNewFriend(v: LoanForm) {
    v.friendId == NewFriendSentinel && (Falsy(v.newFriendName) || Falsy(v.newFriendContact))
  }

  /** A form the schema accepts never reaches that guard. */
  lemma AcceptedFormHasNewFriend(v: LoanForm)
    requires LoanFormErrors(v) == {}
    ensures !MissingNewFriend(v) && v.loanDate.Some?
  {
  }

  /**
   * `onLoanSubmit`. `friends` is the store's friend list, `editingLoan` the
   * loan being edited, and `createdFriendId` the id the store gives a friend
   * it creates. The form's loan date is set (the schema requires it).
   */
  method SubmitLoan(friends: seq<Friend>, values: LoanForm, editingLoan: Option<Loan>, createdFriendId: string)
    returns (friendsAfter: seq<Friend>, action: LoanAction)
    requires values.loanDate.Some?
    ensures action == NoAction <==> MissingNewFriend(values)
    ensures action == NoAction ==> friendsAfter == friends
    ensures action != NoAction ==>
      && action.payload == PayloadOf(values)
      && (editingLoan.Some? ==> action.UpdateLoan? && action.loanId == editingLoan.value.id)
      && (editingLoan.None? ==> action.CreateLoan?)
    ensures action != NoAction && values.friendId != NewFriendSentinel ==>
      friendsAfter == friends && action.friendId == values.friendId
    ensures action != NoAction && values.friendId == NewFriendSentinel ==>
      var existing := FindFriendByName(friends, values.newFriendName.value);
      && (existing.Some? ==> friendsAfter == friends && action.friendId == existing.value.id)
      && (existing.None? ==>
            friendsAfter == friends + [Friend(createdFriendId, values.newFriendName.value, values.newFriendContact.value)] &&
            action.friendId == createdFriendId)
    ensures UniqueNames(friends) ==> UniqueNames(friendsAfter)
    ensures UniqueIds(friends) && (forall f :: f in friends ==> f.id != createdFriendId) ==> UniqueIds(friendsAfter)
  {
    friendsAfter := friends;
    var friendId := values.friendId;
    if values.friendId == NewFriendSentinel {
      if Falsy(values.newFriendName) || Falsy(values.newFriendContact) {
        return friendsAfter, NoAction;
      }
      var existingFriend := FindFriendByName(friends, values.newFriendName.value);
      if existingFriend.Some? {
        friendId := existingFriend.value.id;
      } else {
        var newFriend := Friend(createdFriendId, values.newFriendName.value, values.newFriendContact.value);
        friendsAfter := friends + [newFriend];
        friendId := newFriend.id;
      }
    }
    var loanPayload := PayloadOf(values);
    if editingLoan.Some? {
      action := UpdateLoan(editingLoan.value.id, loanPayload, friendId);
    } else {
      action := CreateLoan(loanPayload, friendId);
    }
  }
}
