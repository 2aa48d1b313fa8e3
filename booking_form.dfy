/** The three-step booking wizard of src/components/BookingForm.tsx: travel
    details, personal information, review and confirm. */
module BookingForm {
  import opened Gateway
  import opened Js
  import opened FormFields

  /** The signed-in user as the auth context gives it; `fullName` is
      `user_metadata.full_name`. */
  datatype User = User(id: string, fullName: Option<string>, email: Option<string>)

  datatype Package = Package(
    id: string,
    name: string,
    description: string,
    durationDays: int,
    price: int,
    destinations: seq<string>,
    inclusions: seq<string>,
    exclusions: seq<string>,
    images: seq<string>)

  /** The `bookingData` state record. */
  datatype BookingData = BookingData(
    guestName: string,
    guestEmail: string,
    guestPhone: string,
    travelDate: string,
    groupSize: int,
    budgetRange: string,
    specialRequests: string)

  /** The keys `handleInputChange` is called with. */
  datatype BookingField = GuestName | GuestEmail | GuestPhone | TravelDate | GroupSize | BudgetRange | SpecialRequests

  datatype FieldValue = Text(text: string) | Number(n: int)

  /** The call sites pass a number for `group_size` and text for every other key. */
  predicate ValueFits(field: BookingField, value: FieldValue) {
    (field == GroupSize) == value.Number?
  }

  function FieldOf(d: BookingData, field: BookingField): (v: FieldValue)
    ensures ValueFits(field, v)
  {
    match field
    case GuestName => Text(d.guestName)
    case GuestEmail => Text(d.guestEmail)
    case GuestPhone => Text(d.guestPhone)
    case TravelDate => Text(d.travelDate)
    case GroupSize => Number(d.groupSize)
    case BudgetRange => Text(d.budgetRange)
    case SpecialRequests => Text(d.specialRequests)
  }

  /** `{ ...prev, [field]: value }`: the named field takes the value and every
      other field keeps its own. */
  function WithField(d: BookingData, field: BookingField, value: FieldValue): (r: BookingData)
    requires ValueFits(field, value)
    ensures FieldOf(r, field) == value
    ensures forall g :: g != field ==> FieldOf(r, g) == FieldOf(d, g)
  {
    match field
    case GuestName => d.(guestName := value.text)
    case GuestEmail => d.(guestEmail := value.text)
    case GuestPhone => d.(guestPhone := value.text)
    case TravelDate => d.(travelDate := value.text)
    case GroupSize => d.(groupSize := value.n)
    case BudgetRange => d.(budgetRange := value.text)
    case SpecialRequests => d.(specialRequests := value.text)
  }

  /** `x || ''` for an optional text. */
  function TextOrEmpty(t: Option<string>): string {
    if t.Some? && t.value != "" then t.value else ""
  }

  /** The initial `bookingData`: the guest's name and e-mail come from the
      signed-in user when known, the group size is 1 and the rest is empty. */
  function InitialBookingData(user: Option<User>): (d: BookingData)
    ensures FieldOf(d, GuestName) == Text(if user.Some? then TextOrEmpty(user.value.fullName) else "")
    ensures FieldOf(d, GuestEmail) == Text(if user.Some? then TextOrEmpty(user.value.email) else "")
    ensures FieldOf(d, GroupSize) == Number(1)
    ensures forall f :: f !in {GuestName, GuestEmail, GroupSize} ==> FieldOf(d, f) == Text("")
  {
    var name := if user.Some? then TextOrEmpty(user.value.fullName) else "";
    var email := if user.Some? then TextOrEmpty(user.value.email) else "";
    BookingData(name, email, "", "", 1, "", "")
  }

  /** `calculateTotal()`. */
  function CalculateTotal(pkg: Package, d: BookingData): int {
    pkg.price * d.groupSize
  }

  /** The one row handed to the bookings insert: the booking data spread
      flat between the package id and the total. */
  datatype BookingRow = BookingRow(
    userId: Option<string>,
    packageId: string,
    guestName: string,
    guestEmail: string,
    guestPhone: string,
    travelDate: string,
    groupSize: int,
    budgetRange: string,
    specialRequests: string,
    totalAmount: int,
    status: string)

  /** The booking data a row carries. */
  function RowData(row: BookingRow): BookingData {
    BookingData(row.guestName, row.guestEmail, row.guestPhone, row.travelDate,
                row.groupSize, row.budgetRange, row.specialRequests)
  }

  const PendingStatus: string := "pending"

  /** The row of `handleSubmitBooking`: the user's id (`null` when signed out
      or empty), the package, every booking field, the total and "pending". */
  function BookingRowFor(user: Option<User>, pkg: Package, d: BookingData): (row: BookingRow)
    ensures RowData(row) == d
    ensures row.userId.Some? <==> user.Some? && user.value.id != ""
    ensures row.userId.Some? ==> row.userId.value == user.value.id
    ensures row.packageId == pkg.id && row.status == PendingStatus
    ensures row.totalAmount == CalculateTotal(pkg, d)
  {
    var userId := if user.Some? && user.value.id != "" then Some(user.value.id) else None;
    BookingRow(userId, pkg.id, d.guestName, d.guestEmail, d.guestPhone, d.travelDate,
               d.groupSize, d.budgetRange, d.specialRequests, CalculateTotal(pkg, d), PendingStatus)
  }

  const SubmittedToast: Toast :=
    Toast("Booking Submitted!", "We'll contact you within 24 hours to confirm your booking details.", false)

  function FailedToast(message: string): Toast {
    Toast("Booking Failed", message, true)
  }

  // ---- The step machine ----

  const FirstStep: int := 1
  const LastStep: int := 3

  datatype StepMove = Forward | Back

  /** `nextStep` and `prevStep`: each moves one step unless already at the end. */
  function Moved(step: int, move: StepMove): int {
    match move
    case Forward => if step < LastStep then step + 1 else step
    case Back => if step > FirstStep then step - 1 else step
  }

  function AfterMoves(step: int, moves: seq<StepMove>): int
    decreases |moves|
  {
    if |moves| == 0 then step else AfterMoves(Moved(step, moves[0]), moves[1..])
  }

  /** A move changes the step by exactly one, except `nextStep` on the last
      step and `prevStep` on the first, which change nothing. */
  lemma MoveEffect(step: int, move: StepMove)
    requires FirstStep <= step <= LastStep
    ensures FirstStep <= Moved(step, move) <= LastStep
    ensures Moved(step, move) == step <==>
      (move == Forward && step == LastStep) || (move == Back && step == FirstStep)
    ensures Moved(step, move) != step ==> Moved(step, move) == (if move == Forward then step + 1 else step - 1)
  {
  }

  /** The step stays within 1..3 under any sequence of moves. */
  lemma {:induction false} StepStaysInRange(step: int, moves: seq<StepMove>)
    requires FirstStep <= step <= LastStep
    ensures FirstStep <= AfterMoves(step, moves) <= LastStep
    decreases |moves|
  {
    if |moves| > 0 {
      MoveEffect(step, moves[0]);
      StepStaysInRange(Moved(step, moves[0]), moves[1..]);
    }
  }

  function CountForward(moves: seq<StepMove>): nat {
    if |moves| == 0 then 0 else (if moves[0] == Forward then 1 else 0) + CountForward(moves[1..])
  }

  /** The step never gets further ahead than the number of `nextStep` calls. */
  lemma {:induction false} AdvanceNeedsForwardMoves(step: int, moves: seq<StepMove>)
    ensures AfterMoves(step, moves) <= step + CountForward(moves)
    decreases |moves|
  {
    if |moves| > 0 {
      AdvanceNeedsForwardMoves(Moved(step, moves[0]), moves[1..]);
    }
  }

  /** The review step, where the confirm button is, takes at least two
      `nextStep` calls from the start: no step is skipped. */
  lemma ConfirmNeedsTwoForwardMoves(moves: seq<StepMove>)
    requires AfterMoves(FirstStep, moves) == LastStep
    ensures CountForward(moves) >= 2
  {
    AdvanceNeedsForwardMoves(FirstStep, moves);
  }

  // ---- The step indicator and the navigation buttons ----

  /** Circle `n` of the progress indicator: highlighted when `step >= n`,
      showing a check mark (and a highlighted connector) when `step > n`. */
  datatype StepBadge = StepBadge(highlighted: bool, done: bool)

  function Badge(step: int, n: int): StepBadge {
    StepBadge(step >= n, step > n)
  }

  function Indicator(step: int): seq<StepBadge> {
    [Badge(step, 1), Badge(step, 2), Badge(step, 3)]
  }

  function CountDone(badges: seq<StepBadge>): nat {
    if |badges| == 0 then 0 else (if badges[0].done then 1 else 0) + CountDone(badges[1..])
  }

  function CountHighlighted(badges: seq<StepBadge>): nat {
    if |badges| == 0 then 0 else (if badges[0].highlighted then 1 else 0) + CountHighlighted(badges[1..])
  }

  /** The confirm button replaces "Next Step" once `step < 3` fails. */
  predicate ShowsConfirm(step: int) {
    !(step < 3)
  }

  predicate PreviousDisabled(step: int) {
    step == 1
  }

  /** On a reachable step, the indicator shows `step - 1` check marks and
      `step` highlighted circles, every checked circle is highlighted, the
      confirm button appears exactly on step 3 and "Previous" is disabled
      exactly on step 1. */
  lemma IndicatorMatchesStep(step: int)
    requires FirstStep <= step <= LastStep
    ensures CountDone(Indicator(step)) == step - 1
    ensures CountHighlighted(Indicator(step)) == step
    ensures forall i :: 0 <= i < 3 && Indicator(step)[i].done ==> Indicator(step)[i].highlighted
    ensures ShowsConfirm(step) <==> step == LastStep
    ensures PreviousDisabled(step) <==> step == FirstStep
  {
    var ind := Indicator(step);
    assert ind[1..][1..][1..] == [];
  }

  /** With a size chosen from the select and a non-negative price, the total
      lies between one and ten times the price. */
  lemma TotalForChosenGroupSize(pkg: Package, d: BookingData, choice: string)
    requires pkg.price >= 0 && choice in GroupSizeChoices()
    ensures ParseInt(choice).Some?
    ensures var d' := WithField(d, GroupSize, Number(ParseInt(choice).value));
      pkg.price <= CalculateTotal(pkg, d') <= MaxGroupSize * pkg.price
  {
    ChoiceParsesToGroupSize(choice);
    var g := ParseInt(choice).value;
    var d' := WithField(d, GroupSize, Number(g));
    assert FieldOf(d', GroupSize) == Number(g);
    ScaleBounds(pkg.price, d'.groupSize);
  }

  lemma ScaleBounds(p: int, g: int)
    requires p >= 0 && MinGroupSize <= g <= MaxGroupSize
    ensures p <= p * g <= MaxGroupSize * p
  {
    assert p * g - p == p * (g - 1);
    assert p * (g - 1) >= 0;
    assert MaxGroupSize * p - p * g == p * (MaxGroupSize - g);
    assert p * (MaxGroupSize - g) >= 0;
  }

  /** The component: its state and the handlers that change it. The package,
      the gateway and `onClose` are the props it is given; `user` is what the
      auth context gives on the latest render, and `closeCalls` counts the
      calls to `onClose`. */
  class Wizard {
    const selectedPackage: Package
    var user: Option<User>
    var step: int
    var bookingData: BookingData
    var toasts: seq<Toast>
    /** The rows handed to the insert into `bookings_2025_10_14_17_34`. */
    var submittedRows: seq<BookingRow>
    var closeCalls: nat

    ghost predicate Valid()
      reads this
    {
      FirstStep <= step <= LastStep
    }

    constructor (selectedPackage: Package, user: Option<User>)
      ensures Valid()
      ensures this.selectedPackage == selectedPackage && this.user == user
      ensures step == FirstStep && bookingData == InitialBookingData(user)
      ensures toasts == [] && submittedRows == [] && closeCalls == 0
    {
      this.selectedPackage := selectedPackage;
      this.user := user;
      step := FirstStep;
      bookingData := InitialBookingData(user);
      toasts := [];
      submittedRows := [];
      closeCalls := 0;
    }

    /** A new value from the auth context (signing in or out while the wizard
      is open). `bookingData` was seeded once, on the first render, and keeps
      what it holds; only the row's `user_id` follows the new user. */
    method AuthChanged(newUser: Option<User>)
      modifies this`user
      ensures user == newUser
    {
      user := newUser;
    }

    method NextStep()
      requires Valid()
      modifies this`step
      ensures Valid() && step == Moved(old(step), Forward)
    {
      if step < 3 {
        step := step + 1;
      }
    }

    method PrevStep()
      requires Valid()
      modifies this`step
      ensures Valid() && step == Moved(old(step), Back)
    {
      if step > 1 {
        step := step - 1;
      }
    }

    method HandleInputChange(field: BookingField, value: FieldValue)
      requires ValueFits(field, value)
      modifies this`bookingData
      ensures bookingData == WithField(old(bookingData), field, value)
    {
      bookingData := WithField(bookingData, field, value);
    }

    /** The group-size select's change handler: `parseInt` of the option value. */
    method SelectGroupSize(choice: string)
      requires choice in GroupSizeChoices()
      modifies this`bookingData
      ensures ParseInt(choice).Some? && MinGroupSize <= bookingData.groupSize <= MaxGroupSize
      ensures bookingData == WithField(old(bookingData), GroupSize, Number(ParseInt(choice).value))
    {
      ChoiceParsesToGroupSize(choice);
      var n := ParseInt(choice);
      HandleInputChange(GroupSize, Number(n.value));
    }

    /** `handleSubmitBooking`, given what the insert call produced: the row is
      always handed over; only an insert without error closes the wizard, and
      a returned error and a thrown one both end in one "Booking Failed" toast
      carrying the error's message. */
    method HandleSubmitBooking(outcome: InsertOutcome)
      modifies this`toasts, this`submittedRows, this`closeCalls
      ensures submittedRows == old(submittedRows) + [BookingRowFor(user, selectedPackage, bookingData)]
      ensures outcome.Inserted? ==> toasts == old(toasts) + [SubmittedToast] && closeCalls == old(closeCalls) + 1
      ensures !outcome.Inserted? ==>
        toasts == old(toasts) + [FailedToast(outcome.message)] && closeCalls == old(closeCalls)
    {
      submittedRows := submittedRows + [BookingRowFor(user, selectedPackage, bookingData)];
      var caught: Option<string> := None;
      match outcome {
        case Inserted =>
        case Rejected(message) => caught := Some(message);  // `if (error) throw error`
        case Threw(message) => caught := Some(message);
      }
      if caught.None? {
        toasts := toasts + [SubmittedToast];
        closeCalls := closeCalls + 1;
      } else {
        toasts := toasts + [FailedToast(caught.value)];
      }
    }
  }

  /** A visitor who opens the wizard signed out and signs in before
      submitting sends a row carrying their id but the empty name and e-mail
      the form started with. */
  method SignInAfterOpening(pkg: Package, u: User, outcome: InsertOutcome) returns (row: BookingRow)
    ensures row.userId == (if u.id != "" then Some(u.id) else None)
    ensures row.guestName == "" && row.guestEmail == ""
    ensures row.packageId == pkg.id
  {
    var w := new Wizard(pkg, None);
    w.AuthChanged(Some(u));
    w.HandleSubmitBooking(outcome);
    row := w.submittedRows[0];
  }
}
