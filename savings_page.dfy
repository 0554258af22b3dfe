/** SavingsPage: each goal's progress, the capped progress bar and the
    completion badge, and the add-goal and add-savings handlers. */
module SavingsPage {
  import opened Common
  import opened Text
  import opened Records

  // ---------------------------------------------------------------------------
  // Progress

  /** A JavaScript number as the progress expression can produce it: a finite
      value, or what a division by a zero target gives. */
  datatype Progress = Finite(value: real) | PositiveInfinity | NegativeInfinity | NotANumber

  /** `(goal.currentAmount / goal.targetAmount) * 100`, exactly (no float rounding). */
  function GoalProgress(goal: SavingsGoal): (p: Progress)
    ensures goal.targetAmount != 0 ==> p.Finite? && p.value * (goal.targetAmount as real) == (goal.currentAmount as real) * 100.0
    ensures goal.targetAmount == 0 && goal.currentAmount > 0 ==> p == PositiveInfinity
    ensures goal.targetAmount == 0 && goal.currentAmount < 0 ==> p == NegativeInfinity
    ensures goal.targetAmount == 0 && goal.currentAmount == 0 ==> p == NotANumber
  {
    if goal.targetAmount != 0 then Finite((goal.currentAmount as real) / (goal.targetAmount as real) * 100.0)
    else if goal.currentAmount > 0 then PositiveInfinity
    else if goal.currentAmount < 0 then NegativeInfinity
    else NotANumber
  }

  /** `p <= 100` in JavaScript (false for NaN). */
  predicate AtMostHundred(p: Progress) {
    match p
    case Finite(v) => v <= 100.0
    case PositiveInfinity => false
    case NegativeInfinity => true
    case NotANumber => false
  }

  /** The bar width, `Math.min(progress, 100)`; NaN stays NaN. */
  function BarWidth(p: Progress): (w: Progress)
    ensures p.NotANumber? <==> w.NotANumber?
    ensures !w.NotANumber? ==> AtMostHundred(w)
    ensures AtMostHundred(p) ==> w == p
  {
    match p
    case Finite(v) => Finite(if v <= 100.0 then v else 100.0)
    case PositiveInfinity => Finite(100.0)
    case NegativeInfinity => NegativeInfinity
    case NotANumber => NotANumber
  }

  /** `progress >= 100`: the "Goal Completed!" badge. */
  predicate Completed(p: Progress) {
    match p
    case Finite(v) => v >= 100.0
    case PositiveInfinity => true
    case NegativeInfinity => false
    case NotANumber => false
  }

  /** The badge shows exactly when the bar is full. */
  lemma CompletedIffFullBar(p: Progress)
    ensures Completed(p) <==> BarWidth(p) == Finite(100.0)
  {
  }

  /** For a positive target the badge shows exactly when the saved amount has
      reached the target. */
  lemma CompletedIffReached(goal: SavingsGoal)
    requires goal.targetAmount > 0
    ensures Completed(GoalProgress(goal)) <==> goal.currentAmount >= goal.targetAmount
  {
    var t := goal.targetAmount as real;
    var c := goal.currentAmount as real;
    var v := GoalProgress(goal).value;
    assert v * t == c * 100.0;
    assert (v - 100.0) * t == (c - t) * 100.0;
    SignOfProduct(v - 100.0, t);
  }

  /** Multiplying by a positive number keeps the sign. */
  lemma SignOfProduct(a: real, t: real)
    requires t > 0.0
    ensures a >= 0.0 <==> a * t >= 0.0
  {
    if a < 0.0 {
      assert (0.0 - a) * t > 0.0;
    }
  }

  /** A goal with a zero target shows as completed as soon as anything is saved,
      and a goal with nothing saved and a zero target never does. */
  lemma ZeroTarget(goal: SavingsGoal)
    requires goal.targetAmount == 0
    ensures Completed(GoalProgress(goal)) <==> goal.currentAmount > 0
  {
  }

  // ---------------------------------------------------------------------------
  // Handlers

  /** The body of `createGoal`; the target is `Number(targetAmount)`, None where that is NaN or not an integer. */
  datatype NewGoal = NewGoal(title: string, targetAmount: Option<int>, image: string)

  /** The body of `addSavingsToGoal`. */
  datatype Deposit = Deposit(goalId: string, amount: Option<int>)

  /** What `handleAddGoal` dispatches: nothing without a title or a target
      text (a typed "0" passes); the image is the uploaded URL when a file
      was chosen, and "" otherwise. */
  function GoalRequest(title: string, targetAmount: string, hasImage: bool, uploadedUrl: string): (r: Option<NewGoal>)
    ensures r.None? <==> title == "" || targetAmount == ""
    ensures r.Some? ==> r.value.title == title && r.value.targetAmount == ParseNumber(targetAmount)
    ensures r.Some? ==> r.value.image == if hasImage then uploadedUrl else ""
  {
    if title == "" || targetAmount == "" then None
    else Some(NewGoal(title, ParseNumber(targetAmount), if hasImage then uploadedUrl else ""))
  }

  /** What the modal's Save button dispatches: nothing for an empty amount. */
  function DepositRequest(goal: SavingsGoal, amountToAdd: string): (r: Option<Deposit>)
    ensures r.None? <==> amountToAdd == ""
    ensures r.Some? ==> r.value.goalId == goal.id && r.value.amount == ParseNumber(amountToAdd)
  {
    if amountToAdd == "" then None else Some(Deposit(goal.id, ParseNumber(amountToAdd)))
  }

  /** A target typed as the number's own text reaches the request as that number. */
  lemma TypedTargetArrives(title: string, n: int, hasImage: bool, uploadedUrl: string)
    requires title != ""
    ensures GoalRequest(title, Show(n), hasImage, uploadedUrl).Some?
    ensures GoalRequest(title, Show(n), hasImage, uploadedUrl).value.targetAmount == Some(n)
  {
    ParseShow(n);
  }

  /** The page's form and modal state. The chosen file and its preview are
      represented by the file's name and the object URL made for it. */
  class SavingsPageState {
    var title: string
    var targetAmount: string
    var imageFile: Option<string>
    var imagePreview: Option<string>
    var selectedGoal: Option<SavingsGoal>
    var amountToAdd: string
    var showModal: bool

    constructor ()
      ensures title == "" && targetAmount == "" && imageFile == None && imagePreview == None
      ensures selectedGoal == None && amountToAdd == "" && !showModal
    {
      title := "";
      targetAmount := "";
      imageFile := None;
      imagePreview := None;
      selectedGoal := None;
      amountToAdd := "";
      showModal := false;
    }

    /** `handleImageChange`: no file, no change; otherwise the file and its preview URL. */
    method ChooseImage(file: Option<string>, previewUrl: string)
      modifies this
      ensures file.None? ==> imageFile == old(imageFile) && imagePreview == old(imagePreview)
      ensures file.Some? ==> imageFile == file && imagePreview == Some(previewUrl)
      ensures title == old(title) && targetAmount == old(targetAmount)
      ensures selectedGoal == old(selectedGoal) && amountToAdd == old(amountToAdd) && showModal == old(showModal)
    {
      if file.Some? {
        imageFile := file;
        imagePreview := Some(previewUrl);
      }
    }

    /** `handleAddGoal`; `uploadedUrl` is the `secure_url` the image upload returns. */
    method AddGoal(uploadedUrl: string) returns (request: Option<NewGoal>)
      modifies this
      ensures request == GoalRequest(old(title), old(targetAmount), old(imageFile).Some?, uploadedUrl)
      ensures request.None? ==> title == old(title) && targetAmount == old(targetAmount)
                                && imageFile == old(imageFile) && imagePreview == old(imagePreview)
      ensures request.Some? ==> title == "" && targetAmount == "" && imageFile == None && imagePreview == None
      ensures selectedGoal == old(selectedGoal) && amountToAdd == old(amountToAdd) && showModal == old(showModal)
    {
      request := GoalRequest(title, targetAmount, imageFile.Some?, uploadedUrl);
      if request.Some? {
        ClearGoalForm();
      }
    }

    /** The resets at the end of `handleAddGoal`. */
    method ClearGoalForm()
      modifies this
      ensures title == "" && targetAmount == "" && imageFile == None && imagePreview == None
      ensures selectedGoal == old(selectedGoal) && amountToAdd == old(amountToAdd) && showModal == old(showModal)
    {
      title := "";
      targetAmount := "";
      imageFile := None;
      imagePreview := None;
    }

    /** A goal card's "Add Savings" button. */
    method OpenAddSavings(goal: SavingsGoal)
      modifies this
      ensures selectedGoal == Some(goal) && showModal
      ensures amountToAdd == old(amountToAdd)
      ensures title == old(title) && targetAmount == old(targetAmount)
      ensures imageFile == old(imageFile) && imagePreview == old(imagePreview)
    {
      selectedGoal := Some(goal);
      showModal := true;
    }

    /** The modal's Cancel button: only the modal closes. */
    method CancelAddSavings()
      modifies this
      ensures !showModal
      ensures selectedGoal == old(selectedGoal) && amountToAdd == old(amountToAdd)
      ensures title == old(title) && targetAmount == old(targetAmount)
      ensures imageFile == old(imageFile) && imagePreview == old(imagePreview)
    {
      showModal := false;
    }

    /** The modal's Save button, shown only while the modal is open on a goal:
        nothing for an empty amount; otherwise the deposit is requested, the
        modal closes and the amount and the goal are cleared. The deposit
        thunk is not defined by the slices; what that does to the handler is
        under "Left out" in README.md. */
    method SaveSavings() returns (request: Option<Deposit>)
      requires showModal && selectedGoal.Some?
      modifies this
      ensures request == DepositRequest(old(selectedGoal).value, old(amountToAdd))
      ensures request.None? ==> showModal && selectedGoal == old(selectedGoal) && amountToAdd == old(amountToAdd)
      ensures request.Some? ==> !showModal && selectedGoal == None && amountToAdd == ""
      ensures title == old(title) && targetAmount == old(targetAmount)
      ensures imageFile == old(imageFile) && imagePreview == old(imagePreview)
    {
      request := DepositRequest(selectedGoal.value, amountToAdd);
      if request.Some? {
        CloseDeposit();
      }
    }

    /** The resets after a deposit is requested. */
    method CloseDeposit()
      modifies this
      ensures !showModal && selectedGoal == None && amountToAdd == ""
      ensures title == old(title) && targetAmount == old(targetAmount)
      ensures imageFile == old(imageFile) && imagePreview == old(imagePreview)
    {
      showModal := false;
      amountToAdd := "";
      selectedGoal := None;
    }
  }
}
