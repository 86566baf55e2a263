/** The four-step KYC form: a step counter moved by Next and Previous, the
    personal-information fields, the uploaded identity documents and the
    show-Aadhaar toggle. */
module Kyc {
  import opened Wrappers
  import Browser

  const FirstStep: int := 1
  const LastStep: int := 4

  /** The step after `nextStep`: one further, but never past the last step. */
  function Next(step: int): int {
    if step < LastStep then step + 1 else step
  }

  /** The step after `prevStep`: one back, but never before the first step. */
  function Prev(step: int): int {
    if step > FirstStep then step - 1 else step
  }

  predicate InRange(step: int) {
    FirstStep <= step <= LastStep
  }

  /** Both moves keep the step in 1..4 and move it by at most one. */
  lemma MovesStayInRange(step: int)
    requires InRange(step)
    ensures InRange(Next(step)) && InRange(Prev(step))
    ensures Next(step) == step + 1 || (step == LastStep && Next(step) == step)
    ensures Prev(step) == step - 1 || (step == FirstStep && Prev(step) == step)
  {
  }

  /** Going back then forward returns to the step one started from, except at
      step 1; going forward then back does, except at step 4. */
  lemma BackAndForth(step: int)
    requires InRange(step)
    ensures step > FirstStep ==> Next(Prev(step)) == step
    ensures step < LastStep ==> Prev(Next(step)) == step
    ensures step == FirstStep ==> Next(Prev(step)) == step + 1
    ensures step == LastStep ==> Prev(Next(step)) == step - 1
  {
  }

  datatype Move = Forward | Back

  function Walk(step: int, moves: seq<Move>): int
    decreases |moves|
  {
    if moves == [] then step
    else Walk(if moves[0] == Forward then Next(step) else Prev(step), moves[1..])
  }

  /** Whatever buttons are pressed, the step never leaves 1..4. */
  lemma {:induction false} WalkStaysInRange(step: int, moves: seq<Move>)
    requires InRange(step)
    ensures InRange(Walk(step, moves))
    decreases |moves|
  {
    if moves != [] {
      MovesStayInRange(step);
      WalkStaysInRange(if moves[0] == Forward then Next(step) else Prev(step), moves[1..]);
    }
  }

  function ForwardCount(moves: seq<Move>): nat
    decreases |moves|
  {
    if moves == [] then 0 else (if moves[0] == Forward then 1 else 0) + ForwardCount(moves[1..])
  }

  /** No skipping: each press moves by one step at most, so the step is never
      more than the starting step plus the number of forward presses. */
  lemma {:induction false} WalkNoSkipping(step: int, moves: seq<Move>)
    ensures Walk(step, moves) <= step + ForwardCount(moves)
    decreases |moves|
  {
    if moves != [] {
      WalkNoSkipping(if moves[0] == Forward then Next(step) else Prev(step), moves[1..]);
    }
  }

  /** The four step circles: circle k (1-based) is highlighted when the
      current step has reached it. */
  function Indicators(step: int): seq<bool> {
    [step >= 1, step >= 2, step >= 3, step >= 4]
  }

  /** The three connectors between circles: the one after circle k is filled
      once the current step has passed k. */
  function Connectors(step: int): seq<bool> {
    [step > 1, step > 2, step > 3]
  }

  /** The highlighted circles are exactly the first `step` ones, and a
      connector is filled exactly when the circle it leads to is highlighted. */
  lemma ProgressIsAPrefix(step: int)
    requires InRange(step)
    ensures |Indicators(step)| == 4 && |Connectors(step)| == 3
    ensures forall k :: 0 <= k < 4 ==> (Indicators(step)[k] <==> k < step)
    ensures forall k :: 0 <= k < 3 ==> (Connectors(step)[k] <==> Indicators(step)[k + 1])
  {
  }

  /** The Previous and Next buttons are drawn only before the last step. */
  function ShowsButtons(step: int): bool {
    step < LastStep
  }

  /** Previous is disabled on the first step. */
  function PreviousDisabled(step: int): bool {
    step == FirstStep
  }

  function ForwardLabel(step: int): string {
    if step == 3 then "Complete Verification" else "Next"
  }

  /** The forward button reads "Complete Verification" exactly when pressing
      it reaches the completion step, and the buttons disappear once there. */
  lemma ForwardLabelAnnouncesCompletion(step: int)
    requires InRange(step) && ShowsButtons(step)
    ensures ForwardLabel(step) == "Complete Verification" <==> Next(step) == LastStep
    ensures !ShowsButtons(Next(step)) <==> ForwardLabel(step) == "Complete Verification"
    ensures PreviousDisabled(step) <==> Prev(step) == step
  {
  }

  function InitialForm(): map<string, string> {
    map["fullName" := "", "dateOfBirth" := "", "address" := "", "panNumber" := "", "aadhaarNumber" := ""]
  }

  function InitialDocuments(): map<string, Option<Browser.FileInfo>> {
    map["aadhaar" := None, "pan" := None, "selfie" := None]
  }

  /** `files[0]` of a picker's list: the first file, or nothing when the
      list is empty. */
  function FirstFile(files: seq<Browser.FileInfo>): (r: Option<Browser.FileInfo>)
    ensures r.Some? <==> |files| > 0
    ensures r.Some? ==> r.value in files && r.value == files[0]
  {
    if files == [] then None else Some(files[0])
  }

  class KycProcess {
    var currentStep: int
    var formData: map<string, string>
    var uploadedDocuments: map<string, Option<Browser.FileInfo>>
    var showAadhaar: bool

    ghost predicate Valid()
      reads this
    {
      InRange(currentStep)
    }

    constructor ()
      ensures Valid()
      ensures currentStep == FirstStep
      ensures formData == InitialForm() && uploadedDocuments == InitialDocuments()
      ensures !showAadhaar
    {
      currentStep := FirstStep;
      formData := InitialForm();
      uploadedDocuments := InitialDocuments();
      showAadhaar := false;
    }

    method NextStep()
      requires Valid()
      modifies this`currentStep
      ensures Valid()
      ensures currentStep == Next(old(currentStep))
    {
      if currentStep < LastStep {
        currentStep := currentStep + 1;
      }
    }

    method PrevStep()
      requires Valid()
      modifies this`currentStep
      ensures Valid()
      ensures currentStep == Prev(old(currentStep))
    {
      if currentStep > FirstStep {
        currentStep := currentStep - 1;
      }
    }

    /** The input named `name` now holds `value`; every other field keeps its
        value. An unknown name adds a field, as the object spread does. */
    method HandleInputChange(name: string, value: string)
      modifies this`formData
      ensures formData == old(formData)[name := value]
      ensures forall k :: k in old(formData) && k != name ==> k in formData && formData[k] == old(formData)[k]
    {
      formData := formData[name := value];
    }

    /** The slot `documentType` now holds `file`, which is `None` when the
        picker's list was empty (`files[0]` is then `undefined` and clears the
        slot); every other slot is kept. */
    method HandleFileUpload(documentType: string, file: Option<Browser.FileInfo>)
      modifies this`uploadedDocuments
      ensures uploadedDocuments == old(uploadedDocuments)[documentType := file]
      ensures forall k :: k in old(uploadedDocuments) && k != documentType ==>
        k in uploadedDocuments && uploadedDocuments[k] == old(uploadedDocuments)[k]
    {
      uploadedDocuments := uploadedDocuments[documentType := file];
    }

    /** The picker's `onChange`: the first chosen file goes to the slot. */
    method ChooseDocument(documentType: string, files: seq<Browser.FileInfo>)
      modifies this`uploadedDocuments
      ensures files != [] ==> uploadedDocuments == old(uploadedDocuments)[documentType := Some(files[0])]
      ensures files == [] ==> uploadedDocuments == old(uploadedDocuments)[documentType := None]
    {
      HandleFileUpload(documentType, FirstFile(files));
    }

    method ToggleAadhaar()
      modifies this`showAadhaar
      ensures showAadhaar == !old(showAadhaar)
    {
      showAadhaar := !showAadhaar;
    }
  }

  /** From a fresh form, three presses of the forward button reach the
      completion panel and a fourth changes nothing. */
  method CompleteTheFlow() returns (k: KycProcess, afterThree: int)
    ensures fresh(k) && k.Valid()
    ensures afterThree == LastStep && k.currentStep == afterThree
  {
    k := new KycProcess();
    k.NextStep();
    k.NextStep();
    k.NextStep();
    afterThree := k.currentStep;
    k.NextStep();
  }
}
