/** The visa-application wizard of the chancellery screen: a four-page step counter
    moved by Back and Continue (Continue on the last page submits and starts over),
    the stepper markers drawn from it, and the passport-scan autofill of the form. */
module VisaWizard {
  import opened Types

  const FirstStep := 1
  const LastStep := 4

  /** The read-only personal-information fields of the first page. */
  datatype FormData = FormData(firstName: string, lastName: string, passportNumber: string, nationality: string)

  function EmptyForm(): FormData {
    FormData("", "", "", "")
  }

  /** What the autofill writes; nothing is read from a passport. */
  function ScannedForm(): FormData {
    FormData("MICHAEL", "KABEYA", "COD-998273-X", "CONGOLESE")
  }

  /** Continue: one page on, and from the last page back to the first. */
  function NextStep(step: int): (r: int)
    ensures FirstStep <= step <= LastStep ==> FirstStep <= r <= LastStep
    ensures step < LastStep ==> r == step + 1
    ensures step >= LastStep ==> r == FirstStep
  {
    if step < LastStep then step + 1 else FirstStep
  }

  /** Back: one page back, and nothing on the first page. */
  function PrevStep(step: int): (r: int)
    ensures FirstStep <= step <= LastStep ==> FirstStep <= r <= LastStep
    ensures step > FirstStep ==> r == step - 1
    ensures step <= FirstStep ==> r == step
  {
    if step > FirstStep then step - 1 else step
  }

  /** Back undoes a Continue that did not submit, and Continue undoes a Back that moved. */
  lemma BackUndoesContinue(step: int)
    ensures FirstStep <= step < LastStep ==> PrevStep(NextStep(step)) == step
    ensures FirstStep < step <= LastStep ==> NextStep(PrevStep(step)) == step
  {
  }

  /** Continuing four times from any page returns to it, and the last page (where
      Continue submits) is passed exactly once on the way. */
  lemma FourContinuesCycle(step: int)
    requires FirstStep <= step <= LastStep
    ensures Iterate(step, 4) == step
    ensures forall k :: 0 <= k < 4 ==> (Iterate(step, k) == LastStep <==> k == LastStep - step)
  {
    var last := LastStep - step;
    IterateBelowLast(step, last);
    assert Iterate(step, last + 1) == FirstStep;
    IterateSplit(step, last + 1, 3 - last);
    IterateBelowLast(FirstStep, 3 - last);
    forall k | 0 <= k < 4
      ensures Iterate(step, k) == LastStep <==> k == last
    {
      if k < last {
        IterateBelowLast(step, k);
      } else if k > last {
        IterateSplit(step, last + 1, k - last - 1);
        IterateBelowLast(FirstStep, k - last - 1);
      }
    }
  }

  /** The page reached after k Continues. */
  function Iterate(step: int, k: nat): int {
    if k == 0 then step else NextStep(Iterate(step, k - 1))
  }

  lemma {:induction false} IterateBelowLast(step: int, k: nat)
    requires step + k <= LastStep
    ensures Iterate(step, k) == step + k
  {
    if k > 0 {
      IterateBelowLast(step, k - 1);
    }
  }

  lemma {:induction false} IterateSplit(step: int, j: nat, k: nat)
    ensures Iterate(step, j + k) == Iterate(Iterate(step, j), k)
  {
    if k > 0 {
      IterateSplit(step, j, k - 1);
    }
  }

  /** How marker s of the stepper is drawn on the current page. */
  datatype Marker = Marker(highlighted: bool, done: bool, connectorFilled: bool)

  function StepMarker(step: int, s: int): (m: Marker)
    ensures m.highlighted <==> s <= step
    ensures m.done <==> s < step
    ensures m.connectorFilled <==> m.done
  {
    Marker(step >= s, step > s, step > s)
  }

  /** Going through the stepper: the pages before the current one are done, the
      current one is highlighted but not done, and the later ones are neither;
      Continue (without submitting) completes exactly the page it leaves. */
  lemma MarkersAroundCurrent(step: int, s: int)
    ensures s < step ==> StepMarker(step, s).done && StepMarker(step, s).highlighted
    ensures s == step ==> StepMarker(step, s).highlighted && !StepMarker(step, s).done
    ensures s > step ==> !StepMarker(step, s).highlighted && !StepMarker(step, s).done
    ensures step < LastStep ==>
      (StepMarker(NextStep(step), s).done <==> StepMarker(step, s).done || s == step)
  {
  }

  /** Exactly one of the four markers is the current page: highlighted but not done. */
  lemma OneCurrentMarker(step: int)
    requires FirstStep <= step <= LastStep
    ensures (set s | FirstStep <= s <= LastStep && StepMarker(step, s).highlighted && !StepMarker(step, s).done) == {step}
  {
  }

  /** The autofill's delayed completion. */
  datatype AutofillTimer = AutofillTimer

  class ApplicationWizard {
    var step: int
    var isLoading: bool
    var form: FormData

    ghost predicate Valid()
      reads this
    {
      FirstStep <= step <= LastStep
    }

    constructor ()
      ensures Valid() && step == FirstStep && !isLoading && form == EmptyForm()
    {
      step := FirstStep;
      isLoading := false;
      form := EmptyForm();
    }

    method Back()
      requires Valid()
      modifies this`step
      ensures Valid() && step == PrevStep(old(step))
    {
      if step > FirstStep {
        step := step - 1;
      }
    }

    /** Continue, or Submit on the last page. */
    method Continue() returns (submitted: bool)
      requires Valid()
      modifies this`step
      ensures Valid() && step == NextStep(old(step))
      ensures submitted <==> old(step) == LastStep
    {
      submitted := step == LastStep;
      if step < LastStep {
        step := step + 1;
      } else {
        step := FirstStep;
      }
    }

    /** The autofill button is disabled while an autofill is pending. */
    method SimulateAutofill() returns (t: Option<AutofillTimer>)
      requires Valid()
      modifies this`isLoading
      ensures Valid()
      ensures old(isLoading) ==> t.None? && isLoading
      ensures !old(isLoading) ==> t == Some(AutofillTimer) && isLoading
    {
      if isLoading {
        return None;
      }
      isLoading := true;
      t := Some(AutofillTimer);
    }

    method CompleteAutofill(t: AutofillTimer)
      requires Valid()
      modifies this`form, this`isLoading
      ensures Valid() && form == ScannedForm() && !isLoading
    {
      form := ScannedForm();
      isLoading := false;
    }
  }

  /** Autofill (a second click while it is pending does nothing), then four Continues:
      the application is submitted on the fourth only, and the wizard is back on its
      first page with the scanned form. */
  method SubmitApplication() returns (secondClick: Option<AutofillTimer>, submittedAt: seq<bool>, step: int, form: FormData)
    ensures secondClick.None?
    ensures submittedAt == [false, false, false, true]
    ensures step == FirstStep && form == ScannedForm()
  {
    var w := new ApplicationWizard();
    var t := w.SimulateAutofill();
    secondClick := w.SimulateAutofill();
    w.CompleteAutofill(t.value);
    var c1 := w.Continue();
    var c2 := w.Continue();
    var c3 := w.Continue();
    var c4 := w.Continue();
    submittedAt := [c1, c2, c3, c4];
    step := w.step;
    form := w.form;
  }
}
