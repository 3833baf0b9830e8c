/**
 * The first-visit walkthrough (`src/components/Tutorial.tsx`): four steps, a
 * Next button that advances or finishes, a Skip/close button that also records
 * in the browser's storage that the walkthrough was seen, and a check of that
 * record when the walkthrough is first mounted.
 *
 * The stored flag is a field of the state. The parent's `onComplete` callback
 * is counted in `completions`; the 300 ms delay before it after closing is the
 * separate step `CompletionTimerFires`.
 */
module Tutorial {

  datatype StepIcon = MousePointer | MapPin | FileText | MessageCircle

  /** One walkthrough card: its icon, its title and the page section it points at. */
  datatype Step = Step(icon: StepIcon, title: string, highlight: string)

  const Steps: seq<Step> := [
    Step(MousePointer, "Welcome to AquaSentinel", "none"),
    Step(MapPin, "Interactive Pollution Map", "map"),
    Step(FileText, "Report Pollution", "community"),
    Step(MessageCircle, "Ask Aqua AI", "assistant")
  ]

  const LastStep: nat := |Steps| - 1

  // ---------------------------------------------------------------------------
  // What a step looks like

  /** A progress dot is the current step's, an earlier (done) step's, or a later (pending) one's. */
  datatype Dot = Current | Done | Pending

  function DotState(index: nat, current: nat): (d: Dot)
    ensures d == Current <==> index == current
    ensures d == Done <==> index < current
    ensures d == Pending <==> index > current
  {
    if index == current then Current
    else if index < current then Done
    else Pending
  }

  /** The row of progress dots shown on step `current`. */
  function Dots(current: nat): (ds: seq<Dot>)
    ensures |ds| == |Steps|
  {
    seq(|Steps|, i requires 0 <= i < |Steps| => DotState(i, current))
  }

  function Repeat(d: Dot, n: nat): (ds: seq<Dot>)
    ensures |ds| == n && forall i :: 0 <= i < n ==> ds[i] == d
  {
    seq(n, _ => d)
  }

  /** On every step the dots read: the done steps, then one current dot, then the pending steps. */
  lemma DotsShape(current: nat)
    requires current < |Steps|
    ensures Dots(current) == Repeat(Done, current) + [Current] + Repeat(Pending, |Steps| - current - 1)
  {
    var expected := Repeat(Done, current) + [Current] + Repeat(Pending, |Steps| - current - 1);
    forall i | 0 <= i < |Steps|
      ensures Dots(current)[i] == expected[i]
    {
      if i > current {
        assert expected[i] == Repeat(Pending, |Steps| - current - 1)[i - current - 1];
      }
    }
  }

  /** `Next` on every step but the last, where the button reads `Get Started`. */
  function NextButtonLabel(current: nat): (caption: string)
    ensures caption == "Get Started" <==> current >= LastStep
    ensures caption == "Next" <==> current < LastStep
  {
    if current < LastStep then "Next" else "Get Started"
  }

  // ---------------------------------------------------------------------------
  // The walkthrough's state

  class Walkthrough {
    var currentStep: nat
    var show: bool
    /** Whether the browser's storage holds the "tutorial seen" record. */
    var seenStored: bool
    /** Closings whose delayed `onComplete` has not yet run. */
    var pendingCompletions: nat
    /** How many times `onComplete` has run. */
    var completions: nat

    predicate Valid()
      reads this
    {
      currentStep < |Steps|
    }

    /** The first render: step 0, shown; storage is whatever an earlier visit left. */
    constructor(stored: bool)
      ensures Valid()
      ensures currentStep == 0 && show && seenStored == stored
      ensures pendingCompletions == 0 && completions == 0
    {
      currentStep := 0;
      show := true;
      seenStored := stored;
      pendingCompletions := 0;
      completions := 0;
    }

    /** The mount effect: a stored record hides the walkthrough and calls `onComplete` at once. */
    method CheckSeenFlag()
      requires Valid()
      modifies this
      ensures Valid()
      ensures currentStep == old(currentStep) && seenStored == old(seenStored)
      ensures pendingCompletions == old(pendingCompletions)
      ensures old(seenStored) ==> !show && completions == old(completions) + 1
      ensures !old(seenStored) ==> show == old(show) && completions == old(completions)
    {
      if seenStored {
        show := false;
        completions := completions + 1;
      }
    }

    /** `handleClose`: hide now, call `onComplete` after the delay. */
    method HandleClose()
      requires Valid()
      modifies this
      ensures Valid()
      ensures !show && pendingCompletions == old(pendingCompletions) + 1
      ensures currentStep == old(currentStep) && seenStored == old(seenStored)
      ensures completions == old(completions)
    {
      show := false;
      pendingCompletions := pendingCompletions + 1;
    }

    /**
     * `handleNext`, the button whose label is `NextButtonLabel(currentStep)`:
     * "Next" moves one step on, "Get Started" closes without touching storage.
     */
    method HandleNext()
      requires Valid() && show
      modifies this
      ensures Valid()
      ensures currentStep >= old(currentStep) && seenStored == old(seenStored)
      ensures NextButtonLabel(old(currentStep)) == "Next" ==>
        currentStep == old(currentStep) + 1 && show && pendingCompletions == old(pendingCompletions)
      ensures NextButtonLabel(old(currentStep)) == "Get Started" ==>
        currentStep == old(currentStep) && !show && pendingCompletions == old(pendingCompletions) + 1
      ensures completions == old(completions)
    {
      if currentStep < |Steps| - 1 {
        currentStep := currentStep + 1;
      } else {
        HandleClose();
      }
    }

    /** `saveTutorialComplete`, behind both Skip and the close cross: record the visit, then close. */
    method SaveTutorialComplete()
      requires Valid() && show
      modifies this
      ensures Valid()
      ensures seenStored && !show && pendingCompletions == old(pendingCompletions) + 1
      ensures currentStep == old(currentStep) && completions == old(completions)
    {
      seenStored := true;
      HandleClose();
    }

    /** The delayed `onComplete` of a closing runs. */
    method CompletionTimerFires()
      requires Valid() && pendingCompletions > 0
      modifies this
      ensures Valid()
      ensures pendingCompletions == old(pendingCompletions) - 1
      ensures completions == old(completions) + 1
      ensures currentStep == old(currentStep) && show == old(show) && seenStored == old(seenStored)
    {
      pendingCompletions := pendingCompletions - 1;
      completions := completions + 1;
    }
  }
}
