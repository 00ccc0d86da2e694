/** The production-slot reservation wizard (`ReserveSlotModal`): four steps, purpose, occasion,
    timeline and confirm, with one choice to make on each of the first three. */
module ReserveSlot {
  import opened Wrappers

  datatype Step = PurposeStep | OccasionStep | TimelineStep | ConfirmStep

  datatype Purpose = Personal | Gift

  /** The ids of the occasion and timeline buttons. */
  const Occasions: seq<string> := ["wedding", "anniversary", "birthday", "business", "holiday", "other"]
  const Timelines: seq<string> := ["3months", "6months", "12months"]

  /** The wizard's state as a value; `""` is no choice, as in the source. */
  datatype Form = Form(step: Step, purpose: Option<Purpose>, occasion: string, timeline: string)

  /** The choice the current step asks for has been made. */
  predicate Chosen(f: Form) {
    match f.step
    case PurposeStep => f.purpose.Some?
    case OccasionStep => f.occasion != ""
    case TimelineStep => f.timeline != ""
    case ConfirmStep => false
  }

  /** The step after `s` in the wizard's order; confirm is last. */
  function Succ(s: Step): Step {
    match s
    case PurposeStep => OccasionStep
    case OccasionStep => TimelineStep
    case TimelineStep => ConfirmStep
    case ConfirmStep => ConfirmStep
  }

  /** `handleNext`: the step Continue leads to. It moves one step on exactly when the current
      step's choice is made; otherwise, and at confirm, it stays. */
  function Advance(f: Form): (r: Step)
    ensures r != f.step <==> Chosen(f)
    ensures r != f.step ==> r == Succ(f.step)
  {
    if Chosen(f) then Succ(f.step) else f.step
  }

  /** The Continue button's `disabled` expression. */
  predicate ContinueDisabled(f: Form) {
    (f.step == PurposeStep && f.purpose.None?)
    || (f.step == OccasionStep && f.occasion == "")
    || (f.step == TimelineStep && f.timeline == "")
  }

  /** Where Continue is offered (every step but confirm), it is disabled exactly when pressing
      it would not advance. */
  lemma ContinueDisabledIffStuck(f: Form)
    requires f.step != ConfirmStep
    ensures ContinueDisabled(f) <==> Advance(f) == f.step
  {
  }

  /** The step the Back button leads to; it is offered only at occasion and timeline. */
  function BackStep(s: Step): (r: Step)
    requires s == OccasionStep || s == TimelineStep
    ensures Succ(r) == s
  {
    if s == OccasionStep then PurposeStep else OccasionStep
  }

  /** The wizard's invariant: every step past the first has the choices of the steps before it. */
  predicate Reached(f: Form) {
    (f.step != PurposeStep ==> f.purpose.Some?)
    && (f.step == TimelineStep || f.step == ConfirmStep ==> f.occasion != "")
    && (f.step == ConfirmStep ==> f.timeline != "")
  }

  /** Continue keeps the invariant. */
  lemma AdvanceKeepsReached(f: Form)
    requires Reached(f)
    ensures Reached(f.(step := Advance(f)))
  {
  }

  /** Back keeps the invariant, and since it keeps the selections, Continue goes straight back to
      where Back came from. */
  lemma BackThenContinue(f: Form)
    requires Reached(f) && (f.step == OccasionStep || f.step == TimelineStep)
    ensures var b := f.(step := BackStep(f.step));
            Reached(b) && Advance(b) == f.step
  {
  }

  /** The confirm summary's purpose line: `purpose === 'gift' ? 'Gift' : 'Personal'`. */
  function PurposeLabel(p: Option<Purpose>): (r: string)
    ensures r == "Gift" <==> p == Some(Gift)
  {
    if p == Some(Gift) then "Gift" else "Personal"
  }

  /** The transferable-gift note on the confirm step. */
  predicate ShowsGiftNote(f: Form) {
    f.step == ConfirmStep && f.purpose == Some(Gift)
  }

  /** The gift note appears only where the summary reads Gift. */
  lemma GiftNoteOnlyForGifts(f: Form)
    requires ShowsGiftNote(f)
    ensures PurposeLabel(f.purpose) == "Gift"
  {
  }

  class Wizard {
    var step: Step
    var purpose: Option<Purpose>
    var occasion: string
    var timeline: string

    function State(): Form
      reads this
    {
      Form(step, purpose, occasion, timeline)
    }

    ghost predicate Valid()
      reads this
    {
      Reached(State())
    }

    /** The wizard opens at the purpose step with nothing chosen. */
    constructor ()
      ensures Valid()
      ensures step == PurposeStep && purpose == None && occasion == "" && timeline == ""
    {
      step := PurposeStep;
      purpose := None;
      occasion := "";
      timeline := "";
    }

    /** "For Myself" or "As a Gift", shown on the purpose step. */
    method ChoosePurpose(p: Purpose)
      requires Valid() && step == PurposeStep
      modifies this
      ensures Valid()
      ensures State() == old(State()).(purpose := Some(p))
    {
      purpose := Some(p);
    }

    /** An occasion button, shown on the occasion step. */
    method ChooseOccasion(id: string)
      requires Valid() && step == OccasionStep && id in Occasions
      modifies this
      ensures Valid()
      ensures State() == old(State()).(occasion := id)
    {
      occasion := id;
    }

    /** A timeline button, shown on the timeline step. */
    method ChooseTimeline(id: string)
      requires Valid() && step == TimelineStep && id in Timelines
      modifies this
      ensures Valid()
      ensures State() == old(State()).(timeline := id)
    {
      timeline := id;
    }

    /** `handleNext`, the Continue button: only the step may change. */
    method HandleNext()
      requires Valid()
      modifies this
      ensures Valid()
      ensures State() == old(State()).(step := Advance(old(State())))
    {
      AdvanceKeepsReached(State());
      match step
      case PurposeStep =>
        if purpose.Some? {
          step := OccasionStep;
        }
      case OccasionStep =>
        if occasion != "" {
          step := TimelineStep;
        }
      case TimelineStep =>
        if timeline != "" {
          step := ConfirmStep;
        }
      case ConfirmStep =>
    }

    /** The Back button, offered at occasion and timeline; the selections are kept. */
    method Back()
      requires Valid() && (step == OccasionStep || step == TimelineStep)
      modifies this
      ensures Valid()
      ensures State() == old(State()).(step := BackStep(old(step)))
    {
      match step
      case OccasionStep =>
        step := PurposeStep;
      case TimelineStep =>
        step := OccasionStep;
    }
  }

  /** A gift reservation walks through all four steps, and Continue without a choice stays put. */
  method GiftReservation() returns (f: Form)
    ensures f == Form(ConfirmStep, Some(Gift), "wedding", "6months")
    ensures ShowsGiftNote(f)
  {
    var w := new Wizard();
    w.HandleNext();
    assert w.step == PurposeStep;
    w.ChoosePurpose(Gift);
    w.HandleNext();
    w.ChooseOccasion("wedding");
    w.HandleNext();
    w.ChooseTimeline("6months");
    w.HandleNext();
    f := w.State();
  }
}
