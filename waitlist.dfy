/** The two-step waitlist wizard, shared by the waitlist page
    (src/app/waitlist/page.tsx) and the waitlist modal
    (src/components/WaitlistModal.tsx): an email first, then a name and a
    reason, then one request; the modal also resets itself when closed. */
module Waitlist {

  /** The wizard's two steps. */
  type Step = s: int | s == 1 || s == 2 witness 1

  /** What is shown. */
  datatype WaitlistView = Hidden | SuccessView | EmailStep | DetailsStep

  /** The request body `{ email, name, reason }`. */
  datatype WaitlistRequest = WaitlistRequest(email: string, name: string, reason: string)

  /** The view for an open or closed wizard: nothing when closed, then the
      success view before either step. */
  function SelectView(isOpen: bool, isSuccess: bool, step: Step): (v: WaitlistView)
    ensures v == Hidden <==> !isOpen
    ensures isOpen && isSuccess ==> v == SuccessView
    ensures v == EmailStep <==> isOpen && !isSuccess && step == 1
    ensures v == DetailsStep <==> isOpen && !isSuccess && step == 2
  {
    if !isOpen then Hidden
    else if isSuccess then SuccessView
    else if step == 1 then EmailStep
    else DetailsStep
  }

  class Wizard {
    var step: Step
    var email: string
    var name: string
    var reason: string
    var isLoading: bool
    var isSuccess: bool
    /** The requests sent, oldest first, and how many error alerts were shown. */
    var sent: seq<WaitlistRequest>
    var alerts: nat
    /** Requests whose reply has not come back yet. */
    ghost var pending: nat

    /** Step 2 is only ever reached with an email, which step 2 cannot edit. */
    ghost predicate Valid()
      reads this
    {
      step == 2 ==> email != ""
    }

    constructor()
      ensures step == 1 && email == "" && name == "" && reason == ""
      ensures !isLoading && !isSuccess && sent == [] && alerts == 0 && pending == 0
      ensures Valid()
    {
      step, email, name, reason := 1, "", "", "";
      isLoading, isSuccess := false, false;
      sent, alerts, pending := [], 0, 0;
    }

    /** The state a closed modal goes back to (the reset effect). */
    method Reset()
      modifies this
      ensures step == 1 && email == "" && name == "" && reason == ""
      ensures !isLoading && !isSuccess
      ensures sent == old(sent) && alerts == old(alerts) && pending == old(pending)
      ensures Valid()
    {
      step, email, name, reason := 1, "", "", "";
      isLoading, isSuccess := false, false;
    }

    /** Typing in the email input, which exists only on step 1 and is disabled
        while loading. */
    method TypeEmail(value: string)
      requires Valid()
      modifies this
      ensures Valid()
      ensures email == (if step == 1 && !isLoading then value else old(email))
      ensures step == old(step) && name == old(name) && reason == old(reason)
      ensures isLoading == old(isLoading) && isSuccess == old(isSuccess)
      ensures sent == old(sent) && alerts == old(alerts) && pending == old(pending)
    {
      if step == 1 && !isLoading {
        email := value;
      }
    }

    /** Typing in the name and reason inputs of step 2, disabled while loading. */
    method TypeDetails(newName: string, newReason: string)
      requires Valid()
      modifies this
      ensures Valid()
      ensures step == 2 && !old(isLoading) ==> name == newName && reason == newReason
      ensures !(step == 2 && !old(isLoading)) ==> name == old(name) && reason == old(reason)
      ensures step == old(step) && email == old(email)
      ensures isLoading == old(isLoading) && isSuccess == old(isSuccess)
      ensures sent == old(sent) && alerts == old(alerts) && pending == old(pending)
    {
      if step == 2 && !isLoading {
        name, reason := newName, newReason;
      }
    }

    /** `handleEmailSubmit`: step 2 is reached only with a non-empty email;
        otherwise nothing changes. */
    method HandleEmailSubmit()
      requires Valid()
      modifies this
      ensures Valid()
      ensures old(email) != "" ==> step == 2
      ensures old(email) == "" ==> step == old(step)
      ensures email == old(email) && name == old(name) && reason == old(reason)
      ensures isLoading == old(isLoading) && isSuccess == old(isSuccess)
      ensures sent == old(sent) && alerts == old(alerts) && pending == old(pending)
    {
      if email == "" {
        return;
      }
      step := 2;
    }

    /** `handleFinalSubmit` up to its request: nothing happens unless the
        email, the name and the reason are all filled in; then the wizard is
        loading and the three go out. */
    method BeginFinalSubmit() returns (submitted: bool)
      requires Valid()
      modifies this
      ensures Valid()
      ensures submitted <==> email != "" && name != "" && reason != ""
      ensures submitted ==>
        isLoading && sent == old(sent) + [WaitlistRequest(email, name, reason)] && pending == old(pending) + 1
      ensures !submitted ==> isLoading == old(isLoading) && sent == old(sent) && pending == old(pending)
      ensures step == old(step) && email == old(email) && name == old(name) && reason == old(reason)
      ensures isSuccess == old(isSuccess) && alerts == old(alerts)
    {
      if email == "" || name == "" || reason == "" {
        return false;
      }
      isLoading := true;
      sent := sent + [WaitlistRequest(email, name, reason)];
      pending := pending + 1;
      return true;
    }

    /** The rest of `handleFinalSubmit`: an ok reply shows the success view, any
        other outcome shows an alert and keeps the step; loading ends either way. */
    method CompleteFinalSubmit(ok: bool)
      requires Valid() && pending > 0
      modifies this
      ensures Valid()
      ensures !isLoading
      ensures isSuccess == (old(isSuccess) || ok)
      ensures alerts == old(alerts) + (if ok then 0 else 1)
      ensures step == old(step) && email == old(email) && name == old(name) && reason == old(reason)
      ensures sent == old(sent) && pending == old(pending) - 1
    {
      if ok {
        isSuccess := true;
      } else {
        alerts := alerts + 1;
      }
      isLoading := false;
      pending := pending - 1;
    }

    /** The page's view: the page is always open. */
    function PageView(): (v: WaitlistView)
      reads this
      ensures v != Hidden
      ensures isSuccess ==> v == SuccessView
      ensures v == DetailsStep <==> !isSuccess && step == 2
    {
      SelectView(true, isSuccess, step)
    }
  }

  /** The modal: the wizard, shown only while open and reset on every close. */
  class WaitlistModal {
    var isOpen: bool
    const wizard: Wizard

    ghost predicate Valid()
      reads this, wizard
    {
      wizard.Valid()
    }

    constructor(isOpen: bool)
      ensures this.isOpen == isOpen && fresh(wizard)
      ensures wizard.step == 1 && wizard.email == "" && wizard.name == "" && wizard.reason == ""
      ensures !wizard.isLoading && !wizard.isSuccess
      ensures wizard.sent == [] && wizard.alerts == 0 && wizard.pending == 0
      ensures Valid()
    {
      this.isOpen := isOpen;
      wizard := new Wizard();
    }

    /** A change of the `isOpen` prop: closing resets the step to 1, the three
        fields to empty and both flags to false; opening keeps the state. */
    method SetOpen(open: bool)
      requires Valid()
      modifies this, wizard
      ensures Valid() && isOpen == open
      ensures !open ==>
        && wizard.step == 1 && wizard.email == "" && wizard.name == "" && wizard.reason == ""
        && !wizard.isLoading && !wizard.isSuccess
      ensures open ==>
        && wizard.step == old(wizard.step) && wizard.email == old(wizard.email)
        && wizard.name == old(wizard.name) && wizard.reason == old(wizard.reason)
        && wizard.isLoading == old(wizard.isLoading) && wizard.isSuccess == old(wizard.isSuccess)
      ensures wizard.sent == old(wizard.sent) && wizard.pending == old(wizard.pending)
    {
      isOpen := open;
      if !open {
        wizard.Reset();
      }
    }

    /** What the modal renders. */
    function View(): (v: WaitlistView)
      reads this, wizard
      ensures v == Hidden <==> !isOpen
      ensures isOpen && wizard.isSuccess ==> v == SuccessView
    {
      SelectView(isOpen, wizard.isSuccess, wizard.step)
    }
  }
}
