/** The stand-alone contact page (`ContactPage`): the same state cells and timer chain as
    the home-page section, but the handler requires all three fields and the submit button
    is disabled while a submission is in flight.

    As in `ContactSection`, every scheduled `setTimeout` callback that has not yet run is
    counted in a `pending…` field and runs as its own method. */
module ContactPage {
  import opened ContactForm

  class ContactPage {
    var name: string
    var email: string
    var message: string
    var status: Status
    var copied: bool
    /** The last text written to the clipboard. */
    var clipboard: string
    /** Reply callbacks (1500 ms) scheduled by accepted submits and not yet run. */
    var pendingReply: nat
    /** Return-to-idle callbacks (3000 ms) scheduled by replies and not yet run. */
    var pendingIdle: nat
    /** Clear-"copied" callbacks (2000 ms) scheduled by `CopyEmail` and not yet run. */
    var pendingUncopy: nat

    /** No state is stuck: a non-idle status, and a shown "copied" flag, always have a
        callback pending that will move them on. */
    ghost predicate Valid()
      reads this
    {
      && (status == Submitting ==> pendingReply > 0)
      && (status == Success ==> pendingIdle > 0)
      && (copied ==> pendingUncopy > 0)
    }

    constructor ()
      ensures Valid()
      ensures name == "" && email == "" && message == ""
      ensures status == Idle && !copied && clipboard == ""
      ensures pendingReply == 0 && pendingIdle == 0 && pendingUncopy == 0
    {
      name, email, message := "", "", "";
      status, copied, clipboard := Idle, false, "";
      pendingReply, pendingIdle, pendingUncopy := 0, 0, 0;
    }

    /** Whether the submit button can fire: it is `disabled` while submitting, and with a
        disabled default button the browser does not submit the form at all. */
    predicate CanSubmit()
      reads this
    {
      status != Submitting
    }

    /** A submit event followed by `handleSubmit`. Nothing happens while the button is
        disabled, nor unless name, email and message are all non-empty; otherwise the
        status becomes submitting and the reply is scheduled. */
    method Submit()
      requires Valid()
      modifies this
      ensures Valid()
      ensures old(status) == Submitting ==> unchanged(this)
      ensures old(name) == "" || old(email) == "" || old(message) == "" ==> unchanged(this)
      ensures old(status) != Submitting && old(name) != "" && old(email) != "" && old(message) != "" ==>
        && status == Submitting
        && pendingReply == old(pendingReply) + 1
        && name == old(name) && email == old(email) && message == old(message)
        && copied == old(copied) && clipboard == old(clipboard)
        && pendingIdle == old(pendingIdle) && pendingUncopy == old(pendingUncopy)
    {
      if !CanSubmit() {
        return;
      }
      if name == "" || email == "" || message == "" {
        return;
      }
      status := Submitting;
      pendingReply := pendingReply + 1;
    }

    /** The 1500 ms callback: success, all three fields cleared, return to idle scheduled. */
    method ReplyArrives()
      requires Valid() && pendingReply > 0
      modifies this
      ensures Valid()
      ensures status == Success
      ensures name == "" && email == "" && message == ""
      ensures pendingReply == old(pendingReply) - 1 && pendingIdle == old(pendingIdle) + 1
      ensures copied == old(copied) && clipboard == old(clipboard)
      ensures pendingUncopy == old(pendingUncopy)
    {
      status := Success;
      name, email, message := "", "", "";
      pendingReply := pendingReply - 1;
      pendingIdle := pendingIdle + 1;
    }

    /** The nested 3000 ms callback: back to idle, whatever the status is at that moment. */
    method ReturnToIdle()
      requires Valid() && pendingIdle > 0
      modifies this
      ensures Valid()
      ensures status == Idle
      ensures pendingIdle == old(pendingIdle) - 1
      ensures name == old(name) && email == old(email) && message == old(message)
      ensures pendingReply == old(pendingReply) && pendingUncopy == old(pendingUncopy)
      ensures copied == old(copied) && clipboard == old(clipboard)
    {
      status := Idle;
      pendingIdle := pendingIdle - 1;
    }

    /** The name input's functional update `prev => ({...prev, name})`. */
    method EditName(v: string)
      requires Valid()
      modifies this`name
      ensures Valid()
      ensures name == v
    {
      name := v;
    }

    /** The email input's functional update. */
    method EditEmail(v: string)
      requires Valid()
      modifies this`email
      ensures Valid()
      ensures email == v
    {
      email := v;
    }

    /** The message textarea's functional update. */
    method EditMessage(v: string)
      requires Valid()
      modifies this`message
      ensures Valid()
      ensures message == v
    {
      message := v;
    }

    /** `copyEmail`: writes the address, shows "copied" and schedules its clearing. */
    method CopyEmail()
      requires Valid()
      modifies this`clipboard, this`copied, this`pendingUncopy
      ensures Valid()
      ensures clipboard == Address && copied
      ensures pendingUncopy == old(pendingUncopy) + 1
    {
      clipboard := Address;
      copied := true;
      pendingUncopy := pendingUncopy + 1;
    }

    /** The 2000 ms callback of `copyEmail`. */
    method CopiedExpires()
      requires Valid() && pendingUncopy > 0
      modifies this`copied, this`pendingUncopy
      ensures Valid()
      ensures !copied && pendingUncopy == old(pendingUncopy) - 1
    {
      copied := false;
      pendingUncopy := pendingUncopy - 1;
    }
  }

  /** A filled-in form goes submitting -> success -> idle, a second submit during the
      first is ignored, and the reply leaves the fields empty. */
  method SubmissionCycle()
  {
    var page := new ContactPage();
    page.EditName("Ada");
    page.EditEmail("ada@example.org");
    page.EditMessage("Hello");
    page.Submit();
    assert page.status == Submitting && page.pendingReply == 1;
    page.Submit();
    assert page.pendingReply == 1;
    page.ReplyArrives();
    assert page.status == Success && page.name == "" && page.message == "";
    page.Submit();
    assert page.status == Success;
    page.ReturnToIdle();
    assert page.status == Idle && page.pendingReply == 0 && page.pendingIdle == 0;
  }
}
