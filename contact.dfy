/** The contact section on the home page (`Contact`): a form whose submit handler simulates
    a network call with two chained timers, and a button that copies the address.

    React state cells are fields; every `setTimeout` callback that has been scheduled and
    has not yet run is counted in a `pending…` field and runs as its own method, which
    may be called only while such a callback is pending. */
module ContactSection {
  import opened ContactForm

  class ContactSection {
    var name: string
    var email: string
    var message: string
    var status: Status
    var copied: bool
    /** The last text written to the clipboard. */
    var clipboard: string
    /** Reply callbacks (1500 ms) scheduled by accepted submits and not yet run. */
    var pendingReply: nat
    /** Return-to-idle callbacks (3000 ms) scheduled by replies and not yet run. */
    var pendingIdle: nat
    /** Clear-"copied" callbacks (2000 ms) scheduled by `CopyEmail` and not yet run. */
    var pendingUncopy: nat

    /** No state is stuck: a non-idle status, and a shown "copied" flag, always have a
        callback pending that will move them on. */
    ghost predicate Valid()
      reads this
    {
      && (status == Submitting ==> pendingReply > 0)
      && (status == Success ==> pendingIdle > 0)
      && (copied ==> pendingUncopy > 0)
    }

    constructor ()
      ensures Valid()
      ensures name == "" && email == "" && message == ""
      ensures status == Idle && !copied && clipboard == ""
      ensures pendingReply == 0 && pendingIdle == 0 && pendingUncopy == 0
    {
      name, email, message := "", "", "";
      status, copied, clipboard := Idle, false, "";
      pendingReply, pendingIdle, pendingUncopy := 0, 0, 0;
    }

    /** `handleSubmit`. The guard tests only name and email (the message is left to the
        browser's `required` check), and the button is never disabled, so a submit is
        accepted in every status, including while one is already in flight. */
    method Submit()
      requires Valid()
      modifies this
      ensures Valid()
      ensures old(name) == "" || old(email) == "" ==> unchanged(this)
      ensures old(name) != "" && old(email) != "" ==>
        && status == Submitting
        && pendingReply == old(pendingReply) + 1
        && name == old(name) && email == old(email) && message == old(message)
        && copied == old(copied) && clipboard == old(clipboard)
        && pendingIdle == old(pendingIdle) && pendingUncopy == old(pendingUncopy)
    {
      if name == "" || email == "" {
        return;
      }
      status := Submitting;
      pendingReply := pendingReply + 1;
    }

    /** The 1500 ms callback: the simulated reply arrives, the fields are cleared and the
        return to idle is scheduled. */
    method ReplyArrives()
      requires Valid() && pendingReply > 0
      modifies this
      ensures Valid()
      ensures status == Success
      ensures name == "" && email == "" && message == ""
      ensures pendingReply == old(pendingReply) - 1 && pendingIdle == old(pendingIdle) + 1
      ensures copied == old(copied) && clipboard == old(clipboard)
      ensures pendingUncopy == old(pendingUncopy)
    {
      status := Success;
      name, email, message := "", "", "";
      pendingReply := pendingReply - 1;
      pendingIdle := pendingIdle + 1;
    }

    /** The nested 3000 ms callback. It sets idle whatever the status is at that moment,
        so it also ends a later submission that is still in flight. */
    method ReturnToIdle()
      requires Valid() && pendingIdle > 0
      modifies this
      ensures Valid()
      ensures status == Idle
      ensures pendingIdle == old(pendingIdle) - 1
      ensures name == old(name) && email == old(email) && message == old(message)
      ensures pendingReply == old(pendingReply) && pendingUncopy == old(pendingUncopy)
      ensures copied == old(copied) && clipboard == old(clipboard)
    {
      status := Idle;
      pendingIdle := pendingIdle - 1;
    }

    /** The name input's change handler. */
    method EditName(v: string)
      requires Valid()
      modifies this`name
      ensures Valid()
      ensures name == v
    {
      name := v;
    }

    /** The email input's change handler. */
    method EditEmail(v: string)
      requires Valid()
      modifies this`email
      ensures Valid()
      ensures email == v
    {
      email := v;
    }

    /** The message textarea's change handler. */
    method EditMessage(v: string)
      requires Valid()
      modifies this`message
      ensures Valid()
      ensures message == v
    {
      message := v;
    }

    /** `copyEmail`: writes the address, shows "copied" and schedules its clearing. */
    method CopyEmail()
      requires Valid()
      modifies this`clipboard, this`copied, this`pendingUncopy
      ensures Valid()
      ensures clipboard == Address && copied
      ensures pendingUncopy == old(pendingUncopy) + 1
    {
      clipboard := Address;
      copied := true;
      pendingUncopy := pendingUncopy + 1;
    }

    /** The 2000 ms callback of `copyEmail`. */
    method CopiedExpires()
      requires Valid() && pendingUncopy > 0
      modifies this`copied, this`pendingUncopy
      ensures Valid()
      ensures !copied && pendingUncopy == old(pendingUncopy) - 1
    {
      copied := false;
      pendingUncopy := pendingUncopy - 1;
    }
  }

  /** The handler accepts an empty message, accepts a second submit while the first is in
      flight (two replies are then pending), and the first reply clears the fields.
      Each reply schedules its own return to idle. */
  method SubmissionCycle()
  {
    var section := new ContactSection();
    section.EditName("Ada");
    section.EditEmail("ada@example.org");
    section.Submit();
    assert section.status == Submitting && section.pendingReply == 1;
    section.Submit();
    assert section.pendingReply == 2;
    section.ReplyArrives();
    assert section.status == Success && section.name == "" && section.email == "";
    section.ReplyArrives();
    section.ReturnToIdle();
    assert section.status == Idle && section.pendingIdle == 1;
    section.ReturnToIdle();
    assert section.status == Idle && section.pendingIdle == 0;
  }
}
