/** What the two contact forms of the site share: the status of a submission and the
    address the "copy email" button puts on the clipboard. */
module ContactForm {
  /** `status`: a submission goes idle -> submitting -> success -> idle. */
  datatype Status = Idle | Submitting | Success

  /** The address `copyEmail` writes to the clipboard. */
  const Address: string := "hello@jscl.design"
}
