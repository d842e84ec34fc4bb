/** Whole-session behaviours, shown by driving the session's methods on a
    store of a known content. */
module Scenarios {
  import opened Wrappers
  import opened PyText
  import opened Numbering
  import opened Configuration
  import opened Workflow
  import opened PdfLayout
  import opened Invoicing

  /** Without a configuration file, two auto-generated numbers in a row are
      INV0001 and INV0002, and the file then records counter 2. */
  method FirstTwoNumbers() returns (first: string, second: string, persisted: StoredConfig)
    ensures first == "INV0001" && second == "INV0002"
    ensures persisted == Written(Config("Default Company", "Default Address", "INV", 2))
  {
    var store := new Store(NoFile);
    var session := new InvoiceGenerator(None, None, None, store);
    first := session.NextInvoiceNumber();
    second := session.NextInvoiceNumber();
    persisted := store.Load();
    InvoiceNumberExamples();
  }

  /** Saving a record and loading it back gives every field unchanged. */
  method SaveThenLoad(stored: StoredConfig, c: Config) returns (loaded: StoredConfig)
    ensures loaded == Written(c)
    ensures Resolved(NoOverrides, loaded) == c
  {
    var store := new Store(stored);
    store.Save(c);
    loaded := store.Load();
    ResumeAfterSave(NoOverrides, c);
  }

  /** Declining at the confirmation writes no page, yet an auto-generated
      number stays consumed: the file already holds the incremented counter. */
  method CancelKeepsIncrement(stored: StoredConfig, answers: Answers, today: string)
    returns (outcome: Outcome, persisted: StoredConfig)
    requires AutoNumbered(answers) && !Confirmed(answers.confirmation)
    ensures !outcome.Generated?
    ensures persisted.lastInvoiceNumber == Some(stored.lastInvoiceNumber.GetOr(0) + 1)
  {
    var store := new Store(stored);
    var session := new InvoiceGenerator(None, None, None, store);
    outcome := session.GenerateInvoice(answers, today);
    persisted := store.Load();
  }

  /** A user-supplied number is used verbatim and leaves the counter and the
      file alone. */
  method SuppliedNumberVerbatim(stored: StoredConfig, answers: Answers, today: string)
    returns (outcome: Outcome, persisted: StoredConfig)
    requires !AutoNumbered(answers)
    ensures outcome.InputExhausted? || outcome.invoice.number == answers.invoiceNumber
    ensures persisted == stored
  {
    var store := new Store(stored);
    var session := new InvoiceGenerator(None, None, None, store);
    outcome := session.GenerateInvoice(answers, today);
    persisted := store.Load();
  }

  /** A company name given as an argument, not the stored one, heads the page. */
  method ArgumentNameOnPage(stored: StoredConfig, name: string, answers: Answers, today: string)
    returns (outcome: Outcome)
    requires name != ""
    requires Confirmed(answers.confirmation)
    requires exists k :: 0 <= k < |answers.entries| && IsDone(answers.entries[k].desc)
    ensures outcome.Generated?
    ensures |outcome.pdf.header| == 6 && outcome.pdf.header[0] == Drawn(Margin, 800, Text(name))
  {
    ItemsUntilDoneSpec(answers.entries);
    var store := new Store(stored);
    var session := new InvoiceGenerator(Some(name), None, None, store);
    outcome := session.GenerateInvoice(answers, today);
  }
}
