/** The invoice session: company details resolved at start-up, the invoice
    counter, and one run of the invoice workflow. */
module Invoicing {
  import opened Wrappers
  import opened PyText
  import opened Numbering
  import opened Configuration
  import opened Workflow
  import opened PdfLayout

  /** The three optional command-line values. */
  datatype Overrides = Overrides(companyName: Option<string>, companyAddress: Option<string>, invoicePrefix: Option<string>)

  const NoOverrides := Overrides(None, None, None)

  /** One field: the argument when truthy, else the stored value (even an
      empty one), else the built-in default. */
  function Resolve(arg: Option<string>, stored: Option<string>, default: string): (r: string)
    ensures Truthy(arg) ==> r == arg.value
    ensures !Truthy(arg) && stored.Some? ==> r == stored.value
    ensures !Truthy(arg) && stored.None? ==> r == default
  {
    Or(arg, stored.GetOr(default))
  }

  /** The session's settings at start-up. */
  function Resolved(o: Overrides, stored: StoredConfig): Config {
    Config(
      Resolve(o.companyName, stored.companyName, "Default Company"),
      Resolve(o.companyAddress, stored.companyAddress, "Default Address"),
      Resolve(o.invoicePrefix, stored.invoicePrefix, "INV"),
      stored.lastInvoiceNumber.GetOr(0))
  }

  /** With no configuration file and no arguments every field takes its default. */
  lemma FreshStartDefaults()
    ensures Resolved(NoOverrides, NoFile) == Config("Default Company", "Default Address", "INV", 0)
  {
  }

  /** A later session without (truthy) arguments resumes exactly the record the
      last save wrote, the counter included. */
  lemma ResumeAfterSave(o: Overrides, c: Config)
    requires !Truthy(o.companyName) && !Truthy(o.companyAddress) && !Truthy(o.invoicePrefix)
    ensures Resolved(o, Written(c)) == c
  {
  }

  /** A truthy argument wins over whatever the file holds. */
  lemma ArgumentWins(o: Overrides, stored: StoredConfig)
    ensures Truthy(o.companyName) ==> Resolved(o, stored).companyName == o.companyName.value
    ensures Truthy(o.companyAddress) ==> Resolved(o, stored).companyAddress == o.companyAddress.value
    ensures Truthy(o.invoicePrefix) ==> Resolved(o, stored).invoicePrefix == o.invoicePrefix.value
  {
  }

  datatype Outcome =
    | Generated(invoice: Invoice, pdf: Pdf)
    | Cancelled(invoice: Invoice)
    | InputExhausted   // the answers ran out inside the item loop

  class InvoiceGenerator {
    const store: Store
    /** The mapping loaded at start-up. */
    const config: StoredConfig
    var companyName: string
    var companyAddress: string
    var invoicePrefix: string
    var lastInvoiceNumber: int

    /** The four fields as the record `save_config` receives. */
    function Settings(): Config
      reads this
    {
      Config(companyName, companyAddress, invoicePrefix, lastInvoiceNumber)
    }

    constructor (companyName: Option<string>, companyAddress: Option<string>, invoicePrefix: Option<string>, store: Store)
      ensures this.store == store && config == store.contents
      ensures Settings() == Resolved(Overrides(companyName, companyAddress, invoicePrefix), store.contents)
    {
      this.store := store;
      var loaded := store.Load();
      config := loaded;
      this.companyName := Or(companyName, loaded.companyName.GetOr("Default Company"));
      this.companyAddress := Or(companyAddress, loaded.companyAddress.GetOr("Default Address"));
      this.invoicePrefix := Or(invoicePrefix, loaded.invoicePrefix.GetOr("INV"));
      lastInvoiceNumber := loaded.lastInvoiceNumber.GetOr(0);
    }

    /** Advances the counter by one, saves all four fields, and returns the
        prefix followed by the new counter in `04d` form. */
    method NextInvoiceNumber() returns (number: string)
      modifies this`lastInvoiceNumber, store
      ensures lastInvoiceNumber == old(lastInvoiceNumber) + 1
      ensures store.contents == Written(Settings())
      ensures store.saved == old(store.saved) + [Settings()]
      ensures number == InvoiceNumber(invoicePrefix, lastInvoiceNumber)
    {
      lastInvoiceNumber := lastInvoiceNumber + 1;
      store.Save(Config(companyName, companyAddress, invoicePrefix, lastInvoiceNumber));
      number := InvoiceNumber(invoicePrefix, lastInvoiceNumber);
    }

    /** One run of the workflow on the operator's answers; `today` is the
        date used when the date answer is blank. */
    method GenerateInvoice(answers: Answers, today: string) returns (outcome: Outcome)
      modifies this`lastInvoiceNumber, store
      ensures AutoNumbered(answers) ==>
        && lastInvoiceNumber == old(lastInvoiceNumber) + 1
        && store.contents == Written(Settings())
        && store.saved == old(store.saved) + [Settings()]
      ensures !AutoNumbered(answers) ==> lastInvoiceNumber == old(lastInvoiceNumber) && unchanged(store)
      ensures
        var number := if AutoNumbered(answers) then InvoiceNumber(invoicePrefix, lastInvoiceNumber) else answers.invoiceNumber;
        var date := if answers.invoiceDate == "" then today else answers.invoiceDate;
        match ItemsUntilDone(answers.entries)
        case None => outcome == InputExhausted
        case Some(items) =>
          var inv := Invoice(number, answers.customerName, answers.customerAddress, date, items);
          if Confirmed(answers.confirmation) then
            outcome.Generated? && outcome.invoice == inv && Renders(outcome.pdf, companyName, companyAddress, inv)
          else
            outcome == Cancelled(inv)
    {
      var number := answers.invoiceNumber;
      if number == "" {
        number := NextInvoiceNumber();
      }
      var date := if answers.invoiceDate == "" then today else answers.invoiceDate;
      var items := CollectItems(answers.entries);
      if items == None {
        return InputExhausted;
      }
      var inv := Invoice(number, answers.customerName, answers.customerAddress, date, items.value);
      var confirm := Lower(Strip(answers.confirmation));
      if confirm == "yes" {
        var pdf := CreatePdf(inv);
        outcome := Generated(inv, pdf);
      } else {
        outcome := Cancelled(inv);
      }
    }

    /** Lays out the page for `inv`: the header block, then one line per item
        stepping down from 690, then the total. */
    method CreatePdf(inv: Invoice) returns (pdf: Pdf)
      ensures Renders(pdf, companyName, companyAddress, inv)
    {
      var header := Header(companyName, companyAddress, inv);
      var lines: seq<Drawn> := [];
      var y := 690;
      for i := 0 to |inv.items|
        invariant |lines| == i
        invariant y == ItemY(i)
        invariant forall k :: 0 <= k < i ==> lines[k] == Drawn(Margin, ItemY(k), ItemLine(inv.items[k]))
      {
        lines := lines + [Drawn(Margin, y, ItemLine(inv.items[i]))];
        y := y - 15;
      }
      pdf := Pdf(FileName(inv.number), header, lines, Drawn(Margin, y - 20, TotalLine));
    }
  }
}
