# Invoice generator — a Dafny model

A model of `invoice_generator.py`, a command-line tool that asks an operator
for invoice details and renders each invoice as a PDF. It keeps the company
details and the last issued invoice number in `config.json` between runs.
The model covers these parts of the `InvoiceGenerator` class:

- **Start-up resolution** (`__init__`). Each of company name, company address
  and invoice prefix takes the command-line value when it is truthy (present
  and non-empty). Otherwise it takes the stored value, even an empty one, and
  otherwise the built-in default ("Default Company", "Default Address",
  "INV"). The counter starts at the stored value, or at 0.
- **The counter** (`get_next_invoice_number`). It goes up by exactly one. The
  four-field record is saved at once. The result is the prefix followed by the
  counter in Python's `04d` format: zero-padded to at least four digits and
  never truncated. A negative stored counter is formatted as Python does it
  ("-007").
- **The workflow** (`generate_invoice`). A blank invoice-number answer
  auto-generates a number; any other answer is used verbatim. A blank date
  answer means "today". The item loop keeps entries in order and stops at
  the first description whose lower-case form is `done`. The page is
  produced only when the stripped, lower-cased confirmation is `yes`. An
  increment already made is never undone.
- **The page layout** (`create_pdf`). The header lines sit at fixed
  positions. Item *i* is at y = 690 − 15·i and the total at 690 − 15·n − 20.
  The file is named `Invoice_<number>.pdf`.

Modules: `Wrappers` (Option), `PyText` (truthiness, `strip()`, `lower()`),
`Numbering` (the `04d` format), `Configuration` (the saved record and the
`Store` class that stands in for `config.json`), `Workflow` (item loop and
confirmation), `PdfLayout` (line positions), `Invoicing` (the
`InvoiceGenerator` class) and `Scenarios` (whole-session behaviours driven
through the class).

Console answers are parameters. The answers to one run are an `Answers`
value. The current date is a `today` parameter. The configuration file is a
`Store` object whose `contents` is the parsed mapping, with a missing file read
as the mapping with no keys. Its ghost `saved` field logs every record written.

## Model

| member | source | states |
|---|---|---|
| `Invoicing.Resolve` | invoice_generator.py:49-51 | the argument when truthy; else the stored value when the key is present, even if empty; else the default |
| `Invoicing.FreshStartDefaults` | invoice_generator.py:49-54 | with no file and no arguments the session starts as ("Default Company", "Default Address", "INV", 0) |
| `Invoicing.ArgumentWins` | invoice_generator.py:49-51 | a truthy argument is used whatever the file holds, field by field |
| `Invoicing.ResumeAfterSave` | invoice_generator.py:49-69 | a later session without truthy arguments resumes exactly the record the last save wrote, counter included |
| `Invoicing.InvoiceGenerator.constructor` | invoice_generator.py:43-54 | the four fields are the resolution of the arguments against the loaded file; the loaded mapping is kept |
| `Invoicing.InvoiceGenerator.NextInvoiceNumber` | invoice_generator.py:56-70 | the counter goes up by exactly one; name, address and prefix do not change; the file then holds exactly the four current fields, and one more save is logged; the result is the prefix plus the new counter in `04d` form |
| `Invoicing.InvoiceGenerator.GenerateInvoice` | invoice_generator.py:72-109 | blank number answer: one increment and one save, number auto-generated; otherwise the answer is used verbatim and counter and file are unchanged. Blank date means today. End of input in the item loop gives no invoice. A page is rendered only when confirmed; otherwise the invoice is cancelled and any increment stays |
| `Invoicing.InvoiceGenerator.CreatePdf` | invoice_generator.py:123-141 | the page has the fixed header, item i at y = 690 − 15·i in entry order, the total at 690 − 15·n − 20, and the file name `Invoice_<number>.pdf` |
| `Numbering.DigitsRoundTrip` | invoice_generator.py:70 | the decimal digits of n are digits and read back as n |
| `Numbering.LeadingZerosValue` | invoice_generator.py:70 | zero padding does not change the value a digit string denotes |
| `Numbering.Format04dRoundTrip` | invoice_generator.py:70 | the counter can be read back from its `04d` form, negative values included |
| `Numbering.InvoiceNumberInjective` | invoice_generator.py:63-70 | with one prefix, distinct counter values give distinct invoice numbers |
| `Numbering.DigitsLength` | invoice_generator.py:70 | n has at most k decimal digits exactly when n < 10^k |
| `Numbering.Format04dShape` | invoice_generator.py:70 | for n ≥ 0 the number part is all digits, exactly 4 long below 10000, and the plain decimal form (5+ digits, not truncated) from 10000 on |
| `Numbering.InvoiceNumberExamples` | invoice_generator.py:70 | "A" with 7 gives "A0007", with 12345 "A12345"; "INV" with 1 and 2 gives "INV0001", "INV0002" |
| `Configuration.Store.Load` | invoice_generator.py:11-21 | returns the file's current mapping; a missing file is the mapping with no keys |
| `Configuration.Store.Save` | invoice_generator.py:23-31 | the file afterwards holds exactly the saved record; the save is logged after the earlier ones |
| `Workflow.ItemsUntilDoneSpec` | invoice_generator.py:82-89 | the loop ends normally exactly when some description is `done` in any case; it then keeps every entry before the first such one, in order, and never the sentinel |
| `Workflow.CollectItems` | invoice_generator.py:82-89 | the loop returns the items `ItemsUntilDone` specifies, or nothing when the answers run out first |
| `Workflow.IsDoneSpelling` | invoice_generator.py:85 | a description ends the loop exactly when it spells "done" with each letter in either case |
| `Workflow.ConfirmedSpelling` | invoice_generator.py:104-105 | a confirmation proceeds exactly when, once stripped, it spells "yes" with each letter in either case |
| `PyText.StripRemovesOuterWhitespace` | invoice_generator.py:104 | `strip()` keeps one contiguous slice, removes only whitespace around it, and leaves no whitespace at either end |
| `PyText.LowerMatches` | invoice_generator.py:85 | `s.lower()` equals a lower-case ASCII word exactly when s spells it with each letter in either case |
| `PdfLayout.RendersUnique` | invoice_generator.py:123-141 | the page is determined by the invoice and the company details |
| `PdfLayout.RenderedSpacing` | invoice_generator.py:135-141 | items run downward 15 apart, all below the header; the total is 35 below the last item, or at 670 with no items |
| `Scenarios.FirstTwoNumbers` | invoice_generator.py:56-70 | with no file, two auto-numbers in a row are "INV0001" then "INV0002", and the file then records counter 2 |
| `Scenarios.SaveThenLoad` | invoice_generator.py:11-31 | saving a record and loading it back returns every field unchanged |
| `Scenarios.CancelKeepsIncrement` | invoice_generator.py:104-109 | declining after an auto-generated number renders no page, but the file already holds the incremented counter |
| `Scenarios.SuppliedNumberVerbatim` | invoice_generator.py:76 | a non-blank number answer is the invoice number verbatim, and the file is left untouched |
| `Scenarios.ArgumentNameOnPage` | invoice_generator.py:49-132 | a company name given as an argument heads the rendered page, whatever the file stores |

## Left out

- JSON parsing and writing of `config.json` (invoice_generator.py:11-31). The file is modelled as an already-parsed mapping. A malformed file, and keys holding values of another JSON type, are not modelled.
- Float prices, `line_total` and the running `total` (invoice_generator.py:88, 97-102). Prices are carried as data. The page's item and total lines record which item or total they show, not the printed float text.
- Extra keys in `config.json`. The stored mapping holds only the four known keys, so the model cannot express that `load_config` keeps unknown keys and the next save drops them (the save writes only the four-key record, invoice_generator.py:64-69).
- Parsing of the quantity and price answers with `int()` / `float()`, and the crash on bad input (invoice_generator.py:87-88). Entries arrive already parsed.
- `datetime.now()` (invoice_generator.py:79). It is the `today` parameter.
- The console summary printed before confirmation (invoice_generator.py:91-102), and all `print` output.
- The reportlab canvas, the A4 page size and writing the file (invoice_generator.py:124, 144). The model keeps the drawn lines and their coordinates.
- End of input is modelled only inside the item loop. The other prompts always have an answer in `Answers`.
- The argparse command line and the top-level "generate another?" loop (invoice_generator.py:146-160). They are I/O plumbing around the class.
- `PyText.Lower`: implements only the ASCII case mapping of Python's `str.lower()`. That decides equality with "done" and "yes" exactly, because no non-ASCII character lower-cases to one of their letters.
- Two processes sharing `config.json` at once. The program makes no attempt at this.
