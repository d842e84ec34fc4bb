/** Where `create_pdf` draws each line of an invoice page. The page size and
    the rendering of prices and totals are not modelled; each drawn line
    records its position and what it shows. */
module PdfLayout {
  import opened Workflow

  /** What a drawn line shows: literal text, one item, or the total amount. */
  datatype Shown = Text(s: string) | ItemLine(item: Item) | TotalLine

  datatype Drawn = Drawn(x: int, y: int, shown: Shown)

  /** A page in drawing order: the header block, one line per item, the total. */
  datatype Pdf = Pdf(fileName: string, header: seq<Drawn>, itemLines: seq<Drawn>, totalLine: Drawn)

  const Margin := 100

  /** Item `i` (0-based) sits 15 units below item `i - 1`, the first at 690. */
  function ItemY(i: nat): int {
    690 - 15 * i
  }

  /** The total sits 20 units below where an (n+1)-th item would go. */
  function TotalY(n: nat): int {
    690 - 15 * n - 20
  }

  function FileName(number: string): string {
    "Invoice_" + number + ".pdf"
  }

  function Header(companyName: string, companyAddress: string, inv: Invoice): seq<Drawn> {
    [ Drawn(Margin, 800, Text(companyName)),
      Drawn(Margin, 785, Text(companyAddress)),
      Drawn(Margin, 760, Text("Invoice Number: " + inv.number)),
      Drawn(Margin, 745, Text("Date: " + inv.date)),
      Drawn(Margin, 730, Text("Customer: " + inv.customerName)),
      Drawn(Margin, 715, Text("Address: " + inv.customerAddress)) ]
  }

  /** `pdf` is the page `create_pdf` draws for `inv` under the given company details. */
  predicate Renders(pdf: Pdf, companyName: string, companyAddress: string, inv: Invoice) {
    && pdf.fileName == FileName(inv.number)
    && pdf.header == Header(companyName, companyAddress, inv)
    && |pdf.itemLines| == |inv.items|
    && (forall i :: 0 <= i < |inv.items| ==> pdf.itemLines[i] == Drawn(Margin, ItemY(i), ItemLine(inv.items[i])))
    && pdf.totalLine == Drawn(Margin, TotalY(|inv.items|), TotalLine)
  }

  /** A page is determined by the invoice and the company details. */
  lemma RendersUnique(p: Pdf, q: Pdf, companyName: string, companyAddress: string, inv: Invoice)
    requires Renders(p, companyName, companyAddress, inv)
    requires Renders(q, companyName, companyAddress, inv)
    ensures p == q
  {
  }

  /** On a rendered page the items run downward in entry order, each 15 below
      the one before and all below the header; the total is 35 below the last
      item, or at 670 when there are none. */
  lemma RenderedSpacing(pdf: Pdf, companyName: string, companyAddress: string, inv: Invoice)
    requires Renders(pdf, companyName, companyAddress, inv)
    ensures forall i :: 0 < i < |pdf.itemLines| ==> pdf.itemLines[i].y == pdf.itemLines[i - 1].y - 15
    ensures forall i :: 0 <= i < |pdf.itemLines| ==> pdf.itemLines[i].y < pdf.header[5].y
    ensures |pdf.itemLines| == 0 ==> pdf.totalLine.y == 670
    ensures |pdf.itemLines| > 0 ==> pdf.totalLine.y == pdf.itemLines[|pdf.itemLines| - 1].y - 35
  {
  }
}
