/** The decisions `generate_invoice` takes on the operator's answers: the
    invoice number, the item loop and the confirmation. */
module Workflow {
  import opened Wrappers
  import opened PyText

  /** One line item, and also one round of the item prompt: the description
      answer and the quantity and price answers that follow it (for the
      sentinel round these two are never asked for and are ignored). The unit
      price is carried as given; arithmetic on it is floating point and is not
      part of this model. */
  datatype Item = Item(desc: string, qty: int, price: real)

  datatype Invoice = Invoice(
    number: string,
    customerName: string,
    customerAddress: string,
    date: string,
    items: seq<Item>)

  /** The answers to one run of `generate_invoice`, in prompt order. */
  datatype Answers = Answers(
    invoiceNumber: string,
    customerName: string,
    customerAddress: string,
    invoiceDate: string,
    entries: seq<Item>,
    confirmation: string)

  /** A blank invoice-number answer asks for an auto-generated number. */
  predicate AutoNumbered(a: Answers) {
    a.invoiceNumber == ""
  }

  /** `desc.lower() == "done"` ends the item loop. */
  predicate IsDone(desc: string) {
    Lower(desc) == "done"
  }

  /** Only a confirmation whose stripped, lower-cased form is "yes" proceeds. */
  predicate Confirmed(answer: string) {
    Lower(Strip(answer)) == "yes"
  }

  /** The items the loop collects: entries up to the first sentinel, or None
      when the answers run out before a sentinel is given (end of input). */
  function ItemsUntilDone(entries: seq<Item>): Option<seq<Item>> {
    if entries == [] then None
    else if IsDone(entries[0].desc) then Some([])
    else match ItemsUntilDone(entries[1..])
      case None => None
      case Some(rest) => Some([entries[0]] + rest)
  }

  /** The loop collects every entry before the first sentinel, in entry order,
      and never stores the sentinel; it ends normally exactly when a sentinel
      is present. */
  lemma {:induction false} ItemsUntilDoneSpec(entries: seq<Item>)
    ensures ItemsUntilDone(entries).Some? <==> exists k :: 0 <= k < |entries| && IsDone(entries[k].desc)
    ensures ItemsUntilDone(entries).Some? ==>
      var items := ItemsUntilDone(entries).value;
      && |items| < |entries|
      && IsDone(entries[|items|].desc)
      && (forall j :: 0 <= j < |items| ==> !IsDone(entries[j].desc) && items[j] == entries[j])
  {
    if entries != [] && !IsDone(entries[0].desc) {
      var tail := entries[1..];
      ItemsUntilDoneSpec(tail);
      if exists k :: 0 <= k < |entries| && IsDone(entries[k].desc) {
        var k :| 0 <= k < |entries| && IsDone(entries[k].desc);
        assert IsDone(tail[k - 1].desc);
      }
      if ItemsUntilDone(tail).Some? {
        var k :| 0 <= k < |tail| && IsDone(tail[k].desc);
        assert IsDone(entries[k + 1].desc);
      }
    }
  }

  /** The item-collection loop of `generate_invoice`. */
  method CollectItems(entries: seq<Item>) returns (items: Option<seq<Item>>)
    ensures items == ItemsUntilDone(entries)
  {
    var collected: seq<Item> := [];
    var i := 0;
    assert entries[i..] == entries;
    assert forall ys: seq<Item> :: [] + ys == ys;
    while i < |entries|
      invariant 0 <= i <= |entries|
      invariant ItemsUntilDone(entries) == Prepend(collected, ItemsUntilDone(entries[i..]))
    {
      var e := entries[i];
      if IsDone(e.desc) {
        assert collected + [] == collected;
        return Some(collected);
      }
      assert entries[i..][1..] == entries[i + 1..];
      assert forall ys: seq<Item> :: collected + ([e] + ys) == (collected + [e]) + ys;
      collected := collected + [e];
      i := i + 1;
    }
    // the operator's answers ran out before "done"
    return None;
  }

  function Prepend(xs: seq<Item>, rest: Option<seq<Item>>): Option<seq<Item>> {
    match rest
    case None => None
    case Some(ys) => Some(xs + ys)
  }

  /** "done" is recognised in any mix of letter case, and nothing else is. */
  lemma IsDoneSpelling(desc: string)
    ensures IsDone(desc) <==>
      |desc| == 4 && desc[0] in "dD" && desc[1] in "oO" && desc[2] in "nN" && desc[3] in "eE"
  {
  }

  /** Exactly the answers that are "yes" in any letter case, with any
      surrounding whitespace, confirm. */
  lemma ConfirmedSpelling(answer: string)
    ensures Confirmed(answer) <==>
      var t := Strip(answer);
      |t| == 3 && t[0] in "yY" && t[1] in "eE" && t[2] in "sS"
  {
  }
}
