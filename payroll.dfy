/** Payroll reconciliation: which employees have not been paid, judged
    from the notes of recent transactions, and the payment requests that
    would pay them (the `payroll_check` and `fulfill_remaining_payroll`
    tools). */
module Payroll {
  import opened Wrappers
  import opened Dynamic
  import opened GoText
  import opened Storage

  /** Fourteen days, in seconds. */
  const Fortnight: int := 14 * 86400

  // ---------------------------------------------------------------------
  // Decoding the fetched payload
  // ---------------------------------------------------------------------

  /** The elements of the `transactions` array, or nothing when the
      payload is not valid JSON (`None`), is not an object, or has no
      such array. */
  function TransactionItems(payload: Option<Value>): seq<Value>
  {
    match payload
    case Some(Object(f)) =>
      if "transactions" in f && f["transactions"].Array? then f["transactions"].items else []
    case _ => []
  }

  /** The elements that are objects, in order; the others are skipped. */
  function ObjectsOf(items: seq<Value>): (rs: seq<Record>)
    ensures |rs| <= |items|
    ensures forall i :: 0 <= i < |rs| ==> Object(rs[i]) in items
  {
    if |items| == 0 then []
    else
      var last := items[|items| - 1];
      ObjectsOf(items[..|items| - 1]) + (if last.Object? then [last.fields] else [])
  }

  /** When every element is an object, none is dropped and the order is
      kept. */
  lemma {:induction false} ObjectsOfAllObjects(items: seq<Value>)
    requires forall i :: 0 <= i < |items| ==> items[i].Object?
    ensures |ObjectsOf(items)| == |items|
    ensures forall i :: 0 <= i < |items| ==> ObjectsOf(items)[i] == items[i].fields
  {
    if |items| > 0 {
      ObjectsOfAllObjects(items[..|items| - 1]);
    }
  }

  /** The decode shared by both payroll tools. */
  method DecodeTransactions(payload: Option<Value>) returns (txns: seq<Record>)
    ensures txns == ObjectsOf(TransactionItems(payload))
  {
    var items := TransactionItems(payload);
    txns := [];
    var i := 0;
    while i < |items|
      invariant 0 <= i <= |items|
      invariant txns == ObjectsOf(items[..i])
    {
      assert items[..i + 1][..i] == items[..i];
      if items[i].Object? {
        txns := txns + [items[i].fields];
      }
      i := i + 1;
    }
    assert items[..|items|] == items;
  }

  // ---------------------------------------------------------------------
  // removeOld
  // ---------------------------------------------------------------------

  /** The `createdAt` instant, or Go's zero time when it does not parse. */
  function CreatedAt(parseRfc3339: string -> Option<int>, t: Record): int
    requires HasString(t, "createdAt")
  {
    match parseRfc3339(t["createdAt"].s)
    case Some(ts) => ts
    case None => 0
  }

  predicate CreatedAtStrings(txns: seq<Record>)
  {
    forall i :: 0 <= i < |txns| ==> HasString(txns[i], "createdAt")
  }

  /** `removeOld` as written. Its local variable `time` shadows the
      package, so the window test compares each transaction with its own
      instant moved back fourteen days, which always holds: every
      transaction is kept, in order, even one whose date fails to parse. */
  method RemoveOld(txns: seq<Record>, parseRfc3339: string -> Option<int>)
    returns (kept: seq<Record>)
    requires CreatedAtStrings(txns)
    ensures kept == txns
  {
    kept := [];
    var i := 0;
    while i < |txns|
      invariant 0 <= i <= |txns|
      invariant kept == txns[..i]
    {
      var ts := CreatedAt(parseRfc3339, txns[i]);
      if ts > ts - Fortnight {
        kept := kept + [txns[i]];
      }
      i := i + 1;
    }
  }

  // ---------------------------------------------------------------------
  // checkPayments
  // ---------------------------------------------------------------------

  predicate NoteStrings(txns: seq<Record>)
  {
    forall i :: 0 <= i < |txns| ==> HasString(txns[i], "note")
  }

  function NotesOf(txns: seq<Record>): (notes: seq<string>)
    requires NoteStrings(txns)
    ensures |notes| == |txns|
    ensures forall i :: 0 <= i < |txns| ==> notes[i] == txns[i]["note"].s
  {
    if |txns| == 0 then [] else NotesOf(txns[..|txns| - 1]) + [txns[|txns| - 1]["note"].s]
  }

  /** The recipient a note marks as paid: its first word, when the note
      has exactly two words. */
  function Marker(note: string): Option<string>
  {
    var words := Fields(note);
    if |words| == 2 then Some(words[0]) else None
  }

  /** The markers of the notes, in order. */
  function Markers(notes: seq<string>): seq<string>
  {
    if |notes| == 0 then []
    else
      var m := Marker(notes[|notes| - 1]);
      Markers(notes[..|notes| - 1]) + (if m.Some? then [m.value] else [])
  }

  ghost predicate MarkedPaid(notes: seq<string>, r: string)
  {
    exists i :: 0 <= i < |notes| && Marker(notes[i]) == Some(r)
  }

  ghost predicate InDirectory(directory: seq<Employee>, r: string)
  {
    exists i :: 0 <= i < |directory| && directory[i].recipient == r
  }

  lemma {:induction false} MarkersExactly(notes: seq<string>, r: string)
    ensures r in Markers(notes) <==> MarkedPaid(notes, r)
  {
    if |notes| > 0 {
      var init := notes[..|notes| - 1];
      MarkersExactly(init, r);
      if MarkedPaid(notes, r) {
        var i :| 0 <= i < |notes| && Marker(notes[i]) == Some(r);
        if i < |notes| - 1 {
          assert Marker(init[i]) == Some(r);
        }
      }
      if MarkedPaid(init, r) {
        var i :| 0 <= i < |init| && Marker(init[i]) == Some(r);
        assert Marker(notes[i]) == Some(r);
      }
    }
  }

  /** The recipients of the directory that no marker names, in directory
      order. */
  function UnpaidOf(directory: seq<Employee>, markers: seq<string>): seq<string>
  {
    if |directory| == 0 then []
    else
      var r := directory[|directory| - 1].recipient;
      UnpaidOf(directory[..|directory| - 1], markers) + (if r in markers then [] else [r])
  }

  lemma {:induction false} UnpaidOfExactly(directory: seq<Employee>, markers: seq<string>, r: string)
    ensures r in UnpaidOf(directory, markers) <==> InDirectory(directory, r) && r !in markers
  {
    if |directory| > 0 {
      var init := directory[..|directory| - 1];
      UnpaidOfExactly(init, markers, r);
      if InDirectory(directory, r) && r !in markers {
        var i :| 0 <= i < |directory| && directory[i].recipient == r;
        if i < |directory| - 1 {
          assert init[i].recipient == r;
        }
      }
      if InDirectory(init, r) {
        var i :| 0 <= i < |init| && init[i].recipient == r;
        assert directory[i].recipient == r;
      }
    }
  }

  /** The unpaid list is exactly the directory's recipients that no
      two-word note names: never more than the directory, never a
      stranger, never a marked one. */
  lemma {:induction false} UnpaidMeaning(directory: seq<Employee>, notes: seq<string>)
    ensures forall r ::
      r in UnpaidOf(directory, Markers(notes)) <==> InDirectory(directory, r) && !MarkedPaid(notes, r)
  {
    forall r ensures r in UnpaidOf(directory, Markers(notes))
      <==> InDirectory(directory, r) && !MarkedPaid(notes, r)
    {
      UnpaidOfExactly(directory, Markers(notes), r);
      MarkersExactly(notes, r);
    }
  }

  /** Notes of one, or of three or more, words mark nobody. */
  lemma {:induction false} OnlyTwoWordNotesMark(notes: seq<string>)
    requires forall i :: 0 <= i < |notes| ==> |Fields(notes[i])| != 2
    ensures Markers(notes) == []
  {
    if |notes| > 0 {
      OnlyTwoWordNotesMark(notes[..|notes| - 1]);
    }
  }

  lemma {:induction false} MarkersStep(notes: seq<string>, note: string)
    ensures Markers(notes + [note])
      == Markers(notes) + (if |Fields(note)| == 2 then [Fields(note)[0]] else [])
  {
    assert (notes + [note])[..|notes|] == notes;
  }

  lemma {:induction false} UnpaidStep(directory: seq<Employee>, j: nat, markers: seq<string>)
    requires j < |directory|
    ensures UnpaidOf(directory[..j + 1], markers)
      == UnpaidOf(directory[..j], markers) + (if directory[j].recipient in markers then [] else [directory[j].recipient])
  {
    assert directory[..j + 1][..j] == directory[..j];
  }

  /** The first loop of `checkPayments`: the first word of every
      two-word note, in order. */
  method CollectMarkers(txns: seq<Record>) returns (notes: seq<string>)
    requires NoteStrings(txns)
    ensures notes == Markers(NotesOf(txns))
  {
    notes := [];
    var i := 0;
    while i < |txns|
      invariant 0 <= i <= |txns|
      invariant notes == Markers(NotesOf(txns[..i]))
    {
      var note := txns[i]["note"].s;
      var words := Fields(note);
      if |words| == 2 {
        notes := notes + [words[0]];
      }
      MarkersStep(NotesOf(txns[..i]), note);
      assert NotesOf(txns[..i + 1]) == NotesOf(txns[..i]) + [note];
      i := i + 1;
    }
    assert txns[..|txns|] == txns;
  }

  /** `checkPayments`: collect the markers of the notes, then keep each
      directory recipient that is not among them. */
  method CheckPayments(txns: seq<Record>, directory: seq<Employee>) returns (unpaid: seq<string>)
    requires NoteStrings(txns)
    ensures unpaid == UnpaidOf(directory, Markers(NotesOf(txns)))
    ensures forall r :: r in unpaid <==> InDirectory(directory, r) && !MarkedPaid(NotesOf(txns), r)
  {
    var notes := CollectMarkers(txns);
    unpaid := [];
    var j := 0;
    while j < |directory|
      invariant 0 <= j <= |directory|
      invariant unpaid == UnpaidOf(directory[..j], notes)
    {
      UnpaidStep(directory, j, notes);
      if directory[j].recipient !in notes {
        unpaid := unpaid + [directory[j].recipient];
      }
      j := j + 1;
    }
    assert directory[..|directory|] == directory;
    UnpaidMeaning(directory, NotesOf(txns));
  }

  // ---------------------------------------------------------------------
  // Payment requests
  // ---------------------------------------------------------------------

  datatype PaymentRequest = PaymentRequest(recipient: string, amount: real, currency: string, note: string)

  function PayrollNote(recipient: string): string
  {
    recipient + " payroll"
  }

  /** One request per employee whose recipient is unpaid, in directory
      order: the employee's own wage, in USD, with the payroll note. */
  function RequestsFor(directory: seq<Employee>, unpaid: seq<string>): (reqs: seq<PaymentRequest>)
    ensures |reqs| <= |directory|
    ensures forall i :: 0 <= i < |reqs| ==>
      && reqs[i].currency == "USD"
      && reqs[i].note == PayrollNote(reqs[i].recipient)
      && reqs[i].recipient in unpaid
      && exists j :: 0 <= j < |directory| && directory[j].recipient == reqs[i].recipient
                     && directory[j].wage == reqs[i].amount
  {
    if |directory| == 0 then []
    else
      var init := directory[..|directory| - 1];
      var e := directory[|directory| - 1];
      var reqs := RequestsFor(init, unpaid);
      assert forall i :: 0 <= i < |init| ==> init[i] == directory[i];
      reqs + (if e.recipient in unpaid
              then [PaymentRequest(e.recipient, e.wage, "USD", PayrollNote(e.recipient))]
              else [])
  }

  function RequestRecipients(reqs: seq<PaymentRequest>): (rs: seq<string>)
    ensures |rs| == |reqs| && forall i :: 0 <= i < |reqs| ==> rs[i] == reqs[i].recipient
  {
    if |reqs| == 0 then [] else RequestRecipients(reqs[..|reqs| - 1]) + [reqs[|reqs| - 1].recipient]
  }

  function RequestNotes(reqs: seq<PaymentRequest>): (ns: seq<string>)
    ensures |ns| == |reqs| && forall i :: 0 <= i < |reqs| ==> ns[i] == reqs[i].note
  {
    if |reqs| == 0 then [] else RequestNotes(reqs[..|reqs| - 1]) + [reqs[|reqs| - 1].note]
  }

  /** Every employee whose recipient is unpaid gets a request carrying
      that employee's wage. */
  lemma {:induction false} RequestsComplete(directory: seq<Employee>, unpaid: seq<string>, j: nat)
    requires j < |directory| && directory[j].recipient in unpaid
    ensures PaymentRequest(directory[j].recipient, directory[j].wage, "USD", PayrollNote(directory[j].recipient))
      in RequestsFor(directory, unpaid)
  {
    if j < |directory| - 1 {
      var init := directory[..|directory| - 1];
      assert init[j] == directory[j];
      RequestsComplete(init, unpaid, j);
    }
  }

  /** With the unique recipients the directory's schema enforces, no
      recipient gets two requests. */
  lemma {:induction false} RequestsDistinct(directory: seq<Employee>, unpaid: seq<string>)
    requires forall i, j :: 0 <= i < j < |directory| ==> directory[i].recipient != directory[j].recipient
    ensures forall i, j :: 0 <= i < j < |RequestsFor(directory, unpaid)| ==>
      RequestsFor(directory, unpaid)[i].recipient != RequestsFor(directory, unpaid)[j].recipient
  {
    if |directory| > 0 {
      var init := directory[..|directory| - 1];
      var e := directory[|directory| - 1];
      RequestsDistinct(init, unpaid);
      var reqs := RequestsFor(init, unpaid);
      forall i | 0 <= i < |reqs| ensures reqs[i].recipient != e.recipient {
        var j :| 0 <= j < |init| && init[j].recipient == reqs[i].recipient && init[j].wage == reqs[i].amount;
        assert directory[j] == init[j];
      }
    }
  }

  /** The payroll note of a well-formed handle marks that handle as paid:
      fed back through `checkPayments`, a request's note settles it. */
  lemma {:induction false} PayrollNoteMarksPaid(recipient: string)
    requires |recipient| > 0 && NoSpace(recipient)
    ensures Marker(PayrollNote(recipient)) == Some(recipient)
  {
    assert NoSpace("payroll");
    FieldsUnwords([recipient, "payroll"]);
    assert Unwords([recipient, "payroll"]) == PayrollNote(recipient);
  }

  lemma {:induction false} AllMarkedNoneUnpaid(directory: seq<Employee>, markers: seq<string>)
    requires forall i :: 0 <= i < |directory| ==> directory[i].recipient in markers
    ensures UnpaidOf(directory, markers) == []
  {
    if |directory| > 0 {
      AllMarkedNoneUnpaid(directory[..|directory| - 1], markers);
    }
  }

  lemma {:induction false} SettledOne(directory: seq<Employee>, notes: seq<string>, j: nat)
    requires j < |directory| && |directory[j].recipient| > 0 && NoSpace(directory[j].recipient)
    ensures directory[j].recipient in Markers(notes + RequestNotes(RequestsFor(directory, UnpaidOf(directory, Markers(notes)))))
  {
    var unpaid := UnpaidOf(directory, Markers(notes));
    var reqs := RequestsFor(directory, unpaid);
    var after := notes + RequestNotes(reqs);
    var r := directory[j].recipient;
    MarkersExactly(after, r);
    MarkersExactly(notes, r);
    if r in Markers(notes) {
      var i :| 0 <= i < |notes| && Marker(notes[i]) == Some(r);
      assert after[i] == notes[i];
    } else {
      UnpaidOfExactly(directory, Markers(notes), r);
      RequestsComplete(directory, unpaid, j);
      var k :| 0 <= k < |reqs| && reqs[k] == PaymentRequest(r, directory[j].wage, "USD", PayrollNote(r));
      PayrollNoteMarksPaid(r);
      assert after[|notes| + k] == PayrollNote(r);
    }
  }

  /** Once the requested payments are on record, a payroll check finds
      nobody left unpaid. */
  lemma {:induction false} PayrollSettles(directory: seq<Employee>, notes: seq<string>)
    requires forall i :: 0 <= i < |directory| ==>
      |directory[i].recipient| > 0 && NoSpace(directory[i].recipient)
    ensures UnpaidOf(directory, Markers(notes + RequestNotes(RequestsFor(directory, UnpaidOf(directory, Markers(notes)))))) == []
  {
    var unpaid := UnpaidOf(directory, Markers(notes));
    var reqs := RequestsFor(directory, unpaid);
    var after := notes + RequestNotes(reqs);
    forall j | 0 <= j < |directory| ensures directory[j].recipient in Markers(after) {
      SettledOne(directory, notes, j);
    }
    AllMarkedNoneUnpaid(directory, Markers(after));
  }

  /** The request-building loop of `fulfill_remaining_payroll`. */
  method BuildRequests(directory: seq<Employee>, unpaid: seq<string>) returns (reqs: seq<PaymentRequest>)
    ensures reqs == RequestsFor(directory, unpaid)
  {
    reqs := [];
    var i := 0;
    while i < |directory|
      invariant 0 <= i <= |directory|
      invariant reqs == RequestsFor(directory[..i], unpaid)
    {
      assert directory[..i + 1][..i] == directory[..i];
      var e := directory[i];
      if e.recipient in unpaid {
        reqs := reqs + [PaymentRequest(e.recipient, e.wage, "USD", e.recipient + " payroll")];
      }
      i := i + 1;
    }
    assert directory[..|directory|] == directory;
  }

  // ---------------------------------------------------------------------
  // The two tools
  // ---------------------------------------------------------------------

  /** The decoded transactions can be read without a type-assertion panic. */
  predicate WellTyped(txns: seq<Record>)
  {
    CreatedAtStrings(txns) && NoteStrings(txns)
  }

  /** `payroll_check`, from the fetched payload on: the unpaid recipients. */
  method PayrollCheck(payload: Option<Value>, directory: seq<Employee>, parseRfc3339: string -> Option<int>)
    returns (unpaid: seq<string>)
    requires WellTyped(ObjectsOf(TransactionItems(payload)))
    ensures forall r :: r in unpaid <==>
      InDirectory(directory, r) && !MarkedPaid(NotesOf(ObjectsOf(TransactionItems(payload))), r)
  {
    var txns := DecodeTransactions(payload);
    var recent := RemoveOld(txns, parseRfc3339);
    unpaid := CheckPayments(recent, directory);
  }

  /** `fulfill_remaining_payroll`, from the fetched payload on: one request
      per unpaid employee; nothing is paid here. */
  method DoPayroll(payload: Option<Value>, directory: seq<Employee>, parseRfc3339: string -> Option<int>)
    returns (reqs: seq<PaymentRequest>)
    requires WellTyped(ObjectsOf(TransactionItems(payload)))
    ensures reqs == RequestsFor(directory, UnpaidOf(directory, Markers(NotesOf(ObjectsOf(TransactionItems(payload))))))
  {
    var txns := DecodeTransactions(payload);
    var recent := RemoveOld(txns, parseRfc3339);
    var unpaid := CheckPayments(recent, directory);
    reqs := BuildRequests(directory, unpaid);
  }
}
