/** The pure logic of the mass-pay page: validating and parsing the pasted
    "address,amount" text, turning it into the submitted payments, the outcome of a
    submission on the page's input, the preview's row elision and the CSV import.
    `parseFloat` and viem's `isAddress` are parameters (`parse`, `isAddress`). */
module MassPayPage {
  import opened Wrappers
  import opened Strings
  import opened MassPay

  /** One imported CSV row, as kept by the page. */
  datatype CsvRow = CsvRow(address: string, amount: string)

  /** One record handed over by the CSV importer; a missing cell is None. */
  datatype ImportedItem = ImportedItem(address: Option<string>, amount: Option<string>)

  /** The part of the page's state that submission and import change: the text area
      (`addrAmt`) and the imported rows (`csvData`). */
  datatype PageState = PageState(addrAmt: string, csvData: seq<CsvRow>)

  /** What `resetData` restores: empty text and the initial, empty row list. */
  const ResetState: PageState := PageState("", [])

  /** The prefix of a submission result that marks it as an error. */
  const ErrorPrefix: string := "Error"

  // ---------------------------------------------------------------------------
  // Lines and fields

  /** The input's lines: `addrAmt.split("\n")`. */
  function Lines(text: string): seq<string> {
    Split(text, '\n')
  }

  /** The first two comma-separated fields of a line, as `const [addr, amt] =
      line.split(",")` binds them: the amount is undefined (None) without a comma. */
  datatype LineFields = LineFields(address: string, amount: Option<string>)

  function Fields(line: string): LineFields {
    var pieces := Split(line, ',');
    LineFields(pieces[0], if |pieces| >= 2 then Some(pieces[1]) else None)
  }

  /** Fields are acceptable when the address field is non-empty, the amount field is
      non-empty and parses to a positive number, and the trimmed address is an address. */
  predicate FieldsValid(f: LineFields, parse: string -> Number, isAddress: string -> bool) {
    && f.address != ""
    && f.amount.Some? && f.amount.value != ""
    && parse(f.amount.value).Finite?
    && parse(f.amount.value).value > 0.0
    && isAddress(Trim(f.address))
  }

  predicate LineValid(line: string, parse: string -> Number, isAddress: string -> bool) {
    FieldsValid(Fields(line), parse, isAddress)
  }

  /** The whole input is acceptable when every one of its lines is. */
  predicate AllLinesValid(text: string, parse: string -> Number, isAddress: string -> bool) {
    forall i :: 0 <= i < |Lines(text)| ==> LineValid(Lines(text)[i], parse, isAddress)
  }

  // ---------------------------------------------------------------------------
  // Validation

  /** The input is acceptable exactly when the fields of every line are. */
  lemma ValidRows(text: string, parse: string -> Number, isAddress: string -> bool)
    ensures AllLinesValid(text, parse, isAddress)
            <==> forall j :: 0 <= j < |FieldsOfLines(Lines(text))| ==>
                   FieldsValid(FieldsOfLines(Lines(text))[j], parse, isAddress)
  {
    var lines, rows := Lines(text), FieldsOfLines(Lines(text));
    assert forall j :: 0 <= j < |rows| ==> rows[j] == Fields(lines[j]);
  }

  /** The loop of `isValid`: scans the lines' fields in order and rejects at the first
      bad one. */
  method ScanFields(rows: seq<LineFields>, parse: string -> Number, isAddress: string -> bool) returns (ok: bool)
    ensures ok <==> forall j :: 0 <= j < |rows| ==> FieldsValid(rows[j], parse, isAddress)
  {
    var i := 0;
    while i < |rows|
      invariant 0 <= i <= |rows|
      invariant forall j :: 0 <= j < i ==> FieldsValid(rows[j], parse, isAddress)
    {
      var fields := rows[i];
      var addr, amt := fields.address, fields.amount;
      if addr == "" || amt.None? || amt.value == "" || parse(amt.value).NaN? {
        assert !FieldsValid(fields, parse, isAddress);
        return false;
      }
      if parse(amt.value).value <= 0.0 {
        assert !FieldsValid(fields, parse, isAddress);
        return false;
      }
      if !isAddress(Trim(addr)) {
        assert !FieldsValid(fields, parse, isAddress);
        return false;
      }
      assert FieldsValid(fields, parse, isAddress);
      i := i + 1;
    }
    return true;
  }

  /** `isValid`: splits the text into lines, destructures each into its two fields and
      accepts when every line's fields pass. */
  method IsValid(text: string, parse: string -> Number, isAddress: string -> bool) returns (ok: bool)
    ensures ok <==> AllLinesValid(text, parse, isAddress)
  {
    ok := ScanFields(FieldsOfLines(Lines(text)), parse, isAddress);
    ValidRows(text, parse, isAddress);
  }

  /** Empty input is rejected: it splits into one empty line, whose address field is
      empty. The text never splits into zero lines. */
  lemma EmptyInputRejected(parse: string -> Number, isAddress: string -> bool)
    ensures Lines("") == [""]
    ensures !AllLinesValid("", parse, isAddress)
  {
    assert Lines("")[0] == "";
  }

  /** Every line of `la + lb` is valid exactly when every line of both parts is. */
  lemma AllLinesAppend(la: seq<string>, lb: seq<string>, parse: string -> Number, isAddress: string -> bool)
    ensures (forall i :: 0 <= i < |la + lb| ==> LineValid((la + lb)[i], parse, isAddress))
            <==> (forall i :: 0 <= i < |la| ==> LineValid(la[i], parse, isAddress))
                 && (forall i :: 0 <= i < |lb| ==> LineValid(lb[i], parse, isAddress))
  {
    if (forall i :: 0 <= i < |la| ==> LineValid(la[i], parse, isAddress))
       && (forall i :: 0 <= i < |lb| ==> LineValid(lb[i], parse, isAddress)) {
      forall i | 0 <= i < |la + lb|
        ensures LineValid((la + lb)[i], parse, isAddress)
      {
        if i >= |la| {
          assert (la + lb)[i] == lb[i - |la|];
        }
      }
    }
    if forall i :: 0 <= i < |la + lb| ==> LineValid((la + lb)[i], parse, isAddress) {
      forall i | 0 <= i < |la|
        ensures LineValid(la[i], parse, isAddress)
      {
        assert (la + lb)[i] == la[i];
      }
      forall i | 0 <= i < |lb|
        ensures LineValid(lb[i], parse, isAddress)
      {
        assert (la + lb)[|la| + i] == lb[i];
      }
    }
  }

  /** Acceptance is all-or-nothing: two blocks of lines joined by a newline are
      accepted exactly when both blocks are. */
  lemma ValidityComposes(a: string, b: string, parse: string -> Number, isAddress: string -> bool)
    ensures AllLinesValid(a + "\n" + b, parse, isAddress)
            <==> AllLinesValid(a, parse, isAddress) && AllLinesValid(b, parse, isAddress)
  {
    SplitAppend(a, '\n', b);
    assert Lines(a + "\n" + b) == Lines(a) + Lines(b);
    AllLinesAppend(Lines(a), Lines(b), parse, isAddress);
  }

  /** A line with at least one comma keeps its first two fields whatever is appended
      after a further comma: extra fields are ignored. */
  lemma ExtraFieldsIgnored(line: string, extra: string, parse: string -> Number, isAddress: string -> bool)
    requires ',' in line
    ensures Fields(line + "," + extra) == Fields(line)
    ensures LineValid(line + "," + extra, parse, isAddress) == LineValid(line, parse, isAddress)
    ensures LineToTx(line + "," + extra, parse) == LineToTx(line, parse)
  {
    SplitAppend(line, ',', extra);
    var i := IndexOf(line, ',');
    assert Split(line, ',') == [line[..i]] + Split(line[i + 1..], ',');
  }

  // ---------------------------------------------------------------------------
  // Submission

  /** The payment built from one line: trimmed address, parsed trimmed amount. A line
      without a comma makes `amt.trim()` throw (None). */
  function LineToTx(line: string, parse: string -> Number): Option<Tx> {
    var fields := Fields(line);
    match fields.amount
    case None => None
    case Some(amt) => Some(Tx(Trim(fields.address), parse(Trim(amt))))
  }

  /** `txs` in `handleSubmit`: one payment per line in line order, or None when a line
      throws. */
  function LinesToTxs(lines: seq<string>, parse: string -> Number): (r: Option<seq<Tx>>)
    ensures r.Some? <==> forall i :: 0 <= i < |lines| ==> LineToTx(lines[i], parse).Some?
    ensures r.Some? ==>
      && |r.value| == |lines|
      && forall i :: 0 <= i < |lines| ==> LineToTx(lines[i], parse) == Some(r.value[i])
  {
    MapAll(lines, line => LineToTx(line, parse))
  }

  /** The payments `handleSubmit` builds from the page's text. */
  function SubmittedTxs(text: string, parse: string -> Number): Option<seq<Tx>> {
    LinesToTxs(Lines(text), parse)
  }

  /** `parseFloat` skips leading whitespace and ignores trailing characters, so it gives
      the same number for an amount and its trimmed form. */
  ghost predicate TrimInsensitive(parse: string -> Number) {
    forall amt :: parse(Trim(amt)) == parse(amt)
  }

  /** Accepted input always submits: one payment per line, each to an address that
      passed the address check, and (parsing being trim-insensitive) each of a positive
      amount. */
  lemma ValidInputSubmits(text: string, parse: string -> Number, isAddress: string -> bool)
    requires AllLinesValid(text, parse, isAddress)
    ensures SubmittedTxs(text, parse).Some?
    ensures |SubmittedTxs(text, parse).value| == |Lines(text)|
    ensures forall i :: 0 <= i < |Lines(text)| ==> isAddress(SubmittedTxs(text, parse).value[i].to)
    ensures TrimInsensitive(parse) ==>
      forall i :: 0 <= i < |Lines(text)| ==>
        SubmittedTxs(text, parse).value[i].value.Finite? && SubmittedTxs(text, parse).value[i].value.value > 0.0
  {
    var lines := Lines(text);
    assert forall i :: 0 <= i < |lines| ==> LineValid(lines[i], parse, isAddress);
    if TrimInsensitive(parse) {
      forall i | 0 <= i < |lines|
        ensures parse(Trim(Fields(lines[i]).amount.value)) == parse(Fields(lines[i]).amount.value)
      {
      }
    }
  }

  /** `handleSubmit`: build the payments and execute them. A result starting with
      "Error" returns early and keeps the input; any other result, or a thrown error,
      reaches `resetData`. */
  function HandleSubmit(st: PageState, parse: string -> Number, s: Session,
                        send: seq<Call> -> Result<Hex, string>): (r: PageState)
    ensures r == st || r == ResetState
    ensures r != ResetState ==>
      SubmittedTxs(st.addrAmt, parse).Some?
      && StartsWith(ExecuteGaslessMassPay(SubmittedTxs(st.addrAmt, parse).value, s, send), ErrorPrefix)
    ensures SubmittedTxs(st.addrAmt, parse).Some?
      && StartsWith(ExecuteGaslessMassPay(SubmittedTxs(st.addrAmt, parse).value, s, send), ErrorPrefix)
      ==> r == st
  {
    match SubmittedTxs(st.addrAmt, parse)
    case None => ResetState
    case Some(txs) =>
      var txHash := ExecuteGaslessMassPay(txs, s, send);
      if StartsWith(txHash, ErrorPrefix) then st else ResetState
  }

  /** When the permit cannot be signed, submission reports "Error preparing mass pay"
      and the page keeps its input. */
  lemma SigningFailureKeepsInput(st: PageState, parse: string -> Number, s: Session,
                                 send: seq<Call> -> Result<Hex, string>)
    requires SubmittedTxs(st.addrAmt, parse).Some?
    requires ScaleAll(SubmittedTxs(st.addrAmt, parse).value, s.toUnits, Constants.SBC.decimals).Success?
    requires PermitRefused(SubmittedTxs(st.addrAmt, parse).value, s)
    ensures HandleSubmit(st, parse, s, send) == st
  {
    var txs := SubmittedTxs(st.addrAmt, parse).value;
    PermitFailureEmptiesCalls(txs, s);
    assert ExecuteGaslessMassPay(txs, s, send) == PrepareError;
    assert StartsWith(PrepareError, ErrorPrefix);
  }

  // ---------------------------------------------------------------------------
  // Preview

  /** One entry of the confirmation preview: a line's fields, or the "..." marker. */
  datatype PreviewItem = Row(index: nat, fields: LineFields) | Ellipsis

  /** The fields of every line, in line order: what `split("\n").map` destructures. */
  function FieldsOfLines(lines: seq<string>): seq<LineFields> {
    seq(|lines|, i requires 0 <= i < |lines| => Fields(lines[i]))
  }

  /** What the preview renders for line `idx`: the first three and last three lines as
      rows, "..." in place of line 3 when it is not among them, nothing otherwise. */
  function PreviewAt(rows: seq<LineFields>, idx: nat): Option<PreviewItem>
    requires idx < |rows|
  {
    if idx < 3 || idx > |rows| - 4 then Some(Row(idx, rows[idx]))
    else if idx == 3 then Some(Ellipsis)
    else None
  }

  /** The rendered entries for lines `idx..`, in order. */
  function PreviewFrom(rows: seq<LineFields>, idx: nat): seq<PreviewItem>
    requires idx <= |rows|
    decreases |rows| - idx
  {
    if idx == |rows| then []
    else
      (match PreviewAt(rows, idx) case None => [] case Some(item) => [item]) + PreviewFrom(rows, idx + 1)
  }

  /** The preview of the page's text. */
  function Preview(text: string): seq<PreviewItem> {
    PreviewFrom(FieldsOfLines(Lines(text)), 0)
  }

  /** From an index where no line is elided on, every remaining line is shown as its own row. */
  lemma {:induction false} PreviewAllRows(rows: seq<LineFields>, idx: nat)
    requires idx <= |rows|
    requires |rows| <= 6 || idx + 3 >= |rows|
    ensures |PreviewFrom(rows, idx)| == |rows| - idx
    ensures forall k :: 0 <= k < |rows| - idx ==> PreviewFrom(rows, idx)[k] == Row(idx + k, rows[idx + k])
    decreases |rows| - idx
  {
    if idx < |rows| {
      PreviewAllRows(rows, idx + 1);
    }
  }

  /** Lines 4 up to the last three render nothing, so the preview jumps straight to the tail. */
  lemma {:induction false} PreviewSkipsMiddle(rows: seq<LineFields>, idx: nat)
    requires 4 <= idx && idx + 3 <= |rows|
    ensures PreviewFrom(rows, idx) == PreviewFrom(rows, |rows| - 3)
    decreases |rows| - idx
  {
    if idx + 3 < |rows| {
      PreviewSkipsMiddle(rows, idx + 1);
    }
  }

  /** Up to six lines are all shown, in order, with no "...". */
  lemma PreviewShort(text: string)
    requires |Lines(text)| <= 6
    ensures |Preview(text)| == |Lines(text)|
    ensures forall i :: 0 <= i < |Lines(text)| ==> Preview(text)[i] == Row(i, Fields(Lines(text)[i]))
    ensures Ellipsis !in Preview(text)
  {
    PreviewAllRows(FieldsOfLines(Lines(text)), 0);
  }

  /** A line that renders an entry puts it in front of the entries for the following lines. */
  lemma PreviewStep(rows: seq<LineFields>, idx: nat)
    requires idx < |rows|
    ensures PreviewAt(rows, idx).Some? ==> PreviewFrom(rows, idx) == [PreviewAt(rows, idx).value] + PreviewFrom(rows, idx + 1)
  {
  }

  /** Four single-element prefixes make one four-element prefix. */
  lemma ConsFour<T>(a: T, b: T, c: T, d: T, rest: seq<T>)
    ensures [a] + ([b] + ([c] + ([d] + rest))) == [a, b, c, d] + rest
  {
  }

  /** With seven or more lines, the first four entries are lines 0-2 and "...". */
  lemma PreviewHead(rows: seq<LineFields>)
    requires |rows| >= 7
    ensures PreviewFrom(rows, 0) == [Row(0, rows[0]), Row(1, rows[1]), Row(2, rows[2]), Ellipsis] + PreviewFrom(rows, 4)
  {
    var r0, r1, r2 := Row(0, rows[0]), Row(1, rows[1]), Row(2, rows[2]);
    var rest := PreviewFrom(rows, 4);
    PreviewStep(rows, 3);
    assert PreviewAt(rows, 3) == Some(Ellipsis);
    var p3 := [Ellipsis] + rest;
    PreviewStep(rows, 2);
    var p2 := [r2] + p3;
    PreviewStep(rows, 1);
    var p1 := [r1] + p2;
    PreviewStep(rows, 0);
    assert PreviewFrom(rows, 0) == [r0] + p1;
    ConsFour(r0, r1, r2, Ellipsis, rest);
  }

  /** With seven or more lines, the entries from line 4 on are the last three lines' rows. */
  lemma PreviewTail(rows: seq<LineFields>)
    requires |rows| >= 7
    ensures PreviewFrom(rows, 4) == [Row(|rows| - 3, rows[|rows| - 3]), Row(|rows| - 2, rows[|rows| - 2]), Row(|rows| - 1, rows[|rows| - 1])]
  {
    var n := |rows|;
    PreviewAllRows(rows, n - 3);
    if n > 7 {
      PreviewSkipsMiddle(rows, 4);
    }
  }

  /** With seven or more lines: rows 0-2, the ellipsis, then the last three lines' rows. */
  lemma PreviewLongRows(rows: seq<LineFields>)
    requires |rows| >= 7
    ensures |PreviewFrom(rows, 0)| == 7
    ensures forall i :: 0 <= i < 3 ==> PreviewFrom(rows, 0)[i] == Row(i, rows[i])
    ensures PreviewFrom(rows, 0)[3] == Ellipsis
    ensures forall i :: 4 <= i < 7 ==> PreviewFrom(rows, 0)[i] == Row(|rows| - 7 + i, rows[|rows| - 7 + i])
  {
    var n := |rows|;
    PreviewHead(rows);
    PreviewTail(rows);
    var shown := [Row(0, rows[0]), Row(1, rows[1]), Row(2, rows[2]), Ellipsis,
                  Row(n - 3, rows[n - 3]), Row(n - 2, rows[n - 2]), Row(n - 1, rows[n - 1])];
    assert PreviewFrom(rows, 0) == shown;
  }

  /** Seven or more lines show exactly lines 0-2, then "...", then the last three. */
  lemma PreviewLong(text: string)
    requires |Lines(text)| >= 7
    ensures |Preview(text)| == 7
    ensures forall i :: 0 <= i < 3 ==> Preview(text)[i] == Row(i, Fields(Lines(text)[i]))
    ensures Preview(text)[3] == Ellipsis
    ensures forall i :: 4 <= i < 7 ==>
      Preview(text)[i] == Row(|Lines(text)| - 7 + i, Fields(Lines(text)[|Lines(text)| - 7 + i]))
  {
    PreviewLongRows(FieldsOfLines(Lines(text)));
  }

  // ---------------------------------------------------------------------------
  // CSV import

  /** `String(item.x ?? "")` for both cells of an imported record. */
  function FormatItem(item: ImportedItem): CsvRow {
    CsvRow(item.address.GetOr(""), item.amount.GetOr(""))
  }

  /** The rows as text: `address + "," + amount` per row, joined by newlines. */
  function CsvText(rows: seq<CsvRow>): string {
    Join(seq(|rows|, i requires 0 <= i < |rows| => rows[i].address + "," + rows[i].amount), '\n')
  }

  /** `onImport`: the imported rows are appended to `csvData` and their text replaces
      the text area. */
  function OnImport(st: PageState, parsed: seq<ImportedItem>): (r: PageState)
    ensures |r.csvData| == |st.csvData| + |parsed|
    ensures r.csvData[..|st.csvData|] == st.csvData
    ensures forall i :: 0 <= i < |parsed| ==> r.csvData[|st.csvData| + i] == FormatItem(parsed[i])
    ensures r.addrAmt == CsvText(r.csvData[|st.csvData|..])
  {
    var formatted := seq(|parsed|, i requires 0 <= i < |parsed| => FormatItem(parsed[i]));
    assert (st.csvData + formatted)[|st.csvData|..] == formatted;
    PageState(CsvText(formatted), st.csvData + formatted)
  }

  /** A field that survives the text round trip: no comma and no newline inside. */
  predicate PlainField(f: string) {
    ',' !in f && '\n' !in f
  }

  /** Importing no rows leaves empty text, which is rejected. */
  lemma EmptyImportRejected(parse: string -> Number, isAddress: string -> bool)
    ensures !AllLinesValid(CsvText([]), parse, isAddress)
  {
    EmptyInputRejected(parse, isAddress);
  }

  /** Reading back imported text recovers every row: one line per row, in order, with
      the row's address and amount as the two fields, and one payment per row with the
      trimmed address and the parsed trimmed amount. */
  lemma CsvRoundTrip(rows: seq<CsvRow>, parse: string -> Number)
    requires |rows| >= 1
    requires forall i :: 0 <= i < |rows| ==> PlainField(rows[i].address) && PlainField(rows[i].amount)
    ensures |Lines(CsvText(rows))| == |rows|
    ensures forall i :: 0 <= i < |rows| ==>
      Fields(Lines(CsvText(rows))[i]).address == rows[i].address
      && Fields(Lines(CsvText(rows))[i]).amount == Some(rows[i].amount)
    ensures SubmittedTxs(CsvText(rows), parse).Some?
    ensures |SubmittedTxs(CsvText(rows), parse).value| == |rows|
    ensures forall i :: 0 <= i < |rows| ==>
      SubmittedTxs(CsvText(rows), parse).value[i] == Tx(Trim(rows[i].address), parse(Trim(rows[i].amount)))
  {
    var texts := seq(|rows|, i requires 0 <= i < |rows| => rows[i].address + "," + rows[i].amount);
    forall i | 0 <= i < |rows|
      ensures '\n' !in texts[i]
      ensures Split(texts[i], ',') == [rows[i].address, rows[i].amount]
    {
      SplitAtFirst(rows[i].address, ',', rows[i].amount);
    }
    SplitJoin(texts, '\n');
  }
}
