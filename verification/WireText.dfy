/** Fixed textual layouts: canonical decimals and url-safe words in a given order, each
    behind its literal, printed and scanned. One layout is the continuation payload. */
module WireText {
  import opened Bytes
  import opened Base64Url
  import opened Decimal

  datatype Slot = Num(lead: Text, bound: nat) | Word(lead: Text)

  datatype Field = Number(value: nat) | Name(text: Text)

  predicate FitsSlot(slot: Slot, f: Field) {
    match slot
    case Num(_, bound) => f.Number? && f.value < bound
    case Word(_) => f.Name? && UrlSafe(f.text)
  }

  predicate Fits(slots: seq<Slot>, fields: seq<Field>) {
    |slots| == |fields| && forall i :: 0 <= i < |slots| ==> FitsSlot(slots[i], fields[i])
  }

  function RenderField(f: Field): Text {
    match f
    case Number(value) => Digits(value)
    case Name(text) => text
  }

  function Render(slots: seq<Slot>, close: Text, fields: seq<Field>): Text
    requires |slots| == |fields|
  {
    if slots == [] then close
    else slots[0].lead + (RenderField(fields[0]) + Render(slots[1..], close, fields[1..]))
  }

  /** Length of the run of digits, or of url-safe symbols, at the front. */
  function DigitRun(b: Text): (n: nat)
    ensures n <= |b| && AllDigits(b[..n])
  {
    if b == [] || !IsDigit(b[0]) then 0
    else
      assert b[..1 + DigitRun(b[1..])] == [b[0]] + b[1..][..DigitRun(b[1..])];
      1 + DigitRun(b[1..])
  }

  function WordRun(b: Text): (n: nat)
    ensures n <= |b| && UrlSafe(b[..n])
  {
    if b == [] || !IsUrlSafe(b[0]) then 0
    else
      assert b[..1 + WordRun(b[1..])] == [b[0]] + b[1..][..WordRun(b[1..])];
      1 + WordRun(b[1..])
  }

  /** One field at the front, and what follows it. */
  function ScanField(slot: Slot, b: Text): Option<(Field, Text)> {
    match slot
    case Num(_, bound) =>
      var t := b[..DigitRun(b)];
      if Canonical(t) && ValueOf(t) < bound then Some((Number(ValueOf(t)), b[|t|..])) else None
    case Word(_) =>
      Some((Name(b[..WordRun(b)]), b[WordRun(b)..]))
  }

  function Scan(slots: seq<Slot>, close: Text, b: Text): Option<seq<Field>> {
    if slots == [] then if b == close then Some([]) else None
    else if !(slots[0].lead <= b) then None
    else
      var first := ScanField(slots[0], b[|slots[0].lead|..]);
      if first.None? then None
      else
        var rest := Scan(slots[1..], close, first.value.1);
        if rest.None? then None else Some([first.value.0] + rest.value)
  }

  /** Every literal starts with a byte that cannot continue a number or word. */
  predicate Separator(t: Text) {
    t != [] && !IsUrlSafe(t[0])
  }

  predicate Separated(slots: seq<Slot>, close: Text) {
    Separator(close) && forall i :: 0 <= i < |slots| ==> Separator(slots[i].lead)
  }

  lemma {:induction false} DigitRunStops(t: Text, rest: Text)
    requires AllDigits(t) && Separator(rest)
    ensures DigitRun(t + rest) == |t|
  {
    if t == [] {
      assert t + rest == rest;
    } else {
      DigitRunStops(t[1..], rest);
      assert (t + rest)[1..] == t[1..] + rest;
      assert IsDigit((t + rest)[0]);
    }
  }

  lemma {:induction false} WordRunStops(t: Text, rest: Text)
    requires UrlSafe(t) && Separator(rest)
    ensures WordRun(t + rest) == |t|
  {
    if t == [] {
      assert t + rest == rest;
    } else {
      WordRunStops(t[1..], rest);
      assert (t + rest)[1..] == t[1..] + rest;
      assert IsUrlSafe((t + rest)[0]);
    }
  }

  lemma ScanRenderField(slot: Slot, f: Field, rest: Text)
    requires FitsSlot(slot, f) && Separator(rest)
    ensures ScanField(slot, RenderField(f) + rest) == Some((f, rest))
  {
    var t := RenderField(f);
    if f.Number? {
      ValueOfDigits(f.value);
      DigitRunStops(t, rest);
    } else {
      WordRunStops(t, rest);
    }
    assert (t + rest)[..|t|] == t && (t + rest)[|t|..] == rest;
  }

  lemma RenderScanField(slot: Slot, b: Text)
    requires ScanField(slot, b).Some?
    ensures var (f, rest) := ScanField(slot, b).value;
            FitsSlot(slot, f) && RenderField(f) + rest == b
  {
    if slot.Num? {
      DigitsOfValue(b[..DigitRun(b)]);
    }
  }

  lemma RenderStart(slots: seq<Slot>, close: Text, fields: seq<Field>)
    requires Separated(slots, close) && |slots| == |fields|
    ensures Separator(Render(slots, close, fields))
  {
  }

  lemma ScanAfter(slots: seq<Slot>, close: Text, f: Field, body: Text, rest: Text)
    requires slots != [] && ScanField(slots[0], body) == Some((f, rest))
    requires Scan(slots[1..], close, rest).Some?
    ensures Scan(slots, close, slots[0].lead + body) == Some([f] + Scan(slots[1..], close, rest).value)
  {
    assert (slots[0].lead + body)[|slots[0].lead|..] == body;
  }

  /** What is printed is scanned back. */
  lemma {:induction false} ScanRender(slots: seq<Slot>, close: Text, fields: seq<Field>)
    requires Separated(slots, close) && Fits(slots, fields)
    ensures Scan(slots, close, Render(slots, close, fields)) == Some(fields)
    decreases |slots|
  {
    if slots == [] {
    } else {
      var f, rest := fields[0], Render(slots[1..], close, fields[1..]);
      ScanRender(slots[1..], close, fields[1..]);
      RenderStart(slots[1..], close, fields[1..]);
      ScanRenderField(slots[0], f, rest);
      ScanAfter(slots, close, f, RenderField(f) + rest, rest);
      assert fields == [f] + fields[1..];
    }
  }

  /** What is scanned is the print of what was read. */
  lemma {:induction false} RenderScan(slots: seq<Slot>, close: Text, b: Text)
    requires Scan(slots, close, b).Some?
    ensures Fits(slots, Scan(slots, close, b).value)
    ensures Render(slots, close, Scan(slots, close, b).value) == b
    decreases |slots|
  {
    if slots == [] {
    } else {
      var lead := slots[0].lead;
      var body := b[|lead|..];
      var (f, rest) := ScanField(slots[0], body).value;
      RenderScanField(slots[0], body);
      RenderScan(slots[1..], close, rest);
      var fields := Scan(slots[1..], close, rest).value;
      assert ([f] + fields)[1..] == fields;
      assert b == lead + body;
    }
  }

  lemma {:induction false} RenderLength(slots: seq<Slot>, close: Text, fields: seq<Field>)
    requires |slots| == |fields|
    requires forall i :: 0 <= i < |slots| ==> |slots[i].lead| <= 10 && |RenderField(fields[i])| <= 43
    ensures |Render(slots, close, fields)| <= |close| + 53 * |slots|
    decreases |slots|
  {
    if slots == [] {
    } else {
      RenderLength(slots[1..], close, fields[1..]);
    }
  }
}
