/** The raw-command attribute of the HID driver: a text of hexadecimal bytes becomes a 64-byte report,
    and the last response is printed in the same form. */
module HidText {
  import opened Wrappers
  import opened Bytes

  const REPORT_SIZE := 64
  const REPORT_ID: u8 := 0x5a

  // ----- characters

  predicate IsBlank(c: u8) { c == 0x20 || c == 0x09 || c == 0x0a }

  /** What the kernel's scanner skips before a number: more than the blanks of the command syntax. */
  predicate IsSpace(c: u8) { 9 <= c <= 13 || c == 0x20 || c == 0xa0 }

  predicate IsHex(c: u8) { 0x30 <= c <= 0x39 || 0x41 <= c <= 0x46 || 0x61 <= c <= 0x66 }

  function HexValue(c: u8): (v: u8)
    requires IsHex(c)
    ensures v < 16
  {
    if c <= 0x39 then c - 0x30 else if c <= 0x46 then c - 0x37 else c - 0x57
  }

  function HexDigit(v: u8): (c: u8)
    requires v < 16
    ensures IsHex(c) && HexValue(c) == v
  {
    if v < 10 then 0x30 + v else 0x57 + v
  }

  // ----- what the scanner reads

  function SkipBlanks(text: seq<u8>, from: nat): (k: nat)
    requires from <= |text|
    ensures from <= k <= |text|
    ensures k < |text| ==> !IsBlank(text[k])
    decreases |text| - from
  {
    if from < |text| && IsBlank(text[from]) then SkipBlanks(text, from + 1) else from
  }

  function SkipSpaces(text: seq<u8>, from: nat): (k: nat)
    requires from <= |text|
    ensures from <= k <= |text|
    decreases |text| - from
  {
    if from < |text| && IsSpace(text[from]) then SkipSpaces(text, from + 1) else from
  }

  datatype Number = Number(value: u8, next: nat)

  /** A number of at most two characters after any space. The characters 0x are a prefix, and with it
      the field is used up: they read as zero. */
  function ReadHex(text: seq<u8>, from: nat): (r: Option<Number>)
    requires from <= |text|
    ensures r.Some? ==> from < r.value.next <= |text|
  {
    var s := SkipSpaces(text, from);
    if s == |text| || !IsHex(text[s]) then None
    else if s + 1 == |text| then Some(Number(HexValue(text[s]), s + 1))
    else if text[s] == 0x30 && (text[s + 1] == 0x78 || text[s + 1] == 0x58) then Some(Number(0, s + 2))
    else if IsHex(text[s + 1]) then Some(Number(16 * HexValue(text[s]) + HexValue(text[s + 1]), s + 2))
    else Some(Number(HexValue(text[s]), s + 1))
  }

  /** At most `n` numbers from `from` on, each followed by a blank or the end; what follows the n-th is
      not looked at, beyond its own end. */
  function Numbers(text: seq<u8>, from: nat, n: nat): (r: Option<seq<u8>>)
    requires from <= |text|
    ensures r.Some? ==> |r.value| <= n
    decreases n
  {
    var c := SkipBlanks(text, from);
    if n == 0 || c == |text| then Some([])
    else
      match ReadHex(text, c)
      case None => None
      case Some(x) =>
        if x.next < |text| && !IsBlank(text[x.next]) then None
        else
          match Numbers(text, x.next, n - 1)
          case None => None
          case Some(rest) => Some([x.value] + rest)
  }

  function Padded(bytes: seq<u8>): (s: seq<u8>)
    requires |bytes| < REPORT_SIZE
    ensures |s| == REPORT_SIZE
  {
    [REPORT_ID] + bytes + seq(REPORT_SIZE - 1 - |bytes|, _ => 0)
  }

  /** A report of 64 bytes: its id, the bytes, and zeros. */
  lemma ReportLayout(bytes: seq<u8>)
    requires |bytes| < 64
    ensures var s := Padded(bytes);
            && |s| == 64 && s[0] == 0x5a && s[1..1 + |bytes|] == bytes
            && forall i :: 1 + |bytes| <= i < 64 ==> s[i] == 0
  {
  }

  /** The report a command text stands for; None is -EINVAL. */
  function Command(text: seq<u8>): Option<seq<u8>> {
    match Numbers(text, 0, REPORT_SIZE - 1)
    case None => None
    case Some(bytes) => if bytes == [] then None else Some(Padded(bytes))
  }

  // ----- the printer

  function Printed(b: u8): seq<u8> { [HexDigit(b / 16), HexDigit(b % 16)] }

  /** Bytes in two digits each, a separator after each. */
  function Line(bytes: seq<u8>): seq<u8> {
    if bytes == [] then []
    else Printed(bytes[0]) + [if |bytes| == 1 then 0x0a else 0x20] + Line(bytes[1..])
  }

  // ----- an independent reading: words

  function WordEnd(text: seq<u8>, from: nat): (k: nat)
    requires from <= |text|
    ensures from <= k <= |text|
    ensures forall i :: from <= i < k ==> !IsBlank(text[i])
    ensures k < |text| ==> IsBlank(text[k])
    decreases |text| - from
  {
    if from == |text| || IsBlank(text[from]) then from else WordEnd(text, from + 1)
  }

  /** The maximal runs of characters that are not blank. */
  function Words(text: seq<u8>, from: nat): seq<seq<u8>>
    requires from <= |text|
    decreases |text| - from
  {
    var c := SkipBlanks(text, from);
    if c == |text| then [] else [text[c..WordEnd(text, c)]] + Words(text, WordEnd(text, c))
  }

  function ByteOf(w: seq<u8>): Option<u8> {
    if |w| == 1 && IsHex(w[0]) then Some(HexValue(w[0]))
    else if |w| == 2 && w[0] == 0x30 && (w[1] == 0x78 || w[1] == 0x58) then Some(0)
    else if |w| == 2 && IsHex(w[0]) && IsHex(w[1]) then Some(16 * HexValue(w[0]) + HexValue(w[1]))
    else None
  }

  function BytesOf(ws: seq<seq<u8>>): (r: Option<seq<u8>>)
    ensures r.Some? ==> |r.value| == |ws|
  {
    if ws == [] then Some([])
    else match (ByteOf(ws[0]), BytesOf(ws[1..]))
      case (Some(b), Some(rest)) => Some([b] + rest)
      case _ => None
  }

  /** The fields of a text: past the blanks and then any other space, the characters up to the next
      blank. A field is empty when only space is left. */
  function HexFields(text: seq<u8>, from: nat): seq<seq<u8>>
    requires from <= |text|
    decreases |text| - from
  {
    var c := SkipBlanks(text, from);
    if c == |text| then []
    else
      var s := SkipSpaces(text, c);
      FieldAdvances(text, c);
      [text[s..WordEnd(text, s)]] + HexFields(text, WordEnd(text, s))
  }

  lemma FieldAdvances(text: seq<u8>, c: nat)
    requires c < |text| && !IsBlank(text[c])
    ensures c < WordEnd(text, SkipSpaces(text, c))
    ensures var s := SkipSpaces(text, c); s < |text| ==> !IsSpace(text[s])
    ensures !IsSpace(text[c]) <==> SkipSpaces(text, c) == c
  {
    NotSpace(text, c);
  }

  lemma {:induction false} NotSpace(text: seq<u8>, from: nat)
    requires from <= |text|
    ensures var s := SkipSpaces(text, from); s < |text| ==> !IsSpace(text[s])
    decreases |text| - from
  {
    if from < |text| && IsSpace(text[from]) { NotSpace(text, from + 1); }
  }

  function Take<T>(s: seq<T>, n: nat): seq<T> { if |s| <= n then s else s[..n] }

  /** At a field, the scanner and the field agree on its value and on where it must end. */
  lemma FieldValue(text: seq<u8>, c: nat)
    requires c < |text| && !IsBlank(text[c])
    ensures var r, s := ReadHex(text, c), SkipSpaces(text, c);
            var k := WordEnd(text, s);
            && ByteOf(text[s..k]) == (if r.Some? && (r.value.next == |text| || IsBlank(text[r.value.next]))
                                      then Some(r.value.value) else None)
            && (r.Some? && (r.value.next == |text| || IsBlank(text[r.value.next])) ==> r.value.next == k)
  {
    var s := SkipSpaces(text, c);
    var k := WordEnd(text, s);
    var w := text[s..k];
    FieldAdvances(text, c);
    assert forall i :: 0 <= i < k - s ==> w[i] == text[s + i];
    if s < |text| {
      assert WordEnd(text, s) == WordEnd(text, s + 1);
      if s + 1 < |text| && !IsBlank(text[s + 1]) {
        assert WordEnd(text, s + 1) == WordEnd(text, s + 2);
      }
    }
  }

  /** The scanner reads any text field by field: it accepts exactly when each of the first `n` fields is
      a byte, and gives their values; further fields are not looked at. */
  lemma {:induction false} NumbersAreFields(text: seq<u8>, from: nat, n: nat)
    requires from <= |text|
    ensures Numbers(text, from, n) == BytesOf(Take(HexFields(text, from), n))
    decreases n
  {
    hide ReadHex, ByteOf;
    var c := SkipBlanks(text, from);
    if n > 0 && c < |text| {
      var k := WordEnd(text, SkipSpaces(text, c));
      FieldAdvances(text, c);
      FieldValue(text, c);
      NumbersAreFields(text, k, n - 1);
      var fs := HexFields(text, from);
      assert Take(fs, n)[1..] == Take(fs[1..], n - 1);
    }
  }

  /** No word starts with space that is not blank. */
  ghost predicate PlainWords(ws: seq<seq<u8>>) { forall i :: 0 <= i < |ws| ==> ws[i] != [] && !IsSpace(ws[i][0]) }

  /** The fields are the words exactly when no word starts with other space. */
  lemma {:induction false} FieldsAreWords(text: seq<u8>, from: nat)
    requires from <= |text|
    ensures HexFields(text, from) == Words(text, from) <==> PlainWords(Words(text, from))
    decreases |text| - from
  {
    var c := SkipBlanks(text, from);
    if c < |text| {
      FieldAdvances(text, c);
      var ws, fs := Words(text, from), HexFields(text, from);
      var s, k := SkipSpaces(text, c), WordEnd(text, c);
      assert ws == [text[c..k]] + Words(text, k);
      if s == c {
        FieldsAreWords(text, k);
        assert fs == [text[c..k]] + HexFields(text, k);
        assert fs[1..] == HexFields(text, k) && ws[1..] == Words(text, k);
        assert PlainWords(ws) <==> PlainWords(ws[1..]) by { PlainFront(ws); }
      } else {
        assert IsSpace(ws[0][0]);
        assert fs[0] != [] ==> !IsSpace(fs[0][0]);
        assert fs != ws;
      }
    }
  }

  lemma PlainFront(ws: seq<seq<u8>>)
    requires ws != [] && ws[0] != [] && !IsSpace(ws[0][0])
    ensures PlainWords(ws) <==> PlainWords(ws[1..])
  {
    if PlainWords(ws[1..]) {
      forall i | 0 <= i < |ws| ensures ws[i] != [] && !IsSpace(ws[i][0]) {
        if i > 0 { assert ws[i] == ws[1..][i - 1]; }
      }
    }
    if PlainWords(ws) {
      forall i | 0 <= i < |ws[1..]| ensures ws[1..][i] != [] && !IsSpace(ws[1..][i][0]) {
        assert ws[1..][i] == ws[i + 1];
      }
    }
  }

  /** What a reading by fields, or by words, makes of a text. */
  function ReportOf(fields: seq<seq<u8>>): Option<seq<u8>> {
    match BytesOf(Take(fields, REPORT_SIZE - 1))
    case None => None
    case Some(bytes) => if bytes == [] then None else Some(Padded(bytes))
  }

  /** The texts the attribute accepts, and the report they stand for: all texts by their fields, and
      those in which no word starts with other space by their words. */
  lemma CommandOfFields(text: seq<u8>)
    ensures Command(text) == ReportOf(HexFields(text, 0))
    ensures PlainWords(Words(text, 0)) ==> Command(text) == ReportOf(Words(text, 0))
  {
    NumbersAreFields(text, 0, REPORT_SIZE - 1);
    FieldsAreWords(text, 0);
  }

  /** The blanks are the three characters the driver skips. */
  lemma BlankCharacters(c: u8)
    ensures IsBlank(c) <==> c as char in " \t\n"
  {
    assert c as char in " \t\n" ==> c == 0x20 || c == 0x09 || c == 0x0a;
  }

  // ----- capitals

  function Small(c: u8): u8 { if 0x41 <= c <= 0x5a then c + 0x20 else c }

  /** The texts differ only in which letters are capitals. */
  predicate SameLetters(a: seq<u8>, b: seq<u8>) {
    |a| == |b| && forall i :: 0 <= i < |a| ==> Small(a[i]) == Small(b[i])
  }

  lemma SameCharacter(c: u8, d: u8)
    requires Small(c) == Small(d)
    ensures IsBlank(c) == IsBlank(d) && IsSpace(c) == IsSpace(d) && IsHex(c) == IsHex(d)
    ensures IsHex(c) ==> HexValue(c) == HexValue(d)
    ensures (c == 0x30 <==> d == 0x30) && (c == 0x78 || c == 0x58 <==> d == 0x78 || d == 0x58)
  {
  }

  lemma {:induction false} SameSkips(a: seq<u8>, b: seq<u8>, from: nat)
    requires SameLetters(a, b) && from <= |a|
    ensures SkipBlanks(a, from) == SkipBlanks(b, from) && SkipSpaces(a, from) == SkipSpaces(b, from)
    decreases |a| - from
  {
    if from < |a| {
      hide IsBlank, IsSpace, Small;
      SameCharacter(a[from], b[from]);
      SameSkips(a, b, from + 1);
    }
  }

  lemma SameNumber(a: seq<u8>, b: seq<u8>, from: nat)
    requires SameLetters(a, b) && from <= |a|
    ensures ReadHex(a, from) == ReadHex(b, from)
  {
    hide IsHex, HexValue, SkipSpaces, Small;
    SameSkips(a, b, from);
    var s := SkipSpaces(a, from);
    if s < |a| { SameCharacter(a[s], b[s]); }
    if s + 1 < |a| { SameCharacter(a[s + 1], b[s + 1]); }
  }

  lemma {:induction false} SameNumbers(a: seq<u8>, b: seq<u8>, from: nat, n: nat)
    requires SameLetters(a, b) && from <= |a|
    ensures Numbers(a, from, n) == Numbers(b, from, n)
    decreases n
  {
    hide ReadHex, SkipBlanks, Small, SameLetters, IsBlank;
    SameSkips(a, b, from);
    assert |a| == |b| by { SameLength(a, b); }
    var c := SkipBlanks(a, from);
    if n > 0 && c < |a| {
      SameNumber(a, b, c);
      if ReadHex(a, c).Some? {
        var next := ReadHex(a, c).value.next;
        if next < |a| { SameBlank(a, b, next); }
        SameNumbers(a, b, next, n - 1);
      }
    }
  }

  lemma SameLength(a: seq<u8>, b: seq<u8>)
    requires SameLetters(a, b)
    ensures |a| == |b|
  {
  }

  lemma SameBlank(a: seq<u8>, b: seq<u8>, i: nat)
    requires SameLetters(a, b) && i < |a|
    ensures IsBlank(a[i]) == IsBlank(b[i])
  {
    SameCharacter(a[i], b[i]);
  }

  /** Capitals read as their small letters: texts that differ only in capitals are the same command. */
  lemma CapitalsDoNotMatter(a: seq<u8>, b: seq<u8>)
    requires SameLetters(a, b)
    ensures Command(a) == Command(b)
  {
    hide Numbers, SameLetters;
    SameNumbers(a, b, 0, REPORT_SIZE - 1);
  }

  /** Other white space is skipped inside a field, also across a blank: the words do not tell. */
  lemma OtherSpaceJoinsWords()
    ensures var text: seq<u8> := [0x0d, 0x20, 0x31];  // "\r 1"
            Numbers(text, 0, 1) == Some([1]) && BytesOf(Take(Words(text, 0), 1)) == None
  {
    var text: seq<u8> := [0x0d, 0x20, 0x31];
    assert ReadHex(text, 0) == Some(Number(1, 3)) by {
      assert SkipSpaces(text, 2) == 2;
      assert SkipSpaces(text, 1) == 2;
    }
    NumbersEnd(text, 3, 0);
    NumbersStep(text, 0, Number(1, 3), 1);
    var one: seq<u8> := [1];
    assert [1] + Numbers(text, 3, 0).value == one;
    assert WordEnd(text, 1) == 1 && WordEnd(text, 0) == 1;
    assert Words(text, 0)[0] == [0x0d];
    var w := Take(Words(text, 0), 1);
    assert ByteOf(w[0]) == None;
  }

  // ----- round trips

  /** A byte in any accepted spelling, and the blanks after it. */
  datatype Item = Item(word: seq<u8>, gap: seq<u8>)

  ghost predicate Spelled(items: seq<Item>, bytes: seq<u8>) {
    && |items| == |bytes|
    && forall i :: 0 <= i < |items| ==>
         && ByteOf(items[i].word) == Some(bytes[i])
         && (forall j :: 0 <= j < |items[i].gap| ==> IsBlank(items[i].gap[j]))
         && (i < |items| - 1 ==> items[i].gap != [])
  }

  function Joined(items: seq<Item>): seq<u8> {
    if items == [] then [] else items[0].word + items[0].gap + Joined(items[1..])
  }

  lemma {:induction false} SkipGap(before: seq<u8>, gap: seq<u8>, after: seq<u8>)
    requires forall j :: 0 <= j < |gap| ==> IsBlank(gap[j])
    requires after != [] ==> !IsBlank(after[0])
    ensures SkipBlanks(before + gap + after, |before|) == |before| + |gap|
    decreases gap
  {
    var text := before + gap + after;
    if gap != [] {
      assert text[|before|] == gap[0];
      assert before + [gap[0]] + gap[1..] + after == text;
      SkipGap(before + [gap[0]], gap[1..], after);
    }
  }

  /** A spelled byte reads back where it stands, when a blank or the end follows. */
  lemma ReadWord(before: seq<u8>, w: seq<u8>, after: seq<u8>)
    requires ByteOf(w).Some? && (after != [] ==> IsBlank(after[0]))
    ensures ReadHex(before + w + after, |before|) == Some(Number(ByteOf(w).value, |before| + |w|))
  {
    var text := before + w + after;
    assert forall i :: 0 <= i < |w| ==> text[|before| + i] == w[i];
    assert SkipSpaces(text, |before|) == |before|;
    if after != [] { assert text[|before| + |w|] == after[0]; }
  }

  /** Bytes in any accepted spelling, separated by blanks, read back exactly, up to the number asked. */
  lemma {:induction false} NumbersOfSpelled(before: seq<u8>, lead: seq<u8>, items: seq<Item>, bytes: seq<u8>, n: nat)
    requires Spelled(items, bytes) && forall j :: 0 <= j < |lead| ==> IsBlank(lead[j])
    ensures Numbers(before + lead + Joined(items), |before|, n) == Some(Take(bytes, n))
    decreases n
  {
    hide ReadHex, ByteOf, Numbers, SkipBlanks, IsBlank, IsHex, IsSpace;
    var text := before + lead + Joined(items);
    StartsWithWord(items, bytes);
    SkipGap(before, lead, Joined(items));
    if n == 0 || items == [] {
      NumbersEnd(text, |before|, n);
    } else {
      var w, gap, rest := items[0].word, items[0].gap, items[1..];
      var after := gap + Joined(rest);
      assert text == (before + lead) + w + after;
      assert after != [] ==> IsBlank(after[0]) by { if |items| == 1 { assert rest == []; } }
      ReadWord(before + lead, w, after);
      assert Spelled(rest, bytes[1..]);
      NumbersOfSpelled(before + lead + w, gap, rest, bytes[1..], n - 1);
      assert text == (before + lead + w) + gap + Joined(rest);
      var next := |before + lead + w|;
      assert next < |text| ==> text[next] == after[0];
      NumbersStep(text, |before|, Number(bytes[0], next), n);
      assert Take(bytes, n) == [bytes[0]] + Take(bytes[1..], n - 1);
    }
  }

  lemma StartsWithWord(items: seq<Item>, bytes: seq<u8>)
    requires Spelled(items, bytes)
    ensures items != [] ==> Joined(items) == items[0].word + (items[0].gap + Joined(items[1..]))
    ensures Joined(items) != [] ==> !IsBlank(Joined(items)[0])
    ensures items != [] ==> Joined(items) != []
  {
    hide ByteOf;
    if items != [] { WordStarts(items[0].word); }
  }

  lemma NumbersEnd(text: seq<u8>, from: nat, n: nat)
    requires from <= |text| && (n == 0 || SkipBlanks(text, from) == |text|)
    ensures Numbers(text, from, n) == Some([])
  {
  }

  lemma NumbersStep(text: seq<u8>, from: nat, x: Number, n: nat)
    requires from <= |text| && n > 0 && SkipBlanks(text, from) < |text|
    requires ReadHex(text, SkipBlanks(text, from)) == Some(x)
    requires x.next == |text| || IsBlank(text[x.next])
    requires Numbers(text, x.next, n - 1).Some?
    ensures Numbers(text, from, n) == Some([x.value] + Numbers(text, x.next, n - 1).value)
  {
  }

  lemma WordStarts(w: seq<u8>)
    requires ByteOf(w).Some?
    ensures w != [] && !IsBlank(w[0])
  {
  }

  /** 1 to 63 bytes, spelled in any accepted way with blanks between, build exactly the report that
      carries them; from longer texts the first 63 are taken. */
  lemma CommandOfSpelled(lead: seq<u8>, items: seq<Item>, bytes: seq<u8>)
    requires Spelled(items, bytes) && bytes != [] && forall j :: 0 <= j < |lead| ==> IsBlank(lead[j])
    ensures Command(lead + Joined(items)) == Some(Padded(Take(bytes, REPORT_SIZE - 1)))
  {
    hide Numbers, Joined;
    NumbersOfSpelled([], lead, items, bytes, REPORT_SIZE - 1);
    assert [] + lead + Joined(items) == lead + Joined(items);
  }

  /** The printer's text is such a spelling. */
  lemma {:induction false} LineIsSpelled(bytes: seq<u8>) returns (items: seq<Item>)
    ensures Spelled(items, bytes) && Joined(items) == Line(bytes)
  {
    if bytes == [] {
      items := [];
    } else {
      var rest := LineIsSpelled(bytes[1..]);
      var b := bytes[0];
      items := [Item(Printed(b), [if |bytes| == 1 then 0x0a else 0x20])] + rest;
      assert ByteOf(Printed(b)) == Some(b);
      assert items[1..] == rest;
    }
  }

  /** Feeding the printed response back builds the report that carries its first 63 bytes. */
  lemma CommandOfResponse(response: seq<u8>)
    requires |response| == REPORT_SIZE
    ensures Command(Line(response)) == Some([REPORT_ID] + response[..REPORT_SIZE - 1])
  {
    var items := LineIsSpelled(response);
    CommandOfSpelled([], items, response);
    assert [] + Joined(items) == Joined(items);
    assert Padded(response[..REPORT_SIZE - 1]) == [REPORT_ID] + response[..REPORT_SIZE - 1];
  }

  // ----- the loops of the source

  /** The text is what precedes the terminating NUL. */
  method HidCmdStore(text: seq<u8>) returns (command: Option<seq<u8>>)
    ensures command == Command(text)
  {
    hide SkipSpaces, HexValue, IsBlank, IsSpace, IsHex, ReadHex, Padded;
    var report := new u8[REPORT_SIZE](i => if i == 0 then REPORT_ID else 0);
    var cursor: nat, index: nat := 0, 1;
    ghost var all := Numbers(text, 0, REPORT_SIZE - 1);
    PrependedEnds(report[1..1], all);
    while cursor < |text| && index < REPORT_SIZE
      invariant cursor <= |text| && 1 <= index <= REPORT_SIZE
      invariant report[0] == REPORT_ID && forall i :: index <= i < REPORT_SIZE ==> report[i] == 0
      invariant all == Prepended(report[1..index], Numbers(text, cursor, REPORT_SIZE - index))
      decreases REPORT_SIZE - index
    {
      ghost var start := cursor;
      while cursor < |text| && IsBlank(text[cursor])
        invariant cursor <= |text| && SkipBlanks(text, cursor) == SkipBlanks(text, start)
      {
        cursor := cursor + 1;
      }
      if cursor == |text| { break; }
      var x := SscanfHex(text, cursor);
      if x.None? { return None; }
      ghost var read := report[1..index];
      report[index] := x.value.value;
      index := index + 1;
      cursor := x.value.next;
      if cursor < |text| && !IsBlank(text[cursor]) { return None; }
      assert report[1..index] == read + [x.value.value];
      PrependedOnwards(read, x.value.value, Numbers(text, cursor, REPORT_SIZE - index));
    }
    NumbersEnd(text, cursor, REPORT_SIZE - index);
    PrependedEnds(report[1..index], Some([]));
    if index == 1 { return None; }
    IsPadded(report[..], index);
    assert report[..][1..index] == report[1..index];
    return Some(report[..]);
  }

  lemma IsPadded(s: seq<u8>, index: nat)
    requires 1 <= index <= |s| == REPORT_SIZE && s[0] == REPORT_ID
    requires forall i :: index <= i < REPORT_SIZE ==> s[i] == 0
    ensures s == Padded(s[1..index])
  {
    assert s == [s[0]] + s[1..index] + s[index..];
  }

  function Prepended(read: seq<u8>, rest: Option<seq<u8>>): Option<seq<u8>> {
    match rest case None => None case Some(s) => Some(read + s)
  }

  lemma PrependedEnds(read: seq<u8>, rest: Option<seq<u8>>)
    ensures read == [] ==> Prepended(read, rest) == rest
    ensures Prepended(read, Some([])) == Some(read)
  {
    var nothing: seq<u8> := [];
    assert read + nothing == read;
    if rest.Some? { assert nothing + rest.value == rest.value; }
  }

  lemma PrependedOnwards(read: seq<u8>, b: u8, rest: Option<seq<u8>>)
    ensures Prepended(read, Prepended([b], rest)) == Prepended(read + [b], rest)
  {
    if rest.Some? { assert read + ([b] + rest.value) == read + [b] + rest.value; }
  }

  /** sscanf with "%2x%n". */
  method SscanfHex(text: seq<u8>, from: nat) returns (r: Option<Number>)
    requires from <= |text|
    ensures r == ReadHex(text, from)
  {
    var s := from;
    while s < |text| && IsSpace(text[s])
      invariant s <= |text| && SkipSpaces(text, s) == SkipSpaces(text, from)
    {
      s := s + 1;
    }
    if s == |text| || !IsHex(text[s]) { return None; }
    if s + 1 < |text| && text[s] == 0x30 && (text[s + 1] == 0x78 || text[s + 1] == 0x58) { return Some(Number(0, s + 2)); }
    var value: u8, k := HexValue(text[s]), s + 1;
    if k < |text| && IsHex(text[k]) { value, k := 16 * value + HexValue(text[k]), k + 1; }
    return Some(Number(value, k));
  }

  method HidCmdShow(response: seq<u8>) returns (text: seq<u8>)
    requires |response| == REPORT_SIZE
    ensures text == Line(response)
  {
    hide Line, Printed;
    text := [];
    assert response[0..] == response;
    for i := 0 to REPORT_SIZE
      invariant text + Line(response[i..]) == Line(response)
    {
      LineStep(response, i);
      Regrouped(text, Printed(response[i]), [if i == REPORT_SIZE - 1 then 0x0a else 0x20], Line(response[i + 1..]));
      text := text + Printed(response[i]) + [if i == REPORT_SIZE - 1 then 0x0a else 0x20];
    }
    LineEnds(response[REPORT_SIZE..]);
  }

  lemma LineStep(response: seq<u8>, i: nat)
    requires i < |response|
    ensures Line(response[i..]) ==
            Printed(response[i]) + [if i == |response| - 1 then 0x0a else 0x20] + Line(response[i + 1..])
  {
    hide Printed;
    assert response[i..][1..] == response[i + 1..];
  }

  lemma LineEnds(bytes: seq<u8>)
    requires |bytes| == 0
    ensures Line(bytes) == []
  {
  }

  lemma Regrouped(a: seq<u8>, b: seq<u8>, c: seq<u8>, d: seq<u8>)
    ensures a + (b + c + d) == a + b + c + d
  {
  }
}
