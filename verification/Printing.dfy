/** What the payload printers share: `snprintk` into buffers of fixed size, the number and truth
    fields, and formats that print JSON objects. */
module Printing {
  import opened CInts
  import opened Json
  import opened Links

  // ---------------------------------------------------------------- snprintk

  /** A format: the literal pieces around its directives. */
  function Fill(pieces: seq<string>, args: seq<string>): string
    requires |pieces| == |args| + 1
  {
    if args == [] then pieces[0] else pieces[0] + args[0] + Fill(pieces[1..], args[1..])
  }

  /** What fits into the buffer before the terminating zero. */
  function Cut(text: string, size: nat): string
    requires size > 0
  {
    if |text| < size then text else text[..size - 1]
  }

  /** The string that a buffer holds. */
  function CString(s: seq<char>): string {
    if s == [] || s[0] == '\0' then "" else [s[0]] + CString(s[1..])
  }

  predicate NoZero(text: string) {
    forall i :: 0 <= i < |text| ==> text[i] != '\0'
  }

  lemma {:induction false} CStringOf(text: string, s: seq<char>)
    requires NoZero(text) && |text| < |s| && s[..|text|] == text && s[|text|] == '\0'
    ensures CString(s) == text
    decreases |text|
  {
    if text != "" {
      assert s[1..][..|text| - 1] == text[1..];
      CStringOf(text[1..], s[1..]);
    }
  }

  /** `snprintk` of a text: the result is the whole length, cut or not. */
  method Snprintk(buffer: array<char>, text: string) returns (length: nat)
    requires NoZero(text)
    modifies buffer
    ensures length == |text|
    ensures buffer.Length > 0 ==> CString(buffer[..]) == Cut(text, buffer.Length)
    ensures |text| < buffer.Length ==> buffer[..|text|] == text && buffer[|text|] == '\0'
  {
    if buffer.Length > 0 {
      ghost var kept := Cut(text, buffer.Length);
      var i := 0;
      while i < |text| && i < buffer.Length - 1
        invariant i <= |kept| && forall j :: 0 <= j < i ==> buffer[j] == text[j]
      {
        buffer[i] := text[i];
        i := i + 1;
      }
      buffer[i] := '\0';
      assert buffer[..][..i] == kept;
      CStringOf(kept, buffer[..]);
      assert |text| < buffer.Length ==> buffer[..i] == text;
    }
    length := |text|;
  }

  // ---------------------------------------------------------------- the fields

  function Reading(valid: bool, n: int): Value {
    if valid then Number(n) else Null
  }

  /** `json_int_or_null`. */
  method JsonIntOrNull(valid: bool, value: int32, buffer: array<char>) returns (text: string)
    requires buffer.Length > 0
    modifies buffer
    ensures text == if valid then Cut(Decimal(value), buffer.Length) else "null"
  {
    if !valid {
      return "null";
    }
    PlainDecimal(value);
    var length := Snprintk(buffer, Decimal(value));
    text := CString(buffer[..]);
  }

  /** `json_bool_or_null`. */
  function JsonBoolOrNull(valid: bool, value: bool): string {
    if !valid then "null" else if value then "true" else "false"
  }

  lemma PlainDecimal(n: int)
    ensures Plain(Decimal(n)) && NoZero(Decimal(n))
  {
    var m: nat := if n < 0 then -n else n;
    DigitsAreDigits(m);
    hide Digits;
    var d := Digits(m);
    assert forall i :: 0 <= i < |d| ==> IsDigit(d[i]);
  }

  lemma {:induction false} DigitsAtMost(n: nat, k: nat, power: nat)
    requires k > 0 && power == Power10(k) && n < power
    ensures |Digits(n)| <= k
  {
    if n >= 10 {
      DigitsAtMost(n / 10, k - 1, power / 10);
    }
  }

  function Power10(k: nat): nat {
    if k == 0 then 1 else 10 * Power10(k - 1)
  }

  lemma DecimalLength(n: int32)
    ensures |Decimal(n)| <= 11
    ensures -0x8000 <= n < 0x8000 ==> |Decimal(n)| <= 6
  {
    var m: nat := if n < 0 then 0 - n else n;
    assert Power10(5) == 100_000;
    assert Power10(10) == 100_000 * Power10(5) by { assert Power10(9) == 10_000 * Power10(5); }
    DigitsAtMost(m, 10, Power10(10));
    if m < 100_000 {
      DigitsAtMost(m, 5, Power10(5));
    }
  }

  /** A 32-bit number is printed whole into 12 characters, a 16-bit one into 8. */
  lemma FieldWhole(valid: bool, n: int32, size: nat)
    requires size >= 12 || (size >= 8 && -0x8000 <= n < 0x8000)
    ensures (if valid then Cut(Decimal(n), size) else "null") == WriteValue(Reading(valid, n))
    ensures |WriteValue(Reading(valid, n))| < size
  {
    DecimalLength(n);
  }

  // ---------------------------------------------------------------- formats of objects

  /** The pieces that print an object of a fixed kind: every further member is a directive. */
  function Pieces(before: string, names: seq<string>): (r: seq<string>)
    ensures |r| == |names| + 1
  {
    seq(|names| + 1, i requires 0 <= i <= |names| => Piece(if i == 0 then before else "", names, i))
  }

  function Piece(before: string, names: seq<string>, i: nat): string
    requires i <= |names|
  {
    if i == |names| then before + "}" else before + ",\"" + names[i] + "\":"
  }

  function Zip(names: seq<string>, values: seq<Value>): (r: seq<Member>)
    requires |names| == |values|
    ensures |r| == |names|
  {
    seq(|names|, i requires 0 <= i < |names| => Member(names[i], values[i]))
  }

  function WriteAll(values: seq<Value>): (r: seq<string>)
    ensures |r| == |values|
  {
    seq(|values|, i requires 0 <= i < |values| => WriteValue(values[i]))
  }

  lemma AllWritten(args: seq<string>, values: seq<Value>)
    requires |args| == |values| && forall i :: 0 <= i < |args| ==> args[i] == WriteValue(values[i])
    ensures args == WriteAll(values)
  {
    hide WriteValue;
  }

  lemma PiecesRest(before: string, names: seq<string>)
    requires names != []
    ensures Pieces(before, names)[0] == before + ",\"" + names[0] + "\":"
    ensures Pieces(before, names)[1..] == Pieces("", names[1..])
  {
    forall i | 0 <= i < |names|
      ensures Piece("", names, i + 1) == Piece("", names[1..], i)
    {
      assert i + 1 < |names| ==> names[1..][i] == names[i + 1];
    }
    assert Pieces(before, names)[0] == Piece(before, names, 0);
  }

  lemma FieldText(before: string, name: string, value: string, more: string)
    ensures before + ",\"" + name + "\":" + value + more
         == before + ("," + ("\"" + name + "\":" + value) + more)
  {
  }

  lemma FillStep(pieces: seq<string>, args: seq<string>)
    requires |pieces| == |args| + 1 && args != []
    ensures Fill(pieces, args) == pieces[0] + args[0] + Fill(pieces[1..], args[1..])
  {
  }

  lemma {:induction false} FillWrites(before: string, names: seq<string>, values: seq<Value>)
    requires |names| == |values|
    ensures Fill(Pieces(before, names), WriteAll(values)) == before + WriteMore(Zip(names, values))
    decreases |names|
  {
    if names == [] {
      assert Pieces(before, names)[0] == Piece(before, names, 0);
    } else {
      var name, value := names[0], WriteValue(values[0]);
      var more := WriteMore(Zip(names[1..], values[1..]));
      hide WriteValue;
      FillWrites("", names[1..], values[1..]);
      FillStep(Pieces(before, names), WriteAll(values));
      PiecesRest(before, names);
      assert WriteAll(values)[1..] == WriteAll(values[1..]);
      assert Zip(names, values)[1..] == Zip(names[1..], values[1..]);
      assert WriteMember(Zip(names, values)[0]) == "\"" + name + "\":" + value;
      assert WriteMore(Zip(names, values)) == "," + ("\"" + name + "\":" + value) + more;
      hide Fill, Pieces, Zip, WriteMore, WriteMember, WriteAll;
      FieldText(before, name, value, more);
      assert "" + more == more;
    }
  }

  /** An object that names its kind first. */
  function ObjectOf(kind: string, names: seq<string>, values: seq<Value>): (r: seq<Member>)
    requires |names| == |values|
    ensures |r| == |names| + 1
  {
    [Member("kind", Text(kind))] + Zip(names, values)
  }

  /** The format string of such an object, cut at its directives. */
  function FormatOf(kind: string, names: seq<string>): (r: seq<string>)
    ensures |r| == |names| + 1
  {
    Pieces("{\"kind\":\"" + kind + "\"", names)
  }

  /** A format of this shape prints the object. */
  lemma FormatPrints(kind: string, names: seq<string>, values: seq<Value>)
    requires |names| == |values|
    ensures Fill(FormatOf(kind, names), WriteAll(values)) == WriteObject(ObjectOf(kind, names, values))
  {
    hide Zip, WriteAll, Pieces, Fill;
    var m, rest := Member("kind", Text(kind)), Zip(names, values);
    FillWrites("{\"kind\":\"" + kind + "\"", names, values);
    assert ([m] + rest)[1..] == rest;
    KindText(kind);
    assert WriteMember(m) == "\"" + "kind" + "\":" + ("\"" + kind + "\"");
    hide WriteMember, WriteMore;
  }

  lemma KindText(kind: string)
    ensures "{\"kind\":\"" + kind + "\"" == "{" + ("\"" + "kind" + "\":" + ("\"" + kind + "\""))
  {
  }

  // ---------------------------------------------------------------- lengths

  /** The room that the members from i on take at most, when each value keeps to its limit. */
  function Widths(names: seq<string>, limits: seq<nat>, i: nat): nat
    requires |names| == |limits| && i <= |names|
    decreases |names| - i
  {
    if i == |names| then 0 else 4 + |names[i]| + limits[i] + Widths(names, limits, i + 1)
  }

  lemma {:induction false} MoreAtMost(names: seq<string>, values: seq<Value>, limits: seq<nat>, i: nat)
    requires |names| == |values| == |limits| && i <= |names|
    requires forall j :: 0 <= j < |names| ==> |WriteValue(values[j])| <= limits[j]
    ensures |WriteMore(Zip(names, values)[i..])| <= 1 + Widths(names, limits, i)
    decreases |names| - i
  {
    if i < |names| {
      hide WriteValue;
      MoreAtMost(names, values, limits, i + 1);
      assert Zip(names, values)[i..][1..] == Zip(names, values)[i + 1..];
    }
  }

  /** Values within their limits keep the object within its room. */
  lemma ObjectAtMost(kind: string, names: seq<string>, values: seq<Value>, limits: seq<nat>)
    requires |names| == |values| == |limits|
    requires forall j :: 0 <= j < |names| ==> |WriteValue(values[j])| <= limits[j]
    ensures |WriteObject(ObjectOf(kind, names, values))| <= 11 + |kind| + Widths(names, limits, 0)
  {
    hide WriteMore, Zip, Widths;
    var m, more := Member("kind", Text(kind)), Zip(names, values);
    MoreAtMost(names, values, limits, 0);
    assert more[0..] == more && ([m] + more)[1..] == more;
  }

  // ---------------------------------------------------------------- printable text

  lemma {:induction false} MoreNoZero(members: seq<Member>)
    requires forall i :: 0 <= i < |members| ==> PlainMember(members[i])
    ensures NoZero(WriteMore(members))
    decreases |members|
  {
    if members != [] {
      MoreNoZero(members[1..]);
      MemberNoZero(members[0]);
      hide WriteMember;
    }
  }

  lemma MemberNoZero(m: Member)
    requires PlainMember(m)
    ensures NoZero(WriteMember(m))
  {
    if m.value.Number? {
      PlainDecimal(m.value.number);
    }
    hide Decimal;
  }

  lemma ObjectNoZero(members: seq<Member>)
    requires forall i :: 0 <= i < |members| ==> PlainMember(members[i])
    ensures NoZero(WriteObject(members))
  {
    if members != [] {
      MoreNoZero(members[1..]);
      MemberNoZero(members[0]);
      hide WriteMember, WriteMore;
    }
  }

  // ---------------------------------------------------------------- payloads

  /** The kind and the names stand for themselves, and no further value is a text. */
  predicate PlainObject(kind: string, names: seq<string>, values: seq<Value>)
    requires |names| == |values|
  {
    Plain(kind) && forall i :: 0 <= i < |names| ==> Plain(names[i]) && !values[i].Text?
  }

  lemma ObjectPlain(kind: string, names: seq<string>, values: seq<Value>)
    requires |names| == |values| && PlainObject(kind, names, values)
    ensures forall i :: 0 <= i < |names| + 1 ==> PlainMember(ObjectOf(kind, names, values)[i])
  {
    assert Plain("kind");
  }

  /** The filled format is the object, without a zero in it. */
  lemma PayloadPrints(kind: string, names: seq<string>, values: seq<Value>)
    requires |names| == |values| && PlainObject(kind, names, values)
    ensures Fill(FormatOf(kind, names), WriteAll(values)) == WriteObject(ObjectOf(kind, names, values))
    ensures NoZero(WriteObject(ObjectOf(kind, names, values)))
  {
    hide Fill, FormatOf, WriteAll, WriteObject, PlainMember, PlainObject, ObjectOf, NoZero;
    ObjectPlain(kind, names, values);
    FormatPrints(kind, names, values);
    ObjectNoZero(ObjectOf(kind, names, values));
  }

  /** It reads back as its members. */
  lemma PayloadReads(kind: string, names: seq<string>, values: seq<Value>)
    requires |names| == |values| && PlainObject(kind, names, values)
    ensures ReadObject(WriteObject(ObjectOf(kind, names, values))) == Some(ObjectOf(kind, names, values))
  {
    hide WriteObject, ReadObject, PlainMember, PlainObject, ObjectOf;
    ObjectPlain(kind, names, values);
    ReadsObject(ObjectOf(kind, names, values));
  }

  /** The value of the first member of that name. */
  function Field(members: seq<Member>, name: string): Option<Value> {
    if members == [] then None
    else if members[0].name == name then Some(members[0].value)
    else Field(members[1..], name)
  }

  lemma {:induction false} FieldAt(members: seq<Member>, i: nat)
    requires i < |members| && forall j :: 0 <= j < i ==> members[j].name != members[i].name
    ensures Field(members, members[i].name) == Some(members[i].value)
  {
    if i > 0 {
      assert members[1..][i - 1] == members[i];
      FieldAt(members[1..], i - 1);
    }
  }
}
