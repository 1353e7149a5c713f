/** JSON objects of numbers, strings, true, false and null (RFC 8259), as a reader, as a writer, and
    the round trip between the two.  The reader accepts a part of the grammar of sections 4 to 7:
    no white space, no nesting, no escapes, integers only. */
module Json {
  import opened Links

  datatype Value = Null | Bool(truth: bool) | Number(number: int) | Text(text: string)

  datatype Member = Member(name: string, value: Value)

  datatype Read<+T> = Read(value: T, rest: string)

  // ---------------------------------------------------------------- reading

  predicate IsDigit(c: char) { '0' <= c <= '9' }

  /** Characters that stand for themselves in a string (section 7). */
  predicate Unescaped(c: char) { c >= ' ' && c != '"' && c != '\\' }

  predicate Begins(s: string, c: char) { s != "" && s[0] == c }

  predicate StartsWith(s: string, prefix: string) {
    |prefix| <= |s| && s[..|prefix|] == prefix
  }

  function DigitCount(s: string): (n: nat)
    ensures n <= |s|
  {
    if s == "" || !IsDigit(s[0]) then 0 else 1 + DigitCount(s[1..])
  }

  function NumberOf(digits: string): int {
    if digits == "" then 0
    else NumberOf(digits[..|digits| - 1]) * 10 + (digits[|digits| - 1] as int - '0' as int)
  }

  /** Section 6: no leading zeros. */
  function ReadDigits(s: string): (r: Option<Read<int>>)
    ensures r.Some? ==> |r.value.rest| < |s|
  {
    var n := DigitCount(s);
    if n == 0 || (n > 1 && s[0] == '0') then None else Some(Read(NumberOf(s[..n]), s[n..]))
  }

  /** The characters up to the closing quote. */
  function ReadText(s: string): (r: Option<Read<string>>)
    ensures r.Some? ==> |r.value.rest| < |s|
  {
    if s == "" then None
    else if s[0] == '"' then Some(Read("", s[1..]))
    else if !Unescaped(s[0]) then None
    else
      var r := ReadText(s[1..]);
      if r.None? then None else Some(Read([s[0]] + r.value.value, r.value.rest))
  }

  function ReadWord(s: string, word: string, v: Value): (r: Option<Read<Value>>)
    requires word != ""
    ensures r.Some? ==> |r.value.rest| < |s|
  {
    if StartsWith(s, word) then Some(Read(v, s[|word|..])) else None
  }

  function ReadValue(s: string): (r: Option<Read<Value>>)
    ensures r.Some? ==> |r.value.rest| < |s|
  {
    if s == "" then None
    else if s[0] == 'n' then ReadWord(s, "null", Null)
    else if s[0] == 't' then ReadWord(s, "true", Bool(true))
    else if s[0] == 'f' then ReadWord(s, "false", Bool(false))
    else if s[0] == '"' then
      var r := ReadText(s[1..]);
      if r.None? then None else Some(Read(Text(r.value.value), r.value.rest))
    else if s[0] == '-' then
      var r := ReadDigits(s[1..]);
      if r.None? then None else Some(Read(Number(-r.value.value), r.value.rest))
    else
      var r := ReadDigits(s);
      if r.None? then None else Some(Read(Number(r.value.value), r.value.rest))
  }

  function ReadMember(s: string): (r: Option<Read<Member>>)
    ensures r.Some? ==> |r.value.rest| < |s|
  {
    if !Begins(s, '"') then None
    else
      var name := ReadText(s[1..]);
      if name.None? || !Begins(name.value.rest, ':') then None
      else
        var v := ReadValue(name.value.rest[1..]);
        if v.None? then None else Some(Read(Member(name.value.value, v.value.value), v.value.rest))
  }

  /** The members after a comma, and the closing brace. */
  function ReadMore(s: string): Option<seq<Member>>
    decreases |s|
  {
    if s == "}" then Some([])
    else if !Begins(s, ',') then None
    else
      var m := ReadMember(s[1..]);
      if m.None? then None
      else
        var more := ReadMore(m.value.rest);
        if more.None? then None else Some([m.value.value] + more.value)
  }

  /** The members of the object that the whole text is. */
  function ReadObject(s: string): Option<seq<Member>> {
    if s == "{}" then Some([])
    else if !Begins(s, '{') then None
    else
      var m := ReadMember(s[1..]);
      if m.None? then None
      else
        var more := ReadMore(m.value.rest);
        if more.None? then None else Some([m.value.value] + more.value)
  }

  // ---------------------------------------------------------------- writing

  function Digits(n: nat): (s: string)
    ensures s != ""
  {
    if n < 10 then ["0123456789"[n]] else Digits(n / 10) + ["0123456789"[n % 10]]
  }

  /** The %d of C. */
  function Decimal(n: int): (s: string)
    ensures s != ""
  {
    if n < 0 then "-" + Digits(-n) else Digits(n)
  }

  function WriteValue(v: Value): string {
    match v
    case Null => "null"
    case Bool(truth) => if truth then "true" else "false"
    case Number(n) => Decimal(n)
    case Text(text) => "\"" + text + "\""
  }

  function WriteMember(m: Member): string {
    "\"" + m.name + "\":" + WriteValue(m.value)
  }

  function WriteMore(members: seq<Member>): string {
    if members == [] then "}" else "," + WriteMember(members[0]) + WriteMore(members[1..])
  }

  function WriteObject(members: seq<Member>): string {
    if members == [] then "{}" else "{" + WriteMember(members[0]) + WriteMore(members[1..])
  }

  // ---------------------------------------------------------------- the round trip

  predicate Plain(s: string) {
    forall i :: 0 <= i < |s| ==> Unescaped(s[i])
  }

  predicate PlainMember(m: Member) {
    Plain(m.name) && (m.value.Text? ==> Plain(m.value.text))
  }

  /** Nothing that could continue a number. */
  predicate Ends(rest: string) {
    rest == "" || !IsDigit(rest[0])
  }

  lemma {:induction false} DigitsAreDigits(n: nat)
    ensures forall i :: 0 <= i < |Digits(n)| ==> IsDigit(Digits(n)[i])
    ensures NumberOf(Digits(n)) == n
    ensures Digits(n)[0] == '0' ==> n == 0
  {
    if n >= 10 {
      DigitsAreDigits(n / 10);
      assert Digits(n)[..|Digits(n)| - 1] == Digits(n / 10);
    }
  }

  lemma {:induction false} DigitCountOf(digits: string, rest: string)
    requires Ends(rest) && forall i :: 0 <= i < |digits| ==> IsDigit(digits[i])
    ensures DigitCount(digits + rest) == |digits|
  {
    if digits == "" {
      assert digits + rest == rest;
    } else {
      assert (digits + rest)[1..] == digits[1..] + rest;
      DigitCountOf(digits[1..], rest);
    }
  }

  lemma ReadsDigits(n: nat, rest: string)
    requires Ends(rest)
    ensures ReadDigits(Digits(n) + rest) == Some(Read(n, rest))
  {
    DigitsAreDigits(n);
    DigitCountOf(Digits(n), rest);
    var s := Digits(n) + rest;
    assert s[..|Digits(n)|] == Digits(n) && s[|Digits(n)|..] == rest;
  }

  lemma {:induction false} ReadsText(text: string, rest: string)
    requires Plain(text)
    ensures ReadText(text + "\"" + rest) == Some(Read(text, rest))
  {
    var s := text + "\"" + rest;
    if text == "" {
      assert s[1..] == rest;
    } else {
      assert s[1..] == text[1..] + "\"" + rest;
      ReadsText(text[1..], rest);
      assert [s[0]] + text[1..] == text;
    }
  }

  lemma ReadsSigned(s: string, n: int, rest: string)
    requires s != ""
    requires IsDigit(s[0]) ==> ReadDigits(s) == Some(Read(n, rest))
    requires !IsDigit(s[0]) ==> s[0] == '-' && ReadDigits(s[1..]) == Some(Read(-n, rest))
    ensures ReadValue(s) == Some(Read(Number(n), rest))
  {
    hide ReadDigits, ReadText;
  }

  lemma ReadsNumber(n: int, rest: string)
    requires Ends(rest)
    ensures ReadValue(Decimal(n) + rest) == Some(Read(Number(n), rest))
  {
    hide Digits, ReadDigits, ReadValue;
    var m: nat := if n < 0 then -n else n;
    DigitsAreDigits(m);
    ReadsDigits(m, rest);
    var s := Decimal(n) + rest;
    assert s == if n < 0 then "-" + Digits(m) + rest else Digits(m) + rest;
    assert n < 0 ==> s[0] == '-' && s[1..] == Digits(m) + rest;
    assert n >= 0 ==> s[0] == Digits(m)[0];
    ReadsSigned(s, n, rest);
  }

  lemma ReadsWord(word: string, v: Value, rest: string)
    requires word != ""
    ensures ReadWord(word + rest, word, v) == Some(Read(v, rest))
    ensures (word + rest)[0] == word[0]
  {
    assert (word + rest)[..|word|] == word && (word + rest)[|word|..] == rest;
  }

  lemma ReadsValue(v: Value, rest: string)
    requires Ends(rest) && (v.Text? ==> Plain(v.text))
    ensures ReadValue(WriteValue(v) + rest) == Some(Read(v, rest))
  {
    hide ReadWord, Decimal, ReadDigits, ReadText;
    match v
    case Null => ReadsWord("null", v, rest);
    case Bool(truth) => ReadsWord(if truth then "true" else "false", v, rest);
    case Number(n) => ReadsNumber(n, rest);
    case Text(text) =>
      ReadsText(text, rest);
      assert (WriteValue(v) + rest)[1..] == text + "\"" + rest;
  }

  lemma ReadsMember(m: Member, rest: string)
    requires Ends(rest) && PlainMember(m)
    ensures ReadMember(WriteMember(m) + rest) == Some(Read(m, rest))
  {
    hide ReadText, ReadValue, WriteValue;
    var after := ":" + WriteValue(m.value) + rest;
    var s := WriteMember(m) + rest;
    assert s[1..] == m.name + "\"" + after;
    ReadsText(m.name, after);
    assert after[1..] == WriteValue(m.value) + rest;
    ReadsValue(m.value, rest);
  }

  lemma ReadMoreStep(s: string, m: Member, rest: string, more: seq<Member>)
    requires Begins(s, ',') && ReadMember(s[1..]) == Some(Read(m, rest)) && ReadMore(rest) == Some(more)
    ensures ReadMore(s) == Some([m] + more)
  {
    hide ReadMember;
  }

  lemma WriteMoreStep(members: seq<Member>)
    requires members != []
    ensures Begins(WriteMore(members), ',')
    ensures WriteMore(members)[1..] == WriteMember(members[0]) + WriteMore(members[1..])
  {
    hide WriteMember;
  }

  lemma {:induction false} ReadsMore(members: seq<Member>)
    requires forall i :: 0 <= i < |members| ==> PlainMember(members[i])
    ensures ReadMore(WriteMore(members)) == Some(members) && Ends(WriteMore(members))
    decreases |members|
  {
    if members != [] {
      hide ReadMore, WriteMore, ReadMember, WriteMember, PlainMember;
      var m, rest := members[0], WriteMore(members[1..]);
      ReadsMore(members[1..]);
      ReadsMember(m, rest);
      WriteMoreStep(members);
      ReadMoreStep(WriteMore(members), m, rest, members[1..]);
      assert [m] + members[1..] == members;
    }
  }

  lemma WriteObjectStep(members: seq<Member>)
    requires members != []
    ensures Begins(WriteObject(members), '{') && |WriteObject(members)| > 2
    ensures WriteObject(members)[1..] == WriteMember(members[0]) + WriteMore(members[1..])
  {
    var first, more := WriteMember(members[0]), WriteMore(members[1..]);
    assert first != "" && more != "";
    hide WriteMember, WriteMore;
    assert WriteObject(members) == "{" + (first + more);
  }

  /** Reading what was written gives the members back. */
  lemma ReadsObject(members: seq<Member>)
    requires forall i :: 0 <= i < |members| ==> PlainMember(members[i])
    ensures ReadObject(WriteObject(members)) == Some(members)
  {
    if members != [] {
      hide ReadMore, WriteMore, ReadMember, WriteMember, PlainMember, WriteObject;
      var m, rest := members[0], WriteMore(members[1..]);
      ReadsMore(members[1..]);
      ReadsMember(m, rest);
      WriteObjectStep(members);
      assert [m] + members[1..] == members;
    }
  }
}
