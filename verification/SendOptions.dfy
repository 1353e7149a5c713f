/** The options of the send commands (`cmd_sid_alloc_send` in app_shell.c), and the payloads that
    a command allocates for them. */
module SendOptions {
  import opened Links
  import opened FlowModel

  const EINVAL: int := 22
  const ENOMEM: int := 12

  /** `strtol`: the value read, and whether there was any digit. */
  datatype Strtol = Strtol(value: int, digits: bool)

  /** The functions of the C library and the link numbers, which are not modelled, and what is read
      one place past the arguments. */
  datatype Library = Library(
    hex: string -> seq<bv8>,
    number: string -> Strtol,
    link: string -> Option<bv32>,
    past: string)

  /** The link mode and the transmit attributes of a message descriptor. */
  datatype Attributes = Attributes(mobile: bool, lowLatency: bool, ack: bool, retries: nat, ttl: nat)

  const NO_ATTRIBUTES := Attributes(false, false, false, 0, 0)
  const SAMPLE_ATTRIBUTES := Attributes(false, false, true, 3, 60)

  /** What the options read so far ask for.  `data` is the payload that the command holds, `tries`
      counts its calls of the allocator for `-r`. */
  datatype Draft = Draft(
    opt: nat, kind: MsgType, link: bv32, attr: Attributes, reply: nat, data: Option<seq<bv8>>, tries: nat, err: int)

  /** Before the first option, which follows the name of the command and its target. */
  function NewDraft(link: bv32, reply: nat): Draft {
    Draft(2, Notify, link, NO_ATTRIBUTES, reply, None, 0, 0)
  }

  function Argument(lib: Library, argv: seq<string>, i: nat): string {
    if i < |argv| then argv[i] else lib.past
  }

  function First(s: string): char {
    if s == "" then '\0' else s[0]
  }

  function KindOf(c: char): Option<MsgType> {
    match c
    case '0' => Some(Get)
    case '1' => Some(Set)
    case '2' => Some(Notify)
    case '3' => Some(Response)
    case _ => None
  }

  predicate NeedsValue(arg: string) {
    arg == "-t" || arg == "-d" || arg == "-o" || arg == "-r" || arg == "-l" || arg == "-i"
  }

  /** One turn of the option loop; memory is the answer of the allocator.  A new `-r` payload takes
      the place of an earlier one, and so does the null pointer of a failed allocation.  The check
      of `-a` lets the third value lie past the arguments, and the check of its second value looks
      at the first again. */
  function StepOption(lib: Library, argv: seq<string>, d: Draft, memory: bool): (r: Draft)
    requires d.opt < |argv| && d.err == 0
    ensures d.opt < r.opt
  {
    var arg, value := argv[d.opt], Argument(lib, argv, d.opt + 1);
    var read := d.(opt := d.opt + 2);
    var bad := read.(err := -EINVAL);
    if NeedsValue(arg) && d.opt + 1 >= |argv| then bad
    else if arg == "-t" then
      if KindOf(First(value)).None? then bad else read.(kind := KindOf(First(value)).value)
    else if arg == "-d" then
      if First(value) != '1' && First(value) != '2' then bad
      else read.(attr := d.attr.(mobile := First(value) == '2'))
    else if arg == "-o" then
      if First(value) != '0' && First(value) != '1' then bad
      else read.(attr := d.attr.(lowLatency := First(value) == '1'))
    else if arg == "-r" then
      if lib.hex(value) == [] then bad
      else if memory then read.(data := Some(lib.hex(value)), tries := d.tries + 1)
      else read.(data := None, tries := d.tries + 1, err := -ENOMEM)
    else if arg == "-l" then
      if lib.link(value).None? then bad else read.(link := lib.link(value).value)
    else if arg == "-i" then
      var id := lib.number(value);
      if !id.digits || id.value < 0 || id.value > 0xFFFF then bad else read.(reply := id.value)
    else if arg == "-a" then
      var ack, retries := lib.number(value), lib.number(Argument(lib, argv, d.opt + 2));
      var ttl := lib.number(Argument(lib, argv, d.opt + 3));
      if d.opt + 3 > |argv| || !ack.digits || ack.value < 0 || ack.value > 1
         || ttl.value < 0 || ttl.value > 0xFFFF then bad
      else
        d.(opt := d.opt + 4,
           attr := d.attr.(ack := ack.value == 1, retries := retries.value % 0x100, ttl := ttl.value))
    else d.(opt := d.opt + 1)
  }

  /** The option loop; ok holds the allocator's answers in order. */
  function Options(lib: Library, argv: seq<string>, ok: nat -> bool, d: Draft): Draft
    decreases |argv| - d.opt
  {
    if d.err != 0 || d.opt >= |argv| then d
    else Options(lib, argv, ok, StepOption(lib, argv, d, ok(d.tries)))
  }

  /** The payloads that no pointer reaches any more. */
  function Lost(d: Draft): nat {
    if d.tries > 0 then d.tries - 1 else 0
  }

  /** The command holds a payload exactly if it asked for one and its last request was granted. */
  predicate Sound(d: Draft) {
    && (d.data.Some? <==> d.tries > 0 && d.err != -ENOMEM)
    && (d.err == -ENOMEM ==> d.tries > 0)
  }

  /** The payloads the allocator granted. */
  function Granted(d: Draft): nat {
    Lost(d) + if d.data.Some? then 1 else 0
  }

  /** How often the allocator was asked for a payload. */
  function Requests(d: Draft): nat {
    if d.tries == 0 then 1 else d.tries
  }

  /** The result of the command: a bad option, or a refused payload or message. */
  function SendError(d: Draft, ok: nat -> bool): int {
    if d.err != 0 then d.err
    else if (d.tries == 0 && !ok(0)) || !ok(Requests(d)) then -ENOMEM
    else 0
  }

  /** The characters of an argument, as bytes. */
  function Bytes(s: string): seq<bv8> {
    seq(|s|, i requires 0 <= i < |s| => (s[i] as int % 256) as bv8)
  }

  lemma StepSound(lib: Library, argv: seq<string>, d: Draft, memory: bool)
    requires d.opt < |argv| && d.err == 0 && Sound(d)
    ensures Sound(StepOption(lib, argv, d, memory))
    ensures var r := StepOption(lib, argv, d, memory);
            if r.tries == d.tries then r.data == d.data && Granted(r) == Granted(d) && Lost(r) == Lost(d)
            else Lost(r) == Granted(d) && Granted(r) == Granted(d) + (if memory then 1 else 0)
                 && (r.data.Some? <==> memory)
  {
  }

  // ---------------------------------------------------------------- every option read back

  /** The character of each message type, link mode and attribute on the command line. */
  function KindChar(kind: MsgType): char {
    match kind case Get => '0' case Set => '1' case Notify => '2' case Response => '3'
  }

  /** A command line with every option but the payload. */
  function Written(t: string, d: string, o: string, l: string, i: string, ack: string, retries: string, ttl: string)
    : seq<string>
  {
    ["-t", t, "-d", d, "-o", o, "-l", l, "-i", i, "-a", ack, retries, ttl]
  }

  lemma OptionsStep(lib: Library, argv: seq<string>, ok: nat -> bool, d: Draft, next: Draft)
    requires d.err == 0 && d.opt < |argv| && StepOption(lib, argv, d, ok(d.tries)) == next
    ensures Options(lib, argv, ok, d) == Options(lib, argv, ok, next)
  {
    hide StepOption;
  }

  lemma TypeRead(lib: Library, argv: seq<string>, ok: nat -> bool, d: Draft, kind: MsgType)
    requires d.err == 0 && d.opt + 1 < |argv| && argv[d.opt] == "-t" && First(argv[d.opt + 1]) == KindChar(kind)
    ensures Options(lib, argv, ok, d) == Options(lib, argv, ok, d.(opt := d.opt + 2, kind := kind))
  {
    OptionsStep(lib, argv, ok, d, d.(opt := d.opt + 2, kind := kind));
    hide Options;
  }

  lemma ModeRead(lib: Library, argv: seq<string>, ok: nat -> bool, d: Draft, mobile: bool)
    requires d.err == 0 && d.opt + 1 < |argv| && argv[d.opt] == "-d"
    requires First(argv[d.opt + 1]) == if mobile then '2' else '1'
    ensures Options(lib, argv, ok, d) == Options(lib, argv, ok, d.(opt := d.opt + 2, attr := d.attr.(mobile := mobile)))
  {
    OptionsStep(lib, argv, ok, d, d.(opt := d.opt + 2, attr := d.attr.(mobile := mobile)));
    hide Options;
  }

  lemma AttributeRead(lib: Library, argv: seq<string>, ok: nat -> bool, d: Draft, low: bool)
    requires d.err == 0 && d.opt + 1 < |argv| && argv[d.opt] == "-o"
    requires First(argv[d.opt + 1]) == if low then '1' else '0'
    ensures Options(lib, argv, ok, d) ==
              Options(lib, argv, ok, d.(opt := d.opt + 2, attr := d.attr.(lowLatency := low)))
  {
    OptionsStep(lib, argv, ok, d, d.(opt := d.opt + 2, attr := d.attr.(lowLatency := low)));
    hide Options;
  }

  lemma LinkRead(lib: Library, argv: seq<string>, ok: nat -> bool, d: Draft, link: bv32)
    requires d.err == 0 && d.opt + 1 < |argv| && argv[d.opt] == "-l" && lib.link(argv[d.opt + 1]) == Some(link)
    ensures Options(lib, argv, ok, d) == Options(lib, argv, ok, d.(opt := d.opt + 2, link := link))
  {
    OptionsStep(lib, argv, ok, d, d.(opt := d.opt + 2, link := link));
    hide Options;
  }

  lemma ReplyRead(lib: Library, argv: seq<string>, ok: nat -> bool, d: Draft, reply: nat)
    requires d.err == 0 && d.opt + 1 < |argv| && argv[d.opt] == "-i"
    requires lib.number(argv[d.opt + 1]) == Strtol(reply, true) && reply <= 0xFFFF
    ensures Options(lib, argv, ok, d) == Options(lib, argv, ok, d.(opt := d.opt + 2, reply := reply))
  {
    OptionsStep(lib, argv, ok, d, d.(opt := d.opt + 2, reply := reply));
    hide Options;
  }

  lemma AckRead(lib: Library, argv: seq<string>, ok: nat -> bool, d: Draft, attr: Attributes)
    requires d.err == 0 && d.opt + 3 < |argv| && argv[d.opt] == "-a"
    requires lib.number(argv[d.opt + 1]) == Strtol(if attr.ack then 1 else 0, true)
    requires lib.number(argv[d.opt + 2]).value % 0x100 == attr.retries
    requires lib.number(argv[d.opt + 3]).value == attr.ttl && attr.ttl <= 0xFFFF
    requires d.attr.mobile == attr.mobile && d.attr.lowLatency == attr.lowLatency
    ensures Options(lib, argv, ok, d) == Options(lib, argv, ok, d.(opt := d.opt + 4, attr := attr))
  {
    OptionsStep(lib, argv, ok, d, d.(opt := d.opt + 4, attr := attr));
    hide Options;
  }

  /** A message whose options were written out reads back as that message: type, link mode, attribute,
      link, reply id, acknowledgement, retries in eight bits and time to live. */
  lemma OptionsReadBack(lib: Library, before: seq<string>, ok: nat -> bool, d: Draft, want: Draft,
                        t: string, m: string, o: string, l: string, i: string,
                        ack: string, retries: string, ttl: string)
    requires d.opt == |before| && d.err == 0
    requires First(t) == KindChar(want.kind)
    requires First(m) == (if want.attr.mobile then '2' else '1')
    requires First(o) == (if want.attr.lowLatency then '1' else '0')
    requires lib.link(l) == Some(want.link)
    requires lib.number(i) == Strtol(want.reply, true) && want.reply <= 0xFFFF
    requires lib.number(ack) == Strtol(if want.attr.ack then 1 else 0, true)
    requires lib.number(retries).value % 0x100 == want.attr.retries
    requires lib.number(ttl).value == want.attr.ttl && want.attr.ttl <= 0xFFFF
    ensures Options(lib, before + Written(t, m, o, l, i, ack, retries, ttl), ok, d) ==
              want.(opt := |before| + 14, data := d.data, tries := d.tries, err := 0)
  {
    var argv := before + Written(t, m, o, l, i, ack, retries, ttl);
    var k := |before|;
    WrittenAt(before, t, m, o, l, i, ack, retries, ttl);
    hide Options, First, KindChar, Written;
    TypeRead(lib, argv, ok, d, want.kind);
    var d1 := d.(opt := k + 2, kind := want.kind);
    ModeRead(lib, argv, ok, d1, want.attr.mobile);
    var d2 := d1.(opt := k + 4, attr := d1.attr.(mobile := want.attr.mobile));
    AttributeRead(lib, argv, ok, d2, want.attr.lowLatency);
    var d3 := d2.(opt := k + 6, attr := d2.attr.(lowLatency := want.attr.lowLatency));
    LinkRead(lib, argv, ok, d3, want.link);
    var d4 := d3.(opt := k + 8, link := want.link);
    ReplyRead(lib, argv, ok, d4, want.reply);
    var d5 := d4.(opt := k + 10, reply := want.reply);
    AckRead(lib, argv, ok, d5, want.attr);
    OptionsEnd(lib, argv, ok, d5.(opt := k + 14, attr := want.attr));
  }

  lemma OptionsEnd(lib: Library, argv: seq<string>, ok: nat -> bool, d: Draft)
    requires d.opt >= |argv|
    ensures Options(lib, argv, ok, d) == d
  {
  }

  lemma WrittenAt(before: seq<string>, t: string, m: string, o: string, l: string, i: string,
                  ack: string, retries: string, ttl: string)
    ensures var argv, k := before + Written(t, m, o, l, i, ack, retries, ttl), |before|;
            && |argv| == k + 14
            && argv[k] == "-t" && argv[k + 1] == t && argv[k + 2] == "-d" && argv[k + 3] == m
            && argv[k + 4] == "-o" && argv[k + 5] == o && argv[k + 6] == "-l" && argv[k + 7] == l
            && argv[k + 8] == "-i" && argv[k + 9] == i && argv[k + 10] == "-a" && argv[k + 11] == ack
            && argv[k + 12] == retries && argv[k + 13] == ttl
  {
  }

  /** Any other word is passed over, so that the last one can be the payload. */
  lemma WordSkipped(lib: Library, argv: seq<string>, ok: nat -> bool, d: Draft)
    requires d.err == 0 && d.opt < |argv| && !NeedsValue(argv[d.opt]) && argv[d.opt] != "-a"
    ensures Options(lib, argv, ok, d) == Options(lib, argv, ok, d.(opt := d.opt + 1))
  {
    OptionsStep(lib, argv, ok, d, d.(opt := d.opt + 1));
    hide Options;
  }

  /** A value that the option at its place does not take. */
  predicate BadValue(lib: Library, arg: string, value: string) {
    match arg
    case "-t" => First(value) !in "0123"
    case "-d" => First(value) !in "12"
    case "-o" => First(value) !in "01"
    case "-r" => lib.hex(value) == []
    case "-l" => lib.link(value).None?
    case "-i" => !lib.number(value).digits || !(0 <= lib.number(value).value <= 0xFFFF)
    case _ => false
  }

  lemma StepRefused(lib: Library, argv: seq<string>, d: Draft, memory: bool)
    requires d.err == 0 && d.opt < |argv|
    requires (NeedsValue(argv[d.opt]) && d.opt + 1 == |argv|)
             || BadValue(lib, argv[d.opt], Argument(lib, argv, d.opt + 1))
    ensures StepOption(lib, argv, d, memory).err == -EINVAL
  {
    hide Argument, First;
  }

  lemma AckRefused(lib: Library, argv: seq<string>, d: Draft, memory: bool)
    requires d.err == 0 && d.opt < |argv| && argv[d.opt] == "-a"
    requires var ack, ttl := lib.number(Argument(lib, argv, d.opt + 1)), lib.number(Argument(lib, argv, d.opt + 3));
             || d.opt + 3 > |argv| || !ack.digits || !(0 <= ack.value <= 1) || !(0 <= ttl.value <= 0xFFFF)
    ensures StepOption(lib, argv, d, memory).err == -EINVAL
  {
    hide Argument;
  }

  // ---------------------------------------------------------------- repeated payloads

  function Repeated(values: seq<string>): seq<string> {
    if values == [] then [] else ["-r", values[0]] + Repeated(values[1..])
  }

  /** A command with any number of readable payloads keeps the last and loses all the others. */
  lemma {:induction false} RepeatedPayloads(lib: Library, before: seq<string>, values: seq<string>,
                                            ok: nat -> bool, d: Draft)
    requires d.opt == |before| && d.err == 0 && forall i: nat :: ok(i)
    requires forall i :: 0 <= i < |values| ==> lib.hex(values[i]) != []
    ensures var r := Options(lib, before + Repeated(values), ok, d);
            && r.err == 0 && r.tries == d.tries + |values|
            && r.data == if values == [] then d.data else Some(lib.hex(values[|values| - 1]))
    decreases |values|
  {
    var argv := before + Repeated(values);
    if values != [] {
      assert argv[d.opt] == "-r" && argv[d.opt + 1] == values[0];
      var next := StepOption(lib, argv, d, ok(d.tries));
      assert argv == (before + ["-r", values[0]]) + Repeated(values[1..]);
      RepeatedPayloads(lib, before + ["-r", values[0]], values[1..], ok, next);
    }
  }

  /** `sid flow send fsk -r 00 -r 01` loses its first payload. */
  lemma SecondPayloadLosesFirst(lib: Library, ok: nat -> bool, d: Draft)
    requires d.opt == 2 && d.err == 0 && d.tries == 0 && forall i: nat :: ok(i)
    requires lib.hex("00") == [0] && lib.hex("01") == [1]
    ensures var r := Options(lib, ["send", "fsk", "-r", "00", "-r", "01"], ok, d);
            r.err == 0 && r.data == Some([1]) && Lost(r) == 1
  {
    var values := ["00", "01"];
    RepeatedPayloads(lib, ["send", "fsk"], values, ok, d);
    assert Repeated(values[1..][1..]) == [];
    assert Repeated(values[1..]) == ["-r", "01"];
    assert ["send", "fsk"] + Repeated(values) == ["send", "fsk", "-r", "00", "-r", "01"];
  }
}
