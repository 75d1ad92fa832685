/** JSON trees, the recursive printer, and the parser as a machine with an explicit stack. */
module Json {

  datatype Value =
    | Invalid
    | Null
    | Boolean(b: bool)
    | Integer(n: int)
    | Double(r: real)
    | String(s: string)
    | Array(items: seq<Value>)
    | Object(members: seq<Member>)

  /** Members are kept sorted by key, as the source's map keeps them. */
  datatype Member = Member(key: string, value: Value)

  // ---------------------------------------------------------------- objects

  predicate Less(a: string, b: string) {
    if b == "" then false
    else if a == "" then true
    else if a[0] == b[0] then Less(a[1..], b[1..])
    else a[0] < b[0]
  }

  /** Sets the value of a key, in key order. */
  function AddMember(ms: seq<Member>, key: string, value: Value): seq<Member> {
    if ms == [] then [Member(key, value)]
    else if ms[0].key == key then [Member(key, value)] + ms[1..]
    else if Less(key, ms[0].key) then [Member(key, value)] + ms
    else [ms[0]] + AddMember(ms[1..], key, value)
  }

  // ---------------------------------------------------------------- printing

  function Digit(d: nat): char
    requires d < 10
  {
    '0' + d as char
  }

  function Decimal(n: nat): string {
    if n < 10 then [Digit(n)] else Decimal(n / 10) + [Digit(n % 10)]
  }

  function IntegerText(n: int): string {
    if n < 0 then "-" + Decimal(-n) else Decimal(n)
  }

  function Escaped(s: string): string {
    if s == "" then "" else (if s[0] == '\\' then "\\\\" else [s[0]]) + Escaped(s[1..])
  }

  function Spaces(n: nat): string {
    seq(n, _ => ' ')
  }

  // Below level zero nothing is indented.

  function NewLine(level: int): string {
    if level >= 0 then "\n" else ""
  }

  function Indent(level: int): string {
    if level >= 0 then Spaces(4 * (level + 1)) else ""
  }

  function NextLevel(level: int): int {
    if level >= 0 then level + 1 else -1
  }

  /** How a double is printed is left open: `show` stands for the library's conversion. */
  function Text(v: Value, level: int, show: real -> string): string
    decreases v, 1
  {
    match v
    case String(s) => "\"" + Escaped(s) + "\""
    case Integer(n) => IntegerText(n)
    case Boolean(b) => if b then "true" else "false"
    case Double(r) => show(r)
    case Null => "null"
    case Object(ms) => "{" + NewLine(level) + MembersText(ms, level, show) + NewLine(level) + Indent(level) + "}"
    case Array(items) => "[" + NewLine(level) + ItemsText(items, level, show) + NewLine(level) + Indent(level) + "]"
    case Invalid => "[" + NewLine(level) + NewLine(level) + Indent(level) + "]"
  }

  function ItemsText(items: seq<Value>, level: int, show: real -> string): string
    decreases items, 0
  {
    if items == [] then ""
    else
      Indent(level) + (Text(items[0], NextLevel(level), show) +
                       if |items| == 1 then "" else "," + (NewLine(level) + ItemsText(items[1..], level, show)))
  }

  function MembersText(ms: seq<Member>, level: int, show: real -> string): string
    decreases ms, 0
  {
    if ms == [] then ""
    else
      Indent(level) + ("\"" + ms[0].key + "\":" + (Text(ms[0].value, NextLevel(level), show) +
                       if |ms| == 1 then "" else "," + (NewLine(level) + MembersText(ms[1..], level, show))))
  }

  // ---------------------------------------------------------------- characters

  predicate IsSpace(c: char) {
    c == ' ' || '\t' <= c <= '\r'
  }

  predicate IsDigit(c: char) {
    '0' <= c <= '9'
  }

  predicate IsControl(c: char) {
    c < ' ' || c == '\U{7f}'
  }

  predicate IsHex(c: char) {
    IsDigit(c) || 'a' <= c <= 'f' || 'A' <= c <= 'F'
  }

  function HexValue(c: char): (h: nat)
    requires IsHex(c)
    ensures h < 16
  {
    if c >= 'a' then (c - 'a') as nat + 10
    else if c >= 'A' then (c - 'A') as nat + 10
    else (c - '0') as nat
  }

  /** The text ends, or its next character may follow a value. */
  predicate AtDelimiter(s: string) {
    s == "" || IsSpace(s[0]) || s[0] in {',', ':', ']', '}'}
  }

  // ---------------------------------------------------------------- the parser: one value

  datatype Status =
    | BadNumber
    | BadString
    | BadIdentifier
    | StackUnderflow
    | MismatchBracket
    | UnexpectedCharacter
    | UnquotedKey
    | BreakingBad
    | AllocError

  /** A scalar read from the front of a text and what follows it, or why there is none. */
  datatype Scalar = Scalar(value: Value, rest: string) | NoScalar(status: Status)

  function SkipSpaces(s: string): string {
    if s != "" && IsSpace(s[0]) then SkipSpaces(s[1..]) else s
  }

  /** Digits at the front of s appended to the number acc; the value and what follows. */
  function ReadDigits(s: string, acc: nat): (nat, string) {
    if s != "" && IsDigit(s[0]) then ReadDigits(s[1..], acc * 10 + (s[0] - '0') as nat) else (acc, s)
  }

  /** A digit of the fraction, worth that many units. */
  function AddDigit(acc: real, c: char, unit: real): real
    requires IsDigit(c)
  {
    acc + (c - '0') as nat as real * unit
  }

  function ReadFraction(s: string, acc: real, unit: real): (real, string) {
    if s != "" && IsDigit(s[0]) then
      ReadFraction(s[1..], AddDigit(acc, s[0], unit * 0.1), unit * 0.1)
    else (acc, s)
  }

  function Power(base: real, e: nat): real {
    if e == 0 then 1.0 else base * Power(base, e - 1)
  }

  function ReadExponent(s: string): (real, string) {
    var negative := s != "" && s[0] == '-';
    var digits := if s != "" && (s[0] == '+' || s[0] == '-') then s[1..] else s;
    var (e, rest) := ReadDigits(digits, 0);
    (Power(if negative then 0.1 else 10.0, e), rest)
  }

  function Scaled(mantissa: real, factor: real): real {
    mantissa * factor
  }

  /** `StringToNumber`: an integer, or a double as soon as there is a point or an exponent. */
  function ReadNumber(s: string): (Value, string) {
    var negative := s != "" && s[0] == '-';
    var (whole, s1) := ReadDigits(if negative then s[1..] else s, 0);
    var point := s1 != "" && s1[0] == '.';
    var (mantissa, s2) := if point then ReadFraction(s1[1..], whole as real, 1.0) else (whole as real, s1);
    var exponent := s2 != "" && (s2[0] == 'e' || s2[0] == 'E');
    var (factor, s3) := if exponent then ReadExponent(s2[1..]) else (1.0, s2);
    if point || exponent then (Double(if negative then -Scaled(mantissa, factor) else Scaled(mantissa, factor)), s3)
    else
      var value: int := if negative then -(whole as int) else whole;
      (Integer(value), s3)
  }

  /** UTF-8 bytes of a 16-bit code. */
  function Utf8(c: nat): string
    requires c < 0x10000
  {
    if c < 0x80 then [c as char]
    else if c < 0x800 then [(0xC0 + c / 64) as char, (0x80 + c % 64) as char]
    else [(0xE0 + c / 4096) as char, (0x80 + c / 64 % 64) as char, (0x80 + c % 64) as char]
  }

  predicate AllHex(s: string) {
    |s| == 4 && IsHex(s[0]) && IsHex(s[1]) && IsHex(s[2]) && IsHex(s[3])
  }

  function Code(s: string): (c: nat)
    requires AllHex(s)
    ensures c < 0x10000
  {
    var high := HexValue(s[0]) * 16 + HexValue(s[1]);
    var low := HexValue(s[2]) * 16 + HexValue(s[3]);
    high * 256 + low
  }

  function Escape(c: char): string {
    match c
    case '\\' => "\\"
    case '"' => "\""
    case '/' => "/"
    case 'b' => "\U{08}"
    case 'f' => "\U{0c}"
    case 'n' => "\n"
    case 'r' => "\r"
    case 't' => "\t"
    case _ => ""
  }

  /** The rest of a string after its opening quote; a string may also end with the text. */
  function ReadString(s: string, acc: string): Scalar
    decreases |s|
  {
    if s == "" then Scalar(String(acc), s)
    else if s[0] == '\\' then
      if |s| == 1 then NoScalar(BadString)
      else if s[1] == 'u' then
        if |s| >= 6 && AllHex(s[2..6]) then
          ReadString(s[6..], acc + Utf8(Code(s[2..6])))
        else NoScalar(BadString)
      else if Escape(s[1]) == "" then NoScalar(BadString)
      else ReadString(s[2..], acc + Escape(s[1]))
    else if IsControl(s[0]) then NoScalar(BadString)
    else if s[0] == '"' then Scalar(String(acc), s[1..])
    else ReadString(s[1..], acc + [s[0]])
  }

  function ReadWord(s: string, word: string, v: Value): Scalar {
    if |s| >= |word| && s[..|word|] == word && AtDelimiter(s[|word|..]) then Scalar(v, s[|word|..])
    else NoScalar(BadIdentifier)
  }

  predicate StartsScalar(c: char) {
    c in {'-', '"', 't', 'f', 'n'} || IsDigit(c)
  }

  function ReadScalar(s: string): Scalar
    requires s != "" && StartsScalar(s[0])
  {
    match s[0]
    case '"' =>
      var r := ReadString(s[1..], "");
      if r.Scalar? && !AtDelimiter(r.rest) then NoScalar(BadString) else r
    case 't' => ReadWord(s, "true", Boolean(true))
    case 'f' => ReadWord(s, "false", Boolean(false))
    case 'n' => ReadWord(s, "null", Null)
    case c =>
      if c == '-' && !(|s| > 1 && (IsDigit(s[1]) || s[1] == '.')) then NoScalar(BadNumber)
      else
        var (v, rest) := ReadNumber(s);
        if AtDelimiter(rest) then Scalar(v, rest) else NoScalar(BadNumber)
  }

  // ---------------------------------------------------------------- the parser: the stack machine

  /** An open array or object, with the key waiting for its value ("" if none). */
  datatype Frame = Frame(node: Value, key: string)

  datatype PState = PState(rest: string, stack: seq<Frame>, separator: bool)

  datatype Outcome = Continue(state: PState) | Done(value: Value) | Fail(status: Status)

  function Top(stack: seq<Frame>): Frame
    requires stack != []
  {
    stack[|stack| - 1]
  }

  function WithTop(stack: seq<Frame>, f: Frame): seq<Frame>
    requires stack != []
  {
    stack[..|stack| - 1] + [f]
  }

  /** A finished value goes to the open array, or to the open object under the waiting key. */
  function AddTo(f: Frame, v: Value): Frame {
    match f.node
    case Object(ms) => Frame(Object(AddMember(ms, f.key, v)), "")
    case Array(items) => Frame(Array(items + [v]), "")
    case _ => f
  }

  function TakeScalar(stack: seq<Frame>, v: Value, rest: string): Outcome {
    if stack == [] then Fail(AllocError)
    else
      var top := Top(stack);
      if top.node.Object? && top.key == "" then
        if v.String? then Continue(PState(rest, WithTop(stack, top.(key := v.s)), false)) else Fail(UnquotedKey)
      else if top.node.Object? || top.node.Array? then
        Continue(PState(rest, WithTop(stack, AddTo(top, v)), false))
      else Fail(AllocError)
  }

  function CloseTop(stack: seq<Frame>, rest: string): Outcome
    requires stack != []
  {
    if |stack| == 1 then Done(stack[0].node)
    else
      var below := stack[..|stack| - 1];
      Continue(PState(rest, WithTop(below, AddTo(Top(below), Top(stack).node)), false))
  }

  /** One turn of the loop, at the first character that is no space. */
  function StepAt(st: PState, s: string): Outcome
    requires s != ""
  {
    var rest := s[1..];
    var stack := st.stack;
    if StartsScalar(s[0]) then
      match ReadScalar(s)
      case NoScalar(status) => Fail(status)
      case Scalar(v, rest) => TakeScalar(stack, v, rest)
    else match s[0]
      case ']' =>
        if stack == [] then Fail(StackUnderflow)
        else if !Top(stack).node.Array? then Fail(MismatchBracket)
        else CloseTop(stack, rest)
      case '}' =>
        if stack == [] then Fail(StackUnderflow)
        else if !Top(stack).node.Object? then Fail(MismatchBracket)
        else if Top(stack).key != "" then Fail(UnexpectedCharacter)
        else CloseTop(stack, rest)
      case '[' => Continue(PState(rest, stack + [Frame(Array([]), "")], true))
      case '{' => Continue(PState(rest, stack + [Frame(Object([]), "")], true))
      case ':' =>
        if st.separator || stack == [] || Top(stack).key == "" then Fail(UnexpectedCharacter)
        else Continue(st.(rest := rest, separator := true))
      case ',' =>
        if st.separator || (stack != [] && Top(stack).key != "") then Fail(UnexpectedCharacter)
        else Continue(st.(rest := rest, separator := true))
      case _ => Fail(UnexpectedCharacter)
  }

  function Step(st: PState): Outcome {
    var s := SkipSpaces(st.rest);
    if s == "" then Fail(BreakingBad) else StepAt(st, s)
  }

  function Run(st: PState): Outcome
    decreases |st.rest|
  {
    match Step(st)
    case Continue(st') => (StepConsumes(st); Run(st'))
    case o => o
  }

  function Parse(text: string): Outcome {
    Run(PState(text, [], true))
  }

  // ---------------------------------------------------------------- every turn consumes a character

  lemma {:induction false} SkipSpacesShrinks(s: string)
    ensures |SkipSpaces(s)| <= |s|
  {
    if s != "" && IsSpace(s[0]) {
      SkipSpacesShrinks(s[1..]);
    }
  }

  lemma {:induction false} ReadDigitsShrinks(s: string, acc: nat)
    ensures |ReadDigits(s, acc).1| <= |s|
    ensures s != "" && IsDigit(s[0]) ==> |ReadDigits(s, acc).1| < |s|
  {
    if s != "" && IsDigit(s[0]) {
      ReadDigitsShrinks(s[1..], acc * 10 + (s[0] - '0') as nat);
    }
  }

  lemma {:induction false} ReadFractionShrinks(s: string, acc: real, unit: real)
    ensures |ReadFraction(s, acc, unit).1| <= |s|
  {
    if s != "" && IsDigit(s[0]) {
      ReadFractionShrinks(s[1..], acc + (s[0] - '0') as nat as real * (unit * 0.1), unit * 0.1);
    }
  }

  lemma ReadExponentShrinks(s: string)
    ensures |ReadExponent(s).1| <= |s|
  {
    ReadDigitsShrinks(if s != "" && (s[0] == '+' || s[0] == '-') then s[1..] else s, 0);
  }

  lemma ReadNumberShrinks(s: string)
    requires s != "" && (s[0] == '-' || IsDigit(s[0]))
    ensures |ReadNumber(s).1| < |s|
  {
    var negative := s[0] == '-';
    var (whole, s1) := ReadDigits(if negative then s[1..] else s, 0);
    ReadDigitsShrinks(if negative then s[1..] else s, 0);
    var point := s1 != "" && s1[0] == '.';
    if point { ReadFractionShrinks(s1[1..], whole as real, 1.0); }
    var (mantissa, s2) := if point then ReadFraction(s1[1..], whole as real, 1.0) else (whole as real, s1);
    if s2 != "" && (s2[0] == 'e' || s2[0] == 'E') { ReadExponentShrinks(s2[1..]); }
  }

  lemma {:induction false} ReadStringShrinks(s: string, acc: string)
    ensures var r := ReadString(s, acc); r.Scalar? ==> |r.rest| <= |s|
    decreases |s|
  {
    hide Utf8, Escape, AllHex, Code;
    if s != "" {
      if s[0] == '\\' {
        if |s| >= 6 && s[1] == 'u' && AllHex(s[2..6]) {
          ReadStringShrinks(s[6..], acc + Utf8(Code(s[2..6])));
        } else if |s| > 1 && s[1] != 'u' && Escape(s[1]) != "" {
          ReadStringShrinks(s[2..], acc + Escape(s[1]));
        }
      } else if !IsControl(s[0]) && s[0] != '"' {
        ReadStringShrinks(s[1..], acc + [s[0]]);
      }
    }
  }

  lemma StepConsumes(st: PState)
    ensures Step(st).Continue? ==> |Step(st).state.rest| < |st.rest|
  {
    SkipSpacesShrinks(st.rest);
    var s := SkipSpaces(st.rest);
    if s != "" && StartsScalar(s[0]) {
      ReadScalarShrinks(s);
    }
  }

  lemma ReadScalarShrinks(s: string)
    requires s != "" && StartsScalar(s[0])
    ensures ReadScalar(s).Scalar? ==> |ReadScalar(s).rest| < |s|
  {
    if s[0] == '"' {
      ReadStringShrinks(s[1..], "");
    } else if s[0] !in {'t', 'f', 'n'} {
      ReadNumberShrinks(s);
    }
  }
}
