/** The loops of the JSON printer and parser, against the functions that specify them. */
module JsonObjects {
  import opened Json

  // ---------------------------------------------------------------- printing

  method CreateIndent(level: int) returns (indent: string)
    ensures indent == Spaces(if level < 0 then 0 else 4 * level)
  {
    indent := "";
    var i := 0;
    while i < 4 * level
      invariant 0 <= i && (level >= 0 ==> i <= 4 * level) && (level < 0 ==> i == 0)
      invariant indent == Spaces(i)
    {
      assert Spaces(i) + " " == Spaces(i + 1);
      indent := indent + " ";
      i := i + 1;
    }
  }

  method ValueToString(v: Value, level: int, show: real -> string) returns (text: string)
    ensures text == Text(v, level, show)
    decreases v, 1
  {
    match v
    case String(s) =>
      var escaped := EscapeBackslashes(s);
      text := "\"" + escaped + "\"";
    case Integer(n) => text := IntegerText(n);
    case Boolean(b) => text := if b then "true" else "false";
    case Double(r) => text := show(r);
    case Null => text := "null";
    case Object(ms) => text := ObjectToString(ms, level, show);
    case Array(items) =>
      text := ArrayToString(items, level, show);
    case Invalid =>
      var crlf, indent, _ := Layout(level);
      text := "[" + crlf + crlf + indent + "]";
  }

  /** Doubles every backslash. */
  method EscapeBackslashes(s: string) returns (escaped: string)
    ensures escaped == Escaped(s)
  {
    escaped := "";
    assert s[0..] == s;
    for i := 0 to |s|
      invariant escaped + Escaped(s[i..]) == Escaped(s)
    {
      assert s[i..][1..] == s[i + 1..];
      var c := if s[i] == '\\' then "\\\\" else [s[i]];
      assert (escaped + c) + Escaped(s[i + 1..]) == escaped + (c + Escaped(s[i + 1..]));
      escaped := escaped + c;
    }
  }

  method ArrayToString(items: seq<Value>, level: int, show: real -> string) returns (text: string)
    ensures text == "[" + NewLine(level) + ItemsText(items, level, show) + NewLine(level) + Indent(level) + "]"
    decreases items, 0
  {
    hide Text;
    var crlf, indent, nextLevel := Layout(level);
    text := "[" + crlf;
    ghost var start := text;
    assert items[0..] == items;
    for i := 0 to |items|
      invariant text + ItemsText(items[i..], level, show) == start + ItemsText(items, level, show)
    {
      ghost var before, rest := text, ItemsText(items[i + 1..], level, show);
      var item := ValueToString(items[i], nextLevel, show);
      ItemsTextAt(items, i, level, show);
      text := text + (indent + item);
      if i + 1 < |items| {
        text := text + ("," + crlf);
      }
      Regroup(before, indent, item, if i + 1 < |items| then "," + crlf else "", rest);
      KeyFirst(",", crlf, rest);
    }
    text := text + crlf + indent + "]";
  }

  method ObjectToString(ms: seq<Member>, level: int, show: real -> string) returns (text: string)
    ensures text == "{" + NewLine(level) + MembersText(ms, level, show) + NewLine(level) + Indent(level) + "}"
    decreases ms, 0
  {
    hide Text;
    var crlf, indent, nextLevel := Layout(level);
    text := "{" + crlf;
    ghost var start := text;
    assert ms[0..] == ms;
    for i := 0 to |ms|
      invariant text + MembersText(ms[i..], level, show) == start + MembersText(ms, level, show)
    {
      ghost var before, rest := text, MembersText(ms[i + 1..], level, show);
      var value := ValueToString(ms[i].value, nextLevel, show);
      var item := "\"" + ms[i].key + "\":" + value;
      MembersTextAt(ms, i, level, show);
      text := text + (indent + item);
      if i + 1 < |ms| {
        text := text + ("," + crlf);
      }
      var tail := if i + 1 < |ms| then "," + crlf else "";
      Regroup(before, indent, item, tail, rest);
      KeyFirst("\"" + ms[i].key + "\":", value, tail + rest);
      KeyFirst(",", crlf, rest);
    }
    text := text + crlf + indent + "}";
  }

  method Layout(level: int) returns (crlf: string, indent: string, nextLevel: int)
    ensures crlf == NewLine(level) && indent == Indent(level) && nextLevel == NextLevel(level)
  {
    crlf, indent, nextLevel := "", "", -1;
    if level >= 0 {
      crlf := "\n";
      indent := CreateIndent(level + 1);
      nextLevel := level + 1;
    }
  }

  lemma ItemsTextAt(items: seq<Value>, i: nat, level: int, show: real -> string)
    requires i < |items|
    ensures ItemsText(items[i..], level, show) ==
      Indent(level) + (Text(items[i], NextLevel(level), show) +
        if i + 1 == |items| then "" else "," + (NewLine(level) + ItemsText(items[i + 1..], level, show)))
    ensures i + 1 == |items| ==> ItemsText(items[i + 1..], level, show) == ""
  {
    hide Text;
    assert items[i..][1..] == items[i + 1..];
  }

  lemma MembersTextAt(ms: seq<Member>, i: nat, level: int, show: real -> string)
    requires i < |ms|
    ensures MembersText(ms[i..], level, show) ==
      Indent(level) + ("\"" + ms[i].key + "\":" + (Text(ms[i].value, NextLevel(level), show) +
        if i + 1 == |ms| then "" else "," + (NewLine(level) + MembersText(ms[i + 1..], level, show))))
    ensures i + 1 == |ms| ==> MembersText(ms[i + 1..], level, show) == ""
  {
    hide Text;
    assert ms[i..][1..] == ms[i + 1..];
  }

  lemma Regroup(before: string, indent: string, item: string, tail: string, rest: string)
    ensures (before + (indent + item) + tail) + rest == before + (indent + (item + (tail + rest)))
    ensures tail == "" ==> before + (indent + item) + tail == before + (indent + item)
  {
  }

  lemma KeyFirst(key: string, value: string, tail: string)
    ensures (key + value) + tail == key + (value + tail)
  {
  }

  // ---------------------------------------------------------------- reading one value

  method SkipBlanks(text: string, start: nat) returns (s: nat)
    requires start <= |text|
    ensures start <= s <= |text| && text[s..] == SkipSpaces(text[start..])
  {
    s := start;
    while s < |text| && IsSpace(text[s])
      invariant start <= s <= |text| && SkipSpaces(text[s..]) == SkipSpaces(text[start..])
    {
      assert text[s..][1..] == text[s + 1..];
      s := s + 1;
    }
  }

  method ScanDigits(text: string, start: nat) returns (value: nat, s: nat)
    requires start <= |text|
    ensures start <= s <= |text| && (value, text[s..]) == ReadDigits(text[start..], 0)
  {
    value, s := 0, start;
    while s < |text| && IsDigit(text[s])
      invariant start <= s <= |text| && ReadDigits(text[s..], value) == ReadDigits(text[start..], 0)
    {
      assert text[s..][1..] == text[s + 1..];
      value := value * 10 + (text[s] - '0') as nat;
      s := s + 1;
    }
  }

  method ScanFraction(text: string, start: nat, whole: real) returns (result: real, s: nat)
    requires start <= |text|
    ensures start <= s <= |text| && (result, text[s..]) == ReadFraction(text[start..], whole, 1.0)
  {
    result, s := whole, start;
    var fraction := 1.0;
    while s < |text| && IsDigit(text[s])
      invariant start <= s <= |text|
      invariant ReadFraction(text[s..], result, fraction) == ReadFraction(text[start..], whole, 1.0)
    {
      assert text[s..][1..] == text[s + 1..];
      ghost var before := result;
      fraction := fraction * 0.1;
      result := result + (text[s] - '0') as nat as real * fraction;
      assert result == AddDigit(before, text[s], fraction);
      s := s + 1;
    }
  }

  lemma {:induction false} PowerAdds(base: real, e: nat)
    ensures Power(base * base, e) == Power(base, 2 * e)
  {
    if e > 0 {
      PowerAdds(base, e - 1);
      assert Power(base, 2 * e) == base * (base * Power(base, 2 * (e - 1)));
    }
  }

  /** Raising to a power by repeated squaring. */
  method PowerBySquaring(base0: real, e: nat) returns (power: real)
    ensures power == Power(base0, e)
  {
    power := 1.0;
    var base, exponent := base0, e;
    while exponent != 0
      invariant power * Power(base, exponent) == Power(base0, e)
      decreases exponent
    {
      PowerAdds(base, exponent / 2);
      SquareStep(power, base, exponent);
      if exponent % 2 == 1 {
        power := power * base;
      }
      exponent := exponent / 2;
      base := base * base;
    }
  }

  lemma SquareStep(power: real, base: real, exponent: nat)
    requires exponent > 0 && Power(base * base, exponent / 2) == Power(base, 2 * (exponent / 2))
    ensures power * Power(base, exponent) ==
      (if exponent % 2 == 1 then power * base else power) * Power(base * base, exponent / 2)
  {
    var rest := Power(base, 2 * (exponent / 2));
    if exponent % 2 == 1 {
      assert exponent == 2 * (exponent / 2) + 1;
      assert Power(base, exponent) == base * rest;
      assert power * (base * rest) == (power * base) * rest;
    } else {
      assert exponent == 2 * (exponent / 2);
    }
  }

  method ScanExponent(text: string, start: nat) returns (factor: real, s: nat)
    requires start <= |text|
    ensures start <= s <= |text| && (factor, text[s..]) == ReadExponent(text[start..])
  {
    s := start;
    var base := 10.0;
    if s < |text| && text[s] == '+' {
      s := s + 1;
    } else if s < |text| && text[s] == '-' {
      s := s + 1;
      base := 0.1;
    }
    assert s > start ==> text[start..][1..] == text[s..];
    var exponent;
    exponent, s := ScanDigits(text, s);
    factor := PowerBySquaring(base, exponent);
  }

  lemma ScaledBy(mantissa: real, factor: real)
    ensures Scaled(mantissa, factor) == mantissa * factor
  {
  }

  lemma ScaledByOne(mantissa: real)
    ensures Scaled(mantissa, 1.0) == mantissa
  {
  }

  method StringToNumber(text: string, start: nat) returns (v: Value, s: nat)
    requires start < |text|
    ensures start <= s <= |text| && (v, text[s..]) == ReadNumber(text[start..])
  {
    hide ReadDigits, ReadFraction, ReadExponent, Scaled;
    s := start;
    var negative := text[s] == '-';
    if negative {
      s := s + 1;
      assert text[start..][1..] == text[s..];
    }
    var whole;
    whole, s := ScanDigits(text, s);
    var result, doubleValue := whole as real, false;
    if s < |text| && text[s] == '.' {
      assert text[s..][1..] == text[s + 1..];
      doubleValue := true;
      result, s := ScanFraction(text, s + 1, result);
    }
    ScaledByOne(result);
    if s < |text| && (text[s] == 'e' || text[s] == 'E') {
      assert text[s..][1..] == text[s + 1..];
      doubleValue := true;
      var factor;
      factor, s := ScanExponent(text, s + 1);
      ScaledBy(result, factor);
      result := result * factor;
    }
    if doubleValue {
      v := Double(if negative then -result else result);
    } else {
      v := Integer(if negative then -(whole as int) else whole);
    }
  }

  /** Four hexadecimal digits. */
  method ScanCode(text: string, start: nat) returns (ok: bool, code: nat)
    requires start <= |text|
    ensures ok <==> start + 4 <= |text| && AllHex(text[start..start + 4])
    ensures ok ==> code == Code(text[start..start + 4])
  {
    code := 0;
    var i := 0;
    while i < 4
      invariant 0 <= i <= 4 && start + i <= |text|
      invariant forall k :: start <= k < start + i ==> IsHex(text[k])
      invariant code == Digits16(text[start..start + i])
    {
      if start + i == |text| || !IsHex(text[start + i]) {
        return false, code;
      }
      assert text[start..start + i + 1][..i] == text[start..start + i];
      code := code * 16 + HexValue(text[start + i]);
      i := i + 1;
    }
    ok := true;
    FourDigits(text[start..start + 4]);
  }

  /** The number written by hexadecimal digits. */
  function Digits16(s: string): nat
    requires forall i :: 0 <= i < |s| ==> IsHex(s[i])
  {
    if s == "" then 0 else Digits16(s[..|s| - 1]) * 16 + HexValue(s[|s| - 1])
  }

  lemma FourDigits(s: string)
    requires AllHex(s)
    ensures Digits16(s) == Code(s)
  {
    hide HexValue;
    assert s[..3][..2] == s[..2] && s[..2][..1] == s[..1] && s[..1][..0] == "";
    assert Digits16(s[..1]) == HexValue(s[0]);
    assert Digits16(s[..2]) == Digits16(s[..1]) * 16 + HexValue(s[1]);
    assert Digits16(s[..3]) == Digits16(s[..2]) * 16 + HexValue(s[2]);
  }

  /** What stands behind a backslash. */
  method ScanEscape(text: string, start: nat) returns (ok: bool, piece: string, s: nat)
    requires start < |text| && text[start] == '\\'
    ensures start < s && (ok ==> s <= |text|)
    ensures forall acc :: ReadString(text[start..], acc) == if ok then ReadString(text[s..], acc + piece) else NoScalar(BadString)
  {
    hide Code, Utf8, HexValue, AllHex;
    ghost var rest := text[start..];
    ok, piece, s := false, "", start + 2;
    if start + 1 < |text| {
      assert rest[1] == text[start + 1];
      if text[start + 1] == 'u' {
        var code;
        ok, code := ScanCode(text, start + 2);
        s := start + 6;
        if ok {
          assert rest[2..6] == text[start + 2..start + 6] && rest[6..] == text[s..];
          piece := Utf8(code);
        } else {
          assert start + 6 <= |text| ==> rest[2..6] == text[start + 2..start + 6];
        }
      } else {
        assert rest[2..] == text[s..];
        piece := Json.Escape(text[start + 1]);
        ok := piece != "";
      }
    }
  }

  /** The characters of a string after its opening quote. */
  method ScanString(text: string, start: nat) returns (ok: bool, value: string, s: nat)
    requires start <= |text|
    ensures ok ==> start <= s <= |text| && ReadString(text[start..], "") == Scalar(String(value), text[s..])
    ensures !ok ==> ReadString(text[start..], "") == NoScalar(BadString)
  {
    hide Utf8, Json.Escape, Code, AllHex, HexValue;
    value, s := "", start;
    while s < |text|
      invariant start <= s <= |text| && ReadString(text[start..], "") == ReadString(text[s..], value)
    {
      var c := text[s];
      assert text[s..][0] == c && text[s..][1..] == text[s + 1..];
      if c == '\\' {
        var piece;
        ok, piece, s := ScanEscape(text, s);
        if !ok {
          return;
        }
        value := value + piece;
      } else if IsControl(c) {
        return false, value, s;
      } else if c == '"' {
        return true, value, s + 1;
      } else {
        value := value + [c];
        s := s + 1;
      }
    }
    ok := true;
  }

  /** The rest of a literal word and the delimiter behind it. */
  method ScanWord(text: string, start: nat, word: string) returns (ok: bool)
    requires start <= |text|
    ensures ok <==> start + |word| <= |text| && text[start..start + |word|] == word && AtDelimiter(text[start + |word|..])
  {
    var i := 0;
    while i < |word|
      invariant 0 <= i <= |word| && start + i <= |text| && text[start..start + i] == word[..i]
    {
      if start + i == |text| || text[start + i] != word[i] {
        assert start + |word| <= |text| ==> text[start..start + |word|][i] == text[start + i];
        return false;
      }
      assert text[start..start + i + 1] == text[start..start + i] + [text[start + i]];
      assert word[..i + 1] == word[..i] + [word[i]];
      i := i + 1;
    }
    assert text[start..][|word|..] == text[start + |word|..];
    ok := AtDelimiter(text[start + |word|..]);
  }

  /** One scalar, where a scalar starts. */
  method ScanScalar(text: string, start: nat) returns (ok: bool, value: Value, status: Status, s: nat)
    requires start < |text| && StartsScalar(text[start])
    ensures ok ==> start < s <= |text| && ReadScalar(text[start..]) == Scalar(value, text[s..])
    ensures !ok ==> ReadScalar(text[start..]) == NoScalar(status)
  {
    hide ReadNumber, ReadString;
    ghost var rest := text[start..];
    var c := text[start];
    assert rest[0] == c && rest[1..] == text[start + 1..];
    value, status, s := Null, BadIdentifier, start;
    if c == '"' {
      status := BadString;
      var str;
      ok, str, s := ScanString(text, start + 1);
      value := String(str);
      if ok {
        ok := AtDelimiter(text[s..]);
      }
    } else if c == 't' {
      ok := ScanLiteral(text, start, "true", Boolean(true));
      value, s := Boolean(true), start + 4;
    } else if c == 'f' {
      ok := ScanLiteral(text, start, "false", Boolean(false));
      value, s := Boolean(false), start + 5;
    } else if c == 'n' {
      ok := ScanLiteral(text, start, "null", Null);
      value, s := Null, start + 4;
    } else {
      status := BadNumber;
      ok := false;
      if c != '-' || (start + 1 < |text| && (IsDigit(text[start + 1]) || text[start + 1] == '.')) {
        value, s := StringToNumber(text, start);
        ReadNumberShrinks(rest);
        ok := AtDelimiter(text[s..]);
      }
    }
  }

  method ScanLiteral(text: string, start: nat, word: string, ghost v: Value) returns (ok: bool)
    requires start <= |text|
    ensures ok ==> start + |word| <= |text|
    ensures ReadWord(text[start..], word, v) == if ok then Scalar(v, text[start + |word|..]) else NoScalar(BadIdentifier)
  {
    ok := ScanWord(text, start, word);
    if start + |word| <= |text| {
      assert text[start..][..|word|] == text[start..start + |word|];
      assert text[start..][|word|..] == text[start + |word|..];
    }
  }

  // ---------------------------------------------------------------- the parser

  datatype Tag = NoTag | ArrayTag | ObjectTag

  /** The maps of the parser: for each open bracket its kind, the key waiting for a value, and the node. */
  datatype Trace = Trace(pos: int, tags: map<int, Tag>, keys: map<int, string>, nodes: map<int, Value>) {
    function TagAt(i: int): Tag {
      if i in tags then tags[i] else NoTag
    }

    function KeyAt(i: int): string {
      if i in keys then keys[i] else ""
    }
  }

  /** The entries up to pos are the open brackets of the stack; what lies above is forgotten. */
  predicate Tracks(m: Trace, stack: seq<Frame>) {
    m.pos == |stack| - 1 && m.pos >= -1 && -1 !in m.keys && -1 !in m.tags &&
    forall i :: 0 <= i < |stack| ==>
      i in m.nodes && i in m.keys && stack[i] == Frame(m.nodes[i], m.keys[i]) &&
      ((m.TagAt(i) == ArrayTag && stack[i].node.Array?) || (m.TagAt(i) == ObjectTag && stack[i].node.Object?))
  }

  /** A finished value goes to the node below: under the waiting key, or at the end of the list. */
  method AddValue(m0: Trace, i: int, v: Value, ghost stack: seq<Frame>) returns (m: Trace)
    requires 0 <= i < |stack| && i in m0.nodes && i in m0.keys && stack[i] == Frame(m0.nodes[i], m0.keys[i])
    requires (m0.TagAt(i) == ArrayTag && stack[i].node.Array?) || (m0.TagAt(i) == ObjectTag && stack[i].node.Object?)
    ensures m == m0.(nodes := m.nodes, keys := m.keys)
    ensures m.nodes == m0.nodes[i := AddTo(stack[i], v).node] && m.keys == m0.keys[i := ""]
  {
    m := m0;
    if m.tags[i] == ObjectTag {
      m := m.(nodes := m.nodes[i := Object(AddMember(m.nodes[i].members, m.keys[i], v))]);
    } else {
      m := m.(nodes := m.nodes[i := Array(m.nodes[i].items + [v])]);
    }
    m := m.(keys := m.keys[i := ""]);
  }

  /** What is done with a scalar. */
  method TakeValue(m0: Trace, o: Value, ghost stack: seq<Frame>, ghost rest: string)
    returns (m: Trace, ghost stack': seq<Frame>, ok: bool, status: Status)
    requires Tracks(m0, stack)
    ensures TakeScalar(stack, o, rest) == if ok then Continue(PState(rest, stack', false)) else Fail(status)
    ensures ok ==> Tracks(m, stack')
  {
    m, stack', ok, status := m0, stack, true, AllocError;
    if m.TagAt(m.pos) == ObjectTag {
      if m.KeyAt(m.pos) == "" {
        if !o.String? {
          ok, status := false, UnquotedKey;
        } else {
          m := m.(keys := m.keys[m.pos := o.s]);
          stack' := WithTop(stack, Top(stack).(key := o.s));
        }
      } else {
        m := AddValue(m, m.pos, o, stack);
        stack' := WithTop(stack, AddTo(Top(stack), o));
      }
    } else if m.TagAt(m.pos) == ArrayTag {
      m := AddValue(m, m.pos, o, stack);
      stack' := WithTop(stack, AddTo(Top(stack), o));
    } else {
      ok := false;
    }
  }

  /** A closing bracket above the first one hands its node down. */
  method CloseNode(m0: Trace, ghost stack: seq<Frame>, ghost rest: string) returns (m: Trace, ghost stack': seq<Frame>)
    requires Tracks(m0, stack) && m0.pos > 0
    ensures CloseTop(stack, rest) == Continue(PState(rest, stack', false)) && Tracks(m, stack')
  {
    var prev := m0.pos - 1;
    var node := m0.nodes[m0.pos];
    ghost var below := stack[..|stack| - 1];
    m := AddValue(m0, prev, node, stack);
    m := m.(nodes := m.nodes - {m.pos}, pos := m.pos - 1);
    stack' := WithTop(below, AddTo(Top(below), node));
  }

  method OpenNode(m0: Trace, isArray: bool, ghost stack: seq<Frame>) returns (m: Trace)
    requires Tracks(m0, stack)
    ensures Tracks(m, stack + [Frame(if isArray then Array([]) else Object([]), "")])
  {
    var pos := m0.pos + 1;
    m := Trace(pos, m0.tags[pos := if isArray then ArrayTag else ObjectTag], m0.keys[pos := ""],
               m0.nodes[pos := if isArray then Array([]) else Object([])]);
  }

  lemma StackMirrors(m: Trace, stack: seq<Frame>)
    requires Tracks(m, stack)
    ensures stack == [] <==> m.pos == -1
    ensures stack != [] ==> Top(stack).key == m.KeyAt(m.pos) && Top(stack).node == m.nodes[m.pos]
    ensures stack != [] ==> (Top(stack).node.Array? <==> m.TagAt(m.pos) == ArrayTag)
    ensures stack != [] ==> (Top(stack).node.Object? <==> m.TagAt(m.pos) == ObjectTag)
    ensures stack == [] ==> m.KeyAt(m.pos) == ""
  {
  }

  /** One turn of the loop, at a character that is no space. */
  method Turn(text: string, start: nat, m0: Trace, separator0: bool, ghost stack0: seq<Frame>)
    returns (finished: bool, result: Outcome, s: nat, m: Trace, separator: bool, ghost stack: seq<Frame>)
    requires start < |text| && Tracks(m0, stack0)
    ensures var o := StepAt(PState(text[start..], stack0, separator0), text[start..]);
      if finished then result == o && !o.Continue?
      else start < s <= |text| && Tracks(m, stack) && o == Continue(PState(text[s..], stack, separator))
  {
    hide ReadScalar, TakeScalar, CloseTop, Tracks, StartsScalar;
    ghost var rest := text[start + 1..];
    StackMirrors(m0, stack0);
    finished, result, s, m, separator, stack := false, Fail(UnexpectedCharacter), start + 1, m0, separator0, stack0;
    var c := text[start];
    assert text[start..][0] == c && text[start..][1..] == rest;
    if StartsScalar(c) {
      var ok, o, status, end := ScanScalar(text, start);
      if !ok {
        return true, Fail(status), s, m, separator, stack;
      }
      s, separator := end, false;
      m, stack, ok, status := TakeValue(m0, o, stack0, text[s..]);
      finished, result := !ok, Fail(status);
    } else if c == ']' || c == '}' {
      finished, result, m, stack := CloseBracket(m0, c == ']', stack0, rest);
      separator := false;
    } else if c == '[' || c == '{' {
      m := OpenNode(m0, c == '[', stack0);
      stack := stack0 + [Frame(if c == '[' then Array([]) else Object([]), "")];
      separator := true;
    } else if c == ':' {
      if separator || m.KeyAt(m.pos) == "" {
        finished := true;
      }
      separator := true;
    } else if c == ',' {
      if separator || m.KeyAt(m.pos) != "" {
        finished := true;
      }
      separator := true;
    } else {
      finished := true;
    }
  }

  /** A closing bracket: an error, the end of the document, or a node for the one below. */
  method CloseBracket(m0: Trace, isArray: bool, ghost stack0: seq<Frame>, ghost rest: string)
    returns (finished: bool, result: Outcome, m: Trace, ghost stack: seq<Frame>)
    requires Tracks(m0, stack0)
    ensures var o :=
        if stack0 == [] then Fail(StackUnderflow)
        else if !(if isArray then Top(stack0).node.Array? else Top(stack0).node.Object?) then Fail(MismatchBracket)
        else if !isArray && Top(stack0).key != "" then Fail(UnexpectedCharacter)
        else CloseTop(stack0, rest);
      if finished then result == o && !o.Continue?
      else Tracks(m, stack) && o == Continue(PState(rest, stack, false))
  {
    StackMirrors(m0, stack0);
    finished, result, m, stack := true, Fail(StackUnderflow), m0, stack0;
    if m0.pos == -1 {
      return;
    }
    if m0.TagAt(m0.pos) != (if isArray then ArrayTag else ObjectTag) {
      result := Fail(MismatchBracket);
    } else if !isArray && m0.KeyAt(m0.pos) != "" {
      result := Fail(UnexpectedCharacter);
    } else if m0.pos > 0 {
      finished := false;
      m, stack := CloseNode(m0, stack0, rest);
    } else {
      result := Done(m0.nodes[0]);
    }
  }

  /** `JsonReader::Parse`: the loop over the text, with its three maps. */
  method Parse(text: string) returns (result: Outcome)
    ensures result == Json.Parse(text)
  {
    hide StepAt, Tracks, SkipSpaces;
    var s := 0;
    var m := Trace(-1, map[], map[], map[]);
    var separator := true;
    ghost var stack: seq<Frame> := [];
    NothingTracked(m);
    assert text[0..] == text;
    while s < |text|
      invariant s <= |text| && Tracks(m, stack)
      invariant Run(PState(text[s..], stack, separator)) == Json.Parse(text)
      decreases |text| - s
    {
      ghost var before := PState(text[s..], stack, separator);
      s := SkipBlanks(text, s);
      if s == |text| {
        return Fail(BreakingBad);
      }
      StepAtOnly(before, PState(text[s..], stack, separator), text[s..]);
      var finished, outcome;
      finished, outcome, s, m, separator, stack := Turn(text, s, m, separator, stack);
      if finished {
        return outcome;
      }
    }
    EmptyText(text, s);
    result := Fail(BreakingBad);
  }

  lemma NothingTracked(m: Trace)
    requires m == Trace(-1, map[], map[], map[])
    ensures Tracks(m, [])
  {
  }

  lemma EmptyText(text: string, s: nat)
    requires s == |text|
    ensures SkipSpaces(text[s..]) == ""
  {
  }

  /** A step depends on the text only through what follows the spaces. */
  lemma StepAtOnly(st: PState, st': PState, s: string)
    requires st'.stack == st.stack && st'.separator == st.separator && s != ""
    ensures StepAt(st, s) == StepAt(st', s)
  {
    hide ReadScalar, TakeScalar, CloseTop;
  }
}
