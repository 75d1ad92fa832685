/** What is printed is read back: the recursive printer against the stack machine. */
module JsonRoundTrip {
  import opened Json

  const MAX_EXACT: int := 0x20_0000_0000_0000

  /** Strings the printer writes so that they can be read back. */
  predicate PlainString(s: string) {
    forall c :: c in s ==> c != '"' && !IsControl(c)
  }

  /** Keys are printed without escapes, and an empty key reads as no key. */
  predicate PlainKey(s: string) {
    s != "" && PlainString(s) && '\\' !in s
  }

  predicate SortedKeys(ms: seq<Member>) {
    forall i, j :: 0 <= i < j < |ms| ==> Less(ms[i].key, ms[j].key)
  }

  predicate Storable(v: Value)
    decreases v
  {
    match v
    case Invalid => false
    case Double(_) => false
    case Null => true
    case Boolean(_) => true
    case Integer(n) => -MAX_EXACT <= n <= MAX_EXACT
    case String(s) => PlainString(s)
    case Array(items) => forall i :: 0 <= i < |items| ==> Storable(items[i])
    case Object(ms) =>
      SortedKeys(ms) && forall i :: 0 <= i < |ms| ==> PlainKey(ms[i].key) && Storable(ms[i].value)
  }

  // ---------------------------------------------------------------- numbers

  lemma {:induction false} DigitsReadBack(n: nat, k: string)
    requires k == "" || !IsDigit(k[0])
    ensures ReadDigits(Decimal(n) + k, 0) == (n, k)
    ensures |Decimal(n)| > 0 && IsDigit(Decimal(n)[0])
  {
    DigitsAppend(n, k);
  }

  /** Reading the decimal digits of n leads to n with whatever follows still to read. */
  lemma {:induction false} DigitsAppend(n: nat, k: string)
    ensures ReadDigits(Decimal(n) + k, 0) == ReadDigits(k, n)
    ensures |Decimal(n)| > 0 && IsDigit(Decimal(n)[0])
  {
    if n < 10 {
      assert (Decimal(n) + k)[1..] == k;
    } else {
      var last := [Digit(n % 10)];
      DigitsAppend(n / 10, last + k);
      assert Decimal(n) + k == Decimal(n / 10) + (last + k);
      assert (last + k)[1..] == k;
    }
  }

  lemma IntegerReadBack(n: int, k: string)
    requires AtDelimiter(k)
    ensures var s := IntegerText(n) + k;
      s != "" && StartsScalar(s[0]) && !IsSpace(s[0]) && ReadScalar(s) == Scalar(Integer(n), k)
  {
    var m: nat := if n < 0 then -n else n;
    DigitsReadBack(m, k);
    var s := IntegerText(n) + k;
    if n < 0 {
      assert s[1..] == Decimal(m) + k;
      assert s[1] == Decimal(m)[0];
    } else {
      assert s == Decimal(m) + k;
    }
  }

  // ---------------------------------------------------------------- strings

  /** A string is read back, whatever follows, exactly when it has no quote and no control character. */
  lemma {:induction false} StringReadBack(s: string, k: string, acc: string)
    ensures ReadString(Escaped(s) + "\"" + k, acc) == Scalar(String(acc + s), k) <==> PlainString(s)
  {
    var text := Escaped(s) + "\"" + k;
    if s == "" {
      assert text[1..] == k && acc + s == acc;
    } else {
      var rest := Escaped(s[1..]) + "\"" + k;
      assert s == [s[0]] + s[1..];
      assert PlainString(s) <==> s[0] != '"' && !IsControl(s[0]) && PlainString(s[1..]);
      StringReadBack(s[1..], k, acc + [s[0]]);
      assert acc + [s[0]] + s[1..] == acc + s;
      if s[0] == '\\' {
        assert text == "\\\\" + rest && text[2..] == rest;
      } else {
        assert text == [s[0]] + rest && text[1..] == rest;
      }
    }
  }

  lemma {:induction false} PlainNotEscaped(s: string)
    requires '\\' !in s
    ensures Escaped(s) == s
  {
    if s != "" {
      PlainNotEscaped(s[1..]);
    }
  }

  lemma QuotedReadBack(s: string, k: string)
    requires PlainString(s) && AtDelimiter(k)
    ensures ReadScalar("\"" + Escaped(s) + "\"" + k) == Scalar(String(s), k)
  {
    var text := "\"" + Escaped(s) + "\"" + k;
    assert text[1..] == Escaped(s) + "\"" + k;
    StringReadBack(s, k, "");
    assert "" + s == s;
  }

  // ---------------------------------------------------------------- spaces

  predicate AllSpaces(w: string) {
    forall c :: c in w ==> IsSpace(c)
  }

  lemma {:induction false} SkipsSpaces(w: string, s: string)
    requires AllSpaces(w)
    ensures SkipSpaces(w + s) == SkipSpaces(s)
  {
    if w != "" {
      assert (w + s)[1..] == w[1..] + s;
      SkipsSpaces(w[1..], s);
    } else {
      assert w + s == s;
    }
  }

  lemma RunSkips(w: string, s: string, stack: seq<Frame>, sep: bool)
    requires AllSpaces(w)
    ensures Run(PState(w + s, stack, sep)) == Run(PState(s, stack, sep))
  {
    SkipsSpaces(w, s);
    assert Step(PState(w + s, stack, sep)) == Step(PState(s, stack, sep)) by { StepDependsOnSkipped(w + s, s, stack, sep); }
  }

  lemma StepDependsOnSkipped(a: string, b: string, stack: seq<Frame>, sep: bool)
    requires SkipSpaces(a) == SkipSpaces(b)
    ensures Step(PState(a, stack, sep)) == Step(PState(b, stack, sep))
  {
  }

  // ---------------------------------------------------------------- scalars

  predicate IsScalar(v: Value) {
    !v.Array? && !v.Object? && !v.Invalid?
  }

  lemma WordReadBack(word: string, v: Value, k: string)
    requires AtDelimiter(k)
    ensures ReadWord(word + k, word, v) == Scalar(v, k)
  {
    assert (word + k)[|word|..] == k;
  }

  lemma ScalarReadBack(v: Value, level: int, k: string, show: real -> string)
    requires IsScalar(v) && Storable(v) && AtDelimiter(k)
    ensures var s := Text(v, level, show) + k;
      s != "" && !IsSpace(s[0]) && StartsScalar(s[0]) && ReadScalar(s) == Scalar(v, k)
  {
    match v
    case String(s) =>
      QuotedReadBack(s, k);
      assert "\"" + Escaped(s) + "\"" + k == Text(v, level, show) + k;
    case Integer(n) => IntegerReadBack(n, k);
    case Boolean(b) => WordReadBack(Text(v, level, show), v, k);
    case Null => WordReadBack("null", v, k);
  }

  /** The stack is ready to take a value. */
  predicate Expecting(stack: seq<Frame>) {
    stack != [] && (Top(stack).node.Array? || (Top(stack).node.Object? && Top(stack).key != ""))
  }

  function Added(stack: seq<Frame>, v: Value): seq<Frame>
    requires stack != []
  {
    WithTop(stack, AddTo(Top(stack), v))
  }

  lemma RunScalar(v: Value, level: int, k: string, stack: seq<Frame>, sep: bool, show: real -> string)
    requires IsScalar(v) && Storable(v) && AtDelimiter(k) && Expecting(stack)
    ensures Run(PState(Text(v, level, show) + k, stack, sep)) == Run(PState(k, Added(stack, v), false))
  {
    hide Text, ReadScalar;
    ScalarReadBack(v, level, k, show);
    var s := Text(v, level, show) + k;
    assert SkipSpaces(s) == s;
    assert Step(PState(s, stack, sep)) == Continue(PState(k, Added(stack, v), false));
  }

  // ---------------------------------------------------------------- one structural character at a time

  /** A character that opens, closes or separates, and what it does to the machine. */
  lemma RunMark(c: char, k: string, stack: seq<Frame>, sep: bool)
    requires c in {'[', '{', ':', ','}
    requires c == ':' ==> !sep && stack != [] && Top(stack).key != ""
    requires c == ',' ==> !sep && (stack == [] || Top(stack).key == "")
    ensures Run(PState([c] + k, stack, sep)) ==
      match c
      case '[' => Run(PState(k, stack + [Frame(Array([]), "")], true))
      case '{' => Run(PState(k, stack + [Frame(Object([]), "")], true))
      case _ => Run(PState(k, stack, true))
  {
    var s := [c] + k;
    assert SkipSpaces(s) == s && s[1..] == k;
  }

  lemma RunClose(v: Value, k: string, stack: seq<Frame>, sep: bool)
    requires v.Array? || v.Object?
    ensures var open := stack + [Frame(v, "")];
      Run(PState((if v.Array? then "]" else "}") + k, open, sep)) ==
      if stack == [] then Done(v) else Run(PState(k, Added(stack, v), false))
  {
    var s := (if v.Array? then "]" else "}") + k;
    var open := stack + [Frame(v, "")];
    assert SkipSpaces(s) == s && s[1..] == k;
    assert Top(open) == Frame(v, "") && open[..|open| - 1] == stack;
  }

  // ---------------------------------------------------------------- trees

  lemma IndentIsSpace(level: int)
    ensures AllSpaces(Indent(level)) && AllSpaces(NewLine(level))
  {
  }

  /** A value followed by a delimiter, read where a value is expected. */
  lemma {:induction false} RunValue(v: Value, level: int, k: string, stack: seq<Frame>, sep: bool, show: real -> string)
    requires Storable(v) && AtDelimiter(k) && Expecting(stack)
    ensures Run(PState(Text(v, level, show) + k, stack, sep)) == Run(PState(k, Added(stack, v), false))
    decreases v, 2
  {
    if IsScalar(v) {
      RunScalar(v, level, k, stack, sep, show);
    } else {
      RunTree(v, level, k, stack, sep, show);
      RunClose(v, k, stack, Empty(v));
    }
  }

  predicate Empty(v: Value) {
    (v.Array? && v.items == []) || (v.Object? && v.members == [])
  }

  function Closing(v: Value): string {
    if v.Array? then "]" else "}"
  }

  /** What stands between the last element and the closing bracket, and that bracket. */
  function Tail(v: Value, level: int, k: string): string {
    NewLine(level) + Indent(level) + (Closing(v) + k)
  }

  lemma TailIsDelimiter(v: Value, level: int, k: string)
    ensures AtDelimiter(Tail(v, level, k))
  {
    IndentIsSpace(level);
  }

  lemma RunTail(v: Value, level: int, k: string, stack: seq<Frame>, sep: bool)
    ensures Run(PState(Tail(v, level, k), stack, sep)) == Run(PState(Closing(v) + k, stack, sep))
  {
    hide Run;
    IndentIsSpace(level);
    RunSkips(NewLine(level) + Indent(level), Closing(v) + k, stack, sep);
  }

  /** From the opening bracket to the first element. */
  lemma OpeningText(c: char, nl: string, body: string, indent: string, close: string, k: string)
    ensures [c] + nl + body + nl + indent + close + k == [c] + (nl + (body + (nl + indent + (close + k))))
  {
    var front := [c] + nl + body;
    Associates(front + nl + indent, close, k);
    Associates(front, nl, indent);
    Associates(front, nl + indent, close + k);
    Associates([c] + nl, body, nl + indent + (close + k));
    Associates([c], nl, body + (nl + indent + (close + k)));
  }

  lemma RunOpening(v: Value, level: int, k: string, stack: seq<Frame>, sep: bool, show: real -> string)
    requires v.Array? || v.Object?
    ensures var body := if v.Array? then ItemsText(v.items, level, show) else MembersText(v.members, level, show);
      Run(PState(Text(v, level, show) + k, stack, sep)) ==
      Run(PState(body + Tail(v, level, k),
                 stack + [Frame(if v.Array? then Array([]) else Object([]), "")], true))
  {
    hide Run, ItemsText, MembersText, NewLine, Indent;
    IndentIsSpace(level);
    var body := if v.Array? then ItemsText(v.items, level, show) else MembersText(v.members, level, show);
    var c := if v.Array? then '[' else '{';
    OpeningText(c, NewLine(level), body, Indent(level), Closing(v), k);
    RunMark(c, NewLine(level) + (body + Tail(v, level, k)), stack, sep);
    RunSkips(NewLine(level), body + Tail(v, level, k), stack + [Frame(if v.Array? then Array([]) else Object([]), "")], true);
  }

  /** A container, up to its closing bracket. */
  lemma {:induction false} RunTree(v: Value, level: int, k: string, stack: seq<Frame>, sep: bool, show: real -> string)
    requires Storable(v) && (v.Array? || v.Object?)
    ensures Run(PState(Text(v, level, show) + k, stack, sep)) ==
            Run(PState(Closing(v) + k, stack + [Frame(v, "")], Empty(v)))
    decreases v, 1
  {
    hide Run, Text, ItemsText, MembersText, AtDelimiter, Tail;
    var tail := Tail(v, level, k);
    TailIsDelimiter(v, level, k);
    RunOpening(v, level, k, stack, sep, show);
    if v.Array? {
      RunItems(v.items, [], level, tail, stack, true, show);
      assert [] + v.items == v.items;
    } else {
      assert [] + v.members == v.members;
      RunMembers(v.members, [], level, tail, stack, true, show);
    }
    RunTail(v, level, k, stack + [Frame(v, "")], Empty(v));
  }

  /** The separator between two elements. */
  lemma RunComma(level: int, rest: string, stack: seq<Frame>)
    requires stack != [] && Top(stack).key == ""
    ensures Run(PState("," + (NewLine(level) + rest), stack, false)) == Run(PState(rest, stack, true))
  {
    hide Run;
    IndentIsSpace(level);
    RunMark(',', NewLine(level) + rest, stack, false);
    RunSkips(NewLine(level), rest, stack, true);
  }

  lemma ItemsTextSplit(items: seq<Value>, level: int, tail: string, show: real -> string)
    requires items != []
    ensures ItemsText(items, level, show) + tail ==
      Indent(level) + (Text(items[0], NextLevel(level), show) +
        if |items| == 1 then tail else "," + (NewLine(level) + (ItemsText(items[1..], level, show) + tail)))
  {
    hide *;
    var first, nl := Text(items[0], NextLevel(level), show), NewLine(level);
    if |items| == 1 {
      ItemsTextOne(items, level, show);
      Regroup(Indent(level), first, "", tail);
    } else {
      var body := ItemsText(items[1..], level, show);
      ItemsTextMore(items, level, show);
      Regroup(Indent(level), first, "," + (nl + body), tail);
      Associates(",", nl + body, tail);
      Associates(nl, body, tail);
    }
  }

  lemma ItemsTextOne(items: seq<Value>, level: int, show: real -> string)
    requires |items| == 1
    ensures ItemsText(items, level, show) == Indent(level) + (Text(items[0], NextLevel(level), show) + "")
  {
    hide Text, NewLine, Indent;
  }

  lemma ItemsTextMore(items: seq<Value>, level: int, show: real -> string)
    requires |items| > 1
    ensures ItemsText(items, level, show) == Indent(level) + (Text(items[0], NextLevel(level), show) +
      ("," + (NewLine(level) + ItemsText(items[1..], level, show))))
  {
    hide Text, NewLine, Indent;
  }

  lemma Associates(a: string, b: string, c: string)
    ensures (a + b) + c == a + (b + c)
  {
  }

  lemma Regroup(a: string, b: string, c: string, d: string)
    ensures a + (b + c) + d == a + (b + (c + d))
    ensures c == "" ==> c + d == d
  {
    Associates(a, b + c, d);
    Associates(b, c, d);
  }

  lemma OneMore<T>(done: seq<T>, items: seq<T>)
    requires items != []
    ensures done + [items[0]] + items[1..] == done + items
    ensures |items| == 1 ==> done + [items[0]] == done + items
  {
  }

  lemma ItemAdded(stack: seq<Frame>, done: seq<Value>, v: Value)
    ensures Added(stack + [Frame(Array(done), "")], v) == stack + [Frame(Array(done + [v]), "")]
  {
  }

  lemma {:induction false} RunItems(items: seq<Value>, done: seq<Value>, level: int, tail: string,
                                    stack: seq<Frame>, sep: bool, show: real -> string)
    requires (forall i :: 0 <= i < |items| ==> Storable(items[i])) && AtDelimiter(tail)
    ensures Run(PState(ItemsText(items, level, show) + tail, stack + [Frame(Array(done), "")], sep)) ==
            Run(PState(tail, stack + [Frame(Array(done + items), "")], sep && items == []))
    decreases items, 0
  {
    hide Run, Text, NewLine, Indent, Storable, Added;
    var open := stack + [Frame(Array(done), "")];
    if items == [] {
      assert ItemsText(items, level, show) + tail == tail && done + items == done;
    } else {
      var v, rest := items[0], ItemsText(items[1..], level, show) + tail;
      var more := if |items| == 1 then tail else "," + (NewLine(level) + rest);
      ItemsTextSplit(items, level, tail, show);
      IndentIsSpace(level);
      RunSkips(Indent(level), Text(v, NextLevel(level), show) + more, open, sep);
      RunValue(v, NextLevel(level), more, open, sep, show);
      var open1 := stack + [Frame(Array(done + [v]), "")];
      ItemAdded(stack, done, v);
      OneMore(done, items);
      if |items| > 1 {
        RunComma(level, rest, open1);
        RunItems(items[1..], done + [v], level, tail, stack, true, show);
      }
    }
  }

  lemma MembersTextSplit(ms: seq<Member>, level: int, tail: string, show: real -> string)
    requires ms != []
    ensures MembersText(ms, level, show) + tail ==
      Indent(level) + ("\"" + ms[0].key + "\"" + ([':'] + (Text(ms[0].value, NextLevel(level), show) +
        if |ms| == 1 then tail else "," + (NewLine(level) + (MembersText(ms[1..], level, show) + tail)))))
  {
    hide *;
    var key, first, nl := ms[0].key, Text(ms[0].value, NextLevel(level), show), NewLine(level);
    if |ms| == 1 {
      MembersTextOne(ms, level, show);
      RegroupMember(Indent(level), key, first, "", tail);
    } else {
      var body := MembersText(ms[1..], level, show);
      MembersTextMore(ms, level, show);
      RegroupMember(Indent(level), key, first, "," + (nl + body), tail);
      Associates(",", nl + body, tail);
      Associates(nl, body, tail);
    }
  }

  lemma MembersTextOne(ms: seq<Member>, level: int, show: real -> string)
    requires |ms| == 1
    ensures MembersText(ms, level, show) ==
      Indent(level) + ("\"" + ms[0].key + "\":" + (Text(ms[0].value, NextLevel(level), show) + ""))
  {
    hide Text, NewLine, Indent;
  }

  lemma MembersTextMore(ms: seq<Member>, level: int, show: real -> string)
    requires |ms| > 1
    ensures MembersText(ms, level, show) ==
      Indent(level) + ("\"" + ms[0].key + "\":" + (Text(ms[0].value, NextLevel(level), show) +
        ("," + (NewLine(level) + MembersText(ms[1..], level, show)))))
  {
    hide Text, NewLine, Indent;
  }

  lemma RegroupMember(a: string, key: string, b: string, c: string, d: string)
    ensures a + ("\"" + key + "\":" + (b + c)) + d == a + ("\"" + key + "\"" + ([':'] + (b + (c + d))))
    ensures c == "" ==> c + d == d
  {
    var mark, rest := "\"" + key + "\":", b + (c + d);
    Associates(a, mark + (b + c), d);
    Associates(mark, b + c, d);
    Associates(b, c, d);
    assert "\":" == "\"" + [':'];
    Associates("\"" + key, "\"", [':']);
    Associates("\"" + key + "\"", [':'], rest);
  }

  /** One member: its key, the colon and its value. */
  lemma {:induction false} RunMember(m: Member, done: seq<Member>, level: int, more: string,
                                     stack: seq<Frame>, sep: bool, show: real -> string)
    requires PlainKey(m.key) && Storable(m.value) && AtDelimiter(more)
    ensures Run(PState(Indent(level) + ("\"" + m.key + "\"" + ([':'] + (Text(m.value, NextLevel(level), show) + more))),
                       stack + [Frame(Object(done), "")], sep)) ==
            Run(PState(more, stack + [Frame(Object(AddMember(done, m.key, m.value)), "")], false))
    decreases m, 0
  {
    hide Run, Text, AddMember, Storable, NewLine, Indent;
    var open := stack + [Frame(Object(done), "")];
    var keyed := stack + [Frame(Object(done), m.key)];
    var text := Text(m.value, NextLevel(level), show) + more;
    IndentIsSpace(level);
    RunSkips(Indent(level), "\"" + m.key + "\"" + ([':'] + text), open, sep);
    RunKey(m.key, [':'] + text, open, sep);
    assert WithTop(open, Top(open).(key := m.key)) == keyed;
    RunMark(':', text, keyed, false);
    RunValue(m.value, NextLevel(level), more, keyed, true, show);
    assert Added(keyed, m.value) == stack + [Frame(Object(AddMember(done, m.key, m.value)), "")];
  }

  lemma {:induction false} RunMembers(ms: seq<Member>, done: seq<Member>, level: int, tail: string,
                                      stack: seq<Frame>, sep: bool, show: real -> string)
    requires (forall i :: 0 <= i < |ms| ==> PlainKey(ms[i].key) && Storable(ms[i].value)) && AtDelimiter(tail)
    requires SortedKeys(done + ms)
    ensures Run(PState(MembersText(ms, level, show) + tail, stack + [Frame(Object(done), "")], sep)) ==
            Run(PState(tail, stack + [Frame(Object(done + ms), "")], sep && ms == []))
    decreases ms, 0
  {
    hide Run, Text, NewLine, Indent, AddMember, Storable, PlainKey, SortedKeys;
    var open := stack + [Frame(Object(done), "")];
    if ms == [] {
      assert MembersText(ms, level, show) + tail == tail && done + ms == done;
    } else {
      var rest := MembersText(ms[1..], level, show) + tail;
      var more := if |ms| == 1 then tail else "," + (NewLine(level) + rest);
      MembersTextSplit(ms, level, tail, show);
      RunMember(ms[0], done, level, more, stack, sep, show);
      AddMemberLast(done, ms);
      var open1 := stack + [Frame(Object(done + [ms[0]]), "")];
      OneMore(done, ms);
      if |ms| > 1 {
        RunComma(level, rest, open1);
        RunMembers(ms[1..], done + [ms[0]], level, tail, stack, true, show);
      }
    }
  }

  lemma RunKey(key: string, k: string, stack: seq<Frame>, sep: bool)
    requires PlainKey(key) && k != "" && k[0] == ':'
    requires stack != [] && Top(stack).node.Object? && Top(stack).key == ""
    ensures Run(PState("\"" + key + "\"" + k, stack, sep)) ==
            Run(PState(k, WithTop(stack, Top(stack).(key := key)), false))
  {
    hide ReadScalar;
    PlainNotEscaped(key);
    QuotedReadBack(key, k);
    var s := "\"" + key + "\"" + k;
    assert s == "\"" + Escaped(key) + "\"" + k;
    assert SkipSpaces(s) == s;
    assert Step(PState(s, stack, sep)) == Continue(PState(k, WithTop(stack, Top(stack).(key := key)), false));
  }

  lemma {:induction false} AddMemberLast(done: seq<Member>, ms: seq<Member>)
    requires SortedKeys(done + ms) && ms != []
    ensures AddMember(done, ms[0].key, ms[0].value) == done + [ms[0]]
  {
    if done != [] {
      assert (done + ms)[0] == done[0] && (done + ms)[|done|] == ms[0];
      LessIsStrict(done[0].key, ms[0].key);
      assert forall i :: 0 <= i < |done[1..] + ms| ==> (done[1..] + ms)[i] == (done + ms)[i + 1];
      AddMemberLast(done[1..], ms);
      assert done + [ms[0]] == [done[0]] + (done[1..] + [ms[0]]);
    }
  }

  lemma {:induction false} LessIsStrict(a: string, b: string)
    requires Less(a, b)
    ensures a != b && !Less(b, a)
  {
    if a != "" && a[0] == b[0] {
      LessIsStrict(a[1..], b[1..]);
    }
  }

  /** Printing an array or an object, at any indentation, and parsing the text gives the same tree. */
  lemma ParsePrinted(v: Value, level: int, show: real -> string)
    requires Storable(v) && (v.Array? || v.Object?)
    ensures Parse(Text(v, level, show)) == Done(v)
  {
    hide Run;
    assert Text(v, level, show) + "" == Text(v, level, show);
    RunTree(v, level, "", [], true, show);
    RunClose(v, "", [], Empty(v));
  }
}
