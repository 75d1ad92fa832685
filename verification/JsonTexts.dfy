/** The texts of RFC 8259, with all the freedom its grammar gives: each of them is read as what it means. */
module JsonTexts {
  import opened Json
  import opened JsonRoundTrip

  // ---------------------------------------------------------------- strings

  /** The two-character escapes of section 7. */
  datatype Mark = Quote | Backslash | Slash | Backspace | FormFeed | LineFeed | CarriageReturn | Tab

  function Letter(m: Mark): char {
    match m
    case Quote => '"'
    case Backslash => '\\'
    case Slash => '/'
    case Backspace => 'b'
    case FormFeed => 'f'
    case LineFeed => 'n'
    case CarriageReturn => 'r'
    case Tab => 't'
  }

  function Character(m: Mark): char {
    match m
    case Quote => 0x22 as char
    case Backslash => 0x5c as char
    case Slash => 0x2f as char
    case Backspace => 0x08 as char
    case FormFeed => 0x0c as char
    case LineFeed => 0x0a as char
    case CarriageReturn => 0x0d as char
    case Tab => 0x09 as char
  }

  /** One character as it is written: as it is, by an escape, or by four hexadecimal digits. */
  datatype Piece = Raw(c: char) | Escaping(mark: Mark) | Hexadecimal(digits: seq<nat>, upper: bool)

  predicate GoodPiece(p: Piece) {
    match p
    case Raw(c) => c as int >= 0x20 && c as int != 0x22 && c as int != 0x5c
    case Escaping(_) => true
    case Hexadecimal(digits, _) => |digits| == 4 && forall i :: 0 <= i < 4 ==> digits[i] < 16
  }

  const DELETE := Raw(0x7f as char)

  function HexDigit(d: nat, upper: bool): char
    requires d < 16
  {
    if upper then "0123456789ABCDEF"[d] else "0123456789abcdef"[d]
  }

  function PieceText(p: Piece): string
    requires GoodPiece(p)
  {
    match p
    case Raw(c) => [c]
    case Escaping(m) => ['\\', Letter(m)]
    case Hexadecimal(d, up) => ['\\', 'u', HexDigit(d[0], up), HexDigit(d[1], up), HexDigit(d[2], up), HexDigit(d[3], up)]
  }

  /** What a piece stands for: a character, or the UTF-8 bytes of a code. */
  function PieceMeaning(p: Piece): string
    requires GoodPiece(p)
  {
    match p
    case Raw(c) => [c]
    case Escaping(m) => [Character(m)]
    case Hexadecimal(d, _) => Utf8(4096 * d[0] + 256 * d[1] + 16 * d[2] + d[3])
  }

  /** The code that one to three bytes encode, by the table of section 3 of RFC 3629. */
  function Decoded(bytes: string): int {
    if |bytes| == 1 then bytes[0] as int
    else if |bytes| == 2 then (bytes[0] as int - 0xc0) * 64 + (bytes[1] as int - 0x80)
    else if |bytes| == 3 then (bytes[0] as int - 0xe0) * 4096 + (bytes[1] as int - 0x80) * 64 + (bytes[2] as int - 0x80)
    else -1
  }

  /** The bytes of a code are its shortest encoding. */
  lemma BytesDecode(code: nat)
    requires code < 0x10000
    ensures var b := Utf8(code);
      Decoded(b) == code && |b| == (if code < 0x80 then 1 else if code < 0x800 then 2 else 3) &&
      (|b| == 2 ==> 0xc0 <= b[0] as int < 0xe0) && (|b| == 3 ==> 0xe0 <= b[0] as int < 0xf0) &&
      forall i :: 1 <= i < |b| ==> 0x80 <= b[i] as int < 0xc0
  {
  }

  predicate GoodPieces(ps: seq<Piece>) {
    forall p :: p in ps ==> GoodPiece(p)
  }

  function PiecesText(ps: seq<Piece>): string
    requires GoodPieces(ps)
  {
    if ps == [] then "" else PieceText(ps[0]) + PiecesText(ps[1..])
  }

  function PiecesMeaning(ps: seq<Piece>): string
    requires GoodPieces(ps)
  {
    if ps == [] then "" else PieceMeaning(ps[0]) + PiecesMeaning(ps[1..])
  }

  lemma HexDigitRead(d: nat, upper: bool)
    requires d < 16
    ensures IsHex(HexDigit(d, upper)) && HexValue(HexDigit(d, upper)) == d
  {
  }

  lemma HexRead(p: Piece, rest: string)
    requires p.Hexadecimal? && GoodPiece(p)
    ensures var s := PieceText(p) + rest;
      AllHex(s[2..6]) && Utf8(Code(s[2..6])) == PieceMeaning(p) && s[6..] == rest && s[0] == '\\' && s[1] == 'u'
  {
    hide HexDigit, HexValue, Utf8;
    HexDigitRead(p.digits[0], p.upper);
    HexDigitRead(p.digits[1], p.upper);
    HexDigitRead(p.digits[2], p.upper);
    HexDigitRead(p.digits[3], p.upper);
  }

  lemma EscapeRead(m: Mark)
    ensures Letter(m) != 'u' && Escape(Letter(m)) == [Character(m)]
  {
  }

  lemma PieceRead(p: Piece, rest: string, acc: string)
    requires GoodPiece(p)
    ensures ReadString(PieceText(p) + rest, acc) ==
      if p == DELETE then NoScalar(BadString) else ReadString(rest, acc + PieceMeaning(p))
  {
    hide AllHex, Code, Utf8, Escape, Letter, Character;
    var s := PieceText(p) + rest;
    match p
    case Raw(c) => assert s[1..] == rest;
    case Escaping(m) =>
      EscapeRead(m);
      assert s[2..] == rest;
    case Hexadecimal(_, _) => HexRead(p, rest);
  }

  lemma {:induction false} PiecesRead(ps: seq<Piece>, k: string, acc: string)
    requires GoodPieces(ps)
    ensures ReadString(PiecesText(ps) + ("\"" + k), acc) ==
      if DELETE in ps then NoScalar(BadString) else Scalar(String(acc + PiecesMeaning(ps)), k)
  {
    hide PieceText, PieceMeaning;
    if ps == [] {
      assert PiecesText(ps) + ("\"" + k) == "\"" + k && ("\"" + k)[1..] == k && acc + "" == acc;
    } else {
      var rest := PiecesText(ps[1..]) + ("\"" + k);
      Associates(PieceText(ps[0]), PiecesText(ps[1..]), "\"" + k);
      PieceRead(ps[0], rest, acc);
      PiecesRead(ps[1..], k, acc + PieceMeaning(ps[0]));
      Associates(acc, PieceMeaning(ps[0]), PiecesMeaning(ps[1..]));
    }
  }

  // ---------------------------------------------------------------- numbers

  predicate GoodDigits(ds: seq<nat>) {
    forall i :: 0 <= i < |ds| ==> ds[i] < 10
  }

  function DigitsText(ds: seq<nat>): string
    requires GoodDigits(ds)
  {
    if ds == [] then "" else [Digit(ds[0])] + DigitsText(ds[1..])
  }

  /** The value of digits after the point. */
  function Fraction(ds: seq<nat>): real {
    if ds == [] then 0.0 else (ds[0] as real + Fraction(ds[1..])) / 10.0
  }

  function TenTo(e: nat): (t: real)
    ensures t > 0.0
  {
    if e == 0 then 1.0 else 10.0 * TenTo(e - 1)
  }

  datatype Exponent = NoExponent | Exponent(mark: char, sign: string, zeros: nat, e: nat)

  predicate GoodExponent(x: Exponent) {
    x.Exponent? ==> x.mark in {'e', 'E'} && x.sign in {"", "+", "-"}
  }

  /** A decimal number with zeros before it. */
  function PaddedDecimal(zeros: nat, n: nat): string {
    if zeros == 0 then Decimal(n) else "0" + PaddedDecimal(zeros - 1, n)
  }

  lemma {:induction false} PaddedRead(zeros: nat, n: nat, k: string)
    requires k == "" || !IsDigit(k[0])
    ensures ReadDigits(PaddedDecimal(zeros, n) + k, 0) == (n, k)
    ensures PaddedDecimal(zeros, n) != "" && IsDigit(PaddedDecimal(zeros, n)[0])
  {
    if zeros == 0 {
      DigitsReadBack(n, k);
    } else {
      PaddedRead(zeros - 1, n, k);
      Associates("0", PaddedDecimal(zeros - 1, n), k);
    }
  }

  function ExponentText(x: Exponent): string {
    match x
    case NoExponent => ""
    case Exponent(mark, sign, zeros, e) => [mark] + (sign + PaddedDecimal(zeros, e))
  }

  function Factor(x: Exponent): real {
    match x
    case NoExponent => 1.0
    case Exponent(_, sign, _, e) => if sign == "-" then 1.0 / TenTo(e) else TenTo(e)
  }

  lemma {:induction false} PowerOfTen(e: nat)
    ensures Power(10.0, e) == TenTo(e)
  {
    if e > 0 { PowerOfTen(e - 1); }
  }

  lemma {:induction false} PowerOfTenth(e: nat)
    ensures Power(0.1, e) == 1.0 / TenTo(e)
  {
    if e > 0 {
      PowerOfTenth(e - 1);
      TenthOf(TenTo(e - 1));
    }
  }

  lemma TenthOf(x: real)
    requires x > 0.0
    ensures 10.0 * x > 0.0 && 0.1 * (1.0 / x) == 1.0 / (10.0 * x)
  {
    var y := 1.0 / x;
    assert y * x == 1.0;
    assert (0.1 * y) * (10.0 * x) == y * x;
  }

  function Plus(acc: real, unit: real, x: real): real {
    acc + unit * x
  }

  lemma FractionStep(acc: real, unit: real, d: nat, rest: real)
    requires d < 10
    ensures IsDigit(Digit(d))
    ensures Plus(AddDigit(acc, Digit(d), unit * 0.1), unit * 0.1, rest) == Plus(acc, unit, (d as real + rest) / 10.0)
  {
    assert (d as real + rest) / 10.0 == 0.1 * d as real + 0.1 * rest;
    assert unit * (0.1 * d as real + 0.1 * rest) == unit * (0.1 * d as real) + unit * (0.1 * rest);
    assert unit * (0.1 * d as real) == d as real * (unit * 0.1);
    assert unit * (0.1 * rest) == (unit * 0.1) * rest;
  }

  lemma PlusNothing(acc: real, unit: real)
    ensures Plus(acc, unit, 0.0) == acc && Plus(acc, 1.0, unit) == acc + unit
  {
  }

  lemma {:induction false} FractionRead(ds: seq<nat>, k: string, acc: real, unit: real)
    requires GoodDigits(ds) && (k == "" || !IsDigit(k[0]))
    ensures ReadFraction(DigitsText(ds) + k, acc, unit) == (Plus(acc, unit, Fraction(ds)), k)
  {
    hide AddDigit, Plus;
    if ds == [] {
      assert DigitsText(ds) + k == k;
      PlusNothing(acc, unit);
    } else {
      var s, rest := DigitsText(ds) + k, DigitsText(ds[1..]) + k;
      Associates([Digit(ds[0])], DigitsText(ds[1..]), k);
      assert s == [Digit(ds[0])] + rest && s[1..] == rest;
      FractionStep(acc, unit, ds[0], Fraction(ds[1..]));
      var unit', acc' := unit * 0.1, AddDigit(acc, s[0], unit * 0.1);
      FractionRead(ds[1..], k, acc', unit');
      assert ReadFraction(s, acc, unit) == ReadFraction(rest, acc', unit');
    }
  }

  lemma ExponentRead(x: Exponent, k: string)
    requires x.Exponent? && GoodExponent(x) && (k == "" || !IsDigit(k[0]))
    ensures ReadExponent((x.sign + PaddedDecimal(x.zeros, x.e)) + k) == (Factor(x), k)
  {
    hide PaddedDecimal, ReadDigits, Power, TenTo;
    PaddedRead(x.zeros, x.e, k);
    PowerOfTen(x.e);
    PowerOfTenth(x.e);
    var s := (x.sign + PaddedDecimal(x.zeros, x.e)) + k;
    if x.sign == "" {
      assert s == PaddedDecimal(x.zeros, x.e) + k && s[0] == PaddedDecimal(x.zeros, x.e)[0];
    } else {
      Associates(x.sign, PaddedDecimal(x.zeros, x.e), k);
      assert s[1..] == PaddedDecimal(x.zeros, x.e) + k && s[0] == x.sign[0];
    }
  }

  // ---------------------------------------------------------------- documents

  /** White space of section 2. */
  predicate White(w: string) {
    forall c :: c in w ==> c as int in {0x20, 0x09, 0x0a, 0x0d}
  }

  lemma WhiteIsSkipped(w: string)
    requires White(w)
    ensures AllSpaces(w)
  {
  }

  /** A document as it is written, with its white space. */
  datatype Doc =
    | Nothing
    | Truth(b: bool)
    | Whole(n: int)
    | MinusZero
    | Decimals(negative: bool, whole: nat, fraction: seq<nat>, exponent: Exponent)
    | Text(pieces: seq<Piece>)
    | List(items: seq<Item>, blank: string)
    | Record(fields: seq<Field>, blank: string)

  datatype Item = Item(before: string, doc: Doc, after: string)

  datatype Field = Field(ahead: string, key: seq<Piece>, gap: string, item: Item)

  predicate Good(doc: Doc)
    decreases doc
  {
    match doc
    case Nothing => true
    case Truth(_) => true
    case Whole(_) => true
    case MinusZero => true
    case Decimals(_, _, fraction, exponent) =>
      GoodDigits(fraction) && GoodExponent(exponent) && (fraction != [] || exponent.Exponent?)
    case Text(pieces) => GoodPieces(pieces)
    case List(items, blank) => White(blank) && forall i :: 0 <= i < |items| ==> GoodItem(items[i])
    case Record(fields, blank) => White(blank) && forall i :: 0 <= i < |fields| ==> GoodField(fields[i])
  }

  predicate GoodItem(item: Item)
    decreases item
  {
    White(item.before) && White(item.after) && Good(item.doc)
  }

  predicate GoodField(f: Field)
    decreases f
  {
    White(f.ahead) && White(f.gap) && GoodPieces(f.key) && GoodItem(f.item)
  }

  /** No key is empty, and the character DEL does not stand unescaped in a string. */
  predicate Readable(doc: Doc)
    requires Good(doc)
    decreases doc
  {
    match doc
    case Text(pieces) => DELETE !in pieces
    case List(items, _) => forall i :: 0 <= i < |items| ==> ReadableItem(items[i])
    case Record(fields, _) => forall i :: 0 <= i < |fields| ==> ReadableField(fields[i])
    case _ => true
  }

  predicate ReadableItem(item: Item)
    requires GoodItem(item)
    decreases item
  {
    Readable(item.doc)
  }

  predicate ReadableField(f: Field)
    requires GoodField(f)
    decreases f
  {
    DELETE !in f.key && f.key != [] && ReadableItem(f.item)
  }

  function DocText(doc: Doc): string
    requires Good(doc)
    decreases doc, 1
  {
    match doc
    case Nothing => "null"
    case Truth(b) => if b then "true" else "false"
    case Whole(n) => IntegerText(n)
    case MinusZero => "-0"
    case Decimals(negative, whole, fraction, exponent) =>
      (if negative then "-" else "") +
      (Decimal(whole) + ((if fraction == [] then "" else "." + DigitsText(fraction)) + ExponentText(exponent)))
    case Text(pieces) => "\"" + (PiecesText(pieces) + "\"")
    case List(items, blank) => "[" + (ListText(items) + (blank + "]"))
    case Record(fields, blank) => "{" + (FieldsText(fields) + (blank + "}"))
  }

  function ItemText(item: Item): string
    requires GoodItem(item)
    decreases item, 2
  {
    item.before + (DocText(item.doc) + item.after)
  }

  function ListText(items: seq<Item>): string
    requires forall i :: 0 <= i < |items| ==> GoodItem(items[i])
    decreases items, 0
  {
    if items == [] then ""
    else ItemText(items[0]) + if |items| == 1 then "" else "," + ListText(items[1..])
  }

  function FieldText(f: Field): string
    requires GoodField(f)
    decreases f, 3
  {
    f.ahead + ("\"" + (PiecesText(f.key) + ("\"" + (f.gap + (":" + ItemText(f.item))))))
  }

  function FieldsText(fields: seq<Field>): string
    requires forall i :: 0 <= i < |fields| ==> GoodField(fields[i])
    decreases fields, 0
  {
    if fields == [] then ""
    else FieldText(fields[0]) + if |fields| == 1 then "" else "," + FieldsText(fields[1..])
  }

  /** What a document means: numbers with a point or an exponent are doubles, and the last of equal keys counts. */
  function Meaning(doc: Doc): Value
    requires Good(doc)
    decreases doc, 1
  {
    match doc
    case Nothing => Null
    case Truth(b) => Boolean(b)
    case Whole(n) => Integer(n)
    case MinusZero => Integer(0)
    case Decimals(negative, whole, fraction, exponent) =>
      var size := (whole as real + Fraction(fraction)) * Factor(exponent);
      Double(if negative then -size else size)
    case Text(pieces) => String(PiecesMeaning(pieces))
    case List(items, _) => Array(Meanings(items))
    case Record(fields, _) => Object(Gathered([], fields))
  }

  function ItemMeaning(item: Item): Value
    requires GoodItem(item)
    decreases item, 2
  {
    Meaning(item.doc)
  }

  function Meanings(items: seq<Item>): seq<Value>
    requires forall i :: 0 <= i < |items| ==> GoodItem(items[i])
    decreases items, 0
  {
    if items == [] then [] else [ItemMeaning(items[0])] + Meanings(items[1..])
  }

  function FieldMeaning(f: Field): Value
    requires GoodField(f)
    decreases f, 3
  {
    ItemMeaning(f.item)
  }

  function FieldName(f: Field): string
    requires GoodField(f)
  {
    PiecesMeaning(f.key)
  }

  function Gathered(ms: seq<Member>, fields: seq<Field>): seq<Member>
    requires forall i :: 0 <= i < |fields| ==> GoodField(fields[i])
    decreases fields, 0
  {
    if fields == [] then ms
    else Gathered(AddMember(ms, FieldName(fields[0]), FieldMeaning(fields[0])), fields[1..])
  }

  // ---------------------------------------------------------------- reading a document

  /** How reading goes on: as `next`, or to a failure. */
  predicate Leads(o: Outcome, ok: bool, next: Outcome) {
    if ok then o == next else o.Fail?
  }

  predicate IsLeaf(doc: Doc) {
    !doc.List? && !doc.Record?
  }

  lemma DecimalsRead(doc: Doc, k: string)
    requires doc.Decimals? && Good(doc) && AtDelimiter(k)
    ensures var s := DocText(doc) + k;
      s != "" && (s[0] == '-' || IsDigit(s[0])) && (s[0] == '-' ==> |s| > 1 && IsDigit(s[1])) &&
      ReadNumber(s) == (Meaning(doc), k)
  {
    hide Decimal, ReadDigits, ReadFraction, ReadExponent, Factor, Fraction, ExponentText, DigitsText, ReadNumber, Meaning, Scaled;
    var point := if doc.fraction == [] then "" else "." + DigitsText(doc.fraction);
    var tail := ExponentText(doc.exponent) + k;
    var unsigned := Decimal(doc.whole) + (point + tail);
    TailOfNumber(doc.exponent, k);
    DigitsReadBack(doc.whole, point + tail);
    assert DocText(doc) + k == (if doc.negative then "-" else "") + unsigned by {
      Associates(point, ExponentText(doc.exponent), k);
      Associates(Decimal(doc.whole), point + ExponentText(doc.exponent), k);
      Associates(if doc.negative then "-" else "", Decimal(doc.whole) + (point + ExponentText(doc.exponent)), k);
    }
    var s := DocText(doc) + k;
    assert s == unsigned || (s[0] == '-' && s[1..] == unsigned);
    assert unsigned[0] == Decimal(doc.whole)[0];
    AfterPoint(doc, tail);
    AfterExponent(doc, k);
    ScaledTwice(doc);
    assert (if s[0] == '-' then s[1..] else s) == unsigned && (s[0] == '-' <==> doc.negative);
    NumberParts(s, unsigned, doc.whole, point + tail, doc.whole as real + Fraction(doc.fraction), tail, Factor(doc.exponent), k);
  }

  /** A number from its parts: after the digits, after the fraction, after the exponent. */
  lemma NumberParts(s: string, unsigned: string, whole: nat, s1: string, mantissa: real, s2: string, factor: real, s3: string)
    requires s != "" && unsigned == (if s[0] == '-' then s[1..] else s) && ReadDigits(unsigned, 0) == (whole, s1)
    requires if s1 != "" && s1[0] == '.' then ReadFraction(s1[1..], whole as real, 1.0) == (mantissa, s2)
      else mantissa == whole as real && s2 == s1
    requires if s2 != "" && (s2[0] == 'e' || s2[0] == 'E') then ReadExponent(s2[1..]) == (factor, s3)
      else factor == 1.0 && s3 == s2
    requires (s1 != "" && s1[0] == '.') || (s2 != "" && (s2[0] == 'e' || s2[0] == 'E'))
    ensures ReadNumber(s) == (Double(if s[0] == '-' then -Scaled(mantissa, factor) else Scaled(mantissa, factor)), s3)
  {
    hide ReadDigits, ReadFraction, ReadExponent, Scaled;
  }

  lemma TailOfNumber(x: Exponent, k: string)
    requires GoodExponent(x) && AtDelimiter(k)
    ensures var tail := ExponentText(x) + k;
      tail == "" || (!IsDigit(tail[0]) && tail[0] != '.')
    ensures x == NoExponent ==> ExponentText(x) + k == k && (k == "" || (k[0] != 'e' && k[0] != 'E' && k[0] != '.'))
    ensures x.Exponent? ==> ExponentText(x) + k == [x.mark] + ((x.sign + PaddedDecimal(x.zeros, x.e)) + k)
  {
    hide Decimal;
  }

  /** What is read after the digits before the point. */
  lemma AfterPoint(doc: Doc, tail: string)
    requires doc.Decimals? && Good(doc) && (tail == "" || !IsDigit(tail[0]))
    ensures doc.fraction != [] ==>
      ReadFraction(DigitsText(doc.fraction) + tail, doc.whole as real, 1.0) == (doc.whole as real + Fraction(doc.fraction), tail)
    ensures doc.fraction == [] ==> Fraction(doc.fraction) == 0.0
    ensures var s := (if doc.fraction == [] then "" else "." + DigitsText(doc.fraction)) + tail;
      if doc.fraction == [] then s == tail else s[0] == '.' && s[1..] == DigitsText(doc.fraction) + tail
  {
    FractionRead(doc.fraction, tail, doc.whole as real, 1.0);
    PlusNothing(doc.whole as real, Fraction(doc.fraction));
  }

  lemma AfterExponent(doc: Doc, k: string)
    requires doc.Decimals? && Good(doc) && AtDelimiter(k)
    ensures doc.exponent.Exponent? ==> ReadExponent((doc.exponent.sign + PaddedDecimal(doc.exponent.zeros, doc.exponent.e)) + k) == (Factor(doc.exponent), k)
    ensures doc.exponent == NoExponent ==> Factor(doc.exponent) == 1.0
  {
    if doc.exponent.Exponent? { ExponentRead(doc.exponent, k); }
  }

  lemma ScaledTwice(doc: Doc)
    requires doc.Decimals? && Good(doc)
    ensures var mantissa, factor := doc.whole as real + Fraction(doc.fraction), Factor(doc.exponent);
      Meaning(doc) == Double(if doc.negative then -Scaled(mantissa, factor) else Scaled(mantissa, factor))
  {
    hide Fraction, Factor, Scaled, Meanings, Gathered, PiecesMeaning;
    ScaledIs(doc.whole as real + Fraction(doc.fraction), Factor(doc.exponent));
  }

  lemma ScaledIs(mantissa: real, factor: real)
    ensures Scaled(mantissa, factor) == mantissa * factor
  {
  }

  lemma MinusZeroRead(k: string)
    requires AtDelimiter(k)
    ensures ReadScalar("-0" + k) == Scalar(Integer(0), k)
  {
    DigitsReadBack(0, k);
    assert ("-0" + k)[1..] == Decimal(0) + k;
  }

  lemma LeafRead(doc: Doc, k: string)
    requires Good(doc) && IsLeaf(doc) && AtDelimiter(k)
    ensures var s := DocText(doc) + k;
      s != "" && !IsSpace(s[0]) && StartsScalar(s[0]) && ReadScalar(s) == if Readable(doc) then Scalar(Meaning(doc), k) else NoScalar(BadString)
  {
    hide ReadNumber, ReadString, PiecesText, PiecesMeaning, IntegerText;
    match doc
    case Nothing => WordReadBack("null", Null, k);
    case Truth(b) => WordReadBack(DocText(doc), Boolean(b), k);
    case Whole(n) => IntegerReadBack(n, k);
    case MinusZero => MinusZeroRead(k);
    case Decimals(_, _, _, _) => DecimalsAreScalar(doc, k);
    case Text(pieces) =>
      var s := DocText(doc) + k;
      Associates("\"", PiecesText(pieces) + "\"", k);
      Associates(PiecesText(pieces), "\"", k);
      assert s[1..] == PiecesText(pieces) + ("\"" + k);
      PiecesRead(pieces, k, "");
      assert "" + PiecesMeaning(pieces) == PiecesMeaning(pieces);
  }

  lemma DecimalsAreScalar(doc: Doc, k: string)
    requires doc.Decimals? && Good(doc) && AtDelimiter(k)
    ensures var s := DocText(doc) + k;
      s != "" && !IsSpace(s[0]) && StartsScalar(s[0]) && ReadScalar(s) == Scalar(Meaning(doc), k)
  {
    hide DocText, ReadNumber, ReadString, Meaning;
    DecimalsRead(doc, k);
  }

  /** A document followed by a delimiter, read where a value is expected. */
  lemma {:induction false} RunDoc(doc: Doc, k: string, stack: seq<Frame>, sep: bool)
    requires Good(doc) && AtDelimiter(k) && Expecting(stack)
    ensures Leads(Run(PState(DocText(doc) + k, stack, sep)), Readable(doc), Run(PState(k, Added(stack, Meaning(doc)), false)))
    decreases doc, 1
  {
    hide Run, ReadScalar, Added, AtDelimiter, Readable;
    if IsLeaf(doc) {
      RunLeaf(doc, k, stack, sep);
    } else {
      RunTree(doc, k, stack, sep);
    }
  }

  lemma RunLeaf(doc: Doc, k: string, stack: seq<Frame>, sep: bool)
    requires Good(doc) && IsLeaf(doc) && AtDelimiter(k) && Expecting(stack)
    ensures Leads(Run(PState(DocText(doc) + k, stack, sep)), Readable(doc), Run(PState(k, Added(stack, Meaning(doc)), false)))
  {
    hide DocText, ReadScalar, Meaning, Readable;
    LeafRead(doc, k);
    var s := DocText(doc) + k;
    assert SkipSpaces(s) == s;
    assert Json.Step(PState(s, stack, sep)) ==
      if Readable(doc) then Continue(PState(k, Added(stack, Meaning(doc)), false)) else Fail(BadString);
  }

  /** An array or an object: opened, filled, closed. */
  lemma {:induction false} RunTree(doc: Doc, k: string, stack: seq<Frame>, sep: bool)
    requires Good(doc) && !IsLeaf(doc)
    ensures Leads(Run(PState(DocText(doc) + k, stack, sep)), Readable(doc),
                  if stack == [] then Done(Meaning(doc)) else Run(PState(k, Added(stack, Meaning(doc)), false)))
    decreases doc, 0
  {
    hide Run, Added, ListText, FieldsText, Meanings, Gathered, ReadableItem, ReadableField;
    var v, blank := Meaning(doc), if doc.List? then doc.blank else doc.blank;
    WhiteIsSkipped(blank);
    if doc.List? {
      var tail := blank + ("]" + k);
      DelimiterAhead(blank, "]" + k);
      Bracketed("[", ListText(doc.items), blank, "]", k);
      RunMark('[', ListText(doc.items) + tail, stack, sep);
      RunList(doc.items, [], tail, stack, true);
      assert [] + Meanings(doc.items) == Meanings(doc.items);
      RunSkips(blank, "]" + k, stack + [Frame(v, "")], true && doc.items == []);
    } else {
      var tail := blank + ("}" + k);
      DelimiterAhead(blank, "}" + k);
      Bracketed("{", FieldsText(doc.fields), blank, "}", k);
      RunMark('{', FieldsText(doc.fields) + tail, stack, sep);
      RunFields(doc.fields, [], tail, stack, true);
      RunSkips(blank, "}" + k, stack + [Frame(v, "")], true && doc.fields == []);
    }
    RunClose(v, k, stack, if doc.List? then doc.items == [] else doc.fields == []);
  }

  lemma Bracketed(open: string, body: string, blank: string, close: string, k: string)
    ensures (open + (body + (blank + close))) + k == open + (body + (blank + (close + k)))
  {
    Associates(open, body + (blank + close), k);
    Associates(body, blank + close, k);
    Associates(blank, close, k);
  }

  /** White space and what follows it: a delimiter, if that is one. */
  lemma DelimiterAhead(w: string, k: string)
    requires White(w) && AtDelimiter(k)
    ensures AtDelimiter(w + k)
  {
    WhiteIsSkipped(w);
    if w == "" {
      assert w + k == k;
    } else {
      assert w[0] in w && (w + k)[0] == w[0];
    }
  }

  lemma {:induction false} RunItem(item: Item, k: string, stack: seq<Frame>, sep: bool)
    requires GoodItem(item) && AtDelimiter(k) && Expecting(stack)
    ensures Leads(Run(PState(ItemText(item) + k, stack, sep)), ReadableItem(item),
                  Run(PState(k, Added(stack, ItemMeaning(item)), false)))
    decreases item, 2
  {
    hide Run, Added, Readable, DocText, Meaning, White, AtDelimiter;
    WhiteIsSkipped(item.before);
    WhiteIsSkipped(item.after);
    DelimiterAhead(item.after, k);
    Associates(item.before, DocText(item.doc) + item.after, k);
    Associates(DocText(item.doc), item.after, k);
    RunSkips(item.before, DocText(item.doc) + (item.after + k), stack, sep);
    RunDoc(item.doc, item.after + k, stack, sep);
    RunSkips(item.after, k, Added(stack, Meaning(item.doc)), false);
  }

  lemma {:induction false} RunList(items: seq<Item>, done: seq<Value>, k: string, stack: seq<Frame>, sep: bool)
    requires (forall i :: 0 <= i < |items| ==> GoodItem(items[i])) && AtDelimiter(k)
    ensures Leads(Run(PState(ListText(items) + k, stack + [Frame(Array(done), "")], sep)),
                  forall i :: 0 <= i < |items| ==> ReadableItem(items[i]),
                  Run(PState(k, stack + [Frame(Array(done + Meanings(items)), "")], sep && items == [])))
    decreases items, 0
  {
    hide Run, ItemText, ItemMeaning, GoodItem, Added, ReadableItem;
    var open := stack + [Frame(Array(done), "")];
    if items == [] {
      assert ListText(items) + k == k && done + Meanings(items) == done;
    } else {
      var v, rest := ItemMeaning(items[0]), ListText(items[1..]) + k;
      var more := if |items| == 1 then k else "," + rest;
      var open1 := stack + [Frame(Array(done + [v]), "")];
      assert ListText(items) + k == ItemText(items[0]) + more by {
        Associates(ItemText(items[0]), if |items| == 1 then "" else "," + ListText(items[1..]), k);
        Associates(",", ListText(items[1..]), k);
      }
      RunItem(items[0], more, open, sep);
      ItemAdded(stack, done, v);
      OneMore(done, Meanings(items));
      assert Meanings(items)[1..] == Meanings(items[1..]);
      if |items| > 1 {
        RunMark(',', rest, open1, false);
        RunList(items[1..], done + [v], k, stack, true);
      } else {
        assert Meanings(items) == [v];
      }
    }
  }

  lemma {:induction false} RunField(f: Field, done: seq<Member>, k: string, stack: seq<Frame>, sep: bool)
    requires GoodField(f) && AtDelimiter(k)
    ensures Leads(Run(PState(FieldText(f) + k, stack + [Frame(Object(done), "")], sep)), ReadableField(f),
                  Run(PState(k, stack + [Frame(Object(AddMember(done, FieldName(f), FieldMeaning(f))), "")], false)))
    decreases f, 3
  {
    hide Run, Readable, PiecesText, PiecesMeaning, ItemText, AtDelimiter, White, ReadScalar;
    var open := stack + [Frame(Object(done), "")];
    var keyed := stack + [Frame(Object(done), FieldName(f))];
    var value := ItemText(f.item) + k;
    WhiteIsSkipped(f.ahead);
    WhiteIsSkipped(f.gap);
    FieldParts(f, k);
    RunSkips(f.ahead, QuotedKey(f) + (f.gap + (":" + value)), open, sep);
    RunName(f, f.gap + (":" + value), open, sep) by { DelimiterAhead(f.gap, ":" + value); }
    RunSkips(f.gap, ":" + value, keyed, false);
    NamesAreNotEmpty(f.key);
    if FieldName(f) == "" {
      ColonRefused(value, keyed);
    } else {
      RunMark(':', value, keyed, false);
      RunItem(f.item, k, keyed, true);
    }
  }

  function QuotedKey(f: Field): string
    requires GoodField(f)
  {
    "\"" + (PiecesText(f.key) + "\"")
  }

  lemma FieldParts(f: Field, k: string)
    requires GoodField(f)
    ensures FieldText(f) + k == f.ahead + (QuotedKey(f) + (f.gap + (":" + (ItemText(f.item) + k))))
  {
    hide PiecesText, ItemText, GoodItem;
    var key, item := PiecesText(f.key), ItemText(f.item);
    Associates(f.ahead, "\"" + (key + ("\"" + (f.gap + (":" + item)))), k);
    Associates("\"", key + ("\"" + (f.gap + (":" + item))), k);
    Associates(key, "\"" + (f.gap + (":" + item)), k);
    Associates("\"", f.gap + (":" + item), k);
    Associates(f.gap, ":" + item, k);
    Associates(":", item, k);
    var rest := f.gap + (":" + (item + k));
    Associates("\"", key + "\"", rest);
    Associates(key, "\"", rest);
  }

  /** Every piece stands for something. */
  lemma NamesAreNotEmpty(ps: seq<Piece>)
    requires GoodPieces(ps)
    ensures PiecesMeaning(ps) == "" <==> ps == []
  {
    if ps != [] {
      assert PieceMeaning(ps[0]) != "";
    }
  }

  lemma ColonRefused(k: string, stack: seq<Frame>)
    requires stack != [] && Top(stack).key == ""
    ensures Run(PState(":" + k, stack, false)) == Fail(UnexpectedCharacter)
  {
    var s := ":" + k;
    assert SkipSpaces(s) == s;
    assert Json.Step(PState(s, stack, false)) == Fail(UnexpectedCharacter);
  }

  /** The name of a member, read where one is expected. */
  lemma RunName(f: Field, k: string, stack: seq<Frame>, sep: bool)
    requires GoodField(f) && AtDelimiter(k) && stack != [] && Top(stack).node.Object? && Top(stack).key == ""
    ensures Leads(Run(PState(QuotedKey(f) + k, stack, sep)), DELETE !in f.key,
                  Run(PState(k, WithTop(stack, Top(stack).(key := FieldName(f))), false)))
  {
    hide ReadScalar, PiecesText, PiecesMeaning, GoodItem;
    var doc := Text(f.key);
    LeafRead(doc, k);
    var s := QuotedKey(f) + k;
    assert s == DocText(doc) + k;
    assert SkipSpaces(s) == s;
    assert Json.Step(PState(s, stack, sep)) ==
      if DELETE !in f.key then Continue(PState(k, WithTop(stack, Top(stack).(key := FieldName(f))), false)) else Fail(BadString);
  }

  lemma {:induction false} RunFields(fields: seq<Field>, done: seq<Member>, k: string, stack: seq<Frame>, sep: bool)
    requires (forall i :: 0 <= i < |fields| ==> GoodField(fields[i])) && AtDelimiter(k)
    ensures Leads(Run(PState(FieldsText(fields) + k, stack + [Frame(Object(done), "")], sep)),
                  forall i :: 0 <= i < |fields| ==> ReadableField(fields[i]),
                  Run(PState(k, stack + [Frame(Object(Gathered(done, fields)), "")], sep && fields == [])))
    decreases fields, 0
  {
    hide Run, ReadableField, FieldText, FieldMeaning, FieldName, GoodField, AddMember;
    if fields == [] {
      assert FieldsText(fields) + k == k;
    } else {
      var rest := FieldsText(fields[1..]) + k;
      var more := if |fields| == 1 then k else "," + rest;
      var done1 := AddMember(done, FieldName(fields[0]), FieldMeaning(fields[0]));
      var open1 := stack + [Frame(Object(done1), "")];
      assert FieldsText(fields) + k == FieldText(fields[0]) + more by {
        Associates(FieldText(fields[0]), if |fields| == 1 then "" else "," + FieldsText(fields[1..]), k);
        Associates(",", FieldsText(fields[1..]), k);
      }
      RunField(fields[0], done, more, stack, sep);
      if |fields| > 1 {
        RunMark(',', rest, open1, false);
        RunFields(fields[1..], done1, k, stack, true);
      } else {
        assert Gathered(done, fields) == done1;
      }
    }
  }

  lemma ScalarAlone(doc: Doc, k: string)
    requires Good(doc) && IsLeaf(doc) && AtDelimiter(k)
    ensures Run(PState(DocText(doc) + k, [], true)).Fail?
  {
    hide DocText, ReadScalar, Meaning, Readable;
    LeafRead(doc, k);
    var s := DocText(doc) + k;
    assert SkipSpaces(s) == s;
    assert Json.Step(PState(s, [], true)).Fail?;
  }

  /**
   * The reader accepts a text of the grammar exactly when it is an array or an object without empty keys and unescaped
   * DEL characters. It is then read as what it means: whatever its white space, whichever way each character of its
   * strings is written, however its numbers are, and whatever follows it.
   */
  lemma EveryTextIsRead(doc: Doc, w: string, k: string)
    requires Good(doc) && White(w) && (IsLeaf(doc) ==> AtDelimiter(k))
    ensures Leads(Parse(w + (DocText(doc) + k)), !IsLeaf(doc) && Readable(doc), Done(Meaning(doc)))
  {
    hide Run, DocText, Meaning, Readable, AtDelimiter;
    WhiteIsSkipped(w);
    RunSkips(w, DocText(doc) + k, [], true);
    if IsLeaf(doc) {
      ScalarAlone(doc, k);
    } else {
      RunTree(doc, k, [], true);
    }
  }

  // ---------------------------------------------------------------- white space, and texts that are refused

  /** The reader skips the white space of section 2 and two more characters, and nothing else. */
  lemma SkippedCharacters(c: char)
    ensures IsSpace(c) <==> c as int in {0x20, 0x09, 0x0a, 0x0b, 0x0c, 0x0d}
  {
  }

  /** A text that is refused right after an opening bracket. */
  lemma RefusedInside(text: string, status: Status)
    requires |text| > 1 && text[0] in {'[', '{'} && !IsSpace(text[1])
    requires StepAt(PState(text[1..], [Frame(if text[0] == '[' then Array([]) else Object([]), "")], true), text[1..]) ==
      Fail(status)
    ensures Parse(text) == Fail(status)
  {
    hide StepAt;
    var stack, rest := [Frame(if text[0] == '[' then Array([]) else Object([]), "")], text[1..];
    assert text == [text[0]] + rest;
    RunMark(text[0], rest, [], true);
    assert [] + stack == stack;
    assert SkipSpaces(rest) == rest;
    assert Json.Step(PState(rest, stack, true)) == Fail(status);
  }

  lemma RefusedAtOnce(text: string, status: Status)
    requires text != "" && !IsSpace(text[0]) && StepAt(PState(text, [], true), text) == Fail(status)
    ensures Parse(text) == Fail(status)
  {
    hide StepAt;
    assert SkipSpaces(text) == text;
  }

  /** Texts for the ways to be refused. */
  lemma RefusedTexts()
    ensures Parse("]") == Fail(StackUnderflow) && Parse("}") == Fail(StackUnderflow)
    ensures Parse("[}") == Fail(MismatchBracket) && Parse("{]") == Fail(MismatchBracket)
    ensures Parse("[?") == Fail(UnexpectedCharacter) && Parse("[,") == Fail(UnexpectedCharacter)
    ensures Parse("[:") == Fail(UnexpectedCharacter)
  {
    hide Run, ReadScalar, Parse;
    RefusedAtOnce("]", StackUnderflow);
    RefusedAtOnce("}", StackUnderflow);
    RefusedInside("[}", MismatchBracket);
    RefusedInside("{]", MismatchBracket);
    RefusedInside("[?", UnexpectedCharacter);
    RefusedInside("[,", UnexpectedCharacter);
    RefusedInside("[:", UnexpectedCharacter);
  }

  lemma RefusedScalars()
    ensures Parse("[-") == Fail(BadNumber) && Parse("[n") == Fail(BadIdentifier) && Parse("[\"\t") == Fail(BadString)
    ensures Parse("{null") == Fail(UnquotedKey)
  {
    hide Run, Parse;
    RefusedInside("[-", BadNumber);
    RefusedInside("[n", BadIdentifier);
    RefusedInside("[\"\t", BadString);
    WordReadBack("null", Null, "");
    assert "null" + "" == "null" && "{null"[1..] == "null";
    RefusedInside("{null", UnquotedKey);
  }

  /** An open array or object at the end of the text, or no text at all. */
  lemma UnfinishedTexts()
    ensures Parse("") == Fail(BreakingBad) && Parse("[") == Fail(BreakingBad) && Parse("{") == Fail(BreakingBad)
  {
    RunMark('[', "", [], true);
    RunMark('{', "", [], true);
    assert ['['] + "" == "[" && ['{'] + "" == "{";
  }

  // ---------------------------------------------------------------- how trees are laid out

  lemma OneItem(v: Value, level: int, show: real -> string)
    ensures Json.Text(Array([v]), level, show) ==
      "[" + NewLine(level) + (Indent(level) + Json.Text(v, NextLevel(level), show)) + NewLine(level) + Indent(level) + "]"
  {
    hide Indent, NewLine, NextLevel;
    assert ItemsText([v], level, show) == Indent(level) + (Json.Text(v, NextLevel(level), show) + "");
  }

  lemma TwoItems(v: Value, w: Value, level: int, show: real -> string)
    ensures Json.Text(Array([v, w]), level, show) ==
      "[" + NewLine(level) + (Indent(level) + Json.Text(v, NextLevel(level), show) + "," + NewLine(level) +
      Indent(level) + Json.Text(w, NextLevel(level), show)) + NewLine(level) + Indent(level) + "]"
  {
    hide Indent, NewLine, NextLevel;
    var items := [v, w];
    assert items[1..] == [w];
    assert ItemsText([w], level, show) == Indent(level) + (Json.Text(w, NextLevel(level), show) + "");
    hide Json.Text;
    assert ItemsText(items, level, show) ==
      Indent(level) + Json.Text(v, NextLevel(level), show) + "," + NewLine(level) +
      Indent(level) + Json.Text(w, NextLevel(level), show);
  }

  lemma OneMember(key: string, v: Value, level: int, show: real -> string)
    ensures Json.Text(Object([Member(key, v)]), level, show) ==
      "{" + NewLine(level) + (Indent(level) + "\"" + key + "\":" + Json.Text(v, NextLevel(level), show)) +
      NewLine(level) + Indent(level) + "}"
  {
    hide Indent, NewLine, NextLevel;
    assert MembersText([Member(key, v)], level, show) ==
      Indent(level) + ("\"" + key + "\":" + (Json.Text(v, NextLevel(level), show) + ""));
  }

  lemma Layout()
    ensures NewLine(0) == NewLine(1) == "\n" && NewLine(-1) == Indent(-1) == "" && Indent(0) == "    " && Indent(1) == "        "
    ensures NextLevel(0) == 1 && NextLevel(1) == 2 && NextLevel(-1) == -1
  {
  }

  lemma PrintedScalars(level: int, show: real -> string)
    ensures Json.Text(Integer(-7), level, show) == "-7" && Json.Text(Null, level, show) == "null"
    ensures Json.Text(Boolean(true), level, show) == "true" && Json.Text(Boolean(false), level, show) == "false"
    ensures Json.Text(String("\\"), level, show) == "\"\\\\\""
  {
    assert Escaped("\\") == "\\\\" + Escaped("\\"[1..]);
  }

  /** Each level is indented by four blanks more, closing brackets like what they close; keys are followed by no blank. */
  lemma PrintedLayout(show: real -> string)
    ensures Json.Text(Array([Integer(-7), Null]), 0, show) ==
      "[" + "\n" + ("    " + "-7" + "," + "\n" + "    " + "null") + "\n" + "    " + "]"
    ensures Json.Text(Array([Array([Null])]), 0, show) ==
      "[" + "\n" + ("    " + ("[" + "\n" + ("        " + "null") + "\n" + "        " + "]")) + "\n" + "    " + "]"
    ensures Json.Text(Object([Member("k", String("\\"))]), 0, show) ==
      "{" + "\n" + ("    " + "\"" + "k" + "\":" + "\"\\\\\"") + "\n" + "    " + "}"
    ensures Json.Text(Array([Integer(-7), Null]), -1, show) == "[" + "-7" + "," + "null" + "]"
  {
    hide Json.Text, NewLine, Indent, NextLevel;
    Layout();
    PrintedScalars(1, show);
    PrintedScalars(2, show);
    PrintedScalars(-1, show);
    TwoItems(Integer(-7), Null, 0, show);
    OneItem(Null, 1, show);
    OneItem(Array([Null]), 0, show);
    OneMember("k", String("\\"), 0, show);
    TwoItems(Integer(-7), Null, -1, show);
    assert forall x: string :: x + "" == x && "" + x == x;
  }

  /** Two keys agree up to position k; there the first one ends or has the smaller character. */
  predicate ComesFirst(a: string, b: string, k: nat) {
    k <= |a| && k < |b| && a[..k] == b[..k] && (k < |a| ==> a[k] < b[k])
  }

  lemma {:induction false} ComesFirstIsLess(a: string, b: string, k: nat)
    requires ComesFirst(a, b, k)
    ensures Less(a, b)
  {
    if k > 0 {
      assert a[1..][..k - 1] == a[..k][1..] && b[1..][..k - 1] == b[..k][1..];
      assert a[0] == a[..k][0] && b[0] == b[..k][0];
      ComesFirstIsLess(a[1..], b[1..], k - 1);
    }
  }

  lemma {:induction false} LessComesFirst(a: string, b: string) returns (k: nat)
    requires Less(a, b)
    ensures ComesFirst(a, b, k)
  {
    k := 0;
    if a != "" && a[0] == b[0] {
      var j := LessComesFirst(a[1..], b[1..]);
      k := j + 1;
      assert a[..k] == [a[0]] + a[1..][..j] && b[..k] == [b[0]] + b[1..][..j];
    }
  }

  /** The members of an object are in the order of their keys: character by character, a shorter key first. */
  lemma KeyOrder(a: string, b: string)
    ensures Less(a, b) <==> exists k: nat :: ComesFirst(a, b, k)
  {
    if Less(a, b) {
      var k := LessComesFirst(a, b);
    } else if k: nat :| ComesFirst(a, b, k) {
      ComesFirstIsLess(a, b, k);
    }
  }
}
