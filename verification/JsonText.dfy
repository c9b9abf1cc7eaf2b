/**
  The part of Python's `json` module the configuration text relies on: writing
  and reading strings, integers, booleans and arrays (section 7 of RFC 8259 for
  the string escapes, which are the ASCII-only ones `json.dumps` writes).
*/
module JsonText {
  import opened Outcomes

  datatype Scalar = Bool(b: bool) | Int(n: int) | Str(s: string) | List(items: seq<Scalar>)

  // ------------------------------------------------------------ hexadecimal units

  function HexDigit(d: nat): char
    requires d < 16
  {
    if d < 10 then (d + 48) as char else (d + 87) as char
  }

  function HexValue(c: char): Option<nat> {
    if '0' <= c <= '9' then Some((c as int - 48) as nat)
    else if 'a' <= c <= 'f' then Some((c as int - 87) as nat)
    else if 'A' <= c <= 'F' then Some((c as int - 55) as nat)
    else None
  }

  function Hex4(n: nat): string
    requires n < 0x10000
  {
    [HexDigit(n / 4096), HexDigit(n / 256 % 16), HexDigit(n / 16 % 16), HexDigit(n % 16)]
  }

  /** The four-digit unit at the front of `s`. */
  function ReadUnit(s: string): (r: Option<nat>)
    ensures r.Some? ==> |s| >= 4 && r.value < 0x10000
  {
    if |s| < 4 then None
    else
      match (HexValue(s[0]), HexValue(s[1]), HexValue(s[2]), HexValue(s[3]))
      case (Some(a), Some(b), Some(c), Some(d)) =>
        if a < 16 && b < 16 && c < 16 && d < 16 then Some(a * 4096 + b * 256 + c * 16 + d) else None
      case _ => None
  }

  lemma HexDigitReads(d: nat)
    requires d < 16
    ensures HexValue(HexDigit(d)) == Some(d)
  {
  }

  lemma FourDigits(n: nat)
    requires n < 0x10000
    ensures n / 4096 < 16 && n == n / 4096 * 4096 + n / 256 % 16 * 256 + n / 16 % 16 * 16 + n % 16
  {
    assert n / 16 == n / 256 * 16 + n / 16 % 16;
    assert n / 256 == n / 4096 * 16 + n / 256 % 16;
  }

  lemma Hex4Reads(n: nat, rest: string)
    requires n < 0x10000
    ensures ReadUnit(Hex4(n) + rest) == Some(n)
  {
    hide HexDigit, HexValue;
    FourDigits(n);
    var a, b, c, d := n / 4096, n / 256 % 16, n / 16 % 16, n % 16;
    HexDigitReads(a);
    HexDigitReads(b);
    HexDigitReads(c);
    HexDigitReads(d);
    var s := [HexDigit(a), HexDigit(b), HexDigit(c), HexDigit(d)] + rest;
    assert s[0] == HexDigit(a) && s[1] == HexDigit(b) && s[2] == HexDigit(c) && s[3] == HexDigit(d);
  }

  // ------------------------------------------------------------ strings

  predicate IsPrintable(c: char) {
    ' ' <= c <= '~'
  }

  function EscapeChar(c: char): string {
    if c == '"' then "\\\""
    else if c == '\\' then "\\\\"
    else if c == '\n' then "\\n"
    else if c == '\r' then "\\r"
    else if c == '\t' then "\\t"
    else if c == '\U{0c}' then "\\f"
    else if c == '\U{08}' then "\\b"
    else if IsPrintable(c) then [c]
    else
      var n := c as int;
      if n < 0x10000 then "\\u" + Hex4(n)
      else "\\u" + Hex4(0xD800 + (n - 0x10000) / 0x400) + "\\u" + Hex4(0xDC00 + (n - 0x10000) % 0x400)
  }

  function Escape(s: string): string {
    if s == "" then "" else EscapeChar(s[0]) + Escape(s[1..])
  }

  /** `json.dumps` of a string. */
  function Quote(s: string): string {
    "\"" + Escape(s) + "\""
  }

  predicate IsHigh(n: nat) {
    0xD800 <= n < 0xDC00
  }

  predicate IsLow(n: nat) {
    0xDC00 <= n < 0xE000
  }

  /** One character after a backslash-u unit; a lone surrogate is not a character here. */
  function ReadUnicode(s: string): (r: Option<(char, string)>)
    ensures r.Some? ==> |r.value.1| < |s|
  {
    match ReadUnit(s)
    case None => None
    case Some(unit) =>
      if IsHigh(unit) then
        if |s| >= 6 && s[4] == '\\' && s[5] == 'u' then
          match ReadUnit(s[6..])
          case Some(low) =>
            if IsLow(low) then Some(((0x10000 + (unit - 0xD800) * 0x400 + (low - 0xDC00)) as char, s[10..])) else None
          case None => None
        else None
      else if IsLow(unit) then None
      else Some((unit as char, s[4..]))
  }

  function SimpleEscape(c: char): Option<char> {
    match c
    case '"' => Some('"')
    case '\\' => Some('\\')
    case '/' => Some('/')
    case 'b' => Some('\U{08}')
    case 'f' => Some('\U{0c}')
    case 'n' => Some('\n')
    case 'r' => Some('\r')
    case 't' => Some('\t')
    case _ => None
  }

  /** The character at the front of a string body, and what follows it. */
  function ReadChar(s: string): (r: Option<(char, string)>)
    requires s != ""
    ensures r.Some? ==> |r.value.1| < |s|
  {
    if s[0] != '\\' then (if s[0] < ' ' then None else Some((s[0], s[1..])))
    else if |s| < 2 then None
    else if s[1] == 'u' then ReadUnicode(s[2..])
    else
      match SimpleEscape(s[1])
      case Some(c) => Some((c, s[2..]))
      case None => None
  }

  /** A string body up to its closing quote: the decoded text and what follows the quote. */
  function ReadString(s: string): (r: Option<(string, string)>)
    ensures r.Some? ==> |r.value.1| < |s|
    decreases |s|
  {
    if s == "" then None
    else if s[0] == '"' then Some(("", s[1..]))
    else
      match ReadChar(s)
      case None => None
      case Some((c, after)) =>
        match ReadString(after)
        case None => None
        case Some((text, rest)) => Some(([c] + text, rest))
  }

  /** A character outside the first plane is written as a surrogate pair, and read back from it. */
  lemma PairReads(n: nat, rest: string)
    requires 0x10000 <= n < 0x110000
    ensures var high, low := 0xD800 + (n - 0x10000) / 0x400, 0xDC00 + (n - 0x10000) % 0x400;
            IsHigh(high) && IsLow(low)
            && ReadUnicode(Hex4(high) + ("\\u" + (Hex4(low) + rest))) == Some((n as char, rest))
  {
    hide Hex4, ReadUnit;
    var high, low := 0xD800 + (n - 0x10000) / 0x400, 0xDC00 + (n - 0x10000) % 0x400;
    var tail := "\\u" + (Hex4(low) + rest);
    var s := Hex4(high) + tail;
    assert |Hex4(high)| == 4 && |Hex4(low)| == 4 by { FourLong(high); FourLong(low); }
    Hex4Reads(high, tail);
    Hex4Reads(low, rest);
    assert s[4] == tail[0] && s[5] == tail[1];
    assert s[6..] == Hex4(low) + rest;
    assert s[10..] == rest;
    assert 0x10000 + (high - 0xD800) * 0x400 + (low - 0xDC00) == n;
  }

  lemma FourLong(n: nat)
    requires n < 0x10000
    ensures |Hex4(n)| == 4
  {
  }

  lemma BasicReads(n: nat, rest: string)
    requires n < 0xD800 || 0xE000 <= n < 0x10000
    ensures ReadUnicode(Hex4(n) + rest) == Some((n as char, rest))
  {
    hide Hex4, ReadUnit;
    FourLong(n);
    Hex4Reads(n, rest);
    assert (Hex4(n) + rest)[4..] == rest;
  }

  lemma ShortEscapeReads(c: char, rest: string)
    requires c in {'"', '\\', '\n', '\r', '\t', '\U{0c}', '\U{08}'}
    ensures |EscapeChar(c)| == 2 && EscapeChar(c)[0] == '\\'
    ensures EscapeChar(c)[1] != 'u' && SimpleEscape(EscapeChar(c)[1]) == Some(c)
  {
  }

  lemma EscapeCharReads(c: char, rest: string)
    ensures EscapeChar(c) != "" && EscapeChar(c)[0] != '"'
    ensures ReadChar(EscapeChar(c) + rest) == Some((c, rest))
  {
    hide Hex4, ReadUnicode, EscapeChar, SimpleEscape;
    var n := c as int;
    var text := EscapeChar(c);
    var s := text + rest;
    if c in {'"', '\\', '\n', '\r', '\t', '\U{0c}', '\U{08}'} {
      ShortEscapeReads(c, rest);
      assert s[0] == text[0] && s[1] == text[1] && s[2..] == rest;
    } else {
      LongEscape(c);
      if IsPrintable(c) {
        assert s[0] == c && s[1..] == rest;
      } else if n < 0x10000 {
        assert s[0] == '\\' && s[1] == 'u' && s[2..] == Hex4(n) + rest;
        BasicReads(n, rest);
      } else {
        var high, low := 0xD800 + (n - 0x10000) / 0x400, 0xDC00 + (n - 0x10000) % 0x400;
        assert s[0] == '\\' && s[1] == 'u' && s[2..] == Hex4(high) + ("\\u" + (Hex4(low) + rest));
        PairReads(n, rest);
      }
    }
  }

  lemma LongEscape(c: char)
    requires c !in {'"', '\\', '\n', '\r', '\t', '\U{0c}', '\U{08}'}
    ensures var n := c as int;
            if IsPrintable(c) then EscapeChar(c) == [c]
            else if n < 0x10000 then EscapeChar(c) == "\\u" + Hex4(n)
            else EscapeChar(c) == "\\u" + Hex4(0xD800 + (n - 0x10000) / 0x400) + "\\u" + Hex4(0xDC00 + (n - 0x10000) % 0x400)
  {
    hide Hex4;
  }

  /** Reading what `json.dumps` wrote gives the text back, whatever follows it. */
  lemma {:induction false} EscapeReads(s: string, rest: string)
    ensures ReadString(Escape(s) + "\"" + rest) == Some((s, rest))
  {
    if s != "" {
      var tail := Escape(s[1..]) + "\"" + rest;
      assert Escape(s) + "\"" + rest == EscapeChar(s[0]) + tail;
      EscapeCharReads(s[0], tail);
      EscapeReads(s[1..], rest);
      assert [s[0]] + s[1..] == s;
      assert (EscapeChar(s[0]) + tail)[0] == EscapeChar(s[0])[0];
    } else {
      assert Escape(s) + "\"" + rest == "\"" + rest;
    }
  }

  // ------------------------------------------------------------ integers

  predicate IsDigit(c: char) {
    '0' <= c <= '9'
  }

  function DigitChar(d: nat): char
    requires d < 10
  {
    (d + 48) as char
  }

  /** `str` of a natural number. */
  function PrintNat(n: nat): (s: string)
    ensures s != "" && forall c <- s :: IsDigit(c)
    ensures n > 0 ==> s[0] != '0'
    ensures n == 0 ==> s == "0"
  {
    if n < 10 then [DigitChar(n)] else PrintNat(n / 10) + [DigitChar(n % 10)]
  }

  function PrintInt(n: int): string {
    if n < 0 then "-" + PrintNat(-n) else PrintNat(n)
  }

  function DigitsValue(s: string): nat
    requires forall c <- s :: IsDigit(c)
  {
    if s == "" then 0
    else
      var last := s[|s| - 1];
      assert IsDigit(last);
      10 * DigitsValue(s[..|s| - 1]) + (last as int - 48)
  }

  lemma {:induction false} PrintNatReads(n: nat)
    ensures DigitsValue(PrintNat(n)) == n
  {
    if n < 10 {
      assert DigitsValue([DigitChar(n)]) == n;
    } else {
      PrintNatReads(n / 10);
      assert PrintNat(n)[..|PrintNat(n)| - 1] == PrintNat(n / 10);
    }
  }

  /** The longest run of digits at the front. */
  function TakeDigits(s: string): (r: string)
    ensures |r| <= |s| && r == s[..|r|] && forall c <- r :: IsDigit(c)
    ensures |r| < |s| ==> !IsDigit(s[|r|])
  {
    if s == "" || !IsDigit(s[0]) then "" else [s[0]] + TakeDigits(s[1..])
  }

  /** A fraction or an exponent follows: the number is not an integer. */
  predicate FloatFollows(s: string) {
    (|s| >= 2 && s[0] == '.' && IsDigit(s[1]))
    || (|s| >= 2 && s[0] in {'e', 'E'} && (IsDigit(s[1]) || (|s| >= 3 && s[1] in {'+', '-'} && IsDigit(s[2]))))
  }

  /** An unsigned integer: a lone zero, or digits that do not begin with one. */
  function ReadNat(s: string): (r: Option<(nat, string)>)
    ensures r.Some? ==> |r.value.1| < |s|
  {
    var run := TakeDigits(s);
    if run == "" then None
    else
      var digits := if run[0] == '0' then "0" else run;
      if FloatFollows(s[|digits|..]) then None else Some((DigitsValue(digits), s[|digits|..]))
  }

  function ReadInt(s: string): (r: Option<(int, string)>)
    ensures r.Some? ==> |r.value.1| < |s|
  {
    var negative := s != "" && s[0] == '-';
    match ReadNat(if negative then s[1..] else s)
    case None => None
    case Some((n, rest)) =>
      var value: int := n;
      Some((if negative then -value else value, rest))
  }

  /** What may follow a value inside the text the writer produces. */
  predicate Closes(rest: string) {
    rest == "" || rest[0] == ',' || rest[0] == ']'
  }

  lemma TakeDigitsStops(digits: string, rest: string)
    requires (forall c <- digits :: IsDigit(c)) && (rest == "" || !IsDigit(rest[0]))
    ensures TakeDigits(digits + rest) == digits
  {
    if digits != "" {
      assert (digits + rest)[1..] == digits[1..] + rest;
      TakeDigitsStops(digits[1..], rest);
    }
  }

  lemma NatReads(n: nat, rest: string)
    requires Closes(rest)
    ensures ReadNat(PrintNat(n) + rest) == Some((n, rest))
  {
    var digits := PrintNat(n);
    TakeDigitsStops(digits, rest);
    PrintNatReads(n);
    assert (digits + rest)[|digits|..] == rest;
  }

  lemma IntReads(n: int, rest: string)
    requires Closes(rest)
    ensures ReadInt(PrintInt(n) + rest) == Some((n, rest))
  {
    hide ReadNat;
    if n < 0 {
      NatReads(-n, rest);
      assert (PrintInt(n) + rest)[1..] == PrintNat(-n) + rest;
    } else {
      hide PrintNat;
      NatReads(n, rest);
      assert (PrintInt(n) + rest)[0] == PrintNat(n)[0];
      assert IsDigit(PrintNat(n)[0]);
    }
  }

  // ------------------------------------------------------------ values

  /** `_toml_value` of a leaf; JSON and TOML agree on these. */
  function Print(v: Scalar): string
    decreases v, 1
  {
    match v
    case Bool(b) => if b then "true" else "false"
    case Int(n) => PrintInt(n)
    case Str(s) => Quote(s)
    case List(items) => "[" + PrintItems(items) + "]"
  }

  function PrintItems(items: seq<Scalar>): string
    decreases items, 0
  {
    if items == [] then ""
    else if |items| == 1 then Print(items[0])
    else Print(items[0]) + ", " + PrintItems(items[1..])
  }

  predicate IsJsonSpace(c: char) {
    c == ' ' || c == '\t' || c == '\n' || c == '\r'
  }

  function SkipSpace(s: string): (r: string)
    ensures |r| <= |s| && (r == "" || !IsJsonSpace(r[0]))
  {
    if s != "" && IsJsonSpace(s[0]) then SkipSpace(s[1..]) else s
  }

  function Read(s: string): (r: Option<(Scalar, string)>)
    ensures r.Some? ==> |r.value.1| < |s|
    decreases |s|, 0
  {
    if s == "" then None
    else if s[0] == '"' then
      match ReadString(s[1..])
      case Some((text, rest)) => Some((Str(text), rest))
      case None => None
    else if s[0] == '[' then
      var inner := SkipSpace(s[1..]);
      if inner != "" && inner[0] == ']' then Some((List([]), inner[1..]))
      else
        match ReadItems(inner)
        case Some((items, rest)) => Some((List(items), rest))
        case None => None
    else if "true" <= s then Some((Bool(true), s[4..]))
    else if "false" <= s then Some((Bool(false), s[5..]))
    else
      match ReadInt(s)
      case Some((n, rest)) => Some((Int(n), rest))
      case None => None
  }

  /** The items of an array up to its closing bracket. */
  function ReadItems(s: string): (r: Option<(seq<Scalar>, string)>)
    ensures r.Some? ==> |r.value.1| < |s|
    decreases |s|, 1
  {
    match Read(s)
    case None => None
    case Some((item, after)) =>
      var next := SkipSpace(after);
      if next == "" then None
      else if next[0] == ']' then Some(([item], next[1..]))
      else if next[0] != ',' then None
      else
        match ReadItems(SkipSpace(next[1..]))
        case Some((items, rest)) => Some(([item] + items, rest))
        case None => None
  }

  /** `json.loads`, on the kinds of value modelled here. */
  function Loads(s: string): Option<Scalar> {
    match Read(SkipSpace(s))
    case Some((v, rest)) => if SkipSpace(rest) == "" then Some(v) else None
    case None => None
  }

  lemma PrintIsText(v: Scalar)
    ensures Print(v) != "" && !IsJsonSpace(Print(v)[0]) && Print(v)[0] != ',' && Print(v)[0] != ']'
  {
    match v {
      case Int(n) =>
        var digits := PrintNat(if n < 0 then -n else n);
        assert IsDigit(digits[0]);
      case _ =>
    }
  }

  lemma IntStarts(n: int)
    ensures PrintInt(n) != "" && (IsDigit(PrintInt(n)[0]) || PrintInt(n)[0] == '-')
  {
    hide PrintNat;
    var digits := PrintNat(if n < 0 then -n else n);
    assert IsDigit(digits[0]);
  }

  lemma {:induction false} PrintReads(v: Scalar, rest: string)
    requires Closes(rest)
    ensures Read(Print(v) + rest) == Some((v, rest))
    decreases v, 1
  {
    hide ReadString, ReadInt, Escape, PrintInt, PrintItems, ReadItems, Closes;
    var s := Print(v) + rest;
    match v {
      case Bool(b) =>
        if b {
          assert s[..4] == "true" && s[4..] == rest;
        } else {
          assert s[..5] == "false" && s[5..] == rest;
        }
      case Int(n) =>
        IntReads(n, rest);
        IntStarts(n);
        assert s[0] == PrintInt(n)[0];
      case Str(text) =>
        EscapeReads(text, rest);
        assert s[1..] == Escape(text) + "\"" + rest;
      case List(items) =>
        var inner := PrintItems(items) + "]" + rest;
        assert s[1..] == inner;
        if items == [] {
          NoItems();
          assert inner == "]" + rest;
        } else {
          ItemsStart(items);
          assert inner[0] == PrintItems(items)[0];
          PrintItemsRead(items, rest);
        }
    }
  }

  lemma NoItems()
    ensures PrintItems([]) == ""
  {
  }

  lemma ItemsStart(items: seq<Scalar>)
    requires items != []
    ensures PrintItems(items) != "" && !IsJsonSpace(PrintItems(items)[0]) && PrintItems(items)[0] != ']'
  {
    PrintIsText(items[0]);
    assert PrintItems(items)[0] == Print(items[0])[0];
  }

  lemma SkipOneSpace(s: string)
    requires s == "" || !IsJsonSpace(s[0])
    ensures SkipSpace(s) == s && SkipSpace(" " + s) == s
  {
    assert (" " + s)[1..] == s;
  }

  /** The printed items begin with the first one. */
  lemma PrintItemsStart(items: seq<Scalar>)
    requires items != []
    ensures PrintItems(items) == Print(items[0]) + (if |items| == 1 then "" else ", " + PrintItems(items[1..]))
  {
    hide Print;
  }

  lemma ItemsEnd(s: string, item: Scalar, after: string)
    requires Read(s) == Some((item, after)) && after != "" && after[0] == ']'
    ensures ReadItems(s) == Some(([item], after[1..]))
  {
    hide Read;
  }

  lemma ItemsGoOn(s: string, item: Scalar, after: string, items: seq<Scalar>, rest: string)
    requires Read(s) == Some((item, after)) && after != "" && after[0] == ','
    requires ReadItems(SkipSpace(after[1..])) == Some((items, rest))
    ensures ReadItems(s) == Some(([item] + items, rest))
  {
    hide Read;
  }

  lemma {:induction false} PrintItemsRead(items: seq<Scalar>, rest: string)
    requires items != []
    ensures ReadItems(PrintItems(items) + "]" + rest) == Some((items, rest))
    decreases items, 0
  {
    hide Print, PrintItems, Read, SkipSpace, ReadItems;
    PrintItemsStart(items);
    var s := PrintItems(items) + "]" + rest;
    if |items| == 1 {
      var tail := "]" + rest;
      assert s == Print(items[0]) + tail;
      PrintReads(items[0], tail);
      assert tail[1..] == rest;
      ItemsEnd(s, items[0], tail);
      assert items == [items[0]];
    } else {
      var more := PrintItems(items[1..]) + "]" + rest;
      var tail := ", " + more;
      assert s == Print(items[0]) + tail;
      PrintReads(items[0], tail);
      ItemsStart(items[1..]);
      assert more[0] == PrintItems(items[1..])[0];
      assert tail[1..] == " " + more && (" " + more)[1..] == more;
      SkipOneSpace(more);
      PrintItemsRead(items[1..], rest);
      ItemsGoOn(s, items[0], tail, items[1..], rest);
      assert items == [items[0]] + items[1..];
    }
  }

  lemma PrintLoads(v: Scalar)
    ensures Loads(Print(v)) == Some(v)
  {
    PrintReads(v, "");
    PrintIsText(v);
    assert Print(v) + "" == Print(v);
  }

  // ------------------------------------------------------------ the characters that are written

  lemma EscapeCharPrintable(c: char)
    ensures forall x <- EscapeChar(c) :: IsPrintable(x)
  {
  }

  lemma {:induction false} EscapePrintable(s: string)
    ensures forall x <- Escape(s) :: IsPrintable(x)
  {
    if s != "" {
      EscapeCharPrintable(s[0]);
      EscapePrintable(s[1..]);
    }
  }

  lemma {:induction false} PrintPrintable(v: Scalar)
    ensures forall x <- Print(v) :: IsPrintable(x)
    decreases v, 1
  {
    match v {
      case Str(s) => EscapePrintable(s);
      case List(items) => PrintItemsPrintable(items);
      case _ =>
    }
  }

  lemma {:induction false} PrintItemsPrintable(items: seq<Scalar>)
    ensures forall x <- PrintItems(items) :: IsPrintable(x)
    decreases items, 0
  {
    if items != [] {
      PrintPrintable(items[0]);
      PrintItemsPrintable(items[1..]);
    }
  }
}
