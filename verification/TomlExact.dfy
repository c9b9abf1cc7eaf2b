/**
  The round trip of the configuration is exact: nothing that holds a number
  sign, and no scalar key that holds an equals sign, is ever read back.
*/
module TomlExact {
  import opened Outcomes
  import opened Text
  import opened JsonText
  import opened TomlConfig
  import opened TomlLines
  import opened TomlRoundTrip

  // ------------------------------------------------------------ cut text is not readable

  /** A string body that was cut before its closing quote cannot be read. */
  lemma {:induction false} CutEscapeUnreadable(s: string, p: string)
    requires p <= Escape(s)
    ensures ReadString(p) == None
    decreases |s|
  {
    hide ReadChar, EscapeChar;
    if p != "" {
      var text := EscapeChar(s[0]);
      var whole := text + Escape(s[1..]);
      EscapeCharReads(s[0], "");
      assert p[0] == whole[0] == text[0];
      if |p| < |text| {
        assert p == text[..|p|];
        CutCharUnreadable(s[0], p);
      } else {
        var q := p[|text|..];
        assert p == text + q && q <= Escape(s[1..]);
        EscapeCharReads(s[0], q);
        CutEscapeUnreadable(s[1..], q);
      }
    }
  }

  lemma CutCharUnreadable(c: char, p: string)
    requires p != "" && p < EscapeChar(c)
    ensures p[0] == '\\' && ReadChar(p) == None
  {
    hide Hex4, EscapeChar;
    var n, text := c as int, EscapeChar(c);
    if c in {'"', '\\', '\n', '\r', '\t', '\U{0c}', '\U{08}'} {
      ShortEscapeReads(c, "");
      assert p == "\\";
    } else {
      LongEscape(c);
      if n < 0x10000 {
        FourLong(n);
        assert |p| < 2 || |p[2..]| < 4;
      } else {
        var high, low := 0xD800 + (n - 0x10000) / 0x400, 0xDC00 + (n - 0x10000) % 0x400;
        FourLong(high);
        FourLong(low);
        if |p| >= 6 {
          assert p[2..] == Hex4(high) + p[6..];
          Hex4Reads(high, p[6..]);
          assert |p[2..]| < 6 || |p[2..][6..]| < 4;
        }
      }
    }
  }

  /** An integer that was cut is either unreadable or read to its end. */
  lemma CutIntReadsThrough(n: int, p: string)
    requires p < PrintInt(n)
    ensures ReadInt(p) == None || ReadInt(p).value.1 == ""
  {
    var digits := PrintNat(if n < 0 then -n else n);
    var body := if p != "" && p[0] == '-' then p[1..] else p;
    assert p != "" ==> p[0] == PrintInt(n)[0];
    assert forall c <- body :: c in digits;
    assert forall c <- body :: IsDigit(c);
    TakeDigitsStops(body, "");
    assert body + "" == body;
    if body != "" {
      if n < 0 {
        assert p[0] == '-' && body[0] == p[1] == PrintInt(n)[1] == digits[0];
      } else {
        assert IsDigit(p[0]) && body[0] == p[0] == digits[0];
      }
      assert |digits| > 1;
    }
  }

  /** Nothing that was cut is read and leaves text behind; strings and arrays that were cut are not read at all. */
  lemma {:induction false} CutUnreadable(v: Scalar, p: string)
    requires p < Print(v)
    ensures Read(p) == None || (v.Int? && Read(p).value.1 == "")
    decreases v, 1
  {
    hide PrintInt, PrintItems, Escape, ReadString, ReadInt, ReadItems;
    var s := Print(v);
    if p != "" {
      assert p[0] == s[0];
      match v {
        case Bool(b) => CutWord(b, p);
        case Int(n) =>
          IntStarts(n);
          CutIntReadsThrough(n, p);
        case Str(text) =>
          assert p[1..] <= Escape(text);
          CutEscapeUnreadable(text, p[1..]);
        case List(items) =>
          var q := p[1..];
          assert q < PrintItems(items) + "]" by { assert s[1..] == PrintItems(items) + "]"; }
          CutListUnreadable(items, q);
      }
    }
  }

  lemma CutWord(b: bool, p: string)
    requires p != "" && p < Print(Bool(b))
    ensures Read(p) == None
  {
    assert p[0] == Print(Bool(b))[0];
    assert TakeDigits(p) == "";
  }

  lemma {:induction false} CutListUnreadable(items: seq<Scalar>, q: string)
    requires q < PrintItems(items) + "]"
    ensures SkipSpace(q) == q && (q != "" ==> q[0] != ']') && ReadItems(q) == None
    decreases items, 1
  {
    if items == [] {
      NoItems();
      assert q == "";
    } else {
      ItemsStart(items);
      assert q != "" ==> q[0] == PrintItems(items)[0];
      CutItemsUnreadable(items, q);
    }
  }

  lemma {:induction false} CutItemsUnreadable(items: seq<Scalar>, q: string)
    requires items != [] && q < PrintItems(items) + "]"
    ensures ReadItems(q) == None
    decreases items, 0
  {
    hide Print, PrintItems, Read, SkipSpace, ReadItems;
    PrintItemsStart(items);
    var first := Print(items[0]);
    var whole := PrintItems(items) + "]";
    var tail := if |items| == 1 then "]" else ", " + (PrintItems(items[1..]) + "]");
    assert whole == first + tail;
    if |q| < |first| {
      assert q < first;
      CutUnreadable(items[0], q);
      ItemUnread(q);
    } else {
      var rest := q[|first|..];
      assert q == first + rest && rest < tail;
      assert rest != "" ==> rest[0] == tail[0];
      PrintReads(items[0], rest);
      if |rest| <= 1 {
        ReadNothing();
        SkipOneSpace("");
        assert rest == "" || rest[1..] == "";
      } else {
        var more := rest[2..];
        assert rest[1] == ' ' && more < PrintItems(items[1..]) + "]";
        assert rest[1..][1..] == more;
        ItemsStart(items[1..]);
        assert more != "" ==> more[0] == PrintItems(items[1..])[0];
        assert rest[1..] == " " + more;
        SkipOneSpace(more);
        CutItemsUnreadable(items[1..], more);
      }
      ItemsBreakOff(q, items[0], rest);
    }
  }

  lemma ItemUnread(q: string)
    requires Read(q) == None || Read(q).value.1 == ""
    ensures ReadItems(q) == None
  {
    hide Read;
  }

  lemma ItemsBreakOff(q: string, item: Scalar, after: string)
    requires Read(q) == Some((item, after))
    requires after == "" || (after[0] == ',' && ReadItems(SkipSpace(after[1..])) == None)
    ensures ReadItems(q) == None
  {
    hide Read;
  }

  lemma ReadNothing()
    ensures Read("") == None && ReadItems("") == None
  {
  }

  // ------------------------------------------------------------ what cut keys are read as

  /** The key holds neither of the two characters. */
  predicate PlainKey(key: string) {
    '#' !in key && '=' !in key
  }

  /** A quoted key that was cut is refused, or taken as the raw text it is. */
  lemma CutKeyIsRaw(key: string, p: string)
    requires p < PrintKey(key) && ParseKey(p).Ok?
    ensures ParseKey(p).value == Strip(p)
  {
    hide Read, IsBareChar, SkipSpace;
    if p != "" {
      KeyIsSolid(key);
      assert p[0] == PrintKey(key)[0];
      StripFromRight(p);
      var token := Strip(p);
      assert token != "" && token[0] == p[0];
      if token[0] == '"' {
        assert PrintKey(key) == Quote(key);
        assert token[1..] <= Escape(key);
        CutEscapeUnreadable(key, token[1..]);
        QuotedRead(token);
      }
    }
  }

  lemma QuotedRead(token: string)
    requires token != "" && token[0] == '"' && ReadString(token[1..]) == None
    ensures Loads(token) == None
  {
  }

  /** Cut inside a quoted key, the scanner stays inside it. */
  lemma {:induction false} SplitCutText(s: string, p: string, part: string)
    requires p <= Escape(s)
    ensures SplitFrom(p, part, true, false) == [part + p]
    decreases |s|
  {
    hide SplitFrom, EscapeChar, Hex4;
    if p == "" {
      SplitEnds(part, true, false);
      assert part + p == part;
    } else {
      var text := EscapeChar(s[0]);
      EscapeCharReads(s[0], "");
      if |p| < |text| {
        assert p == text[..|p|];
        SplitCutChar(s[0], p, part);
      } else {
        var q := p[|text|..];
        assert p == text + q && q <= Escape(s[1..]);
        SplitOverChar(s[0], q, part);
        SplitCutText(s[1..], q, part + text);
        assert part + text + q == part + p;
      }
    }
  }

  lemma SplitEnds(part: string, quoted: bool, escaped: bool)
    ensures SplitFrom("", part, quoted, escaped) == [part]
  {
  }

  lemma SplitCutChar(c: char, p: string, part: string)
    requires p != "" && p < EscapeChar(c)
    ensures SplitFrom(p, part, true, false) == [part + p]
  {
    hide EscapeChar, Hex4;
    var n, text := c as int, EscapeChar(c);
    if c in {'"', '\\', '\n', '\r', '\t', '\U{0c}', '\U{08}'} {
      ShortEscapeReads(c, "");
      assert p == "\\";
    } else {
      LongEscape(c);
      if n < 0x10000 {
        FourLong(n);
        HexIsHarmless(n);
      } else {
        FourLong(0xD800 + (n - 0x10000) / 0x400);
        HexIsHarmless(0xD800 + (n - 0x10000) / 0x400);
        HexIsHarmless(0xDC00 + (n - 0x10000) % 0x400);
      }
      if |p| > 1 {
        if |p| <= 6 {
          assert p == "\\" + ['u'] + p[2..] + "";
          assert forall x <- p[2..] :: x in (if n < 0x10000 then Hex4(n) else Hex4(0xD800 + (n - 0x10000) / 0x400));
          SplitEscaped('u', p[2..], "", part);
          SplitEnds(part + ("\\" + ['u'] + p[2..]), true, false);
          assert part + ("\\" + ['u'] + p[2..]) == part + p;
        } else {
          SplitCutPair(n, p, part);
        }
      } else {
        assert p == "\\";
        SplitBackslash(part);
      }
    }
  }

  lemma SplitCutPair(n: nat, p: string, part: string)
    requires 0x10000 <= n < 0x110000 && |p| > 6
    requires p < "\\u" + Hex4(0xD800 + (n - 0x10000) / 0x400) + "\\u" + Hex4(0xDC00 + (n - 0x10000) % 0x400)
    ensures SplitFrom(p, part, true, false) == [part + p]
  {
    hide SplitFrom, Hex4;
    var high, low := Hex4(0xD800 + (n - 0x10000) / 0x400), Hex4(0xDC00 + (n - 0x10000) % 0x400);
    FourLong(0xD800 + (n - 0x10000) / 0x400);
    HexIsHarmless(0xD800 + (n - 0x10000) / 0x400);
    HexIsHarmless(0xDC00 + (n - 0x10000) % 0x400);
    var first, rest := "\\" + ['u'] + high, p[6..];
    assert p == first + rest;
    SplitEscaped('u', high, rest, part);
    SplitCutHalf(low, rest, part + first);
    assert part + first + rest == part + p;
  }

  lemma SplitCutHalf(low: string, rest: string, part: string)
    requires rest != "" && rest <= "\\u" + low && forall c <- low :: c != '\\' && c != '"'
    ensures SplitFrom(rest, part, true, false) == [part + rest]
  {
    hide SplitFrom;
    if |rest| == 1 {
      assert rest == "\\";
      SplitBackslash(part);
    } else {
      assert rest == "\\" + ['u'] + rest[2..] + "";
      assert forall x <- rest[2..] :: x in low;
      SplitEscaped('u', rest[2..], "", part);
      SplitEnds(part + ("\\" + ['u'] + rest[2..]), true, false);
      assert part + ("\\" + ['u'] + rest[2..]) == part + rest;
    }
  }

  lemma SplitBackslash(part: string)
    ensures SplitFrom("\\", part, true, false) == [part + "\\"]
  {
  }

  lemma SplitCutKey(key: string, p: string)
    requires p < PrintKey(key)
    ensures SplitDottedKey(p) == [p]
  {
    KeyIsSolid(key);
    if p == "" {
    } else if PrintKey(key)[0] != '"' {
      assert forall c <- p :: c in key;
      SplitBare(p, "", "");
      assert p + "" == p && "" + p == p;
    } else {
      assert p[0] == '"' && p[1..] <= Escape(key);
      SplitCutText(key, p[1..], "\"");
      assert "" + ['"'] == "\"" && "\"" + p[1..] == p;
    }
  }

  /** The keys read from a dotted key that was cut anywhere hold no number sign that the cut text does not. */
  lemma {:induction false} CutPathKeys(path: seq<string>, q: string)
    requires path != [] && q <= JoinKeys(path) && '#' !in q
    ensures var keys := ParseKeys(SplitDottedKey(q)); keys.Ok? ==> NoHashInPath(keys.value)
    decreases |path|
  {
    hide ParseKey, ParseKeys, PrintKey, SplitFrom, NoHashInPath;
    var first := PrintKey(path[0]);
    KeyReads(path[0]);
    if |q| < |first| {
      assert q < first;
      SplitCutKey(path[0], q);
      OneKey(q);
      if ParseKey(q).Ok? {
        CutKeyIsRaw(path[0], q);
        assert '#' !in ParseKey(q).value by { StripKeeps(q); }
        SingleNoHash(ParseKey(q).value);
      }
    } else {
      var rest := q[|first|..];
      assert q == first + rest;
      assert forall c <- first :: c in q;
      KeyForeign(path[0], '#');
      SplitOverKey(path[0], rest);
      if rest == "" {
        SplitAtDot("", first);
        OneKey(first);
        SingleNoHash(path[0]);
      } else {
        assert |path| > 1;
        var more := rest[1..];
        assert JoinKeys(path) == first + ("." + JoinKeys(path[1..]));
        assert rest == "." + more && more <= JoinKeys(path[1..]);
        SplitAtDot(more, first);
        CutPathKeys(path[1..], more);
        HeadKey(first, SplitDottedKey(more));
      }
    }
  }

  lemma SingleNoHash(key: string)
    ensures NoHashInPath([key]) <==> '#' !in key
  {
    assert [key][0] == key;
  }

  lemma HeadKey(part: string, rest: seq<string>)
    ensures var keys := ParseKeys([part] + rest);
            keys.Ok? ==> ParseKey(part).Ok? && ParseKeys(rest).Ok? && keys.value == [ParseKey(part).value] + ParseKeys(rest).value
                         && (NoHashInPath(keys.value) <==> '#' !in ParseKey(part).value && NoHashInPath(ParseKeys(rest).value))
  {
    hide ParseKey;
    assert ([part] + rest)[1..] == rest;
  }

  lemma OneKey(part: string)
    ensures ParseKeys([part]).Ok? <==> ParseKey(part).Ok?
    ensures ParseKey(part).Ok? ==> ParseKeys([part]) == Ok([ParseKey(part).value])
  {
    assert [part][1..] == [];
    assert ParseKeys([]) == Ok([]);
    if ParseKey(part).Ok? {
      assert [ParseKey(part).value] + [] == [ParseKey(part).value];
    }
  }

  // ------------------------------------------------------------ what never gets into a table

  /** The three things that are kept out, one at a time. */
  datatype Aspect = HashInKey | EqualsInScalarKey | HashInString

  predicate EntryFine(a: Aspect, key: string, v: Value) {
    match a
    case HashInKey => '#' !in key
    case EqualsInScalarKey => v.Leaf? ==> '=' !in key
    case HashInString => v.Leaf? ==> NoHash(v.scalar)
  }

  predicate Fine(t: Table, a: Aspect) {
    match t
    case Empty => true
    case Item(k, v, rest) => EntryFine(a, k, v) && (v.Sub? ==> Fine(v.table, a)) && Fine(rest, a)
  }

  lemma {:induction false} CleanIsFine(t: Table)
    ensures Clean(t) <==> Fine(t, HashInKey) && Fine(t, EqualsInScalarKey) && Fine(t, HashInString)
  {
    match t {
      case Empty =>
      case Item(_, Leaf(_), rest) => CleanIsFine(rest);
      case Item(_, Sub(child), rest) =>
        CleanIsFine(child);
        CleanIsFine(rest);
    }
  }

  lemma {:induction false} AssignFine(t: Table, a: Aspect, key: string, v: Value)
    requires Fine(t, a) && EntryFine(a, key, v) && (v.Sub? ==> Fine(v.table, a))
    ensures Fine(Assign(t, key, v), a)
  {
    if t.Item? && t.key != key {
      AssignFine(t.rest, a, key, v);
    }
  }

  lemma {:induction false} LookupFine(t: Table, a: Aspect, key: string)
    requires Fine(t, a) && Lookup(t, key).Some?
    ensures EntryFine(a, key, Lookup(t, key).value)
    ensures Lookup(t, key).value.Sub? ==> Fine(Lookup(t, key).value.table, a)
  {
    if t.key != key {
      LookupFine(t.rest, a, key);
    }
  }

  lemma {:induction false} EnterFine(t: Table, a: Aspect, path: seq<string>)
    requires Fine(t, a) && (a.HashInKey? ==> NoHashInPath(path)) && Enter(t, path).Ok?
    ensures Fine(Enter(t, path).value, a)
    decreases |path|
  {
    if path != [] {
      match Lookup(t, path[0]) {
        case None =>
          EnterFine(Empty, a, path[1..]);
          AssignFine(t, a, path[0], Sub(Enter(Empty, path[1..]).value));
        case Some(Sub(child)) =>
          LookupFine(t, a, path[0]);
          EnterFine(child, a, path[1..]);
          AssignFine(t, a, path[0], Sub(Enter(child, path[1..]).value));
        case Some(Leaf(_)) =>
      }
    }
  }

  lemma {:induction false} AssignAtFine(t: Table, a: Aspect, path: seq<string>, key: string, v: Scalar)
    requires Fine(t, a) && EntryFine(a, key, Leaf(v)) && AssignAt(t, path, key, Leaf(v)).Ok?
    ensures Fine(AssignAt(t, path, key, Leaf(v)).value, a)
    decreases |path|
  {
    if path == [] {
      AssignFine(t, a, key, Leaf(v));
    } else {
      LookupFine(t, a, path[0]);
      var child := Lookup(t, path[0]).value.table;
      AssignAtFine(child, a, path[1..], key, v);
      AssignFine(t, a, path[0], Sub(AssignAt(child, path[1..], key, Leaf(v)).value));
    }
  }

  // ------------------------------------------------------------ one printed line

  lemma StripFromRight(s: string)
    requires s != "" && !IsSpace(s[0])
    ensures Strip(s) == StripRight(s) && Strip(s) <= s && Strip(s) != "" && Strip(s)[0] == s[0]
  {
    hide Strip, StripRight;
    StripBothSides(s);
    assert StripLeft(s) == s;
    assert StripRight(s) != "" by { KeepsFirst(s); }
  }

  lemma KeepsFirst(s: string)
    requires s != "" && !IsSpace(s[0])
    ensures StripRight(s) != ""
  {
    hide StripRight, IsSpace;
  }

  /** The first visible character of a line survives the cut and the trimming. */
  lemma CutLine(line: string)
    requires Solid(line) && line[0] != '#'
    ensures var x := Strip(Before(line, '#')); x != "" && x <= line && x[0] == line[0] && '#' !in x
    ensures '#' in line ==> Strip(Before(line, '#')) < line
  {
    var cut := Before(line, '#');
    assert cut[0] == line[0];
    StripFromRight(cut);
    if '#' in line {
      assert cut != line;
    }
  }

  lemma {:induction false} BeforeOfPrefix(s: string, p: string, stop: char)
    requires p <= s && stop in p
    ensures Before(p, stop) == Before(s, stop) && Before(p, stop) < p
  {
    assert s[0] == p[0];
    if p[0] != stop {
      assert p == [p[0]] + p[1..];
      BeforeOfPrefix(s[1..], p[1..], stop);
    }
  }

  /** A raw key that begins with a bracket. */
  lemma BracketKeyIsRaw(left: string)
    requires left != "" && left[0] == '['
    ensures ParseKey(left) == Ok(Strip(left))
  {
    StripFromRight(left);
  }

  /** The entry a line assigns when it is neither blank nor a header. */
  lemma AssignmentLine(c: Cursor, rawLine: string, a: Aspect)
    requires Fine(c.root, a)
    requires var x := Strip(Before(rawLine, '#'));
             x != "" && !(x[0] == '[' && x[|x| - 1] == ']')
             && ('=' in x ==> var left := Before(x, '=');
                 ParseKey(left).Ok? ==> EntryFine(a, ParseKey(left).value, Leaf(ParseValue(Strip(x[|left| + 1..])))))
    requires ParseLine(c, rawLine).Ok?
    ensures Fine(ParseLine(c, rawLine).value.root, a)
  {
    hide Strip, ParseKey, ParseValue, AssignAt, EntryFine;
    var x := Strip(Before(rawLine, '#'));
    var left := Before(x, '=');
    AssignAtFine(c.root, a, c.path, ParseKey(left).value, ParseValue(Strip(x[|left| + 1..])));
  }

  lemma HeaderLineFine(c: Cursor, path: seq<string>, a: Aspect)
    requires path != [] && Fine(c.root, a) && (a.HashInString? ==> NoHashInPath(path))
    requires ParseLine(c, HeaderLine(path)).Ok?
    ensures Fine(ParseLine(c, HeaderLine(path)).value.root, a)
  {
    hide Strip, ParseKey, ParseKeys, ParseValue, Enter, AssignAt, SplitDottedKey;
    if NoHashInPath(path) {
      HeaderParses(c, path);
      EnterFine(c.root, a, path);
    } else {
      CutHeaderFine(c, path, a);
    }
  }

  lemma CutHeaderFine(c: Cursor, path: seq<string>, a: Aspect)
    requires path != [] && Fine(c.root, a) && !a.HashInString? && !NoHashInPath(path)
    requires ParseLine(c, HeaderLine(path)).Ok?
    ensures Fine(ParseLine(c, HeaderLine(path)).value.root, a)
  {
    hide Strip, ParseKey, ParseKeys, ParseValue, Enter, AssignAt, SplitDottedKey, Before, JoinKeys, NoHashInPath, Fine;
    var line := HeaderLine(path);
    HeaderIsSolid(path);
    JoinedKeysForeign(path);
    CutLine(line);
    var x := Strip(Before(line, '#'));
    assert '#' in line;
    assert line[1..|line| - 1] == JoinKeys(path);
    if x[|x| - 1] == ']' {
      var inner := x[1..|x| - 1];
      assert inner <= JoinKeys(path);
      CutPathKeys(path, inner);
      EnterFine(c.root, a, ParseKeys(SplitDottedKey(inner)).value);
    } else {
      if '=' in x {
        var left := Before(x, '=');
        BracketKeyIsRaw(left);
        StripKeeps(left);
      }
      AssignmentLine(c, line, a);
    }
  }

  lemma StripKeeps(s: string)
    ensures forall c :: c in Strip(s) ==> c in s
  {
  }

  /** The key a printed scalar line assigns is the printed one, or raw text; it never holds either character. */
  lemma ScalarKeyIsPlain(key: string, v: Scalar, x: string)
    requires x <= ScalarLine(key, v) && '#' !in x && '=' in x && ParseKey(Before(x, '=')).Ok?
    ensures PlainKey(ParseKey(Before(x, '=')).value)
  {
    hide Strip, ParseKey, Print, PrintKey;
    var line := ScalarLine(key, v);
    BeforeOfPrefix(line, x, '=');
    var left := Before(x, '=');
    KeyForeign(key, '=');
    KeyForeign(key, '#');
    if '=' in key {
      BeforeOfPrefix(line, PrintKey(key), '=');
      CutKeyIsRaw(key, left);
      StripKeeps(left);
    } else {
      assert line == PrintKey(key) + " " + ['='] + (" " + Print(v));
      BeforeFirst(PrintKey(key) + " ", '=', " " + Print(v));
      KeyReads(key);
      assert forall c <- PrintKey(key) :: c in left;
    }
  }

  lemma {:induction false} StripRightConcat(a: string, b: string)
    requires StripRight(b) != ""
    ensures StripRight(a + b) == a + StripRight(b)
    decreases |b|
  {
    var whole := a + b;
    assert whole[|whole| - 1] == b[|b| - 1];
    if IsSpace(b[|b| - 1]) {
      assert whole[..|whole| - 1] == a + b[..|b| - 1];
      StripRightConcat(a, b[..|b| - 1]);
    }
  }

  /** A value that was cut inside a string is read as something without a number sign. */
  lemma CutValueIsFine(v: Scalar, p: string)
    requires !NoHash(v) && p < Print(v) && p != "" && '#' !in p && Solid(p)
    ensures NoHash(ParseValue(p))
  {
    hide Read, Print;
    ValueIsSolid(v);
    assert p[0] == Print(v)[0];
    CutUnreadable(v, p);
    assert SkipSpace(p) == p;
  }

  lemma CutInValue(key: string, v: Scalar)
    requires '#' !in key && '=' !in key && !NoHash(v)
    ensures var p := StripRight(Before(Print(v), '#'));
            Strip(Before(ScalarLine(key, v), '#')) == PrintKey(key) + " = " + p
            && Solid(p) && p < Print(v) && '#' !in p
  {
    hide PrintKey, Print, Strip, NoHash;
    var head := PrintKey(key) + " = ";
    KeyIsSolid(key);
    KeyForeign(key, '#');
    PrintForeign(v);
    var p := Before(Print(v), '#');
    BeforeConcat(head, Print(v), '#');
    assert p < Print(v);
    FirstIsVisible(v, p);
    StripFromRight(p);
    StripRightConcat(head, p);
    assert (head + p)[0] == head[0] == PrintKey(key)[0];
    StripFromRight(head + p);
  }

  lemma CutValueLine(key: string, v: Scalar)
    requires '#' !in key && '=' !in key && !NoHash(v)
    ensures var x := Strip(Before(ScalarLine(key, v), '#'));
            '=' in x && Before(x, '=') == PrintKey(key) + " "
            && NoHash(ParseValue(Strip(x[|PrintKey(key)| + 2..])))
  {
    hide PrintKey, Print, ParseValue, Strip, ScalarLine, StripRight;
    var p := StripRight(Before(Print(v), '#'));
    CutInValue(key, v);
    KeyForeign(key, '=');
    var left := PrintKey(key) + " ";
    var x := PrintKey(key) + " = " + p;
    assert x == left + ['='] + (" " + p);
    BeforeFirst(left, '=', " " + p);
    assert x[|PrintKey(key)| + 2..] == " " + p;
    StripSolid(p);
    CutValueIsFine(v, p);
  }

  /** No value begins with the character that cuts. */
  lemma FirstIsVisible(v: Scalar, p: string)
    requires p == Before(Print(v), '#')
    ensures p != "" && !IsSpace(p[0])
  {
    ValueIsSolid(v);
    match v {
      case Int(n) => IntStarts(n);
      case _ =>
    }
  }

  lemma {:induction false} BeforeConcat(a: string, b: string, stop: char)
    requires stop !in a
    ensures Before(a + b, stop) == a + Before(b, stop)
  {
    if a == "" {
      assert a + b == b;
    } else {
      assert (a + b)[1..] == a[1..] + b;
      BeforeConcat(a[1..], b, stop);
    }
  }

  lemma ScalarLineFine(c: Cursor, key: string, v: Scalar, a: Aspect)
    requires Fine(c.root, a) && (a.HashInString? ==> PlainKey(key))
    requires ParseLine(c, ScalarLine(key, v)).Ok?
    ensures Fine(ParseLine(c, ScalarLine(key, v)).value.root, a)
  {
    hide Strip, ParseKey, ParseValue, AssignAt, ScalarLine, PrintKey, Print;
    var line := ScalarLine(key, v);
    ScalarLineIsSolid(key, v);
    KeyIsSolid(key);
    KeyForeign(key, '#');
    if a.HashInString? && NoHash(v) {
      ScalarParses(c, key, v);
      AssignAtFine(c.root, a, c.path, key, v);
    } else {
      assert line[0] != '#' by { VisibleKeyStart(key); }
      CutLine(line);
      var x := Strip(Before(line, '#'));
      if a.HashInString? {
        CutValueLine(key, v);
      } else if '=' in x && ParseKey(Before(x, '=')).Ok? {
        ScalarKeyIsPlain(key, v, x);
      }
      AssignmentLine(c, line, a);
    }
  }

  lemma VisibleKeyStart(key: string)
    ensures PrintKey(key) != "" && PrintKey(key)[0] != '#'
  {
    if key != "" && (forall c <- key :: IsBareChar(c)) {
      assert IsBareChar(key[0]);
    }
  }

  // ------------------------------------------------------------ all printed lines

  /** A line of the writer; `strict` when its keys hold neither of the two characters. */
  ghost predicate IsPrinted(line: string, strict: bool) {
    line == ""
    || (exists path :: path != [] && line == HeaderLine(path) && (strict ==> NoHashInPath(path)))
    || (exists key, v :: line == ScalarLine(key, v) && (strict ==> PlainKey(key)))
  }

  lemma {:induction false} ScalarLinesPrinted(t: Table, strict: bool)
    requires strict ==> Fine(t, HashInKey) && Fine(t, EqualsInScalarKey)
    ensures forall line <- ScalarLines(t) :: IsPrinted(line, strict)
  {
    hide ScalarLine, HeaderLine;
    if t.Item? {
      ScalarLinesPrinted(t.rest, strict);
    }
  }

  lemma {:induction false} TableLinesPrinted(t: Table, path: seq<string>, strict: bool)
    requires strict ==> Fine(t, HashInKey) && Fine(t, EqualsInScalarKey) && NoHashInPath(path)
    ensures forall line <- TableLines(t, path) :: IsPrinted(line, strict)
    decreases t, 1
  {
    hide ScalarLine, HeaderLine;
    ScalarLinesPrinted(t, strict);
    ChildLinesPrinted(t, path, strict);
  }

  lemma {:induction false} ChildLinesPrinted(t: Table, path: seq<string>, strict: bool)
    requires strict ==> Fine(t, HashInKey) && Fine(t, EqualsInScalarKey) && NoHashInPath(path)
    ensures forall line <- ChildLines(t, path) :: IsPrinted(line, strict)
    decreases t, 0
  {
    hide TableLines;
    match t {
      case Empty =>
      case Item(_, Leaf(_), rest) => ChildLinesPrinted(rest, path, strict);
      case Item(k, Sub(child), rest) =>
        TableLinesPrinted(child, path + [k], strict);
        ChildLinesPrinted(rest, path, strict);
    }
  }

  lemma {:induction false} PrintedLinesFine(c: Cursor, lines: seq<string>, a: Aspect)
    requires Fine(c.root, a) && ParseLines(c, lines).Ok?
    requires forall line <- lines :: IsPrinted(line, a.HashInString?)
    ensures Fine(ParseLines(c, lines).value.root, a)
    decreases |lines|
  {
    hide ParseLine, HeaderLine, ScalarLine, Fine;
    if lines != [] {
      var line := lines[0];
      assert IsPrinted(line, a.HashInString?);
      var next := ParseLine(c, line).value;
      if line == "" {
        BlankLineIsNothing(c);
      } else if path :| path != [] && line == HeaderLine(path) && (a.HashInString? ==> NoHashInPath(path)) {
        HeaderLineFine(c, path, a);
      } else {
        var key, v :| line == ScalarLine(key, v) && (a.HashInString? ==> PlainKey(key));
        ScalarLineFine(c, key, v, a);
      }
      assert forall l <- lines[1..] :: l in lines;
      PrintedLinesFine(next, lines[1..], a);
    }
  }

  // ------------------------------------------------------------ the exact condition

  /** A dict that holds every entry of `t` shares what `t` may hold. */
  lemma {:induction false} SharedEntriesFine(t: Table, r: Table, a: Aspect)
    requires Distinct(t) && Fine(r, a)
    requires forall key <- AsDict(t) :: key in AsDict(r) && AsDict(r)[key] == AsDict(t)[key]
    ensures Fine(t, a)
  {
    if t.Item? {
      LookupIsDict(r, t.key);
      LookupIsDict(t.rest, t.key);
      assert t.key in AsDict(t) && AsDict(t)[t.key] == AsNode(t.value);
      LookupFine(r, a, t.key);
      assert forall key <- AsDict(t.rest) :: key in AsDict(t) && AsDict(t)[key] == AsDict(t.rest)[key];
      SharedEntriesFine(t.rest, r, a);
      if t.value.Sub? {
        SharedEntriesFine(t.value.table, Lookup(r, t.key).value.table, a);
      }
    }
  }

  lemma ReadBackIsFine(t: Table, a: Aspect)
    requires Distinct(t) && RoundTrips(t)
    requires a.HashInString? ==> Fine(t, HashInKey) && Fine(t, EqualsInScalarKey)
    ensures Fine(t, a)
  {
    hide TableLines, ParseLine, SplitLines, Dumps;
    TextOfLines(t);
    TableLinesPrinted(t, [], a.HashInString?);
    PrintedLinesFine(Cursor(Empty, []), TableLines(t, []), a);
    SharedEntriesFine(t, Load(Dumps(t)).value, a);
  }

  /**
    Writing a configuration and reading it back gives an equal dict exactly
    when no key and no string holds a number sign and no key of a scalar holds
    an equals sign.
  */
  lemma RoundTripsExactlyWhenClean(t: Table)
    requires Distinct(t)
    ensures RoundTrips(t) <==> Clean(t)
  {
    hide Fine, RoundTrips, Clean;
    CleanIsFine(t);
    if Clean(t) {
      CleanRoundTrips(t);
    }
    if RoundTrips(t) {
      ReadBackIsFine(t, HashInKey);
      ReadBackIsFine(t, EqualsInScalarKey);
      ReadBackIsFine(t, HashInString);
    }
  }
}
