/** Every line the configuration writer prints, read back on its own. */
module TomlLines {
  import opened Outcomes
  import opened Text
  import opened JsonText
  import opened TomlConfig

  // ------------------------------------------------------------ which characters a line holds

  predicate IsLineText(s: string) {
    forall c <- s :: IsPrintable(c)
  }

  /** Text that starts and ends with something visible. */
  predicate Solid(s: string) {
    s != "" && !IsSpace(s[0]) && !IsSpace(s[|s| - 1])
  }

  lemma KeyIsSolid(key: string)
    ensures Solid(PrintKey(key)) && IsLineText(PrintKey(key))
    ensures PrintKey(key)[0] != '[' && PrintKey(key)[0] != '\''
    ensures PrintKey(key)[0] == '"' <==> PrintKey(key) == Quote(key)
    ensures PrintKey(key)[0] != '"' ==> PrintKey(key) == key
  {
    if PrintKey(key) == key && key != "" && (forall c <- key :: IsBareChar(c)) {
      assert IsBareChar(key[0]) && IsBareChar(key[|key| - 1]);
    } else {
      EscapePrintable(key);
    }
  }

  lemma NatIsSolid(n: nat)
    ensures Solid(PrintNat(n)) && IsLineText(PrintNat(n))
  {
    var s := PrintNat(n);
    assert IsDigit(s[0]) && IsDigit(s[|s| - 1]);
  }

  lemma ValueIsSolid(v: Scalar)
    ensures Solid(Print(v)) && IsLineText(Print(v))
  {
    PrintPrintable(v);
    match v {
      case Int(n) => NatIsSolid(if n < 0 then -n else n);
      case _ =>
    }
  }

  lemma {:induction false} JoinedKeysAreText(path: seq<string>)
    ensures IsLineText(JoinKeys(path))
  {
    if path != [] {
      KeyIsSolid(path[0]);
      JoinedKeysAreText(path[1..]);
    }
  }

  lemma HeaderIsSolid(path: seq<string>)
    ensures Solid(HeaderLine(path)) && IsLineText(HeaderLine(path))
  {
    JoinedKeysAreText(path);
  }

  lemma ScalarLineIsSolid(key: string, v: Scalar)
    ensures Solid(ScalarLine(key, v)) && IsLineText(ScalarLine(key, v))
    ensures ScalarLine(key, v)[0] == PrintKey(key)[0]
  {
    KeyIsSolid(key);
    ValueIsSolid(v);
    var line := ScalarLine(key, v);
    assert line[|line| - 1] == Print(v)[|Print(v)| - 1];
  }

  // ------------------------------------------------------------ a character that is not in the data is not in the text

  /** Characters the escapes never introduce. */
  predicate IsForeign(stop: char) {
    stop == '#' || stop == '='
  }

  lemma HexIsNotForeign(n: nat, stop: char)
    requires n < 0x10000 && IsForeign(stop)
    ensures stop !in Hex4(n)
  {
  }

  lemma EscapeCharForeign(c: char, stop: char)
    requires IsForeign(stop)
    ensures stop in EscapeChar(c) <==> c == stop
  {
    hide Hex4;
    var n := c as int;
    if n < 0x10000 {
      HexIsNotForeign(n, stop);
    } else {
      HexIsNotForeign(0xD800 + (n - 0x10000) / 0x400, stop);
      HexIsNotForeign(0xDC00 + (n - 0x10000) % 0x400, stop);
    }
  }

  lemma {:induction false} EscapeForeign(s: string, stop: char)
    requires IsForeign(stop)
    ensures stop in Escape(s) <==> stop in s
  {
    if s != "" {
      EscapeCharForeign(s[0], stop);
      EscapeForeign(s[1..], stop);
      assert s == [s[0]] + s[1..];
    }
  }

  lemma KeyForeign(key: string, stop: char)
    requires IsForeign(stop)
    ensures stop in PrintKey(key) <==> stop in key
  {
    EscapeForeign(key, stop);
  }

  predicate NoHash(v: Scalar)
    decreases v
  {
    match v
    case Str(s) => '#' !in s
    case List(items) => forall item <- items :: NoHash(item)
    case _ => true
  }

  lemma NatForeign(n: nat)
    ensures '#' !in PrintNat(n)
  {
    assert forall c <- PrintNat(n) :: IsDigit(c);
  }

  lemma {:induction false} PrintForeign(v: Scalar)
    ensures '#' in Print(v) <==> !NoHash(v)
    decreases v, 1
  {
    match v {
      case Bool(_) =>
      case Int(n) => NatForeign(if n < 0 then -n else n);
      case Str(s) => EscapeForeign(s, '#');
      case List(items) => PrintItemsForeign(items);
    }
  }

  lemma {:induction false} PrintItemsForeign(items: seq<Scalar>)
    ensures '#' in PrintItems(items) <==> exists item <- items :: !NoHash(item)
    decreases items, 0
  {
    if items != [] {
      PrintForeign(items[0]);
      PrintItemsForeign(items[1..]);
      assert items == [items[0]] + items[1..];
    }
  }

  predicate NoHashInPath(path: seq<string>) {
    forall key <- path :: '#' !in key
  }

  lemma {:induction false} JoinedKeysForeign(path: seq<string>)
    ensures '#' !in JoinKeys(path) <==> NoHashInPath(path)
  {
    if path != [] {
      KeyForeign(path[0], '#');
      JoinedKeysForeign(path[1..]);
      assert path == [path[0]] + path[1..];
    }
  }

  // ------------------------------------------------------------ cutting and trimming

  lemma {:induction false} BeforeNothing(s: string, stop: char)
    requires stop !in s
    ensures Before(s, stop) == s
  {
    if s != "" {
      BeforeNothing(s[1..], stop);
    }
  }

  lemma {:induction false} BeforeFirst(s: string, stop: char, rest: string)
    requires stop !in s
    ensures Before(s + [stop] + rest, stop) == s
  {
    var whole := s + [stop] + rest;
    if s != "" {
      assert whole[1..] == s[1..] + [stop] + rest;
      BeforeFirst(s[1..], stop, rest);
    }
  }

  lemma StripSolid(s: string)
    requires Solid(s)
    ensures Strip(s) == s && Strip(s + " ") == s && Strip(" " + s) == s
  {
    StripIdentity(s);
    assert (" " + s)[1..] == s;
    assert (s + " ")[..|s|] == s;
  }

  // ------------------------------------------------------------ keys

  /** The printed key, read by the key parser, is the key. */
  lemma KeyReads(key: string)
    ensures ParseKey(PrintKey(key)) == Ok(key) && ParseKey(PrintKey(key) + " ") == Ok(key)
  {
    hide Loads, Strip;
    KeyIsSolid(key);
    StripSolid(PrintKey(key));
    PrintLoads(Str(key));
  }

  lemma SplitPlain(c: char, rest: string, part: string, quoted: bool)
    requires c != '\\' && c != '"' && (c != '.' || quoted)
    ensures SplitFrom([c] + rest, part, quoted, false) == SplitFrom(rest, part + [c], quoted, false)
  {
    assert ([c] + rest)[1..] == rest;
  }

  lemma {:induction false} SplitBare(key: string, rest: string, part: string)
    requires forall c <- key :: IsBareChar(c)
    ensures SplitFrom(key + rest, part, false, false) == SplitFrom(rest, part + key, false, false)
  {
    if key == "" {
      assert key + rest == rest && part + key == part;
    } else {
      assert IsBareChar(key[0]);
      assert key + rest == [key[0]] + (key[1..] + rest);
      SplitPlain(key[0], key[1..] + rest, part, false);
      SplitBare(key[1..], rest, part + [key[0]]);
      assert part + [key[0]] + key[1..] == part + key;
    }
  }

  /** An escaped character: a backslash, one protected character, and harmless ones after it. */
  lemma SplitEscaped(second: char, tail: string, rest: string, part: string)
    requires forall c <- tail :: c != '\\' && c != '"'
    ensures SplitFrom("\\" + [second] + tail + rest, part, true, false)
         == SplitFrom(rest, part + ("\\" + [second] + tail), true, false)
  {
    var whole := "\\" + [second] + tail + rest;
    assert whole[0] == '\\' && whole[1..] == [second] + (tail + rest);
    assert ([second] + (tail + rest))[1..] == tail + rest;
    SplitInside(tail, rest, part + ['\\'] + [second]);
    assert part + ['\\'] + [second] + tail == part + ("\\" + [second] + tail);
  }

  lemma {:induction false} SplitInside(text: string, rest: string, part: string)
    requires forall c <- text :: c != '\\' && c != '"'
    ensures SplitFrom(text + rest, part, true, false) == SplitFrom(rest, part + text, true, false)
  {
    if text == "" {
      assert text + rest == rest && part + text == part;
    } else {
      assert text[0] in text && forall c <- text[1..] :: c in text;
      assert text + rest == [text[0]] + (text[1..] + rest);
      SplitPlain(text[0], text[1..] + rest, part, true);
      SplitInside(text[1..], rest, part + [text[0]]);
      assert part + [text[0]] + text[1..] == part + text;
    }
  }

  lemma HexIsHarmless(n: nat)
    requires n < 0x10000
    ensures forall c <- Hex4(n) :: c != '\\' && c != '"'
  {
  }

  lemma SplitOverChar(c: char, rest: string, part: string)
    ensures SplitFrom(EscapeChar(c) + rest, part, true, false) == SplitFrom(rest, part + EscapeChar(c), true, false)
  {
    hide SplitFrom, EscapeChar, Hex4;
    var n, text := c as int, EscapeChar(c);
    if c in {'"', '\\', '\n', '\r', '\t', '\U{0c}', '\U{08}'} {
      ShortEscapeReads(c, rest);
      assert text == "\\" + [text[1]] + "";
      SplitEscaped(text[1], "", rest, part);
    } else {
      LongEscape(c);
      if IsPrintable(c) {
        SplitInside(text, rest, part);
      } else if n < 0x10000 {
        HexIsHarmless(n);
        assert text == "\\" + ['u'] + Hex4(n);
        SplitEscaped('u', Hex4(n), rest, part);
      } else {
        var high, low := Hex4(0xD800 + (n - 0x10000) / 0x400), Hex4(0xDC00 + (n - 0x10000) % 0x400);
        HexIsHarmless(0xD800 + (n - 0x10000) / 0x400);
        HexIsHarmless(0xDC00 + (n - 0x10000) % 0x400);
        var first, second := "\\" + ['u'] + high, "\\" + ['u'] + low;
        assert text == first + second;
        assert text + rest == first + (second + rest);
        SplitEscaped('u', high, second + rest, part);
        SplitEscaped('u', low, rest, part + first);
        assert part + first + second == part + text;
      }
    }
  }

  lemma {:induction false} SplitOverText(s: string, rest: string, part: string)
    ensures SplitFrom(Escape(s) + rest, part, true, false) == SplitFrom(rest, part + Escape(s), true, false)
  {
    hide SplitFrom;
    if s == "" {
      assert Escape(s) + rest == rest && part + Escape(s) == part;
    } else {
      assert Escape(s) + rest == EscapeChar(s[0]) + (Escape(s[1..]) + rest);
      SplitOverChar(s[0], Escape(s[1..]) + rest, part);
      SplitOverText(s[1..], rest, part + EscapeChar(s[0]));
      assert part + EscapeChar(s[0]) + Escape(s[1..]) == part + Escape(s);
    }
  }

  /** The scanner passes over a printed key, quoted or not, without splitting it. */
  lemma SplitOverKey(key: string, rest: string)
    ensures SplitFrom(PrintKey(key) + rest, "", false, false) == SplitFrom(rest, PrintKey(key), false, false)
  {
    if PrintKey(key) == key && (forall c <- key :: IsBareChar(c)) {
      SplitBare(key, rest, "");
      assert "" + key == key;
    } else {
      var whole := PrintKey(key) + rest;
      assert whole[0] == '"' && whole[1..] == Escape(key) + ("\"" + rest);
      SplitOverText(key, "\"" + rest, "\"");
      assert ("\"" + rest)[1..] == rest;
      assert "" + ['"'] == "\"";
    }
  }

  function PrintKeys(path: seq<string>): seq<string> {
    if path == [] then [] else [PrintKey(path[0])] + PrintKeys(path[1..])
  }

  lemma SplitAtDot(rest: string, part: string)
    ensures SplitFrom("." + rest, part, false, false) == [part] + SplitFrom(rest, "", false, false)
    ensures SplitFrom("", part, false, false) == [part]
  {
    assert ("." + rest)[1..] == rest;
  }

  /** Splitting a dotted key gives back exactly the keys it was joined from, dots and quotes in them included. */
  lemma {:induction false} SplitInvertsJoin(path: seq<string>)
    requires path != []
    ensures SplitDottedKey(JoinKeys(path)) == PrintKeys(path)
    ensures ParseKeys(SplitDottedKey(JoinKeys(path))) == Ok(path)
  {
    hide SplitFrom, PrintKey, ParseKey;
    var first := PrintKey(path[0]);
    KeyReads(path[0]);
    if |path| == 1 {
      SplitOverKey(path[0], "");
      SplitAtDot("", first);
      assert first + "" == first && [first][1..] == [];
      assert [path[0]] + [] == path;
    } else {
      var more := JoinKeys(path[1..]);
      SplitOverKey(path[0], "." + more);
      assert JoinKeys(path) == first + ("." + more);
      SplitAtDot(more, first);
      SplitInvertsJoin(path[1..]);
      assert ([first] + PrintKeys(path[1..]))[1..] == PrintKeys(path[1..]);
      assert path == [path[0]] + path[1..];
    }
  }

  // ------------------------------------------------------------ values

  lemma ValueReads(v: Scalar)
    ensures ParseValue(Print(v)) == v
  {
    PrintLoads(v);
    var s := Print(v);
    match v {
      case Bool(b) => LowerWord(s);
      case Int(n) =>
        IntStarts(n);
        assert Lower(s)[0] == LowerChar(s[0]);
      case _ => assert Lower(s)[0] == LowerChar(s[0]);
    }
  }

  lemma LowerWord(s: string)
    requires s == "true" || s == "false"
    ensures Lower(s) == s
  {
    assert forall i :: 0 <= i < |s| ==> Lower(s)[i] == s[i];
  }

  // ------------------------------------------------------------ lines

  /** The cursor on a table of the new root, unless there is none. */
  function PointAt(root: Result<Table>, path: seq<string>): Result<Cursor> {
    var table :- root;
    Ok(Cursor(table, path))
  }

  /** A header line moves the cursor to its table. */
  lemma HeaderParses(c: Cursor, path: seq<string>)
    requires path != [] && NoHashInPath(path)
    ensures ParseLine(c, HeaderLine(path)) == PointAt(Enter(c.root, path), path)
  {
    hide Strip, SplitDottedKey, ParseKeys, Enter;
    var line := HeaderLine(path);
    HeaderIsSolid(path);
    JoinedKeysForeign(path);
    BeforeNothing(line, '#');
    StripSolid(line);
    assert line[1..|line| - 1] == JoinKeys(path);
    SplitInvertsJoin(path);
  }

  lemma ScalarLineCut(key: string, v: Scalar)
    requires '#' !in key && '=' !in key && NoHash(v)
    ensures var line := ScalarLine(key, v);
            Strip(Before(line, '#')) == line && line[0] != '[' && '=' in line
            && Before(line, '=') == PrintKey(key) + " "
            && Strip(line[|PrintKey(key)| + 2..]) == Print(v)
  {
    hide Strip, PrintKey, Print, Before, NoHash, IsLineText;
    var line := ScalarLine(key, v);
    ScalarLineIsSolid(key, v);
    KeyIsSolid(key);
    ValueIsSolid(v);
    KeyForeign(key, '#');
    KeyForeign(key, '=');
    PrintForeign(v);
    BeforeNothing(line, '#');
    StripSolid(line);
    var left := PrintKey(key) + " ";
    assert line == left + ['='] + (" " + Print(v));
    BeforeFirst(left, '=', " " + Print(v));
    assert line[|left|] == '=' && line[|left| + 1..] == " " + Print(v);
    StripSolid(Print(v));
  }

  /** A scalar line assigns its value in the current table. */
  lemma ScalarParses(c: Cursor, key: string, v: Scalar)
    requires '#' !in key && '=' !in key && NoHash(v)
    ensures ParseLine(c, ScalarLine(key, v)) == PointAt(AssignAt(c.root, c.path, key, Leaf(v)), c.path)
  {
    hide Strip, AssignAt, ParseKey, ParseValue, PrintKey, Print, ScalarLine, Before;
    ScalarLineCut(key, v);
    KeyReads(key);
    ValueReads(v);
  }
}
