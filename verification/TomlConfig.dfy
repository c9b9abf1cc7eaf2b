/**
  The configuration writer and the compatibility parser that reads it back
  (src/agent_bridge_connect/config.py:248-271, 345-407, 463-489).

  A Python dict is an ordered association list here: insertion order is what
  the writer walks, and assigning to a key that exists keeps its place.
*/
module TomlConfig {
  import opened Outcomes
  import opened Text
  import opened JsonText

  datatype Value = Leaf(scalar: Scalar) | Sub(table: Table)

  datatype Table = Empty | Item(key: string, value: Value, rest: Table)

  function Lookup(t: Table, key: string): Option<Value> {
    match t
    case Empty => None
    case Item(k, v, rest) => if k == key then Some(v) else Lookup(rest, key)
  }

  /** `t[key] = value` */
  function Assign(t: Table, key: string, value: Value): Table {
    match t
    case Empty => Item(key, value, Empty)
    case Item(k, v, rest) => if k == key then Item(k, value, rest) else Item(k, v, Assign(rest, key, value))
  }

  function Concat(a: Table, b: Table): Table {
    match a
    case Empty => b
    case Item(k, v, rest) => Item(k, v, Concat(rest, b))
  }

  /** A Python dict has no key twice, at any level. */
  ghost predicate Distinct(t: Table) {
    match t
    case Empty => true
    case Item(k, v, rest) => Lookup(rest, k) == None && (v.Sub? ==> Distinct(v.table)) && Distinct(rest)
  }

  // ------------------------------------------------------------ writing

  predicate IsBareChar(c: char) {
    IsAlphanumeric(c) || c == '_' || c == '-'
  }

  /** `_toml_key` */
  function PrintKey(key: string): string {
    if key != "" && forall c <- key :: IsBareChar(c) then key else Quote(key)
  }

  function JoinKeys(path: seq<string>): string {
    if path == [] then ""
    else if |path| == 1 then PrintKey(path[0])
    else PrintKey(path[0]) + "." + JoinKeys(path[1..])
  }

  function HeaderLine(path: seq<string>): string {
    "[" + JoinKeys(path) + "]"
  }

  function ScalarLine(key: string, v: Scalar): string {
    PrintKey(key) + " = " + Print(v)
  }

  function ScalarLines(t: Table): seq<string> {
    match t
    case Empty => []
    case Item(k, Leaf(v), rest) => [ScalarLine(k, v)] + ScalarLines(rest)
    case Item(_, Sub(_), rest) => ScalarLines(rest)
  }

  predicate HasChildren(t: Table) {
    match t
    case Empty => false
    case Item(_, v, rest) => v.Sub? || HasChildren(rest)
  }

  /** The lines of one table: header, scalars, a blank line between the two kinds, then the child tables. */
  function TableLines(t: Table, path: seq<string>): seq<string>
    decreases t, 1
  {
    (if path == [] then [] else [HeaderLine(path)])
    + ScalarLines(t)
    + (if ScalarLines(t) != [] && HasChildren(t) then [""] else [])
    + ChildLines(t, path)
  }

  function ChildLines(t: Table, path: seq<string>): seq<string>
    decreases t, 0
  {
    match t
    case Empty => []
    case Item(_, Leaf(_), rest) => ChildLines(rest, path)
    case Item(k, Sub(child), rest) =>
      TableLines(child, path + [k]) + (if HasChildren(rest) then [""] else []) + ChildLines(rest, path)
  }

  function JoinLines(lines: seq<string>): string {
    if lines == [] then ""
    else if |lines| == 1 then lines[0]
    else lines[0] + "\n" + JoinLines(lines[1..])
  }

  /** `toml_dumps` */
  function Dumps(t: Table): string {
    StripRight(JoinLines(TableLines(t, []))) + "\n"
  }

  /** The scalar loop of `write_table`. */
  method WriteScalars(t: Table, written: seq<string>) returns (lines: seq<string>)
    ensures lines == written + ScalarLines(t)
  {
    lines := written;
    var rest := t;
    while rest.Item?
      invariant lines + ScalarLines(rest) == written + ScalarLines(t)
      decreases rest
    {
      if rest.value.Leaf? {
        lines := lines + [ScalarLine(rest.key, rest.value.scalar)];
      }
      rest := rest.rest;
    }
  }

  /** The child loop of `write_table`. */
  method WriteChildren(t: Table, path: seq<string>, written: seq<string>) returns (lines: seq<string>)
    ensures lines == written + ChildLines(t, path)
    decreases t, 0
  {
    hide TableLines;
    lines := written;
    var rest := t;
    while rest.Item?
      invariant rest == t || rest < t
      invariant lines + ChildLines(rest, path) == written + ChildLines(t, path)
      decreases rest
    {
      if rest.value.Sub? {
        lines := WriteTable(rest.value.table, path + [rest.key], lines);
        if HasChildren(rest.rest) {
          lines := lines + [""];
        }
      }
      rest := rest.rest;
    }
  }

  /** `write_table`, appending to the lines written so far. */
  method WriteTable(t: Table, path: seq<string>, written: seq<string>) returns (lines: seq<string>)
    ensures lines == written + TableLines(t, path)
    decreases t, 1
  {
    hide ScalarLines, ChildLines;
    lines := if path == [] then written else written + [HeaderLine(path)];
    var start := |lines|;
    lines := WriteScalars(t, lines);
    if |lines| > start && HasChildren(t) {
      lines := lines + [""];
    }
    lines := WriteChildren(t, path, lines);
  }

  method WriteConfig(t: Table) returns (text: string)
    ensures text == Dumps(t)
  {
    var lines := WriteTable(t, [], []);
    assert lines == TableLines(t, []);
    text := StripRight(JoinLines(lines)) + "\n";
  }

  // ------------------------------------------------------------ reading: text to lines

  /** The line boundaries of `str.splitlines`. */
  predicate IsLineBreak(c: char) {
    '\n' <= c <= '\r' || '\U{1c}' <= c <= '\U{1e}' || c == '\U{85}' || c == '\U{2028}' || c == '\U{2029}'
  }

  /** Everything before the first line boundary. */
  function FirstLine(text: string): (r: string)
    ensures |r| <= |text| && r == text[..|r|]
    ensures |r| < |text| ==> IsLineBreak(text[|r|])
  {
    if text == "" || IsLineBreak(text[0]) then "" else [text[0]] + FirstLine(text[1..])
  }

  /** `str.splitlines`: a carriage return and the line feed behind it are one boundary. */
  function SplitLines(text: string): seq<string>
    decreases |text|
  {
    if text == "" then []
    else
      var line := FirstLine(text);
      if |line| == |text| then [line]
      else
        var skip := if text[|line|] == '\r' && |line| + 1 < |text| && text[|line| + 1] == '\n' then 2 else 1;
        [line] + SplitLines(text[|line| + skip..])
  }

  /** The text before the first `stop`, or all of it. */
  function Before(s: string, stop: char): (r: string)
    ensures |r| <= |s| && r == s[..|r|] && stop !in r
    ensures |r| < |s| ==> s[|r|] == stop
  {
    if s == "" || s[0] == stop then "" else [s[0]] + Before(s[1..], stop)
  }

  // ------------------------------------------------------------ reading: keys and values

  /** `_split_toml_dotted_key`, one character at a time: the part so far, and the two flags. */
  function SplitFrom(s: string, part: string, quoted: bool, escaped: bool): seq<string> {
    if s == "" then [part]
    else
      var c := s[0];
      if escaped then SplitFrom(s[1..], part + [c], quoted, false)
      else if quoted && c == '\\' then SplitFrom(s[1..], part + [c], quoted, true)
      else if c == '"' then SplitFrom(s[1..], part + [c], !quoted, false)
      else if c == '.' && !quoted then [part] + SplitFrom(s[1..], "", quoted, false)
      else SplitFrom(s[1..], part + [c], quoted, false)
  }

  function SplitDottedKey(s: string): seq<string> {
    SplitFrom(s, "", false, false)
  }

  /** The scanner itself: an index, the start of the current part, and the two flags. */
  method ScanDottedKey(value: string) returns (parts: seq<string>)
    ensures parts == SplitDottedKey(value)
  {
    parts := [];
    var start, quoted, escaped := 0, false, false;
    for index := 0 to |value|
      invariant 0 <= start <= index
      invariant parts + SplitFrom(value[index..], value[start..index], quoted, escaped) == SplitDottedKey(value)
    {
      var character := value[index];
      assert value[index..][0] == character && value[index..][1..] == value[index + 1..];
      assert value[start..index] + [character] == value[start..index + 1];
      assert value[index + 1..index + 1] == "";
      ghost var later := SplitFrom(value[index + 1..], "", false, false);
      assert parts + ([value[start..index]] + later) == parts + [value[start..index]] + later;
      if escaped {
        escaped := false;
      } else if quoted && character == '\\' {
        escaped := true;
      } else if character == '"' {
        quoted := !quoted;
      } else if character == '.' && !quoted {
        parts := parts + [value[start..index]];
        start := index + 1;
      }
    }
    assert value[|value|..] == "" && value[start..|value|] == value[start..];
    parts := parts + [value[start..]];
  }

  /** `_parse_toml_key`: an error is the exception of an unreadable quoted key. */
  function ParseKey(value: string): Result<string> {
    var token := Strip(value);
    if |token| >= 2 && token[0] == '\'' && token[|token| - 1] == '\'' then Ok(token[1..|token| - 1])
    else if token != "" && token[0] == '"' && token[|token| - 1] == '"' then
      match Loads(token)
      case Some(Str(key)) => Ok(key)
      case Some(_) => Ok(token)
      case None => Err("JSONDecodeError")
    else Ok(token)
  }

  function ParseKeys(parts: seq<string>): Result<seq<string>> {
    if parts == [] then Ok([])
    else
      var key :- ParseKey(parts[0]);
      var keys :- ParseKeys(parts[1..]);
      Ok([key] + keys)
  }

  function WithoutUnderscores(s: string): (r: string)
    ensures forall c <- r :: c in s && c != '_'
  {
    if s == "" then "" else (if s[0] == '_' then "" else [s[0]]) + WithoutUnderscores(s[1..])
  }

  /** `int` of a stripped text: a sign, and digits that single underscores may separate. */
  function PythonInt(s: string): Option<int> {
    var signed := s != "" && s[0] in {'+', '-'};
    var body := if signed then s[1..] else s;
    if body == "" || body[0] == '_' || body[|body| - 1] == '_'
       || (exists c <- body :: !IsDigit(c) && c != '_')
       || (exists i :: 0 < i < |body| && body[i - 1] == '_' && body[i] == '_')
    then None
    else
      var value: int := DigitsValue(WithoutUnderscores(body));
      Some(if signed && s[0] == '-' then -value else value)
  }

  /** `_parse_toml_value` */
  function ParseValue(value: string): Scalar {
    if Lower(value) == "true" || Lower(value) == "false" then Bool(Lower(value) == "true")
    else if |value| >= 2 && value[0] == '\'' && value[|value| - 1] == '\'' then Str(value[1..|value| - 1])
    else
      match Loads(value)
      case Some(v) => v
      case None =>
        match PythonInt(value)
        case Some(n) => Int(n)
        case None => Str(value)
  }

  // ------------------------------------------------------------ reading: lines to tables

  /** The dict under construction, and the path from its root to the table that `current` refers to. */
  datatype Cursor = Cursor(root: Table, path: seq<string>)

  /** Following `setdefault(key, {})` along a path. */
  function Enter(t: Table, path: seq<string>): Result<Table>
    decreases |path|
  {
    if path == [] then Ok(t)
    else
      match Lookup(t, path[0])
      case None =>
        var inner :- Enter(Empty, path[1..]);
        Ok(Assign(t, path[0], Sub(inner)))
      case Some(Sub(child)) =>
        var inner :- Enter(child, path[1..]);
        Ok(Assign(t, path[0], Sub(inner)))
      case Some(Leaf(_)) => if |path| == 1 then Ok(t) else Err("AttributeError")
  }

  /** Assigning a key in the table at a path; anything but a table there refuses the assignment. */
  function AssignAt(t: Table, path: seq<string>, key: string, value: Value): Result<Table>
    decreases |path|
  {
    if path == [] then Ok(Assign(t, key, value))
    else
      match Lookup(t, path[0])
      case Some(Sub(child)) =>
        var inner :- AssignAt(child, path[1..], key, value);
        Ok(Assign(t, path[0], Sub(inner)))
      case _ => Err("TypeError")
  }

  function ParseLine(c: Cursor, rawLine: string): Result<Cursor> {
    var line := Strip(Before(rawLine, '#'));
    if line == "" then Ok(c)
    else if line[0] == '[' && line[|line| - 1] == ']' then
      var path :- ParseKeys(SplitDottedKey(line[1..|line| - 1]));
      var root :- Enter(c.root, path);
      Ok(Cursor(root, path))
    else if '=' !in line then Err("ValueError")
    else
      var left := Before(line, '=');
      var key :- ParseKey(left);
      var root :- AssignAt(c.root, c.path, key, Leaf(ParseValue(Strip(line[|left| + 1..]))));
      Ok(Cursor(root, c.path))
  }

  function ParseLines(c: Cursor, lines: seq<string>): Result<Cursor>
    decreases |lines|
  {
    if lines == [] then Ok(c)
    else
      var next :- ParseLine(c, lines[0]);
      ParseLines(next, lines[1..])
  }

  /** `_load_toml_compat` */
  function Load(text: string): Result<Table> {
    var cursor :- ParseLines(Cursor(Empty, []), SplitLines(text));
    Ok(cursor.root)
  }

  method LoadConfig(text: string) returns (outcome: Result<Table>)
    ensures outcome == Load(text)
  {
    var lines := SplitLines(text);
    var cursor := Cursor(Empty, []);
    for i := 0 to |lines|
      invariant ParseLines(Cursor(Empty, []), lines) == ParseLines(cursor, lines[i..])
    {
      var next := ParseLine(cursor, lines[i]);
      assert lines[i..][1..] == lines[i + 1..];
      if next.Err? {
        return Err(next.code);
      }
      cursor := next.value;
    }
    outcome := Ok(cursor.root);
  }
}
