/** Reading back a whole printed configuration: when it works, and exactly when. */
module TomlRoundTrip {
  import opened Outcomes
  import opened Text
  import opened JsonText
  import opened TomlConfig
  import opened TomlLines

  // ------------------------------------------------------------ the condition

  /** No number sign in a key or a string, and no equals sign in the key of a scalar. */
  predicate Clean(t: Table) {
    match t
    case Empty => true
    case Item(k, Leaf(v), rest) => '#' !in k && '=' !in k && NoHash(v) && Clean(rest)
    case Item(k, Sub(child), rest) => '#' !in k && Clean(child) && Clean(rest)
  }

  // ------------------------------------------------------------ what a dict means

  datatype Node = Plain(scalar: Scalar) | Nested(entries: map<string, Node>)

  /** The Python dict a table stands for: order forgotten, at every level. */
  function AsDict(t: Table): map<string, Node> {
    match t
    case Empty => map[]
    case Item(k, v, rest) => AsDict(rest)[k := AsNode(v)]
  }

  function AsNode(v: Value): Node {
    match v
    case Leaf(s) => Plain(s)
    case Sub(t) => Nested(AsDict(t))
  }

  /** Reading back what was written gives an equal dict. */
  predicate RoundTrips(t: Table) {
    var read := Load(Dumps(t));
    read.Ok? && AsDict(read.value) == AsDict(t)
  }

  // ------------------------------------------------------------ the order of writing

  /** The scalars of a table, in order. */
  function Scalars(t: Table): Table {
    match t
    case Empty => Empty
    case Item(k, Leaf(v), rest) => Item(k, Leaf(v), Scalars(rest))
    case Item(_, Sub(_), rest) => Scalars(rest)
  }

  /** The child tables, in order, each rearranged like its parent. */
  function Children(t: Table): Table
    decreases t, 0
  {
    match t
    case Empty => Empty
    case Item(_, Leaf(_), rest) => Children(rest)
    case Item(k, Sub(child), rest) => Item(k, Sub(Rearranged(child)), Children(rest))
  }

  /** Scalars first, at every level: the order the writer prints. */
  function Rearranged(t: Table): Table
    decreases t, 1
  {
    Concat(Scalars(t), Children(t))
  }

  lemma {:induction false} LookupIsDict(t: Table, key: string)
    ensures key in AsDict(t) <==> Lookup(t, key).Some?
    ensures Lookup(t, key).Some? ==> AsDict(t)[key] == AsNode(Lookup(t, key).value)
  {
    if t.Item? {
      LookupIsDict(t.rest, key);
    }
  }

  lemma {:induction false} ConcatDict(a: Table, b: Table)
    ensures AsDict(Concat(a, b)) == AsDict(b) + AsDict(a)
  {
    if a.Item? {
      ConcatDict(a.rest, b);
    }
  }

  /** Rearranging changes the order and nothing else. */
  lemma {:induction false} RearrangedIsSameDict(t: Table)
    requires Distinct(t)
    ensures AsDict(Rearranged(t)) == AsDict(t)
    decreases t, 1
  {
    SplitDict(t);
    ConcatDict(Scalars(t), Children(t));
  }

  lemma {:induction false} SplitDict(t: Table)
    requires Distinct(t)
    ensures AsDict(t) == AsDict(Children(t)) + AsDict(Scalars(t))
    decreases t, 0
  {
    match t {
      case Empty =>
      case Item(k, Leaf(v), rest) =>
        SplitDict(rest);
      case Item(k, Sub(child), rest) =>
        SplitDict(rest);
        RearrangedIsSameDict(child);
        LookupIsDict(rest, k);
        assert k !in AsDict(Scalars(rest));
    }
  }

  // ------------------------------------------------------------ tables inside tables

  /** The table a path leads to. */
  function At(t: Table, path: seq<string>): Option<Table>
    decreases |path|
  {
    if path == [] then Some(t)
    else
      match Lookup(t, path[0])
      case Some(Sub(child)) => At(child, path[1..])
      case _ => None
  }

  /** The same tables, with `inner` where the path leads. */
  function Graft(t: Table, path: seq<string>, inner: Table): Table
    requires At(t, path).Some?
    decreases |path|
  {
    if path == [] then inner
    else Assign(t, path[0], Sub(Graft(Lookup(t, path[0]).value.table, path[1..], inner)))
  }

  lemma {:induction false} LookupAssign(t: Table, key: string, v: Value, other: string)
    ensures Lookup(Assign(t, key, v), other) == if other == key then Some(v) else Lookup(t, other)
  {
    if t.Item? && t.key != key {
      LookupAssign(t.rest, key, v, other);
    }
  }

  lemma {:induction false} AssignTwice(t: Table, key: string, v: Value, w: Value)
    ensures Assign(Assign(t, key, v), key, w) == Assign(t, key, w)
  {
    if t.Item? && t.key != key {
      AssignTwice(t.rest, key, v, w);
    }
  }

  lemma {:induction false} AssignNew(t: Table, key: string, v: Value)
    requires Lookup(t, key) == None
    ensures Assign(t, key, v) == Concat(t, Item(key, v, Empty))
  {
    if t.Item? {
      AssignNew(t.rest, key, v);
    }
  }

  lemma {:induction false} GraftIsThere(t: Table, path: seq<string>, inner: Table)
    requires At(t, path).Some?
    ensures At(Graft(t, path, inner), path) == Some(inner)
    decreases |path|
  {
    if path != [] {
      var child := Lookup(t, path[0]).value.table;
      var grafted := Sub(Graft(child, path[1..], inner));
      GraftIsThere(child, path[1..], inner);
      LookupAssign(t, path[0], grafted, path[0]);
    }
  }

  /** Grafting into a grafted table: the inner graft decides, whether at the same place or one key below. */
  lemma {:induction false} GraftTwice(t: Table, path: seq<string>, first: Table, second: Table)
    requires At(t, path).Some?
    ensures At(Graft(t, path, first), path).Some?
    ensures Graft(Graft(t, path, first), path, second) == Graft(t, path, second)
    decreases |path|
  {
    GraftIsThere(t, path, first);
    if path != [] {
      var child := Lookup(t, path[0]).value.table;
      GraftTwice(child, path[1..], first, second);
      var grafted := Sub(Graft(child, path[1..], first));
      LookupAssign(t, path[0], grafted, path[0]);
      AssignTwice(t, path[0], grafted, Sub(Graft(child, path[1..], second)));
    }
  }

  lemma {:induction false} AtBelow(t: Table, path: seq<string>, key: string)
    requires At(t, path).Some?
    ensures At(t, path + [key]) == At(At(t, path).value, [key])
    decreases |path|
  {
    if path == [] {
      assert path + [key] == [key];
    } else {
      assert (path + [key])[0] == path[0] && (path + [key])[1..] == path[1..] + [key];
      AtBelow(Lookup(t, path[0]).value.table, path[1..], key);
    }
  }

  lemma {:induction false} GraftBelow(t: Table, path: seq<string>, key: string, inner: Table)
    requires At(t, path).Some? && At(t, path + [key]).Some?
    ensures Graft(t, path + [key], inner) == Graft(t, path, Assign(At(t, path).value, key, Sub(inner)))
    decreases |path|
  {
    if path == [] {
      assert path + [key] == [key] && [key][1..] == [];
    } else {
      assert (path + [key])[0] == path[0] && (path + [key])[1..] == path[1..] + [key];
      AtBelow(t, path, key);
      AtBelow(Lookup(t, path[0]).value.table, path[1..], key);
      GraftBelow(Lookup(t, path[0]).value.table, path[1..], key, inner);
    }
  }

  lemma {:induction false} AssignAtIsGraft(t: Table, path: seq<string>, key: string, v: Value)
    requires At(t, path).Some?
    ensures AssignAt(t, path, key, v) == Ok(Graft(t, path, Assign(At(t, path).value, key, v)))
    decreases |path|
  {
    if path != [] {
      AssignAtIsGraft(Lookup(t, path[0]).value.table, path[1..], key, v);
    }
  }

  /** Entering a new table below an existing one creates it, empty. */
  lemma {:induction false} EnterIsGraft(t: Table, path: seq<string>, key: string)
    requires At(t, path).Some? && Lookup(At(t, path).value, key) == None
    ensures Enter(t, path + [key]) == Ok(Graft(t, path, Assign(At(t, path).value, key, Sub(Empty))))
    decreases |path|
  {
    if path == [] {
      assert path + [key] == [key] && [key][1..] == [];
    } else {
      assert (path + [key])[0] == path[0] && (path + [key])[1..] == path[1..] + [key];
      EnterIsGraft(Lookup(t, path[0]).value.table, path[1..], key);
    }
  }

  // ------------------------------------------------------------ parsing the lines of a table

  lemma {:induction false} ParseConcat(c: Cursor, a: seq<string>, b: seq<string>)
    requires ParseLines(c, a).Ok?
    ensures ParseLines(c, a + b) == ParseLines(ParseLines(c, a).value, b)
    decreases |a|
  {
    hide ParseLine;
    if a == [] {
      assert a + b == b;
    } else {
      assert (a + b)[1..] == a[1..] + b;
      ParseConcat(ParseLine(c, a[0]).value, a[1..], b);
    }
  }

  lemma NoLinesAreNothing(c: Cursor)
    ensures ParseLines(c, []) == Ok(c)
  {
  }

  lemma BlankLineIsNothing(c: Cursor)
    ensures ParseLine(c, "") == Ok(c) && ParseLines(c, [""]) == Ok(c)
  {
    StripIdentity("");
  }

  lemma {:induction false} ConcatLookup(a: Table, b: Table, key: string)
    ensures Lookup(Concat(a, b), key) == if Lookup(a, key).Some? then Lookup(a, key) else Lookup(b, key)
  {
    if a.Item? {
      ConcatLookup(a.rest, b, key);
    }
  }

  lemma {:induction false} ConcatAssociates(a: Table, b: Table, c: Table)
    ensures Concat(Concat(a, b), c) == Concat(a, Concat(b, c)) && Concat(a, Empty) == a
  {
    if a.Item? {
      ConcatAssociates(a.rest, b, c);
    }
  }

  /** None of the keys of `t` is in `there` yet. */
  ghost predicate Apart(t: Table, there: Table) {
    forall key :: Lookup(t, key).Some? ==> Lookup(there, key) == None
  }

  lemma ApartRest(t: Table, there: Table, added: Value)
    requires t.Item? && Distinct(t) && Apart(t, there)
    ensures Lookup(there, t.key) == None && Apart(t.rest, there)
    ensures Apart(t.rest, Concat(there, Item(t.key, added, Empty)))
  {
    assert Lookup(t, t.key).Some?;
    forall key | Lookup(t.rest, key).Some? ensures Lookup(there, key) == None && Lookup(Concat(there, Item(t.key, added, Empty)), key) == None {
      assert key != t.key && Lookup(t, key).Some?;
      ConcatLookup(there, Item(t.key, added, Empty), key);
    }
  }

  /** The scalar lines of a table, parsed with the cursor on it, add exactly its scalars. */
  lemma {:induction false} ScalarsParse(t: Table, c: Cursor, there: Table)
    requires Clean(t) && Distinct(t) && At(c.root, c.path) == Some(there) && Apart(t, there)
    ensures ParseLines(c, ScalarLines(t)) == Ok(Cursor(Graft(c.root, c.path, Concat(there, Scalars(t))), c.path))
    decreases t
  {
    match t {
      case Empty =>
        ConcatAssociates(there, Empty, Empty);
        GraftSame(c.root, c.path);
      case Item(k, Sub(child), rest) =>
        ApartRest(t, there, t.value);
        ScalarsParse(rest, c, there);
      case Item(k, Leaf(v), rest) =>
        var line := ScalarLine(k, v);
        ApartRest(t, there, t.value);
        ScalarParses(c, k, v);
        AssignAtIsGraft(c.root, c.path, k, Leaf(v));
        AssignNew(there, k, Leaf(v));
        var longer := Concat(there, Item(k, Leaf(v), Empty));
        var next := Cursor(Graft(c.root, c.path, longer), c.path);
        GraftIsThere(c.root, c.path, longer);
        ScalarsParse(rest, next, longer);
        ConcatAssociates(there, Item(k, Leaf(v), Empty), Scalars(rest));
        GraftTwice(c.root, c.path, longer, Concat(longer, Scalars(rest)));
        assert ([line] + ScalarLines(rest))[1..] == ScalarLines(rest);
    }
  }

  lemma {:induction false} GraftSame(t: Table, path: seq<string>)
    requires At(t, path).Some?
    ensures Graft(t, path, At(t, path).value) == t
    decreases |path|
  {
    if path != [] {
      GraftSame(Lookup(t, path[0]).value.table, path[1..]);
      AssignSame(t, path[0]);
    }
  }

  lemma {:induction false} AssignSame(t: Table, key: string)
    requires Lookup(t, key).Some?
    ensures Assign(t, key, Lookup(t, key).value) == t
  {
    if t.key != key {
      AssignSame(t.rest, key);
    }
  }

  lemma {:induction false} ChildrenLookup(t: Table, key: string)
    requires Distinct(t)
    ensures Lookup(Children(t), key).Some? <==> Lookup(t, key).Some? && Lookup(t, key).value.Sub?
    ensures Lookup(Scalars(t), key).Some? <==> Lookup(t, key).Some? && Lookup(t, key).value.Leaf?
  {
    if t.Item? {
      ChildrenLookup(t.rest, key);
    }
  }

  /** After its header and scalars, a table is ready for its children. */
  lemma OpeningParses(child: Table, c: Cursor, path: seq<string>, key: string, there: Table)
    requires Clean(child) && Distinct(child) && NoHashInPath(path) && '#' !in key
    requires At(c.root, path) == Some(there) && Lookup(there, key) == None
    ensures var begun := Graft(c.root, path, Assign(there, key, Sub(Scalars(child))));
            ParseLines(c, [HeaderLine(path + [key])] + ScalarLines(child)) == Ok(Cursor(begun, path + [key]))
            && At(begun, path + [key]) == Some(Scalars(child))
            && At(begun, path) == Some(Assign(there, key, Sub(Scalars(child))))
  {
    hide ParseLine, HeaderLine, ScalarLines;
    var below := path + [key];
    var created := Assign(there, key, Sub(Empty));
    var filled := Assign(there, key, Sub(Scalars(child)));
    HeaderParses(c, below);
    EnterIsGraft(c.root, path, key);
    var entered := Cursor(Graft(c.root, path, created), below);
    assert ParseLines(c, [HeaderLine(below)]) == Ok(entered) by {
      assert [HeaderLine(below)][1..] == [];
    }
    GraftIsThere(c.root, path, created);
    AtBelow(entered.root, path, key);
    LookupAssign(there, key, Sub(Empty), key);
    ScalarsParse(child, entered, Empty);
    ParseConcat(c, [HeaderLine(below)], ScalarLines(child));
    GraftBelow(entered.root, path, key, Scalars(child));
    AssignTwice(there, key, Sub(Empty), Sub(Scalars(child)));
    GraftTwice(c.root, path, created, filled);
    GraftIsThere(c.root, path, filled);
    AtBelow(Graft(c.root, path, filled), path, key);
    LookupAssign(there, key, Sub(Scalars(child)), key);
  }

  /** The lines of a child table, header included, add exactly that table, rearranged, to its parent. */
  lemma {:induction false} TableParses(child: Table, c: Cursor, path: seq<string>, key: string, there: Table)
    requires Clean(child) && Distinct(child) && NoHashInPath(path) && '#' !in key
    requires At(c.root, path) == Some(there) && Lookup(there, key) == None
    ensures var parsed := ParseLines(c, TableLines(child, path + [key]));
            parsed.Ok? && parsed.value.root == Graft(c.root, path, Assign(there, key, Sub(Rearranged(child))))
    decreases child, 1
  {
    hide ParseLine, HeaderLine, ScalarLines, ChildLines;
    var below := path + [key];
    var first := [HeaderLine(below)] + ScalarLines(child);
    var gap := if ScalarLines(child) != [] && HasChildren(child) then [""] else [];
    OpeningParses(child, c, path, key, there);
    var begun := ParseLines(c, first).value;
    BlankLineIsNothing(begun);
    ParseConcat(c, first, gap);
    assert NoHashInPath(below);
    ApartFromScalars(child);
    ChildrenParse(child, begun, below, Scalars(child));
    ParseConcat(c, first + gap, ChildLines(child, below));
    assert TableLines(child, below) == first + gap + ChildLines(child, below);
    GraftBelow(begun.root, path, key, Rearranged(child));
    AssignTwice(there, key, Sub(Scalars(child)), Sub(Rearranged(child)));
    GraftTwice(c.root, path, Assign(there, key, Sub(Scalars(child))), Assign(there, key, Sub(Rearranged(child))));
  }

  lemma ApartFromScalars(t: Table)
    requires Distinct(t)
    ensures Apart(Children(t), Scalars(t))
  {
    forall key | Lookup(Children(t), key).Some? ensures Lookup(Scalars(t), key) == None {
      ChildrenLookup(t, key);
    }
  }

  lemma ApartFirstChild(t: Table, there: Table, added: Table)
    requires t.Item? && t.value.Sub? && Distinct(t) && Apart(Children(t), there)
    ensures Lookup(there, t.key) == None
    ensures Apart(Children(t.rest), Concat(there, Item(t.key, Sub(added), Empty)))
  {
    assert Lookup(Children(t), t.key).Some?;
    forall key | Lookup(Children(t.rest), key).Some?
      ensures Lookup(Concat(there, Item(t.key, Sub(added), Empty)), key) == None
    {
      ChildrenLookup(t.rest, key);
      assert key != t.key && Lookup(Children(t), key).Some?;
      ConcatLookup(there, Item(t.key, Sub(added), Empty), key);
    }
  }

  lemma {:induction false} ChildrenParse(t: Table, c: Cursor, path: seq<string>, there: Table)
    requires Clean(t) && Distinct(t) && NoHashInPath(path)
    requires At(c.root, path) == Some(there) && Apart(Children(t), there)
    ensures var parsed := ParseLines(c, ChildLines(t, path));
            parsed.Ok? && parsed.value.root == Graft(c.root, path, Concat(there, Children(t)))
    decreases t, 0
  {
    hide ParseLine, TableLines, Rearranged;
    match t {
      case Empty =>
        ConcatAssociates(there, Empty, Empty);
        GraftSame(c.root, path);
      case Item(k, Leaf(v), rest) =>
        ChildrenParse(rest, c, path, there);
      case Item(k, Sub(child), rest) =>
        var added := Item(k, Sub(Rearranged(child)), Empty);
        var longer := Concat(there, added);
        var gap := if HasChildren(rest) then [""] else [];
        ApartFirstChild(t, there, Rearranged(child));
        TableParses(child, c, path, k, there);
        AssignNew(there, k, Sub(Rearranged(child)));
        var next := ParseLines(c, TableLines(child, path + [k])).value;
        BlankLineIsNothing(next);
        ParseConcat(c, TableLines(child, path + [k]), gap);
        GraftIsThere(c.root, path, longer);
        ChildrenParse(rest, next, path, longer);
        ParseConcat(c, TableLines(child, path + [k]) + gap, ChildLines(rest, path));
        ConcatAssociates(there, added, Children(rest));
        GraftTwice(c.root, path, longer, Concat(longer, Children(rest)));
    }
  }

  lemma AtTheRoot(t: Table, inner: Table)
    ensures At(t, []) == Some(t) && Graft(t, [], inner) == inner && Concat(Empty, inner) == inner
  {
  }

  lemma NothingIsApart(t: Table)
    ensures Apart(t, Empty)
  {
  }

  /** The lines of a whole configuration, parsed from an empty one. */
  lemma LinesParse(t: Table)
    requires Clean(t) && Distinct(t)
    ensures var parsed := ParseLines(Cursor(Empty, []), TableLines(t, []));
            parsed.Ok? && parsed.value.root == Rearranged(t)
  {
    hide ParseLine, ParseLines, ScalarLines, ChildLines, Graft, At, Concat, Scalars, Children, HasChildren,
         Clean, Distinct, Apart, Lookup;
    AtTheRoot(Empty, Scalars(t));
    AtTheRoot(Scalars(t), Concat(Scalars(t), Children(t)));
    NothingIsApart(t);
    var start := Cursor(Empty, []);
    var gap := if ScalarLines(t) != [] && HasChildren(t) then [""] else [];
    ScalarsParse(t, start, Empty);
    var begun := Cursor(Scalars(t), []);
    BlankLineIsNothing(begun);
    NoLinesAreNothing(begun);
    ParseConcat(start, ScalarLines(t), gap);
    ApartFromScalars(t);
    ChildrenParse(t, begun, [], Scalars(t));
    ParseConcat(start, ScalarLines(t) + gap, ChildLines(t, []));
    assert TableLines(t, []) == ScalarLines(t) + gap + ChildLines(t, []);
  }

  // ------------------------------------------------------------ lines and text

  /** No line of a table can be broken, and the last one ends visibly. */
  ghost predicate GoodLines(lines: seq<string>) {
    (forall line <- lines :: IsLineText(line))
    && (lines != [] ==> Solid(lines[|lines| - 1]))
  }

  lemma {:induction false} ScalarLinesGood(t: Table)
    ensures GoodLines(ScalarLines(t))
  {
    match t {
      case Empty =>
      case Item(k, Leaf(v), rest) =>
        ScalarLinesGood(rest);
        ScalarLineIsSolid(k, v);
      case Item(k, Sub(_), rest) =>
        ScalarLinesGood(rest);
    }
  }

  lemma GoodConcat(a: seq<string>, gap: seq<string>, b: seq<string>)
    requires GoodLines(a) && GoodLines(b) && (gap == [] || (gap == [""] && b != []))
    ensures GoodLines(a + gap + b)
  {
    var all := a + gap + b;
    forall line | line in all ensures IsLineText(line) {
      assert line in a || line in gap || line in b;
    }
    if b != [] {
      assert all[|all| - 1] == b[|b| - 1];
    } else {
      assert all == a;
    }
  }

  lemma {:induction false} TableLinesGood(t: Table, path: seq<string>)
    ensures GoodLines(TableLines(t, path)) && (path != [] ==> TableLines(t, path) != [])
    decreases t, 1
  {
    hide HeaderLine, ScalarLines, ChildLines, Solid, IsLineText;
    var header := if path == [] then [] else [HeaderLine(path)];
    HeaderIsSolid(path);
    ScalarLinesGood(t);
    ChildLinesGood(t, path);
    GoodConcat(header, [], ScalarLines(t));
    assert header + [] + ScalarLines(t) == header + ScalarLines(t);
    GoodConcat(header + ScalarLines(t), if ScalarLines(t) != [] && HasChildren(t) then [""] else [], ChildLines(t, path));
  }

  lemma {:induction false} ChildLinesGood(t: Table, path: seq<string>)
    ensures GoodLines(ChildLines(t, path)) && (HasChildren(t) <==> ChildLines(t, path) != [])
    decreases t, 0
  {
    hide TableLines, GoodLines;
    match t {
      case Empty => NoLinesGood();
      case Item(k, Leaf(v), rest) => ChildLinesGood(rest, path);
      case Item(k, Sub(child), rest) =>
        TableLinesGood(child, path + [k]);
        ChildLinesGood(rest, path);
        GoodConcat(TableLines(child, path + [k]), if HasChildren(rest) then [""] else [], ChildLines(rest, path));
    }
  }

  lemma NoLinesGood()
    ensures GoodLines([])
  {
  }

  lemma {:induction false} FirstLineStops(line: string, rest: string)
    requires IsLineText(line)
    ensures FirstLine(line + "\n" + rest) == line
  {
    var text := line + "\n" + rest;
    if line != "" {
      assert line[0] in line;
      assert text[1..] == line[1..] + "\n" + rest;
      FirstLineStops(line[1..], rest);
    } else {
      assert text[0] == '\n';
    }
  }

  lemma SplitOneLine(line: string, rest: string)
    requires IsLineText(line)
    ensures SplitLines(line + "\n" + rest) == [line] + SplitLines(rest)
  {
    FirstLineStops(line, rest);
    var text := line + "\n" + rest;
    assert text[|line|] == '\n' && text[|line| + 1..] == rest;
  }

  /** Joining lines with line feeds and splitting the text gives the lines back. */
  lemma {:induction false} SplitInvertsJoinedLines(lines: seq<string>)
    requires lines != [] && forall line <- lines :: IsLineText(line)
    ensures SplitLines(JoinLines(lines) + "\n") == lines
    decreases |lines|
  {
    hide SplitLines;
    assert IsLineText(lines[0]);
    if |lines| == 1 {
      SplitOneLine(lines[0], "");
      assert lines[0] + "\n" + "" == lines[0] + "\n";
      SplitNothing();
      assert lines == [lines[0]] + [];
    } else {
      var more := JoinLines(lines[1..]) + "\n";
      assert JoinLines(lines) + "\n" == lines[0] + "\n" + more;
      SplitOneLine(lines[0], more);
      SplitInvertsJoinedLines(lines[1..]);
    }
  }

  lemma SplitNothing()
    ensures SplitLines("") == []
  {
  }

  lemma {:induction false} JoinEndsSolid(lines: seq<string>)
    requires lines != [] && Solid(lines[|lines| - 1])
    ensures JoinLines(lines) != "" && !IsSpace(JoinLines(lines)[|JoinLines(lines)| - 1])
    decreases |lines|
  {
    if |lines| > 1 {
      assert lines[1..][|lines[1..]| - 1] == lines[|lines| - 1];
      JoinEndsSolid(lines[1..]);
    }
  }

  /** The text that is written splits into the lines that were written. */
  lemma TextOfLines(t: Table)
    ensures ParseLines(Cursor(Empty, []), SplitLines(Dumps(t))) == ParseLines(Cursor(Empty, []), TableLines(t, []))
  {
    hide TableLines, ParseLine, SplitLines;
    var lines := TableLines(t, []);
    TableLinesGood(t, []);
    if lines == [] {
      SplitOneLine("", "");
      SplitNothing();
      assert Dumps(t) == "" + "\n" + "";
      assert SplitLines(Dumps(t)) == [""];
      BlankLineIsNothing(Cursor(Empty, []));
    } else {
      JoinEndsSolid(lines);
      SplitInvertsJoinedLines(lines);
    }
  }

  /**
    The round trip: a configuration without the troublesome characters is read
    back as it was, scalars before tables, and hence as an equal dict.
  */
  lemma CleanRoundTrips(t: Table)
    requires Distinct(t) && Clean(t)
    ensures Load(Dumps(t)) == Ok(Rearranged(t)) && RoundTrips(t)
  {
    hide TableLines, ParseLine, SplitLines, Dumps;
    TextOfLines(t);
    LinesParse(t);
    RearrangedIsSameDict(t);
  }
}
