/**
  The three secret patterns and what replacing their matches leaves
  (src/agent_bridge_connect/reports.py:40-49, 1129-1132).

  A pattern is a function from the character before a text and the text to the
  length of the match at its beginning, 0 for none; the character before the
  first one is taken to be a blank, for which every look-behind here holds.
*/
module Redaction {
  import opened Text
  import opened BoundedText

  datatype Pattern = Assignment | Key | Word

  const BLOCK := "[REDACTED]"

  // ------------------------------------------------------------ character classes, case ignored

  /** `[A-Za-z0-9]` under IGNORECASE, which adds the four letters outside ASCII whose case partner is in it. */
  predicate Alnum(c: char) {
    IsAlphanumeric(c) || c == '\U{130}' || c == '\U{131}' || c == '\U{17f}' || c == '\U{212a}'
  }

  /** The letter of a pattern that this character matches. */
  function Fold(c: char): char {
    if c == '\U{17f}' then 's' else if c == '\U{212a}' then 'k' else LowerChar(c)
  }

  predicate KeyChar(c: char) {
    Alnum(c) || c == '_' || c == '-'
  }

  /** What an unquoted value cannot hold. */
  predicate Stops(c: char) {
    IsSpace(c) || c == ',' || c == ';'
  }

  predicate Begins(t: string, word: string) {
    |word| <= |t| && forall i :: 0 <= i < |word| ==> Fold(t[i]) == word[i]
  }

  // ------------------------------------------------------------ matches

  /** `(?:password|passwd|pwd)` */
  function SecretWord(t: string): (n: nat)
    ensures n <= |t|
  {
    if Begins(t, "password") then 8 else if Begins(t, "passwd") then 6 else if Begins(t, "pwd") then 3 else 0
  }

  function HashAfter(t: string): (n: nat)
    ensures n <= |t|
  {
    if Begins(t, "_hash") then 5 else 0
  }

  /** The secret word with look-behind, optional suffix and look-ahead; giving the suffix up when that is what follows. */
  function WordMatch(prev: char, t: string): (n: nat)
    ensures n <= |t|
  {
    var n := SecretWord(t);
    var h := HashAfter(t[n..]);
    if n == 0 || Alnum(prev) then 0
    else if n + h == |t| || !Alnum(t[n + h]) then n + h
    else if n == |t| || !Alnum(t[n]) then n
    else 0
  }

  function KeyRun(t: string): (n: nat)
    ensures n <= |t|
  {
    if t == "" || !KeyChar(t[0]) then 0 else 1 + KeyRun(t[1..])
  }

  /** `sk-` and at least twelve key characters, as many as there are. */
  function KeyMatch(prev: char, t: string): (n: nat)
    ensures n <= |t|
  {
    if Alnum(prev) || !Begins(t, "sk-") then 0
    else if KeyRun(t[3..]) < 12 then 0
    else 3 + KeyRun(t[3..])
  }

  function PlainValue(t: string): (n: nat)
    ensures n <= |t|
  {
    if t == "" || Stops(t[0]) then 0 else 1 + PlainValue(t[1..])
  }

  /** The length up to the next quote, which is included; 0 if there is none. */
  function UpTo(quote: char, t: string): (n: nat)
    ensures n <= |t|
  {
    if t == "" then 0
    else if t[0] == quote then 1
    else
      var n := UpTo(quote, t[1..]);
      if n == 0 then 0 else n + 1
  }

  /** A quoted value if its quote is closed, otherwise an unquoted one. */
  function ValueMatch(t: string): (n: nat)
    ensures n <= |t|
    ensures n > 0 <==> t != "" && !Stops(t[0])
  {
    if t == "" then 0
    else if (t[0] == '"' || t[0] == '\'') && UpTo(t[0], t[1..]) > 0 then 1 + UpTo(t[0], t[1..])
    else PlainValue(t)
  }

  /** What follows the sign of an assignment, or nothing if the text does not begin with one. */
  function AfterSign(t: string): (r: string)
    ensures |r| <= |t|
  {
    var n := SecretWord(t);
    var sign := StripLeft(t[n + HashAfter(t[n..])..]);
    if n > 0 && sign != "" && (sign[0] == ':' || sign[0] == '=') then StripLeft(sign[1..]) else ""
  }

  /** The assignment pattern without its prefix. */
  function TailMatch(t: string): (n: nat)
    ensures n <= |t|
  {
    var value := AfterSign(t);
    var n := ValueMatch(value);
    if n == 0 then 0 else |t| - |value| + n
  }

  function PrefixRun(t: string): (n: nat)
    ensures n <= |t|
  {
    if t == "" || !(KeyChar(t[0]) || t[0] == '.') then 0 else 1 + PrefixRun(t[1..])
  }

  /** The longest prefix of at most `k` characters before which the rest matches. */
  function Longest(t: string, k: nat): (n: nat)
    requires k <= |t|
    ensures n <= |t|
    ensures TailMatch(t) > 0 ==> n > 0
  {
    assert t[0..] == t;
    var n := TailMatch(t[k..]);
    if n > 0 then k + n else if k == 0 then 0 else Longest(t, k - 1)
  }

  function Match(p: Pattern, prev: char, t: string): (n: nat)
    ensures n <= |t|
  {
    match p
    case Assignment => Longest(t, PrefixRun(t))
    case Key => KeyMatch(prev, t)
    case Word => WordMatch(prev, t)
  }

  /** `pattern.sub("[REDACTED]", t)` */
  function Sub(p: Pattern, prev: char, t: string): string
    decreases |t|
  {
    if t == "" then ""
    else
      var n := Match(p, prev, t);
      if n > 0 then BLOCK + Sub(p, t[n - 1], t[n..]) else [t[0]] + Sub(p, t[0], t[1..])
  }

  /** `_redact_text` */
  function Redact(s: string): string {
    Sub(Word, ' ', Sub(Key, ' ', Sub(Assignment, ' ', s)))
  }

  // ------------------------------------------------------------ clean text

  /** No pattern matches anywhere in the text. */
  predicate Clean(p: Pattern, prev: char, t: string)
    decreases |t|
  {
    t == "" || (Match(p, prev, t) == 0 && Clean(p, t[0], t[1..]))
  }

  predicate IsClean(t: string) {
    forall p :: Clean(p, ' ', t)
  }

  /** No assignment begins anywhere, its prefix left aside. */
  predicate NoAssignment(t: string)
    decreases |t|
  {
    t == "" || (TailMatch(t) == 0 && NoAssignment(t[1..]))
  }

  lemma {:induction false} NoAssignmentLater(t: string, k: nat)
    requires NoAssignment(t) && k <= |t|
    ensures NoAssignment(t[k..])
    decreases k
  {
    hide TailMatch;
    if k == 0 {
      assert t[0..] == t;
    } else {
      NoAssignmentLater(t[1..], k - 1);
      assert t[1..][k - 1..] == t[k..];
    }
  }

  lemma {:induction false} NothingLongest(t: string, k: nat)
    requires NoAssignment(t) && k <= |t|
    ensures Longest(t, k) == 0
  {
    hide TailMatch;
    NoAssignmentLater(t, k);
    NothingHasNoTail();
    if k > 0 {
      NothingLongest(t, k - 1);
    }
  }

  lemma NothingHasNoTail()
    ensures TailMatch("") == 0
  {
  }

  /** The two ways of saying that no assignment is left. */
  lemma {:induction false} CleanOfAssignments(prev: char, t: string)
    ensures Clean(Assignment, prev, t) <==> NoAssignment(t)
    decreases |t|
  {
    hide TailMatch, Longest, PrefixRun;
    if t != "" {
      CleanOfAssignments(t[0], t[1..]);
      if NoAssignment(t) {
        NothingLongest(t, PrefixRun(t));
      }
    }
  }

  /** Clean text is left alone. */
  lemma {:induction false} CleanIsFixed(p: Pattern, prev: char, t: string)
    requires Clean(p, prev, t)
    ensures Sub(p, prev, t) == t
    decreases |t|
  {
    hide Match;
    if t != "" {
      CleanIsFixed(p, t[0], t[1..]);
      assert t == [t[0]] + t[1..];
    }
  }

  /** A match begins with a letter of its pattern, never with a bracket. */
  lemma MatchBegins(p: Pattern, prev: char, t: string)
    requires Match(p, prev, t) > 0
    ensures t != "" && t[0] != '[' && !Stops(t[0]) && t[0] != ':' && t[0] != '='
  {
    hide TailMatch;
    if p == Assignment && PrefixRun(t) == 0 {
      assert t[0..] == t;
      TailBegins(t);
    }
  }

  lemma TailBegins(t: string)
    requires TailMatch(t) > 0
    ensures t != "" && Fold(t[0]) == 'p'
  {
    hide SecretWord, HashAfter, ValueMatch, IsSpace, StripLeft;
    WordBegins(t);
  }

  lemma WordBegins(t: string)
    requires SecretWord(t) > 0
    ensures t != "" && Fold(t[0]) == 'p'
    ensures forall i :: 0 <= i < SecretWord(t) ==> Alnum(t[i]) && t[i] != '['
  {
  }

  /** Text with a match is never left alone. */
  lemma {:induction false} FixedIsClean(p: Pattern, prev: char, t: string)
    requires Sub(p, prev, t) == t
    ensures Clean(p, prev, t)
    decreases |t|
  {
    hide Match;
    if t != "" {
      assert Match(p, prev, t) > 0 ==> Sub(p, prev, t)[0] == '[';
      if Match(p, prev, t) > 0 {
        MatchBegins(p, prev, t);
      }
      assert ([t[0]] + Sub(p, t[0], t[1..]))[1..] == t[1..];
      FixedIsClean(p, t[0], t[1..]);
    }
  }

  // ------------------------------------------------------------ what a substitution leaves

  /** The character before position `k`. */
  function Before(prev: char, t: string, k: nat): char
    requires k <= |t|
  {
    if k == 0 then prev else t[k - 1]
  }

  lemma SubStep(p: Pattern, prev: char, t: string)
    requires t != ""
    ensures var n := Match(p, prev, t);
            if n > 0 then Sub(p, prev, t) == BLOCK + Sub(p, t[n - 1], t[n..]) && Sub(p, prev, t)[0] == '['
            else Sub(p, prev, t) == [t[0]] + Sub(p, t[0], t[1..])
  {
    hide Match;
  }

  /** Up to its first bracket the result is the text itself, and goes on as the substitution of the rest. */
  lemma {:induction false} Reads(p: Pattern, prev: char, t: string, k: nat)
    requires k <= |Sub(p, prev, t)| && forall i :: 0 <= i < k ==> Sub(p, prev, t)[i] != '['
    ensures k <= |t| && t[..k] == Sub(p, prev, t)[..k]
    ensures Sub(p, prev, t)[k..] == Sub(p, Before(prev, t, k), t[k..])
    ensures k > 0 ==> Match(p, prev, t) == 0
    decreases k
  {
    hide Match, Sub;
    var r := Sub(p, prev, t);
    if k == 0 {
      assert t[0..] == t && r[0..] == r;
    } else {
      assert t != "" by { SubOfNothing(p, prev); }
      SubStep(p, prev, t);
      assert r[0] != '[';
      var rest := Sub(p, t[0], t[1..]);
      forall i | 0 <= i < k - 1 ensures rest[i] != '[' {
        assert rest[i] == r[i + 1];
      }
      Reads(p, t[0], t[1..], k - 1);
      assert t[..k] == [t[0]] + t[1..][..k - 1] && r[..k] == [t[0]] + rest[..k - 1];
      assert t[k..] == t[1..][k - 1..] && r[k..] == rest[k - 1..];
    }
  }

  lemma SubOfNothing(p: Pattern, prev: char)
    ensures Sub(p, prev, "") == ""
  {
  }

  /** Blanks are never part of the beginning of a match, so skipping them commutes with substituting. */
  lemma {:induction false} SkipsAlike(p: Pattern, prev: char, t: string) returns (q: char)
    ensures StripLeft(Sub(p, prev, t)) == Sub(p, q, StripLeft(t))
    decreases |t|
  {
    hide Match, Sub, IsSpace;
    q := prev;
    SubOfNothing(p, prev);
    if t != "" {
      SubStep(p, prev, t);
      var r := Sub(p, prev, t);
      if Match(p, prev, t) > 0 {
        MatchBegins(p, prev, t);
        BracketIsNoSpace();
      } else if IsSpace(t[0]) {
        q := SkipsAlike(p, t[0], t[1..]);
        assert r[0] == t[0] && r[1..] == Sub(p, t[0], t[1..]);
      }
    }
  }

  lemma BracketIsNoSpace()
    ensures !IsSpace('[') && !Alnum('[') && !Alnum(']') && !Stops('[') && Fold('[') == '['
  {
  }

  /** A secret word that is read off the same characters is the same one. */
  lemma SameWord(t: string, r: string)
    requires var n := SecretWord(r); n > 0 && n <= |t| && t[..n] == r[..n]
    ensures SecretWord(t) == SecretWord(r)
  {
    var n := SecretWord(r);
    forall i | 0 <= i < n ensures t[i] == r[i] {
      assert t[..n][i] == r[..n][i];
    }
    if n == 6 {
      assert Fold(t[5]) == 'd';
    } else if n == 3 {
      assert Fold(t[1]) == 'w';
    }
  }

  lemma SameHash(t: string, r: string)
    requires HashAfter(r) == 5 && 5 <= |t| && t[..5] == r[..5]
    ensures HashAfter(t) == 5
  {
    assert forall i :: 0 <= i < 5 ==> t[..5][i] == r[..5][i];
  }

  lemma HashBegins(t: string)
    requires HashAfter(t) > 0
    ensures HashAfter(t) == 5 && t[0] == '_' && forall i :: 0 <= i < 5 ==> t[i] != '['
  {
  }

  /** The suffix of a secret word is there after a substitution exactly when it was there before, if a sign follows. */
  lemma HashSurvives(p: Pattern, prev: char, t: string)
    requires var r := Sub(p, prev, t);
             var sign := StripLeft(r[HashAfter(r)..]);
             sign != "" && (sign[0] == ':' || sign[0] == '=')
    ensures var r := Sub(p, prev, t);
            HashAfter(t) == HashAfter(r)
            && exists q :: r[HashAfter(r)..] == Sub(p, q, t[HashAfter(t)..])
  {
    hide Match, HashAfter, IsSpace;
    var r := Sub(p, prev, t);
    var h := HashAfter(r);
    if h > 0 {
      HashBegins(r);
      assert forall c <- r[..5] :: c != '[';
      Reads(p, prev, t, 5);
      SameHash(t, r);
      assert r[h..] == Sub(p, Before(prev, t, 5), t[5..]);
    } else {
      assert r[0..] == r && t[0..] == t;
      if HashAfter(t) > 0 {
        HashShows(p, prev, t);
      }
    }
  }

  lemma HashShows(p: Pattern, prev: char, t: string)
    requires HashAfter(t) > 0
    ensures var sign := StripLeft(Sub(p, prev, t)); sign != "" && sign[0] != ':' && sign[0] != '='
  {
    hide Match, HashAfter, IsSpace, Sub;
    HashBegins(t);
    BracketIsNoSpace();
    UnderscoreIsNoSpace();
    SubStep(p, prev, t);
    var r := Sub(p, prev, t);
    assert StripLeft(r) == r;
  }

  lemma UnderscoreIsNoSpace()
    ensures !IsSpace('_') && !IsSpace(':') && !IsSpace('=')
  {
  }

  /** The value of an assignment, from the end of its key on. */
  function ValueAfter(t: string): string {
    var sign := StripLeft(t);
    if sign != "" && (sign[0] == ':' || sign[0] == '=') then StripLeft(sign[1..]) else ""
  }

  lemma TailInParts(t: string)
    ensures var n := SecretWord(t);
            TailMatch(t) > 0 <==> n > 0 && ValueMatch(ValueAfter(t[n..][HashAfter(t[n..])..])) > 0
  {
    hide SecretWord, HashAfter, ValueMatch, StripLeft, IsSpace;
    var n := SecretWord(t);
    var h := HashAfter(t[n..]);
    assert t[n..][h..] == t[n + h..];
    NoValueOfNothing();
  }

  lemma NoValueOfNothing()
    ensures ValueMatch("") == 0
  {
  }

  /** An assignment left after a substitution was there before. */
  lemma TailSurvives(p: Pattern, prev: char, t: string)
    requires TailMatch(Sub(p, prev, t)) > 0
    ensures TailMatch(t) > 0
  {
    hide Match, HashAfter, SecretWord, ValueMatch, IsSpace, Sub, TailMatch, Stops, StripLeft;
    var r := Sub(p, prev, t);
    var n := SecretWord(r);
    TailInParts(r);
    WordBegins(r);
    Reads(p, prev, t, n);
    SameWord(t, r);
    NoValueOfNothing();
    HashSurvives(p, Before(prev, t, n), t[n..]);
    var h := HashAfter(r[n..]);
    var q :| r[n..][h..] == Sub(p, q, t[n..][h..]);
    SignSurvives(p, q, t[n..][h..]);
    TailInParts(t);
  }

  lemma SignSurvives(p: Pattern, prev: char, t: string)
    requires ValueMatch(ValueAfter(Sub(p, prev, t))) > 0
    ensures ValueMatch(ValueAfter(t)) > 0
  {
    hide Match, ValueMatch, StripLeft, IsSpace, Stops;
    var q := SkipsAlike(p, prev, t);
    var sign := StripLeft(t);
    Reads(p, q, sign, 1);
    assert sign[..1][0] == Sub(p, q, sign)[..1][0];
    var v := SkipsAlike(p, Before(q, sign, 1), sign[1..]);
    var value := StripLeft(sign[1..]);
    assert StripLeft(Sub(p, q, sign)[1..]) == Sub(p, v, value);
    if Match(p, v, value) > 0 {
      MatchBegins(p, v, value);
    }
  }

  lemma {:induction false} NoAssignmentBehind(front: string, t: string)
    requires NoAssignment(t) && forall c <- front :: Fold(c) != 'p'
    ensures NoAssignment(front + t)
    decreases |front|
  {
    hide TailMatch, Fold;
    if front == "" {
      assert front + t == t;
    } else {
      var r := front + t;
      assert r[0] == front[0] && r[1..] == front[1..] + t;
      NoAssignmentBehind(front[1..], t);
      if TailMatch(r) > 0 {
        TailBegins(r);
      }
    }
  }

  lemma BlockHoldsNoBeginning()
    ensures forall c <- BLOCK :: Fold(c) != 'p' && Fold(c) != 's'
  {
  }

  /** No pass leaves an assignment, if it is the assignment's pass or there was none before. */
  lemma {:induction false} AssignmentsAreGone(p: Pattern, prev: char, t: string)
    requires p == Assignment || NoAssignment(t)
    ensures NoAssignment(Sub(p, prev, t))
    decreases |t|
  {
    hide TailMatch, Sub, PrefixRun, KeyMatch, WordMatch;
    if t == "" {
      SubOfNothing(p, prev);
    } else {
      var n := Match(p, prev, t);
      SubStep(p, prev, t);
      if n > 0 {
        if p != Assignment { NoAssignmentLater(t, n); }
        AssignmentsAreGone(p, t[n - 1], t[n..]);
        BlockHoldsNoBeginning();
        NoAssignmentBehind(BLOCK, Sub(p, t[n - 1], t[n..]));
      } else {
        AssignmentsAreGone(p, t[0], t[1..]);
        var r := Sub(p, prev, t);
        assert r[1..] == Sub(p, t[0], t[1..]);
        if TailMatch(r) > 0 {
          TailSurvives(p, prev, t);
        }
      }
    }
  }

  lemma KeyBegins(prev: char, t: string)
    requires KeyMatch(prev, t) > 0
    ensures |t| >= 15 && !Alnum(prev) && Begins(t, "sk-") && KeyRun(t[3..]) >= 12
    ensures Alnum(t[0]) && Fold(t[0]) == 's'
    ensures forall i :: 0 <= i < 15 ==> t[i] != '['
  {
    hide Alnum;
    RunHolds(t[3..]);
    FoldedLetter(t[0]);
    forall i | 0 <= i < 15 ensures t[i] != '[' {
      BracketIsNoSpace();
      if i >= 3 {
        assert t[i] == t[3..][i - 3];
      } else {
        assert Fold(t[i]) == "sk-"[i];
      }
    }
  }

  lemma FoldedLetter(c: char)
    ensures 'a' <= Fold(c) <= 'z' ==> Alnum(c)
  {
  }

  lemma {:induction false} RunHolds(t: string)
    ensures forall i :: 0 <= i < KeyRun(t) ==> KeyChar(t[i])
  {
    hide KeyChar;
    if t != "" && KeyChar(t[0]) {
      RunHolds(t[1..]);
      forall i | 0 <= i < KeyRun(t) ensures KeyChar(t[i]) {
        if i > 0 { assert t[i] == t[1..][i - 1]; }
      }
    }
  }

  lemma {:induction false} RunIsAtLeast(t: string, k: nat)
    requires k <= |t| && forall i :: 0 <= i < k ==> KeyChar(t[i])
    ensures KeyRun(t) >= k
  {
    hide KeyChar;
    if k > 0 {
      RunIsAtLeast(t[1..], k - 1);
    }
  }

  /** A key read off the same characters is a key. */
  lemma SameKey(prev: char, t: string, r: string)
    requires KeyMatch(prev, r) > 0 && |t| >= 15 && t[..15] == r[..15]
    ensures KeyMatch(prev, t) > 0
  {
    hide Alnum, KeyChar;
    KeyBegins(prev, r);
    RunHolds(r[3..]);
    forall i | 0 <= i < 15 ensures t[i] == r[i] {
      assert t[..15][i] == r[..15][i];
    }
    forall i | 0 <= i < 12 ensures KeyChar(t[3..][i]) {
      assert t[3..][i] == r[3..][i];
    }
    RunIsAtLeast(t[3..], 12);
  }

  /** What follows a match of a key or a word is no letter or digit, so it cannot begin another. */
  lemma MatchEnds(p: Pattern, prev: char, t: string)
    requires p != Assignment && Match(p, prev, t) > 0
    ensures var n := Match(p, prev, t); n == |t| || !Alnum(t[n])
  {
    if p == Key {
      RunEnds(t[3..]);
    }
  }

  lemma {:induction false} RunEnds(t: string)
    ensures KeyRun(t) == |t| || !KeyChar(t[KeyRun(t)])
  {
    hide KeyChar;
    if t != "" && KeyChar(t[0]) {
      RunEnds(t[1..]);
    }
  }

  lemma {:induction false} CleanLater(p: Pattern, prev: char, t: string, k: nat)
    requires Clean(p, prev, t) && k <= |t|
    ensures Clean(p, Before(prev, t, k), t[k..])
    decreases k
  {
    hide Match;
    if k == 0 {
      assert t[0..] == t;
    } else {
      CleanLater(p, t[0], t[1..], k - 1);
      assert t[1..][k - 1..] == t[k..];
    }
  }

  lemma {:induction false} NoKeyBehind(prev: char, front: string, t: string)
    requires front != "" && Clean(Key, front[|front| - 1], t) && forall c <- front :: Fold(c) != 's'
    ensures Clean(Key, prev, front + t)
    decreases |front|
  {
    hide KeyMatch, Fold;
    var r := front + t;
    assert r[0] == front[0] && r[1..] == front[1..] + t;
    if |front| > 1 {
      NoKeyBehind(front[0], front[1..], t);
    } else {
      assert r[1..] == t;
    }
    if KeyMatch(prev, r) > 0 {
      KeyBegins(prev, r);
    }
  }

  /** No pass over keys or words leaves a key, if it is the key's pass or there was none before. */
  lemma {:induction false} KeysAreGone(p: Pattern, shown: char, prev: char, t: string)
    requires p == Key || (p == Word && Clean(Key, prev, t))
    requires shown == prev || t == "" || !Alnum(t[0])
    ensures Clean(Key, shown, Sub(p, prev, t))
    decreases |t|
  {
    hide KeyMatch, WordMatch, Sub, Alnum, Fold;
    if t == "" {
      SubOfNothing(p, prev);
    } else {
      var n := Match(p, prev, t);
      var r := Sub(p, prev, t);
      SubStep(p, prev, t);
      if n > 0 {
        MatchEnds(p, prev, t);
        if p == Word { CleanLater(Key, prev, t, n); }
        KeysAreGone(p, ']', t[n - 1], t[n..]);
        BlockHoldsNoBeginning();
        NoKeyBehind(shown, BLOCK, Sub(p, t[n - 1], t[n..]));
      } else {
        KeysAreGone(p, t[0], t[0], t[1..]);
        assert r[0] == t[0] && r[1..] == Sub(p, t[0], t[1..]);
        if KeyMatch(shown, r) > 0 {
          KeyBegins(shown, r);
          Reads(p, prev, t, 15);
          SameKey(shown, t, r);
        }
      }
    }
  }

  /** A word is matched exactly when no letter or digit touches it; the suffix decides only how much is taken. */
  lemma WordMatchIff(prev: char, t: string)
    ensures var n := SecretWord(t);
            WordMatch(prev, t) > 0 <==> n > 0 && !Alnum(prev) && (n == |t| || !Alnum(t[n]))
  {
    hide SecretWord, HashAfter;
    var n := SecretWord(t);
    if HashAfter(t[n..]) > 0 {
      HashBegins(t[n..]);
      assert t[n] == t[n..][0];
    } else {
      assert n + HashAfter(t[n..]) == n;
    }
  }

  lemma {:induction false} NoWordBehind(prev: char, front: string, t: string)
    requires front != "" && Clean(Word, front[|front| - 1], t) && forall c <- front :: Fold(c) != 'p'
    ensures Clean(Word, prev, front + t)
    decreases |front|
  {
    hide WordMatch, SecretWord, Fold;
    var r := front + t;
    assert r[0] == front[0] && r[1..] == front[1..] + t;
    if |front| > 1 {
      NoWordBehind(front[0], front[1..], t);
    } else {
      assert r[1..] == t;
    }
    WordMatchIff(prev, r);
    if SecretWord(r) > 0 {
      WordBegins(r);
    }
  }

  /** The text that its own pass does not begin with a match begins with no match afterwards. */
  lemma WordIsNotLeft(prev: char, t: string)
    ensures WordMatch(prev, Sub(Word, prev, t)) == 0
  {
    hide WordMatch, SecretWord, Sub, Alnum;
    var r := Sub(Word, prev, t);
    var n := SecretWord(r);
    WordMatchIff(prev, r);
    if n > 0 {
      WordBegins(r);
      Reads(Word, prev, t, n);
      SameWord(t, r);
      if n < |t| {
        var rest := t[n..];
        assert t[n - 1] == t[..n][n - 1] == r[n - 1];
        WordMatchIff(t[n - 1], rest);
        SubStep(Word, t[n - 1], rest);
        assert r[n..] == Sub(Word, t[n - 1], rest);
        assert r[n] == r[n..][0] == rest[0] == t[n];
      }
      WordMatchIff(prev, t);
    }
  }

  lemma {:induction false} WordsAreGone(shown: char, prev: char, t: string)
    requires shown == prev || t == "" || !Alnum(t[0])
    ensures Clean(Word, shown, Sub(Word, prev, t))
    decreases |t|
  {
    hide WordMatch, SecretWord, Sub, Alnum, Fold;
    if t == "" {
      SubOfNothing(Word, prev);
    } else {
      var n := WordMatch(prev, t);
      var r := Sub(Word, prev, t);
      SubStep(Word, prev, t);
      if n > 0 {
        MatchEnds(Word, prev, t);
        WordsAreGone(']', t[n - 1], t[n..]);
        BlockHoldsNoBeginning();
        NoWordBehind(shown, BLOCK, Sub(Word, t[n - 1], t[n..]));
      } else {
        WordsAreGone(t[0], t[0], t[1..]);
        assert r[0] == t[0] && r[1..] == Sub(Word, t[0], t[1..]);
        WordMatchIff(shown, r);
        if WordMatch(shown, r) > 0 {
          WordBegins(r);
          WordIsNotLeft(prev, t);
        }
      }
    }
  }

  /** Redacted text matches none of the three patterns. */
  lemma RedactedIsClean(s: string)
    ensures IsClean(Redact(s))
  {
    hide Sub, Clean, NoAssignment;
    var first := Sub(Assignment, ' ', s);
    var second := Sub(Key, ' ', first);
    AssignmentsAreGone(Assignment, ' ', s);
    AssignmentsAreGone(Key, ' ', first);
    AssignmentsAreGone(Word, ' ', second);
    KeysAreGone(Key, ' ', ' ', first);
    KeysAreGone(Word, ' ', ' ', second);
    WordsAreGone(' ', ' ', second);
    CleanOfAssignments(' ', Redact(s));
    CleanInAll(Redact(s));
  }

  /** Redaction leaves alone exactly the text in which no pattern matches, so redacting twice is redacting once. */
  lemma RedactFixesIff(s: string)
    ensures Redact(s) == s <==> IsClean(s)
    ensures Redact(Redact(s)) == Redact(s)
  {
    hide Sub, Clean;
    RedactedIsClean(s);
    CleanIsLeftAlone(Redact(s));
    if IsClean(s) {
      CleanIsLeftAlone(s);
    }
  }

  lemma CleanIsLeftAlone(s: string)
    requires IsClean(s)
    ensures Redact(s) == s
  {
    hide Sub, Clean;
    CleanIsFixed(Assignment, ' ', s);
    CleanIsFixed(Key, ' ', s);
    CleanIsFixed(Word, ' ', s);
  }

  /** The first place where redaction changes a text, and what the result shows there. */
  lemma {:induction false} RedactionShows(p: Pattern, prev: char, t: string) returns (k: nat)
    requires !Clean(p, prev, t)
    ensures k + 3 <= |t| && k < |Sub(p, prev, t)|
    ensures Sub(p, prev, t)[..k] == t[..k] && Sub(p, prev, t)[k] == '[' != t[k]
    decreases |t|
  {
    hide Match;
    if Match(p, prev, t) > 0 {
      MatchBegins(p, prev, t);
      MatchIsLong(p, prev, t);
      k := 0;
    } else {
      var later := RedactionShows(p, t[0], t[1..]);
      k := later + 1;
      var r := Sub(p, prev, t);
      assert r == [t[0]] + Sub(p, t[0], t[1..]);
      assert r[..k] == [t[0]] + Sub(p, t[0], t[1..])[..later] && t[..k] == [t[0]] + t[1..][..later];
    }
  }

  lemma MatchIsLong(p: Pattern, prev: char, t: string)
    requires Match(p, prev, t) > 0
    ensures |t| >= 3
  {
    hide KeyMatch, WordMatch, SecretWord, Longest, PrefixRun, Alnum;
    match p {
      case Assignment => LongestIsLong(t, PrefixRun(t));
      case Key => KeyBegins(prev, t);
      case Word =>
        WordMatchIff(prev, t);
        WordIsLong(t);
    }
  }

  lemma {:induction false} LongestIsLong(t: string, k: nat)
    requires k <= |t| && Longest(t, k) > 0
    ensures |t| >= 3
  {
    hide SecretWord, HashAfter, ValueMatch, IsSpace, StripLeft;
    if TailMatch(t[k..]) > 0 {
      WordIsLong(t[k..]);
    } else {
      LongestIsLong(t, k - 1);
    }
  }

  lemma WordIsLong(t: string)
    requires SecretWord(t) > 0
    ensures |t| >= 3
  {
  }

  /** The result shows a bracket where the text shows something else, and agrees with it up to there. */
  predicate Departs(t: string, r: string, k: nat) {
    k + 3 <= |t| && k < |r| && r[..k] == t[..k] && r[k] == '[' != t[k]
  }

  lemma StillDeparts(p: Pattern, t: string, r: string, k: nat) returns (k': nat)
    requires Departs(t, r, k)
    ensures Departs(t, Sub(p, ' ', r), k')
  {
    hide Sub, Clean;
    if Clean(p, ' ', r) {
      CleanIsFixed(p, ' ', r);
      return k;
    }
    var s := Sub(p, ' ', r);
    var at := RedactionShows(p, ' ', r);
    if at < k {
      assert r[..at] == r[..k][..at] && t[..at] == t[..k][..at] && r[at] == r[..k][at] == t[at];
      return at;
    }
    assert at != k;
    assert s[..k] == s[..at][..k] && r[..k] == r[..at][..k] && s[k] == s[..at][k] == r[k];
    k' := k;
  }

  lemma CleanInAll(t: string)
    ensures IsClean(t) <==> Clean(Assignment, ' ', t) && Clean(Key, ' ', t) && Clean(Word, ' ', t)
  {
    hide Clean;
    if Clean(Assignment, ' ', t) && Clean(Key, ' ', t) && Clean(Word, ' ', t) {
      forall p ensures Clean(p, ' ', t) {
        match p { case Assignment => case Key => case Word => }
      }
    }
  }

  /** A text in which some pattern matches shows a bracket where it was. */
  lemma RedactShows(t: string) returns (k: nat)
    requires !IsClean(t)
    ensures Departs(t, Redact(t), k)
  {
    hide Sub, Clean;
    var first := Sub(Assignment, ' ', t);
    var second := Sub(Key, ' ', first);
    if !Clean(Assignment, ' ', t) {
      k := RedactionShows(Assignment, ' ', t);
      k := StillDeparts(Key, t, first, k);
      k := StillDeparts(Word, t, second, k);
    } else {
      CleanIsFixed(Assignment, ' ', t);
      if !Clean(Key, ' ', t) {
        k := RedactionShows(Key, ' ', t);
        k := StillDeparts(Word, t, second, k);
      } else {
        CleanIsFixed(Key, ' ', t);
        assert !Clean(Word, ' ', t) by { CleanInAll(t); }
        k := RedactionShows(Word, ' ', t);
      }
    }
  }

  // ------------------------------------------------------------ collapsing

  /** Every blank before a blank or at the end is dropped, every other one becomes a space. */
  function Squeeze(t: string): string
    decreases |t|
  {
    if t == "" then ""
    else if !IsSpace(t[0]) then [t[0]] + Squeeze(t[1..])
    else if |t| == 1 || IsSpace(t[1]) then Squeeze(t[1..])
    else " " + Squeeze(t[1..])
  }

  lemma {:induction false} SqueezeSkips(t: string)
    ensures StripLeft(Squeeze(t)) == Squeeze(StripLeft(t))
    ensures t != "" && IsSpace(t[0]) ==>
              Squeeze(t) == if StripLeft(t) == "" then "" else " " + Squeeze(StripLeft(t))
    decreases |t|
  {
    hide IsSpace;
    BlankIsSpace();
    if t != "" {
      SqueezeSkips(t[1..]);
      if IsSpace(t[0]) && |t| > 1 {
        assert t[1] == t[1..][0];
        if !IsSpace(t[1]) {
          assert (" " + Squeeze(t[1..]))[1..] == Squeeze(t[1..]);
        }
      }
    }
  }

  lemma {:induction false} SqueezeReads(t: string, k: nat)
    requires k <= |t| && forall i :: 0 <= i < k ==> !IsSpace(t[i])
    ensures Squeeze(t) == t[..k] + Squeeze(t[k..])
    decreases k
  {
    hide IsSpace;
    if k == 0 {
      assert t[0..] == t && t[..0] == "";
    } else {
      SqueezeReads(t[1..], k - 1);
      assert t[..k] == [t[0]] + t[1..][..k - 1] && t[1..][k - 1..] == t[k..];
    }
  }

  /** Collapsing is squeezing what is left after the leading blanks. */
  lemma {:induction false} CollapseSqueezes(s: string)
    ensures Collapse(s) == Squeeze(StripLeft(s))
    decreases |s|
  {
    hide IsSpace, StripLeft, WordLength, Collapse, Squeeze;
    CollapseStep(s);
    var t := StripLeft(s);
    if t == "" {
      SqueezeOfNothing();
    } else {
      var n := WordLength(t);
      StartsWithAWord(t);
      CollapseSqueezes(t[n..]);
      SqueezeReads(t, n);
      SqueezeOfNothing();
      if n < |t| {
        SqueezeSkips(t[n..]);
        SqueezeIsNothing(StripLeft(t[n..]));
      } else {
        StripLeftOfNothing();
      }
    }
  }

  lemma SqueezeOfNothing()
    ensures Squeeze("") == ""
  {
  }

  lemma StripLeftOfNothing()
    ensures StripLeft("") == ""
  {
  }

  lemma SqueezeIsNothing(t: string)
    requires t == "" || !IsSpace(t[0])
    ensures Squeeze(t) == "" <==> t == ""
  {
    hide IsSpace;
  }

  lemma SqueezeSteps(t: string)
    requires t != ""
    ensures var r := Squeeze(t);
            if IsSpace(t[0]) && (|t| == 1 || IsSpace(t[1])) then r == Squeeze(t[1..])
            else r != "" && r[0] == (if IsSpace(t[0]) then ' ' else t[0]) && r[1..] == Squeeze(t[1..])
  {
    hide IsSpace;
  }

  /** Up to its first blank squeezed text is the text itself. */
  lemma {:induction false} SqueezedReads(t: string, k: nat)
    requires k <= |Squeeze(t)| && forall i :: 0 <= i < k ==> !IsSpace(Squeeze(t)[i])
    ensures k <= |t| && t[..k] == Squeeze(t)[..k] && Squeeze(t)[k..] == Squeeze(t[k..])
    decreases k
  {
    hide IsSpace, Squeeze, StripLeft;
    var r := Squeeze(t);
    if k == 0 {
      assert t[0..] == t && r[0..] == r;
    } else {
      assert t != "" by { SqueezeOfNothing(); }
      SqueezedFirst(t);
      SqueezeKeepsFirst(t);
      var rest := Squeeze(t[1..]);
      forall i | 0 <= i < k - 1 ensures !IsSpace(rest[i]) {
        assert rest[i] == r[i + 1];
      }
      SqueezedReads(t[1..], k - 1);
      assert t[..k] == [t[0]] + t[1..][..k - 1] && r[..k] == [t[0]] + rest[..k - 1];
      assert t[k..] == t[1..][k - 1..] && r[k..] == rest[k - 1..];
    }
  }

  lemma SqueezedFirst(t: string)
    requires t != "" && Squeeze(t) != "" && !IsSpace(Squeeze(t)[0])
    ensures !IsSpace(t[0])
  {
    hide IsSpace, Squeeze, StripLeft;
    BlankIsSpace();
    SqueezeSkips(t);
  }

  lemma LettersAreNoSpaces(c: char)
    ensures Alnum(c) || KeyChar(c) ==> !IsSpace(c)
  {
  }

  lemma SqueezedWord(t: string)
    ensures var n := SecretWord(Squeeze(t));
            n > 0 ==> SecretWord(t) == n && Squeeze(t)[n..] == Squeeze(t[n..])
  {
    hide SecretWord, IsSpace, Alnum, KeyChar, Squeeze;
    var r := Squeeze(t);
    var n := SecretWord(r);
    if n > 0 {
      WordBegins(r);
      forall i | 0 <= i < n ensures !IsSpace(r[i]) {
        LettersAreNoSpaces(r[i]);
      }
      SqueezedReads(t, n);
      SameWord(t, r);
    }
  }

  lemma HashHasNoSpace(t: string)
    requires HashAfter(t) == 5
    ensures forall i :: 0 <= i < 5 ==> !IsSpace(t[i])
  {
    forall i | 0 <= i < 5 ensures !IsSpace(t[i]) {
      assert Fold(t[i]) == "_hash"[i];
    }
  }

  lemma SqueezedHash(t: string)
    ensures var h := HashAfter(Squeeze(t)); HashAfter(t) == h && Squeeze(t)[h..] == Squeeze(t[h..])
  {
    hide HashAfter, IsSpace, Squeeze;
    var r := Squeeze(t);
    assert r[0..] == r && t[0..] == t;
    if HashAfter(r) > 0 {
      HashBegins(r);
      HashHasNoSpace(r);
      SqueezedReads(t, 5);
      SameHash(t, r);
    } else if HashAfter(t) > 0 {
      HashBegins(t);
      HashHasNoSpace(t);
      SqueezeReads(t, 5);
      assert r[..5] == t[..5];
      SameHash(r, t);
    }
  }

  lemma ValueSqueezes(t: string)
    ensures ValueAfter(Squeeze(t)) == Squeeze(ValueAfter(t))
  {
    hide ValueAfter, StripLeft, IsSpace, Squeeze;
    SqueezeSkips(t);
    FirstIsNoSpace(t);
    ValueOfSign(t);
    ValueOfSign(Squeeze(t));
    SqueezeOfNothing();
    var sign := StripLeft(t);
    if sign != "" {
      SqueezeKeepsFirst(sign);
      SqueezeSkips(sign[1..]);
    }
  }

  lemma ValueOfSign(t: string)
    ensures var sign := StripLeft(t);
            ValueAfter(t) == if sign != "" && (sign[0] == ':' || sign[0] == '=') then StripLeft(sign[1..]) else ""
  {
    hide StripLeft;
  }

  lemma ValueIsStripped(t: string)
    ensures var v := ValueAfter(t); v == "" || !IsSpace(v[0])
  {
    hide IsSpace;
  }

  lemma SqueezedValue(t: string)
    requires ValueMatch(ValueAfter(Squeeze(t))) > 0
    ensures ValueMatch(ValueAfter(t)) > 0
  {
    hide StripLeft, IsSpace, Stops, Squeeze, ValueAfter, UpTo, PlainValue;
    ValueSqueezes(t);
    ValueIsStripped(t);
    SqueezeOfNothing();
    SqueezeKeepsFirst(ValueAfter(t));
  }

  lemma FirstIsNoSpace(t: string)
    ensures StripLeft(t) == "" || !IsSpace(StripLeft(t)[0])
  {
  }

  lemma SqueezeKeepsFirst(t: string)
    requires t != "" && !IsSpace(t[0])
    ensures Squeeze(t) == [t[0]] + Squeeze(t[1..]) && Squeeze(t)[1..] == Squeeze(t[1..])
  {
    hide IsSpace;
  }

  /** An assignment in squeezed text was there before. */
  lemma SqueezedTail(t: string)
    requires TailMatch(Squeeze(t)) > 0
    ensures TailMatch(t) > 0
  {
    hide TailMatch, SecretWord, HashAfter, ValueMatch, Squeeze, IsSpace, ValueAfter;
    TailInParts(Squeeze(t));
    TailInParts(t);
    SqueezedWord(t);
    SqueezedHash(t[SecretWord(t)..]);
    SqueezedValue(t[SecretWord(t)..][HashAfter(t[SecretWord(t)..])..]);
  }

  lemma {:induction false} SqueezeBringsNoAssignment(t: string)
    requires NoAssignment(t)
    ensures NoAssignment(Squeeze(t))
    decreases |t|
  {
    hide TailMatch, IsSpace;
    if t != "" {
      SqueezeBringsNoAssignment(t[1..]);
      var r := Squeeze(t);
      if TailMatch(r) > 0 {
        SqueezedTail(t);
      }
      assert r == Squeeze(t[1..]) || r[1..] == Squeeze(t[1..]);
    }
  }

  /** A key or a word in squeezed text was there before. */
  lemma SqueezedMatch(p: Pattern, shown: char, prev: char, t: string)
    requires p != Assignment && (Alnum(shown) <==> Alnum(prev))
    requires Match(p, shown, Squeeze(t)) > 0
    ensures Match(p, prev, t) > 0
  {
    hide KeyMatch, WordMatch, SecretWord, Squeeze, Alnum, IsSpace, KeyChar;
    var r := Squeeze(t);
    if p == Word {
      WordMatchIff(shown, r);
      WordMatchIff(prev, t);
      SqueezedWord(t);
      var n := SecretWord(t);
      assert r[n..] == Squeeze(t[n..]);
      assert n < |r| ==> r[n] == r[n..][0];
      if n < |t| && Alnum(t[n]) {
        LettersAreNoSpaces(t[n]);
        SqueezeKeepsFirst(t[n..]);
      }
    } else {
      KeyBegins(shown, r);
      forall i | 0 <= i < 15 ensures !IsSpace(r[i]) {
        KeyHasNoSpace(shown, r, i);
      }
      SqueezedReads(t, 15);
      SameKey(shown, t, r);
      KeyAfter(shown, prev, t);
    }
  }

  lemma KeyHasNoSpace(prev: char, t: string, i: nat)
    requires KeyMatch(prev, t) > 0 && i < 15 && |t| >= 15
    ensures !IsSpace(t[i])
  {
    hide Alnum, IsSpace;
    KeyBegins(prev, t);
    RunHolds(t[3..]);
    if i >= 3 {
      assert t[i] == t[3..][i - 3];
    } else {
      assert Fold(t[i]) == "sk-"[i];
      if i == 2 { DashFolds(t[i]); } else { FoldedLetter(t[i]); }
    }
    LettersAreNoSpaces(t[i]);
  }

  lemma DashFolds(c: char)
    requires Fold(c) == '-'
    ensures KeyChar(c)
  {
  }

  lemma KeyAfter(shown: char, prev: char, t: string)
    requires (Alnum(shown) <==> Alnum(prev)) && KeyMatch(shown, t) > 0
    ensures KeyMatch(prev, t) > 0
  {
    hide Alnum;
  }

  lemma MatchIsNoSpace(p: Pattern, prev: char, t: string)
    requires Match(p, prev, t) > 0
    ensures t != "" && !IsSpace(t[0])
  {
    hide Match, IsSpace;
    MatchBegins(p, prev, t);
  }

  lemma {:induction false} SqueezeBringsNoMatch(p: Pattern, shown: char, prev: char, t: string)
    requires p != Assignment && Clean(p, prev, t)
    requires (Alnum(shown) <==> Alnum(prev)) || t == "" || IsSpace(t[0])
    ensures Clean(p, shown, Squeeze(t))
    decreases |t|
  {
    hide Match, IsSpace, Alnum, Squeeze;
    SqueezeOfNothing();
    if t != "" {
      var r := Squeeze(t);
      SqueezeSteps(t);
      if r == Squeeze(t[1..]) && (|t| == 1 || IsSpace(t[1])) && IsSpace(t[0]) {
        SqueezeBringsNoMatch(p, shown, t[0], t[1..]);
      } else {
        BlanksAreNoLetters(t[0]);
        SqueezeBringsNoMatch(p, r[0], t[0], t[1..]);
        if Match(p, shown, r) > 0 {
          MatchIsNoSpace(p, shown, r);
          BlankIsSpace();
          SqueezedMatch(p, shown, prev, t);
        }
      }
    }
  }

  lemma BlanksAreNoLetters(c: char)
    ensures !Alnum(' ') && (IsSpace(c) ==> !Alnum(c))
  {
  }

  /** Collapsing clean text leaves it clean. */
  lemma CollapsedIsClean(s: string)
    requires IsClean(s)
    ensures IsClean(Collapse(s))
  {
    hide Clean, Match, NoAssignment, StripLeft, Squeeze, Collapse, IsSpace, Alnum;
    var k := |s| - |StripLeft(s)|;
    LeadingBlanks(s);
    CollapseSqueezes(s);
    BlanksAreNoLetters(Before(' ', s, k));
    BlankIsSpace();
    CleanOfAssignments(' ', s);
    NoAssignmentLater(s, k);
    SqueezeBringsNoAssignment(s[k..]);
    CleanOfAssignments(' ', Collapse(s));
    forall p ensures Clean(p, ' ', Collapse(s)) {
      if p != Assignment {
        CleanLater(p, ' ', s, k);
        SqueezeBringsNoMatch(p, ' ', Before(' ', s, k), s[k..]);
      }
    }
  }

  lemma LeadingBlanks(s: string)
    ensures var k := |s| - |StripLeft(s)|; k >= 0 && s[k..] == StripLeft(s) && (k > 0 ==> IsSpace(s[k - 1]))
  {
    hide IsSpace;
  }

  /** Squeezing leaves a beginning alone that is squeezed already. */
  lemma {:induction false} SqueezeKeeps(t: string, k: nat)
    requires k < |t| && !IsSpace(t[k])
    requires forall i :: 0 <= i < k && IsSpace(t[i]) ==> t[i] == ' ' && !IsSpace(t[i + 1])
    ensures k < |Squeeze(t)| && Squeeze(t)[..k + 1] == t[..k + 1]
    decreases k
  {
    hide IsSpace, Squeeze;
    SqueezeSteps(t);
    var r := Squeeze(t);
    if k > 0 {
      forall i | 0 <= i < k - 1 && IsSpace(t[1..][i]) ensures t[1..][i] == ' ' && !IsSpace(t[1..][i + 1]) {
        assert t[1..][i] == t[i + 1] && t[1..][i + 1] == t[i + 2];
      }
      SqueezeKeeps(t[1..], k - 1);
      assert r == [t[0]] + r[1..] && r[..k + 1] == [t[0]] + r[1..][..k] && t[..k + 1] == [t[0]] + t[1..][..k];
    }
  }

  // ------------------------------------------------------------ harmless text

  lemma KeyHasK(prev: char, t: string)
    requires KeyMatch(prev, t) > 0
    ensures |t| >= 2 && Fold(t[1]) == 'k'
  {
    hide Alnum, KeyRun;
    assert Fold(t[1]) == "sk-"[1];
  }

  lemma {:induction false} NoKeyWithoutK(prev: char, t: string)
    requires forall c <- t :: Fold(c) != 'k'
    ensures Clean(Key, prev, t)
    decreases |t|
  {
    hide KeyRun, Alnum, Fold;
    if t != "" {
      NoKeyWithoutK(t[0], t[1..]);
      if KeyMatch(prev, t) > 0 {
        KeyHasK(prev, t);
      }
    }
  }

  lemma ItIsTheWord(t: string)
    requires |t| > 8 && t[..8] == "password"
    ensures SecretWord(t) == 8
  {
    forall i | 0 <= i < 8 ensures Fold(t[i]) == "password"[i] {
      assert t[i] == t[..8][i];
    }
  }

  lemma SignsAreNoLetters(c: char)
    ensures Alnum(c) ==> c != '_' && c != ':' && c != '=' && !IsSpace(c)
  {
  }

  lemma NoSignNoValue(t: string)
    requires t != "" && !IsSpace(t[0]) && t[0] != ':' && t[0] != '='
    ensures ValueMatch(ValueAfter(t)) == 0
  {
    hide IsSpace, ValueMatch;
    NoValueOfNothing();
  }

  /** A secret word that a letter or digit follows is neither a word nor the key of an assignment. */
  lemma LongerWordIsNoSecret(prev: char, t: string)
    requires var n := SecretWord(t); 0 < n < |t| && Alnum(t[n])
    ensures TailMatch(t) == 0 && WordMatch(prev, t) == 0
  {
    hide SecretWord, HashAfter, TailMatch, WordMatch, ValueMatch, ValueAfter, IsSpace;
    var n := SecretWord(t);
    var rest := t[n..];
    SignsAreNoLetters(t[n]);
    assert rest[0] == t[n];
    if HashAfter(rest) > 0 {
      HashBegins(rest);
    }
    assert rest[0..] == rest;
    NoSignNoValue(rest);
    TailInParts(t);
    WordMatchIff(prev, t);
  }
}
