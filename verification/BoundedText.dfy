/**
  Whitespace collapse and bounded text
  (src/agent_bridge_connect/approval.py:1990-2014; src/agent_bridge_connect/approval_protocol.py:22-24).
*/
module BoundedText {
  import opened Text

  const ELLIPSIS := '\U{2026}'

  /** The length of the first word. */
  function WordLength(s: string): (n: nat)
    ensures n <= |s| && (forall i :: 0 <= i < n ==> !IsSpace(s[i])) && (n < |s| ==> IsSpace(s[n]))
  {
    if s == "" || IsSpace(s[0]) then 0 else 1 + WordLength(s[1..])
  }

  /** `" ".join(s.split())` */
  function Collapse(s: string): string
    decreases |s|
  {
    var t := StripLeft(s);
    if t == "" then ""
    else
      var n := WordLength(t);
      var rest := Collapse(t[n..]);
      t[..n] + (if rest == "" then "" else " " + rest)
  }

  /** Words with single spaces between them. */
  predicate IsCollapsed(s: string) {
    (s == "" || (!IsSpace(s[0]) && !IsSpace(s[|s| - 1])))
    && forall i :: 0 <= i < |s| && IsSpace(s[i]) ==> s[i] == ' ' && i + 1 < |s| && !IsSpace(s[i + 1])
  }

  /** `_bounded_text_with_truncation`, without its flag. */
  function Bounded(value: string, limit: nat): string {
    var text := Collapse(value);
    if |text| <= limit then text
    else if limit == 0 then ""
    else if limit == 1 then [ELLIPSIS]
    else StripRight(text[..limit - 1]) + [ELLIPSIS]
  }

  lemma BlankIsSpace()
    ensures IsSpace(' ') && !IsSpace(ELLIPSIS)
  {
  }

  /** A word, a blank and collapsed text make collapsed text. */
  lemma WordThenCollapsed(word: string, rest: string)
    requires word != "" && (forall i :: 0 <= i < |word| ==> !IsSpace(word[i])) && IsCollapsed(rest)
    ensures IsCollapsed(word + (if rest == "" then "" else " " + rest))
  {
    hide IsSpace;
    BlankIsSpace();
    var r := word + (if rest == "" then "" else " " + rest);
    forall i | 0 <= i < |r| && IsSpace(r[i]) ensures r[i] == ' ' && i + 1 < |r| && !IsSpace(r[i + 1]) {
      var n := |word|;
      if i > n {
        assert r[i] == rest[i - n - 1];
        assert i + 1 < |r| ==> r[i + 1] == rest[i - n];
      }
    }
  }

  lemma CollapseStep(s: string)
    ensures var t := StripLeft(s);
            if t == "" then Collapse(s) == ""
            else
              var n := WordLength(t);
              var rest := Collapse(t[n..]);
              Collapse(s) == t[..n] + (if rest == "" then "" else " " + rest)
  {
    hide IsSpace, StripLeft, WordLength;
  }

  lemma {:induction false} CollapseIsCollapsed(s: string)
    ensures IsCollapsed(Collapse(s))
    decreases |s|
  {
    hide IsCollapsed, IsSpace, StripLeft, WordLength, Collapse;
    CollapseStep(s);
    var t := StripLeft(s);
    if t == "" {
      NothingIsCollapsed();
    } else {
      var n := WordLength(t);
      CollapseIsCollapsed(t[n..]);
      WordThenCollapsed(t[..n], Collapse(t[n..]));
    }
  }

  lemma NothingIsCollapsed()
    ensures IsCollapsed("")
  {
  }

  /** What follows a blank of collapsed text is collapsed. */
  lemma TailIsCollapsed(s: string, n: nat)
    requires IsCollapsed(s) && n < |s| && IsSpace(s[n])
    ensures s[n] == ' ' && s[n + 1..] != "" && !IsSpace(s[n + 1]) && IsCollapsed(s[n + 1..])
  {
    hide IsSpace;
    var rest := s[n + 1..];
    assert rest[|rest| - 1] == s[|s| - 1];
    forall i | 0 <= i < |rest| && IsSpace(rest[i]) ensures rest[i] == ' ' && i + 1 < |rest| && !IsSpace(rest[i + 1]) {
      assert rest[i] == s[n + 1 + i];
      assert i + 1 < |rest| ==> rest[i + 1] == s[n + 2 + i];
    }
  }

  lemma StartsWithAWord(s: string)
    requires s != "" && !IsSpace(s[0])
    ensures StripLeft(s) == s && WordLength(s) > 0
  {
    hide IsSpace;
  }

  lemma CollapseUnfolds(s: string)
    requires s != "" && !IsSpace(s[0])
    ensures var n := WordLength(s);
            var rest := Collapse(s[n..]);
            Collapse(s) == s[..n] + (if rest == "" then "" else " " + rest)
  {
    hide IsSpace, WordLength;
    StartsWithAWord(s);
  }

  /** Collapsed text is left alone. */
  lemma {:induction false} CollapsedIsFixed(s: string)
    requires IsCollapsed(s)
    ensures Collapse(s) == s
    decreases |s|
  {
    hide IsSpace, StripLeft, WordLength, Collapse;
    NothingToCollapse();
    if s != "" {
      StartsWithAWord(s);
      CollapseUnfolds(s);
      var n := WordLength(s);
      if n < |s| {
        TailIsCollapsed(s, n);
        var rest := s[n + 1..];
        assert s[n..] == " " + rest;
        CollapsedIsFixed(rest);
        StartsWithAWord(rest);
        SkipsOneBlank(rest);
        SameWords(s[n..], rest);
        assert s == s[..n] + (" " + rest);
      } else {
        assert s[..n] == s && s[n..] == "";
      }
    }
  }

  lemma NothingToCollapse()
    ensures Collapse("") == ""
  {
  }

  lemma SkipsOneBlank(rest: string)
    requires rest != "" && !IsSpace(rest[0])
    ensures StripLeft(" " + rest) == rest
  {
    assert (" " + rest)[1..] == rest;
  }

  lemma SameWords(s: string, t: string)
    requires StripLeft(s) == t && StripLeft(t) == t
    ensures Collapse(s) == Collapse(t)
  {
  }

  /** Bounded text fits, is collapsed, and is its own bounded text. */
  lemma BoundedIsFixed(s: string, limit: nat)
    requires limit >= 2
    ensures var r := Bounded(s, limit); |r| <= limit && IsCollapsed(r) && Bounded(r, limit) == r
  {
    hide IsSpace, Collapse;
    var text := Collapse(s);
    CollapseIsCollapsed(s);
    BlankIsSpace();
    var r := Bounded(s, limit);
    if |text| > limit {
      var kept := StripRight(text[..limit - 1]);
      assert r == kept + [ELLIPSIS];
      forall i | 0 <= i < |r| && IsSpace(r[i]) ensures r[i] == ' ' && i + 1 < |r| && !IsSpace(r[i + 1]) {
        assert r[i] == kept[i] == text[i];
        assert i + 1 < |kept| ==> kept[i + 1] == text[i + 1];
      }
    }
    CollapsedIsFixed(r);
  }

  /** Stripping collapsed text changes nothing. */
  lemma CollapsedIsStripped(s: string)
    requires IsCollapsed(s)
    ensures Strip(s) == s
  {
    StripIdentity(s);
  }
}
