/** The Python string operations the modelled code relies on. */
module Text {

  /** The characters for which `str.isspace` holds, which is what `str.strip` removes. */
  predicate IsSpace(c: char) {
    '\t' <= c <= '\r'
    || '\U{1c}' <= c <= ' '
    || c == '\U{85}' || c == '\U{a0}' || c == '\U{1680}'
    || '\U{2000}' <= c <= '\U{200a}'
    || c == '\U{2028}' || c == '\U{2029}' || c == '\U{202f}' || c == '\U{205f}' || c == '\U{3000}'
  }

  function StripLeft(s: string): (r: string)
    ensures |r| <= |s| && r == s[|s| - |r|..]
    ensures r == "" || !IsSpace(r[0])
    ensures forall i :: 0 <= i < |s| - |r| ==> IsSpace(s[i])
  {
    if s != "" && IsSpace(s[0]) then StripLeft(s[1..]) else s
  }

  function StripRight(s: string): (r: string)
    ensures |r| <= |s| && r == s[..|r|]
    ensures r == "" || !IsSpace(r[|r| - 1])
    ensures forall i :: |r| <= i < |s| ==> IsSpace(s[i])
  {
    if s != "" && IsSpace(s[|s| - 1]) then StripRight(s[..|s| - 1]) else s
  }

  /** `s.strip()` */
  function Strip(s: string): string
    decreases |s|
  {
    if s != "" && IsSpace(s[0]) then Strip(s[1..])
    else if s != "" && IsSpace(s[|s| - 1]) then Strip(s[..|s| - 1])
    else s
  }

  /** Stripped text neither begins nor ends with a space. */
  lemma {:induction false} StripEnds(s: string)
    ensures var r := Strip(s); r == "" || (!IsSpace(r[0]) && !IsSpace(r[|r| - 1]))
    decreases |s|
  {
    hide IsSpace;
    if s != "" && IsSpace(s[0]) {
      StripEnds(s[1..]);
    } else if s != "" && IsSpace(s[|s| - 1]) {
      StripEnds(s[..|s| - 1]);
    }
  }

  lemma LeftStep(s: string)
    requires s != ""
    ensures StripLeft(s) == if IsSpace(s[0]) then StripLeft(s[1..]) else s
  {
    hide IsSpace;
  }

  lemma RightStep(s: string)
    requires s != ""
    ensures StripRight(s) == if IsSpace(s[|s| - 1]) then StripRight(s[..|s| - 1]) else s
  {
    hide IsSpace;
  }

  /** Stripping from the left and then from the right is stripping. */
  lemma {:induction false} StripBothSides(s: string)
    ensures Strip(s) == StripRight(StripLeft(s))
    decreases |s|
  {
    hide IsSpace, StripLeft, StripRight;
    if s == "" {
      assert StripLeft(s) == "" && StripRight("") == "";
    } else {
      LeftStep(s);
      if IsSpace(s[0]) {
        StripBothSides(s[1..]);
      } else {
        RightStep(s);
        if IsSpace(s[|s| - 1]) {
          var init := s[..|s| - 1];
          assert init != "" && init[0] == s[0];
          LeftStep(init);
          StripBothSides(init);
        }
      }
    }
  }

  /** Text that neither begins nor ends with a space is left alone. */
  lemma StripIdentity(s: string)
    requires s == "" || (!IsSpace(s[0]) && !IsSpace(s[|s| - 1]))
    ensures Strip(s) == s
  {
    hide IsSpace;
  }

  lemma StripIdempotent(s: string)
    ensures Strip(Strip(s)) == Strip(s)
  {
    hide IsSpace, Strip;
    StripEnds(s);
    StripIdentity(Strip(s));
  }

  function LowerChar(c: char): char {
    if 'A' <= c <= 'Z' then c + (32 as char) else c
  }

  function Lower(s: string): string {
    seq(|s|, i requires 0 <= i < |s| => LowerChar(s[i]))
  }

  lemma LowerIdempotent(s: string)
    ensures Lower(Lower(s)) == Lower(s)
  {
  }

  /** `str(s).strip().lower()` */
  function Normal(s: string): string {
    Lower(Strip(s))
  }

  lemma NormalIsNormal(s: string)
    ensures Normal(Normal(s)) == Normal(s)
  {
    hide Strip;
    var t := Strip(s);
    var l := Lower(t);
    StripEnds(s);
    if l != "" {
      assert l[0] == LowerChar(t[0]) && l[|l| - 1] == LowerChar(t[|t| - 1]);
    }
    StripIdentity(l);
    LowerIdempotent(t);
  }

  /** Text of lower-case letters and underscores is its own normal form. */
  lemma PlainIsNormal(s: string)
    requires forall c <- s :: 'a' <= c <= 'z' || c == '_'
    ensures Normal(s) == s
  {
    hide Strip;
    if s != "" {
      assert s[0] in s && s[|s| - 1] in s;
    }
    StripIdentity(s);
    assert forall i :: 0 <= i < |s| ==> s[i] in s;
    assert Lower(s) == s;
  }

  predicate IsAlphanumeric(c: char) {
    'A' <= c <= 'Z' || 'a' <= c <= 'z' || '0' <= c <= '9'
  }

  /** `^[A-Za-z0-9][A-Za-z0-9._:-]{0,511}$` */
  predicate IsIdentifier(s: string) {
    0 < |s| <= 512
    && IsAlphanumeric(s[0])
    && forall c :: c in s ==> IsAlphanumeric(c) || c == '.' || c == '_' || c == ':' || c == '-'
  }

  predicate IsLowerHex(s: string) {
    forall c :: c in s ==> '0' <= c <= '9' || 'a' <= c <= 'f'
  }

  /** `^sha256:[0-9a-f]{64}$` */
  predicate IsDigest(s: string) {
    |s| == 71 && s[..7] == "sha256:" && IsLowerHex(s[7..])
  }

  /** `^fp-[0-9a-f]{40}$` */
  predicate IsFingerprint(s: string) {
    |s| == 43 && s[..3] == "fp-" && IsLowerHex(s[3..])
  }
}
