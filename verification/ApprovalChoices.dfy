/**
  The v2 choice broker: normalising the executor's offered choices, their
  digests and handles, the rebuild-and-compare validator, and selection
  (src/agent_bridge_connect/approval.py:454-519, 715-816, 943-1038, 1548-1629;
  src/agent_bridge_connect/approval_protocol.py:395-430).

  Digests and handles are constructors: two of them are equal exactly when what
  they are computed from is equal.
*/
module ApprovalChoices {
  import opened Outcomes
  import opened Text
  import opened Clock
  import opened BoundedText
  import opened Redaction
  import NativeRequest

  const APPROVAL_V2_MAX_CHOICES := 12
  const APPROVAL_V2_LABEL_LIMIT := 120
  const CHOICES_INVALID := "approval_choices_invalid"

  /** The `selectable` of an offered choice; an absent one is `Yes`, one that is no boolean is `Odd`. */
  datatype Selectable = Yes | No | Odd

  /** A choice as the executor offers it; the caption is its label. */
  datatype RawChoice = RawChoice(optionId: string, kind: string, caption: string, selectable: Selectable)

  datatype Digest = Digest(optionId: string, kind: string, caption: string, selectable: bool)

  datatype Handle = Handle(requestId: string, index: nat, digest: Digest)

  datatype Choice = Choice(handle: Handle, optionId: string, kind: string, caption: string, selectable: bool, digest: Digest)

  predicate IsKind(kind: string) {
    kind == "once" || kind == "session" || kind == "deny" || kind == "other"
  }

  predicate HasControl(s: string) {
    exists c <- s :: c < ' ' || c == '\U{7f}'
  }

  function MakeChoice(requestId: string, index: nat, optionId: string, kind: string, caption: string, selectable: bool): Choice {
    var digest := Digest(optionId, kind, caption, selectable);
    Choice(Handle(requestId, index, digest), optionId, kind, caption, selectable, digest)
  }

  // ------------------------------------------------------------ the durable normaliser

  /** The label text before it is bounded. */
  function LabelText(caption: string): string {
    Collapse(Redact(Strip(caption)))
  }

  /** The label a receipt stores. */
  function StoredLabel(caption: string): string {
    Bounded(LabelText(caption), APPROVAL_V2_LABEL_LIMIT)
  }

  predicate ChoiceOk(raw: RawChoice) {
    IsIdentifier(Strip(raw.optionId)) && IsKind(Normal(raw.kind))
    && !HasControl(LabelText(raw.caption)) && raw.selectable != Odd
  }

  function Normalized(requestId: string, index: nat, raw: RawChoice): Choice {
    MakeChoice(requestId, index, Strip(raw.optionId), Normal(raw.kind), StoredLabel(raw.caption), raw.selectable == Yes)
  }

  function NormalizedAll(requestId: string, raws: seq<RawChoice>): seq<Choice> {
    seq(|raws|, k requires 0 <= k < |raws| => Normalized(requestId, k, raws[k]))
  }

  /** What `build_offered_choices` answers. */
  function Offer(requestId: string, raws: seq<RawChoice>): Result<seq<Choice>> {
    if raws == [] then Err("approval_choices_missing")
    else if |raws| > APPROVAL_V2_MAX_CHOICES then Err(CHOICES_INVALID)
    else if forall raw <- raws :: ChoiceOk(raw) then Ok(NormalizedAll(requestId, raws))
    else Err(CHOICES_INVALID)
  }

  /**
    The loop of the source, with its set of handles seen. The handle holds the
    place of the choice, so the check for duplicates never fires.
  */
  method BuildOfferedChoices(requestId: string, raws: seq<RawChoice>) returns (outcome: Result<seq<Choice>>)
    ensures outcome == Offer(requestId, raws)
  {
    hide ChoiceOk, Strip, Normal, StoredLabel;
    ghost var all := NormalizedAll(requestId, raws);
    if raws == [] {
      return Err("approval_choices_missing");
    }
    if |raws| > APPROVAL_V2_MAX_CHOICES {
      return Err(CHOICES_INVALID);
    }
    var normalized: seq<Choice> := [];
    var seen: set<Handle> := {};
    for index := 0 to |raws|
      invariant |normalized| == index && forall k :: 0 <= k < index ==> normalized[k] == Normalized(requestId, k, raws[k])
      invariant forall k :: 0 <= k < index ==> ChoiceOk(raws[k])
      invariant forall h <- seen :: h.index < index
    {
      var raw := raws[index];
      if !ChoiceOk(raw) {
        assert raw in raws;
        return Err(CHOICES_INVALID);
      }
      var entry := Normalized(requestId, index, raw);
      if entry.handle in seen {
        assert false;
      }
      seen := seen + {entry.handle};
      normalized := normalized + [entry];
    }
    assert normalized == all;
    outcome := Ok(normalized);
  }

  // ------------------------------------------------------------ rebuild and compare

  function AsRaw(c: Choice): RawChoice {
    RawChoice(c.optionId, c.kind, c.caption, if c.selectable then Yes else No)
  }

  function AsRaws(choices: seq<Choice>): seq<RawChoice> {
    seq(|choices|, k requires 0 <= k < |choices| => AsRaw(choices[k]))
  }

  /** The validator builds the stored choices again and compares them field by field. */
  predicate ChoicesValid(requestId: string, stored: seq<Choice>) {
    Offer(requestId, AsRaws(stored)) == Ok(stored)
  }

  lemma KindsAreNormal(kind: string)
    requires IsKind(kind)
    ensures Normal(kind) == kind
  {
    hide Normal;
    PlainIsNormal(kind);
  }

  lemma IdentifierIsStripped(s: string)
    requires IsIdentifier(s)
    ensures Strip(s) == s
  {
    assert s[0] in s && s[|s| - 1] in s;
    StripIdentity(s);
  }

  // ------------------------------------------------------------ which labels survive being stored

  /** A text in which no secret pattern matches is stored as it is. */
  lemma CleanTextIsStored(text: string)
    requires IsCollapsed(text) && |text| <= APPROVAL_V2_LABEL_LIMIT && IsClean(text)
    ensures LabelText(text) == text && StoredLabel(text) == text
  {
    hide Strip, Collapse, IsClean, Redact;
    CollapsedIsStripped(text);
    RedactFixesIff(text);
    CollapsedIsFixed(text);
  }

  /** A stored text in which a pattern matches is not stored as it is: the bracket shows, and no cut takes it away. */
  lemma SecretIsNotStored(text: string)
    requires IsCollapsed(text) && |text| <= APPROVAL_V2_LABEL_LIMIT && !IsClean(text)
    ensures StoredLabel(text) != text
  {
    hide Strip, Collapse, IsClean, Redact, IsSpace, Squeeze, StripLeft, StripRight;
    CollapsedIsStripped(text);
    var k := RedactShows(text);
    var shown := Redact(text);
    BracketIsNoSpace();
    forall i | 0 <= i < k && IsSpace(shown[i]) ensures shown[i] == ' ' && !IsSpace(shown[i + 1]) {
      assert shown[i] == shown[..k][i] == text[i];
      assert i + 1 < k ==> shown[i + 1] == shown[..k][i + 1] == text[i + 1];
    }
    SqueezeKeeps(shown, k);
    assert StripLeft(shown) == shown by { NothingToSkip(text, shown, k); }
    CollapseSqueezes(shown);
    var out := LabelText(text);
    assert out[k] == out[..k + 1][k] == '[';
    CollapseIsCollapsed(shown);
    CollapsedIsFixed(out);
    if |out| > APPROVAL_V2_LABEL_LIMIT {
      CutKeeps(out[..APPROVAL_V2_LABEL_LIMIT - 1], k);
    }
    assert StoredLabel(text)[k] == '[';
  }

  lemma NothingToSkip(text: string, shown: string, k: nat)
    requires IsCollapsed(text) && Departs(text, shown, k)
    ensures StripLeft(shown) == shown
  {
    BracketIsNoSpace();
    if k > 0 {
      assert shown[0] == shown[..k][0] == text[..k][0] == text[0];
    }
  }

  lemma CutKeeps(s: string, k: nat)
    requires k < |s| && !IsSpace(s[k])
    ensures k < |StripRight(s)| && StripRight(s)[k] == s[k]
  {
    hide IsSpace;
  }

  lemma BoundedHasNoControl(text: string)
    requires !HasControl(text) && IsCollapsed(text)
    ensures !HasControl(Bounded(text, APPROVAL_V2_LABEL_LIMIT))
  {
    hide Collapse;
    CollapsedIsFixed(text);
    var stored := Bounded(text, APPROVAL_V2_LABEL_LIMIT);
    forall c <- stored ensures !(c < ' ' || c == '\U{7f}') {
      assert c in text || c == ELLIPSIS;
    }
  }

  /** A stored label is stored again as it is exactly when no secret pattern matches in it. */
  lemma StoredAgainIff(caption: string)
    requires !HasControl(LabelText(caption))
    ensures var stored := StoredLabel(caption);
            StoredLabel(stored) == stored && !HasControl(LabelText(stored)) <==> IsClean(stored)
  {
    hide Strip, Collapse, IsClean, Redact, HasControl, Bounded;
    var text := LabelText(caption);
    var stored := StoredLabel(caption);
    BoundedIsFixed(text, APPROVAL_V2_LABEL_LIMIT);
    if IsClean(stored) {
      CollapseIsCollapsed(Redact(Strip(caption)));
      BoundedHasNoControl(text);
      CleanTextIsStored(stored);
    } else {
      SecretIsNotStored(stored);
    }
  }

  /** A label that is not cut never shows a secret: redacting once is enough, and collapsing brings nothing back. */
  lemma UncutLabelIsClean(caption: string)
    ensures IsClean(LabelText(caption))
    ensures |LabelText(caption)| <= APPROVAL_V2_LABEL_LIMIT ==> StoredLabel(caption) == LabelText(caption)
  {
    hide Strip, Collapse, IsClean, Redact;
    RedactedIsClean(Strip(caption));
    CollapsedIsClean(Redact(Strip(caption)));
    CollapseIsCollapsed(Redact(Strip(caption)));
    CollapsedIsFixed(LabelText(caption));
  }

  /** A stored choice passes the normaliser again, unchanged, exactly when its label is clean. */
  lemma ChoiceRebuilds(requestId: string, index: nat, raw: RawChoice)
    requires ChoiceOk(raw)
    ensures var c := Normalized(requestId, index, raw);
            ChoiceOk(AsRaw(c)) && Normalized(requestId, index, AsRaw(c)) == c <==> IsClean(c.caption)
  {
    hide Strip, Normal, IsIdentifier, StoredLabel, HasControl, LabelText, IsClean;
    IdentifierIsStripped(Strip(raw.optionId));
    KindsAreNormal(Normal(raw.kind));
    StoredAgainIff(raw.caption);
  }

  /** The validator accepts what the builder built exactly when no secret pattern matches in a stored label. */
  lemma RebuildMatchesIff(requestId: string, raws: seq<RawChoice>)
    requires Offer(requestId, raws).Ok?
    ensures var stored := Offer(requestId, raws).value;
            ChoicesValid(requestId, stored) <==> forall c <- stored :: IsClean(c.caption)
  {
    hide ChoiceOk, Normalized, IsClean;
    var stored := Offer(requestId, raws).value;
    var again := AsRaws(stored);
    forall k | 0 <= k < |raws|
      ensures stored[k] in stored && again[k] in again
      ensures ChoiceOk(again[k]) && Normalized(requestId, k, again[k]) == stored[k] <==> IsClean(stored[k].caption)
    {
      assert raws[k] in raws;
      ChoiceRebuilds(requestId, k, raws[k]);
    }
    if forall c <- stored :: IsClean(c.caption) {
      assert NormalizedAll(requestId, again) == stored;
      assert forall raw <- again :: ChoiceOk(raw);
    }
    if ChoicesValid(requestId, stored) {
      forall c <- stored ensures IsClean(c.caption) {
        var k :| 0 <= k < |stored| && stored[k] == c;
        ValidRebuilds(requestId, stored, k);
      }
    }
  }

  lemma ValidRebuilds(requestId: string, stored: seq<Choice>, k: nat)
    requires ChoicesValid(requestId, stored) && k < |stored|
    ensures ChoiceOk(AsRaw(stored[k])) && Normalized(requestId, k, AsRaw(stored[k])) == stored[k]
  {
    hide ChoiceOk, Normalized;
    var again := AsRaws(stored);
    assert again[k] in again;
    assert NormalizedAll(requestId, again)[k] == stored[k];
  }

  /** What is left of a label text that is too long. */
  function Cut(text: string): string
    requires |text| > APPROVAL_V2_LABEL_LIMIT
  {
    StripRight(text[..APPROVAL_V2_LABEL_LIMIT - 1]) + [ELLIPSIS]
  }

  /** The caption is stored whole, or no secret pattern matches where it was cut. */
  predicate SurvivesCut(caption: string) {
    var text := LabelText(caption);
    |text| <= APPROVAL_V2_LABEL_LIMIT || IsClean(Cut(text))
  }

  lemma StoredIsCleanIff(caption: string)
    ensures IsClean(StoredLabel(caption)) <==> SurvivesCut(caption)
  {
    hide Strip, Collapse, IsClean, Redact, StripRight;
    UncutLabelIsClean(caption);
    CollapseIsCollapsed(Redact(Strip(caption)));
    CollapsedIsFixed(LabelText(caption));
  }

  /**
    Of the captions that were offered: what the builder built is valid exactly
    when every redacted caption fits the limit, or shows no secret after it was
    cut.
  */
  lemma BuiltOfferIsValidIff(requestId: string, raws: seq<RawChoice>)
    requires Offer(requestId, raws).Ok?
    ensures ChoicesValid(requestId, Offer(requestId, raws).value) <==> forall raw <- raws :: SurvivesCut(raw.caption)
  {
    hide ChoiceOk, StoredLabel, ChoicesValid, Strip, Normal, IsClean, SurvivesCut;
    var stored := Offer(requestId, raws).value;
    RebuildMatchesIff(requestId, raws);
    forall k | 0 <= k < |raws| ensures stored[k] in stored && raws[k] in raws
                               ensures IsClean(stored[k].caption) <==> SurvivesCut(raws[k].caption)
    {
      StoredIsCleanIff(raws[k].caption);
    }
  }

  function Letters(n: nat): (s: string)
    ensures |s| == n && forall c <- s :: c == 'a'
  {
    if n == 0 then "" else "a" + Letters(n - 1)
  }

  /** A caption that no secret pattern matches, since the word in it goes on; the limit cuts it just before that. */
  function LongCaption(): string {
    Letters(110) + " passwords on"
  }

  lemma PasswordsAreNoSecret()
    ensures TailMatch("passwords on") == 0 && WordMatch(' ', "passwords on") == 0
  {
    hide SecretWord, HashAfter, TailMatch, WordMatch;
    ItIsTheWord("passwords on");
    LongerWordIsNoSecret(' ', "passwords on");
  }

  lemma ThePrefixIsPlain()
    ensures forall c <- Letters(110) + " " :: Fold(c) == c && (c == 'a' || c == ' ')
    ensures forall c <- "asswords on" :: Fold(c) != 'p' && Fold(c) != 'k'
  {
    hide Letters;
  }

  lemma LongCaptionIsClean()
    ensures IsClean(LongCaption())
  {
    hide Letters, TailMatch, WordMatch, KeyMatch, Clean, NoAssignment, Fold;
    var front, t, rest := Letters(110) + " ", "passwords on", "asswords on";
    ThePrefixIsPlain();
    NothingFoldsToK();
    assert LongCaption() == front + t && t == ['p'] + rest && t[1..] == rest && rest == rest + "";
    PasswordsAreNoSecret();
    CleanOfNothing();
    NoAssignmentBehind(rest, "");
    NoWordBehind('p', rest, "");
    BeginsClean(t);
    NoAssignmentBehind(front, t);
    NoWordBehind(' ', front, t);
    forall c <- LongCaption() ensures Fold(c) != 'k' {
      assert c in front || c == 'p' || c in rest;
    }
    NoKeyWithoutK(' ', LongCaption());
    CleanOfAssignments(' ', LongCaption());
    CleanInAll(LongCaption());
  }

  lemma NothingFoldsToK()
    ensures Fold('a') == 'a' && Fold(' ') == ' ' && Fold('p') == 'p'
  {
  }

  lemma CleanOfNothing()
    ensures NoAssignment("") && forall prev :: Clean(Word, prev, "")
  {
  }

  lemma BeginsClean(t: string)
    requires t != "" && TailMatch(t) == 0 && NoAssignment(t[1..])
    requires WordMatch(' ', t) == 0 && Clean(Word, t[0], t[1..])
    ensures NoAssignment(t) && Clean(Word, ' ', t)
  {
    hide TailMatch, WordMatch;
  }

  lemma LongCaptionIsCollapsed()
    ensures IsCollapsed(LongCaption()) && !HasControl(LongCaption()) && |LongCaption()| == 123
  {
    hide Letters;
    var s := LongCaption();
    forall i | 0 <= i < |s| && i != 110 && i != 120 ensures 'a' <= s[i] <= 'z' {
      if i < 110 {
        assert s[i] == Letters(110)[i] && Letters(110)[i] in Letters(110);
      } else {
        assert s[i] == " passwords on"[i - 110];
      }
    }
    assert s[110] == ' ' && s[120] == ' ';
  }

  lemma CutOfLongCaption()
    ensures |LongCaption()| == 123 && Cut(LongCaption()) == Letters(110) + " password" + [ELLIPSIS]
  {
    hide Letters, IsCollapsed, HasControl;
    LongCaptionIsCollapsed();
    var kept := LongCaption()[..119];
    assert kept == Letters(110) + " password";
    assert kept[118] == 'd';
    KeepsItsEnd(kept);
  }

  lemma KeepsItsEnd(s: string)
    requires s != "" && !IsSpace(s[|s| - 1])
    ensures StripRight(s) == s
  {
    hide IsSpace;
  }

  lemma CutCaptionIsNotClean()
    ensures !IsClean(Letters(110) + " password" + [ELLIPSIS])
  {
    hide Letters, Clean, WordMatch;
    var cut := Letters(110) + " password" + [ELLIPSIS];
    if Clean(Word, ' ', cut) {
      CleanLater(Word, ' ', cut, 111);
      assert cut[111..] == "password" + [ELLIPSIS] && cut[110] == ' ';
      CutPasswordIsSecret();
    }
  }

  lemma CutPasswordIsSecret()
    ensures WordMatch(' ', "password" + [ELLIPSIS]) > 0 && !Clean(Word, ' ', "password" + [ELLIPSIS])
  {
    hide SecretWord, HashAfter;
    var t := "password" + [ELLIPSIS];
    WordMatchIff(' ', t);
    assert SecretWord(t) == 8 by { ItIsTheWord(t); }
    assert !Alnum(t[8]);
  }

  /** An offer of the kind the builder accepts and the validator refuses: the cut makes a secret of a harmless word. */
  lemma CutLabelCanBeUnstable(requestId: string)
    ensures var offered := Offer(requestId, [RawChoice("allow", "once", LongCaption(), Yes)]);
            IsClean(LongCaption()) && offered.Ok? && !ChoicesValid(requestId, offered.value)
  {
    hide Letters, Strip, Collapse, IsClean, Redact, HasControl, Lower, IsCollapsed, LongCaption, Cut, ChoicesValid, IsIdentifier,
         StoredLabel;
    var raws := [RawChoice("allow", "once", LongCaption(), Yes)];
    LongCaptionIsClean();
    LongCaptionIsCollapsed();
    CutOfLongCaption();
    CutCaptionIsNotClean();
    CollapsedIsStripped(LongCaption());
    RedactFixesIff(LongCaption());
    CollapsedIsFixed(LongCaption());
    IdentifierIsStripped("allow") by { AllowIsIdentifier(); }
    AllowIsIdentifier();
    PlainIsNormal("once");
    assert raws[0] in raws;
    BuiltOfferIsValidIff(requestId, raws);
  }

  lemma AllowIsIdentifier()
    ensures IsIdentifier("allow")
  {
  }

  // ------------------------------------------------------------ receipts and selection

  datatype Selection = Selection(handle: Handle, optionId: string, kind: string, digest: Digest, source: string, at: Stamp)

  datatype Decision = Decision(kind: string, source: string, at: Stamp)

  const NO_DECISION := Decision("", "", Missing)

  datatype Receipt = Receipt(
    requestId: string, choices: seq<Choice>, selection: Option<Selection>, answered: bool, decision: Decision, createdAt: Stamp)

  predicate IsDecision(kind: string) {
    kind == "approve" || kind == "deny"
  }

  /** The place of the first choice with this handle. */
  function FindHandle(choices: seq<Choice>, h: Handle): (i: nat)
    ensures i <= |choices| && (i < |choices| ==> choices[i].handle == h)
    ensures forall j :: 0 <= j < i ==> choices[j].handle != h
  {
    if choices == [] || choices[0].handle == h then 0 else 1 + FindHandle(choices[1..], h)
  }

  predicate NotBefore(at: Stamp, created: Stamp) {
    at.At? && created.At? && at.instant >= created.instant
  }

  /** What both versions of the receipt are held to. */
  predicate DecisionOk(r: Receipt) {
    r.createdAt.At?
    && if !r.answered then r.decision == NO_DECISION
       else IsDecision(r.decision.kind) && NativeRequest.IsDecisionSource(r.decision.source) && NotBefore(r.decision.at, r.createdAt)
  }

  predicate SelectionOk(r: Receipt) {
    if !r.answered then r.selection.None?
    else
      r.selection.Some?
      && var s := r.selection.value;
         var i := FindHandle(r.choices, s.handle);
         i < |r.choices| && r.choices[i].selectable
         && s.optionId == r.choices[i].optionId && s.kind == r.choices[i].kind && s.digest == r.choices[i].digest
         && NativeRequest.IsDecisionSource(s.source) && NotBefore(s.at, r.createdAt)
  }

  /** `validate_approval_receipt_v2` accepts the receipt. */
  predicate Valid(r: Receipt) {
    ChoicesValid(r.requestId, r.choices) && DecisionOk(r) && SelectionOk(r)
  }

  function Validated(r: Receipt): Result<Receipt> {
    if Valid(r) then Ok(r) else Err("approval_invalid")
  }

  function Selected(r: Receipt, c: Choice, source: string, kind: string, at: Stamp): Receipt {
    r.(selection := Some(Selection(c.handle, c.optionId, c.kind, c.digest, source, at)), answered := true,
       decision := Decision(kind, source, at))
  }

  /** `record_approval_selection`, with the decision stamped as the selection is. */
  function Select(r: Receipt, h: Handle, source: string, decidedType: string, at: Stamp, now: nat): Result<Receipt> {
    var from, kind := Normal(source), Normal(decidedType);
    if !Valid(r) then Err("approval_invalid")
    else if !NativeRequest.IsDecisionSource(from) then Err("approval_decision_invalid")
    else if r.answered then
      if r.selection.value.handle == h && r.selection.value.source == from && r.decision.kind == kind
      then Ok(r) else Err("approval_replay")
    else
      var i := FindHandle(r.choices, h);
      if i == |r.choices| then Err("approval_handle_mismatch")
      else if !r.choices[i].selectable then Err("approval_choice_not_selectable")
      else if !IsDecision(kind) then Err("approval_decision_invalid")
      else Validated(Selected(r, r.choices[i], from, kind, OrNow(at, now)))
  }

  /** `approval_choice_for_handle` */
  function ChoiceFor(r: Receipt, h: Handle): Option<Choice> {
    var i := FindHandle(r.choices, h);
    if i < |r.choices| then Some(r.choices[i]) else None
  }

  /** `record_approval_decision` on a receipt of this version: it decides, and selects nothing. */
  function DecideWithoutSelection(r: Receipt, decision: string, source: string, at: Stamp, now: nat): Result<Receipt> {
    var kind, from := Normal(decision), Normal(source);
    if !DecisionOk(r) then Err("approval_invalid")
    else if !IsDecision(kind) || !NativeRequest.IsDecisionSource(from) then Err("approval_decision_invalid")
    else if r.answered then
      if r.decision.kind == kind && r.decision.source == from then Ok(r) else Err("approval_replay")
    else
      var decided := r.(answered := true, decision := Decision(kind, from, OrNow(at, now)));
      if DecisionOk(decided) then Ok(decided) else Err("approval_invalid")
  }

  /** A handle finds exactly the choice it was built for, and nothing on any other request. */
  lemma HandleFindsItsChoice(r: Receipt, k: nat, other: Receipt)
    requires ChoicesValid(r.requestId, r.choices) && k < |r.choices|
    requires ChoicesValid(other.requestId, other.choices) && other.requestId != r.requestId
    ensures ChoiceFor(r, r.choices[k].handle) == Some(r.choices[k])
    ensures ChoiceFor(other, r.choices[k].handle) == None
  {
    hide ChoicesValid;
    var h := r.choices[k].handle;
    var i, j := FindHandle(r.choices, h), FindHandle(other.choices, h);
    HandleSaysWhere(r, k);
    if i < |r.choices| {
      HandleSaysWhere(r, i);
    }
    if j < |other.choices| {
      HandleSaysWhere(other, j);
    }
  }

  lemma HandleSaysWhere(r: Receipt, k: nat)
    requires ChoicesValid(r.requestId, r.choices) && k < |r.choices|
    ensures r.choices[k].handle == Handle(r.requestId, k, r.choices[k].digest)
  {
    hide ChoiceOk, StoredLabel, Strip, Normal, ChoicesValid;
    ValidRebuilds(r.requestId, r.choices, k);
  }

  /** A selection names an offered, selectable choice; said again it changes nothing, said otherwise it is refused. */
  lemma SelectionIsOnce(r: Receipt, h: Handle, source: string, decidedType: string, at: Stamp, now: nat,
                        h': Handle, source': string, decidedType': string, at': Stamp, now': nat)
    requires Select(r, h, source, decidedType, at, now).Ok?
    ensures var s := Select(r, h, source, decidedType, at, now).value;
            Valid(s) && s.answered && s.selection.Some? && s.choices == r.choices && s.requestId == r.requestId
            && ChoiceFor(s, s.selection.value.handle).Some? && ChoiceFor(s, s.selection.value.handle).value.selectable
            && Select(s, h', source', decidedType', at', now')
               == if !NativeRequest.IsDecisionSource(Normal(source')) then Err("approval_decision_invalid")
                  else if h' == h && Normal(source') == Normal(source) && Normal(decidedType') == Normal(decidedType) then Ok(s)
                  else Err("approval_replay")
  {
    hide ChoicesValid, Normal, IsDecision, NativeRequest.IsDecisionSource;
  }

  /**
    A time-out is recorded without a selection: what it leaves is never a valid
    v2 receipt, so no choice can be selected on it afterwards.
  */
  lemma DecisionWithoutSelectionIsInvalid(r: Receipt, decision: string, source: string, at: Stamp, now: nat,
                                          h: Handle, from: string, kind: string, later: nat)
    requires Valid(r) && !r.answered && DecideWithoutSelection(r, decision, source, at, now).Ok?
    ensures var s := DecideWithoutSelection(r, decision, source, at, now).value;
            !Valid(s) && Select(s, h, from, kind, Missing, later).Err?
  {
    hide ChoicesValid, Normal, IsDecision, NativeRequest.IsDecisionSource;
  }

  // ------------------------------------------------------------ the control plane's normaliser

  /** `_bounded_text` of the control plane: stripped and cut. */
  function Clipped(s: string, limit: nat): string {
    var text := Strip(s);
    if |text| <= limit then text else text[..limit]
  }

  predicate ControlOk(raw: RawChoice) {
    Clipped(raw.optionId, 160) != "" && IsKind(Clipped(raw.kind, 40))
  }

  function ControlChoice(requestId: string, index: nat, raw: RawChoice): Choice {
    MakeChoice(requestId, index, Clipped(raw.optionId, 160), Clipped(raw.kind, 40), Clipped(raw.caption, 120), raw.selectable != No)
  }

  /** The loop over the offered choices of `normalize_approval_request`. */
  method NormalizeOfferedChoices(requestId: string, raws: seq<RawChoice>) returns (outcome: Result<seq<Choice>>)
    ensures outcome.Ok? <==> raws != [] && forall raw <- raws :: ControlOk(raw)
    ensures outcome.Ok? ==>
      |outcome.value| == |raws| && forall k :: 0 <= k < |raws| ==> outcome.value[k] == ControlChoice(requestId, k, raws[k])
  {
    hide ControlOk, Clipped;
    if raws == [] {
      return Err("approval_choices_missing");
    }
    var normalized: seq<Choice> := [];
    for index := 0 to |raws|
      invariant |normalized| == index
      invariant forall k :: 0 <= k < index ==> ControlOk(raws[k]) && normalized[k] == ControlChoice(requestId, k, raws[k])
    {
      if !ControlOk(raws[index]) {
        assert raws[index] in raws;
        return Err(CHOICES_INVALID);
      }
      normalized := normalized + [ControlChoice(requestId, index, raws[index])];
    }
    outcome := Ok(normalized);
  }

  /** Where both accept a choice, they give it the same handle exactly when neither changes its identity or label differently. */
  lemma HandlesAgreeIff(requestId: string, index: nat, raw: RawChoice)
    requires ChoiceOk(raw) && ControlOk(raw)
    ensures ControlChoice(requestId, index, raw).handle == Normalized(requestId, index, raw).handle <==>
              |Strip(raw.optionId)| <= 160 && Clipped(raw.caption, 120) == StoredLabel(raw.caption)
  {
    hide Strip, Normal, IsIdentifier, StoredLabel, HasControl, LabelText;
    ControlKindIsNormal(raw.kind);
  }

  /** The control plane accepts only kinds that are written as they are stored. */
  lemma ControlKindIsNormal(kind: string)
    requires IsKind(Clipped(kind, 40)) && IsKind(Normal(kind))
    ensures Clipped(kind, 40) == Normal(kind)
  {
    hide Strip;
    var text := Strip(kind);
    assert |Normal(kind)| == |text|;
    KindsAreNormal(text);
    StripIdempotent(kind);
  }

  /** A label of single-spaced words, at most 120 characters, in which no secret pattern matches. */
  predicate IsPlainLabel(caption: string) {
    IsCollapsed(Strip(caption)) && |Strip(caption)| <= APPROVAL_V2_LABEL_LIMIT && IsClean(Strip(caption))
    && !HasControl(Strip(caption))
  }

  /** For every list of plain choices the control plane and the receipt agree on every handle. */
  lemma PlainChoicesAgree(requestId: string, raws: seq<RawChoice>, k: nat)
    requires k < |raws| <= APPROVAL_V2_MAX_CHOICES
    requires forall raw <- raws ::
      IsPlainLabel(raw.caption) && IsIdentifier(Strip(raw.optionId)) && |Strip(raw.optionId)| <= 160
      && IsKind(Strip(raw.kind)) && raw.selectable != Odd
    ensures Offer(requestId, raws).Ok? && (forall raw <- raws :: ControlOk(raw))
    ensures Offer(requestId, raws).value[k] == ControlChoice(requestId, k, raws[k])
    ensures ChoicesValid(requestId, Offer(requestId, raws).value)
  {
    hide ChoiceOk, ControlOk, Normalized, ControlChoice, IsPlainLabel, Strip, IsIdentifier, ChoicesValid, SurvivesCut,
         IsKind, NormalizedAll;
    forall raw <- raws ensures ChoiceOk(raw) && ControlOk(raw) && SurvivesCut(raw.caption) {
      PlainChoiceIsFine(requestId, k, raw);
    }
    assert raws[k] in raws;
    PlainChoiceIsFine(requestId, k, raws[k]);
    OfferedAt(requestId, raws, k);
    BuiltOfferIsValidIff(requestId, raws);
  }

  lemma OfferedAt(requestId: string, raws: seq<RawChoice>, k: nat)
    requires Offer(requestId, raws).Ok? && k < |raws|
    ensures var offered := Offer(requestId, raws).value;
            |offered| == |raws| && offered[k] == Normalized(requestId, k, raws[k])
  {
    hide ChoiceOk, Normalized;
  }

  lemma PlainChoiceIsFine(requestId: string, index: nat, raw: RawChoice)
    requires IsPlainLabel(raw.caption) && IsIdentifier(Strip(raw.optionId)) && |Strip(raw.optionId)| <= 160
    requires IsKind(Strip(raw.kind)) && raw.selectable != Odd
    ensures ChoiceOk(raw) && ControlOk(raw) && SurvivesCut(raw.caption)
    ensures Normalized(requestId, index, raw) == ControlChoice(requestId, index, raw)
  {
    hide Strip, Collapse, HasControl, Lower, Redact, IsClean;
    RedactFixesIff(Strip(raw.caption));
    CollapsedIsFixed(Strip(raw.caption));
    KindsAreNormal(Strip(raw.kind));
    StripIdempotent(raw.kind);
  }
}
