/**
 * The message box: its text and "final" checkbox, the submit guard that is
 * the only thing keeping a second turn from starting while one is running,
 * and the rule that switches the box off on an errored thread.
 */
module ChatInputForm {
  import opened ChatTypes

  /** The characters JavaScript's `String.prototype.trim` removes: white space and line terminators. */
  predicate IsJsWhitespace(c: char)
  {
    c == '\t' || c == '\n' || c == '\U{000B}' || c == '\U{000C}' || c == '\r' || c == ' ' ||
    c == '\U{00A0}' || c == '\U{1680}' || ('\U{2000}' <= c <= '\U{200A}') ||
    c == '\U{2028}' || c == '\U{2029}' || c == '\U{202F}' || c == '\U{205F}' || c == '\U{3000}' || c == '\U{FEFF}'
  }

  predicate AllWhitespace(s: string)
  {
    forall k :: 0 <= k < |s| ==> IsJsWhitespace(s[k])
  }

  /** The characters of `s` from `lo` up to `hi` are all white space. */
  predicate Blank(s: string, lo: int, hi: int)
    requires 0 <= lo <= hi <= |s|
  {
    forall k :: lo <= k < hi ==> IsJsWhitespace(s[k])
  }

  /** The first position at or after `i` that does not hold white space (or the end). */
  function SkipBlank(s: string, i: int): (r: int)
    requires 0 <= i <= |s|
    ensures i <= r <= |s|
    decreases |s| - i
  {
    if i < |s| && IsJsWhitespace(s[i]) then SkipBlank(s, i + 1) else i
  }

  /** The position just after the last character before `j` that is not white space (or 0). */
  function BackBlank(s: string, j: int): (r: int)
    requires 0 <= j <= |s|
    ensures 0 <= r <= j
    decreases j
  {
    if j > 0 && IsJsWhitespace(s[j - 1]) then BackBlank(s, j - 1) else j
  }

  /** `SkipBlank` passes only white space and stops at a character that is not. */
  lemma {:induction false} SkipBlankStops(s: string, i: int)
    requires 0 <= i <= |s|
    ensures Blank(s, i, SkipBlank(s, i))
    ensures SkipBlank(s, i) < |s| ==> !IsJsWhitespace(s[SkipBlank(s, i)])
    decreases |s| - i
  {
    if i < |s| && IsJsWhitespace(s[i]) {
      SkipBlankStops(s, i + 1);
    }
  }

  /** `BackBlank` passes only white space and stops after a character that is not. */
  lemma {:induction false} BackBlankStops(s: string, j: int)
    requires 0 <= j <= |s|
    ensures Blank(s, BackBlank(s, j), j)
    ensures BackBlank(s, j) > 0 ==> !IsJsWhitespace(s[BackBlank(s, j) - 1])
    decreases j
  {
    if j > 0 && IsJsWhitespace(s[j - 1]) {
      BackBlankStops(s, j - 1);
    }
  }

  /** `s` without its leading white space: always a suffix of `s`. */
  function TrimStart(s: string): (r: string)
    ensures |r| <= |s| && r == s[|s| - |r|..]
  {
    s[SkipBlank(s, 0)..]
  }

  /** `s` without its trailing white space: always a prefix of `s`. */
  function TrimEnd(s: string): (r: string)
    ensures |r| <= |s| && r == s[..|r|]
  {
    s[..BackBlank(s, |s|)]
  }

  /**
   * JavaScript's `trim`: white space removed at both ends. What is left is
   * the contiguous piece of `s` that starts where the leading white space ends.
   */
  function Trim(s: string): (r: string)
    ensures SkipBlank(s, 0) + |r| <= |s| && r == s[SkipBlank(s, 0)..SkipBlank(s, 0) + |r|]
  {
    var i := SkipBlank(s, 0);
    PrefixOfSlice(s, i, BackBlank(s[i..], |s| - i));
    TrimEnd(TrimStart(s))
  }

  /**
   * The trimmed text is the contiguous piece of the text that starts where
   * the leading white space ends, with only white space before and after it.
   */
  lemma TrimIsInfix(s: string)
    ensures var i := SkipBlank(s, 0);
            var r := Trim(s);
            i + |r| <= |s| && r == s[i..i + |r|] && Blank(s, 0, i) && Blank(s, i + |r|, |s|)
  {
    var i := SkipBlank(s, 0);
    var t := s[i..];
    var j := BackBlank(t, |t|);
    SkipBlankStops(s, 0);
    BackBlankStops(t, |t|);
    BlankShift(s, i, j, |t|);
  }

  lemma PrefixOfSlice(s: string, i: int, j: int)
    requires 0 <= i <= |s| && 0 <= j <= |s| - i
    ensures s[i..][..j] == s[i..i + j]
  {
  }

  /** White space in a suffix of `s` is white space in `s`, shifted by where the suffix starts. */
  lemma BlankShift(s: string, i: int, lo: int, hi: int)
    requires 0 <= i <= |s| && 0 <= lo <= hi <= |s| - i
    requires Blank(s[i..], lo, hi)
    ensures Blank(s, i + lo, i + hi)
  {
    forall k | i + lo <= k < i + hi
      ensures IsJsWhitespace(s[k])
    {
      assert s[k] == s[i..][k - i];
    }
  }

  /** The trimmed text neither starts nor ends in white space. */
  lemma TrimEdges(s: string)
    ensures Trim(s) != [] ==> !IsJsWhitespace(Trim(s)[0]) && !IsJsWhitespace(Trim(s)[|Trim(s)| - 1])
  {
    var i := SkipBlank(s, 0);
    var t := s[i..];
    var j := BackBlank(t, |t|);
    SkipBlankStops(s, 0);
    BackBlankStops(t, |t|);
    if j > 0 {
      assert Trim(s)[0] == s[i];
      assert Trim(s)[j - 1] == t[j - 1];
    }
  }

  /** A text trims to nothing exactly when it is all white space. */
  lemma TrimEmptyIffBlank(s: string)
    ensures Trim(s) == [] <==> AllWhitespace(s)
  {
    var i := SkipBlank(s, 0);
    var t := s[i..];
    var j := BackBlank(t, |t|);
    SkipBlankStops(s, 0);
    BackBlankStops(t, |t|);
    if i < |s| {
      assert t[0] == s[i];
    }
  }

  /** Trimming twice is trimming once. */
  lemma TrimIdempotent(s: string)
    ensures Trim(Trim(s)) == Trim(s)
  {
    var r := Trim(s);
    TrimEdges(s);
    if r != [] {
      assert TrimStart(r) == r;
      assert TrimEnd(r) == r;
    }
  }

  /** `handleSubmit`'s guard: a submit goes through only with some non-blank text, no turn running and the box enabled. */
  function CanSubmit(message: string, isLoading: bool, disabled: bool): (r: bool)
    ensures r <==> !AllWhitespace(message) && !isLoading && !disabled
  {
    TrimEmptyIffBlank(message);
    Trim(message) != [] && !isLoading && !disabled
  }

  /** The send button's `disabled` attribute. */
  function SubmitDisabled(message: string, isLoading: bool, disabled: bool): (r: bool)
    ensures r <==> AllWhitespace(message) || isLoading || disabled
  {
    TrimEmptyIffBlank(message);
    Trim(message) == [] || isLoading || disabled
  }

  /** The button is greyed out exactly when a submit would be refused. */
  lemma ButtonMatchesGuard(message: string, isLoading: bool, disabled: bool)
    ensures SubmitDisabled(message, isLoading, disabled) <==> !CanSubmit(message, isLoading, disabled)
  {
  }

  /** The chat screen switches the box off on a thread whose last turn failed. */
  function InputDisabled(thread: ChatThread): (r: bool)
    ensures r <==> thread.status == Error
  {
    thread.status == Error
  }

  /** Neither a running turn nor an errored thread lets a message through. */
  lemma BlockedWhileBusyOrErrored(message: string, isLoading: bool, thread: ChatThread)
    ensures isLoading || thread.status == Error ==> !CanSubmit(message, isLoading, InputDisabled(thread))
    ensures CanSubmit(message, isLoading, InputDisabled(thread)) <==>
              !AllWhitespace(message) && !isLoading && thread.status != Error
  {
    TrimEmptyIffBlank(message);
  }

  /** What a submit hands to `sendMessage`. */
  datatype Submission = Submission(text: string, final: bool)

  class ChatInput {
    var message: string
    var final: bool

    constructor()
      ensures message == [] && !final
    {
      message := [];
      final := false;
    }

    /** The text area's change handler; the text area is switched off while a turn runs or the box is disabled. */
    method Edit(text: string, isLoading: bool, disabled: bool)
      requires !isLoading && !disabled
      modifies this
      ensures message == text && final == old(final)
    {
      message := text;
    }

    /**
     * The "final version" checkbox's change handler. The checkbox is shown
     * only for non-blank text and is switched off while a turn runs or the
     * box is disabled.
     */
    method SetFinal(checked: bool, isLoading: bool, disabled: bool)
      requires !AllWhitespace(message) && !isLoading && !disabled
      modifies this
      ensures final == checked && message == old(message)
    {
      final := checked;
    }

    /**
     * `handleSubmit`: when the guard holds, sends the trimmed text with the
     * checkbox's value and clears both; otherwise sends nothing and changes
     * nothing.
     */
    method HandleSubmit(isLoading: bool, disabled: bool) returns (sent: Option<Submission>)
      modifies this
      ensures CanSubmit(old(message), isLoading, disabled) ==>
                sent == Some(Submission(Trim(old(message)), old(final))) && message == [] && !final
      ensures !CanSubmit(old(message), isLoading, disabled) ==>
                sent.None? && message == old(message) && final == old(final)
      ensures sent.Some? ==> sent.value.text != [] && !AllWhitespace(old(message))
    {
      TrimEmptyIffBlank(message);
      var text := Trim(message);
      if text != [] && !isLoading && !disabled {
        sent := Some(Submission(text, final));
        message := [];
        final := false;
      } else {
        sent := None;
      }
    }

    /** `handleKeyDown`: Enter without Shift submits; any other key leaves everything as it is. */
    method HandleKeyDown(key: string, shiftKey: bool, isLoading: bool, disabled: bool) returns (sent: Option<Submission>)
      modifies this
      ensures key == "Enter" && !shiftKey && CanSubmit(old(message), isLoading, disabled) ==>
                sent == Some(Submission(Trim(old(message)), old(final))) && message == [] && !final
      ensures !(key == "Enter" && !shiftKey && CanSubmit(old(message), isLoading, disabled)) ==>
                sent.None? && message == old(message) && final == old(final)
    {
      if key == "Enter" && !shiftKey {
        sent := HandleSubmit(isLoading, disabled);
      } else {
        sent := None;
      }
    }
  }
}
