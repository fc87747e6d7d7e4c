/**
 * The message composer: one draft field, edited by the input's change
 * events and cleared when the trimmed draft is sent. The `onSendMessage`
 * callback is recorded as the sequence of contents it was called with.
 */
module Composer {

  /**
   * The characters `String.prototype.trim` removes: the ECMAScript
   * WhiteSpace code points (tab, vertical tab, form feed, the byte-order
   * mark and every space separator) and the LineTerminator code points.
   */
  predicate IsJsWhitespace(c: char) {
    || c == '\t' || c == '\n' || c == '\U{000B}' || c == '\U{000C}' || c == '\r'
    || c == ' ' || c == '\U{00A0}' || c == '\U{1680}'
    || ('\U{2000}' <= c <= '\U{200A}')
    || c == '\U{2028}' || c == '\U{2029}' || c == '\U{202F}' || c == '\U{205F}'
    || c == '\U{3000}' || c == '\U{FEFF}'
  }

  /** Every character of `s` is whitespace (the empty string included). */
  predicate Blank(s: string) {
    forall k :: 0 <= k < |s| ==> IsJsWhitespace(s[k])
  }

  /** The length of the longest whitespace prefix of `s`. */
  function Leading(s: string): (n: nat)
    ensures n <= |s|
    ensures Blank(s[..n])
    ensures n < |s| ==> !IsJsWhitespace(s[n])
  {
    if |s| == 0 || !IsJsWhitespace(s[0]) then 0
    else
      var n := 1 + Leading(s[1..]);
      assert s[..n] == [s[0]] + s[1..][..n - 1];
      n
  }

  /** The length of the longest whitespace suffix of `s`. */
  function Trailing(s: string): (n: nat)
    ensures n <= |s|
    ensures Blank(s[|s| - n..])
    ensures n < |s| ==> !IsJsWhitespace(s[|s| - 1 - n])
  {
    if |s| == 0 || !IsJsWhitespace(s[|s| - 1]) then 0
    else
      var init := s[..|s| - 1];
      var n := 1 + Trailing(init);
      assert s[|s| - n..] == init[|init| - (n - 1)..] + [s[|s| - 1]];
      n
  }

  /**
   * `String.prototype.trim`: the slice of `s` left after removing the
   * whitespace at both ends. It is empty exactly when `s` is blank, it
   * neither starts nor ends with whitespace, and only whitespace was removed.
   */
  function Trim(s: string): (r: string)
    ensures r == "" <==> Blank(s)
    ensures r != "" ==> !IsJsWhitespace(r[0]) && !IsJsWhitespace(r[|r| - 1])
    ensures Leading(s) + |r| <= |s| && r == s[Leading(s)..Leading(s) + |r|]
    ensures Blank(s[..Leading(s)]) && Blank(s[Leading(s) + |r|..])
  {
    var lo := Leading(s);
    if lo == |s| then
      assert s[..lo] == s;
      ""
    else
      var hi := |s| - Trailing(s);
      assert forall k :: hi <= k < |s| ==> IsJsWhitespace(s[k]) by {
        forall k | hi <= k < |s|
          ensures IsJsWhitespace(s[k])
        {
          assert s[k] == s[hi..][k - hi];
        }
      }
      assert !IsJsWhitespace(s[lo]);
      s[lo..hi]
  }

  /** A string without whitespace at its ends has none to remove. */
  lemma NoEdgesNoLeading(s: string)
    requires s != "" && !IsJsWhitespace(s[0]) && !IsJsWhitespace(s[|s| - 1])
    ensures Leading(s) == 0 && Trailing(s) == 0
  {
  }

  /** Trimming twice is trimming once. */
  lemma {:induction false} TrimIdempotent(s: string)
    ensures Trim(Trim(s)) == Trim(s)
  {
    var r := Trim(s);
    if r != "" {
      NoEdgesNoLeading(r);
      assert r[0..|r|] == r;
    }
  }

  class Draft {
    /** The `message` state: the draft shown in the input. */
    var draft: string
    /** The contents `onSendMessage` has been called with, in order. */
    var sent: seq<string>

    /** Every content handed to `onSendMessage` is non-empty and already trimmed. */
    ghost predicate Valid()
      reads this
    {
      forall i :: 0 <= i < |sent| ==> sent[i] != "" && Trim(sent[i]) == sent[i]
    }

    constructor ()
      ensures draft == "" && sent == [] && Valid()
    {
      draft := "";
      sent := [];
    }

    /** The input's change event: the draft becomes `value`; nothing is sent. */
    method OnChange(value: string)
      modifies this`draft
      ensures draft == value
    {
      draft := value;
    }

    /**
     * `handleSend`: a blank draft is left as it is and nothing is sent;
     * otherwise the trimmed draft is sent once and the draft is cleared.
     */
    method HandleSend()
      requires Valid()
      modifies this
      ensures Valid()
      ensures Blank(old(draft)) ==> draft == old(draft) && sent == old(sent)
      ensures !Blank(old(draft)) ==> draft == "" && sent == old(sent) + [Trim(old(draft))]
    {
      var trimmed := Trim(draft);
      if trimmed != "" {
        TrimIdempotent(draft);
        sent := sent + [trimmed];
        draft := "";
      }
    }

    /**
     * `handleKeyPress`: Enter without Shift prevents the default action and
     * sends as `HandleSend` does; any other key, or Shift+Enter, changes
     * nothing. `prevented` reports whether the default action was prevented.
     */
    method HandleKeyPress(key: string, shift: bool) returns (prevented: bool)
      requires Valid()
      modifies this
      ensures Valid()
      ensures prevented <==> key == "Enter" && !shift
      ensures !prevented ==> draft == old(draft) && sent == old(sent)
      ensures prevented && Blank(old(draft)) ==> draft == old(draft) && sent == old(sent)
      ensures prevented && !Blank(old(draft)) ==> draft == "" && sent == old(sent) + [Trim(old(draft))]
    {
      prevented := key == "Enter" && !shift;
      if prevented {
        HandleSend();
      }
    }
  }
}
