/** The textual conventions the journals rely on: blank strings and numeric room cursors. */
module Text {
  /** White space in the sense of the trim applied by every coordinate check. */
  predicate IsSpace(c: char) {
    || '\t' <= c <= '\r'
    || c == ' '
    || c == '\U{00A0}'
    || c == '\U{1680}'
    || '\U{2000}' <= c <= '\U{200A}'
    || c in {'\U{2028}', '\U{2029}', '\U{202F}', '\U{205F}', '\U{3000}', '\U{FEFF}'}
  }

  predicate NonBlank(s: string) {
    exists i :: 0 <= i < |s| && !IsSpace(s[i])
  }

  predicate IsDigits(s: string) {
    && |s| > 0
    && forall i :: 0 <= i < |s| ==> '0' <= s[i] <= '9'
  }

  /** A room cursor: decimal digits, optionally behind the prefix of a message id. */
  predicate IsCursor(s: string) {
    IsDigits(s) || (|s| > 4 && s[..4] == "msg_" && IsDigits(s[4..]))
  }

  function DigitsValue(s: string): nat
    requires forall i :: 0 <= i < |s| ==> '0' <= s[i] <= '9'
  {
    if s == [] then 0
    else DigitsValue(s[..|s| - 1]) * 10 + (s[|s| - 1] as int - '0' as int)
  }

  /** The number a cursor stands for; the two spellings of one message agree. */
  function CursorValue(s: string): nat
    requires IsCursor(s)
  {
    if IsDigits(s) then DigitsValue(s) else DigitsValue(s[4..])
  }
}
