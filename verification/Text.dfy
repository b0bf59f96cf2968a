/** Whitespace as JavaScript's `trim` and Python's `strip` see it. */
module Text {

  /** The space separators that both languages trim. */
  predicate IsSpaceSeparator(c: char)
  {
    || c == ' ' || c == '\U{00A0}' || c == '\U{1680}'
    || '\U{2000}' <= c <= '\U{200A}'
    || c == '\U{202F}' || c == '\U{205F}' || c == '\U{3000}'
    || c == '\U{2028}' || c == '\U{2029}'
  }

  predicate IsJsSpace(c: char)
  {
    IsSpaceSeparator(c) || '\U{0009}' <= c <= '\U{000D}' || c == '\U{FEFF}'
  }

  predicate IsPySpace(c: char)
  {
    IsSpaceSeparator(c) || '\U{0009}' <= c <= '\U{000D}' || '\U{001C}' <= c <= '\U{001F}' || c == '\U{0085}'
  }

  function TrimStart(s: string): string
  {
    if s != "" && IsJsSpace(s[0]) then TrimStart(s[1..]) else s
  }

  function TrimEnd(s: string): string
  {
    if s != "" && IsJsSpace(s[|s| - 1]) then TrimEnd(s[..|s| - 1]) else s
  }

  function Trim(s: string): string
  {
    TrimEnd(TrimStart(s))
  }

  predicate AllSpace(s: string)
  {
    forall i :: 0 <= i < |s| ==> IsJsSpace(s[i])
  }

  lemma {:induction false} TrimStartExactly(s: string)
    ensures exists before :: AllSpace(before) && s == before + TrimStart(s)
    ensures TrimStart(s) != "" ==> !IsJsSpace(TrimStart(s)[0])
  {
    if s != "" && IsJsSpace(s[0]) {
      TrimStartExactly(s[1..]);
      var before :| AllSpace(before) && s[1..] == before + TrimStart(s[1..]);
      assert AllSpace([s[0]] + before) && s == ([s[0]] + before) + TrimStart(s);
    } else {
      assert AllSpace("") && s == "" + TrimStart(s);
    }
  }

  lemma {:induction false} TrimEndExactly(s: string)
    ensures exists after :: AllSpace(after) && s == TrimEnd(s) + after
    ensures TrimEnd(s) != "" ==> !IsJsSpace(TrimEnd(s)[|TrimEnd(s)| - 1]) && TrimEnd(s)[0] == s[0]
  {
    if s != "" && IsJsSpace(s[|s| - 1]) {
      var init := s[..|s| - 1];
      TrimEndExactly(init);
      var after :| AllSpace(after) && init == TrimEnd(init) + after;
      assert AllSpace(after + [s[|s| - 1]]) && s == TrimEnd(s) + (after + [s[|s| - 1]]);
    } else {
      assert AllSpace("") && s == TrimEnd(s) + "";
    }
  }

  /** Trimming takes the spaces off both ends, all of them, and nothing else. */
  lemma TrimExactly(s: string)
    ensures exists before, after :: AllSpace(before) && AllSpace(after) && s == before + Trim(s) + after
    ensures Trim(s) != "" ==> !IsJsSpace(Trim(s)[0]) && !IsJsSpace(Trim(s)[|Trim(s)| - 1])
  {
    TrimStartExactly(s);
    TrimEndExactly(TrimStart(s));
    var before :| AllSpace(before) && s == before + TrimStart(s);
    var after :| AllSpace(after) && TrimStart(s) == Trim(s) + after;
    assert s == before + Trim(s) + after;
  }

  /** Trimming a space in front changes nothing. */
  lemma TrimSkipsSpace(s: string)
    ensures Trim(" " + s) == Trim(s)
  {
    assert (" " + s)[1..] == s;
  }

  /** The truth of `not s.strip()` in Python. */
  predicate IsBlank(s: string)
  {
    forall i :: 0 <= i < |s| ==> IsPySpace(s[i])
  }
}
