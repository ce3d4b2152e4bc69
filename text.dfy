/** Character-level helpers shared by the model: splitting at a delimiter,
    Rust's `str::trim`, and the characters a Handlebars `{{ }}` slot would
    HTML-escape. */
module Text {

  /** `s` cut before the first occurrence of `c`; the second part starts
      with `c`, or is empty when `c` does not occur. */
  function SplitBefore(s: string, c: char): (parts: (string, string))
    ensures parts.0 + parts.1 == s
    ensures c !in parts.0
    ensures parts.1 == [] || parts.1[0] == c
  {
    if s == [] then ([], [])
    else if s[0] == c then ([], s)
    else
      var rest := SplitBefore(s[1..], c);
      ([s[0]] + rest.0, rest.1)
  }

  /** Cutting a string made of a delimiter-free head and a tail that starts
      with the delimiter gives back exactly that head and that tail. */
  lemma {:induction false} SplitBeforeConcat(head: string, c: char, tail: string)
    requires c !in head
    requires |tail| > 0 && tail[0] == c
    ensures SplitBefore(head + tail, c) == (head, tail)
  {
    if head == [] {
      assert head + tail == tail;
    } else {
      assert head[0] in head;
      assert (head + tail)[0] == head[0];
      assert (head + tail)[1..] == head[1..] + tail;
      SplitBeforeConcat(head[1..], c, tail);
      assert [head[0]] + head[1..] == head;
    }
  }

  /** Rust's `char::is_whitespace`: the Unicode White_Space property. */
  predicate IsWhitespace(c: char) {
    || ('\t' <= c <= '\r') || c == ' ' || c == '\U{0085}' || c == '\U{00A0}'
    || c == '\U{1680}' || ('\U{2000}' <= c <= '\U{200A}') || c == '\U{2028}'
    || c == '\U{2029}' || c == '\U{202F}' || c == '\U{205F}' || c == '\U{3000}'
  }

  function TrimStart(s: string): (r: string)
    ensures |r| <= |s| && r == s[|s| - |r|..]
    ensures r == [] || !IsWhitespace(r[0])
    ensures forall i :: 0 <= i < |s| - |r| ==> IsWhitespace(s[i])
  {
    if s != [] && IsWhitespace(s[0]) then TrimStart(s[1..]) else s
  }

  function TrimEnd(s: string): (r: string)
    ensures |r| <= |s| && r == s[..|r|]
    ensures r == [] || !IsWhitespace(r[|r| - 1])
    ensures forall i :: |r| <= i < |s| ==> IsWhitespace(s[i])
  {
    if s != [] && IsWhitespace(s[|s| - 1]) then TrimEnd(s[..|s| - 1]) else s
  }

  /** `str::trim`: leading and trailing whitespace removed. */
  function Trim(s: string): (r: string)
    ensures |r| <= |s|
    ensures r == [] || (!IsWhitespace(r[0]) && !IsWhitespace(r[|r| - 1]))
  {
    TrimEnd(TrimStart(s))
  }

  /** `trim` only cuts whitespace: its result is the slice of `s` that
      starts after the leading whitespace, and everything cut off on either
      side is whitespace. */
  lemma TrimCutsOnlyWhitespace(s: string)
    ensures var r := Trim(s); var k := |s| - |TrimStart(s)|;
      && k + |r| <= |s| && r == s[k..k + |r|]
      && (forall i :: 0 <= i < k ==> IsWhitespace(s[i]))
      && (forall i :: k + |r| <= i < |s| ==> IsWhitespace(s[i]))
  {
    var t := TrimStart(s);
    var r := TrimEnd(t);
    CutTail(s, |s| - |t|, r);
  }

  /** When `r` is a prefix of the suffix of `s` from `k`, and the rest of that
      suffix is whitespace, `r` is the slice of `s` from `k` and all of `s`
      after it is whitespace. */
  lemma CutTail(s: string, k: nat, r: string)
    requires k <= |s| && |r| <= |s| - k && r == s[k..][..|r|]
    requires forall i :: |r| <= i < |s| - k ==> IsWhitespace(s[k..][i])
    ensures r == s[k..k + |r|]
    ensures forall i :: k + |r| <= i < |s| ==> IsWhitespace(s[i])
  {
    forall i | k + |r| <= i < |s|
      ensures IsWhitespace(s[i])
    {
      assert s[k..][i - k] == s[i];
    }
  }

  /** A string that already starts and ends with a non-whitespace character
      is left as it is by `trim`. */
  lemma TrimUnchanged(s: string)
    requires |s| > 0 && !IsWhitespace(s[0]) && !IsWhitespace(s[|s| - 1])
    ensures Trim(s) == s
  {
  }

  /** `trim` drops the line end that `read_line` leaves on a line whose
      text starts and ends with a non-whitespace character. */
  lemma TrimDropsLineEnd(s: string)
    requires |s| > 0 && !IsWhitespace(s[0]) && !IsWhitespace(s[|s| - 1])
    ensures Trim(s + "\n") == s
  {
    var line := s + "\n";
    assert line[0] == s[0];
    assert TrimStart(line) == line;
    assert line[..|line| - 1] == s;
    assert TrimEnd(s) == s;
  }

  /** Characters that Handlebars escapes when it substitutes a `{{ }}` slot. */
  predicate IsHtmlSpecial(c: char) {
    c == '<' || c == '>' || c == '"' || c == '&' || c == '\'' || c == '`' || c == '='
  }

  /** A string that a `{{ }}` slot inserts verbatim. */
  predicate HtmlSafe(s: string) {
    forall i :: 0 <= i < |s| ==> !IsHtmlSpecial(s[i])
  }

  lemma HtmlSafeHasNoQuote(s: string)
    requires HtmlSafe(s)
    ensures '"' !in s
  {
  }
}
