/**
 * The uniform result of a tool call (`ToolResult`, `ToolResult.Content`) and its text view
 * (`ToolResult.text()`).
 */
module ToolResults {
  import opened Wrappers

  /** One content item; both fields are nullable in the Java record. */
  datatype Content = Content(typ: Option<string>, text: Option<string>)

  /** `content` is nullable in the Java record; the client never returns a null list. */
  datatype ToolResult = ToolResult(content: Option<seq<Content>>, isError: bool)

  /** The single-item content list the client builds for errors and raw bodies. */
  function TextContent(s: string): seq<Content>
  {
    [Content(Some("text"), Some(s))]
  }

  /** An item contributes to `text()` when its type is exactly "text" and it has a text. */
  predicate Contributes(c: Content)
  {
    c.typ == Some("text") && c.text.Some?
  }

  /** The text the string builder holds after visiting `cs`: each contributing text followed
      by a newline, in list order. */
  function Joined(cs: seq<Content>): string
  {
    if |cs| == 0 then ""
    else Joined(cs[..|cs| - 1])
         + (if Contributes(cs[|cs| - 1]) then cs[|cs| - 1].text.value + "\n" else "")
  }

  /** Neither the first nor the last character is one that `String.trim` removes. */
  predicate NoEdgeSpace(s: string)
  {
    |s| == 0 || (s[0] > ' ' && s[|s| - 1] > ' ')
  }

  /** `String.trim`'s forward scan from `i`: the first position at or after `i` whose
      character is above U+0020, or the end. */
  function FirstKept(s: string, i: nat): (r: nat)
    requires i <= |s|
    ensures i <= r <= |s|
    ensures forall k :: i <= k < r ==> s[k] <= ' '
    ensures r < |s| ==> s[r] > ' '
    decreases |s| - i
  {
    if i < |s| && s[i] <= ' ' then FirstKept(s, i + 1) else i
  }

  /** `String.trim`'s backward scan from `j` down to `lo`: the end of the last character
      above U+0020 in `s[lo..j]`, or `lo`. */
  function LastKept(s: string, lo: nat, j: nat): (r: nat)
    requires lo <= j <= |s|
    ensures lo <= r <= j
    ensures forall k :: r <= k < j ==> s[k] <= ' '
    ensures r > lo ==> s[r - 1] > ' '
    decreases j
  {
    if j > lo && s[j - 1] <= ' ' then LastKept(s, lo, j - 1) else j
  }

  /** `s[i..j]` is what remains of `s` once removable characters are cut from both ends. */
  predicate TrimmedAt(s: string, i: int, j: int)
  {
    && 0 <= i <= j <= |s|
    && (forall k :: 0 <= k < i ==> s[k] <= ' ')
    && (forall k :: j <= k < |s| ==> s[k] <= ' ')
  }

  /** `String.trim`: cuts the removable characters from both ends. */
  function Trim(s: string): (r: string)
    ensures NoEdgeSpace(r)
  {
    var i := FirstKept(s, 0);
    var j := LastKept(s, i, |s|);
    assert j > i ==> s[i..j][0] == s[i] && s[i..j][j - i - 1] == s[j - 1];
    s[i..j]
  }

  /** What `trim` keeps is the infix of the input left once removable characters are cut
      from both ends. */
  lemma TrimKeepsInfix(s: string)
    ensures exists i, j :: TrimmedAt(s, i, j) && Trim(s) == s[i..j]
  {
    var i := FirstKept(s, 0);
    var j := LastKept(s, i, |s|);
    assert TrimmedAt(s, i, j);
  }

  /** The value of `text()` on `result`. */
  function ExtractedText(result: ToolResult): string
  {
    if result.content.None? || |result.content.value| == 0 then ""
    else Trim(Joined(result.content.value))
  }

  /** `ToolResult.text()`: joins the contributing texts in list order, one per line, and
      trims the result. */
  method Text(result: ToolResult) returns (s: string)
    ensures s == ExtractedText(result)
  {
    if result.content.None? || |result.content.value| == 0 {
      return "";
    }
    var cs := result.content.value;
    var sb := "";
    var i := 0;
    while i < |cs|
      invariant 0 <= i <= |cs|
      invariant sb == Joined(cs[..i])
    {
      var c := cs[i];
      if c.typ == Some("text") && c.text.Some? {
        sb := sb + c.text.value + "\n";
      }
      assert cs[..i + 1][..i] == cs[..i];
      i := i + 1;
    }
    assert cs[..|cs|] == cs;
    s := Trim(sb);
  }

  /** The text never starts or ends with a character at or below U+0020. */
  lemma TextIsTrimmed(result: ToolResult)
    ensures NoEdgeSpace(ExtractedText(result))
  {
  }

  /** Joining distributes over concatenation: items contribute in list order. */
  lemma {:induction false} JoinedAppend(xs: seq<Content>, ys: seq<Content>)
    ensures Joined(xs + ys) == Joined(xs) + Joined(ys)
    decreases |ys|
  {
    if |ys| == 0 {
      assert xs + ys == xs;
    } else {
      var n := |ys| - 1;
      assert (xs + ys)[..|xs + ys| - 1] == xs + ys[..n];
      assert (xs + ys)[|xs + ys| - 1] == ys[n];
      JoinedAppend(xs, ys[..n]);
    }
  }

  /** Items that do not contribute add nothing. */
  lemma {:induction false} JoinedOfNonContributing(cs: seq<Content>)
    requires forall k :: 0 <= k < |cs| ==> !Contributes(cs[k])
    ensures Joined(cs) == ""
    decreases |cs|
  {
    if |cs| > 0 {
      JoinedOfNonContributing(cs[..|cs| - 1]);
    }
  }

  /** When the list is null or empty, or no item has type "text" and a text, `text()` is
      empty. */
  lemma TextEmptyWhenNothingQualifies(result: ToolResult)
    requires result.content.None?
             || forall k :: 0 <= k < |result.content.value| ==> !Contributes(result.content.value[k])
    ensures ExtractedText(result) == ""
  {
    if result.content.Some? {
      JoinedOfNonContributing(result.content.value);
    }
  }

  /** With exactly one contributing item, the joined text is that item's text and a newline. */
  lemma {:induction false} JoinedOfSingleItem(cs: seq<Content>, i: nat)
    requires i < |cs| && Contributes(cs[i])
    requires forall k :: 0 <= k < |cs| && k != i ==> !Contributes(cs[k])
    ensures Joined(cs) == cs[i].text.value + "\n"
    decreases |cs|
  {
    var n := |cs| - 1;
    var prefix := cs[..n];
    assert forall k :: 0 <= k < n ==> prefix[k] == cs[k];
    if i == n {
      JoinedOfNonContributing(prefix);
    } else {
      JoinedOfSingleItem(prefix, i);
    }
  }

  /** With exactly one contributing item, whose text has no removable characters at its
      ends, `text()` is that text. */
  lemma TextOfSingleItem(result: ToolResult, i: nat)
    requires result.content.Some? && i < |result.content.value|
    requires Contributes(result.content.value[i])
    requires forall k :: 0 <= k < |result.content.value| && k != i ==> !Contributes(result.content.value[k])
    requires NoEdgeSpace(result.content.value[i].text.value)
    ensures ExtractedText(result) == result.content.value[i].text.value
  {
    JoinedOfSingleItem(result.content.value, i);
    TrimOfLine(result.content.value[i].text.value);
  }

  /** Trimming a line that has no removable characters at its ends leaves the bare line. */
  lemma TrimOfLine(t: string)
    requires NoEdgeSpace(t)
    ensures Trim(t + "\n") == t
  {
    var s := t + "\n";
    if |t| == 0 {
      assert FirstKept(s, 0) == FirstKept(s, 1) == 1;
    } else {
      assert s[0] == t[0];
      assert FirstKept(s, 0) == 0;
      assert s[|t| - 1] == t[|t| - 1];
      assert LastKept(s, 0, |s|) == LastKept(s, 0, |t|) == |t|;
      assert s[..|t|] == t;
    }
  }
}
