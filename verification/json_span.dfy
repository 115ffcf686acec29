/** Extraction of the JSON object from the text model's reply: the first match
    of the regular expression `\{[\s\S]*\}`. Because `[\s\S]` accepts every
    character and `*` is greedy, the match starts at the first `{` and ends at
    the last `}` after it. */
module JsonSpan {
  import opened Common

  /** `s[i..j]` is a match of `\{[\s\S]*\}`. */
  predicate IsMatch(s: string, i: int, j: int)
  {
    0 <= i && i + 2 <= j <= |s| && s[i] == '{' && s[j - 1] == '}'
  }

  /** `s[i..j]` is the match a backtracking engine reports: the leftmost
      start, and at that start the longest match (greedy star). */
  ghost predicate IsReported(s: string, i: int, j: int)
  {
    IsMatch(s, i, j) && forall i', j' :: IsMatch(s, i', j') ==> i < i' || (i == i' && j' <= j)
  }

  /** Position of the first `c` in `s`. */
  function IndexOf(s: string, c: char): (r: Option<nat>)
    ensures r.Some? ==> r.value < |s| && s[r.value] == c
    ensures r.Some? ==> forall k :: 0 <= k < r.value ==> s[k] != c
    ensures r.None? ==> forall k :: 0 <= k < |s| ==> s[k] != c
    decreases |s|
  {
    if |s| == 0 then None
    else if s[0] == c then Some(0)
    else
      match IndexOf(s[1..], c)
      case None => None
      case Some(k) => Some(k + 1)
  }

  /** Position of the last `c` in `s`. */
  function LastIndexOf(s: string, c: char): (r: Option<nat>)
    ensures r.Some? ==> r.value < |s| && s[r.value] == c
    ensures r.Some? ==> forall k :: r.value < k < |s| ==> s[k] != c
    ensures r.None? ==> forall k :: 0 <= k < |s| ==> s[k] != c
    decreases |s|
  {
    if |s| == 0 then None
    else if s[|s| - 1] == c then Some(|s| - 1)
    else LastIndexOf(s[..|s| - 1], c)
  }

  /** `content.match(/\{[\s\S]*\}/)?.[0]`. */
  function Extract(s: string): (r: Option<string>)
    ensures r.Some? <==> exists i, j :: IsMatch(s, i, j)
    ensures r.Some? ==> exists i, j :: IsReported(s, i, j) && r.value == s[i..j]
  {
    match (IndexOf(s, '{'), LastIndexOf(s, '}'))
    case (Some(i), Some(k)) =>
      if i < k then
        assert IsReported(s, i, k + 1);
        Some(s[i..k + 1])
      else
        assert forall i', j' :: !IsMatch(s, i', j');
        None
    case _ => None
  }

  /** The reported span exists exactly when some `{` precedes some `}`, starts
      with `{`, ends with `}`, and is an infix of the reply. */
  lemma ExtractShape(s: string)
    ensures Extract(s).Some? <==> exists i, j :: 0 <= i < j < |s| && s[i] == '{' && s[j] == '}'
    ensures Extract(s).Some? ==>
      var t := Extract(s).value;
      |t| >= 2 && t[0] == '{' && t[|t| - 1] == '}' && IsSubstring(t, s)
  {
    if Extract(s).Some? {
      var i, j :| IsReported(s, i, j) && Extract(s).value == s[i..j];
      assert s[i] == '{' && s[j - 1] == '}';
    }
    if exists i, j :: 0 <= i < j < |s| && s[i] == '{' && s[j] == '}' {
      var i, j :| 0 <= i < j < |s| && s[i] == '{' && s[j] == '}';
      assert IsMatch(s, i, j + 1);
    }
  }

  /** An object with chatter around it is extracted whole, nested braces and
      all, when the text before it opens no brace and the text after it
      closes none: the usual "Here is your story: {…} Enjoy!" reply. */
  lemma ExtractAmidChatter(pre: string, obj: string, post: string)
    requires |obj| >= 2 && obj[0] == '{' && obj[|obj| - 1] == '}'
    requires forall k :: 0 <= k < |pre| ==> pre[k] != '{'
    requires forall k :: 0 <= k < |post| ==> post[k] != '}'
    ensures Extract(pre + obj + post) == Some(obj)
  {
    var s := pre + obj + post;
    var i0, k0 := |pre|, |pre| + |obj| - 1;
    assert s[i0] == '{' && s[k0] == '}';
    assert forall k :: 0 <= k < i0 ==> s[k] == pre[k];
    assert forall k :: k0 < k < |s| ==> s[k] == post[k - k0 - 1];
    assert IndexOf(s, '{') == Some(i0);
    assert LastIndexOf(s, '}') == Some(k0);
    assert s[i0..k0 + 1] == obj;
  }
}
