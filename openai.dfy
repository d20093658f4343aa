/** The OpenAI helpers of the backend (backend/app/openai_utils.py): the
    choice of the JSON text inside a model reply (`extract_json_from_text`)
    and the fallback records of `get_directing`. */
module OpenAiUtils {
  import Text
  import opened Json
  import opened Wrappers

  /** The pattern `` ```json\s*(.*?)\s*``` `` can match at `i` with the group
      spanning `a..b` and the closing fence at `c`. */
  predicate FenceMatchAt(text: string, i: int, a: int, b: int, c: int) {
    Text.OccursAt(text, Text.JsonFence, i) && Text.OccursAt(text, Text.Fence, c) && i + |Text.JsonFence| <= a <= b <= c
    && Text.AllSpace(text[i + |Text.JsonFence|..a]) && Text.AllSpace(text[b..c])
  }

  /** The group bounds of `re.search(pattern, text, re.DOTALL)`: the first
      opener, the leading whitespace skipped, then the first closing fence
      with the whitespace in front of it excluded. */
  function FenceGroup(text: string): (r: Option<(nat, nat)>)
    ensures Text.Find(text, Text.JsonFence) < 0 ==> r.None?
    ensures r.Some? ==> Text.Find(text, Text.JsonFence) + |Text.JsonFence| <= r.value.0 <= r.value.1 <= |text|
  {
    var i := Text.Find(text, Text.JsonFence);
    if i < 0 then None
    else
      var q := Text.SkipSpace(text, i + |Text.JsonFence|);
      var f := Text.FindFrom(text, Text.Fence, q);
      if f < 0 then None
      else Some((q, Text.BackOverSpace(text, q, f)))
  }

  /** `FenceGroup` is what the regular-expression engine returns: a match
      exists exactly when `FenceGroup` finds one; its start is the leftmost
      possible, the leading `\s*` takes as much as it can, and the lazy group
      is the shortest that lets the rest match. */
  lemma FenceGroupIsRegexMatch(text: string)
    ensures FenceGroup(text).None? ==> forall i, a, b, c :: !FenceMatchAt(text, i, a, b, c)
    ensures FenceGroup(text).Some? ==>
      var (a, b) := FenceGroup(text).value;
      var i := Text.Find(text, Text.JsonFence);
      (exists c :: FenceMatchAt(text, i, a, b, c))
      && (forall i', a', b', c' :: i' < i ==> !FenceMatchAt(text, i', a', b', c'))
      && (forall a', b', c' :: a' > a ==> !FenceMatchAt(text, i, a', b', c'))
      && (forall b', c' :: b' < b ==> !FenceMatchAt(text, i, a, b', c'))
  {
    var i := Text.Find(text, Text.JsonFence);
    if i < 0 {
      forall i', a', b', c' ensures !FenceMatchAt(text, i', a', b', c') { }
    } else {
      var q := Text.SkipSpace(text, i + |Text.JsonFence|);
      var f := Text.FindFrom(text, Text.Fence, q);
      forall a', b', c' | FenceMatchAt(text, i, a', b', c') ensures a' <= q && f >= 0 && c' >= f {
        SpaceRunEnds(text, i + |Text.JsonFence|, q, a');
        SpaceBeforeFence(text, i, q, a', b', c');
      }
      forall i', a', b', c' | FenceMatchAt(text, i', a', b', c') ensures f >= 0 {
        if i' != i {
          LaterOpenerHasFence(text, i, q, i');
        }
      }
      if f >= 0 {
        var b := Text.BackOverSpace(text, q, f);
        assert FenceMatchAt(text, i, q, b, f);
        forall b', c' | b' < b ensures !FenceMatchAt(text, i, q, b', c') {
          GroupIsShortest(text, i, q, b', c');
        }
      }
    }
  }

  /** The maximal whitespace run from `lo` ends at `q`, so a run from `lo`
      to `a` cannot reach past `q`. */
  lemma SpaceRunEnds(text: string, lo: nat, q: nat, a: int)
    requires lo <= q <= |text| && (q < |text| ==> !Text.IsSpace(text[q]))
    requires lo <= a <= |text| && Text.AllSpace(text[lo..a])
    ensures a <= q
  {
    forall k | lo <= k < a ensures Text.IsSpace(text[k]) {
      assert text[lo..a][k - lo] == text[k];
    }
  }

  /** A closing fence of a match lies at or after the first fence from `q`,
      the end of the whitespace after the opener. */
  lemma SpaceBeforeFence(text: string, i: nat, q: nat, a: int, b: int, c: int)
    requires FenceMatchAt(text, i, a, b, c) && i + |Text.JsonFence| <= q <= |text| && Text.AllSpace(text[i + |Text.JsonFence|..q])
    ensures Text.FindFrom(text, Text.Fence, q) >= 0 && c >= Text.FindFrom(text, Text.Fence, q)
  {
    assert text[c..c + 3] == "```";
    assert text[c] == text[c..c + 3][0];
    forall k | i + |Text.JsonFence| <= k < q ensures Text.IsSpace(text[k]) {
      assert text[i + |Text.JsonFence|..q][k - i - |Text.JsonFence|] == text[k];
    }
    assert c >= q;
  }

  /** No shorter group than the one `FenceGroup` picks lets the pattern
      match. */
  lemma GroupIsShortest(text: string, i: nat, q: nat, b': int, c': int)
    requires Text.OccursAt(text, Text.JsonFence, i) && i + |Text.JsonFence| <= q <= |text| && Text.AllSpace(text[i + |Text.JsonFence|..q])
    requires Text.FindFrom(text, Text.Fence, q) >= 0
    requires b' < Text.BackOverSpace(text, q, Text.FindFrom(text, Text.Fence, q))
    ensures !FenceMatchAt(text, i, q, b', c')
  {
    var f := Text.FindFrom(text, Text.Fence, q);
    var b := Text.BackOverSpace(text, q, f);
    if FenceMatchAt(text, i, q, b', c') {
      SpaceBeforeFence(text, i, q, q, b', c');
    }
  }

  /** Any opener after the first lies past the whitespace that follows the
      first, and it begins with a fence. */
  lemma LaterOpenerHasFence(text: string, i: nat, q: nat, i': int)
    requires Text.OccursAt(text, Text.JsonFence, i) && Text.OccursAt(text, Text.JsonFence, i') && i < i'
    requires i + |Text.JsonFence| <= q <= |text| && Text.AllSpace(text[i + |Text.JsonFence|..q])
    ensures Text.FindFrom(text, Text.Fence, q) >= 0
  {
    assert text[i'..i' + |Text.JsonFence|] == Text.JsonFence && text[i..i + |Text.JsonFence|] == Text.JsonFence;
    assert text[i'] == text[i'..i' + |Text.JsonFence|][0] && text[i' + 1] == text[i'..i' + |Text.JsonFence|][1] && text[i' + 2] == text[i'..i' + |Text.JsonFence|][2];
    assert text[i + 3] == text[i..i + |Text.JsonFence|][3] && text[i + 4] == text[i..i + |Text.JsonFence|][4];
    forall k | i + |Text.JsonFence| <= k < q ensures Text.IsSpace(text[k]) {
      assert text[i + |Text.JsonFence|..q][k - i - |Text.JsonFence|] == text[k];
    }
    assert i' >= q;
    assert text[i'..i' + 3] == text[i'..i' + |Text.JsonFence|][..3];
    assert Text.OccursAt(text, Text.Fence, i');
  }

  /** Python's slice `s[lo:hi]` for `0 <= lo`, `0 <= hi <= |s|`: empty
      when `hi <= lo`. */
  function Slice(s: string, lo: nat, hi: nat): (r: string)
    requires lo <= |s| && hi <= |s|
    ensures |r| == if lo < hi then hi - lo else 0
    ensures lo < hi ==> r == s[lo..hi]
    ensures hi <= lo ==> r == ""
  {
    if lo < hi then s[lo..hi] else ""
  }

  /** The text that `extract_json_from_text` hands to `json.loads`. */
  function Candidate(text: string): (c: string)
    ensures |c| <= |text|
  {
    match FenceGroup(text)
    case Some((a, b)) => text[a..b]
    case None =>
      var open := Text.Find(text, "{");
      var close := Text.RFind(text, "}");
      if open != -1 && close != -1 then Slice(text, open, close + 1)
      else text
  }

  /** The candidate is always one contiguous piece of the reply. */
  lemma CandidateIsSlice(text: string)
    ensures exists lo, hi :: 0 <= lo <= hi <= |text| && Candidate(text) == text[lo..hi]
  {
    match FenceGroup(text)
    case Some((a, b)) =>
    case None =>
      var open := Text.Find(text, "{");
      var close := Text.RFind(text, "}");
      if open != -1 && close != -1 {
        if open >= close + 1 { assert Candidate(text) == text[0..0]; }
      } else {
        assert Candidate(text) == text[0..|text|];
      }
  }

  /** With a fence, the candidate is the first fence's content: it starts
      right after the opener and the whitespace that follows it, ends before
      the whitespace in front of the first closing fence, has no whitespace
      at either end and contains no fence. */
  lemma CandidateInFence(text: string)
    requires FenceGroup(text).Some?
    ensures var c := Candidate(text);
      && (c == [] || (!Text.IsSpace(c[0]) && !Text.IsSpace(c[|c| - 1])))
      && !Text.Contains(c, Text.Fence)
      && var (a, b) := FenceGroup(text).value;
         var i := Text.Find(text, Text.JsonFence);
         && a <= b <= |text| && c == text[a..b]
         && Text.OccursAt(text, Text.JsonFence, i) && Text.AllSpace(text[i + |Text.JsonFence|..a])
         && Text.AllSpace(text[b..Text.FindFrom(text, Text.Fence, a)])
  {
    var i := Text.Find(text, Text.JsonFence);
    var q := Text.SkipSpace(text, i + |Text.JsonFence|);
    var f := Text.FindFrom(text, Text.Fence, q);
    var b := Text.BackOverSpace(text, q, f);
    assert Candidate(text) == text[q..b];
    TrimmedEnds(text, q, b);
    NoFenceBefore(text, q, b, f);
  }

  /** A slice whose first character and last character (if any) are not
      whitespace has no whitespace at either end. */
  lemma TrimmedEnds(text: string, q: nat, b: nat)
    requires q <= b <= |text| && (q < |text| ==> !Text.IsSpace(text[q])) && (q < b ==> !Text.IsSpace(text[b - 1]))
    ensures var c := text[q..b]; c == [] || (!Text.IsSpace(c[0]) && !Text.IsSpace(c[|c| - 1]))
  {
    var c := text[q..b];
    if c != [] {
      assert c[0] == text[q];
      assert c[|c| - 1] == text[b - 1];
    }
  }

  /** A slice that ends at or before the first fence from its start contains
      no fence. */
  lemma NoFenceBefore(text: string, q: nat, b: nat, f: int)
    requires q <= b <= f && f == Text.FindFrom(text, Text.Fence, q)
    ensures !Text.Contains(text[q..b], Text.Fence)
  {
    var c := text[q..b];
    Text.ContainsIff(c, Text.Fence);
    forall k | Text.OccursAt(c, Text.Fence, k) ensures Text.OccursAt(text, Text.Fence, q + k) && q + k < f {
      forall j | 0 <= j < 3 ensures text[q + k..q + k + 3][j] == Text.Fence[j] {
        assert c[k..k + 3][j] == Text.Fence[j];
      }
    }
  }

  /** Without a fence, and with both braces present, the candidate runs from
      the first `{` to the last `}` inclusive; when the last `}` comes before
      the first `{`, it is empty. */
  lemma CandidateBetweenBraces(text: string)
    requires FenceGroup(text).None?
    requires Text.Find(text, "{") != -1 && Text.RFind(text, "}") != -1
    ensures var open, close := Text.Find(text, "{"), Text.RFind(text, "}");
      && (open < close ==>
            (Candidate(text) == text[open..close + 1]
             && Candidate(text)[0] == '{' && Candidate(text)[|Candidate(text)| - 1] == '}'))
      && (close < open ==> Candidate(text) == "")
  {
    var open, close := Text.Find(text, "{"), Text.RFind(text, "}");
    assert text[open..open + 1] == "{";
    assert text[close..close + 1] == "}";
    assert open != close by { assert text[open] == '{' && text[close] == '}'; }
  }

  /** Without a fence and with a brace missing, the candidate is the whole
      reply. */
  lemma CandidateWithoutBraces(text: string)
    requires FenceGroup(text).None?
    requires Text.Find(text, "{") == -1 || Text.RFind(text, "}") == -1
    ensures Candidate(text) == text
  {
  }

  /** `extract_json_from_text`: the decoded candidate, or Python's `None`
      (here `Null`) when decoding fails; it never raises. */
  function ExtractJson(text: string, parse: Parser): (r: Json)
    ensures parse(Candidate(text)).DecodeError? ==> r == Null
    ensures parse(Candidate(text)).Parsed? ==> r == parse(Candidate(text)).value
  {
    match parse(Candidate(text))
    case Parsed(v) => v
    case DecodeError(_) => Null
  }

  /** With a decoder that refuses the empty string, as `json.loads` does,
      a reply whose last `}` precedes its first `{` yields `None`. */
  lemma ReversedBracesYieldNone(text: string, parse: Parser)
    requires parse("").DecodeError?
    requires FenceGroup(text).None?
    requires Text.Find(text, "{") != -1 && Text.RFind(text, "}") != -1
    requires Text.RFind(text, "}") < Text.Find(text, "{")
    ensures ExtractJson(text, parse) == Null
  {
    CandidateBetweenBraces(text);
  }

  /** What the chat-completion call produced. */
  datatype Completion = Reply(content: string) | CallFailed(msg: string)

  const FieldNames: seq<string> := ["issues", "questions", "angles", "interpretation", "additionalPoints", "checklist"]

  /** The six-field record every fallback of `get_directing` has. */
  function DirectorRecord(issue: string, target: string, question: string, angle: string,
                          interpretation: string, point: string, check: string): (r: Json)
    ensures r.Object? && r.fields.Keys == set f | f in FieldNames
    ensures r.fields["issues"] == Strings([issue]) && Truthy(r)
  {
    Object(map[
      "issues" := Strings([issue]),
      "questions" := Array([Object(map["target" := String(target), "questions" := Strings([question])])]),
      "angles" := Strings([angle]),
      "interpretation" := String(interpretation),
      "additionalPoints" := Strings([point]),
      "checklist" := Strings([check])])
  }

  const ParseFailureIssuePrefix: string := "응답 파싱 오류 - 원본: "

  function NoClientRecord(): Json {
    DirectorRecord("OpenAI API 클라이언트가 초기화되지 않았습니다.", "시스템", "API 키를 확인해주세요.",
      "기술적 오류", "OpenAI API 설정을 확인해주세요.", "API 키가 유효한지 확인하세요.", "시스템 점검")
  }

  function ParseFailureRecord(content: string): Json {
    DirectorRecord(ParseFailureIssuePrefix + Text.Prefix(content, 100) + "...", "시스템", "다시 시도해주세요.",
      "기술적 오류", "AI 응답을 파싱하는 중 오류가 발생했습니다.", "다시 시도해주세요.", "시스템 확인")
  }

  function CallFailureRecord(msg: string): Json {
    DirectorRecord("API 오류: " + msg, "시스템", "OpenAI API 연결을 확인해주세요.",
      "기술적 오류", "OpenAI API 연결에 문제가 발생했습니다.", "API 키와 네트워크 상태를 확인해주세요.", "시스템 점검")
  }

  /** `get_directing` of the OpenAI module: without a client, or when the
      call fails, or when the stripped reply does not decode to a truthy
      value, a fixed record; otherwise the decoded value. */
  function GetDirecting(clientReady: bool, completion: Completion, parse: Parser): (r: Json)
    ensures Truthy(r)
    ensures clientReady && completion.Reply? && Truthy(ExtractJson(Text.Strip(completion.content), parse)) ==>
              r == ExtractJson(Text.Strip(completion.content), parse)
    ensures !clientReady ==> r == NoClientRecord()
    ensures clientReady && completion.CallFailed? ==> r == CallFailureRecord(completion.msg)
  {
    if !clientReady then NoClientRecord()
    else
      match completion
      case CallFailed(msg) => CallFailureRecord(msg)
      case Reply(raw) =>
        var content := Text.Strip(raw);
        var parsed := ExtractJson(content, parse);
        if Truthy(parsed) then parsed else ParseFailureRecord(content)
  }

  /** The decoded value is returned exactly when it is truthy, so `None`
      and an empty object both give the fallback. */
  lemma DirectingReturnsTruthyParse(raw: string, parse: Parser)
    ensures var parsed := ExtractJson(Text.Strip(raw), parse);
      GetDirecting(true, Reply(raw), parse) == (if Truthy(parsed) then parsed else ParseFailureRecord(Text.Strip(raw)))
    ensures var parsed := ExtractJson(Text.Strip(raw), parse);
      (parsed == Null || parsed == Object(map[])) ==> GetDirecting(true, Reply(raw), parse) == ParseFailureRecord(Text.Strip(raw))
  {
  }

  /** Every fallback is a record with exactly the six director fields. */
  lemma FallbacksHaveAllFields(clientReady: bool, completion: Completion, parse: Parser)
    ensures var r := GetDirecting(clientReady, completion, parse);
      (!clientReady || completion.CallFailed? || !Truthy(ExtractJson(Text.Strip(completion.content), parse))) ==>
        r.Object? && r.fields.Keys == set f | f in FieldNames
  {
    if !clientReady {
      assert GetDirecting(clientReady, completion, parse) == NoClientRecord();
    } else if completion.CallFailed? {
      assert GetDirecting(clientReady, completion, parse) == CallFailureRecord(completion.msg);
    } else {
      var content := Text.Strip(completion.content);
      if !Truthy(ExtractJson(content, parse)) {
        assert GetDirecting(clientReady, completion, parse) == ParseFailureRecord(content);
      }
    }
  }

  /** The parse-failure issue quotes at most the first 100 characters of
      the stripped reply, between the fixed prefix and `...`. */
  lemma ParseFailureIssue(content: string)
    ensures ParseFailureRecord(content).fields["issues"].items[0].s
              == ParseFailureIssuePrefix + content[..if |content| < 100 then |content| else 100] + "..."
    ensures var issue := ParseFailureRecord(content).fields["issues"].items[0].s;
      Text.StartsWith(issue, ParseFailureIssuePrefix)
      && |issue| <= |ParseFailureIssuePrefix| + 100 + 3
      && issue[|ParseFailureIssuePrefix|..|issue| - 3] == content[..|issue| - 3 - |ParseFailureIssuePrefix|]
  {
    var issue := ParseFailureRecord(content).fields["issues"].items[0].s;
    assert issue == ParseFailureIssuePrefix + Text.Prefix(content, 100) + "...";
    assert issue[|ParseFailureIssuePrefix|..|issue| - 3] == Text.Prefix(content, 100);
  }
}
