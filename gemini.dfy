/** The Gemini helpers of the backend (backend/app/gemini_utils.py): the
    markdown-fence cleaning in front of `json.loads`, and the three helpers
    behind the routes, with the model call abstracted to its outcome and the
    response-shape checks of the deep-dive and perspective helpers. */
module GeminiUtils {
  import Text
  import opened Json
  import opened Wrappers

  /** What asking the model produced. `init_gemini()` runs before the `try`,
      so its failure escapes unwrapped; a failure of `generate_content` or of
      reading `response.text` happens inside it. */
  datatype Generation = InitFailed(msg: string) | CallFailed(msg: string) | Generated(text: string)

  /** What a helper hands back to its route: the decoded object, or an
      exception whose `str(e)` is `message`. */
  datatype HelperResult = Done(value: Json) | Failed(message: string)

  const ParseErrorPrefix: string := "JSON 파싱 오류: "
  const DirectingPrefix: string := "Gemini API 오류: "
  const DeepDivePrefix: string := "심화 분석 처리 중 오류가 발생했습니다: "
  const PerspectivePrefix: string := "관점 확장 처리 중 오류가 발생했습니다: "
  const EmptyResponse: string := "Gemini API가 빈 응답을 반환했습니다."
  const MissingField: string := "응답에 필수 필드가 누락되었습니다: "
  const MissingPerspectives: string := "응답에 'perspectives' 필드가 누락되었습니다."
  const PerspectivesNotList: string := "'perspectives'는 배열이어야 합니다."
  const MissingPerspectiveField: string := "관점에 필수 필드가 누락되었습니다: "

  const DeepDiveFields: seq<string> := ["background", "keyPoints", "analysis", "implications"]
  const PerspectiveFields: seq<string> := ["viewpoint", "issues", "questions", "implications"]

  /** `response.replace('```json', '').replace('```', '').strip()`. */
  function CleanText(response: string): (r: string)
    ensures |r| <= |response|
  {
    Text.Strip(Text.RemoveAll(Text.RemoveAll(response, Text.JsonFence), Text.Fence))
  }

  /** A slice of a string without an occurrence of `pat` has none either. */
  lemma SliceKeepsAbsence(s: string, pat: string, a: nat, b: nat)
    requires a <= b <= |s| && !Text.Contains(s, pat)
    ensures !Text.Contains(s[a..b], pat)
  {
    Text.ContainsIff(s, pat);
    Text.ContainsIff(s[a..b], pat);
    forall i | Text.OccursAt(s[a..b], pat, i) ensures Text.OccursAt(s, pat, a + i) {
      assert i + |pat| <= b - a;
      forall k | 0 <= k < |pat| ensures s[a + i..a + i + |pat|][k] == pat[k] {
        assert s[a..b][i..i + |pat|][k] == pat[k];
      }
    }
  }

  /** The cleaned text holds no "```" and has no whitespace at either end. */
  lemma CleanTextShape(response: string)
    ensures !Text.Contains(CleanText(response), Text.Fence)
    ensures var c := CleanText(response);
      c == [] || (!Text.IsSpace(c[0]) && !Text.IsSpace(c[|c| - 1]))
  {
    var u := Text.RemoveAll(Text.RemoveAll(response, Text.JsonFence), Text.Fence);
    Text.RemoveFenceLeavesNone(Text.RemoveAll(response, Text.JsonFence));
    Text.StripSpec(u);
    var a, b :| 0 <= a <= b <= |u| && Text.Strip(u) == u[a..b];
    SliceKeepsAbsence(u, Text.Fence, a, b);
  }

  /** A string with no "```" has no "```json" either. */
  lemma NoFenceNoOpener(s: string)
    requires !Text.Contains(s, Text.Fence)
    ensures !Text.Contains(s, Text.JsonFence)
  {
    Text.ContainsIff(s, Text.Fence);
    Text.ContainsIff(s, Text.JsonFence);
    forall i | Text.OccursAt(s, Text.JsonFence, i) ensures Text.OccursAt(s, Text.Fence, i) {
      assert s[i..i + 3] == s[i..i + |Text.JsonFence|][..3];
    }
  }

  /** Cleaning an already cleaned text changes nothing. */
  lemma CleanTextIdempotent(response: string)
    ensures CleanText(CleanText(response)) == CleanText(response)
  {
    var c := CleanText(response);
    CleanTextShape(response);
    NoFenceNoOpener(c);
    Text.RemoveAllAbsent(c, Text.JsonFence);
    Text.RemoveAllAbsent(c, Text.Fence);
    Text.StripOfTrimmed(c);
  }

  /** The cleaned text keeps the input's characters in their order. */
  lemma CleanTextIsSubsequence(response: string)
    ensures Text.IsSubsequence(CleanText(response), response)
  {
    var t := Text.RemoveAll(response, Text.JsonFence);
    var u := Text.RemoveAll(t, Text.Fence);
    Text.RemoveAllIsSubsequence(response, Text.JsonFence);
    Text.RemoveAllIsSubsequence(t, Text.Fence);
    Text.StripSpec(u);
    var a, b :| 0 <= a <= b <= |u| && Text.Strip(u) == u[a..b];
    SliceIsSubsequence(u, a, b);
    SubsequenceTrans(u[a..b], u, t);
    SubsequenceTrans(u[a..b], t, response);
  }

  lemma {:induction false} SliceIsSubsequence(s: string, a: nat, b: nat)
    requires a <= b <= |s|
    ensures Text.IsSubsequence(s[a..b], s)
    decreases |s|
  {
    if s != [] {
      if a > 0 {
        SliceIsSubsequence(s[1..], a - 1, b - 1);
        assert s[1..][a - 1..b - 1] == s[a..b];
      } else if b > 0 {
        SliceIsSubsequence(s[1..], 0, b - 1);
        assert s[1..][0..b - 1] == s[a..b][1..];
      } else {
        SliceIsSubsequence(s[1..], 0, 0);
      }
    }
  }

  lemma {:induction false} SubsequenceTrans(xs: string, ys: string, zs: string)
    requires Text.IsSubsequence(xs, ys) && Text.IsSubsequence(ys, zs)
    ensures Text.IsSubsequence(xs, zs)
    decreases |zs|
  {
    if zs != [] {
      if ys != [] && ys[0] == zs[0] && Text.IsSubsequence(ys[1..], zs[1..]) {
        if xs != [] && xs[0] == ys[0] && Text.IsSubsequence(xs[1..], ys[1..]) {
          SubsequenceTrans(xs[1..], ys[1..], zs[1..]);
        } else {
          SubsequenceTrans(xs, ys[1..], zs[1..]);
        }
      } else {
        SubsequenceTrans(xs, ys, zs[1..]);
      }
    } else {
      assert ys == [];
    }
  }

  /** `clean_json_response`: clean, then decode; a decoder failure becomes a
      `ValueError` carrying the decoder's message, never a partial value. */
  function CleanJsonResponse(response: string, parse: Parser): (r: Outcome<Json>)
    ensures r.Ok? <==> parse(CleanText(response)).Parsed?
    ensures r.Ok? ==> r.value == parse(CleanText(response)).value
    ensures r.Raised? ==> r.error == ValueError(ParseErrorPrefix + parse(CleanText(response)).msg)
  {
    match parse(CleanText(response))
    case Parsed(v) => Ok(v)
    case DecodeError(m) => Raised(ValueError(ParseErrorPrefix + m))
  }

  /** `get_directing`: whatever decodes is returned, with no check of its
      fields; every failure is re-raised with the "Gemini API 오류: " prefix,
      except one of `init_gemini()`, which runs outside the `try`. */
  function GetDirecting(gen: Generation, parse: Parser): (r: HelperResult)
    ensures r.Done? <==> gen.Generated? && parse(CleanText(gen.text)).Parsed?
    ensures r.Done? ==> r.value == parse(CleanText(gen.text)).value
    ensures gen.InitFailed? ==> r == Failed(gen.msg)
    ensures gen.CallFailed? ==> r == Failed(DirectingPrefix + gen.msg)
    ensures gen.Generated? && parse(CleanText(gen.text)).DecodeError? ==>
              r == Failed(DirectingPrefix + ParseErrorPrefix + parse(CleanText(gen.text)).msg)
    ensures r.Failed? && !gen.InitFailed? ==> Text.StartsWith(r.message, DirectingPrefix)
  {
    match gen
    case InitFailed(m) => Failed(m)
    case CallFailed(m) => Failed(DirectingPrefix + m)
    case Generated(text) =>
      match CleanJsonResponse(text, parse)
      case Ok(v) => Done(v)
      case Raised(e) => Failed(DirectingPrefix + e.msg)
  }

  /** The required-field loop: the first of `fields` that `v` lacks under
      Python's `in`, or the `TypeError` that `in` raises on a scalar. */
  function FirstMissing(fields: seq<string>, v: Json): (r: Outcome<Option<string>>)
    ensures r.Raised? <==> fields != [] && PyIn(fields[0], v).Raised?
    ensures r == Ok(None) <==> forall i :: 0 <= i < |fields| ==> PyIn(fields[i], v) == Ok(true)
    ensures r.Ok? && r.value.Some? ==>
      exists k :: 0 <= k < |fields| && fields[k] == r.value.value && PyIn(fields[k], v) == Ok(false)
        && forall i :: 0 <= i < k ==> PyIn(fields[i], v) == Ok(true)
  {
    if fields == [] then Ok(None)
    else
      match PyIn(fields[0], v)
      case Raised(e) => Raised(e)
      case Ok(present) =>
        if !present then Ok(Some(fields[0]))
        else
          var rest := FirstMissing(fields[1..], v);
          if rest.Ok? && rest.value.Some? then
            var k :| 0 <= k < |fields| - 1 && fields[1..][k] == rest.value.value
                     && PyIn(fields[1..][k], v) == Ok(false)
                     && forall i :: 0 <= i < k ==> PyIn(fields[1..][i], v) == Ok(true);
            assert fields[k + 1] == rest.value.value;
            rest
          else
            rest
  }

  /** On a dict, `FirstMissing` names the first field, in order, that is
      not a key; it reports none exactly when every field is a key. */
  lemma FirstMissingOnObject(fields: seq<string>, m: map<string, Json>)
    ensures FirstMissing(fields, Object(m)).Ok?
    ensures FirstMissing(fields, Object(m)) == Ok(None) <==> forall f :: f in fields ==> f in m
    ensures FirstMissing(fields, Object(m)).value.Some? ==>
      var f := FirstMissing(fields, Object(m)).value.value;
      f in fields && f !in m
  {
    var r := FirstMissing(fields, Object(m));
    if fields != [] {
      assert PyIn(fields[0], Object(m)).Ok?;
    }
    if r == Ok(None) {
      forall f | f in fields ensures f in m {
        var i :| 0 <= i < |fields| && fields[i] == f;
        assert PyIn(fields[i], Object(m)) == Ok(true);
      }
    }
  }

  /** The deep-dive shape check: `None` when all four fields are present. */
  function DeepDiveCheck(v: Json): (r: Option<PyError>)
    ensures r == None <==> forall i :: 0 <= i < |DeepDiveFields| ==> PyIn(DeepDiveFields[i], v) == Ok(true)
    ensures (r.Some? && r.value.TypeError?) <==> v.Null? || v.Bool? || v.Number? || v.Float?
    ensures v.String? ==> (r == None <==> forall i :: 0 <= i < |DeepDiveFields| ==> Text.Contains(v.s, DeepDiveFields[i]))
  {
    match FirstMissing(DeepDiveFields, v)
    case Raised(e) => Some(e)
    case Ok(Some(f)) => Some(ValueError(MissingField + f))
    case Ok(None) => None
  }

  /** A dict passes the deep-dive check exactly when it has the keys
      `background`, `keyPoints`, `analysis` and `implications`; otherwise the
      error names the first of them, in that order, that is missing. */
  lemma DeepDiveCheckOnObject(m: map<string, Json>)
    ensures DeepDiveCheck(Object(m)) == None <==>
      "background" in m && "keyPoints" in m && "analysis" in m && "implications" in m
    ensures "background" !in m ==> DeepDiveCheck(Object(m)) == Some(ValueError(MissingField + "background"))
    ensures "background" in m && "keyPoints" !in m ==>
      DeepDiveCheck(Object(m)) == Some(ValueError(MissingField + "keyPoints"))
    ensures "background" in m && "keyPoints" in m && "analysis" !in m ==>
      DeepDiveCheck(Object(m)) == Some(ValueError(MissingField + "analysis"))
    ensures "background" in m && "keyPoints" in m && "analysis" in m && "implications" !in m ==>
      DeepDiveCheck(Object(m)) == Some(ValueError(MissingField + "implications"))
  {
    FirstMissingOnObject(DeepDiveFields, m);
    assert DeepDiveFields[1..] == ["keyPoints", "analysis", "implications"];
    assert DeepDiveFields[1..][1..] == ["analysis", "implications"];
    assert DeepDiveFields[1..][1..][1..] == ["implications"];
  }

  /** Every element of a `perspectives` list must pass the field check; the
      error is that of the first element that does not. */
  function CheckPerspectiveItems(items: seq<Json>): (r: Option<PyError>)
    ensures r == None <==>
      forall i, j :: 0 <= i < |items| && 0 <= j < |PerspectiveFields| ==>
        PyIn(PerspectiveFields[j], items[i]) == Ok(true)
  {
    if items == [] then None
    else
      match FirstMissing(PerspectiveFields, items[0])
      case Raised(e) => Some(e)
      case Ok(Some(f)) => Some(ValueError(MissingPerspectiveField + f))
      case Ok(None) =>
        var rest := CheckPerspectiveItems(items[1..]);
        assert forall i :: 1 <= i < |items| ==> items[i] == items[1..][i - 1];
        rest
  }

  /** The perspective shape check: a `perspectives` key holding a list whose
      every element carries the four perspective fields. */
  function PerspectiveCheck(v: Json): (r: Option<PyError>)
    ensures r == None ==> v.Object? && "perspectives" in v.fields && v.fields["perspectives"].Array?
    ensures v.Array? || v.String? ==> r.Some? && (r.value.TypeError? <==> PyIn("perspectives", v) == Ok(true))
    ensures v.Null? || v.Bool? || v.Number? || v.Float? ==> r.Some? && r.value.TypeError?
  {
    match PyIn("perspectives", v)
    case Raised(e) => Some(e)
    case Ok(present) =>
      if !present then Some(ValueError(MissingPerspectives))
      else
        match v
        case Object(m) =>
          (match m["perspectives"]
           case Array(items) => CheckPerspectiveItems(items)
           case _ => Some(ValueError(PerspectivesNotList)))
        case Array(_) => Some(TypeError("list indices must be integers or slices, not str"))
        case String(_) => Some(TypeError("string indices must be integers, not 'str'"))
        case _ => Some(TypeError("argument of type '" + TypeName(v) + "' is not iterable"))
  }

  /** A dict passes the perspective check exactly when `perspectives` is a
      key whose value is a list and every element of it has `viewpoint`,
      `issues`, `questions` and `implications` (as keys, when the element
      is a dict). */
  lemma PerspectiveCheckOnObject(m: map<string, Json>)
    ensures PerspectiveCheck(Object(m)) == None <==>
      "perspectives" in m && m["perspectives"].Array? &&
      forall i, j :: 0 <= i < |m["perspectives"].items| && 0 <= j < |PerspectiveFields| ==>
        PyIn(PerspectiveFields[j], m["perspectives"].items[i]) == Ok(true)
    ensures "perspectives" !in m ==> PerspectiveCheck(Object(m)) == Some(ValueError(MissingPerspectives))
    ensures "perspectives" in m && !m["perspectives"].Array? ==>
      PerspectiveCheck(Object(m)) == Some(ValueError(PerspectivesNotList))
  {
  }

  /** A `perspectives` list whose elements are all dicts passes exactly when
      every element has the four keys. */
  lemma PerspectiveItemsOfObjects(items: seq<Json>)
    requires forall i :: 0 <= i < |items| ==> items[i].Object?
    ensures CheckPerspectiveItems(items) == None <==>
      forall i, j :: 0 <= i < |items| && 0 <= j < |PerspectiveFields| ==>
        PerspectiveFields[j] in items[i].fields
  {
    forall i, j | 0 <= i < |items| && 0 <= j < |PerspectiveFields|
      ensures PyIn(PerspectiveFields[j], items[i]) == Ok(PerspectiveFields[j] in items[i].fields)
    {
    }
  }

  /** `get_deep_dive`: an empty text is refused before decoding, the decoded
      value must pass the deep-dive check, and every failure inside the
      `try` is re-raised with the deep-dive prefix. */
  function GetDeepDive(gen: Generation, parse: Parser): (r: HelperResult)
    ensures r.Done? <==> gen.Generated? && gen.text != [] && parse(CleanText(gen.text)).Parsed?
                         && DeepDiveCheck(parse(CleanText(gen.text)).value) == None
    ensures r.Done? ==> r.value == parse(CleanText(gen.text)).value
    ensures gen.InitFailed? ==> r == Failed(gen.msg)
    ensures gen.CallFailed? ==> r == Failed(DeepDivePrefix + gen.msg)
    ensures gen.Generated? && gen.text == [] ==> r == Failed(DeepDivePrefix + EmptyResponse)
    ensures gen.Generated? && gen.text != [] && parse(CleanText(gen.text)).DecodeError? ==>
              r == Failed(DeepDivePrefix + ParseErrorPrefix + parse(CleanText(gen.text)).msg)
    ensures gen.Generated? && gen.text != [] && parse(CleanText(gen.text)).Parsed?
              && DeepDiveCheck(parse(CleanText(gen.text)).value).Some? ==>
              r == Failed(DeepDivePrefix + DeepDiveCheck(parse(CleanText(gen.text)).value).value.msg)
    ensures r.Failed? && !gen.InitFailed? ==> Text.StartsWith(r.message, DeepDivePrefix)
  {
    match gen
    case InitFailed(m) => Failed(m)
    case CallFailed(m) => Failed(DeepDivePrefix + m)
    case Generated(text) =>
      if text == [] then Failed(DeepDivePrefix + EmptyResponse)
      else
        match CleanJsonResponse(text, parse)
        case Raised(e) => Failed(DeepDivePrefix + e.msg)
        case Ok(v) =>
          match DeepDiveCheck(v)
          case Some(e) => Failed(DeepDivePrefix + e.msg)
          case None => Done(v)
  }

  /** `get_perspective`: as `get_deep_dive`, with the perspective check and
      prefix. */
  function GetPerspective(gen: Generation, parse: Parser): (r: HelperResult)
    ensures r.Done? <==> gen.Generated? && gen.text != [] && parse(CleanText(gen.text)).Parsed?
                         && PerspectiveCheck(parse(CleanText(gen.text)).value) == None
    ensures r.Done? ==> r.value == parse(CleanText(gen.text)).value
    ensures gen.InitFailed? ==> r == Failed(gen.msg)
    ensures gen.CallFailed? ==> r == Failed(PerspectivePrefix + gen.msg)
    ensures gen.Generated? && gen.text == [] ==> r == Failed(PerspectivePrefix + EmptyResponse)
    ensures gen.Generated? && gen.text != [] && parse(CleanText(gen.text)).DecodeError? ==>
              r == Failed(PerspectivePrefix + ParseErrorPrefix + parse(CleanText(gen.text)).msg)
    ensures gen.Generated? && gen.text != [] && parse(CleanText(gen.text)).Parsed?
              && PerspectiveCheck(parse(CleanText(gen.text)).value).Some? ==>
              r == Failed(PerspectivePrefix + PerspectiveCheck(parse(CleanText(gen.text)).value).value.msg)
    ensures r.Failed? && !gen.InitFailed? ==> Text.StartsWith(r.message, PerspectivePrefix)
  {
    match gen
    case InitFailed(m) => Failed(m)
    case CallFailed(m) => Failed(PerspectivePrefix + m)
    case Generated(text) =>
      if text == [] then Failed(PerspectivePrefix + EmptyResponse)
      else
        match CleanJsonResponse(text, parse)
        case Raised(e) => Failed(PerspectivePrefix + e.msg)
        case Ok(v) =>
          match PerspectiveCheck(v)
          case Some(e) => Failed(PerspectivePrefix + e.msg)
          case None => Done(v)
  }

  /** An empty response text is refused before the decoder is consulted:
      the outcome is the same whatever the decoder would say. */
  lemma EmptyTextNotDecoded(parse1: Parser, parse2: Parser)
    ensures GetDeepDive(Generated(""), parse1) == GetDeepDive(Generated(""), parse2)
              == Failed(DeepDivePrefix + EmptyResponse)
    ensures GetPerspective(Generated(""), parse1) == GetPerspective(Generated(""), parse2)
              == Failed(PerspectivePrefix + EmptyResponse)
  {
  }
}
