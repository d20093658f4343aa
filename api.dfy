/** The FastAPI routes of backend/app/api.py: the input checks each route
    makes and how the exceptions of the Gemini helpers become HTTP
    responses. The model's output for a prompt and the JSON decoder are
    parameters. */
module Api {
  import Text
  import opened Json
  import GeminiUtils

  /** What a route answers: the returned body with status 200, or an
      `HTTPException` turned into an error response. */
  datatype Response = Success(body: Json) | HttpError(status: nat, detail: string)

  const HealthyMessage: string := "AI 취재 디렉터 API 서버가 정상 작동 중입니다."
  const Version: string := "1.0.0"
  const TopicRequired: string := "분석할 주제를 입력해주세요."
  const SituationRequired: string := "상황 설명을 입력해주세요."
  const PerspectiveRoutePrefix: string := "관점 확장 처리 중 오류가 발생했습니다: "
  const MinSituationLength: nat := 5

  /** `str(e)` of an `HTTPException` with status 400, as Starlette renders
      it: the status code, a colon and the detail. */
  function BadRequestText(detail: string): (r: string)
    ensures Text.StartsWith(r, "400: ") && r[5..] == detail
  {
    "400: " + detail
  }

  /** `health_check`: always the same three-field record. */
  function Health(): (r: Json)
    ensures r.Object? && r.fields.Keys == {"status", "message", "version"}
    ensures r.fields["status"] == String("healthy") && r.fields["version"] == String(Version)
    ensures r.fields["message"] == String(HealthyMessage)
  {
    Object(map["status" := String("healthy"), "message" := String(HealthyMessage), "version" := String(Version)])
  }

  /** `direct`: no input check; the helper's value is returned unchanged and
      any exception becomes a 500 whose detail is the exception's text. */
  function Direct(situation: string, generate: string -> GeminiUtils.Generation, parse: Parser): (r: Response)
    ensures r.Success? <==> GeminiUtils.GetDirecting(generate(situation), parse).Done?
    ensures r.Success? ==> r.body == GeminiUtils.GetDirecting(generate(situation), parse).value
    ensures r.HttpError? ==> r == HttpError(500, GeminiUtils.GetDirecting(generate(situation), parse).message)
  {
    match GeminiUtils.GetDirecting(generate(situation), parse)
    case Done(v) => Success(v)
    case Failed(m) => HttpError(500, m)
  }

  /** `deep_dive`: an empty topic raises a 400 inside the `try`, where the
      catch-all handler turns it into a 500 whose detail is "400: " and the
      message; the helper is then not called. A non-empty topic is passed
      on and every helper failure becomes a 500 with the helper's message.
      The route never answers 400. */
  function DeepDive(topic: string, generate: string -> GeminiUtils.Generation, parse: Parser): (r: Response)
    ensures topic == [] ==> r == HttpError(500, BadRequestText(TopicRequired))
    ensures topic != [] ==> (r.Success? <==> GeminiUtils.GetDeepDive(generate(topic), parse).Done?)
    ensures topic != [] && r.Success? ==> r.body == GeminiUtils.GetDeepDive(generate(topic), parse).value
    ensures topic != [] && r.HttpError? ==> r.detail == GeminiUtils.GetDeepDive(generate(topic), parse).message
    ensures r.HttpError? ==> r.status == 500
  {
    if topic == [] then HttpError(500, BadRequestText(TopicRequired))
    else
      match GeminiUtils.GetDeepDive(generate(topic), parse)
      case Done(v) => Success(v)
      case Failed(m) => HttpError(500, m)
  }

  /** `perspective`: a situation that is empty or shorter than five
      characters once stripped is answered with 400 and the helper is not
      called; the 400 passes the `except HTTPException` untouched. Any
      helper failure becomes a 500 whose detail adds the route's prefix to
      the helper's own message. */
  function Perspective(situation: string, perspective: string,
                       generate: (string, string) -> GeminiUtils.Generation, parse: Parser): (r: Response)
    ensures r == HttpError(400, SituationRequired) <==> |Text.Strip(situation)| < MinSituationLength
    ensures |Text.Strip(situation)| >= MinSituationLength ==>
              (r.Success? <==> GeminiUtils.GetPerspective(generate(situation, perspective), parse).Done?)
    ensures r.Success? ==> r.body == GeminiUtils.GetPerspective(generate(situation, perspective), parse).value
    ensures r.HttpError? && |Text.Strip(situation)| >= MinSituationLength ==>
              r == HttpError(500, PerspectiveRoutePrefix + GeminiUtils.GetPerspective(generate(situation, perspective), parse).message)
  {
    if situation == [] || |Text.Strip(situation)| < MinSituationLength then HttpError(400, SituationRequired)
    else
      match GeminiUtils.GetPerspective(generate(situation, perspective), parse)
      case Done(v) => Success(v)
      case Failed(m) => HttpError(500, PerspectiveRoutePrefix + m)
  }

  /** A rejected situation is answered the same whatever the model and the
      decoder would do: the helper is never reached. */
  lemma PerspectiveRejectsBeforeHelper(situation: string, perspective: string,
                                       generate1: (string, string) -> GeminiUtils.Generation, parse1: Parser,
                                       generate2: (string, string) -> GeminiUtils.Generation, parse2: Parser)
    requires |Text.Strip(situation)| < MinSituationLength
    ensures Perspective(situation, perspective, generate1, parse1) == Perspective(situation, perspective, generate2, parse2)
  {
  }

  /** An empty topic is answered the same whatever the model and the decoder
      would do. */
  lemma DeepDiveRejectsBeforeHelper(generate1: string -> GeminiUtils.Generation, parse1: Parser,
                                    generate2: string -> GeminiUtils.Generation, parse2: Parser)
    ensures DeepDive("", generate1, parse1) == DeepDive("", generate2, parse2)
  {
  }

  /** A failure of the perspective helper that happens inside its `try`
      reaches the client with the prefix twice: once from the helper, once
      from the route. */
  lemma PerspectivePrefixRepeated(situation: string, perspective: string,
                                  generate: (string, string) -> GeminiUtils.Generation, parse: Parser)
    requires |Text.Strip(situation)| >= MinSituationLength
    requires !generate(situation, perspective).InitFailed?
    requires GeminiUtils.GetPerspective(generate(situation, perspective), parse).Failed?
    ensures Perspective(situation, perspective, generate, parse).HttpError?
    ensures Text.StartsWith(Perspective(situation, perspective, generate, parse).detail,
                            PerspectiveRoutePrefix + GeminiUtils.PerspectivePrefix)
  {
    var m := GeminiUtils.GetPerspective(generate(situation, perspective), parse).message;
    assert Text.StartsWith(m, GeminiUtils.PerspectivePrefix);
    assert m[..|GeminiUtils.PerspectivePrefix|] == GeminiUtils.PerspectivePrefix;
    var d := PerspectiveRoutePrefix + m;
    assert d[..|PerspectiveRoutePrefix + GeminiUtils.PerspectivePrefix|] == PerspectiveRoutePrefix + GeminiUtils.PerspectivePrefix;
  }
}
