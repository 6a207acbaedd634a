/**
 * The request boundary: the `message` validator of `ChatRequest`, the validation errors the
 * request model reports, and the handler that maps them to a 400 or a 422 response.
 */
module Boundary {
  import opened Wrappers
  import opened Text
  import opened Messages

  const EmptyMessageText: string := "Message cannot be empty or whitespace only"

  /** `message_must_not_be_empty`: rejects a message that is empty or blank after `strip()`. */
  function MessageMustNotBeEmpty(v: string): (r: Result<string, string>)
    ensures r.Failure? <==> AllSpace(v)
    ensures r.Success? ==> r.value == v
    ensures r.Failure? ==> r.error == EmptyMessageText
  {
    StripEmptyIff(v);
    if v == [] || Strip(v) == [] then Failure(EmptyMessageText) else Success(v)
  }

  /** One entry of `exc.errors()`: the values of its `type` and `msg` keys, and its location. */
  datatype ValidationError = ValidationError(kind: Option<string>, msg: Option<string>, loc: seq<string>)

  /** A `/chat` request body before validation; `message` and `history` may be absent. */
  datatype ChatRequestBody = ChatRequestBody(message: Option<string>, history: Option<seq<HistoryEntry>>)

  /** Validation of a body against `ChatRequest`, with the error entries the request model reports. */
  function ValidateChatRequest(body: ChatRequestBody): (r: Result<ChatRequest, seq<ValidationError>>)
    ensures r.Success? <==> body.message.Some? && !AllSpace(body.message.value)
    ensures r.Success? ==> r.value == ChatRequest(body.message.value, body.history.GetOr([]))
    ensures r.Failure? ==> |r.error| == 1 && r.error[0].loc == ["body", "message"]
    ensures body.message.None? ==> r.error[0].kind == Some("missing")
    ensures body.message.Some? && AllSpace(body.message.value) ==>
      r.error[0].kind == Some("value_error") && r.error[0].msg == Some("Value error, " + EmptyMessageText)
  {
    match body.message
    case None =>
      Failure([ValidationError(Some("missing"), Some("Field required"), ["body", "message"])])
    case Some(m) =>
      match MessageMustNotBeEmpty(m)
      case Failure(e) =>
        Failure([ValidationError(Some("value_error"), Some("Value error, " + e), ["body", "message"])])
      case Success(v) =>
        Success(ChatRequest(v, body.history.GetOr([])))
  }

  /** An error of type `value_error` whose message mentions "empty". */
  predicate IsEmptyMessageError(e: ValidationError) {
    e.kind == Some("value_error") && Contains(e.msg.GetOr(""), "empty")
  }

  /** The loop of the handler: does any error report an empty message? */
  function HasEmptyMessageError(errs: seq<ValidationError>): (b: bool)
    ensures b <==> exists i :: 0 <= i < |errs| && IsEmptyMessageError(errs[i])
  {
    if errs == [] then false
    else IsEmptyMessageError(errs[0]) || HasEmptyMessageError(errs[1..])
  }

  datatype ErrorBody = Detail(text: string) | DetailErrors(errors: seq<ValidationError>)

  datatype JsonResponse = JsonResponse(status: nat, body: ErrorBody)

  /** `validation_exception_handler` */
  function ValidationExceptionHandler(errs: seq<ValidationError>): (r: JsonResponse)
    ensures r.status == 400 <==> exists i :: 0 <= i < |errs| && IsEmptyMessageError(errs[i])
    ensures r.status == 400 ==> r.body == Detail("Empty message")
    ensures r.status != 400 ==> r == JsonResponse(422, DetailErrors(errs))
  {
    if HasEmptyMessageError(errs) then JsonResponse(400, Detail("Empty message"))
    else JsonResponse(422, DetailErrors(errs))
  }

  /** A message that is empty or whitespace only is answered with 400 and `{"detail": "Empty message"}`. */
  lemma BlankMessageGets400(body: ChatRequestBody)
    requires body.message.Some? && AllSpace(body.message.value)
    ensures ValidateChatRequest(body).Failure?
    ensures ValidationExceptionHandler(ValidateChatRequest(body).error) == JsonResponse(400, Detail("Empty message"))
  {
    var text := "Value error, " + EmptyMessageText;
    assert MessageMustNotBeEmpty(body.message.value) == Failure(EmptyMessageText);
    var e := ValidationError(Some("value_error"), Some(text), ["body", "message"]);
    assert ValidateChatRequest(body) == Failure([e]);
    assert text[31] == 'e' && text[32] == 'm' && text[33] == 'p' && text[34] == 't' && text[35] == 'y';
    assert text[31..36] == "empty";
    assert OccursAt(text, "empty", 31);
    assert IsEmptyMessageError(e);
    assert HasEmptyMessageError([e]);
  }

  /** A body without `message` is answered with 422 and the validation errors. */
  lemma MissingMessageGets422(body: ChatRequestBody)
    requires body.message.None?
    ensures ValidateChatRequest(body).Failure?
    ensures ValidationExceptionHandler(ValidateChatRequest(body).error).status == 422
  {
  }

  /** A message with a non-whitespace character passes unchanged; a missing `history` becomes `[]`. */
  lemma NonBlankMessageAccepted(body: ChatRequestBody)
    requires body.message.Some? && !AllSpace(body.message.value)
    ensures ValidateChatRequest(body) == Success(ChatRequest(body.message.value, body.history.GetOr([])))
  {
  }

  /** The integration tests' empty message is rejected with 400. */
  lemma EmptyStringGets400(h: Option<seq<HistoryEntry>>)
    ensures ValidationExceptionHandler(ValidateChatRequest(ChatRequestBody(Some(""), h)).error).status == 400
  {
    BlankMessageGets400(ChatRequestBody(Some(""), h));
  }

  /** The integration tests' whitespace-only message is rejected with 400. */
  lemma WhitespaceStringGets400(ws: string, h: Option<seq<HistoryEntry>>)
    requires ws == "   \n\t  "
    ensures ValidationExceptionHandler(ValidateChatRequest(ChatRequestBody(Some(ws), h)).error).status == 400
  {
    assert AllSpace(ws) by {
      assert ws == [' ', ' ', ' ', '\n', '\t', ' ', ' '];
      forall i | 0 <= i < 7 ensures IsSpace(ws[i]) {
        assert ws[i] in {' ', '\n', '\t'};
      }
    }
    BlankMessageGets400(ChatRequestBody(Some(ws), h));
  }
}
