/**
  Extraction of the reply text from the generation service's response body:
  the `text` of the first part of the content of the first candidate, where
  each missing key is replaced by a default (a list holding one empty dict,
  an empty dict, or the fallback string).
 */
module Reply {
  import opened Wrappers
  import opened Py

  /** Returned when the `text` field (or a key above it) is absent. */
  const FALLBACK_TEXT: string := "Desculpe, não consegui processar sua solicitação."

  /** The default-filling lookup chain, step by step, with Python's exceptions.
      It succeeds exactly when the nested text is present or some key on the
      path is missing, and then yields that text or the fallback string. */
  function ExtractReplyText(body: Json): (r: Result<Json, Exception>)
    ensures r.Ok? <==> (FirstPart(body).Some? && "text" in FirstPart(body).value) || SomeKeyMissing(body)
    ensures SomeKeyMissing(body) ==> r == Ok(Str(FALLBACK_TEXT))
    ensures !SomeKeyMissing(body) && r.Ok? ==> HasReplyAt(body, r.value)
  {
    var candidates :- Get(body, "candidates", Arr([Obj(map[])]));
    var first :- Index0(candidates);
    var content :- Get(first, "content", Obj(map[]));
    var parts :- Get(content, "parts", Arr([Obj(map[])]));
    var part :- Index0(parts);
    Get(part, "text", Str(FALLBACK_TEXT))
  }

  // A strict reading of the same path, with no defaults: each function
  // yields the dict reached so far, when every step is present and well shaped.

  /** The fields of `candidates[0]`. */
  ghost function FirstCandidate(body: Json): Option<map<string, Json>> {
    if body.Obj? && "candidates" in body.fields
       && body.fields["candidates"].Arr? && |body.fields["candidates"].items| > 0
       && body.fields["candidates"].items[0].Obj?
    then Some(body.fields["candidates"].items[0].fields)
    else None
  }

  /** The fields of `candidates[0].content`. */
  ghost function Content(body: Json): Option<map<string, Json>> {
    match FirstCandidate(body)
    case Some(c) => if "content" in c && c["content"].Obj? then Some(c["content"].fields) else None
    case None => None
  }

  /** The fields of `candidates[0].content.parts[0]`. */
  ghost function FirstPart(body: Json): Option<map<string, Json>> {
    match Content(body)
    case Some(ct) =>
      if "parts" in ct && ct["parts"].Arr? && |ct["parts"].items| > 0 && ct["parts"].items[0].Obj?
      then Some(ct["parts"].items[0].fields)
      else None
    case None => None
  }

  /** The body holds `t` at `candidates[0].content.parts[0].text`. */
  ghost predicate HasReplyAt(body: Json, t: Json) {
    FirstPart(body).Some? && "text" in FirstPart(body).value && FirstPart(body).value["text"] == t
  }

  /** The path is well shaped up to some key, and that key is absent. */
  ghost predicate SomeKeyMissing(body: Json) {
    || (body.Obj? && "candidates" !in body.fields)
    || (FirstCandidate(body).Some? && "content" !in FirstCandidate(body).value)
    || (Content(body).Some? && "parts" !in Content(body).value)
    || (FirstPart(body).Some? && "text" !in FirstPart(body).value)
  }

  /** A list on the path is present but empty, so `[0]` raises. */
  ghost predicate SomeListEmpty(body: Json) {
    || (body.Obj? && "candidates" in body.fields && body.fields["candidates"] == Arr([]))
    || (Content(body).Some? && "parts" in Content(body).value && Content(body).value["parts"] == Arr([]))
  }

  /** A well-shaped body yields the nested text. */
  lemma ExtractFound(body: Json, t: Json)
    requires HasReplyAt(body, t)
    ensures ExtractReplyText(body) == Ok(t)
  {
  }

  /** A missing key falls back to the fixed string instead of failing. */
  lemma ExtractFallback(body: Json)
    requires SomeKeyMissing(body)
    ensures ExtractReplyText(body) == Ok(Str(FALLBACK_TEXT))
  {
  }

  /** The defaults do not cover a present but empty list. */
  lemma ExtractEmptyList(body: Json)
    requires SomeListEmpty(body)
    ensures ExtractReplyText(body) == Raise(IndexError)
  {
  }

  /** A body that is not a JSON object has no `get`. */
  lemma ExtractNotObject(body: Json)
    requires !body.Obj?
    ensures ExtractReplyText(body) == Raise(AttributeError)
  {
  }

}
