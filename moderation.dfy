/**
 * The decision half of PostService.getFilteredText: how the reply of the
 * moderation proxy is read, when a text counts as abusive, which text
 * replaces it, and which side effects follow. The HTTP call itself is not
 * modelled: what it produced is an input (`None` when it threw).
 */
module Moderation {
  import opened Types

  /** A JSON value as Jackson decodes it into a `Map<String, Object>`. */
  datatype Json =
    | JNull
    | JBool(b: bool)
    | JInt(i: int)          // an integral literal: Integer, Long or BigInteger
    | JFrac(r: real)        // a literal with a fraction or exponent: Double
    | JString(s: string)
    | JArray(items: seq<Json>)
    | JObject(fields: map<string, Json>)

  /** What `postForEntity` returned: the status and the decoded body (`None` for an empty body). */
  datatype Reply = Reply(status: int, body: Option<map<string, Json>>)

  /**
   * Everything the outside world decides during one moderation of one text:
   * the proxy's reply (`None` when building, signing or sending the request
   * threw) and whether the unseen UserService.applyPenalty throws.
   */
  datatype ModerationCall = ModerationCall(reply: Option<Reply>, penaltyFails: bool)

  /** Java's `map.get(key)`: a missing key and a JSON null both read as `null`. */
  function Get(m: map<string, Json>, key: string): (r: Option<Json>)
    ensures r.None? <==> key !in m || m[key] == JNull
    ensures r.Some? ==> r.value == m[key]
  {
    if key in m && m[key] != JNull then Some(m[key]) else None
  }

  /**
   * `decision.toString().equals("1")`. Of the values Jackson produces, only the
   * string "1" and the integer 1 print as "1": a Double prints with a fraction
   * ("1.0"), booleans as "true"/"false", lists and maps with brackets.
   */
  predicate PrintsAsOne(j: Json) {
    j == JString("1") || j == JInt(1)
  }

  /** The proxy answered: status 200 with a non-null body. */
  predicate Answered(reply: Option<Reply>) {
    reply.Some? && reply.value.status == 200 && reply.value.body.Some?
  }

  /** `isAbusive`: `final_decision` is present, not null, and prints as "1". */
  predicate Abusive(body: map<string, Json>) {
    var d := Get(body, "final_decision");
    d.Some? && PrintsAsOne(d.value)
  }

  /**
   * The replacement text chosen from the body, or `None` when one of the two
   * casts throws a ClassCastException: `result` is neither null nor an object,
   * or its `rewritten_text` is neither null nor a string.
   */
  function Rewritten(text: Text, body: map<string, Json>): (r: Option<Text>)
    ensures Get(body, "result").None? ==> r == Some(text)
    ensures r.None? <==>
              || (Get(body, "result").Some? && !Get(body, "result").value.JObject?)
              || (Get(body, "result").Some? && Get(body, "result").value.JObject?
                  && Get(Get(body, "result").value.fields, "rewritten_text").Some?
                  && !Get(Get(body, "result").value.fields, "rewritten_text").value.JString?)
    ensures r.Some? && Get(body, "result").Some? ==>
              var inner := Get(body, "result").value.fields;
              r.value == (if Get(inner, "rewritten_text").None? then None
                          else Some(Get(inner, "rewritten_text").value.s))
  {
    match Get(body, "result")
    case None => Some(text)
    case Some(JObject(inner)) =>
      (match Get(inner, "rewritten_text")
       case None => Some(None)
       case Some(JString(s)) => Some(Some(s))
       case Some(_) => None)
    case Some(_) => None
  }

  /** What the policy decided about one text: let it pass, or flag it with a replacement. */
  datatype Verdict = Pass | Flag(rewritten: Text)

  /**
   * The decision of getFilteredText. It is fail-open: a call that threw, a
   * status other than 200, a null body or a failed cast all let the text pass.
   * Otherwise the text is flagged exactly when the decision prints as "1".
   */
  function Judge(text: Text, reply: Option<Reply>): (v: Verdict)
    ensures !Answered(reply) ==> v == Pass
    ensures v.Flag? ==> Answered(reply) && Abusive(reply.value.body.value)
    ensures Answered(reply) && Rewritten(text, reply.value.body.value).Some? ==>
              (v.Flag? <==> Abusive(reply.value.body.value))
    ensures Answered(reply) && Rewritten(text, reply.value.body.value).None? ==> v == Pass
    ensures v.Flag? ==> Some(v.rewritten) == Rewritten(text, reply.value.body.value)
  {
    if !Answered(reply) then Pass
    else
      var body := reply.value.body.value;
      var rewritten := Rewritten(text, body);
      if rewritten.None? then Pass
      else if Abusive(body) then Flag(rewritten.value)
      else Pass
  }

  /** The outcome of one getFilteredText call: the text returned and which side effects happened. */
  datatype Filtering = Filtering(text: Text, logged: bool, penalised: bool)

  /**
   * getFilteredText on one text. A flagged text is logged; the penalty is then
   * applied and the replacement returned, unless applyPenalty throws, in which
   * case the exception is swallowed, the log entry stays and the original text
   * is returned. Nothing else changes anything.
   */
  function Filter(text: Text, call: ModerationCall): (f: Filtering)
    ensures f.logged <==> Judge(text, call.reply).Flag?
    ensures f.penalised <==> f.logged && !call.penaltyFails
    ensures !f.penalised ==> f.text == text
    ensures f.penalised ==> f.text == Judge(text, call.reply).rewritten
    ensures !Answered(call.reply) ==> f == Filtering(text, false, false)
  {
    match Judge(text, call.reply)
    case Pass => Filtering(text, false, false)
    case Flag(rewritten) =>
      if call.penaltyFails then Filtering(text, true, false)
      else Filtering(rewritten, true, true)
  }

  /** The log rows one getFilteredText call appends: one for a flagged text, none otherwise. */
  function LogEntries(text: Text, user: string, post: int, call: ModerationCall, now: Time): (e: seq<BadwordLog>)
    ensures |e| == (if Filter(text, call).logged then 1 else 0)
    ensures forall k :: 0 <= k < |e| ==>
              e[k] == BadwordLog(user, post, text, Judge(text, call.reply).rewritten, now)
  {
    match Judge(text, call.reply)
    case Pass => []
    case Flag(rewritten) => [BadwordLog(user, post, text, rewritten, now)]
  }

  /** Lemma: a flagged reply whose `result` carries the replacement substitutes it, logs once and charges once. */
  lemma FlaggedReplySubstitutes(text: Text, replacement: string, user: string, post: int, now: Time)
    ensures var body := map["final_decision" := JString("1"),
                             "result" := JObject(map["rewritten_text" := JString(replacement)])];
            var call := ModerationCall(Some(Reply(200, Some(body))), false);
            && Filter(text, call) == Filtering(Some(replacement), true, true)
            && LogEntries(text, user, post, call, now) == [BadwordLog(user, post, text, Some(replacement), now)]
  {
  }
}
