/**
 * Post-processing of the generative model's replies. The model call itself is an input: the reply text,
 * or `None` when the call (or reading its text) throws. `JSON.parse` is an input too, as a function
 * from text to a parsed value, `None` where it throws.
 */
module Gemini {
  import opened Wrappers
  import opened Text

  /** A parsed JSON value. */
  datatype Json =
    | JNull
    | JBool(b: bool)
    | JNumber(n: real)
    | JString(s: string)
    | JArray(items: seq<Json>)
    | JObject(fields: map<string, Json>)

  const AdviceError: string := "Failed to get AI response"
  const DietPlanError: string := "Failed to generate diet plan"
  const InvalidDietPlanError: string := "Failed to generate valid diet plan"
  const InvalidStructureError: string := "Invalid diet plan structure"
  const WrongLengthError: string := "Diet plan must have exactly 7 days"
  const NullAccessError: string := "Cannot read properties of null (reading 'dailyPlans')"

  /** `getAyurvedicAdvice`: the model's text as it is, or the one advice error. */
  function GetAdvice(reply: Option<string>): (r: Result<string, string>)
    ensures r.Success? <==> reply.Some?
    ensures r.Success? ==> r.value == reply.value
    ensures r.Failure? ==> r.error == AdviceError
  {
    match reply
    case None => Failure(AdviceError)
    case Some(text) => Success(text)
  }

  const Fence: string := "```"
  const JsonFence: string := "```json"

  /** `text.replace(/```json\n?|\n?```/g, '')`: scanning left to right, at each position the first
      alternative is tried before the second, each `\n?` takes its newline when it can, a match is
      deleted and the scan resumes after it; where nothing matches one character is kept. */
  function StripFences(s: string): (r: string)
    ensures |r| <= |s|
    decreases |s|
  {
    if s == [] then []
    else if JsonFence <= s then
      var rest := s[|JsonFence|..];
      if rest != [] && rest[0] == '\n' then StripFences(rest[1..]) else StripFences(rest)
    else if |s| >= 4 && s[0] == '\n' && s[1..4] == Fence then StripFences(s[4..])
    else if Fence <= s then StripFences(s[3..])
    else [s[0]] + StripFences(s[1..])
  }

  /** Three backticks in a row start at position `i`. */
  predicate TripleAt(s: string, i: int) {
    0 <= i && i + 3 <= |s| && s[i] == '`' && s[i + 1] == '`' && s[i + 2] == '`'
  }

  /** No three backticks in a row, so no alternative of the pattern can match inside the text. Single
      and double backticks, as in inline code, are allowed. */
  predicate NoFence(s: string) {
    forall i :: 0 <= i < |s| ==> !TripleAt(s, i)
  }

  lemma FencePrefix(s: string)
    ensures Fence <= s <==> TripleAt(s, 0)
  {
  }

  lemma FenceAt(s: string, i: int)
    requires 0 <= i && i + 3 <= |s|
    ensures s[i..i + 3] == Fence <==> TripleAt(s, i)
  {
    assert s[i..i + 3][0] == s[i] && s[i..i + 3][1] == s[i + 1] && s[i..i + 3][2] == s[i + 2];
  }

  lemma NoFenceTail(s: string)
    requires s != [] && NoFence(s)
    ensures NoFence(s[1..])
  {
    forall i
      ensures !TripleAt(s[1..], i)
    {
      assert TripleAt(s[1..], i) ==> TripleAt(s, i + 1);
    }
  }

  /** Every alternative of the pattern holds three backticks in a row, so text without them is left
      as it is, single backticks included. */
  lemma {:induction false} StripFencesUnfenced(s: string)
    requires NoFence(s)
    ensures StripFences(s) == s
  {
    if s != [] {
      assert !TripleAt(s, 0) && !TripleAt(s, 1);
      FencePrefix(s);
      assert JsonFence <= s ==> TripleAt(s, 0);
      if |s| >= 4 {
        FenceAt(s, 1);
      }
      NoFenceTail(s);
      StripFencesUnfenced(s[1..]);
    }
  }

  /** The closing fence, with the newline before it, is deleted after a body with no triple backtick. */
  lemma {:induction false} StripClosingFence(body: string)
    requires NoFence(body)
    ensures StripFences(body + "\n```") == body
  {
    var s := body + "\n```";
    if body == [] {
      assert s == "\n```";
      assert s[4..] == [];
    } else {
      assert forall k :: 0 <= k < |body| ==> s[k] == body[k];
      assert s[|body|] == '\n';
      assert !TripleAt(body, 0) && !TripleAt(body, 1);
      assert !TripleAt(s, 0) && !TripleAt(s, 1);
      FencePrefix(s);
      assert JsonFence <= s ==> TripleAt(s, 0);
      if |s| >= 4 {
        FenceAt(s, 1);
      }
      assert s[1..] == body[1..] + "\n```";
      NoFenceTail(body);
      StripClosingFence(body[1..]);
    }
  }

  /** A fenced reply is reduced to exactly its body, inline backticks included. */
  lemma StripFencedBody(body: string)
    requires NoFence(body)
    ensures StripFences("```json\n" + body + "\n```") == body
  {
    var s := "```json\n" + body + "\n```";
    assert JsonFence <= s;
    assert s[|JsonFence|..][0] == '\n';
    assert s[|JsonFence|..][1..] == body + "\n```";
    StripClosingFence(body);
  }

  /** A reply with an inline code span, such as a recipe naming `ghee`, loses only its fences. */
  lemma InlineBackticksKept()
    ensures StripFences("```json\n" + "{\"x\": \"`ghee`\"}" + "\n```") == "{\"x\": \"`ghee`\"}"
  {
    var body := "{\"x\": \"`ghee`\"}";
    forall i
      ensures !TripleAt(body, i)
    {
      if 0 <= i && i + 3 <= |body| {
        assert body[i] != '`' || body[i + 1] != '`';
      }
    }
    StripFencedBody(body);
  }

  /** The text handed to `JSON.parse`: trimmed, then stripped of fences. A reply without three backticks in
      a row is only trimmed; see `CleanFencedReply` for a fenced one. */
  function CleanReply(reply: string): (r: string)
    ensures |r| <= |reply|
    ensures NoFence(Trim(reply)) ==> r == Trim(reply)
  {
    if NoFence(Trim(reply)) then StripFencesUnfenced(Trim(reply)); StripFences(Trim(reply))
    else StripFences(Trim(reply))
  }

  /** A fenced reply, with any whitespace around the fences, is cleaned to exactly its body: the trim
      only removes what lies outside the fences, and the body keeps its own leading and trailing space. */
  lemma CleanFencedReply(pre: string, body: string, post: string)
    requires IsBlank(pre) && IsBlank(post)
    requires NoFence(body)
    ensures CleanReply(pre + ("```json\n" + body + "\n```") + post) == body
  {
    var fenced := "```json\n" + body + "\n```";
    assert fenced[0] == '`' && fenced[|fenced| - 1] == '`';
    TrimPadded(pre, fenced, post);
    StripFencedBody(body);
  }

  /** The shape check: `dailyPlans` present, truthy, an array, and exactly seven long. */
  predicate IsWeekPlan(plan: Json) {
    plan.JObject? && "dailyPlans" in plan.fields && plan.fields["dailyPlans"].JArray?
    && |plan.fields["dailyPlans"].items| == 7
  }

  /** The inner validation of a parsed plan, with the message each check throws. */
  function DailyPlansOf(plan: Json): (r: Result<seq<Json>, string>)
    ensures r.Success? <==> IsWeekPlan(plan)
    ensures r.Success? ==> r.value == plan.fields["dailyPlans"].items
    ensures plan.JObject? && "dailyPlans" in plan.fields && plan.fields["dailyPlans"].JArray? && !IsWeekPlan(plan)
            ==> r == Failure(WrongLengthError)
  {
    match plan
    case JNull => Failure(NullAccessError)
    case JObject(fields) =>
      if "dailyPlans" !in fields || !fields["dailyPlans"].JArray? then Failure(InvalidStructureError)
      else if |fields["dailyPlans"].items| != 7 then Failure(WrongLengthError)
      else Success(fields["dailyPlans"].items)
    case _ => Failure(InvalidStructureError)
  }

  /** The inner `try`: parse and validate; whatever is thrown there is rethrown as one message. */
  function ParseDietPlan(text: string, parse: string -> Option<Json>): (r: Result<seq<Json>, string>)
    ensures r.Failure? ==> r.error == InvalidDietPlanError
    ensures r.Success? <==> parse(text).Some? && IsWeekPlan(parse(text).value)
    ensures r.Success? ==> r.value == parse(text).value.fields["dailyPlans"].items && |r.value| == 7
  {
    match parse(text)
    case None => Failure(InvalidDietPlanError)
    case Some(plan) =>
      match DailyPlansOf(plan)
      case Failure(_) => Failure(InvalidDietPlanError)
      case Success(days) => Success(days)
  }

  /** `getAyurvedicDietPlan`: the `dailyPlans` array of the cleaned, parsed reply, unchanged, when it
      holds exactly seven elements; every failure (model call, parse, shape, length) surfaces as the
      single outer message. */
  function GetDietPlan(reply: Option<string>, parse: string -> Option<Json>): (r: Result<seq<Json>, string>)
    ensures r.Failure? ==> r.error == DietPlanError
    ensures r.Success? ==> |r.value| == 7
  {
    match reply
    case None => Failure(DietPlanError)
    case Some(text) =>
      match ParseDietPlan(CleanReply(text), parse)
      case Failure(_) => Failure(DietPlanError)
      case Success(days) => Success(days)
  }

  /** A diet plan is produced exactly when the model answers and its cleaned reply parses to an object
      whose `dailyPlans` is a seven-element array, and the plan is that array as it was parsed. */
  lemma GetDietPlanSpec(reply: Option<string>, parse: string -> Option<Json>)
    ensures GetDietPlan(reply, parse).Success? <==>
              reply.Some? && parse(CleanReply(reply.value)).Some? && IsWeekPlan(parse(CleanReply(reply.value)).value)
    ensures GetDietPlan(reply, parse).Success? ==>
              GetDietPlan(reply, parse).value == parse(CleanReply(reply.value)).value.fields["dailyPlans"].items
  {
    if reply.Some? {
      var _ := ParseDietPlan(CleanReply(reply.value), parse);
    }
  }

  /** Acceptance looks at nothing but the length: any seven values, even seven `null`s with no day
      names or meals, are accepted as they are. */
  lemma AcceptsAnySevenValues(items: seq<Json>)
    requires |items| == 7
    ensures DailyPlansOf(JObject(map["dailyPlans" := JArray(items)])) == Success(items)
  {
  }

  /** Six or eight days are rejected. */
  lemma RejectsOtherLengths(items: seq<Json>)
    requires |items| != 7
    ensures DailyPlansOf(JObject(map["dailyPlans" := JArray(items)])) == Failure(WrongLengthError)
  {
  }
}
