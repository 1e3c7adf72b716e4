/** The contract both AI paths share with the inference service: one chat
    request per call, an answer that is text or an exception, the JSON-looking
    span `\{[\s\S]*\}` cut out of the answer, and the rule that every failure
    on the way falls back to a deterministic value. */
module Inference {
  import opened Wrappers

  const Model := "@cf/meta/llama-3.1-8b-instruct"

  datatype Message = Message(role: string, content: string)

  /** What `ai.run` is given. */
  datatype AiRequest = AiRequest(model: string, messages: seq<Message>, maxTokens: nat)

  /** What `ai.run` yields: it throws, or it answers with the text of
      `response.response` (an absent text is the empty string, as `|| ''`
      makes it). */
  datatype AiReply = Threw | Replied(response: string)

  /** The `ai` binding: absent, or a service answering requests. */
  datatype AiBinding = Unbound | Bound(run: AiRequest -> AiReply)

  /** The value an AI path returns, whether it came from the service's answer,
      and the requests it sent to the service. */
  datatype Outcome<T> = Outcome(value: T, fromAi: bool, calls: seq<AiRequest>)

  function UserRequest(prompt: string, maxTokens: nat): (q: AiRequest)
    ensures q.messages == [Message("user", prompt)]
  {
    AiRequest(Model, [Message("user", prompt)], maxTokens)
  }

  // ---------------------------------------------------------------------------
  // The JSON-looking span of an answer

  /** The first position at or after `i` holding `c`. */
  function FirstIndexOf(s: string, c: char, i: nat): (r: Option<nat>)
    requires i <= |s|
    ensures r.Some? ==> i <= r.value < |s| && s[r.value] == c
                        && forall k :: i <= k < r.value ==> s[k] != c
    ensures r.None? ==> forall k :: i <= k < |s| ==> s[k] != c
    decreases |s| - i
  {
    if i == |s| then None
    else if s[i] == c then Some(i)
    else FirstIndexOf(s, c, i + 1)
  }

  /** The last position before `n` holding `c`. */
  function LastIndexOf(s: string, c: char, n: nat): (r: Option<nat>)
    requires n <= |s|
    ensures r.Some? ==> r.value < n && s[r.value] == c
                        && forall k :: r.value < k < n ==> s[k] != c
    ensures r.None? ==> forall k :: 0 <= k < n ==> s[k] != c
  {
    if n == 0 then None
    else if s[n - 1] == c then Some(n - 1)
    else LastIndexOf(s, c, n - 1)
  }

  /** Some `{` comes before some `}`: the regular expression has a match. */
  ghost predicate HasBracePair(s: string) {
    exists i, j :: 0 <= i < j < |s| && s[i] == '{' && s[j] == '}'
  }

  /** The leftmost-longest match of `\{[\s\S]*\}`: from the first `{` to the
      last `}` after it; none when no `{` precedes a `}`. */
  function JsonSpan(s: string): (r: Option<string>)
    ensures r.None? <==> !HasBracePair(s)
    ensures r.Some? ==>
      exists i, j :: 0 <= i < j < |s| && s[i] == '{' && s[j] == '}' && r.value == s[i..j + 1]
                     && (forall k :: 0 <= k < i ==> s[k] != '{')
                     && (forall k :: j < k < |s| ==> s[k] != '}')
  {
    match FirstIndexOf(s, '{', 0)
    case None => None
    case Some(i) =>
      match LastIndexOf(s, '}', |s|)
      case None => None
      case Some(j) => if i < j then Some(s[i..j + 1]) else None
  }

  /** An answer that is exactly prose, one braced object and prose yields that
      object, as long as the prose around it holds no brace of its own. */
  lemma JsonSpanOfWrapped(before: string, obj: string, after: string)
    requires 2 <= |obj| && obj[0] == '{' && obj[|obj| - 1] == '}'
    requires '{' !in before && '}' !in after
    ensures JsonSpan(before + obj + after) == Some(obj)
  {
    var s := before + obj + after;
    var i, j := |before|, |before| + |obj| - 1;
    assert s[i] == '{' && s[j] == '}';
    assert forall k :: 0 <= k < i ==> s[k] == before[k];
    assert forall k :: j < k < |s| ==> s[k] == after[k - j - 1];
    assert FirstIndexOf(s, '{', 0) == Some(i);
    assert LastIndexOf(s, '}', |s|) == Some(j);
    assert s[i..j + 1] == obj;
  }

  // ---------------------------------------------------------------------------
  // The shared dispatch: ask the service, or fall back

  /** `try { r = ai.run(...); m = text.match(...); if (m) return JSON.parse(m[0]);
      throw ... } catch { return fallback }`. `parse` is `JSON.parse`, `None`
      when it throws; its result is returned unchecked. An absent binding
      makes `ai.run` throw before any request is sent. */
  function AskAi<T>(ai: AiBinding, prompt: string, maxTokens: nat,
                    parse: string -> Option<T>, fallback: T): (r: Outcome<T>)
    ensures r.calls == if ai.Bound? then [UserRequest(prompt, maxTokens)] else []
    ensures !r.fromAi ==> r.value == fallback
    ensures r.fromAi <==>
      ai.Bound? && ai.run(UserRequest(prompt, maxTokens)).Replied?
      && var answer := ai.run(UserRequest(prompt, maxTokens)).response;
         HasBracePair(answer) && parse(JsonSpan(answer).value).Some?
    ensures r.fromAi ==>
      r.value == parse(JsonSpan(ai.run(UserRequest(prompt, maxTokens)).response).value).value
  {
    if ai.Unbound? then Outcome(fallback, false, [])
    else
      var request := UserRequest(prompt, maxTokens);
      match ai.run(request)
      case Threw => Outcome(fallback, false, [request])
      case Replied(answer) =>
        match JsonSpan(answer)
        case None => Outcome(fallback, false, [request])
        case Some(span) =>
          match parse(span)
          case None => Outcome(fallback, false, [request])
          case Some(v) => Outcome(v, true, [request])
  }
}
