/** The conversation registry of gpt.py: per-user message histories and one
    retry delay shared by all users. The chat model is an oracle: each call
    to it consumes the next outcome of a supplied sequence. */
module Gpt {
  import opened Text
  import opened Wrappers

  datatype Message = System(content: string) | Human(content: string) | AI(content: string)

  /** The outcome of one call to the chat model: a reply, or an exception
      whose text (`str(e)`) is `description`. */
  datatype Completion = Reply(content: string) | Failure(description: string)

  /** What `ask` does for its caller: return the reply's text, or raise. */
  datatype AskResult = Answer(content: string) | Raised(description: string)

  const ResetPersona := "You are a helpful assistant."
  const RagPersona := "You are a helpful assistant. Your name is Ragoût."
  const RagAcknowledgement := "I understand. I will answer your questions based on this document."
  const RagPrefix := "Следующий документ представляет собой документ, который я вам даю. Вам предстоит ответить на вопросы по этой документации. \n\n    Документ: "
  const RagSuffix := "\n\n    На этом документ заканчивается. В следующих сообщениях я задам вам вопросы по этому документу. \n    Для ответа на вопрос используйте ТОЛЬКО фактическую информацию из стенограммы.\n    Дайте цитату, где это написано.\n    Если вы чувствуете, что у вас недостаточно информации для ответа на вопрос, скажите: «Я не знаю».\n    Ваши ответы должны быть многословными и подробными. Вы понимаете?"

  /** The delay `reset` installs, in units of one second. */
  const InitialDelay: nat := 1

  /** `make_rag(content)`: the document wrapped in the fixed instructions. */
  function MakeRag(content: string): (r: string)
  {
    RagPrefix + content + RagSuffix
  }

  /** Recovers the document from a `make_rag` prompt; nothing for any other text. */
  function RagContent(prompt: string): (r: Option<string>)
  {
    if |prompt| >= |RagPrefix| + |RagSuffix|
       && prompt[..|RagPrefix|] == RagPrefix
       && prompt[|prompt| - |RagSuffix|..] == RagSuffix
    then Some(prompt[|RagPrefix|..|prompt| - |RagSuffix|])
    else None
  }

  /** The prompt starts with the fixed prefix, ends with the fixed suffix,
      and the document can be read back from between them. */
  lemma MakeRagRoundTrip(content: string)
    ensures |MakeRag(content)| == |RagPrefix| + |content| + |RagSuffix|
    ensures OccursAt(MakeRag(content), content, |RagPrefix|)
    ensures RagContent(MakeRag(content)) == Some(content)
  {
    var p := MakeRag(content);
    assert p[..|RagPrefix|] == RagPrefix;
    assert p[|p| - |RagSuffix|..] == RagSuffix;
    assert p[|RagPrefix|..|p| - |RagSuffix|] == content;
  }

  /** The prompt contains the document. */
  lemma MakeRagContains(content: string)
    ensures Contains(MakeRag(content), content)
  {
    MakeRagRoundTrip(content);
    ContainsIff(MakeRag(content), content);
  }

  /** An exception is retried exactly when its text mentions "429". */
  predicate IsRateLimited(c: Completion)
  {
    c.Failure? && Contains(c.description, "429")
  }

  /** The sequence eventually yields something other than a rate limit. */
  predicate Terminates(outcomes: seq<Completion>)
  {
    exists i :: 0 <= i < |outcomes| && !IsRateLimited(outcomes[i])
  }

  /** The number of rate-limited calls before the first one that is not. */
  function RetryCount(outcomes: seq<Completion>): (k: nat)
    requires Terminates(outcomes)
    ensures k < |outcomes| && !IsRateLimited(outcomes[k])
    ensures forall j {:trigger IsRateLimited(outcomes[j])} :: 0 <= j < k ==> IsRateLimited(outcomes[j])
  {
    if !IsRateLimited(outcomes[0]) then 0
    else
      assert Terminates(outcomes[1..]) by {
        var i :| 0 <= i < |outcomes| && !IsRateLimited(outcomes[i]);
        assert outcomes[1..][i - 1] == outcomes[i];
      }
      1 + RetryCount(outcomes[1..])
  }

  function Pow2(k: nat): nat
  {
    if k == 0 then 1 else 2 * Pow2(k - 1)
  }

  /** The delay after `k` doublings of `delay`. */
  function Backoff(delay: nat, k: nat): nat
  {
    if k == 0 then delay else 2 * Backoff(delay, k - 1)
  }

  /** After `k` doublings the delay is the starting delay times 2^k. */
  lemma {:induction false} BackoffIsPower(delay: nat, k: nat)
    ensures Backoff(delay, k) == delay * Pow2(k)
  {
    if k > 0 {
      BackoffIsPower(delay, k - 1);
      var p := Pow2(k - 1);
      assert Backoff(delay, k) == 2 * (delay * p);
      assert 2 * (delay * p) == delay * (2 * p);
    }
  }

  /** The history `new_rag(content)` installs. */
  function RagHistory(content: string): seq<Message>
  {
    [System(RagPersona), Human(MakeRag(content)), AI(RagAcknowledgement)]
  }

  /** The delays `ask` sleeps before attempts 1, ..., n: the starting delay
      doubled 0, 1, ..., n - 1 times. */
  function Sleeps(delay: nat, n: nat): (r: seq<nat>)
    ensures |r| == n
  {
    if n == 0 then [] else Sleeps(delay, n - 1) + [Backoff(delay, n - 1)]
  }

  /** The j-th sleep is the starting delay doubled j times, that is, the
      starting delay times 2^j. */
  lemma {:induction false} SleepsAreBackoff(delay: nat, n: nat)
    ensures forall j :: 0 <= j < n ==> Sleeps(delay, n)[j] == Backoff(delay, j) == delay * Pow2(j)
  {
    if n > 0 {
      SleepsAreBackoff(delay, n - 1);
      BackoffIsPower(delay, n - 1);
    }
  }

  /** `n` copies of the query as user messages. */
  function Queries(query: string, n: nat): (r: seq<Message>)
    ensures |r| == n
  {
    if n == 0 then [] else Queries(query, n - 1) + [Human(query)]
  }

  /** Every message of `Queries(query, n)` is the query. */
  lemma {:induction false} QueriesAreQuery(query: string, n: nat)
    ensures forall i :: 0 <= i < n ==> Queries(query, n)[i] == Human(query)
  {
    if n > 0 {
      QueriesAreQuery(query, n - 1);
    }
  }

  /** The history `ask` leaves when it starts from `start`: one query per
      attempt, then the reply if the last attempt gave one. */
  function AskHistory(start: seq<Message>, query: string, outcomes: seq<Completion>): seq<Message>
    requires Terminates(outcomes)
  {
    var k := RetryCount(outcomes);
    start + Queries(query, k + 1) + (if outcomes[k].Reply? then [AI(outcomes[k].content)] else [])
  }

  function Outcome(c: Completion): AskResult
  {
    match c
    case Reply(content) => Answer(content)
    case Failure(description) => Raised(description)
  }

  /** One more query on the history `start + Queries(query, i)`. */
  lemma QueryStep(m: map<string, seq<Message>>, u: string, start: seq<Message>, query: string, i: nat)
    ensures m[u := start + Queries(query, i)][u := start + Queries(query, i) + [Human(query)]]
         == m[u := start + Queries(query, i + 1)]
  {
    assert start + Queries(query, i) + [Human(query)] == start + (Queries(query, i) + [Human(query)]);
  }

  /** After the last attempt the history is `AskHistory`: with the reply
      appended when there is one, as it stands otherwise. */
  lemma LastStep(m: map<string, seq<Message>>, u: string, start: seq<Message>, query: string,
                 outcomes: seq<Completion>)
    requires Terminates(outcomes)
    ensures var k := RetryCount(outcomes);
      outcomes[k].Reply? ==>
        m[u := start + Queries(query, k + 1)][u := start + Queries(query, k + 1) + [AI(outcomes[k].content)]]
        == m[u := AskHistory(start, query, outcomes)]
    ensures var k := RetryCount(outcomes);
      outcomes[k].Failure? ==> m[u := start + Queries(query, k + 1)] == m[u := AskHistory(start, query, outcomes)]
  {
    var k := RetryCount(outcomes);
    assert start + Queries(query, k + 1) + [] == start + Queries(query, k + 1);
  }

  class GPT {
    var messages: map<string, seq<Message>>
    var retryDelay: nat

    constructor (retryDelay: nat)
      ensures messages == map[] && this.retryDelay == retryDelay
    {
      messages := map[];
      this.retryDelay := retryDelay;
    }

    /** `new_rag(user, content)`: the user's history becomes the three fixed
        messages around the document; other users and the delay are untouched. */
    method NewRag(username: string, content: string)
      modifies this
      ensures messages == old(messages)[username := RagHistory(content)]
      ensures |messages[username]| == 3 && messages[username][0].System? && messages[username][1].Human?
      ensures messages[username][2].AI? && RagContent(messages[username][1].content) == Some(content)
      ensures retryDelay == old(retryDelay)
    {
      MakeRagRoundTrip(content);
      messages := messages[username := RagHistory(content)];
    }

    /** `reset(user)`: the history becomes the single system message and the
        shared delay goes back to its initial value. */
    method Reset(username: string)
      modifies this
      ensures messages == old(messages)[username := [System(ResetPersona)]]
      ensures retryDelay == InitialDelay
    {
      messages := messages[username := [System(ResetPersona)]];
      retryDelay := InitialDelay;
    }

    /** `ask(user, query)`. A user without a history is reset first (which
        also resets the shared delay). Every attempt appends the query; a
        rate-limited attempt sleeps for the current delay, doubles it and tries
        again; any other exception is raised with the queries left in place;
        a reply is appended and its text returned. `outcomes` are the chat
        model's answers to the successive attempts; `sleeps` are the delays
        slept. */
    method Ask(username: string, query: string, outcomes: seq<Completion>)
      returns (result: AskResult, sleeps: seq<nat>)
      requires Terminates(outcomes)
      modifies this
      ensures var start := if username in old(messages) then old(messages)[username] else [System(ResetPersona)];
              var delay := if username in old(messages) then old(retryDelay) else InitialDelay;
              var k := RetryCount(outcomes);
              && result == Outcome(outcomes[k])
              && retryDelay == Backoff(delay, k)
              && sleeps == Sleeps(delay, k)
              && messages == old(messages)[username := AskHistory(start, query, outcomes)]
    {
      if username !in messages {
        Reset(username);
      }
      ghost var start := messages[username];
      ghost var delay := retryDelay;
      ghost var k := RetryCount(outcomes);
      assert start + Queries(query, 0) == start;
      var i := 0;
      sleeps := [];
      while true
        invariant 0 <= i <= k
        invariant messages == old(messages)[username := start + Queries(query, i)]
        invariant retryDelay == Backoff(delay, i)
        invariant sleeps == Sleeps(delay, i)
        decreases k - i
      {
        QueryStep(old(messages), username, start, query, i);
        messages := messages[username := messages[username] + [Human(query)]];
        match outcomes[i]
        case Reply(content) =>
          assert !IsRateLimited(outcomes[i]);
          assert i == k;
          LastStep(old(messages), username, start, query, outcomes);
          messages := messages[username := messages[username] + [AI(content)]];
          return Answer(content), sleeps;
        case Failure(description) =>
          if Contains(description, "429") {
            assert IsRateLimited(outcomes[i]);
            sleeps := sleeps + [retryDelay];
            retryDelay := retryDelay * 2;
            i := i + 1;
          } else {
            assert !IsRateLimited(outcomes[i]);
            assert i == k;
            LastStep(old(messages), username, start, query, outcomes);
            return Raised(description), sleeps;
          }
      }
    }
  }
}
