/** The model call: blocks, cost, and bounded retry with linear backoff. */
module ChatClient {
  import opened CanonicalJson

  datatype Block =
    | TextBlock(text: string)
    | ToolUseBlock(id: string, name: string, input: Json)

  datatype Response = Response(content: seq<Block>, inputTokens: nat, outputTokens: nat)

  /** One answer of the provider: only a transient failure is retried. */
  datatype Reply = Answered(response: Response) | Transient(error: string) | Fatal(error: string)

  /** USD per million tokens, input and output. */
  function Pricing(model: string): (real, real) {
    if model == "claude-sonnet-5" then (3.0, 15.0)
    else if model == "claude-opus-5" then (15.0, 75.0)
    else if model == "claude-haiku-4-5-20251001" then (0.80, 4.0)
    else (3.0, 15.0)
  }

  function EstimateCost(model: string, inputTokens: nat, outputTokens: nat): real {
    var (perIn, perOut) := Pricing(model);
    (inputTokens as real * perIn + outputTokens as real * perOut) / 1000000.0
  }

  /** Cost is additive, so a run's total is the cost of its token totals; and it is never negative. */
  lemma CostAdds(model: string, i: nat, o: nat, i': nat, o': nat)
    ensures EstimateCost(model, i, o) + EstimateCost(model, i', o') == EstimateCost(model, i + i', o + o')
    ensures EstimateCost(model, i, o) >= 0.0
  {
    var (perIn, perOut) := Pricing(model);
    assert (i + i') as real * perIn == i as real * perIn + i' as real * perIn;
    assert (o + o') as real * perOut == o as real * perOut + o' as real * perOut;
  }

  /** The price list, in millionths of a dollar: per token of input and of output, and the default. */
  lemma PriceList(model: string, i: nat, o: nat)
    ensures 1000000.0 * EstimateCost("claude-sonnet-5", i, o) == 3.0 * i as real + 15.0 * o as real
    ensures 1000000.0 * EstimateCost("claude-opus-5", i, o) == 15.0 * i as real + 75.0 * o as real
    ensures 1000000.0 * EstimateCost("claude-haiku-4-5-20251001", i, o) == 0.8 * i as real + 4.0 * o as real
    ensures model !in {"claude-sonnet-5", "claude-opus-5", "claude-haiku-4-5-20251001"} ==>
      1000000.0 * EstimateCost(model, i, o) == 3.0 * i as real + 15.0 * o as real
  {
    assert |"claude-sonnet-5"| == 15 && |"claude-opus-5"| == 13 && |"claude-haiku-4-5-20251001"| == 25;
  }

  /** The attempt, counted from 0, at which retrying stops. */
  function SettlesAt(chat: nat -> Reply, from: nat, maxRetries: int): nat
    decreases maxRetries - from
  {
    if chat(from).Transient? && from < maxRetries then SettlesAt(chat, from + 1, maxRetries) else from
  }

  function Settled(chat: nat -> Reply, maxRetries: int): Reply {
    chat(SettlesAt(chat, 0, maxRetries))
  }

  lemma Distribute(backoff: real, m: nat, n: nat)
    ensures backoff * (n + m) as real == backoff * m as real + backoff * n as real
  {
  }

  /** 1 + 2 + ... + n. */
  function Triangle(n: nat): nat { if n == 0 then 0 else n + Triangle(n - 1) }

  lemma {:induction false} TriangleClosed(n: nat)
    ensures 2 * Triangle(n) == n * (n + 1)
  {
    if n > 0 {
      TriangleClosed(n - 1);
    }
  }

  /**
  Returns the first reply that is not a transient failure, or the failure of attempt `maxRetries + 1`;
  sleeps `backoff` times 1, 2, ... between attempts.
  */
  method CallWithRetries(chat: nat -> Reply, maxRetries: int, backoff: real)
    returns (reply: Reply, attempts: nat, slept: real)
    ensures attempts >= 1 && reply == chat(attempts - 1) == Settled(chat, maxRetries)
    ensures attempts - 1 == SettlesAt(chat, 0, maxRetries)
    ensures forall i :: 0 <= i < attempts - 1 ==> chat(i).Transient?
    ensures attempts <= (if maxRetries < 0 then 0 else maxRetries) + 1
    ensures reply.Transient? ==> attempts == (if maxRetries < 0 then 0 else maxRetries) + 1
    ensures slept == backoff * Triangle(attempts - 1) as real
  {
    attempts, slept := 0, 0.0;
    while true
      invariant attempts <= if maxRetries < 0 then 0 else maxRetries
      invariant forall i :: 0 <= i < attempts ==> chat(i).Transient?
      invariant SettlesAt(chat, attempts, maxRetries) == SettlesAt(chat, 0, maxRetries)
      invariant slept == backoff * Triangle(attempts) as real
      decreases maxRetries - attempts
    {
      reply := chat(attempts);
      attempts := attempts + 1;
      if !reply.Transient? || attempts > maxRetries {
        return;
      }
      Distribute(backoff, Triangle(attempts - 1), attempts);
      slept := slept + backoff * attempts as real;
    }
  }

  /** The first success wins; giving up takes exactly `maxRetries + 1` failures. */
  lemma {:induction false} SettlesAtSpec(chat: nat -> Reply, from: nat, maxRetries: int)
    ensures var n := SettlesAt(chat, from, maxRetries);
      && from <= n && (n == from || n <= maxRetries)
      && (forall i :: from <= i < n ==> chat(i).Transient?)
      && (chat(n).Transient? ==> n >= maxRetries)
    decreases maxRetries - from
  {
    if chat(from).Transient? && from < maxRetries {
      SettlesAtSpec(chat, from + 1, maxRetries);
    }
  }
}
