/**
 * The payment submission controller of the checkout's payment form: a guard flag that
 * blocks a second submission, card tokenisation, a bounded retry loop that keeps one
 * idempotency key for the whole attempt, and a fresh key after a terminal failure or a
 * user retry. Tokenisation, the network and the UUID generator are oracles passed in;
 * the back-off sleeps are recorded, not waited for.
 */
module PaymentForm {
  import opened Wrappers
  import opened JsStrings
  import opened CartTypes
  import opened CheckoutTypes

  /** `MAX_RETRIES`: retries after the first submission. */
  const MaxRetries: nat := 2
  /** Submissions one payment may make. */
  const Attempts: nat := MaxRetries + 1

  const FormNotReady: string := "Payment form not ready"
  const LoadFailed: string := "Failed to load payment form. Please refresh the page."

  datatype PaymentState = PaymentIdle | PaymentInFlight | PaymentSuccess | PaymentError

  /** What `card.tokenize()` gives back: a result object, or a rejection with its message. */
  datatype TokenResult =
    | Tokenized(status: string, token: Option<string>, firstErrorMessage: Option<string>)
    | TokenizeThrew(message: string)

  /**
   * What `fetch` of the payment endpoint gives back: a response with its `ok` flag and
   * the fields read from its JSON body, or a rejection (network failure, unreadable body).
   */
  datatype ServerReply =
    | Reply(ok: bool, success: bool, error: Option<string>,
            paymentId: Option<string>, orderId: Option<string>, receiptUrl: Option<string>)
    | Rejected(message: string)

  datatype PaymentIds = PaymentIds(paymentId: Option<string>, orderId: Option<string>, receiptUrl: Option<string>)

  /** The JSON body `processPayment` posts. */
  datatype PaymentRequest = PaymentRequest(
    sourceId: Option<string>,
    amount: int,
    currency: string,
    shippingAddress: ShippingAddress,
    idempotencyKey: string)

  /** The parent's callbacks, in the order they were invoked. */
  datatype Callback = OnSuccess(ids: PaymentIds) | OnError(message: string)

  /** `a || fallback` on an optional string: missing and empty both give the fallback. */
  function OrElse(a: Option<string>, fallback: string): (r: string)
    ensures a.Some? && a.value != "" ==> r == a.value
    ensures a.None? || a.value == "" ==> r == fallback
  {
    if a.Some? && a.value != "" then a.value else fallback
  }

  /** `processPayment`: how a reply becomes the payment ids or a thrown message. */
  function ProcessPayment(reply: ServerReply): (r: Result<PaymentIds, string>)
    ensures r.Success? <==> reply.Reply? && reply.ok && reply.success
    ensures r.Success? ==> r.value == PaymentIds(reply.paymentId, reply.orderId, reply.receiptUrl)
    ensures reply.Reply? && !reply.ok ==> r == Failure(OrElse(reply.error, "Payment processing failed"))
    ensures reply.Reply? && reply.ok && !reply.success ==> r == Failure(OrElse(reply.error, "Payment failed"))
    ensures reply.Rejected? ==> r == Failure(reply.message)
  {
    match reply
    case Rejected(m) => Failure(m)
    case Reply(ok, success, error, paymentId, orderId, receiptUrl) =>
      if !ok then Failure(OrElse(error, "Payment processing failed"))
      else if !success then Failure(OrElse(error, "Payment failed"))
      else Success(PaymentIds(paymentId, orderId, receiptUrl))
  }

  /** The loop stops retrying on a message that mentions "Invalid" or "validation". */
  predicate NonRetryable(message: string) {
    Contains(message, "Invalid") || Contains(message, "validation")
  }

  /** A message stops the retries exactly when one of the two words occurs in it at some position. */
  lemma NonRetryableIffWordOccurs(message: string)
    ensures NonRetryable(message) <==> (exists i :: OccursAt(message, "Invalid", i)) || (exists i :: OccursAt(message, "validation", i))
  {
    ContainsAt(message, "Invalid");
    ContainsAt(message, "validation");
  }

  /** A message without a capital I and without a v mentions neither word, so it is retried. */
  lemma RetriedWithoutIOrV(message: string)
    requires 'I' !in message && 'v' !in message
    ensures !NonRetryable(message)
  {
    MissingFirstChar(message, "Invalid");
    MissingFirstChar(message, "validation");
  }

  /** A reply after which no further submission is made: a success or a non-retryable error. */
  predicate Decisive(reply: ServerReply) {
    match ProcessPayment(reply)
    case Success(_) => true
    case Failure(m) => NonRetryable(m)
  }

  /** Only the message decides: a rejected response and a refused payment with the same error agree. */
  lemma StatusDoesNotDecide(error: string, ids: PaymentIds)
    requires error != ""
    ensures Decisive(Reply(false, false, Some(error), ids.paymentId, ids.orderId, ids.receiptUrl))
        == Decisive(Reply(true, false, Some(error), ids.paymentId, ids.orderId, ids.receiptUrl))
    ensures Decisive(Reply(false, false, Some(error), ids.paymentId, ids.orderId, ids.receiptUrl))
        == NonRetryable(error)
  {
  }

  /**
   * How many submissions the loop makes when it reaches attempt `from`: it stops at the
   * first decisive reply, or after the last attempt.
   */
  function AttemptsFrom(replies: seq<ServerReply>, from: nat): (n: nat)
    requires |replies| == Attempts && from < Attempts
    ensures from < n <= Attempts
    ensures forall j :: from <= j < n - 1 ==> !Decisive(replies[j])
    ensures n == Attempts || Decisive(replies[n - 1])
    decreases Attempts - from
  {
    if from == MaxRetries || Decisive(replies[from]) then from + 1 else AttemptsFrom(replies, from + 1)
  }

  function Pow2(k: nat): (p: nat)
    ensures p >= 1
  {
    if k == 0 then 1 else 2 * Pow2(k - 1)
  }

  /** `Math.pow(2, attempt) * 1000`: the wait before the retry that follows attempt `k`. */
  function Backoff(k: nat): int {
    Pow2(k) * 1000
  }

  /** The waits taken before the first `k` retries. */
  function BackoffSchedule(k: nat): (d: seq<int>)
    ensures |d| == k
    ensures forall i :: 0 <= i < k ==> d[i] == Backoff(i)
  {
    if k == 0 then [] else BackoffSchedule(k - 1) + [Backoff(k - 1)]
  }

  /** With two retries the form waits one second, then two. */
  lemma BackoffDoubles()
    ensures BackoffSchedule(MaxRetries) == [1000, 2000]
    ensures forall k: nat :: Backoff(k + 1) == 2 * Backoff(k)
  {
    assert BackoffSchedule(1) == [1000];
  }

  /** `n` copies of the same request. */
  function Repeat(x: PaymentRequest, n: nat): (r: seq<PaymentRequest>)
    ensures |r| == n
    ensures forall i :: 0 <= i < n ==> r[i] == x
  {
    if n == 0 then [] else Repeat(x, n - 1) + [x]
  }

  /** The token the request carries: `tokenResult.token`, absent when tokenisation threw. */
  function SourceId(token: TokenResult): Option<string> {
    if token.Tokenized? then token.token else None
  }

  /** The body `processPayment` posts: the total in cents, the address and the current key. */
  function RequestFor(totals: OrderTotals, shipping: ShippingInfo, token: TokenResult, key: string): (q: PaymentRequest)
    ensures q.idempotencyKey == key && q.currency == totals.currency && q.shippingAddress == shipping.address
    ensures q.amount as real - 0.5 <= totals.total * 100.0 < q.amount as real + 0.5
  {
    PaymentRequest(SourceId(token), Round(totals.total * 100.0), totals.currency, shipping.address, key)
  }

  /** The result of one submission attempt as a whole, and how many requests it posted. */
  datatype Outcome = Outcome(result: Result<PaymentIds, string>, submissions: nat)

  /** A tokenisation failure: the rejection's message, or the first error's message. */
  predicate TokenFailed(token: TokenResult) {
    token.TokenizeThrew? || token.status != "OK"
  }

  function TokenError(token: TokenResult): string
    requires TokenFailed(token)
  {
    if token.TokenizeThrew? then token.message else OrElse(token.firstErrorMessage, "Card validation failed")
  }

  /** What `handlePayment` ends with once it has passed its guards. */
  function ChargeOutcome(token: TokenResult, replies: seq<ServerReply>): (o: Outcome)
    requires |replies| == Attempts
    ensures o.submissions <= Attempts
    ensures o.submissions == 0 <==> TokenFailed(token)
    ensures TokenFailed(token) ==> o.result == Failure(TokenError(token))
    ensures o.submissions > 0 ==> o.result == ProcessPayment(replies[o.submissions - 1])
    ensures forall j :: 0 <= j < o.submissions - 1 ==> !Decisive(replies[j])
  {
    if TokenFailed(token) then Outcome(Failure(TokenError(token)), 0)
    else
      var n := AttemptsFrom(replies, 0);
      Outcome(ProcessPayment(replies[n - 1]), n)
  }

  /** A non-retryable first error ends the attempt after one submission. */
  lemma NonRetryableStopsAtOnce(token: TokenResult, replies: seq<ServerReply>)
    requires |replies| == Attempts && !TokenFailed(token)
    requires ProcessPayment(replies[0]).Failure? && NonRetryable(ProcessPayment(replies[0]).error)
    ensures ChargeOutcome(token, replies) == Outcome(ProcessPayment(replies[0]), 1)
  {
  }

  /** Three retryable failures use every attempt and report the last error. */
  lemma RetryableFailuresUseEveryAttempt(token: TokenResult, replies: seq<ServerReply>)
    requires |replies| == Attempts && !TokenFailed(token)
    requires forall j :: 0 <= j < Attempts ==> ProcessPayment(replies[j]).Failure?
                                                && !NonRetryable(ProcessPayment(replies[j]).error)
    ensures ChargeOutcome(token, replies) == Outcome(ProcessPayment(replies[2]), 3)
  {
  }

  /** A success on the first submission posts exactly one request. */
  lemma FirstSuccessPostsOnce(token: TokenResult, replies: seq<ServerReply>)
    requires |replies| == Attempts && !TokenFailed(token)
    requires ProcessPayment(replies[0]).Success?
    ensures ChargeOutcome(token, replies).submissions == 1
    ensures ChargeOutcome(token, replies).result.Success?
  {
  }

  /** The payment form's refs and state, with logs of what it sent and called. */
  class PaymentController {
    /** `paymentAttemptedRef`. */
    var paymentAttempted: bool
    /** `idempotencyKeyRef`. */
    var idempotencyKey: string
    /** Every key the UUID generator has handed out. */
    var usedKeys: set<string>
    var paymentState: PaymentState
    var errorMessage: Option<string>
    var retryCount: int
    /** `cardInstanceRef.current` is set (and `sdkLoaded`). */
    var cardReady: bool
    var tokenizeCalls: nat
    var submissions: seq<PaymentRequest>
    var delays: seq<int>
    var callbacks: seq<Callback>

    predicate Valid()
      reads this
    {
      idempotencyKey in usedKeys
      && (paymentState == PaymentSuccess ==> paymentAttempted)
    }

    /** Mounting: the first key from the generator, nothing attempted. */
    constructor (firstKey: string)
      ensures Valid()
      ensures idempotencyKey == firstKey && usedKeys == {firstKey}
      ensures !paymentAttempted && paymentState == PaymentIdle && errorMessage == None && retryCount == 0
      ensures !cardReady && tokenizeCalls == 0 && submissions == [] && delays == [] && callbacks == []
    {
      paymentAttempted := false;
      idempotencyKey := firstKey;
      usedKeys := {firstKey};
      paymentState := PaymentIdle;
      errorMessage := None;
      retryCount := 0;
      cardReady := false;
      tokenizeCalls := 0;
      submissions := [];
      delays := [];
      callbacks := [];
    }

    /** `initializePayments`: the card attaches, or the form shows the load error. */
    method InitializePayments(loaded: bool)
      requires Valid()
      modifies this
      ensures Valid()
      ensures loaded ==> cardReady && paymentState == old(paymentState) && errorMessage == old(errorMessage)
      ensures !loaded ==> cardReady == old(cardReady) && paymentState == PaymentError && errorMessage == Some(LoadFailed)
      ensures paymentAttempted == old(paymentAttempted) && idempotencyKey == old(idempotencyKey)
      ensures usedKeys == old(usedKeys) && retryCount == old(retryCount) && tokenizeCalls == old(tokenizeCalls)
      ensures submissions == old(submissions) && delays == old(delays) && callbacks == old(callbacks)
    {
      if loaded {
        cardReady := true;
      } else {
        paymentState := PaymentError;
        errorMessage := Some(LoadFailed);
      }
    }

    /**
     * The retry loop of `handlePayment`: posts `request` up to three times, one reply of
     * `replies` per submission, waiting and bumping `retryCount` between attempts, and gives
     * back the first success, or the error that ended the loop.
     */
    method SubmitWithRetries(request: PaymentRequest, replies: seq<ServerReply>) returns (r: Result<PaymentIds, string>)
      requires |replies| == Attempts
      modifies this
      ensures var n := AttemptsFrom(replies, 0);
        r == ProcessPayment(replies[n - 1])
        && submissions == old(submissions) + Repeat(request, n)
        && delays == old(delays) + BackoffSchedule(n - 1)
        && retryCount == (if n > 1 then n - 1 else old(retryCount))
      ensures paymentAttempted == old(paymentAttempted) && paymentState == old(paymentState)
      ensures errorMessage == old(errorMessage) && idempotencyKey == old(idempotencyKey) && usedKeys == old(usedKeys)
      ensures callbacks == old(callbacks) && tokenizeCalls == old(tokenizeCalls) && cardReady == old(cardReady)
    {
      // The loop works on locals; the submissions, waits and counter it produced are
      // recorded once it ends, which no caller can tell apart from recording them as it goes.
      var lastError := "";
      var attempt: nat := 0;
      var sent: seq<PaymentRequest> := [];
      var waits: seq<int> := [];
      var count := retryCount;
      while attempt <= MaxRetries
        invariant attempt <= Attempts
        invariant forall j :: 0 <= j < attempt ==> !Decisive(replies[j])
        invariant attempt > 0 ==> lastError == ProcessPayment(replies[attempt - 1]).error
                                  && ProcessPayment(replies[attempt - 1]).Failure?
        invariant sent == Repeat(request, attempt)
        invariant waits == BackoffSchedule(if attempt > MaxRetries then MaxRetries else attempt)
        invariant count == (if attempt == 0 then old(retryCount) else if attempt > MaxRetries then MaxRetries else attempt)
      {
        sent := sent + [request];
        var reply := ProcessPayment(replies[attempt]);
        if reply.Success? {
          r := reply;
          break;
        }
        lastError := reply.error;
        if NonRetryable(lastError) {
          r := Failure(lastError);
          break;
        }
        if attempt < MaxRetries {
          count := attempt + 1;
          waits := waits + [Backoff(attempt)];
        }
        attempt := attempt + 1;
      }
      if attempt > MaxRetries {
        r := Failure(lastError);
      }
      submissions := submissions + sent;
      delays := delays + waits;
      retryCount := count;
    }

    /** The `catch` of `handlePayment`: show and report the error, clear the flag, take a fresh key. */
    method Fail(message: string, freshKey: string)
      requires freshKey !in usedKeys
      modifies this
      ensures paymentState == PaymentError && errorMessage == Some(message) && !paymentAttempted
      ensures callbacks == old(callbacks) + [OnError(message)]
      ensures idempotencyKey == freshKey && usedKeys == old(usedKeys) + {freshKey}
      ensures retryCount == old(retryCount) && tokenizeCalls == old(tokenizeCalls) && cardReady == old(cardReady)
      ensures submissions == old(submissions) && delays == old(delays)
    {
      paymentState := PaymentError;
      errorMessage := Some(message);
      callbacks := callbacks + [OnError(message)];
      paymentAttempted := false;
      idempotencyKey := freshKey;
      usedKeys := usedKeys + {freshKey};
    }

    /**
     * `handlePayment`. `token` is what tokenisation returns, `replies[k]` the reply to the
     * k-th submission, and `freshKey` the next value of the UUID generator.
     */
    method HandlePayment(totals: OrderTotals, shipping: Option<ShippingInfo>, token: TokenResult,
                         replies: seq<ServerReply>, freshKey: string)
      requires Valid()
      requires |replies| == Attempts
      requires freshKey !in usedKeys
      modifies this
      ensures Valid()
      // the double-payment guard: nothing is tokenised, sent or changed
      ensures old(paymentAttempted || paymentState == PaymentInFlight) ==> unchanged(this)
      ensures old(paymentState) == PaymentSuccess ==> unchanged(this)
      // not ready: only the message is set, and the flag stays clear
      ensures !old(paymentAttempted || paymentState == PaymentInFlight) && !(old(cardReady) && shipping.Some?) ==>
        errorMessage == Some(FormNotReady) && paymentAttempted == old(paymentAttempted)
        && paymentState == old(paymentState) && idempotencyKey == old(idempotencyKey) && usedKeys == old(usedKeys)
        && tokenizeCalls == old(tokenizeCalls) && submissions == old(submissions)
        && delays == old(delays) && callbacks == old(callbacks) && retryCount == old(retryCount)
      ensures !old(paymentAttempted || paymentState == PaymentInFlight) && old(cardReady) && shipping.Some? ==>
        var o := ChargeOutcome(token, replies);
        var request := RequestFor(totals, shipping.value, token, old(idempotencyKey));
        tokenizeCalls == old(tokenizeCalls) + 1
        // every submission of this call carries the key the call started with
        && submissions == old(submissions) + Repeat(request, o.submissions)
        && delays == old(delays) + BackoffSchedule(if o.submissions > 0 then o.submissions - 1 else 0)
        && retryCount == (if o.submissions > 1 then o.submissions - 1 else old(retryCount))
        && (o.result.Success? ==>
              paymentState == PaymentSuccess && paymentAttempted && errorMessage == None
              && callbacks == old(callbacks) + [OnSuccess(o.result.value)]
              && idempotencyKey == old(idempotencyKey) && usedKeys == old(usedKeys))
        && (o.result.Failure? ==>
              paymentState == PaymentError && !paymentAttempted && errorMessage == Some(o.result.error)
              && callbacks == old(callbacks) + [OnError(o.result.error)]
              && idempotencyKey == freshKey && usedKeys == old(usedKeys) + {freshKey})
      ensures cardReady == old(cardReady)
    {
      if paymentAttempted || paymentState == PaymentInFlight {
        return;
      }
      if !cardReady || shipping.None? {
        errorMessage := Some(FormNotReady);
        return;
      }
      paymentAttempted := true;
      paymentState := PaymentInFlight;
      errorMessage := None;

      tokenizeCalls := tokenizeCalls + 1;
      if TokenFailed(token) {
        Fail(TokenError(token), freshKey);
        return;
      }
      var r := SubmitWithRetries(RequestFor(totals, shipping.value, token, idempotencyKey), replies);
      if r.Success? {
        paymentState := PaymentSuccess;
        callbacks := callbacks + [OnSuccess(r.value)];
      } else {
        Fail(r.error, freshKey);
      }
    }

    /** `handleRetry`: back to idle with a fresh key, ready for a new attempt. */
    method HandleRetry(freshKey: string)
      requires Valid()
      requires freshKey !in usedKeys
      modifies this
      ensures Valid()
      ensures paymentState == PaymentIdle && errorMessage == None && retryCount == 0 && !paymentAttempted
      ensures idempotencyKey == freshKey && idempotencyKey != old(idempotencyKey)
      ensures usedKeys == old(usedKeys) + {freshKey}
      ensures cardReady == old(cardReady) && tokenizeCalls == old(tokenizeCalls)
      ensures submissions == old(submissions) && delays == old(delays) && callbacks == old(callbacks)
    {
      paymentState := PaymentIdle;
      errorMessage := None;
      retryCount := 0;
      paymentAttempted := false;
      idempotencyKey := freshKey;
      usedKeys := usedKeys + {freshKey};
    }
  }

  /**
   * Once a payment has succeeded, further clicks change nothing: the form charges at most
   * once until the user asks for a retry.
   */
  method SecondClickAfterSuccess(c: PaymentController, totals: OrderTotals, shipping: Option<ShippingInfo>,
                                 token: TokenResult, replies: seq<ServerReply>, freshKey: string)
    requires c.Valid() && c.paymentState == PaymentSuccess
    requires |replies| == Attempts && freshKey !in c.usedKeys
    modifies c
    ensures c.submissions == old(c.submissions) && c.callbacks == old(c.callbacks)
  {
    c.HandlePayment(totals, shipping, token, replies, freshKey);
  }
}
