/** The send protocol: one POST per attempt (`_send_util`) and the bounded
    retry loop around it in `send`. The network is an oracle: `replies(k)` is
    what the k-th POST of one `send` call gets back. */
module Delivery {
  import opened Values

  /** `self.retry_count`, fixed at construction. */
  const RetryCount: nat := 5

  /** What one POST to the send endpoint yields. */
  datatype SendReply =
    | Reply(errcode: int, errmsg: Option<Json>) // a JSON answer; None when it has no "errmsg"
    | TransportFault                            // the POST raised (connection refused, timeout, ...)

  /** The endpoint's errmsg as both branches of `_send_util` log it, by
      joining it onto a string: a missing key raises KeyError, a value that is
      not a string raises TypeError. */
  function LoggedErrmsg(errmsg: Option<Json>): (r: Result<string>)
    ensures errmsg.None? ==> r == Failure(KeyError("errmsg"))
    ensures errmsg.Some? && !errmsg.value.JStr? ==> r == Failure(TypeError)
    ensures r.Success? <==> errmsg.Some? && errmsg.value.JStr?
    ensures r.Success? ==> errmsg == Some(JStr(r.value))
  {
    match errmsg
    case None => Failure(KeyError("errmsg"))
    case Some(JStr(m)) => Success(m)
    case Some(_) => Failure(TypeError)
  }

  /** `_send_util`: success when the endpoint answers errcode 0; any other
      code raises with the endpoint's errmsg, and a transport fault propagates
      the exception the POST raised. Either answer first logs the errmsg,
      which raises when it is missing or not a string. It never returns
      False. */
  function SendUtil(reply: SendReply): (r: Result<bool>)
    ensures r.Success? ==> r.value
    ensures r == Success(true) <==> reply.Reply? && reply.errcode == 0 && LoggedErrmsg(reply.errmsg).Success?
    ensures reply.Reply? && LoggedErrmsg(reply.errmsg).Failure? ==> r == Failure(LoggedErrmsg(reply.errmsg).error)
    ensures reply.Reply? && reply.errcode != 0 && reply.errmsg.Some? && reply.errmsg.value.JStr? ==>
              r == Failure(SendRejected(reply.errmsg.value.str))
    ensures reply.TransportFault? ==> r == Failure(ConnectionFailed)
  {
    match reply
    case TransportFault => Failure(ConnectionFailed)
    case Reply(code, errmsg) =>
      var logged := LoggedErrmsg(errmsg);
      if logged.Failure? then Failure(logged.error)
      else if code == 0 then Success(true)
      else Failure(SendRejected(logged.value))
  }

  /** The outcome of the retry loop and how many POSTs it made. */
  datatype Dispatched = Dispatched(outcome: Result<bool>, attempts: nat)

  /** The retry loop of `send` from attempt `k` on, for a single-shot sender
      `attempt`: an attempt returning True ends the loop with True, one that
      raises ends it with that exception, one returning False moves on to the
      next, and the loop gives False once `RetryCount` attempts are spent. */
  function Dispatch(attempt: SendReply -> Result<bool>, replies: nat -> SendReply, k: nat): (d: Dispatched)
    requires k <= RetryCount
    ensures d.attempts <= RetryCount - k
    ensures k < RetryCount ==> 1 <= d.attempts
    ensures d.outcome == Success(false) ==> d.attempts == RetryCount - k
    ensures d.outcome != Success(false) ==> attempt(replies(k + d.attempts - 1)) == d.outcome
    decreases RetryCount - k
  {
    if k == RetryCount then Dispatched(Success(false), 0)
    else
      var once := attempt(replies(k));
      if once == Success(false) then
        var rest := Dispatch(attempt, replies, k + 1);
        Dispatched(rest.outcome, rest.attempts + 1)
      else Dispatched(once, 1)
  }

  /** The retry loop itself (`while count < self.retry_count`): POST
      `request` once per attempt, the k-th POST answered by `replies(k)`, and
      stop as `Dispatch` says. `posted` lists the POSTs made. */
  method Deliver<R>(attempt: SendReply -> Result<bool>, request: R, replies: nat -> SendReply)
    returns (r: Result<bool>, posted: seq<R>)
    ensures r == Dispatch(attempt, replies, 0).outcome
    ensures |posted| == Dispatch(attempt, replies, 0).attempts
    ensures forall i :: 0 <= i < |posted| ==> posted[i] == request
  {
    posted := [];
    var count := 0;
    while count < RetryCount
      invariant 0 <= count <= RetryCount
      invariant |posted| == count
      invariant forall i :: 0 <= i < count ==> posted[i] == request
      invariant Dispatch(attempt, replies, 0).outcome == Dispatch(attempt, replies, count).outcome
      invariant Dispatch(attempt, replies, 0).attempts == count + Dispatch(attempt, replies, count).attempts
    {
      var once := attempt(replies(count));
      posted := posted + [request];
      if once.Failure? {
        return Failure(once.error), posted;
      }
      if once.value {
        return Success(true), posted;
      }
      count := count + 1;
    }
    r := Success(false);
  }

  /** The loop stops at the first attempt that does not return False: its
      result is the loop's, and no later attempt is made. */
  lemma {:induction false} DispatchStopsAtFirstDecisive(attempt: SendReply -> Result<bool>, replies: nat -> SendReply, k: nat, j: nat)
    requires k <= j < RetryCount
    requires forall i :: k <= i < j ==> attempt(replies(i)) == Success(false)
    requires attempt(replies(j)) != Success(false)
    ensures Dispatch(attempt, replies, k) == Dispatched(attempt(replies(j)), j - k + 1)
    decreases j - k
  {
    if k < j {
      DispatchStopsAtFirstDecisive(attempt, replies, k + 1, j);
    }
  }

  /** The loop returns False exactly when every remaining attempt returned
      False, and then it has made all `RetryCount - k` of them. */
  lemma {:induction false} DispatchFalseIffExhausted(attempt: SendReply -> Result<bool>, replies: nat -> SendReply, k: nat)
    requires k <= RetryCount
    ensures Dispatch(attempt, replies, k).outcome == Success(false) <==>
            forall i :: k <= i < RetryCount ==> attempt(replies(i)) == Success(false)
    ensures Dispatch(attempt, replies, k).outcome == Success(false) ==>
            Dispatch(attempt, replies, k).attempts == RetryCount - k
    decreases RetryCount - k
  {
    if k < RetryCount {
      DispatchFalseIffExhausted(attempt, replies, k + 1);
    }
  }

  /** As written, `_send_util` never returns False, so the loop always ends
      after its first attempt: success, or the exception of that attempt. */
  lemma SendUtilAttemptsOnce(replies: nat -> SendReply)
    ensures Dispatch(SendUtil, replies, 0) == Dispatched(SendUtil(replies(0)), 1)
    ensures Dispatch(SendUtil, replies, 0).outcome != Success(false)
  {
    DispatchStopsAtFirstDecisive(SendUtil, replies, 0, 0);
  }

  /** A single-shot sender that reports a transport fault as a non-raising
      failure, so that the retry loop retries it; every answer of the
      endpoint is handled as `_send_util` handles it. */
  function SendUtilRetrying(reply: SendReply): (r: Result<bool>)
    ensures r == Success(false) <==> reply.TransportFault?
    ensures r == Success(true) <==> reply.Reply? && reply.errcode == 0 && LoggedErrmsg(reply.errmsg).Success?
    ensures reply.Reply? ==> r == SendUtil(reply)
  {
    match reply
    case TransportFault => Success(false)
    case Reply(_, _) => SendUtil(reply)
  }

  /** With transport faults retried, the loop gives False only after
      `RetryCount` faults in a row, succeeds on the first accepted POST after
      any run of faults, and still stops at the first remote rejection. */
  lemma RetryingRetriesTransportFaults(replies: nat -> SendReply, j: nat)
    requires j < RetryCount
    requires forall i :: 0 <= i < j ==> replies(i) == TransportFault
    ensures replies(j).Reply? ==>
      Dispatch(SendUtilRetrying, replies, 0) == Dispatched(SendUtilRetrying(replies(j)), j + 1)
    ensures Dispatch(SendUtilRetrying, replies, 0).outcome == Success(false) <==>
      forall i :: 0 <= i < RetryCount ==> replies(i) == TransportFault
  {
    if replies(j).Reply? {
      DispatchStopsAtFirstDecisive(SendUtilRetrying, replies, 0, j);
    }
    DispatchFalseIffExhausted(SendUtilRetrying, replies, 0);
    assert forall i :: 0 <= i < RetryCount ==>
      (SendUtilRetrying(replies(i)) == Success(false) <==> replies(i) == TransportFault);
  }
}
