/** Push fan-out for a new report (`notifyUsersOfNewReport` and
    `chunkArray`, lib/notifications.ts). The push gateway is an abstract
    function from (batch index, messages) to its reply. */
module Notifications {
  import opened Wrappers
  import opened Seqs
  import opened Text
  import opened Domain
  import opened Recipients

  /** Messages the gateway accepts in one call. */
  const BatchSize := 100

  const PushTokenPrefix := "ExponentPushToken"

  const AlertTitle := "\U{1F6A8} Nouvelle alerte"

  const AlertSound := "default"

  // ---- batching ----

  /** `chunkArray(arr, size)`: consecutive slices of `size` elements, the
      last one possibly shorter; their number is the ceiling of |arr| / size. */
  function ChunkArray<T>(arr: seq<T>, size: nat): (r: seq<seq<T>>)
    requires size > 0
    ensures Flatten(r) == arr
    decreases |arr|
  {
    if |arr| == 0 then []
    else if |arr| <= size then
      FlattenCons(arr, []);
      [arr]
    else
      var rest := ChunkArray(arr[size..], size);
      FlattenCons(arr[..size], rest);
      assert arr == arr[..size] + arr[size..];
      [arr[..size]] + rest
  }

  /** Every chunk but the last holds `size` elements; the last holds 1 to `size`. */
  lemma {:induction false} ChunkSizes<T>(arr: seq<T>, size: nat)
    requires size > 0
    ensures forall i :: 0 <= i < |ChunkArray(arr, size)| ==> 0 < |ChunkArray(arr, size)[i]| <= size
    ensures forall i :: 0 <= i < |ChunkArray(arr, size)| - 1 ==> |ChunkArray(arr, size)[i]| == size
    decreases |arr|
  {
    if |arr| > size {
      ChunkSizes(arr[size..], size);
      var r := ChunkArray(arr, size);
      assert r[1..] == ChunkArray(arr[size..], size);
    }
  }

  /** The number of chunks is the ceiling of |arr| / size. */
  lemma {:induction false} ChunkCount<T>(arr: seq<T>, size: nat)
    requires size > 0
    ensures var n := |ChunkArray(arr, size)|;
      (n - 1) * size < |arr| <= n * size || (|arr| == 0 && n == 0)
    decreases |arr|
  {
    if |arr| > size {
      ChunkCount(arr[size..], size);
      var m := |ChunkArray(arr[size..], size)|;
      assert |ChunkArray(arr, size)| == m + 1;
      assert (m + 1) * size == m * size + size;
      assert m * size == (m - 1) * size + size;
    }
  }

  /** The `for (i = 0; i < arr.length; i += size)` loop of `chunkArray`. */
  method ChunkArrayLoop<T>(arr: seq<T>, size: nat) returns (result: seq<seq<T>>)
    requires size > 0
    ensures result == ChunkArray(arr, size)
    ensures Flatten(result) == arr
  {
    result := [];
    var i := 0;
    ghost var todo := arr;
    assert arr[0..] == arr;
    while i < |arr|
      invariant 0 <= i
      invariant todo == arr[Min(i, |arr|)..]
      invariant result + ChunkArray(todo, size) == ChunkArray(arr, size)
      decreases |arr| - i
    {
      var chunk := arr[i..Min(i + size, |arr|)];
      ChunkStep(arr, i, size);
      ghost var next := arr[Min(i + size, |arr|)..];
      assert result + ([chunk] + ChunkArray(next, size)) == (result + [chunk]) + ChunkArray(next, size);
      result := result + [chunk];
      i := i + size;
      todo := next;
    }
    assert todo == [];
  }

  /** One loop step takes exactly the next chunk. */
  lemma ChunkStep<T>(arr: seq<T>, i: nat, size: nat)
    requires size > 0 && i < |arr|
    ensures ChunkArray(arr[i..], size) == [arr[i..Min(i + size, |arr|)]] + ChunkArray(arr[Min(i + size, |arr|)..], size)
  {
    if |arr| - i > size {
      assert arr[i..][..size] == arr[i..i + size];
      assert arr[i..][size..] == arr[i + size..];
    } else {
      assert arr[Min(i + size, |arr|)..] == [];
      assert arr[i..Min(i + size, |arr|)] == arr[i..];
    }
  }

  /** 250 recipients go out in three calls of 100, 100 and 50, in order. */
  lemma TwoHundredFiftyTokens(tokens: seq<string>)
    requires |tokens| == 250
    ensures |ChunkArray(tokens, BatchSize)| == 3
    ensures ChunkArray(tokens, BatchSize) == [tokens[..100], tokens[100..200], tokens[200..]]
  {
    var r := ChunkArray(tokens, BatchSize);
    assert tokens[100..][..100] == tokens[100..200];
    assert tokens[100..][100..] == tokens[200..];
    assert ChunkArray(tokens[200..], BatchSize) == [tokens[200..]];
  }

  // ---- tokens ----

  /** `typeof token === 'string' && token.startsWith('ExponentPushToken')`. */
  predicate IsPushToken(token: Option<string>) {
    token.Some? && StartsWith(token.value, PushTokenPrefix)
  }

  /** `users.map(u => u.fcmToken).filter(IsPushToken)`. */
  function PushTokens(users: seq<User>): (r: seq<string>)
    ensures |r| <= |users|
    ensures forall i :: 0 <= i < |r| ==> StartsWith(r[i], PushTokenPrefix)
    ensures forall i :: 0 <= i < |r| ==> exists j :: 0 <= j < |users| && users[j].fcmToken == Some(r[i])
    ensures forall j :: 0 <= j < |users| && IsPushToken(users[j].fcmToken) ==> users[j].fcmToken.value in r
  {
    if |users| == 0 then []
    else
      var rest := PushTokens(users[1..]);
      assert forall i :: 0 <= i < |rest| ==> exists j :: 1 <= j < |users| && users[j].fcmToken == Some(rest[i]) by {
        forall i | 0 <= i < |rest|
          ensures exists j :: 1 <= j < |users| && users[j].fcmToken == Some(rest[i])
        {
          var j :| 0 <= j < |users[1..]| && users[1..][j].fcmToken == Some(rest[i]);
          assert users[j + 1].fcmToken == Some(rest[i]);
        }
      }
      assert forall j :: 1 <= j < |users| ==> users[j] == users[1..][j - 1];
      (if IsPushToken(users[0].fcmToken) then [users[0].fcmToken.value] else []) + rest
  }

  function HasPushToken(): User -> bool {
    (u: User) => IsPushToken(u.fcmToken)
  }

  /** The token of every user, for users known to carry one. */
  function TokensOf(users: seq<User>): seq<string>
    requires forall i :: 0 <= i < |users| ==> users[i].fcmToken.Some?
  {
    if |users| == 0 then [] else [users[0].fcmToken.value] + TokensOf(users[1..])
  }

  /** The token list is exactly the valid tokens of the users, in user order. */
  lemma {:induction false} PushTokensAreFilteredTokens(users: seq<User>)
    ensures PushTokens(users) == TokensOf(Filter(users, HasPushToken()))
    decreases |users|
  {
    if |users| > 0 {
      PushTokensAreFilteredTokens(users[1..]);
      var holders := Filter(users, HasPushToken());
      var rest := Filter(users[1..], HasPushToken());
      if IsPushToken(users[0].fcmToken) {
        assert holders == [users[0]] + rest;
        assert holders[1..] == rest;
      } else {
        assert holders == rest;
      }
    }
  }

  // ---- messages ----

  datatype PushMessage = PushMessage(to: string, sound: string, title: string, body: string, reportId: Option<string>)

  /** `Incident à <neighbourhood> (<service type>)`. */
  function MessageBody(inc: Incident): (body: string)
    ensures StartsWith(body, "Incident à " + inc.neighborhood + " (")
    ensures |body| == |inc.neighborhood| + |inc.serviceType| + 14
    ensures body[|body| - 1 - |inc.serviceType|..|body| - 1] == inc.serviceType && body[|body| - 1] == ')'
  {
    var body := "Incident à " + inc.neighborhood + " (" + inc.serviceType + ")";
    assert body[..|"Incident à " + inc.neighborhood + " ("|] == "Incident à " + inc.neighborhood + " (";
    body
  }

  /** One message per token of the batch, in batch order. */
  function BuildMessages(batch: seq<string>, inc: Incident): (r: seq<PushMessage>)
    ensures |r| == |batch|
    ensures forall i :: 0 <= i < |r| ==> r[i].to == batch[i]
    ensures forall i :: 0 <= i < |r| ==>
      r[i].title == AlertTitle && r[i].sound == AlertSound && r[i].body == MessageBody(inc) && r[i].reportId == inc.id
  {
    seq(|batch|, i requires 0 <= i < |batch| => PushMessage(batch[i], AlertSound, AlertTitle, MessageBody(inc), inc.id))
  }

  /** Addressees of a list of messages. */
  function Targets(messages: seq<PushMessage>): seq<string> {
    seq(|messages|, i requires 0 <= i < |messages| => messages[i].to)
  }

  /** Addressees of every gateway call, in call order. */
  function AllTargets(attempts: seq<Attempt>): seq<string> {
    if |attempts| == 0 then [] else Targets(attempts[0].messages) + AllTargets(attempts[1..])
  }

  // ---- dispatch ----

  /** What the gateway call of one batch comes to: a parsed reply (HTTP ok
      flag and the per-message statuses, when the body has a `data` list), or
      a thrown error from `fetch` or `res.json()`. */
  datatype GatewayReply = Replied(ok: bool, statuses: Option<seq<string>>) | Threw

  /** The reply that only gets logged as partially invalid. */
  predicate PartialFailure(reply: GatewayReply) {
    reply.Replied? &&
    (!reply.ok || (reply.statuses.Some? && exists k :: 0 <= k < |reply.statuses.value| && reply.statuses.value[k] != "ok"))
  }

  /** One gateway call: the messages posted and the reply they met. */
  datatype Attempt = Attempt(messages: seq<PushMessage>, reply: GatewayReply)

  /** Observable outcome of one dispatch: the gateway calls made, in order,
      and whether the catch-all logged an error. A call whose reply is a
      partial failure is logged as a warning. */
  datatype Dispatch = Dispatch(attempts: seq<Attempt>, errorLogged: bool)

  /** The `for (const batch of batches)` loop from batch `i` on, inside the
      single `try`: a thrown error ends the loop, a partial failure does not. */
  function SendBatches(batches: seq<seq<string>>, inc: Incident, gateway: (nat, seq<PushMessage>) -> GatewayReply, i: nat): (d: Dispatch)
    requires i <= |batches|
    ensures |d.attempts| <= |batches| - i
    ensures forall k :: 0 <= k < |d.attempts| ==> d.attempts[k].messages == BuildMessages(batches[i + k], inc)
    ensures forall k :: 0 <= k < |d.attempts| ==> d.attempts[k].reply == gateway(i + k, d.attempts[k].messages)
    ensures forall k :: 0 <= k < |d.attempts| - 1 ==> !d.attempts[k].reply.Threw?
    ensures d.errorLogged <==> |d.attempts| > 0 && d.attempts[|d.attempts| - 1].reply.Threw?
    ensures !d.errorLogged ==> |d.attempts| == |batches| - i
    decreases |batches| - i
  {
    if i == |batches| then Dispatch([], false)
    else
      var messages := BuildMessages(batches[i], inc);
      var reply := gateway(i, messages);
      if reply.Threw? then Dispatch([Attempt(messages, reply)], true)
      else
        var rest := SendBatches(batches, inc, gateway, i + 1);
        var attempts := [Attempt(messages, reply)] + rest.attempts;
        assert forall k :: 1 <= k < |attempts| ==> attempts[k] == rest.attempts[k - 1];
        Dispatch(attempts, rest.errorLogged)
  }

  /** The valid tokens of the users the resolver returns. */
  function RecipientTokens(users: seq<User>, inc: Incident): seq<string> {
    PushTokens(GetSubscribedUsersForReport(users, inc))
  }

  /** The batches a dispatch works through. */
  function Batches(users: seq<User>, inc: Incident): seq<seq<string>> {
    ChunkArray(RecipientTokens(users, inc), BatchSize)
  }

  /** `notifyUsersOfNewReport`. `users` is the profile collection, or None
      when the profile query rejects. Every error ends in the catch-all, so
      the outcome is a log and never an error for the caller. */
  function NotifyUsersOfNewReport(users: Option<seq<User>>, inc: Incident, gateway: (nat, seq<PushMessage>) -> GatewayReply): (d: Dispatch)
    ensures users.None? ==> d == Dispatch([], true)
    ensures users.Some? && |RecipientTokens(users.value, inc)| == 0 ==> d == Dispatch([], false)
    ensures users.Some? ==> |d.attempts| <= |Batches(users.value, inc)|
    ensures users.Some? ==> forall k :: 0 <= k < |d.attempts| ==>
      d.attempts[k].messages == BuildMessages(Batches(users.value, inc)[k], inc)
    ensures users.Some? && !d.errorLogged ==> |d.attempts| == |Batches(users.value, inc)|
    ensures forall k :: 0 <= k < |d.attempts| ==> d.attempts[k].reply == gateway(k, d.attempts[k].messages)
    ensures forall k :: 0 <= k < |d.attempts| - 1 ==> !d.attempts[k].reply.Threw?
    ensures users.Some? && |RecipientTokens(users.value, inc)| > 0 ==>
      (d.errorLogged <==> |d.attempts| > 0 && d.attempts[|d.attempts| - 1].reply.Threw?)
  {
    match users
    case None => Dispatch([], true)
    case Some(us) =>
      var tokens := RecipientTokens(us, inc);
      if |tokens| == 0 then Dispatch([], false)
      else SendBatches(ChunkArray(tokens, BatchSize), inc, gateway, 0)
  }

  /** Every gateway call carries between 1 and 100 messages. */
  lemma BatchesWithinLimit(users: Option<seq<User>>, inc: Incident, gateway: (nat, seq<PushMessage>) -> GatewayReply)
    ensures var d := NotifyUsersOfNewReport(users, inc, gateway);
      forall k :: 0 <= k < |d.attempts| ==> 0 < |d.attempts[k].messages| <= BatchSize
  {
    var d := NotifyUsersOfNewReport(users, inc, gateway);
    if users.Some? && |RecipientTokens(users.value, inc)| > 0 {
      var batches := Batches(users.value, inc);
      var tokens := RecipientTokens(users.value, inc);
      assert batches == ChunkArray(tokens, BatchSize);
      ChunkSizes(tokens, BatchSize);
      assert forall i :: 0 <= i < |batches| ==> 0 < |batches[i]| <= BatchSize;
      assert |d.attempts| <= |batches|;
      forall k | 0 <= k < |d.attempts|
        ensures 0 < |d.attempts[k].messages| <= BatchSize
      {
        assert d.attempts[k].messages == BuildMessages(batches[k], inc);
      }
    }
  }

  /** A partial failure is only logged: the next batch, if any, is still posted. */
  lemma PartialFailureContinues(users: seq<User>, inc: Incident, gateway: (nat, seq<PushMessage>) -> GatewayReply, k: nat)
    requires var d := NotifyUsersOfNewReport(Some(users), inc, gateway);
      k < |d.attempts| && PartialFailure(d.attempts[k].reply) && k + 1 < |Batches(users, inc)|
    ensures k + 1 < |NotifyUsersOfNewReport(Some(users), inc, gateway).attempts|
  {
  }

  /** Addressees of consecutive batches are the batches' tokens in order. */
  lemma {:induction false} TargetsOfBatches(batches: seq<seq<string>>, attempts: seq<Attempt>, inc: Incident)
    requires |attempts| == |batches|
    requires forall k :: 0 <= k < |attempts| ==> attempts[k].messages == BuildMessages(batches[k], inc)
    ensures AllTargets(attempts) == Flatten(batches)
    decreases |batches|
  {
    if |batches| > 0 {
      TargetsOfBatches(batches[1..], attempts[1..], inc);
      assert Targets(attempts[0].messages) == batches[0];
    }
  }

  /** When no call throws, every valid recipient token gets exactly one
      message, in resolver order, across all batches. */
  lemma DeliveredToEveryRecipient(users: seq<User>, inc: Incident, gateway: (nat, seq<PushMessage>) -> GatewayReply)
    requires !NotifyUsersOfNewReport(Some(users), inc, gateway).errorLogged
    ensures AllTargets(NotifyUsersOfNewReport(Some(users), inc, gateway).attempts) == RecipientTokens(users, inc)
  {
    var d := NotifyUsersOfNewReport(Some(users), inc, gateway);
    if |RecipientTokens(users, inc)| > 0 {
      TargetsOfBatches(Batches(users, inc), d.attempts, inc);
    }
  }

  /** A gateway error with a JSON body on the first of two batches is only
      logged: the second batch is still posted. */
  lemma HttpErrorOnFirstBatchContinues(users: seq<User>, inc: Incident, gateway: (nat, seq<PushMessage>) -> GatewayReply)
    requires |RecipientTokens(users, inc)| == 150
    requires forall n: nat, m :: gateway(n, m) == if n == 0 then Replied(false, None) else Replied(true, Some(["ok"]))
    ensures var d := NotifyUsersOfNewReport(Some(users), inc, gateway);
      |d.attempts| == 2 && PartialFailure(d.attempts[0].reply) && !PartialFailure(d.attempts[1].reply) && !d.errorLogged
  {
    ChunkCount(RecipientTokens(users, inc), BatchSize);
  }

  /** A body that does not parse as JSON on the first of two batches throws
      inside the single `try`: the second batch is never posted. */
  lemma UnparsableReplyStopsDispatch(users: seq<User>, inc: Incident, gateway: (nat, seq<PushMessage>) -> GatewayReply)
    requires |RecipientTokens(users, inc)| == 150
    requires forall n: nat, m :: gateway(n, m) == if n == 0 then Threw else Replied(true, Some(["ok"]))
    ensures var d := NotifyUsersOfNewReport(Some(users), inc, gateway);
      |d.attempts| == 1 && d.errorLogged
  {
  }
}
