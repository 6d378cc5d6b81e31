/** The network seen from the simulation: a `send` that may raise, followed
    by a `sniff(count=1, timeout=2)` that returns at most one packet. Both
    simulations append what they send and what they capture to a log; this
    module describes that log. */
module Network {
  import opened Wrappers
  import opened Packets

  /** The outcome of one send-and-capture step. */
  datatype Exchange = SendFailed | Delivered(response: Option<Packet>)

  /** The captured response of a step, if the packet went out and the
      capture returned one. */
  function Response(x: Exchange): Option<Packet> {
    if x.Delivered? then x.response else None
  }

  /** The responses to the first `k` steps. */
  function Responses(net: nat -> Exchange, k: nat): (r: seq<Option<Packet>>)
    ensures |r| == k
    ensures forall i :: 0 <= i < k ==> r[i] == Response(net(i))
  {
    seq(k, i requires 0 <= i < k => Response(net(i)))
  }

  /** The packets one step adds to the log: the sent packet, then the
      response if there was one. */
  function StepLog(sent: Packet, response: Option<Packet>): seq<Packet> {
    [sent] + (if response.Some? then [response.value] else [])
  }

  /** The log of several steps, in order. */
  function CaptureLog(sent: seq<Packet>, responses: seq<Option<Packet>>): seq<Packet>
    requires |sent| == |responses|
  {
    if sent == [] then []
    else CaptureLog(sent[..|sent| - 1], responses[..|responses| - 1])
         + StepLog(sent[|sent| - 1], responses[|responses| - 1])
  }

  /** How many of the steps captured a response. */
  function Answered(responses: seq<Option<Packet>>): (n: nat)
    ensures n <= |responses|
  {
    if responses == [] then 0
    else Answered(responses[..|responses| - 1]) + (if responses[|responses| - 1].Some? then 1 else 0)
  }

  /** The log holds every sent packet and every captured response: between
      one and two entries per step. */
  lemma {:induction false} CaptureLogLength(sent: seq<Packet>, responses: seq<Option<Packet>>)
    requires |sent| == |responses|
    ensures |CaptureLog(sent, responses)| == |sent| + Answered(responses)
    ensures |sent| <= |CaptureLog(sent, responses)| <= 2 * |sent|
  {
    if sent != [] {
      CaptureLogLength(sent[..|sent| - 1], responses[..|responses| - 1]);
    }
  }

  /** Logs of consecutive runs of steps concatenate. */
  lemma {:induction false} CaptureLogAppend(a: seq<Packet>, ra: seq<Option<Packet>>,
                                            b: seq<Packet>, rb: seq<Option<Packet>>)
    requires |a| == |ra| && |b| == |rb|
    ensures CaptureLog(a + b, ra + rb) == CaptureLog(a, ra) + CaptureLog(b, rb)
  {
    if b == [] {
      assert a + b == a && ra + rb == ra;
    } else {
      var b', rb' := b[..|b| - 1], rb[..|rb| - 1];
      CaptureLogAppend(a, ra, b', rb');
      assert (a + b)[..|a + b| - 1] == a + b';
      assert (ra + rb)[..|ra + rb| - 1] == ra + rb';
    }
  }

  /** Where the `i`-th sent packet sits in the log. */
  function SentPosition(responses: seq<Option<Packet>>, i: nat): nat
    requires i <= |responses|
  {
    i + Answered(responses[..i])
  }

  /** The sent packets appear in the log in the order they were sent, each
      at its own position. */
  lemma {:induction false} SentInOrder(sent: seq<Packet>, responses: seq<Option<Packet>>, i: nat)
    requires |sent| == |responses| && i < |sent|
    ensures SentPosition(responses, i) < |CaptureLog(sent, responses)|
    ensures CaptureLog(sent, responses)[SentPosition(responses, i)] == sent[i]
    ensures i + 1 < |sent| ==> SentPosition(responses, i) < SentPosition(responses, i + 1)
  {
    var n := |sent| - 1;
    var prefix, rprefix := sent[..n], responses[..n];
    CaptureLogLength(prefix, rprefix);
    assert responses[..i + 1][..i] == responses[..i];
    if i < n {
      SentInOrder(prefix, rprefix, i);
      assert rprefix[..i] == responses[..i];
      if i + 1 < n {
        assert rprefix[..i + 1] == responses[..i + 1];
      }
    } else {
      assert rprefix == responses[..i];
    }
  }

  /** How many of the first `limit` steps ran before the first send that
      failed: the index of that failure, or `limit` when none failed. */
  function Completed(net: nat -> Exchange, limit: nat): (k: nat)
    ensures k <= limit
    ensures forall i :: 0 <= i < k ==> net(i).Delivered?
    ensures k < limit ==> net(k).SendFailed?
  {
    if limit == 0 then 0
    else
      var k := Completed(net, limit - 1);
      if k < limit - 1 || net(limit - 1).SendFailed? then k else limit
  }

  /** The first `k` sends all went out. */
  predicate Delivers(net: nat -> Exchange, k: nat) {
    k == 0 || (Delivers(net, k - 1) && net(k - 1).Delivered?)
  }

  /** When the first `k` sends went out, all `k` steps complete. */
  lemma {:induction false} DeliversCompleted(net: nat -> Exchange, k: nat)
    requires Delivers(net, k)
    ensures Completed(net, k) == k
  {
    if k > 0 {
      DeliversCompleted(net, k - 1);
    }
  }

  /** One more delivered send extends the delivered prefix. */
  lemma DeliversNext(net: nat -> Exchange, k: nat)
    requires Delivers(net, k) && net(k).Delivered?
    ensures Delivers(net, k + 1)
  {
  }

  /** Once the first `k` sends went out and the next one failed, or `k` is
      the last step, `k` steps complete however many are allowed. */
  lemma {:induction false} CompletedAt(net: nat -> Exchange, n: nat, k: nat)
    requires k <= n && Delivers(net, k)
    requires k == n || net(k).SendFailed?
    ensures Completed(net, n) == k
  {
    if n == k {
      DeliversCompleted(net, k);
    } else {
      CompletedAt(net, n - 1, k);
    }
  }
}
