/** The abstract chain the page talks to through the injected wallet: the write calls
    it can send to the registry contract, what awaiting one can give back, the reads
    it can make, and the generic "send each call in turn, stop at the first thrown
    error" discipline every write sequence of the page follows. */
module Chain {

  /** The six optional record fields, each with its own setter on the contract
      (`Power` is the `setRecord` setter). */
  datatype Field = Power | Avatar | FavNFT | Discord | Twitter | FavSong

  /** A write transaction sent to the registry contract. */
  datatype Call =
    | Register(name: string, payment: nat)
    | Set(field: Field, name: string, value: string)

  /** What sending a write and awaiting `tx.wait()` gives back: a thrown error (the
      user rejects it in the wallet, or it fails while being sent or waited for) or a
      mined receipt. A missing wallet is `Gateway.present`, checked before any call. */
  datatype Outcome = Threw | Mined(status: int)

  /** A read of contract state, which may throw. */
  datatype Read<T> = Got(value: T) | ReadFailed

  /** The answer to `wallet_switchEthereumChain`: success, or an error with a code. */
  datatype SwitchAnswer = Switched | SwitchFailed(code: int)

  /** The oracle standing for the wallet and the deployed contract. Within one
      operation every call sent is different, so a function of the call can give any
      pattern of outcomes. */
  datatype Gateway = Gateway(
    present: bool,                      // `window.ethereum` is defined
    send: Call -> Outcome,              // outcome of each write
    allNames: Read<seq<string>>,        // `getAllNames()`
    records: string -> Read<string>,    // `records(name)`
    avatars: string -> Read<string>,    // `avatars(name)`
    owners: string -> Read<string>,     // `domains(name)`
    switchAnswer: SwitchAnswer)         // `wallet_switchEthereumChain`

  /** The calls actually sent from a plan, and whether the whole plan went through. */
  datatype Issued = Issued(calls: seq<Call>, completed: bool)

  /** Send the planned calls in order, awaiting each; the first thrown error ends the
      sequence. A mined receipt lets the sequence go on whatever its status. */
  function Issue(plan: seq<Call>, send: Call -> Outcome): (r: Issued)
    ensures r.calls <= plan
    ensures r.completed ==> r.calls == plan
    ensures !r.completed ==> r.calls != []
    ensures forall i :: 0 <= i < |r.calls| ==>
      (send(r.calls[i]).Threw? <==> !r.completed && i == |r.calls| - 1)
  {
    if plan == [] then Issued([], true)
    else if send(plan[0]).Threw? then Issued([plan[0]], false)
    else
      var rest := Issue(plan[1..], send);
      Issued([plan[0]] + rest.calls, rest.completed)
  }

  /** A plan goes through exactly when none of its calls throws. */
  lemma IssueCompletedIff(plan: seq<Call>, send: Call -> Outcome)
    ensures Issue(plan, send).completed <==> forall i :: 0 <= i < |plan| ==> !send(plan[i]).Threw?
  {
    var r := Issue(plan, send);
    if !r.completed {
      var k := |r.calls| - 1;
      assert r.calls[k] == plan[k];
      assert send(plan[k]).Threw?;
    }
  }

  /** Sending `a + b` is sending `a`, then, only if all of `a` went through, `b`. */
  lemma {:induction false} IssueAppend(a: seq<Call>, b: seq<Call>, send: Call -> Outcome)
    ensures Issue(a + b, send) ==
      if Issue(a, send).completed then Issued(a + Issue(b, send).calls, Issue(b, send).completed)
      else Issue(a, send)
  {
    if a == [] {
      assert a + b == b;
    } else {
      assert (a + b)[0] == a[0];
      assert (a + b)[1..] == a[1..] + b;
      IssueAppend(a[1..], b, send);
      if !send(a[0]).Threw? {
        assert [a[0]] + (a[1..] + Issue(b, send).calls) == a + Issue(b, send).calls;
      }
    }
  }

  /** Once a plan has stopped on a thrown error, planning more calls after it
      changes nothing. */
  lemma IssueExtend(p: seq<Call>, q: seq<Call>, send: Call -> Outcome)
    requires p <= q && !Issue(p, send).completed
    ensures Issue(q, send) == Issue(p, send)
  {
    assert q == p + q[|p|..];
    IssueAppend(p, q[|p|..], send);
  }
}
