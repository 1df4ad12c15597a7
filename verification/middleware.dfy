/** Express-style middleware as values: what a step hands to `next`, what a
    handler answers, and the fail-fast driver that runs a chain of steps. */
module Middleware {

  /** What a middleware step does: call `next()` (Pass), call `next({status, message})`
      (Fail), or throw a TypeError because it dereferences something the request
      does not carry (Throw). */
  datatype Outcome = Pass | Fail(status: int, message: string) | Throw

  /** What a request finally answers: `res.status(s).json({data})`, `res.sendStatus(204)`,
      or the error `{status, message}` rendered by the error boundary. */
  datatype Response<T> = Success(status: int, data: T) | NoContent | Error(status: int, message: string)

  /** The response an error handed to `next` is rendered as. */
  function ErrorResponse<T>(o: Outcome): (r: Response<T>)
    requires o.Fail?
    ensures r.Error? && r.status == o.status && r.message == o.message
  {
    Error(o.status, o.message)
  }

  /** Runs a chain whose steps have produced `chain`, in order, and stops at the
      first outcome that does not pass; that outcome is the chain's outcome. Each
      step reads only the request and the stored collection, so evaluating the
      steps up front and scanning their outcomes is the same as running them one
      after another. */
  function RunChain(chain: seq<Outcome>): Outcome {
    if chain == [] then Pass
    else if chain[0].Pass? then RunChain(chain[1..])
    else chain[0]
  }

  /** A chain passes exactly when every step passes; otherwise its outcome is that
      of the first step that does not pass, and every step before it passed. */
  lemma {:induction false} RunChainOutcome(chain: seq<Outcome>)
    ensures RunChain(chain).Pass? <==> forall i :: 0 <= i < |chain| ==> chain[i].Pass?
    ensures !RunChain(chain).Pass? ==>
      exists k ::
        && 0 <= k < |chain|
        && RunChain(chain) == chain[k]
        && forall i :: 0 <= i < k ==> chain[i].Pass?
  {
    if chain != [] && chain[0].Pass? {
      RunChainOutcome(chain[1..]);
      if !RunChain(chain).Pass? {
        var k :| && 0 <= k < |chain[1..]|
                 && RunChain(chain[1..]) == chain[1..][k]
                 && forall i :: 0 <= i < k ==> chain[1..][i].Pass?;
        assert RunChain(chain) == chain[k + 1];
        assert forall i :: 0 < i < k + 1 ==> chain[i] == chain[1..][i - 1];
      }
      forall i | 0 <= i < |chain[1..]| ensures chain[1..][i] == chain[i + 1] {}
    } else if chain != [] {
      assert RunChain(chain) == chain[0];
    }
  }

  /** One step followed by the rest of a chain: the rest runs only if the step passes. */
  function AndThen(first: Outcome, rest: Outcome): (r: Outcome)
    ensures r.Pass? <==> first.Pass? && rest.Pass?
    ensures first.Pass? ==> r == rest
    ensures !first.Pass? ==> r == first
  {
    if first.Pass? then rest else first
  }

  /** The driver on a chain with a first step: that step decides unless it passes. */
  lemma RunChainCons(step: Outcome, rest: seq<Outcome>)
    ensures RunChain([step] + rest) == AndThen(step, RunChain(rest))
  {
    assert ([step] + rest)[0] == step;
    assert ([step] + rest)[1..] == rest;
  }

  /** Fail-fast composition: a chain made of a front part and a back part fails as
      the front part does when that fails; the back part is consulted only when
      the whole front part passes. */
  lemma {:induction false} RunChainAppend(front: seq<Outcome>, back: seq<Outcome>)
    ensures RunChain(front + back) == if RunChain(front).Pass? then RunChain(back) else RunChain(front)
  {
    if front != [] {
      assert (front + back)[0] == front[0];
      assert (front + back)[1..] == front[1..] + back;
      RunChainAppend(front[1..], back);
    } else {
      assert front + back == back;
    }
  }
}
