/**
 Lifespan of src/chattice/dispatcher/lifespan.py: start resources in order, close them in
 reverse, and close what was started when a start fails.
 */
module Lifespans {
  import opened Options

  type Resource = nat

  type Error = string

  datatype Event = Start(r: Resource) | Close(r: Resource)

  function Reversed<T>(s: seq<T>): (r: seq<T>)
    ensures |r| == |s|
    ensures forall i | 0 <= i < |s| :: r[i] == s[|s| - 1 - i]
  {
    if s == [] then [] else [s[|s| - 1]] + Reversed(s[..|s| - 1])
  }

  function Starts(s: seq<Resource>): (r: seq<Event>)
    ensures |r| == |s| && forall i | 0 <= i < |s| :: r[i] == Start(s[i])
  {
    seq(|s|, i requires 0 <= i < |s| => Start(s[i]))
  }

  function Closes(s: seq<Resource>): (r: seq<Event>)
    ensures |r| == |s| && forall i | 0 <= i < |s| :: r[i] == Close(s[i])
  {
    seq(|s|, i requires 0 <= i < |s| => Close(s[i]))
  }

  lemma OneMore(s: seq<Resource>, i: nat)
    requires i < |s|
    ensures s[..i + 1] == s[..i] + [s[i]]
    ensures Starts(s[..i + 1]) == Starts(s[..i]) + [Start(s[i])]
    ensures Closes(s[..i + 1]) == Closes(s[..i]) + [Close(s[i])]
  {
  }

  /** The number of starts that return before the first that raises. */
  function Started(starts: seq<Option<Error>>): (k: nat)
    ensures k <= |starts|
    ensures forall i | 0 <= i < k :: starts[i] == None
    ensures k < |starts| ==> starts[k].Some?
  {
    if starts == [] || starts[0].Some? then 0 else 1 + Started(starts[1..])
  }

  /** The first error among the first n closes, in closing order. */
  function FirstError(closes: nat -> Option<Error>, n: nat): Option<Error> {
    if n == 0 then None
    else if FirstError(closes, n - 1).Some? then FirstError(closes, n - 1)
    else closes(n - 1)
  }

  const ALREADY_USED: Error := "This lifespan has already been used"

  class Lifespan {
    const resources: seq<Resource>
    var started: seq<Resource>
    var closed: bool

    constructor (resources: seq<Resource>)
      ensures this.resources == resources && started == [] && !closed
    {
      this.resources := resources;
      started, closed := [], false;
    }

    /** starts: how each start ends; closes: how the closes of a rollback end, in order. */
    method Enter(starts: seq<Option<Error>>, closes: nat -> Option<Error>)
      returns (raised: Option<Error>, trace: seq<Event>)
      requires |starts| == |resources|
      modifies this
      ensures closed == old(closed)
      ensures old(closed) ==> raised == Some(ALREADY_USED) && trace == [] && started == old(started)
      ensures !old(closed) && Started(starts) == |starts| ==>
        raised == None && started == old(started) + resources && trace == Starts(resources)
      ensures !old(closed) && Started(starts) < |starts| ==>
        var k := Started(starts);
        && raised == starts[k] && started == []
        && trace == Starts(resources[..k + 1]) + Closes(Reversed(old(started) + resources[..k]))
    {
      trace := [];
      if closed {
        return Some(ALREADY_USED), trace;
      }
      var i;
      i, trace := StartAll(starts);
      if i == |resources| {
        assert resources[..i] == resources;
        return None, trace;
      }
      trace := trace + [Start(resources[i])];
      OneMore(resources, i);
      var rollback := CloseAll(closes);
      trace := trace + rollback.0;
      started := [];
      return starts[i], trace;
    }

    /** Start in order until one start raises. */
    method StartAll(starts: seq<Option<Error>>) returns (i: nat, trace: seq<Event>)
      requires |starts| == |resources|
      modifies this
      ensures i == Started(starts) && trace == Starts(resources[..i])
      ensures started == old(started) + resources[..i] && closed == old(closed)
    {
      i, trace := 0, [];
      while i < |resources| && starts[i] == None
        invariant 0 <= i <= Started(starts)
        invariant closed == old(closed)
        invariant started == old(started) + resources[..i]
        invariant trace == Starts(resources[..i])
      {
        OneMore(resources, i);
        trace := trace + [Start(resources[i])];
        started := started + [resources[i]];
        i := i + 1;
      }
    }

    /** Close everything started, newest first, whatever each close does. */
    method CloseAll(closes: nat -> Option<Error>) returns (r: (seq<Event>, Option<Error>))
      ensures r.0 == Closes(Reversed(started))
      ensures r.1 == FirstError(closes, |started|)
    {
      var trace, first := [], None;
      var reverse := Reversed(started);
      for i := 0 to |reverse|
        invariant trace == Closes(reverse[..i])
        invariant first == FirstError(closes, i)
      {
        OneMore(reverse, i);
        trace := trace + [Close(reverse[i])];
        if first == None {
          first := closes(i);
        }
      }
      assert reverse[..|reverse|] == reverse;
      return (trace, first);
    }

    /** bodyRaised: the body of the async with raised, and its error goes on. */
    method Exit(bodyRaised: bool, closes: nat -> Option<Error>) returns (raised: Option<Error>, trace: seq<Event>)
      modifies this
      ensures trace == Closes(Reversed(old(started)))
      ensures started == [] && closed
      ensures raised == if bodyRaised then None else FirstError(closes, |old(started)|)
    {
      var all := CloseAll(closes);
      started := [];
      closed := true;
      return if bodyRaised then None else all.1, all.0;
    }
  }

  // ------------------------------------------------------------------ a whole life

  /** The trace of one async with over a new lifespan. */
  function Life(resources: seq<Resource>, starts: seq<Option<Error>>): seq<Event>
    requires |starts| == |resources|
  {
    var k := Started(starts);
    if k == |starts| then Starts(resources) + Closes(Reversed(resources))
    else Starts(resources[..k + 1]) + Closes(Reversed(resources[..k]))
  }

  method Use(resources: seq<Resource>, starts: seq<Option<Error>>, bodyRaised: bool,
             rollback: nat -> Option<Error>, shutdown: nat -> Option<Error>)
    returns (raised: Option<Error>, trace: seq<Event>)
    requires |starts| == |resources|
    ensures trace == Life(resources, starts)
    ensures raised ==
      if Started(starts) < |starts| then starts[Started(starts)]
      else if bodyRaised then None
      else FirstError(shutdown, |resources|)
  {
    var lifespan := new Lifespan(resources);
    raised, trace := lifespan.Enter(starts, rollback);
    assert [] + resources == resources && [] + resources[..Started(starts)] == resources[..Started(starts)];
    if raised == None {
      var exitTrace;
      raised, exitTrace := lifespan.Exit(bodyRaised, shutdown);
      trace := trace + exitTrace;
    }
  }

  /** In every life, with k the number of successful starts, the trace is the k starts, the
      failing one if any, and then the closes of exactly those k, each once, newest first. */
  lemma LifeIsBalanced(resources: seq<Resource>, starts: seq<Option<Error>>)
    requires |starts| == |resources|
    ensures
      var k, trace := Started(starts), Life(resources, starts);
      var tried := if k < |starts| then k + 1 else k;
      && |trace| == tried + k
      && (forall i | 0 <= i < tried :: trace[i] == Start(resources[i]))
      && (forall i | 0 <= i < k :: trace[|trace| - 1 - i] == Close(resources[i]))
  {
    var k, trace := Started(starts), Life(resources, starts);
    var tried := if k < |starts| then k + 1 else k;
    assert resources[..|resources|] == resources;
    var attempts, closes := Starts(resources[..tried]), Closes(Reversed(resources[..k]));
    assert trace == attempts + closes;
    forall i | 0 <= i < k ensures trace[|trace| - 1 - i] == Close(resources[i]) {
      assert trace[|trace| - 1 - i] == closes[k - 1 - i];
      assert Reversed(resources[..k])[k - 1 - i] == resources[..k][i];
    }
  }

  /** The error that surfaces from a clean body is that of the first close that fails. */
  lemma {:induction false} FirstErrorIsFirst(closes: nat -> Option<Error>, n: nat)
    ensures FirstError(closes, n) == None <==> forall i: nat | i < n :: closes(i) == None
    ensures forall i: nat | i < n && closes(i).Some? && (forall j: nat | j < i :: closes(j) == None) ::
      FirstError(closes, n) == closes(i)
  {
    if n > 0 { FirstErrorIsFirst(closes, n - 1); }
  }
}
