/**
 No call of RedisTransactions fails by itself, and none is starved by a conflict it has already
 met: a WatchError sends the call round its loop again, and as soon as nobody disturbs it, it
 finishes within seven commands, whatever its code decides.
 */
module RedisProgress {
  import opened Options
  import opened RedisTransactions

  // ------------------------------------------------------------------ calls are not lost

  lemma AdvancingLosesNothing<V(!new), R(!new), T(!new)>(s: System<V, R, T>, client: nat, clock: Clock, o: nat)
    requires client in s.calls && o in s.calls && s.calls[o].at != Lost
    ensures o in AdvanceCall(s, client, clock).calls && AdvanceCall(s, client, clock).calls[o].at != Lost
  {
    AdvanceChanges(s, client, clock);
    var c := s.calls[client];
    match c.at {
      case Opened => match c.opening { case Straight => case SetNx(_, _, _) => case Peek(_) => }
      case Peeked(seen, _, _) =>
        if c.opening.Peek? { match c.opening.look(seen, s.now) { case Answer(_) => case Enter(_) => } }
      case Got(seen, _, _, _) => match c.body(seen, clock) { case Return(_) => case Commit(_, _) => }
      case _ =>
    }
  }

  /** A call fails only by losing its connection, however often its EXEC finds the key changed. */
  lemma {:induction false} OnlyLosingLoses<V(!new), R(!new), T(!new)>(
    code: Code<V, R, T>, acts: seq<Action<T>>, client: nat)
    requires client in After(code, acts).calls && After(code, acts).calls[client].at == Lost
    ensures Lose(client) in acts
  {
    var before, act := acts[..|acts| - 1], acts[|acts| - 1];
    var s := After(code, before);
    if client in s.calls && s.calls[client].at == Lost {
      OnlyLosingLoses(code, before, client);
    } else if act.Advance? && Enabled(s, act) && client in s.calls {
      AdvancingLosesNothing(s, act.client, act.clock, client);
    }
  }

  /** Any call that has not finished can lose its connection at any time; the server and the other
      calls notice nothing of it. */
  lemma LostCallsAreNotNoticed<V(!new), R(!new), T(!new)>(code: Code<V, R, T>, acts: seq<Action<T>>, client: nat)
    requires client in After(code, acts).calls && !After(code, acts).calls[client].at.Finished?
    ensures
      var s, v := After(code, acts), Do(code, After(code, acts), Lose(client));
      && client in v.calls && v.calls[client].at == Lost
      && v.entries == s.entries && v.log == s.log && v.versions == s.versions
      && forall o | o in s.calls && o != client :: o in v.calls && v.calls[o] == s.calls[o]
  {
  }

  // ------------------------------------------------------------------ calls that nobody disturbs

  /** How many more commands the call needs when it is alone. */
  function Left<V, R, T>(s: System<V, R, T>, c: Call<V, R, T>): nat {
    var current := Version(s.versions, c.key);
    match c.at
    case Opened => 6
    case Peeked(_, _, _) => 5
    case Looping => 4
    case Watched(version) => if version == current then 3 else 7
    case Got(_, version, _, _) => if version == current then 2 else 6
    case Ready(_, _, _, version, _) => if version == current then 1 else 5
    case _ => 0
  }

  lemma AloneItGoesOn<V(!new), R(!new), T(!new)>(code: Code<V, R, T>, s: System<V, R, T>, client: nat)
    requires Inv(s) && client in s.calls && !s.calls[client].at.Finished? && s.calls[client].at != Lost
    ensures
      var v := Do(code, s, Advance(client, Once(s.now)));
      client in v.calls && v.calls[client].at != Lost && Left(v, v.calls[client]) < Left(s, s.calls[client])
  {
    assert CallInv(s, client);
    AdvancingLosesNothing(s, client, Once(s.now), client);
    AdvanceChanges(s, client, Once(s.now));
    var c := s.calls[client];
    match c.at {
      case Opened => match c.opening { case Straight => case SetNx(_, _, _) => case Peek(_) => }
      case Peeked(seen, _, _) => match c.opening.look(seen, s.now) { case Answer(_) => case Enter(_) => }
      case Got(seen, _, _, _) => match c.body(seen, Once(s.now)) { case Return(_) => case Commit(_, _) => }
      case _ =>
    }
  }

  /** The client's own steps, and nobody else's. */
  predicate OnlyAdvances<T>(acts: seq<Action<T>>, client: nat) {
    forall i | 0 <= i < |acts| :: acts[i].Advance? && acts[i].client == client
  }

  /** From any state of any run, a call that has not lost its connection finishes within seven
      steps of its own if nobody else takes one, also when its EXEC is about to fail. */
  lemma {:induction false} UndisturbedCallsFinish<V(!new), R(!new), T(!new)>(
    code: Code<V, R, T>, acts: seq<Action<T>>, client: nat) returns (more: seq<Action<T>>)
    requires client in After(code, acts).calls && After(code, acts).calls[client].at != Lost
    ensures OnlyAdvances(more, client) && |more| <= Left(After(code, acts), After(code, acts).calls[client])
    ensures |more| <= 7
    ensures client in After(code, acts + more).calls && After(code, acts + more).calls[client].at.Finished?
    decreases Left(After(code, acts), After(code, acts).calls[client])
  {
    var s := After(code, acts);
    if s.calls[client].at.Finished? {
      more := [];
      assert acts + more == acts;
    } else {
      RunsKeepInv(code, acts);
      AloneItGoesOn(code, s, client);
      var act := Advance(client, Once(s.now));
      OneMore(code, acts, act);
      var rest := UndisturbedCallsFinish(code, acts + [act], client);
      more := [act] + rest;
      Regroup(acts, act, rest);
    }
  }

  lemma Regroup<T>(acts: seq<T>, act: T, rest: seq<T>)
    ensures acts + ([act] + rest) == acts + [act] + rest
  {
  }

  lemma OneMore<V, R, T>(code: Code<V, R, T>, acts: seq<Action<T>>, act: Action<T>)
    ensures After(code, acts + [act]) == Do(code, After(code, acts), act)
  {
    assert (acts + [act])[..|acts|] == acts;
  }
}
