/**
 What the runs of BotLifecycle come to: which credentials a client was built from and where those
 came from, how every initialization ends, that a failure is forgotten, and that close waits for
 every task.
 */
module BotOutcomes {
  import opened Options
  import opened BotLifecycle

  // ------------------------------------------------------------------ where credentials come from

  /** What the provider of an identity answers in this step, if it does. */
  function Gives(w: World, act: Action): set<(Slot, Option<Cred>)> {
    if act.Run? && act.task < |w.tasks| && w.tasks[act.task].state == InThread && act.ending.Yields? then
      {(w.tasks[act.task].slot, act.ending.creds)}
    else {}
  }

  /** All that the providers have answered so far. */
  function Given(cfg: Config, acts: seq<Action>): set<(Slot, Option<Cred>)> {
    if acts == [] then {} else
      Given(cfg, acts[..|acts| - 1]) + Gives(After(cfg, acts[..|acts| - 1]), acts[|acts| - 1])
  }

  /** A credential of the USER identity without a provider of its own is the single credential,
      provided that it is one of a user. */
  predicate IsOwn(cfg: Config, own: Option<Cred>, single: Option<Cred>) {
    match own
    case Some(c) => single == Some(c) && c in cfg.user
    case None => single == None || single.value !in cfg.user
  }

  predicate CoreFrom(cfg: Config, c: Core, given: set<(Slot, Option<Cred>)>) {
    && (c.resolved.Some? ==>
          if cfg.provider then (AppCreds, c.resolved.value) in given else c.resolved.value == cfg.credentials)
    && (c.resolvedUser.Some? ==>
          if cfg.userProvider then (UserCreds, c.resolvedUser.value) in given
          else c.resolved.Some? && IsOwn(cfg, c.resolvedUser.value, c.resolved.value))
  }

  /** A task is where its identity's way to credentials leads, and has what is cached for it. */
  predicate TaskFrom(cfg: Config, c: Core, t: Task) {
    match t.state
    case Resolved(creds) =>
      (t.slot == AppCreds ==> c.resolved == Some(creds)) && (t.slot == UserCreds ==> c.resolvedUser == Some(creds))
    case InThread => (t.slot == AppCreds ==> cfg.provider) && (t.slot == UserCreds ==> cfg.userProvider)
    case Awaiting(_) => t.slot == UserCreds ==> !cfg.userProvider
    case _ => true
  }

  /** What a published client was built from. */
  predicate BuiltFrom(cfg: Config, c: Core, slot: Slot, client: Client, serial: nat) {
    && (slot == UserInit ==> c.resolvedUser.Some? && c.resolvedUser.value.Some?)
    && (slot == AppInit ==> c.resolved.Some? && (cfg.injected || c.resolved.value.Some?))
    && client.transport == if cfg.injected then Injected else Made(serial)
  }

  predicate FromInv(cfg: Config, w: World, given: set<(Slot, Option<Cred>)>) {
    && CoreFrom(cfg, w.core, given)
    && (forall t | 0 <= t < |w.tasks| :: TaskFrom(cfg, w.core, w.tasks[t]))
    && (forall i | 0 <= i < |w.published| :: BuiltFrom(cfg, w.core, w.published[i].0, w.published[i].1, i))
  }

  /** Credentials that are there stay what they are. */
  predicate KeepsCreds(c: Core, d: Core) {
    && (c.resolved.Some? ==> d.resolved == c.resolved)
    && (c.resolvedUser.Some? ==> d.resolvedUser == c.resolvedUser)
  }

  /** The step changed one task, and may have made another. */
  predicate OneTask(w: World, v: World, task: nat) {
    && |w.tasks| <= |v.tasks|
    && (forall t | 0 <= t < |w.tasks| && t != task :: v.tasks[t] == w.tasks[t])
    && (forall t | |w.tasks| <= t < |v.tasks| && t != task :: v.tasks[t].state == Created)
  }

  lemma OneTaskKeepsFrom(cfg: Config, w: World, v: World, task: nat, given: set<(Slot, Option<Cred>)>)
    requires FromInv(cfg, w, given) && KeepsCreds(w.core, v.core) && OneTask(w, v, task)
    requires CoreFrom(cfg, v.core, given) && (task < |v.tasks| ==> TaskFrom(cfg, v.core, v.tasks[task]))
    requires |w.published| <= |v.published| <= |w.published| + 1 && v.published[..|w.published|] == w.published
    requires |v.published| > |w.published| ==>
      var (slot, client) := v.published[|w.published|]; BuiltFrom(cfg, v.core, slot, client, |w.published|)
    ensures FromInv(cfg, v, given)
  {
    forall t | 0 <= t < |v.tasks| ensures TaskFrom(cfg, v.core, v.tasks[t]) {
      if t < |w.tasks| { assert TaskFrom(cfg, w.core, w.tasks[t]); }
    }
    forall i | 0 <= i < |v.published| ensures BuiltFrom(cfg, v.core, v.published[i].0, v.published[i].1, i) {
      if i < |w.published| {
        assert v.published[i] == w.published[i];
        assert BuiltFrom(cfg, w.core, w.published[i].0, w.published[i].1, i);
      }
    }
  }

  lemma MoreGiven(cfg: Config, w: World, given: set<(Slot, Option<Cred>)>, more: set<(Slot, Option<Cred>)>)
    requires FromInv(cfg, w, given) && given <= more
    ensures FromInv(cfg, w, more)
  {
  }

  /** A task that has not ended finds its identity's credentials not resolved. */
  lemma NotYetResolved(w: World, task: nat)
    requires Inv(w) && task < |w.tasks| && !Ended(w.tasks[task].state)
    ensures !Cached(w, w.tasks[task].slot)
  {
  }

  lemma AwaitingFrom(cfg: Config, w: World, task: nat, given: set<(Slot, Option<Cred>)>)
    requires FromInv(cfg, w, given) && task < |w.tasks|
    requires w.tasks[task].slot == UserCreds ==> !cfg.userProvider
    ensures FromInv(cfg, AwaitChild(w, task), given)
  {
    OneTaskKeepsFrom(cfg, w, AwaitChild(w, task), task, given);
  }

  lemma CreatedFrom(cfg: Config, w: World, task: nat, given: set<(Slot, Option<Cred>)>)
    requires Inv(w) && FromInv(cfg, w, given) && task < |w.tasks| && w.tasks[task].state == Created
    ensures FromInv(cfg, RunCreated(cfg, w, task), given)
  {
    var slot, v := w.tasks[task].slot, RunCreated(cfg, w, task);
    NotYetResolved(w, task);
    if slot == AppInit || slot == UserInit {
      if w.core.closed { OneTaskKeepsFrom(cfg, w, v, task, given); } else { AwaitingFrom(cfg, w, task, given); }
    } else if BeginResolve(cfg, w.core, slot).Asks? {
      AwaitingFrom(cfg, w, task, given);
    } else {
      OneTaskKeepsFrom(cfg, w, v, task, given);
    }
  }

  lemma ThreadFrom(cfg: Config, w: World, task: nat, ending: Ending, given: set<(Slot, Option<Cred>)>)
    requires Inv(w) && FromInv(cfg, w, given) && task < |w.tasks| && w.tasks[task].state == InThread
    ensures FromInv(cfg, RunThread(w, task, ending), given + Gives(w, Run(task, ending)))
  {
    NotYetResolved(w, task);
    MoreGiven(cfg, w, given, given + Gives(w, Run(task, ending)));
    assert StateOk(w, w.tasks[task].slot, InThread) && TaskFrom(cfg, w.core, w.tasks[task]);
    OneTaskKeepsFrom(cfg, w, RunThread(w, task, ending), task, given + Gives(w, Run(task, ending)));
  }

  lemma ChildFailedFrom(cfg: Config, w: World, task: nat, child: nat, ending: Ending, given: set<(Slot, Option<Cred>)>)
    requires FromInv(cfg, w, given) && task < |w.tasks| && child < |w.tasks| && w.tasks[child].state.Failed?
    ensures FromInv(cfg, RunAwaiting(cfg, w, task, child, ending), given)
  {
    OneTaskKeepsFrom(cfg, w, RunAwaiting(cfg, w, task, child, ending), task, given);
  }

  lemma InitFrom(cfg: Config, w: World, task: nat, child: nat, ending: Ending, given: set<(Slot, Option<Cred>)>)
    requires FromInv(cfg, w, given) && task < |w.tasks| && child < |w.tasks| && w.tasks[child].state.Resolved?
    requires w.tasks[task].slot == AppInit || w.tasks[task].slot == UserInit
    requires w.tasks[child].slot == (if w.tasks[task].slot == AppInit then AppCreds else UserCreds)
    ensures FromInv(cfg, RunAwaiting(cfg, w, task, child, ending), given)
  {
    var v, slot, creds := RunAwaiting(cfg, w, task, child, ending), w.tasks[task].slot, w.tasks[child].state.creds;
    assert TaskFrom(cfg, w.core, w.tasks[child]);
    match BuildResult(cfg, w.core, slot, creds, if ending.Raises? then Some(ending.error) else None) {
      case Some(error) => assert v == SetState(w, task, Failed(error));
      case None => assert v.published == w.published + [(slot, ClientFor(cfg, |w.published|))];
    }
    OneTaskKeepsFrom(cfg, w, v, task, given);
  }

  lemma OwnFrom(cfg: Config, w: World, task: nat, child: nat, ending: Ending, given: set<(Slot, Option<Cred>)>)
    requires FromInv(cfg, w, given) && task < |w.tasks| && child < |w.tasks| && w.tasks[child].state.Resolved?
    requires w.tasks[task].slot == UserCreds && w.tasks[task].state.Awaiting? && !Cached(w, UserCreds)
    requires w.tasks[child].slot == AppCreds
    ensures FromInv(cfg, RunAwaiting(cfg, w, task, child, ending), given)
  {
    assert TaskFrom(cfg, w.core, w.tasks[child]) && TaskFrom(cfg, w.core, w.tasks[task]);
    OneTaskKeepsFrom(cfg, w, RunAwaiting(cfg, w, task, child, ending), task, given);
  }

  lemma AwaitedFrom(cfg: Config, w: World, task: nat, ending: Ending, given: set<(Slot, Option<Cred>)>)
    requires Inv(w) && FromInv(cfg, w, given) && Enabled(w, Run(task, ending)) && w.tasks[task].state.Awaiting?
    ensures FromInv(cfg, RunAwaiting(cfg, w, task, w.tasks[task].state.child, ending), given)
  {
    var child := w.tasks[task].state.child;
    NotYetResolved(w, task);
    assert StateOk(w, w.tasks[task].slot, w.tasks[task].state);
    match w.tasks[child].state {
      case Failed(_) => ChildFailedFrom(cfg, w, task, child, ending, given);
      case Resolved(_) =>
        if w.tasks[task].slot == UserCreds {
          OwnFrom(cfg, w, task, child, ending, given);
        } else {
          InitFrom(cfg, w, task, child, ending, given);
        }
      case _ =>
    }
  }

  /** Callers and close touch no credential. */
  lemma BystandersFrom(cfg: Config, w: World, act: Action, given: set<(Slot, Option<Cred>)>)
    requires FromInv(cfg, w, given) && !act.Run?
    ensures FromInv(cfg, Do(cfg, w, act), given)
  {
    OneTaskKeepsFrom(cfg, w, Do(cfg, w, act), |Do(cfg, w, act).tasks|, given);
  }

  lemma StepFrom(cfg: Config, w: World, act: Action, given: set<(Slot, Option<Cred>)>)
    requires Inv(w) && FromInv(cfg, w, given)
    ensures FromInv(cfg, Do(cfg, w, act), given + Gives(w, act))
  {
    MoreGiven(cfg, w, given, given + Gives(w, act));
    if !act.Run? {
      BystandersFrom(cfg, w, act, given + Gives(w, act));
    } else if Enabled(w, act) {
      match w.tasks[act.task].state {
        case Created => CreatedFrom(cfg, w, act.task, given + Gives(w, act));
        case InThread => ThreadFrom(cfg, w, act.task, act.ending, given);
        case Awaiting(_) => AwaitedFrom(cfg, w, act.task, act.ending, given + Gives(w, act));
        case _ =>
      }
    }
  }

  lemma {:induction false} RunsKeepFrom(cfg: Config, acts: seq<Action>)
    ensures FromInv(cfg, After(cfg, acts), Given(cfg, acts))
  {
    if acts != [] {
      var before := acts[..|acts| - 1];
      RunsKeepFrom(cfg, before);
      RunsKeepInv(cfg, before);
      StepFrom(cfg, After(cfg, before), acts[|acts| - 1], Given(cfg, before));
    }
  }

  /** Every published client has the credentials of its identity behind it: a USER client a USER
      credential, an APP client an APP credential unless the transport was injected; and it works
      over the injected transport, or over one of its own. */
  lemma ClientsHaveTheirCredentials(cfg: Config, acts: seq<Action>)
    ensures
      var w := After(cfg, acts);
      && (forall i | 0 <= i < |w.published| :: BuiltFrom(cfg, w.core, w.published[i].0, w.published[i].1, i))
      && (forall i, j | 0 <= i < j < |w.published| && !cfg.injected ::
            w.published[i].1.transport != w.published[j].1.transport)
  {
    RunsKeepFrom(cfg, acts);
    var w := After(cfg, acts);
    assert forall i | 0 <= i < |w.published| :: BuiltFrom(cfg, w.core, w.published[i].0, w.published[i].1, i);
  }

  /** And credentials come from where the configuration says: the identity's provider, if it has
      one, or else the configured credential, which serves as USER only if it is one of a user. */
  lemma CredentialsComeFromTheirSource(cfg: Config, acts: seq<Action>)
    ensures CoreFrom(cfg, After(cfg, acts).core, Given(cfg, acts))
  {
    RunsKeepFrom(cfg, acts);
  }

  // ------------------------------------------------------------------ how initializations end

  /** An initialization has its credentials and is about to build. */
  predicate AboutToBuild(w: World, task: nat) {
    && task < |w.tasks| && (w.tasks[task].slot == AppInit || w.tasks[task].slot == UserInit)
    && w.tasks[task].state.Awaiting? && w.tasks[task].state.child < |w.tasks|
    && w.tasks[w.tasks[task].state.child].state.Resolved?
  }

  /** The credentials of the identity are good enough for its client. */
  predicate Sufficient(cfg: Config, c: Core, slot: Slot) {
    if slot == UserInit then c.resolvedUser.Some? && c.resolvedUser.value.Some?
    else cfg.injected || (c.resolved.Some? && c.resolved.value.Some?)
  }

  /** It ends with a client, and publishes it, exactly if the bot is not closed, the identity has
      its credentials, and the SDK constructor returns. Missing USER credentials are a capability
      the bot does not have; the rest is a ChatAPIError, or what the constructor raised. */
  lemma InitializationsEnd(cfg: Config, acts: seq<Action>, task: nat, ending: Ending)
    requires AboutToBuild(After(cfg, acts), task)
    ensures
      var w, v := After(cfg, acts), Do(cfg, After(cfg, acts), Run(task, ending));
      var slot := w.tasks[task].slot;
      && task < |v.tasks|
      && (if !w.core.closed && Sufficient(cfg, w.core, slot) && ending.Yields? then
            && v.tasks[task].state == Built && |v.published| == |w.published| + 1
            && v.published[|w.published|].0 == slot
            && (if slot == AppInit then v.core.client == Some(v.published[|w.published|].1)
                else v.core.userClient == Some(v.published[|w.published|].1))
          else
            && v.published == w.published && v.core == w.core
            && v.tasks[task].state ==
                 (if slot == UserInit && !Sufficient(cfg, w.core, slot) then Failed(OtherError)
                  else if w.core.closed || !Sufficient(cfg, w.core, slot) then Failed(ChatApi)
                  else Failed(ending.error)))
  {
    HasItsCredentials(cfg, acts, task);
  }

  lemma HasItsCredentials(cfg: Config, acts: seq<Action>, task: nat)
    requires AboutToBuild(After(cfg, acts), task)
    ensures
      var w := After(cfg, acts);
      var creds := w.tasks[w.tasks[task].state.child].state.creds;
      if w.tasks[task].slot == AppInit then w.core.resolved == Some(creds) else w.core.resolvedUser == Some(creds)
  {
    RunsKeepInv(cfg, acts);
    RunsKeepFrom(cfg, acts);
    var w := After(cfg, acts);
    assert StateOk(w, w.tasks[task].slot, w.tasks[task].state);
    assert TaskFrom(cfg, w.core, w.tasks[w.tasks[task].state.child]);
  }

  /** A task that is made once the bot is closed gets nowhere: it fails with a ChatAPIError, and
      before it does it has not begun. */
  lemma {:induction false} LateTasksFail(cfg: Config, acts: seq<Action>, n: nat, task: nat)
    requires n < |acts| && After(cfg, acts[..n]).core.closed
    requires |After(cfg, acts[..n]).tasks| <= task < |After(cfg, acts).tasks|
    ensures
      var w := After(cfg, acts);
      w.tasks[task].state == Created || w.tasks[task].state == Failed(ChatApi)
  {
    var before, act := acts[..|acts| - 1], acts[|acts| - 1];
    assert before[..n] == acts[..n] && before[..|before|] == before;
    StaysClosed(cfg, before, n);
    if task < |After(cfg, before).tasks| { LateTasksFail(cfg, before, n, task); }
    ClosedStep(cfg, After(cfg, before), act, task);
  }

  lemma StaysClosed(cfg: Config, acts: seq<Action>, n: nat)
    requires n <= |acts| && After(cfg, acts[..n]).core.closed
    ensures After(cfg, acts).core.closed
  {
    RunsKeepInv(cfg, acts[..n]);
    RunsKeepInv(cfg, acts);
    RunsAreLater(cfg, acts, n);
  }

  /** A task as it may be once the bot is closed. */
  predicate GetsNowhere(w: World, task: nat) {
    task < |w.tasks| ==> w.tasks[task].state == Created || w.tasks[task].state == Failed(ChatApi)
  }

  lemma ClosedRun(cfg: Config, w: World, task: nat, ending: Ending, other: nat)
    requires w.core.closed && GetsNowhere(w, other) && Enabled(w, Run(task, ending))
    ensures GetsNowhere(Do(cfg, w, Run(task, ending)), other)
  {
    if task != other { RunLeavesOthers(cfg, w, task, ending); }
  }

  lemma ClosedStep(cfg: Config, w: World, act: Action, task: nat)
    requires w.core.closed && GetsNowhere(w, task)
    ensures GetsNowhere(Do(cfg, w, act), task)
  {
    if Enabled(w, act) && act.Run? { ClosedRun(cfg, w, act.task, act.ending, task); }
  }

  // ------------------------------------------------------------------ failures are forgotten

  /** A caller that has seen the shared task fail drops it: the next call of the same getter does
      not get it again, and gets a new task unless somebody else has made one already. */
  lemma CallersStartAfresh(cfg: Config, acts: seq<Action>, caller: nat, next: nat)
    requires
      var w := After(cfg, acts);
      && Enabled(w, Wake(caller)) && w.tasks[w.callers[caller]].state.Failed?
      && next !in w.callers
    ensures
      var w := After(cfg, acts);
      var task := w.callers[caller];
      var slot := w.tasks[task].slot;
      var woken := Do(cfg, w, Wake(caller));
      var v := Do(cfg, woken, Call(next, slot));
      && (next in v.callers ==> v.callers[next] != task && v.callers[next] < |v.tasks|)
      && (slot !in woken.core.slots && next in v.callers ==>
            v.callers[next] == |w.tasks| && v.tasks[|w.tasks|] == Task(slot, Created))
      && (next !in v.callers ==> Cached(w, slot))
      && (slot in w.core.slots && w.core.slots[slot] == task ==> slot !in woken.core.slots)
  {
    RunsKeepInv(cfg, acts);
    var w := After(cfg, acts);
    assert SlotInv(w, w.tasks[w.callers[caller]].slot);
  }

  /** A cached client is answered at once, whether the bot is closed or not. */
  lemma CachedClientsAreAnsweredAtOnce(cfg: Config, acts: seq<Action>, caller: nat, slot: Slot)
    requires (slot == AppInit || slot == UserInit) && Cached(After(cfg, acts), slot)
    ensures Do(cfg, After(cfg, acts), Call(caller, slot)) == After(cfg, acts)
  {
  }

  /** So does a task that waited for another one: it fails with the same error. */
  lemma ParentsForget(cfg: Config, acts: seq<Action>, task: nat, ending: Ending)
    requires
      var w := After(cfg, acts);
      && Enabled(w, Run(task, ending)) && w.tasks[task].state.Awaiting?
      && w.tasks[w.tasks[task].state.child].state.Failed?
    ensures
      var w, v := After(cfg, acts), Do(cfg, After(cfg, acts), Run(task, ending));
      var child := w.tasks[task].state.child;
      && task < |v.tasks| && v.tasks[task].state == w.tasks[child].state
      && forall slot | slot in v.core.slots :: v.core.slots[slot] != child
  {
    RunsKeepInv(cfg, acts);
    var w := After(cfg, acts);
    var child := w.tasks[task].state.child;
    assert StateOk(w, w.tasks[task].slot, w.tasks[task].state);
    forall slot | slot in w.core.slots && w.core.slots[slot] == child ensures slot == w.tasks[child].slot {
      assert SlotInv(w, slot);
    }
  }

  /** Cancelling a caller takes away that caller, and neither the shared task nor another caller. */
  lemma CancellingACallerCancelsNothingElse(cfg: Config, acts: seq<Action>, caller: nat)
    requires caller in After(cfg, acts).callers
    ensures
      var w, v := After(cfg, acts), Do(cfg, After(cfg, acts), CancelCaller(caller));
      && caller !in v.callers && v.tasks == w.tasks && v.core == w.core
      && forall other | other in w.callers && other != caller ::
           other in v.callers && v.callers[other] == w.callers[other]
  {
  }

  // ------------------------------------------------------------------ close waits for every task

  lemma InFlightHasAll(c: Core, slot: Slot)
    requires slot in c.slots
    ensures c.slots[slot] in InFlight(c)
  {
    assert One(c, slot)[0] == c.slots[slot];
    match slot {
      case AppCreds => assert InFlight(c)[0] == c.slots[slot];
      case UserCreds => assert InFlight(c)[|One(c, AppCreds)|] == c.slots[slot];
      case AppInit => assert InFlight(c)[|One(c, AppCreds)| + |One(c, UserCreds)|] == c.slots[slot];
      case UserInit => assert InFlight(c)[|InFlight(c)| - 1] == c.slots[slot];
    }
  }

  lemma WaitedForAll(u: World, w: World, task: nat)
    requires FlightInv(u) && Later(u, w) && JoinInv(w) && w.frozen == u.core && task < |u.tasks|
    requires w.closing.Shutting? || w.closing == Returned
    ensures task < |w.tasks| && Ended(w.tasks[task].state)
  {
    if !Ended(u.tasks[task].state) {
      assert u.core.slots[u.tasks[task].slot] == task;
      InFlightHasAll(u.core, u.tasks[task].slot);
    }
  }

  lemma FrozenAt(cfg: Config, acts: seq<Action>, n: nat)
    requires n < |acts| && acts[n] == Close && !After(cfg, acts[..n]).core.closed
    ensures After(cfg, acts).frozen == After(cfg, acts[..n]).core
  {
    RunsAreLater(cfg, acts, n + 1);
    AfterNext(cfg, acts, n);
  }

  /** Once close() is past its wait, every shared task there was when it began has ended. */
  lemma CloseWaitsForEveryTask(cfg: Config, acts: seq<Action>, n: nat, task: nat)
    requires n < |acts| && acts[n] == Close && !After(cfg, acts[..n]).core.closed
    requires task < |After(cfg, acts[..n]).tasks|
    requires After(cfg, acts).closing.Shutting? || After(cfg, acts).closing == Returned
    ensures task < |After(cfg, acts).tasks| && Ended(After(cfg, acts).tasks[task].state)
  {
    RunsKeepInv(cfg, acts[..n]);
    RunsKeepJoins(cfg, acts);
    RunsAreLater(cfg, acts, n);
    FrozenAt(cfg, acts, n);
    WaitedForAll(After(cfg, acts[..n]), After(cfg, acts), task);
  }

  // ------------------------------------------------------------------ provider calls are counted

  /** The step starts the provider of this identity. */
  predicate StartsProvider(cfg: Config, w: World, act: Action, slot: Slot) {
    && Enabled(w, act) && act.Run? && w.tasks[act.task] == Task(slot, Created)
    && act.task < |Do(cfg, w, act).tasks| && Do(cfg, w, act).tasks[act.task].state == InThread
  }

  predicate ProviderRaises(w: World, act: Action, slot: Slot) {
    Enabled(w, act) && act.Run? && w.tasks[act.task] == Task(slot, InThread) && act.ending.Raises?
  }

  function Starts(cfg: Config, acts: seq<Action>, slot: Slot): nat {
    if acts == [] then 0 else
      var before, act := acts[..|acts| - 1], acts[|acts| - 1];
      Starts(cfg, before, slot) + if StartsProvider(cfg, After(cfg, before), act, slot) then 1 else 0
  }

  function Raised(cfg: Config, acts: seq<Action>, slot: Slot): nat {
    if acts == [] then 0 else
      var before, act := acts[..|acts| - 1], acts[|acts| - 1];
      Raised(cfg, before, slot) + if ProviderRaises(After(cfg, before), act, slot) then 1 else 0
  }

  predicate Counted(cfg: Config, w: World, act: Action, slot: Slot) {
    var v := Do(cfg, w, act);
    && Count(v.calls, slot) == Count(w.calls, slot) + (if StartsProvider(cfg, w, act, slot) then 1 else 0)
    && Count(v.raises, slot) == Count(w.raises, slot) + (if ProviderRaises(w, act, slot) then 1 else 0)
  }

  lemma StartCounts(cfg: Config, w: World, task: nat, ending: Ending, slot: Slot)
    requires Enabled(w, Run(task, ending)) && w.tasks[task].state == Created
    ensures Counted(cfg, w, Run(task, ending), slot)
  {
    CreatedCounts(cfg, w, task);
  }

  lemma CreatedCounts(cfg: Config, w: World, task: nat)
    requires task < |w.tasks|
    ensures
      var v, own := RunCreated(cfg, w, task), w.tasks[task].slot;
      && task < |v.tasks| && v.raises == w.raises
      && v.calls == if v.tasks[task].state == InThread then w.calls[own := Count(w.calls, own) + 1] else w.calls
  {
    AwaitingIsNoStart(w, task);
    var slot := w.tasks[task].slot;
    if slot == AppInit || slot == UserInit {
      if w.core.closed {} else {}
    } else {
      match BeginResolve(cfg, w.core, slot) {
        case Fails(error) => assert RunCreated(cfg, w, task) == SetState(w, task, Failed(error));
        case Gives(creds) =>
        case Threads =>
        case Asks => assert RunCreated(cfg, w, task) == AwaitChild(w, task);
      }
    }
  }

  lemma AwaitingIsNoStart(w: World, task: nat)
    requires task < |w.tasks|
    ensures
      var v := AwaitChild(w, task);
      v.calls == w.calls && v.raises == w.raises && task < |v.tasks| && v.tasks[task].state.Awaiting?
  {
  }

  lemma RunCounts(cfg: Config, w: World, task: nat, ending: Ending, slot: Slot)
    requires Enabled(w, Run(task, ending)) && w.tasks[task].state != Created
    ensures Counted(cfg, w, Run(task, ending), slot)
  {
  }

  lemma StepCounts(cfg: Config, w: World, act: Action, slot: Slot)
    ensures Counted(cfg, w, act, slot)
  {
    if !act.Run? {
      OthersCount(cfg, w, act);
    } else if Enabled(w, act) {
      if w.tasks[act.task].state == Created {
        StartCounts(cfg, w, act.task, act.ending, slot);
      } else {
        RunCounts(cfg, w, act.task, act.ending, slot);
      }
    }
  }

  lemma OthersCount(cfg: Config, w: World, act: Action)
    requires !act.Run?
    ensures Do(cfg, w, act).calls == w.calls && Do(cfg, w, act).raises == w.raises
  {
  }

  lemma {:induction false} CallsAreCounted(cfg: Config, acts: seq<Action>, slot: Slot)
    ensures Count(After(cfg, acts).calls, slot) == Starts(cfg, acts, slot)
    ensures Count(After(cfg, acts).raises, slot) == Raised(cfg, acts, slot)
  {
    if acts != [] {
      CallsAreCounted(cfg, acts[..|acts| - 1], slot);
      StepCounts(cfg, After(cfg, acts[..|acts| - 1]), acts[|acts| - 1], slot);
    }
  }

  /** The provider of an identity starts once, and once more for every time it raised. */
  lemma ProvidersStartOnce(cfg: Config, acts: seq<Action>, slot: Slot)
    ensures Starts(cfg, acts, slot) <= Raised(cfg, acts, slot) + 1
  {
    CallsAreCounted(cfg, acts, slot);
    ProvidersAreCalledOnce(cfg, acts, slot);
  }
}
