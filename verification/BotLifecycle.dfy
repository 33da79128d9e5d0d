/**
 Single-flight initialization and terminal close of Bot, src/chattice/client/bot.py.

 Core holds the fields of the bot; the class Bot is the code between awaits that changes them.
 World adds the event loop: the shared tasks, the callers that wait for them, and one close.
 */
module BotLifecycle {
  import opened Options

  type Cred = nat

  /** The injected transport, or one a client construction made. */
  datatype Transport = Injected | Made(serial: nat)

  datatype Client = Client(transport: Transport)

  /** The four shared tasks: _credential_task, _user_credential_task, _init_task, _user_init_task. */
  datatype Slot = AppCreds | UserCreds | AppInit | UserInit

  /** ChatAPIError, or any other exception. */
  datatype Failure = ChatApi | OtherError

  /** user: the credentials _classify calls USER. */
  datatype Config = Config(
    provider: bool, credentials: Option<Cred>, userProvider: bool, injected: bool, user: set<Cred>)

  /** resolved, resolvedUser: None until the _resolved_set flag of that identity is up. */
  datatype Core = Core(
    closed: bool, client: Option<Client>, userClient: Option<Client>,
    resolved: Option<Option<Cred>>, resolvedUser: Option<Option<Cred>>,
    slots: map<Slot, nat>)

  function InitCore(): Core {
    Core(false, None, None, None, None, map[])
  }

  // ------------------------------------------------------------------ code between awaits

  function Joined(c: Core, slot: Slot, next: nat): Core {
    if slot in c.slots then c else c.(slots := c.slots[slot := next])
  }

  /** The waiter that sees the task's failure drops it, if it is still the current one. */
  function Forgotten(c: Core, slot: Slot, task: nat): Core {
    if slot in c.slots && c.slots[slot] == task then c.(slots := c.slots - {slot}) else c
  }

  function ClientFor(cfg: Config, serial: nat): Client {
    Client(if cfg.injected then Injected else Made(serial))
  }

  function WithClient(c: Core, slot: Slot, client: Client): Core
    requires slot == AppInit || slot == UserInit
  {
    if slot == AppInit then c.(client := Some(client)) else c.(userClient := Some(client))
  }

  /** The end of _initialize_client and _initialize_user_client, once credentials are there.
      sdk: how the SDK client constructor behaves. */
  function BuildResult(cfg: Config, c: Core, slot: Slot, creds: Option<Cred>, sdk: Option<Failure>): Option<Failure> {
    if slot == UserInit && creds == None then Some(OtherError)
    else if c.closed then Some(ChatApi)
    else if slot == AppInit && !cfg.injected && creds == None then Some(ChatApi)
    else sdk
  }

  /** What the credential task of an identity does first. */
  datatype Begin = Fails(error: Failure) | Gives(creds: Option<Cred>) | Threads | Asks

  function BeginResolve(cfg: Config, c: Core, slot: Slot): Begin
    requires slot == AppCreds || slot == UserCreds
  {
    if c.closed then Fails(ChatApi)
    else if slot == AppCreds then
      if c.resolved.Some? then Gives(c.resolved.value)
      else if cfg.provider then Threads
      else Gives(cfg.credentials)
    else if c.resolvedUser.Some? then Gives(c.resolvedUser.value)
    else if cfg.userProvider then Threads
    else Asks
  }

  function WithCreds(c: Core, slot: Slot, creds: Option<Cred>): Core {
    if slot == AppCreds then c.(resolved := Some(creds)) else c.(resolvedUser := Some(creds))
  }

  function UserOf(cfg: Config, creds: Option<Cred>): Option<Cred> {
    if creds.Some? && creds.value in cfg.user then creds else None
  }

  function Add(transports: seq<Transport>, client: Option<Client>): seq<Transport> {
    if client.Some? && client.value.transport !in transports then transports + [client.value.transport] else transports
  }

  /** The distinct transports of the published clients, APP first. */
  function Transports(c: Core): (r: seq<Transport>)
    ensures forall i, j | 0 <= i < j < |r| :: r[i] != r[j]
    ensures forall t :: t in r <==>
      (c.client.Some? && c.client.value.transport == t) || (c.userClient.Some? && c.userClient.value.transport == t)
  {
    Add(Add([], c.client), c.userClient)
  }

  /** The transports whose close is called: in order, up to the first that fails. */
  function ClosedUpTo(todo: seq<Transport>, failing: set<Transport>): seq<Transport> {
    if todo == [] then []
    else if todo[0] in failing then [todo[0]]
    else [todo[0]] + ClosedUpTo(todo[1..], failing)
  }

  predicate SomeFails(todo: seq<Transport>, failing: set<Transport>) {
    exists t :: t in todo && t in failing
  }

  lemma {:induction false} ClosedUpToNext(
    done: seq<Transport>, t: Transport, todo: seq<Transport>, failing: set<Transport>)
    requires !SomeFails(done, failing)
    ensures t in failing ==> ClosedUpTo(done + [t] + todo, failing) == done + [t]
    ensures todo == [] ==> ClosedUpTo(done, failing) == done
  {
    if done != [] {
      assert !SomeFails(done[1..], failing);
      ClosedUpToNext(done[1..], t, todo, failing);
      assert (done + [t] + todo)[1..] == done[1..] + [t] + todo;
    } else {
      assert done + [t] + todo == [t] + todo;
    }
  }

  function One(c: Core, slot: Slot): seq<nat> {
    if slot in c.slots then [c.slots[slot]] else []
  }

  /** The tasks close() waits for, in its order. */
  function InFlight(c: Core): seq<nat> {
    One(c, AppCreds) + (One(c, UserCreds) + (One(c, AppInit) + One(c, UserInit)))
  }

  class Bot {
    const cfg: Config
    var closed: bool
    var client: Option<Client>
    var userClient: Option<Client>
    var resolved: Option<Option<Cred>>
    var resolvedUser: Option<Option<Cred>>
    var slots: map<Slot, nat>

    ghost function View(): Core
      reads this
    {
      Core(closed, client, userClient, resolved, resolvedUser, slots)
    }

    constructor (cfg: Config)
      ensures View() == InitCore() && this.cfg == cfg
    {
      this.cfg := cfg;
      closed, client, userClient, resolved, resolvedUser, slots := false, None, None, None, None, map[];
    }

    /** The single-flight entry shared by the four async getters. */
    method Join(slot: Slot, next: nat) returns (task: nat)
      modifies this
      ensures View() == Joined(old(View()), slot, next)
      ensures task == Joined(old(View()), slot, next).slots[slot]
    {
      if slot !in slots {
        slots := slots[slot := next];
      }
      return slots[slot];
    }

    /** Their except branch. */
    method ForgetFailed(slot: Slot, task: nat)
      modifies this
      ensures View() == Forgotten(old(View()), slot, task)
    {
      if slot in slots && slots[slot] == task {
        slots := slots - {slot};
      }
    }

    /** The start of the two credential tasks: answer at once, run the provider in a thread, or
        wait for the other identity's credentials. */
    method StartResolve(slot: Slot) returns (begin: Begin)
      requires slot == AppCreds || slot == UserCreds
      modifies this
      ensures begin == BeginResolve(cfg, old(View()), slot)
      ensures View() == if begin.Gives? then WithCreds(old(View()), slot, begin.creds) else old(View())
    {
      if closed { return Fails(ChatApi); }
      if slot == AppCreds {
        if resolved.Some? { return Gives(resolved.value); }
        if cfg.provider { return Threads; }
        resolved := Some(cfg.credentials);
        return Gives(cfg.credentials);
      }
      if resolvedUser.Some? { return Gives(resolvedUser.value); }
      return if cfg.userProvider then Threads else Asks;
    }

    /** The end of a credential task whose provider has answered. */
    method FinishThread(slot: Slot, creds: Option<Cred>)
      requires slot == AppCreds || slot == UserCreds
      modifies this
      ensures View() == WithCreds(old(View()), slot, creds)
    {
      if slot == AppCreds { resolved := Some(creds); } else { resolvedUser := Some(creds); }
    }

    /** The end of the USER credential task that asked for the single credential. */
    method FinishAsk(single: Option<Cred>) returns (own: Option<Cred>)
      modifies this
      ensures own == UserOf(cfg, single)
      ensures View() == WithCreds(old(View()), UserCreds, own)
    {
      own := None;
      if single.Some? && single.value in cfg.user { own := single; }
      resolvedUser := Some(own);
    }

    method Build(slot: Slot, creds: Option<Cred>, sdk: Option<Failure>, serial: nat) returns (r: Option<Failure>)
      requires slot == AppInit || slot == UserInit
      modifies this
      ensures r == BuildResult(cfg, old(View()), slot, creds, sdk)
      ensures View() == if r == None then WithClient(old(View()), slot, ClientFor(cfg, serial)) else old(View())
    {
      if slot == UserInit && creds == None { return Some(OtherError); }
      if closed { return Some(ChatApi); }
      if slot == AppInit && !cfg.injected && creds == None { return Some(ChatApi); }
      if sdk != None { return sdk; }
      var built := Client(if cfg.injected then Injected else Made(serial));
      if slot == AppInit { client := Some(built); } else { userClient := Some(built); }
      return None;
    }

    /** The first half of close(): nothing for a second caller. */
    method BeginClose() returns (first: bool, tasks: seq<nat>)
      modifies this
      ensures first == !old(closed) && View() == old(View()).(closed := true)
      ensures tasks == if first then InFlight(old(View())) else []
    {
      first := !closed;
      if !first { return false, []; }
      closed := true;
      tasks := [];
      assert InFlight(View()) ==
        One(View(), AppCreds) + (One(View(), UserCreds) + (One(View(), AppInit) + One(View(), UserInit)));
      if AppCreds in slots { tasks := tasks + [slots[AppCreds]]; }
      if UserCreds in slots { tasks := tasks + [slots[UserCreds]]; }
      if AppInit in slots { tasks := tasks + [slots[AppInit]]; }
      if UserInit in slots { tasks := tasks + [slots[UserInit]]; }
    }

    /** The second half: close each distinct transport once, stop at the first that fails. */
    method CloseTransports(failing: set<Transport>) returns (done: seq<Transport>, raised: bool)
      ensures done == ClosedUpTo(Transports(View()), failing)
      ensures raised <==> SomeFails(Transports(View()), failing)
    {
      var clients := [client, userClient];
      assert Transports(View()) == Add(Add([], client), userClient);
      done := [];
      raised := false;
      for i := 0 to 2
        invariant clients == [client, userClient]
        invariant done == if i == 0 then [] else if i == 1 then Add([], client) else Transports(View())
        invariant !SomeFails(done, failing)
      {
        var c := clients[i];
        if c.Some? && c.value.transport !in done {
          if c.value.transport in failing {
            ghost var todo := Transports(View())[|done| + 1..];
            assert Transports(View()) == done + [c.value.transport] + todo;
            ClosedUpToNext(done, c.value.transport, todo, failing);
            return done + [c.value.transport], true;
          }
          done := done + [c.value.transport];
        }
      }
      ClosedUpToNext(done, Injected, [], failing);
    }
  }

  // ------------------------------------------------------------------ the event loop

  datatype TaskState =
    | Created
    | InThread                       // the provider runs in a worker thread
    | Awaiting(child: nat)
    | Resolved(creds: Option<Cred>)
    | Built
    | Failed(error: Failure)

  datatype Task = Task(slot: Slot, state: TaskState)

  datatype Closing =
    | NotBegun
    | Joining(todo: seq<nat>)
    | Shutting(left: seq<Transport>)
    | Returned
    | Aborted

  datatype World = World(
    core: Core,
    tasks: seq<Task>,                 // a task is its position
    callers: map<nat, nat>,           // who waits for which task
    published: seq<(Slot, Client)>,   // every client ever stored, in order
    frozen: Core,                     // the bot when close began
    closes: seq<Transport>,           // transports whose close was called, in order
    closing: Closing,
    calls: map<Slot, nat>,            // provider calls begun, by identity
    raises: map<Slot, nat>)           // provider calls that raised

  /** How a thread, an SDK constructor or a transport's close ends. */
  datatype Ending = Yields(creds: Option<Cred>) | Raises(error: Failure)

  datatype Action =
    | Call(caller: nat, slot: Slot)
    | Wake(caller: nat)
    | CancelCaller(caller: nat)
    | Run(task: nat, ending: Ending)
    | Close
    | CloseStep(ending: Ending)

  function Init(): World {
    World(InitCore(), [], map[], [], InitCore(), [], NotBegun, map[], map[])
  }

  predicate Ended(s: TaskState) {
    s.Resolved? || s.Built? || s.Failed?
  }

  function Count(m: map<Slot, nat>, slot: Slot): nat {
    if slot in m then m[slot] else 0
  }

  /** Join the slot's task, making it if there is none. */
  function JoinTask(w: World, slot: Slot): World {
    w.(core := Joined(w.core, slot, |w.tasks|),
       tasks := if slot in w.core.slots then w.tasks else w.tasks + [Task(slot, Created)])
  }

  function SetState(w: World, task: nat, s: TaskState): World
    requires task < |w.tasks|
  {
    w.(tasks := w.tasks[task := w.tasks[task].(state := s)])
  }

  function ChildSlot(slot: Slot): Slot {
    match slot
    case AppInit => AppCreds
    case UserInit => UserCreds
    case _ => AppCreds
  }

  /** A task starts waiting for the task below it. */
  function AwaitChild(w: World, task: nat): World
    requires task < |w.tasks|
  {
    var slot := ChildSlot(w.tasks[task].slot);
    var j := JoinTask(w, slot);
    SetState(j, task, Awaiting(j.core.slots[slot]))
  }

  function RunCreated(cfg: Config, w: World, task: nat): World
    requires task < |w.tasks|
  {
    var slot := w.tasks[task].slot;
    if slot == AppInit || slot == UserInit then
      if w.core.closed then SetState(w, task, Failed(ChatApi)) else AwaitChild(w, task)
    else
      match BeginResolve(cfg, w.core, slot)
      case Fails(error) => SetState(w, task, Failed(error))
      case Gives(creds) => SetState(w.(core := WithCreds(w.core, slot, creds)), task, Resolved(creds))
      case Threads => SetState(w.(calls := w.calls[slot := Count(w.calls, slot) + 1]), task, InThread)
      case Asks => AwaitChild(w, task)
  }

  function RunThread(w: World, task: nat, ending: Ending): World
    requires task < |w.tasks|
  {
    var slot := w.tasks[task].slot;
    match ending
    case Yields(creds) => SetState(w.(core := WithCreds(w.core, slot, creds)), task, Resolved(creds))
    case Raises(error) => SetState(w.(raises := w.raises[slot := Count(w.raises, slot) + 1]), task, Failed(error))
  }

  /** The task below has ended. */
  function RunAwaiting(cfg: Config, w: World, task: nat, child: nat, ending: Ending): World
    requires task < |w.tasks| && child < |w.tasks|
  {
    var slot := w.tasks[task].slot;
    match w.tasks[child].state
    case Failed(error) =>
      SetState(w.(core := Forgotten(w.core, ChildSlot(slot), child)), task, Failed(error))
    case Resolved(creds) =>
      if slot == AppInit || slot == UserInit then
        var sdk := if ending.Raises? then Some(ending.error) else None;
        var client := ClientFor(cfg, |w.published|);
        match BuildResult(cfg, w.core, slot, creds, sdk)
        case Some(error) => SetState(w, task, Failed(error))
        case None =>
          var core := WithClient(w.core, slot, client);
          SetState(w.(core := core, published := w.published + [(slot, client)]), task, Built)
      else
        var own := UserOf(cfg, creds);
        SetState(w.(core := WithCreds(w.core, slot, own)), task, Resolved(own))
    case _ => w
  }

  function CloseMore(w: World, ending: Ending): World {
    match w.closing
    case Joining(todo) =>
      if todo == [] then w.(closing := Shutting(Transports(w.core)))
      else if ending.Raises? then w.(closing := Aborted)       // close() itself is cancelled
      else if todo[0] < |w.tasks| && w.tasks[todo[0]].state == Failed(OtherError) then w.(closing := Aborted)
      else w.(closing := Joining(todo[1..]))
    case Shutting(todo) =>
      if todo == [] then w.(closing := Returned)
      else w.(closes := w.closes + [todo[0]], closing := if ending.Raises? then Aborted else Shutting(todo[1..]))
    case _ => w
  }

  /** The steps of a close that nobody cancels, from the first transport on. */
  function DriveClosing(w: World, failing: set<Transport>): World
    decreases if w.closing.Shutting? then |w.closing.left| + 1 else 0
  {
    match w.closing
    case Shutting(todo) =>
      var fails := todo != [] && todo[0] in failing;
      DriveClosing(CloseMore(w, if fails then Raises(OtherError) else Yields(None)), failing)
    case _ => w
  }

  /** Those steps close the transports that Bot.CloseTransports closes, and end as it does. */
  lemma {:induction false} ClosingFollowsTheCode(w: World, failing: set<Transport>)
    requires w.closing.Shutting?
    ensures
      var v := DriveClosing(w, failing);
      && v.closes == w.closes + ClosedUpTo(w.closing.left, failing)
      && v.closing == (if SomeFails(w.closing.left, failing) then Aborted else Returned)
    decreases |w.closing.left|
  {
    var todo := w.closing.left;
    if todo == [] {
      assert DriveClosing(w, failing) == w.(closing := Returned);
    } else if todo[0] in failing {
      var v := CloseMore(w, Raises(OtherError));
      assert DriveClosing(w, failing) == v;
    } else {
      var v := CloseMore(w, Yields(None));
      ClosingFollowsTheCode(v, failing);
      assert SomeFails(todo, failing) <==> SomeFails(todo[1..], failing);
      assert v.closes + ClosedUpTo(todo[1..], failing) == w.closes + ClosedUpTo(todo, failing);
    }
  }

  predicate Enabled(w: World, act: Action) {
    match act
    case Call(caller, slot) => caller !in w.callers
    case Wake(caller) => caller in w.callers && w.callers[caller] < |w.tasks| && Ended(w.tasks[w.callers[caller]].state)
    case CancelCaller(caller) => caller in w.callers
    case Run(task, _) =>
      task < |w.tasks| && !Ended(w.tasks[task].state)
      && (w.tasks[task].state.Awaiting? ==>
            w.tasks[task].state.child < |w.tasks| && Ended(w.tasks[w.tasks[task].state.child].state))
    case Close => true
    case CloseStep(ending) =>
      match w.closing
      case Joining(todo) =>
        todo == [] || ending.Raises? || (todo[0] < |w.tasks| && Ended(w.tasks[todo[0]].state))
      case _ => true
  }

  function Do(cfg: Config, w: World, act: Action): World {
    if !Enabled(w, act) then w else
      match act
      case Call(caller, slot) =>
        // a cached client is returned at once, closed or not
        if (slot == AppInit && w.core.client.Some?) || (slot == UserInit && w.core.userClient.Some?) then w
        else var j := JoinTask(w, slot); j.(callers := j.callers[caller := j.core.slots[slot]])
      case Wake(caller) =>
        var task := w.callers[caller];
        var core := if w.tasks[task].state.Failed? then Forgotten(w.core, w.tasks[task].slot, task) else w.core;
        w.(core := core, callers := w.callers - {caller})
      case CancelCaller(caller) => w.(callers := w.callers - {caller})
      case Run(task, ending) =>
        (match w.tasks[task].state
         case Created => RunCreated(cfg, w, task)
         case InThread => RunThread(w, task, ending)
         case Awaiting(child) => RunAwaiting(cfg, w, task, child, ending)
         case _ => w)
      case Close =>
        if w.core.closed then w
        else w.(core := w.core.(closed := true), frozen := w.core, closing := Joining(InFlight(w.core)))
      case CloseStep(ending) => CloseMore(w, ending)
  }

  function After(cfg: Config, acts: seq<Action>): World {
    if acts == [] then Init() else Do(cfg, After(cfg, acts[..|acts| - 1]), acts[|acts| - 1])
  }

  // ------------------------------------------------------------------ the invariant

  predicate SlotInv(w: World, slot: Slot) {
    slot in w.core.slots ==> w.core.slots[slot] < |w.tasks| && w.tasks[w.core.slots[slot]].slot == slot
  }

  /** What a task in this state needs of the world around it. */
  predicate StateOk(w: World, slot: Slot, s: TaskState) {
    match s
    case Built => slot in {AppInit, UserInit}
    case Resolved(_) => slot in {AppCreds, UserCreds}
    case InThread => slot in {AppCreds, UserCreds}
    case Awaiting(child) =>
      && slot != AppCreds && child < |w.tasks|
      && w.tasks[child].slot == (if slot == UserInit then UserCreds else AppCreds)
      && (slot == UserCreds ==> w.core.resolvedUser == None)
    case _ => true
  }

  /** A task that has not ended is the current one of its slot, so there is one per slot. */
  predicate FlightInv(w: World) {
    && (forall slot: Slot :: SlotInv(w, slot))
    && (forall t | 0 <= t < |w.tasks| :: StateOk(w, w.tasks[t].slot, w.tasks[t].state))
    && (forall t | 0 <= t < |w.tasks| && !Ended(w.tasks[t].state) ::
          w.tasks[t].slot in w.core.slots && w.core.slots[w.tasks[t].slot] == t)
  }

  predicate Cached(w: World, slot: Slot) {
    match slot
    case AppInit => w.core.client.Some?
    case UserInit => w.core.userClient.Some?
    case AppCreds => w.core.resolved.Some?
    case UserCreds => w.core.resolvedUser.Some?
  }

  /** A cached client or credential stands with the task that made it. */
  predicate CacheInv(w: World) {
    forall slot: Slot | Cached(w, slot) ::
      && slot in w.core.slots && w.core.slots[slot] < |w.tasks|
      && Ended(w.tasks[w.core.slots[slot]].state) && !w.tasks[w.core.slots[slot]].state.Failed?
  }

  function PublishedFor(log: seq<(Slot, Client)>, slot: Slot): seq<Client> {
    if log == [] then [] else
      PublishedFor(log[..|log| - 1], slot) + if log[|log| - 1].0 == slot then [log[|log| - 1].1] else []
  }

  function AsSeq(c: Option<Client>): seq<Client> {
    if c.Some? then [c.value] else []
  }

  predicate PublishInv(w: World) {
    && PublishedFor(w.published, AppInit) == AsSeq(w.core.client)
    && PublishedFor(w.published, UserInit) == AsSeq(w.core.userClient)
  }

  /** The identity's provider is running, or has answered. */
  predicate Spent(w: World, slot: Slot) {
    || Cached(w, slot)
    || (slot in w.core.slots && w.core.slots[slot] < |w.tasks| && w.tasks[w.core.slots[slot]].state.InThread?)
  }

  /** Provider calls: every one beyond the first is paid for by one that raised. */
  predicate ProviderInv(w: World) {
    forall slot: Slot :: Count(w.calls, slot) <= Count(w.raises, slot) + (if Spent(w, slot) then 1 else 0)
  }

  predicate CloseInv(w: World) {
    && (w.core.closed <==> w.closing != NotBegun)
    && (w.core.closed ==> w.core.client == w.frozen.client && w.core.userClient == w.frozen.userClient)
    && (match w.closing
        case NotBegun => w.closes == []
        case Joining(todo) => w.closes == []
        case Shutting(todo) => w.closes + todo == Transports(w.core)
        case Returned => w.closes == Transports(w.core)
        case Aborted => w.closes <= Transports(w.core))
  }

  predicate Inv(w: World) {
    && FlightInv(w) && CacheInv(w) && PublishInv(w) && CloseInv(w)
    && ProviderInv(w)
  }

  // ------------------------------------------------------------------ preservation

  /** The parts of the world the close protocol looks at. */
  predicate SamePublic(w: World, v: World) {
    && v.core.client == w.core.client && v.core.userClient == w.core.userClient && v.core.closed == w.core.closed
    && v.published == w.published && v.frozen == w.frozen && v.closes == w.closes && v.closing == w.closing
  }

  lemma NewTaskKeepsCaches(w: World, slot: Slot)
    requires Inv(w) && slot !in w.core.slots
    ensures CacheInv(JoinTask(w, slot))
  {
  }

  lemma NewTaskKeepsFlight(w: World, slot: Slot)
    requires Inv(w) && slot !in w.core.slots
    ensures FlightInv(JoinTask(w, slot))
  {
    var v := JoinTask(w, slot);
    assert v.tasks == w.tasks + [Task(slot, Created)] && v.core.slots == w.core.slots[slot := |w.tasks|];
    forall s: Slot ensures SlotInv(v, s) { assert SlotInv(w, s); }
    forall t | 0 <= t < |v.tasks| ensures StateOk(v, v.tasks[t].slot, v.tasks[t].state) {
      if t < |w.tasks| { assert StateOk(w, w.tasks[t].slot, w.tasks[t].state); }
    }
  }

  lemma NewTaskKeepsProviders(w: World, slot: Slot)
    requires Inv(w) && slot !in w.core.slots
    ensures ProviderInv(JoinTask(w, slot))
  {
    var v := JoinTask(w, slot);
    forall s: Slot ensures Count(v.calls, s) <= Count(v.raises, s) + (if Spent(v, s) then 1 else 0) {
      assert SlotInv(w, s);
      assert Count(w.calls, s) <= Count(w.raises, s) + (if Spent(w, s) then 1 else 0);
    }
  }

  lemma JoinKeepsInv(w: World, slot: Slot)
    requires Inv(w)
    ensures Inv(JoinTask(w, slot)) && slot in JoinTask(w, slot).core.slots
    ensures SamePublic(w, JoinTask(w, slot))
  {
    if slot !in w.core.slots {
      NewTaskKeepsFlight(w, slot);
      NewTaskKeepsCaches(w, slot);
      NewTaskKeepsProviders(w, slot);
    }
  }

  lemma ForgetKeepsInv(w: World, slot: Slot, task: nat)
    requires Inv(w) && task < |w.tasks| && w.tasks[task].state.Failed?
    ensures Inv(w.(core := Forgotten(w.core, slot, task)))
    ensures SamePublic(w, w.(core := Forgotten(w.core, slot, task)))
  {
    var v := w.(core := Forgotten(w.core, slot, task));
    forall s: Slot ensures SlotInv(v, s) { assert SlotInv(w, s); }
    forall t | 0 <= t < |v.tasks| ensures StateOk(v, v.tasks[t].slot, v.tasks[t].state) {
      assert StateOk(w, w.tasks[t].slot, w.tasks[t].state);
    }
    forall s: Slot ensures Spent(w, s) ==> Spent(v, s) {
      assert SlotInv(w, s);
    }
  }

  /** A running task moves on; raises is the number of provider failures it brings. */
  lemma MoveKeepsInv(w: World, v: World, task: nat, s: TaskState)
    requires Inv(w) && task < |w.tasks| && !Ended(w.tasks[task].state)
    requires v.tasks == w.tasks[task := w.tasks[task].(state := s)] && SamePublic(w, v)
    requires v.core == w.core && StateOk(w, w.tasks[task].slot, s)
    requires forall slot: Slot :: Count(v.calls, slot) <= Count(w.calls, slot)
               + (if slot == w.tasks[task].slot && s.InThread? && !Spent(w, slot) then 1 else 0)
    requires forall slot: Slot :: Count(v.raises, slot) >= Count(w.raises, slot)
               + (if slot == w.tasks[task].slot && w.tasks[task].state.InThread? then 1 else 0)
    ensures Inv(v)
  {
    forall slot: Slot ensures SlotInv(v, slot) { assert SlotInv(w, slot); }
    forall t | 0 <= t < |v.tasks| ensures StateOk(v, v.tasks[t].slot, v.tasks[t].state) {
      assert StateOk(w, w.tasks[t].slot, w.tasks[t].state);
    }
    forall slot: Slot
      ensures Count(v.calls, slot) <= Count(v.raises, slot) + (if Spent(v, slot) then 1 else 0)
    {
      assert SlotInv(w, slot);
      assert Count(w.calls, slot) <= Count(w.raises, slot) + (if Spent(w, slot) then 1 else 0);
    }
  }

  /** A credential task ends well. */
  lemma ResolveKeepsInv(w: World, v: World, task: nat, creds: Option<Cred>)
    requires Inv(w) && task < |w.tasks| && !Ended(w.tasks[task].state) && w.tasks[task].slot in {AppCreds, UserCreds}
    requires v == SetState(w.(core := WithCreds(w.core, w.tasks[task].slot, creds)), task, Resolved(creds))
    ensures Inv(v)
  {
    forall slot: Slot ensures SlotInv(v, slot) { assert SlotInv(w, slot); }
    forall t | 0 <= t < |v.tasks| ensures StateOk(v, v.tasks[t].slot, v.tasks[t].state) {
      assert StateOk(w, w.tasks[t].slot, w.tasks[t].state);
    }
    forall slot: Slot
      ensures Count(v.calls, slot) <= Count(v.raises, slot) + (if Spent(v, slot) then 1 else 0)
    {
      assert SlotInv(w, slot);
      assert Count(w.calls, slot) <= Count(w.raises, slot) + (if Spent(w, slot) then 1 else 0);
    }
  }

  lemma PublishedAppend(log: seq<(Slot, Client)>, slot: Slot, c: Client, s: Slot)
    ensures PublishedFor(log + [(slot, c)], s) == PublishedFor(log, s) + if slot == s then [c] else []
  {
    assert (log + [(slot, c)])[..|log|] == log;
  }

  lemma BuildKeepsFlight(w: World, v: World, task: nat, client: Client)
    requires Inv(w) && task < |w.tasks| && !Ended(w.tasks[task].state) && w.tasks[task].slot in {AppInit, UserInit}
    requires v == SetState(w.(core := WithClient(w.core, w.tasks[task].slot, client),
                              published := w.published + [(w.tasks[task].slot, client)]), task, Built)
    ensures FlightInv(v)
  {
    forall slot: Slot ensures SlotInv(v, slot) { assert SlotInv(w, slot); }
    forall t | 0 <= t < |v.tasks| ensures StateOk(v, v.tasks[t].slot, v.tasks[t].state) {
      assert StateOk(w, w.tasks[t].slot, w.tasks[t].state);
    }
  }

  lemma BuildKeepsProviders(w: World, v: World, task: nat, client: Client)
    requires Inv(w) && task < |w.tasks| && !Ended(w.tasks[task].state) && w.tasks[task].slot in {AppInit, UserInit}
    requires v == SetState(w.(core := WithClient(w.core, w.tasks[task].slot, client),
                              published := w.published + [(w.tasks[task].slot, client)]), task, Built)
    ensures ProviderInv(v)
  {
    forall slot: Slot
      ensures Count(v.calls, slot) <= Count(v.raises, slot) + (if Spent(v, slot) then 1 else 0)
    {
      assert SlotInv(w, slot);
      assert Count(w.calls, slot) <= Count(w.raises, slot) + (if Spent(w, slot) then 1 else 0);
    }
  }

  lemma BuildKeepsCaches(w: World, v: World, task: nat, client: Client)
    requires Inv(w) && task < |w.tasks| && !Ended(w.tasks[task].state) && w.tasks[task].slot in {AppInit, UserInit}
    requires v == SetState(w.(core := WithClient(w.core, w.tasks[task].slot, client),
                              published := w.published + [(w.tasks[task].slot, client)]), task, Built)
    ensures CacheInv(v)
  {
    assert SlotInv(w, w.tasks[task].slot);
  }

  /** An initialization ends well: it publishes, and nothing was published before. */
  lemma BuildKeepsInv(w: World, v: World, task: nat, client: Client)
    requires Inv(w) && task < |w.tasks| && !Ended(w.tasks[task].state) && w.tasks[task].slot in {AppInit, UserInit}
    requires !w.core.closed
    requires v == SetState(w.(core := WithClient(w.core, w.tasks[task].slot, client),
                              published := w.published + [(w.tasks[task].slot, client)]), task, Built)
    ensures Inv(v)
  {
    var mine := w.tasks[task].slot;
    assert !Cached(w, mine);
    PublishedAppend(w.published, mine, client, AppInit);
    PublishedAppend(w.published, mine, client, UserInit);
    BuildKeepsFlight(w, v, task, client);
    BuildKeepsProviders(w, v, task, client);
    BuildKeepsCaches(w, v, task, client);
  }

  lemma AwaitKeepsInv(w: World, task: nat)
    requires Inv(w) && task < |w.tasks| && w.tasks[task].state == Created && w.tasks[task].slot != AppCreds
    requires w.tasks[task].slot == UserCreds ==> w.core.resolvedUser == None
    ensures Inv(AwaitChild(w, task))
  {
    var slot := ChildSlot(w.tasks[task].slot);
    JoinKeepsInv(w, slot);
    var j := JoinTask(w, slot);
    assert SlotInv(j, slot);
    MoveKeepsInv(j, AwaitChild(w, task), task, Awaiting(j.core.slots[slot]));
  }

  lemma ResolvingKeepsInv(cfg: Config, w: World, task: nat)
    requires Inv(w) && task < |w.tasks| && w.tasks[task].state == Created
    requires w.tasks[task].slot == AppCreds || w.tasks[task].slot == UserCreds
    ensures Inv(RunCreated(cfg, w, task))
  {
    var slot, v := w.tasks[task].slot, RunCreated(cfg, w, task);
    match BeginResolve(cfg, w.core, slot) {
      case Fails(error) => MoveKeepsInv(w, v, task, Failed(error));
      case Gives(creds) => ResolveKeepsInv(w, v, task, creds);
      case Threads => assert SlotInv(w, slot); MoveKeepsInv(w, v, task, InThread);
      case Asks => AwaitKeepsInv(w, task);
    }
  }

  lemma StartKeepsInv(cfg: Config, w: World, task: nat)
    requires Inv(w) && task < |w.tasks| && w.tasks[task].state == Created
    ensures Inv(RunCreated(cfg, w, task))
  {
    if w.tasks[task].slot == AppCreds || w.tasks[task].slot == UserCreds {
      ResolvingKeepsInv(cfg, w, task);
    } else if w.core.closed {
      MoveKeepsInv(w, RunCreated(cfg, w, task), task, Failed(ChatApi));
    } else {
      AwaitKeepsInv(w, task);
    }
  }

  lemma ThreadKeepsInv(w: World, task: nat, ending: Ending)
    requires Inv(w) && task < |w.tasks| && w.tasks[task].state == InThread
    ensures Inv(RunThread(w, task, ending))
  {
    assert StateOk(w, w.tasks[task].slot, InThread);
    match ending {
      case Yields(creds) => ResolveKeepsInv(w, RunThread(w, task, ending), task, creds);
      case Raises(error) => MoveKeepsInv(w, RunThread(w, task, ending), task, Failed(error));
    }
  }

  lemma ChildFailedKeepsInv(cfg: Config, w: World, task: nat, child: nat, ending: Ending)
    requires Inv(w) && task < |w.tasks| && child < |w.tasks| && w.tasks[task].state == Awaiting(child)
    requires w.tasks[child].state.Failed?
    ensures Inv(RunAwaiting(cfg, w, task, child, ending))
  {
    var slot, error := ChildSlot(w.tasks[task].slot), w.tasks[child].state.error;
    ForgetKeepsInv(w, slot, child);
    MoveKeepsInv(w.(core := Forgotten(w.core, slot, child)), RunAwaiting(cfg, w, task, child, ending), task,
      Failed(error));
  }

  lemma CredentialsKeepInv(cfg: Config, w: World, task: nat, child: nat, ending: Ending)
    requires Inv(w) && task < |w.tasks| && child < |w.tasks| && w.tasks[task].state == Awaiting(child)
    requires w.tasks[child].state.Resolved? && (w.tasks[task].slot == AppInit || w.tasks[task].slot == UserInit)
    ensures Inv(RunAwaiting(cfg, w, task, child, ending))
  {
    var v := RunAwaiting(cfg, w, task, child, ending);
    var sdk := if ending.Raises? then Some(ending.error) else None;
    match BuildResult(cfg, w.core, w.tasks[task].slot, w.tasks[child].state.creds, sdk) {
      case Some(error) => MoveKeepsInv(w, v, task, Failed(error));
      case None => BuildKeepsInv(w, v, task, ClientFor(cfg, |w.published|));
    }
  }

  lemma AwaitedKeepsInv(cfg: Config, w: World, task: nat, ending: Ending)
    requires Inv(w) && Enabled(w, Run(task, ending)) && w.tasks[task].state.Awaiting?
    ensures Inv(RunAwaiting(cfg, w, task, w.tasks[task].state.child, ending))
  {
    var slot, child := w.tasks[task].slot, w.tasks[task].state.child;
    assert StateOk(w, slot, w.tasks[task].state) && StateOk(w, w.tasks[child].slot, w.tasks[child].state);
    match w.tasks[child].state {
      case Failed(_) => ChildFailedKeepsInv(cfg, w, task, child, ending);
      case Resolved(creds) =>
        if slot == AppInit || slot == UserInit {
          CredentialsKeepInv(cfg, w, task, child, ending);
        } else {
          ResolveKeepsInv(w, RunAwaiting(cfg, w, task, child, ending), task, UserOf(cfg, creds));
        }
      case _ =>
    }
  }

  /** Callers coming and going, and close moving on, touch no task. */
  lemma BystandersKeepInv(w: World, v: World)
    requires Inv(w) && CloseInv(v)
    requires v.tasks == w.tasks && v.published == w.published && v.calls == w.calls && v.raises == w.raises
    requires v.core == w.core.(closed := v.core.closed)
    ensures Inv(v)
  {
    forall slot: Slot ensures SlotInv(v, slot) { assert SlotInv(w, slot); }
    forall t | 0 <= t < |v.tasks| ensures StateOk(v, v.tasks[t].slot, v.tasks[t].state) {
      assert StateOk(w, w.tasks[t].slot, w.tasks[t].state);
    }
    forall slot: Slot ensures Count(v.calls, slot) <= Count(v.raises, slot) + (if Spent(v, slot) then 1 else 0) {
      assert Count(w.calls, slot) <= Count(w.raises, slot) + (if Spent(w, slot) then 1 else 0);
      assert Spent(w, slot) ==> Spent(v, slot);
    }
  }

  lemma CallerKeepsInv(cfg: Config, w: World, act: Action)
    requires Inv(w) && Enabled(w, act) && (act.Call? || act.Wake? || act.CancelCaller?)
    ensures Inv(Do(cfg, w, act))
  {
    var v := Do(cfg, w, act);
    match act {
      case Call(_, slot) =>
        if v != w { JoinKeepsInv(w, slot); BystandersKeepInv(JoinTask(w, slot), v); }
      case Wake(caller) =>
        var task := w.callers[caller];
        if w.tasks[task].state.Failed? {
          ForgetKeepsInv(w, w.tasks[task].slot, task);
          BystandersKeepInv(w.(core := Forgotten(w.core, w.tasks[task].slot, task)), v);
        } else {
          BystandersKeepInv(w, v);
        }
      case CancelCaller(_) => BystandersKeepInv(w, v);
    }
  }

  lemma CloseMoreKeepsInv(w: World, ending: Ending)
    requires Inv(w)
    ensures CloseInv(CloseMore(w, ending))
  {
    if w.closing.Shutting? && w.closing.left != [] {
      NextClose(w.closes, w.closing.left, Transports(w.core));
    }
  }

  lemma NextClose(closes: seq<Transport>, left: seq<Transport>, all: seq<Transport>)
    requires closes + left == all && left != []
    ensures (closes + [left[0]]) + left[1..] == all && closes + [left[0]] <= all
  {
  }

  lemma BeginCloseKeepsInv(cfg: Config, w: World)
    requires Inv(w)
    ensures CloseInv(Do(cfg, w, Close))
  {
  }

  /** A step of close touches no task. */
  lemma ClosingIsApart(w: World, ending: Ending)
    ensures var v := CloseMore(w, ending); v == w.(closing := v.closing, closes := v.closes)
  {
  }

  lemma CloseKeepsInv(cfg: Config, w: World, act: Action)
    requires Inv(w) && Enabled(w, act) && (act.Close? || act.CloseStep?)
    ensures Inv(Do(cfg, w, act))
  {
    if act.Close? {
      BeginCloseKeepsInv(cfg, w);
      BystandersKeepInv(w, Do(cfg, w, Close));
    } else {
      CloseMoreKeepsInv(w, act.ending);
      ClosingIsApart(w, act.ending);
      BystandersKeepInv(w, CloseMore(w, act.ending));
    }
  }

  lemma RunKeepsInv(cfg: Config, w: World, task: nat, ending: Ending)
    requires Inv(w) && Enabled(w, Run(task, ending))
    ensures Inv(Do(cfg, w, Run(task, ending)))
  {
    match w.tasks[task].state {
      case Created => StartKeepsInv(cfg, w, task);
      case InThread => ThreadKeepsInv(w, task, ending);
      case Awaiting(_) => AwaitedKeepsInv(cfg, w, task, ending);
      case _ =>
    }
  }

  lemma StepKeepsInv(cfg: Config, w: World, act: Action)
    requires Inv(w)
    ensures Inv(Do(cfg, w, act))
  {
    if Enabled(w, act) {
      match act {
        case Call(_, _) => CallerKeepsInv(cfg, w, act);
        case Wake(_) => CallerKeepsInv(cfg, w, act);
        case CancelCaller(_) => CallerKeepsInv(cfg, w, act);
        case Run(task, ending) => RunKeepsInv(cfg, w, task, ending);
        case Close => CloseKeepsInv(cfg, w, act);
        case CloseStep(_) => CloseKeepsInv(cfg, w, act);
      }
    }
  }

  lemma {:induction false} RunsKeepInv(cfg: Config, acts: seq<Action>)
    ensures Inv(After(cfg, acts))
  {
    if acts != [] {
      RunsKeepInv(cfg, acts[..|acts| - 1]);
      StepKeepsInv(cfg, After(cfg, acts[..|acts| - 1]), acts[|acts| - 1]);
    }
  }

  // ------------------------------------------------------------------ what every run keeps

  /** At most one client per identity is ever published, it stays the published one, and none
      is published once close has begun. */
  lemma ClientsArePublishedOnce(cfg: Config, acts: seq<Action>)
    ensures
      var w := After(cfg, acts);
      && PublishedFor(w.published, AppInit) == AsSeq(w.core.client)
      && PublishedFor(w.published, UserInit) == AsSeq(w.core.userClient)
      && (w.core.closed ==> w.core.client == w.frozen.client && w.core.userClient == w.frozen.userClient)
  {
    RunsKeepInv(cfg, acts);
  }

  /** The provider of an identity is called once, and once more for every call that raised. */
  lemma ProvidersAreCalledOnce(cfg: Config, acts: seq<Action>, slot: Slot)
    ensures var w := After(cfg, acts); Count(w.calls, slot) <= Count(w.raises, slot) + 1
    ensures
      var w := After(cfg, acts);
      forall s, t | 0 <= s < |w.tasks| && 0 <= t < |w.tasks| && !Ended(w.tasks[s].state) && !Ended(w.tasks[t].state)
                    && w.tasks[s].slot == w.tasks[t].slot :: s == t
  {
    RunsKeepInv(cfg, acts);
    var w := After(cfg, acts);
    assert Count(w.calls, slot) <= Count(w.raises, slot) + (if Spent(w, slot) then 1 else 0);
  }

  lemma PublishedTransports(log: seq<(Slot, Client)>)
    requires forall i | 0 <= i < |log| :: log[i].0 in {AppInit, UserInit}
    ensures forall i | 0 <= i < |log| :: log[i].1 in PublishedFor(log, log[i].0)
  {
    if log != [] {
      PublishedTransports(log[..|log| - 1]);
      forall i | 0 <= i < |log| ensures log[i].1 in PublishedFor(log, log[i].0) {
        if i < |log| - 1 { assert log[..|log| - 1][i] == log[i]; }
      }
    }
  }

  predicate PublishedByInits(w: World) {
    forall i | 0 <= i < |w.published| :: w.published[i].0 in {AppInit, UserInit}
  }

  lemma StepPublishesByInits(cfg: Config, w: World, act: Action)
    requires PublishedByInits(w)
    ensures PublishedByInits(Do(cfg, w, act))
  {
    if Enabled(w, act) && act.Run? {
      match w.tasks[act.task].state {
        case Created =>
        case InThread =>
        case Awaiting(child) => AwaitedPublishesByInits(cfg, w, act.task, child, act.ending);
        case _ =>
      }
    }
  }

  lemma AwaitedPublishesByInits(cfg: Config, w: World, task: nat, child: nat, ending: Ending)
    requires PublishedByInits(w) && task < |w.tasks| && child < |w.tasks|
    ensures PublishedByInits(RunAwaiting(cfg, w, task, child, ending))
  {
    var v := RunAwaiting(cfg, w, task, child, ending);
    if v.published != w.published {
      assert w.tasks[task].slot in {AppInit, UserInit};
    }
  }

  lemma {:induction false} RunsPublishByInits(cfg: Config, acts: seq<Action>)
    ensures PublishedByInits(After(cfg, acts))
  {
    if acts != [] {
      RunsPublishByInits(cfg, acts[..|acts| - 1]);
      StepPublishesByInits(cfg, After(cfg, acts[..|acts| - 1]), acts[|acts| - 1]);
    }
  }

  /** When the first close() has returned, the transport of every client ever published has been
      closed, each distinct one exactly once, and nothing else has; and that stays so. */
  lemma CloseClosesEverythingOnce(cfg: Config, acts: seq<Action>)
    requires After(cfg, acts).closing == Returned
    ensures
      var w := After(cfg, acts);
      && (forall i, j | 0 <= i < j < |w.closes| :: w.closes[i] != w.closes[j])
      && (forall i | 0 <= i < |w.published| :: w.published[i].1.transport in w.closes)
      && (forall t | t in w.closes :: exists i | 0 <= i < |w.published| :: w.published[i].1.transport == t)
  {
    RunsKeepInv(cfg, acts);
    RunsPublishByInits(cfg, acts);
    var w := After(cfg, acts);
    PublishedTransports(w.published);
    forall i | 0 <= i < |w.published| ensures w.published[i].1.transport in w.closes {
      assert w.published[i].1 in PublishedFor(w.published, w.published[i].0);
    }
    forall t | t in w.closes ensures exists i | 0 <= i < |w.published| :: w.published[i].1.transport == t {
      TransportsArePublished(w, t);
    }
  }

  lemma TransportsArePublished(w: World, t: Transport)
    requires PublishInv(w) && t in Transports(w.core)
    ensures exists i | 0 <= i < |w.published| :: w.published[i].1.transport == t
  {
    var slot := if w.core.client.Some? && w.core.client.value.transport == t then AppInit else UserInit;
    assert PublishedFor(w.published, slot) != [] && PublishedFor(w.published, slot)[0].transport == t;
    FoundInLog(w.published, slot, 0);
  }

  lemma {:induction false} FoundInLog(log: seq<(Slot, Client)>, slot: Slot, k: nat)
    requires k < |PublishedFor(log, slot)|
    ensures exists i | 0 <= i < |log| :: log[i].1 == PublishedFor(log, slot)[k]
  {
    var before := log[..|log| - 1];
    if k < |PublishedFor(before, slot)| {
      FoundInLog(before, slot, k);
      var i :| 0 <= i < |before| && before[i].1 == PublishedFor(before, slot)[k];
      assert log[i] == before[i];
    } else {
      assert log[|log| - 1].1 == PublishedFor(log, slot)[k];
    }
  }

  /** Before that, no transport is ever closed twice, and only published ones are. */
  lemma NothingIsClosedTwice(cfg: Config, acts: seq<Action>)
    ensures var w := After(cfg, acts); w.closes <= Transports(w.core)
    ensures var w := After(cfg, acts); forall i, j | 0 <= i < j < |w.closes| :: w.closes[i] != w.closes[j]
  {
    RunsKeepInv(cfg, acts);
    var w := After(cfg, acts);
    assert w.closes <= Transports(w.core);
    assert forall i | 0 <= i < |w.closes| :: w.closes[i] == Transports(w.core)[i];
  }

  // ------------------------------------------------------------------ when close() raises

  /** The task has ended, and not with an error close() would let through. */
  predicate Joinable(w: World, t: nat) {
    t < |w.tasks| && Ended(w.tasks[t].state) && w.tasks[t].state != Failed(OtherError)
  }

  predicate FailedBadly(w: World, t: nat) {
    t < |w.tasks| && w.tasks[t].state == Failed(OtherError)
  }

  /** A task that was in flight as close() began failed with something other than ChatAPIError. */
  predicate TaskFailed(w: World) {
    exists t | t in InFlight(w.frozen) :: FailedBadly(w, t)
  }

  /** Close is still waiting for a task, or has a transport left to close. */
  predicate AtWork(w: World) {
    (w.closing.Joining? && w.closing.todo != []) || (w.closing.Shutting? && w.closing.left != [])
  }

  /** Action i interrupts close(): it cancels the wait for a task, or is a transport's close that
      raises or is cancelled. */
  predicate Interrupts(cfg: Config, acts: seq<Action>, i: nat) {
    i < |acts| && acts[i].CloseStep? && acts[i].ending.Raises? && AtWork(After(cfg, acts[..i]))
  }

  /** Action i is the one that ends close() with an exception. */
  predicate Stops(cfg: Config, acts: seq<Action>, i: nat) {
    && i < |acts| && After(cfg, acts[..i]).closing != Aborted
    && Do(cfg, After(cfg, acts[..i]), acts[i]).closing == Aborted
  }

  // What stays as it is from one world to any later one.

  predicate Later(u: World, w: World) {
    && |u.tasks| <= |w.tasks| && (forall t | 0 <= t < |u.tasks| && Ended(u.tasks[t].state) :: w.tasks[t] == u.tasks[t])
    && (u.closing != NotBegun ==> w.closing != NotBegun && w.frozen == u.frozen)
    && (u.closing == Aborted || u.closing == Returned ==> w.closing == u.closing && w.closes == u.closes)
  }

  /** The close protocol is as it was, and so is every task but the given one. */
  predicate LeavesOthers(w: World, v: World, task: nat) {
    && v.closing == w.closing && v.frozen == w.frozen && v.closes == w.closes
    && |w.tasks| <= |v.tasks| && forall t | 0 <= t < |w.tasks| && t != task :: v.tasks[t] == w.tasks[t]
  }

  lemma AwaitingLeavesOthers(w: World, task: nat)
    requires task < |w.tasks|
    ensures LeavesOthers(w, AwaitChild(w, task), task)
  {
  }

  lemma StartLeavesOthers(cfg: Config, w: World, task: nat)
    requires task < |w.tasks|
    ensures LeavesOthers(w, RunCreated(cfg, w, task), task)
  {
    AwaitingLeavesOthers(w, task);
    var slot := w.tasks[task].slot;
    if slot == AppCreds || slot == UserCreds {
      match BeginResolve(cfg, w.core, slot) { case Fails(_) => case Gives(_) => case Threads => case Asks => }
    }
  }

  lemma RunLeavesOthers(cfg: Config, w: World, task: nat, ending: Ending)
    requires Enabled(w, Run(task, ending))
    ensures LeavesOthers(w, Do(cfg, w, Run(task, ending)), task)
  {
    match w.tasks[task].state {
      case Created => StartLeavesOthers(cfg, w, task);
      case InThread => assert LeavesOthers(w, RunThread(w, task, ending), task);
      case Awaiting(child) =>
        assert LeavesOthers(w, RunAwaiting(cfg, w, task, child, ending), task);
      case _ =>
    }
  }

  lemma StepIsLater(cfg: Config, w: World, act: Action)
    requires Inv(w)
    ensures Later(w, Do(cfg, w, act))
  {
    if Enabled(w, act) && act.Run? {
      RunLeavesOthers(cfg, w, act.task, act.ending);
    }
  }

  lemma {:induction false} RunsAreLater(cfg: Config, acts: seq<Action>, n: nat)
    requires n <= |acts|
    ensures Later(After(cfg, acts[..n]), After(cfg, acts))
  {
    if n == |acts| {
      assert acts[..n] == acts;
    } else {
      var before := acts[..|acts| - 1];
      RunsAreLater(cfg, before, n);
      assert before[..n] == acts[..n];
      RunsKeepInv(cfg, before);
      StepIsLater(cfg, After(cfg, before), acts[|acts| - 1]);
    }
  }

  // What close() has seen of the tasks in flight.

  predicate JoinInv(w: World) {
    match w.closing
    case Joining(todo) =>
      && (forall t | t in InFlight(w.frozen) :: t in todo || Joinable(w, t))
      && (forall t | t in todo :: t in InFlight(w.frozen))
    case Shutting(_) => forall t | t in InFlight(w.frozen) :: Joinable(w, t)
    case Returned => forall t | t in InFlight(w.frozen) :: Joinable(w, t)
    case _ => true
  }

  lemma LaterKeepsJoins(w: World, v: World)
    requires JoinInv(w) && Later(w, v) && v.closing == w.closing
    ensures JoinInv(v)
  {
    forall t | Joinable(w, t) ensures Joinable(v, t) { }
  }

  lemma JoiningKeepsJoins(w: World, ending: Ending)
    requires Enabled(w, CloseStep(ending)) && w.closing.Joining? && JoinInv(w)
    ensures JoinInv(CloseMore(w, ending))
  {
    var todo := w.closing.todo;
    if todo != [] {
      assert todo == [todo[0]] + todo[1..];
    }
  }

  lemma BeginKeepsJoins(cfg: Config, w: World)
    requires JoinInv(w)
    ensures JoinInv(Do(cfg, w, Close))
  {
  }

  lemma ShuttingKeepsJoins(w: World, ending: Ending)
    requires !w.closing.Joining? && JoinInv(w)
    ensures JoinInv(CloseMore(w, ending))
  {
  }

  lemma BesidesClose(cfg: Config, w: World, act: Action)
    requires !act.Close? && !act.CloseStep?
    ensures Do(cfg, w, act).closing == w.closing && Do(cfg, w, act).closes == w.closes
  {
    if Enabled(w, act) && act.Run? {
      RunLeavesOthers(cfg, w, act.task, act.ending);
    }
  }

  lemma StepKeepsJoins(cfg: Config, w: World, act: Action)
    requires Inv(w) && JoinInv(w)
    ensures JoinInv(Do(cfg, w, act))
  {
    if act.Close? {
      BeginKeepsJoins(cfg, w);
    } else if !act.CloseStep? {
      StepIsLater(cfg, w, act);
      BesidesClose(cfg, w, act);
      LaterKeepsJoins(w, Do(cfg, w, act));
    } else if Enabled(w, act) && w.closing.Joining? {
      JoiningKeepsJoins(w, act.ending);
    } else if Enabled(w, act) {
      ShuttingKeepsJoins(w, act.ending);
    }
  }

  lemma {:induction false} RunsKeepJoins(cfg: Config, acts: seq<Action>)
    ensures JoinInv(After(cfg, acts))
  {
    if acts != [] {
      RunsKeepJoins(cfg, acts[..|acts| - 1]);
      RunsKeepInv(cfg, acts[..|acts| - 1]);
      StepKeepsJoins(cfg, After(cfg, acts[..|acts| - 1]), acts[|acts| - 1]);
    }
  }

  // How it ends.

  /** The step that ends close() with an exception either finds a failed task or is interrupted;
      before any transport in the first case, after that very transport in the second. */
  lemma StopStep(cfg: Config, u: World, act: Action)
    requires Inv(u) && JoinInv(u) && u.closing != Aborted && Do(cfg, u, act).closing == Aborted
    ensures act.CloseStep? && AtWork(u)
    ensures !act.ending.Raises? ==> u.closing.Joining? && TaskFailed(u)
    ensures u.closing.Joining? ==> Do(cfg, u, act).closes == []
    ensures u.closing.Shutting? ==> act.ending.Raises? && Do(cfg, u, act).closes == u.closes + [u.closing.left[0]]
  {
    if act.CloseStep? {
      if u.closing.Joining? && !act.ending.Raises? && u.closing.todo != [] {
        assert u.closing.todo[0] in InFlight(u.frozen) && FailedBadly(u, u.closing.todo[0]);
      }
    } else if Enabled(u, act) && act.Run? {
      RunLeavesOthers(cfg, u, act.task, act.ending);
    }
  }

  lemma {:induction false} StopExists(cfg: Config, acts: seq<Action>) returns (i: nat)
    requires After(cfg, acts).closing == Aborted
    ensures Stops(cfg, acts, i)
  {
    var before := acts[..|acts| - 1];
    if After(cfg, before).closing == Aborted {
      i := StopExists(cfg, before);
      assert acts[..i] == before[..i];
    } else {
      i := |acts| - 1;
    }
  }

  lemma AfterNext(cfg: Config, acts: seq<Action>, i: nat)
    requires i < |acts|
    ensures After(cfg, acts[..i + 1]) == Do(cfg, After(cfg, acts[..i]), acts[i])
  {
    assert acts[..i + 1][..i] == acts[..i];
  }

  /** The transports whose close is never called when close() stops in world u. */
  function LeftOpen(u: World): seq<Transport> {
    if u.closing.Shutting? && u.closing.left != [] then u.closing.left[1..] else Transports(u.core)
  }

  /** What close() did up to the step that stopped it. */
  lemma StoppedAt(cfg: Config, acts: seq<Action>, i: nat)
    requires Stops(cfg, acts, i)
    ensures
      var u, w := After(cfg, acts[..i]), After(cfg, acts);
      && w.closing == Aborted && acts[i].CloseStep? && AtWork(u)
      && (!acts[i].ending.Raises? ==> TaskFailed(w))
      && (u.closing.Shutting? ==> acts[i].ending.Raises?)
      && w.closes + LeftOpen(u) == Transports(w.core)
      && w.closes == if u.closing.Joining? then [] else u.closes + [u.closing.left[0]]
  {
    var u, v, w := After(cfg, acts[..i]), After(cfg, acts[..i + 1]), After(cfg, acts);
    RunsKeepInv(cfg, acts[..i]);
    RunsKeepJoins(cfg, acts[..i]);
    StopStep(cfg, u, acts[i]);
    AfterNext(cfg, acts, i);
    RunsAreLater(cfg, acts, i);
    RunsAreLater(cfg, acts, i + 1);
    RunsKeepInv(cfg, acts);
    assert Transports(u.core) == Transports(w.core);
    if TaskFailed(u) {
      var t :| t in InFlight(u.frozen) && FailedBadly(u, t);
      assert FailedBadly(w, t);
    }
    if u.closing.Shutting? { NextClose(u.closes, u.closing.left, Transports(u.core)); }
  }

  lemma InterruptsStop(cfg: Config, acts: seq<Action>, i: nat)
    requires Interrupts(cfg, acts, i)
    ensures Stops(cfg, acts, i) && After(cfg, acts).closing == Aborted
  {
    AfterNext(cfg, acts, i);
    RunsAreLater(cfg, acts, i + 1);
  }

  /** Once close() has ended, it has raised exactly when one of the tasks in flight as it began
      failed with something other than ChatAPIError, or it was interrupted at work; and then what
      it has closed and what it left open make up the published transports, in order. */
  lemma CloseRaisesExactlyOn(cfg: Config, acts: seq<Action>)
    requires After(cfg, acts).closing == Returned || After(cfg, acts).closing == Aborted
    ensures
      var w := After(cfg, acts);
      && (w.closing == Aborted <==> TaskFailed(w) || exists i | 0 <= i < |acts| :: Interrupts(cfg, acts, i))
      && (TaskFailed(w) ==> w.closes == [])
      && (w.closing == Aborted ==> exists i | 0 <= i < |acts| ::
            Stops(cfg, acts, i) && w.closes + LeftOpen(After(cfg, acts[..i])) == Transports(w.core))
  {
    var w := After(cfg, acts);
    RunsKeepJoins(cfg, acts);
    if w.closing == Aborted {
      var i := StopExists(cfg, acts);
      StoppedAt(cfg, acts, i);
      if acts[i].ending.Raises? { assert Interrupts(cfg, acts, i); }
      if TaskFailed(w) { FailedTasksCloseNothing(cfg, acts, i); }
    } else {
      forall i | 0 <= i < |acts| && Interrupts(cfg, acts, i) ensures false { InterruptsStop(cfg, acts, i); }
    }
  }

  /** A close() that meets a failed task has not got to the transports. */
  lemma FailedTasksCloseNothing(cfg: Config, acts: seq<Action>, i: nat)
    requires Stops(cfg, acts, i) && TaskFailed(After(cfg, acts))
    ensures After(cfg, acts[..i]).closing.Joining?
  {
    StoppedAt(cfg, acts, i);
    RunsKeepJoins(cfg, acts[..i]);
    RunsAreLater(cfg, acts, i);
    FailuresAreNotJoined(After(cfg, acts[..i]), After(cfg, acts));
  }

  lemma FailuresAreNotJoined(u: World, w: World)
    requires Later(u, w) && JoinInv(u) && u.closing != NotBegun && TaskFailed(w)
    ensures !u.closing.Shutting? && u.closing != Returned
  {
    var t :| t in InFlight(w.frozen) && FailedBadly(w, t);
    assert u.frozen == w.frozen && !Joinable(u, t);
  }

  // A close() whose transports fail as a given set says.

  /** Every transport whose close raises is in failing, and no other is. */
  predicate FailsAs(cfg: Config, acts: seq<Action>, failing: set<Transport>) {
    forall i | 0 <= i < |acts| && acts[i].CloseStep? ::
      var u := After(cfg, acts[..i]);
      u.closing.Shutting? && u.closing.left != [] ==> (acts[i].ending.Raises? <==> u.closing.left[0] in failing)
  }

  /** The wait for the tasks in flight was cancelled. */
  predicate CancelledWaiting(cfg: Config, acts: seq<Action>) {
    exists i | 0 <= i < |acts| :: Interrupts(cfg, acts, i) && After(cfg, acts[..i]).closing.Joining?
  }

  lemma FailsAsBefore(cfg: Config, acts: seq<Action>, n: nat, failing: set<Transport>)
    requires n <= |acts| && FailsAs(cfg, acts, failing)
    ensures FailsAs(cfg, acts[..n], failing)
  {
    forall i | 0 <= i < n && acts[..n][i].CloseStep?
      ensures
        var u := After(cfg, acts[..n][..i]);
        u.closing.Shutting? && u.closing.left != [] ==>
          (acts[..n][i].ending.Raises? <==> u.closing.left[0] in failing)
    {
      assert acts[..n][..i] == acts[..i] && acts[..n][i] == acts[i];
    }
  }

  /** As long as close() goes on, the transports it has closed have not failed. */
  predicate ClosedWell(w: World, failing: set<Transport>) {
    w.closing.Shutting? || w.closing == Returned ==> !SomeFails(w.closes, failing)
  }

  lemma StepClosesWell(cfg: Config, w: World, act: Action, failing: set<Transport>)
    requires CloseInv(w) && ClosedWell(w, failing)
    requires act.CloseStep? && w.closing.Shutting? && w.closing.left != [] ==>
      (act.ending.Raises? <==> w.closing.left[0] in failing)
    ensures ClosedWell(Do(cfg, w, act), failing)
  {
    if act.CloseStep? {
      if w.closing.Shutting? && w.closing.left != [] && act.ending.Yields? {
        OneMoreWell(w.closes, w.closing.left[0], failing);
      }
    } else if !act.Close? {
      BesidesClose(cfg, w, act);
    }
  }

  lemma OneMoreWell(closes: seq<Transport>, t: Transport, failing: set<Transport>)
    requires !SomeFails(closes, failing) && t !in failing
    ensures !SomeFails(closes + [t], failing)
  {
  }

  lemma {:induction false} RunsCloseWell(cfg: Config, acts: seq<Action>, failing: set<Transport>)
    requires FailsAs(cfg, acts, failing)
    ensures ClosedWell(After(cfg, acts), failing)
  {
    if acts != [] {
      var n := |acts| - 1;
      FailsAsBefore(cfg, acts, n, failing);
      RunsCloseWell(cfg, acts[..n], failing);
      RunsKeepInv(cfg, acts[..n]);
      StepClosesWell(cfg, After(cfg, acts[..n]), acts[n], failing);
    }
  }

  /** What close() closes: nothing if a task in flight failed badly or the wait for them was
      cancelled, and otherwise the published transports in order, up to the first that fails; it
      returns normally exactly if none of this happens. */
  lemma CloseStopsAtTheFirstFailure(cfg: Config, acts: seq<Action>, failing: set<Transport>)
    requires After(cfg, acts).closing == Returned || After(cfg, acts).closing == Aborted
    requires FailsAs(cfg, acts, failing)
    ensures
      var w := After(cfg, acts);
      if TaskFailed(w) || CancelledWaiting(cfg, acts) then w.closing == Aborted && w.closes == []
      else
        && w.closes == ClosedUpTo(Transports(w.core), failing)
        && (w.closing == Aborted <==> SomeFails(Transports(w.core), failing))
  {
    var w := After(cfg, acts);
    RunsKeepInv(cfg, acts);
    RunsKeepJoins(cfg, acts);
    CloseRaisesExactlyOn(cfg, acts);
    RunsCloseWell(cfg, acts, failing);
    if w.closing == Returned {
      ClosedUpToNext(w.closes, Injected, [], failing);
    } else if CancelledWaiting(cfg, acts) {
      var i :| 0 <= i < |acts| && Interrupts(cfg, acts, i) && After(cfg, acts[..i]).closing.Joining?;
      InterruptsStop(cfg, acts, i);
      StoppedAt(cfg, acts, i);
    } else if !TaskFailed(w) {
      var i := StopExists(cfg, acts);
      StopsInTransport(cfg, acts, i, failing);
    }
  }

  lemma StopsInTransport(cfg: Config, acts: seq<Action>, i: nat, failing: set<Transport>)
    requires FailsAs(cfg, acts, failing) && Stops(cfg, acts, i)
    requires !TaskFailed(After(cfg, acts)) && !CancelledWaiting(cfg, acts)
    ensures
      var w := After(cfg, acts);
      w.closes == ClosedUpTo(Transports(w.core), failing) && SomeFails(Transports(w.core), failing)
  {
    var u, w := After(cfg, acts[..i]), After(cfg, acts);
    StoppedAt(cfg, acts, i);
    assert Interrupts(cfg, acts, i);
    assert u.closing.Shutting?;
    var left := u.closing.left;
    FailsAsBefore(cfg, acts, i, failing);
    RunsCloseWell(cfg, acts[..i], failing);
    ClosedUpToNext(u.closes, left[0], left[1..], failing);
    assert left[0] in Transports(w.core);
  }

  lemma Extend(cfg: Config, acts: seq<Action>, act: Action)
    ensures After(cfg, acts + [act]) == Do(cfg, After(cfg, acts), act)
  {
    assert (acts + [act])[..|acts|] == acts;
  }

  const LEAKY := Config(true, None, true, false, {})

  /** The bot whose APP client is built and whose USER credentials are asked for. */
  function Half(tasks: seq<Task>, callers: map<nat, nat>, core: Core, calls: map<Slot, nat>): World {
    World(core, tasks, callers, [(AppInit, Client(Made(0)))], InitCore(), [], NotBegun, calls, map[])
  }

  function Asked(): World {
    World(Core(false, None, None, None, None, map[AppInit := 0]), [Task(AppInit, Created)],
          map[0 := 0], [], InitCore(), [], NotBegun, map[], map[])
  }

  lemma LeakAsks()
    ensures Do(LEAKY, Init(), Call(0, AppInit)) == Asked()
  {
  }

  lemma LeakBegins() returns (acts: seq<Action>)
    ensures After(LEAKY, acts) ==
      Asked().(core := Core(false, None, None, None, None, map[AppInit := 0, AppCreds := 1]),
               tasks := [Task(AppInit, Awaiting(1)), Task(AppCreds, Created)])
  {
    LeakAsks();
    Extend(LEAKY, [], Call(0, AppInit));
    acts := [] + [Call(0, AppInit)];
    Extend(LEAKY, acts, Run(0, Yields(None)));
    acts := acts + [Run(0, Yields(None))];
  }

  /** The provider's thread runs, or has answered. */
  function Resolving(resolved: Option<Option<Cred>>, s: TaskState): World {
    World(Core(false, None, None, resolved, None, map[AppInit := 0, AppCreds := 1]),
          [Task(AppInit, Awaiting(1)), Task(AppCreds, s)], map[0 := 0], [], InitCore(), [], NotBegun,
            map[AppCreds := 1], map[])
  }

  lemma LeakResolves() returns (acts: seq<Action>)
    ensures After(LEAKY, acts) == Resolving(Some(Some(7)), Resolved(Some(7)))
  {
    acts := LeakBegins();
    Extend(LEAKY, acts, Run(1, Yields(None)));
    acts := acts + [Run(1, Yields(None))];
    assert After(LEAKY, acts) == Resolving(None, InThread);
    Extend(LEAKY, acts, Run(1, Yields(Some(7))));
    acts := acts + [Run(1, Yields(Some(7)))];
  }

  const BUILT := Core(false, Some(Client(Made(0))), None, Some(Some(7)), None, map[AppInit := 0, AppCreds := 1])

  lemma LeakBuilds() returns (acts: seq<Action>)
    ensures After(LEAKY, acts) ==
      Half([Task(AppInit, Built), Task(AppCreds, Resolved(Some(7)))], map[0 := 0], BUILT, map[AppCreds := 1])
  {
    acts := LeakResolves();
    Extend(LEAKY, acts, Run(0, Yields(None)));
    acts := acts + [Run(0, Yields(None))];
  }

  /** The USER provider's task is made, or runs. */
  function AskingUser(s: TaskState, calls: map<Slot, nat>): World {
    Half([Task(AppInit, Built), Task(AppCreds, Resolved(Some(7))), Task(UserCreds, s)], map[0 := 0, 1 := 2],
         BUILT.(slots := map[AppInit := 0, AppCreds := 1, UserCreds := 2]), calls)
  }

  lemma LeakAsksUser() returns (acts: seq<Action>)
    ensures After(LEAKY, acts) == AskingUser(InThread, map[AppCreds := 1, UserCreds := 1])
  {
    acts := LeakBuilds();
    Extend(LEAKY, acts, Call(1, UserCreds));
    acts := acts + [Call(1, UserCreds)];
    assert After(LEAKY, acts) == AskingUser(Created, map[AppCreds := 1]);
    UserProviderStarts();
    Extend(LEAKY, acts, Run(2, Yields(None)));
    acts := acts + [Run(2, Yields(None))];
  }

  lemma UserProviderStarts()
    ensures
      Do(LEAKY, AskingUser(Created, map[AppCreds := 1]), Run(2, Yields(None)))
        == AskingUser(InThread, map[AppCreds := 1, UserCreds := 1])
  {
  }

  lemma LeakCloses() returns (acts: seq<Action>)
    ensures
      var w := After(LEAKY, acts);
      && w.tasks == [Task(AppInit, Built), Task(AppCreds, Resolved(Some(7))), Task(UserCreds, InThread)]
      && w.core.client == Some(Client(Made(0))) && w.closes == [] && w.closing == Joining([1, 2, 0])
  {
    acts := LeakAsksUser();
    Extend(LEAKY, acts, Close);
    assert InFlight(After(LEAKY, acts).core) == [1, 2, 0];
    acts := acts + [Close];
  }

  lemma LeakAborts(w: World)
    requires w.tasks == [Task(AppInit, Built), Task(AppCreds, Resolved(Some(7))), Task(UserCreds, InThread)]
    requires w.closing == Joining([1, 2, 0])
    ensures
      var v := Do(LEAKY, Do(LEAKY, Do(LEAKY, w, Run(2, Raises(OtherError))), CloseStep(Yields(None))),
        CloseStep(Yields(None)));
      v.closing == Aborted && v.core.client == w.core.client && v.closes == w.closes
  {
    var failed := Do(LEAKY, w, Run(2, Raises(OtherError)));
    assert failed.tasks ==
      [Task(AppInit, Built), Task(AppCreds, Resolved(Some(7))), Task(UserCreds, Failed(OtherError))];
    assert Do(LEAKY, failed, CloseStep(Yields(None))).closing == Joining([2, 0]);
  }

  /** The unconditional promise fails: a run in which close() raises, because the USER provider
      raises something other than ChatAPIError, and the published APP transport stays open. */
  lemma CloseCanLeaveATransportOpen() returns (acts: seq<Action>)
    ensures
      var w := After(LEAKY, acts);
      w.closing == Aborted && w.core.client == Some(Client(Made(0))) && w.closes == []
  {
    var before := LeakCloses();
    LeakAborts(After(LEAKY, before));
    Extend(LEAKY, before, Run(2, Raises(OtherError)));
    var failed := before + [Run(2, Raises(OtherError))];
    Extend(LEAKY, failed, CloseStep(Yields(None)));
    var joined := failed + [CloseStep(Yields(None))];
    Extend(LEAKY, joined, CloseStep(Yields(None)));
    acts := joined + [CloseStep(Yields(None))];
  }
}
