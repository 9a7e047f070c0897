/** Starting informers: any number of callers interleave, each lock-protected access of the
    shared runtime being one step. One epoch, from connect to disconnect. */
module Informers {
  import opened Common
  import opened Caches
  import Specs

  function WarmKey(gvr: string, namespace: string): string {
    CacheKey(gvr, namespace, "*")
  }

  /** A call to ensureWatching. `covered` records, for the sake of the statements here,
      whether the all-namespace informer was already warm when the call began. */
  datatype Call = Call(gvr: string, namespace: string, covered: bool)

  function KeyOfCall(c: Call): string {
    WarmKey(c.gvr, c.namespace)
  }

  /** The resource type of the call can be parsed. */
  predicate Parses(c: Call) {
    Specs.ParseGVR(c.gvr).Some?
  }

  /** How far a call has come. */
  datatype Stage =
    | CheckingAll   // about to look for the all-namespace informer
    | CheckingOwn   // about to look for its own informer
    | AtOnce        // about to enter the once of its key
    | Parsing       // first in the once, about to parse the resource type
    | Starting      // about to start the informer
    | Syncing       // waiting for the informer's store
    | Marking       // about to mark the key warm
    | Leaving       // about to leave the once
    | Returned

  datatype Thread = Thread(call: Call, stage: Stage)

  /** The once of a key: a missing entry is one nobody entered, a used-up one remembers the
      call that used it up. */
  datatype Once = Running(holder: nat) | Done(call: Call)

  datatype State = State(
    threads: map<nat, Thread>,
    once: map<string, Once>,
    warmed: set<string>,
    synced: set<string>,
    started: seq<string>)  // the keys for which an informer was started, in order

  const INITIAL := State(map[], map[], {}, {}, [])

  /** One step. Begin is a new call by an idle thread; Move moves a thread on. Whether the
      first synchronisation succeeds is up to the environment. */
  datatype Action =
    | Begin(t: nat, gvr: string, namespace: string)
    | Move(t: nat, succeeds: bool)

  function Moved(s: State, t: nat, stage: Stage): State
    requires t in s.threads
  {
    s.(threads := s.threads[t := s.threads[t].(stage := stage)])
  }

  /** The state after a step; a step that is not possible changes nothing. */
  function Next(s: State, a: Action): State {
    match a
    case Begin(t, gvr, namespace) =>
      if t in s.threads && s.threads[t].stage != Returned then s
      else
        var c := Call(gvr, namespace, WarmKey(gvr, "") in s.warmed);
        s.(threads := s.threads[t := Thread(c, if gvr == "" then Returned else CheckingAll)])
    case Move(t, succeeds) =>
      if t !in s.threads then s
      else
        var c, key := s.threads[t].call, KeyOfCall(s.threads[t].call);
        match s.threads[t].stage
        case CheckingAll =>
          Moved(s, t, if c.namespace != "" && WarmKey(c.gvr, "") in s.warmed then Returned else CheckingOwn)
        case CheckingOwn =>
          Moved(s, t, if key in s.warmed then Returned else AtOnce)
        case AtOnce =>
          if key !in s.once then Moved(s, t, Parsing).(once := s.once[key := Running(t)])
          else if s.once[key].Done? then Moved(s, t, Returned)
          else s
        case Parsing => Moved(s, t, if Parses(c) then Starting else Leaving)
        case Starting => Moved(s, t, Syncing).(started := s.started + [key])
        case Syncing =>
          if succeeds then Moved(s, t, Marking).(synced := s.synced + {key}) else Moved(s, t, Leaving)
        case Marking => Moved(s, t, Leaving).(warmed := s.warmed + {key})
        case Leaving => Moved(s, t, Returned).(once := s.once[key := Done(c)])
        case Returned => s
  }

  function Run(s: State, actions: seq<Action>): State {
    if actions == [] then s else Next(Run(s, actions[..|actions| - 1]), actions[|actions| - 1])
  }

  predicate Inside(stage: Stage) {
    stage in {Parsing, Starting, Syncing, Marking, Leaving}
  }

  /** A thread is inside the once of its key if and only if the once is running by it. */
  ghost predicate OnceOk(s: State) {
    && (forall t :: t in s.threads && Inside(s.threads[t].stage) ==>
          KeyOfCall(s.threads[t].call) in s.once && s.once[KeyOfCall(s.threads[t].call)] == Running(t))
    && (forall k :: k in s.once && s.once[k].Running? ==>
          var t := s.once[k].holder;
          t in s.threads && KeyOfCall(s.threads[t].call) == k && Inside(s.threads[t].stage))
  }

  /** The started keys are distinct, and belong to onces that were entered; a thread that
      has not started its informer yet finds none. */
  ghost predicate StartsOk(s: State) {
    && Distinct(s.started)
    && (forall k :: k in s.started ==> k in s.once)
    && (forall t :: t in s.threads && s.threads[t].stage in {Parsing, Starting} ==>
          KeyOfCall(s.threads[t].call) !in s.started)
  }

  /** What is warm was synchronised, and what was synchronised was started. */
  ghost predicate WarmOk(s: State) {
    && s.warmed <= s.synced
    && (forall k :: k in s.synced ==> k in s.started)
    && (forall t :: t in s.threads && s.threads[t].stage == Syncing ==> KeyOfCall(s.threads[t].call) in s.started)
    && (forall t :: t in s.threads && s.threads[t].stage == Marking ==> KeyOfCall(s.threads[t].call) in s.synced)
  }

  /** A namespace call that began under a warm all-namespace informer goes no further than
      its first look. */
  ghost predicate CoverOk(s: State) {
    forall t :: t in s.threads && s.threads[t].call.covered ==>
      && WarmKey(s.threads[t].call.gvr, "") in s.warmed
      && (s.threads[t].call.namespace != "" ==> s.threads[t].stage in {CheckingAll, Returned})
  }

  ghost predicate Inv(s: State) {
    OnceOk(s) && StartsOk(s) && WarmOk(s) && CoverOk(s)
  }

  /** A thread that is in its once before and after a step. */
  lemma MoveInside(s: State, t: nat, stage: Stage)
    requires OnceOk(s) && t in s.threads && Inside(s.threads[t].stage) && Inside(stage)
    ensures OnceOk(Moved(s, t, stage))
  {
  }

  /** A thread that is outside all onces before and after a step. */
  lemma MoveOutside(s: State, t: nat, stage: Stage)
    requires OnceOk(s) && t in s.threads && !Inside(s.threads[t].stage) && !Inside(stage)
    ensures OnceOk(Moved(s, t, stage))
  {
  }

  lemma EnterOnce(s: State, t: nat)
    requires OnceOk(s) && t in s.threads && s.threads[t].stage == AtOnce && KeyOfCall(s.threads[t].call) !in s.once
    ensures OnceOk(Moved(s, t, Parsing).(once := s.once[KeyOfCall(s.threads[t].call) := Running(t)]))
  {
  }

  lemma LeaveOnce(s: State, t: nat)
    requires OnceOk(s) && t in s.threads && s.threads[t].stage == Leaving
    ensures OnceOk(Moved(s, t, Returned).(once := s.once[KeyOfCall(s.threads[t].call) := Done(s.threads[t].call)]))
  {
  }

  lemma BeginCall(s: State, t: nat, c: Call, stage: Stage)
    requires OnceOk(s) && !Inside(stage) && (t in s.threads ==> s.threads[t].stage == Returned)
    ensures OnceOk(s.(threads := s.threads[t := Thread(c, stage)]))
  {
  }

  lemma NextOnceOk(s: State, a: Action)
    requires Inv(s)
    ensures OnceOk(Next(s, a))
  {
    match a
    case Begin(t, gvr, namespace) =>
      if t !in s.threads || s.threads[t].stage == Returned {
        BeginCall(s, t, Call(gvr, namespace, WarmKey(gvr, "") in s.warmed), if gvr == "" then Returned else CheckingAll);
      }
    case Move(t, succeeds) =>
      if t in s.threads {
        match s.threads[t].stage
        case CheckingAll =>
          MoveOutside(s, t, Returned);
          MoveOutside(s, t, CheckingOwn);
        case CheckingOwn =>
          MoveOutside(s, t, Returned);
          MoveOutside(s, t, AtOnce);
        case AtOnce =>
          if KeyOfCall(s.threads[t].call) !in s.once {
            EnterOnce(s, t);
          } else {
            MoveOutside(s, t, Returned);
          }
        case Parsing =>
          MoveInside(s, t, Starting);
          MoveInside(s, t, Leaving);
        case Starting => MoveInside(s, t, Syncing);
        case Syncing =>
          MoveInside(s, t, Marking);
          MoveInside(s, t, Leaving);
        case Marking => MoveInside(s, t, Leaving);
        case Leaving => LeaveOnce(s, t);
        case Returned =>
      }
  }

  lemma StartsMoved(s: State, t: nat, succeeds: bool)
    requires Inv(s) && t in s.threads
    ensures StartsOk(Next(s, Move(t, succeeds)))
  {
    if s.threads[t].stage == Starting {
      StartOne(s, t);
    }
  }

  /** No other thread is about to start an informer for the same key. */
  lemma StartOne(s: State, t: nat)
    requires Inv(s) && t in s.threads && s.threads[t].stage == Starting
    ensures StartsOk(Moved(s, t, Syncing).(started := s.started + [KeyOfCall(s.threads[t].call)]))
  {
    var key := KeyOfCall(s.threads[t].call);
    forall u | u in s.threads && u != t && s.threads[u].stage in {Parsing, Starting} ensures KeyOfCall(s.threads[u].call) != key {
      assert Inside(s.threads[u].stage) && Inside(s.threads[t].stage);
    }
  }

  lemma NextStartsOk(s: State, a: Action)
    requires Inv(s)
    ensures StartsOk(Next(s, a))
  {
    if a.Move? && a.t in s.threads {
      StartsMoved(s, a.t, a.succeeds);
    }
  }

  lemma WarmMoved(s: State, t: nat, succeeds: bool)
    requires Inv(s) && t in s.threads
    ensures WarmOk(Next(s, Move(t, succeeds)))
  {
    match s.threads[t].stage
    case Starting => WarmStarting(s, t);
    case Syncing => WarmSyncing(s, t, succeeds);
    case Marking => WarmMarking(s, t);
    case _ =>
  }

  lemma WarmStarting(s: State, t: nat)
    requires Inv(s) && t in s.threads && s.threads[t].stage == Starting
    ensures WarmOk(Next(s, Move(t, true))) && Next(s, Move(t, true)) == Next(s, Move(t, false))
  {
  }

  lemma WarmSyncing(s: State, t: nat, succeeds: bool)
    requires Inv(s) && t in s.threads && s.threads[t].stage == Syncing
    ensures WarmOk(Next(s, Move(t, succeeds)))
  {
  }

  lemma WarmMarking(s: State, t: nat)
    requires Inv(s) && t in s.threads && s.threads[t].stage == Marking
    ensures WarmOk(Next(s, Move(t, true))) && Next(s, Move(t, true)) == Next(s, Move(t, false))
  {
  }

  lemma NextWarmOk(s: State, a: Action)
    requires Inv(s)
    ensures WarmOk(Next(s, a))
  {
    if a.Move? && a.t in s.threads {
      WarmMoved(s, a.t, a.succeeds);
    }
  }

  lemma CoverMoved(s: State, t: nat, succeeds: bool)
    requires Inv(s) && t in s.threads
    ensures CoverOk(Next(s, Move(t, succeeds)))
  {
    var r := Next(s, Move(t, succeeds));
    assert forall u :: u in r.threads && u != t ==> u in s.threads && r.threads[u] == s.threads[u];
  }

  lemma NextCoverOk(s: State, a: Action)
    requires Inv(s)
    ensures CoverOk(Next(s, a))
  {
    if a.Move? && a.t in s.threads {
      CoverMoved(s, a.t, a.succeeds);
    }
  }

  lemma {:induction false} RunInv(actions: seq<Action>)
    ensures Inv(Run(INITIAL, actions))
  {
    if actions != [] {
      var before, a := Run(INITIAL, actions[..|actions| - 1]), actions[|actions| - 1];
      RunInv(actions[..|actions| - 1]);
      NextOnceOk(before, a);
      NextStartsOk(before, a);
      NextWarmOk(before, a);
      NextCoverOk(before, a);
    }
  }

  /** Over every interleaving of every set of calls: no key ever has two informers, a warm key
      has one, started and synchronised, and whatever call is past its first look for another
      namespace began before the all-namespace informer was warm. */
  lemma InformersStartOnce(actions: seq<Action>)
    ensures var s := Run(INITIAL, actions);
            && Distinct(s.started)
            && (forall k :: k in s.warmed ==> k in s.started && k in s.synced)
            && (forall t :: t in s.threads && s.threads[t].call.covered && s.threads[t].call.namespace != "" ==>
                  s.threads[t].stage in {CheckingAll, Returned})
  {
    RunInv(actions);
  }

  // ----- when a key is started

  /** What a thread inside its once has achieved so far. */
  ghost predicate Progress(s: State, c: Call, stage: Stage) {
    var key := KeyOfCall(c);
    match stage
    case Parsing => key !in s.started && key !in s.synced && key !in s.warmed
    case Starting => Parses(c) && key !in s.started && key !in s.synced && key !in s.warmed
    case Syncing => Parses(c) && key in s.started && key !in s.synced && key !in s.warmed
    case Marking => Parses(c) && key in s.started && key in s.synced
    case Leaving => (key in s.started <==> Parses(c)) && (key in s.warmed <==> key in s.synced)
    case _ => true
  }

  /** What using up the once of a key has achieved. */
  ghost predicate Achieved(s: State, key: string, c: Call) {
    && KeyOfCall(c) == key
    && (key in s.started <==> Parses(c))
    && (key in s.warmed <==> key in s.synced)
  }

  ghost predicate Accounted(s: State) {
    && (forall t :: t in s.threads ==> Progress(s, s.threads[t].call, s.threads[t].stage))
    && (forall k :: k in s.once && s.once[k].Done? ==> Achieved(s, k, s.once[k].call))
  }

  /** The sets of keys differ at most in this key. */
  ghost predicate SameBut(s: State, r: State, key: string) {
    forall k :: k != key ==>
      (k in s.started <==> k in r.started) && (k in s.synced <==> k in r.synced) && (k in s.warmed <==> k in r.warmed)
  }

  lemma MoveTouchesSets(s: State, t: nat, succeeds: bool)
    requires t in s.threads
    ensures var key, r := KeyOfCall(s.threads[t].call), Next(s, Move(t, succeeds));
            && SameBut(s, r, key)
            && (!Inside(s.threads[t].stage) ==> r.started == s.started && r.synced == s.synced && r.warmed == s.warmed)
  {
  }

  lemma MoveTouches(s: State, t: nat, succeeds: bool)
    requires t in s.threads
    ensures var key, r := KeyOfCall(s.threads[t].call), Next(s, Move(t, succeeds));
            && SameBut(s, r, key)
            && (!Inside(s.threads[t].stage) ==> r.started == s.started && r.synced == s.synced && r.warmed == s.warmed)
            && (forall u :: u in r.threads ==> u in s.threads && r.threads[u].call == s.threads[u].call)
            && (forall u :: u in s.threads && u != t ==> u in r.threads && r.threads[u] == s.threads[u])
            && (forall k :: k in r.once && k != key ==> k in s.once && r.once[k] == s.once[k])
  {
    MoveTouchesSets(s, t, succeeds);
  }

  lemma MoverAccounted(s: State, t: nat, succeeds: bool)
    requires Inv(s) && Accounted(s) && t in s.threads
    ensures var r := Next(s, Move(t, succeeds));
            t in r.threads && Progress(r, r.threads[t].call, r.threads[t].stage)
  {
    assert Progress(s, s.threads[t].call, s.threads[t].stage);
  }

  lemma OtherAccounted(s: State, t: nat, succeeds: bool, u: nat)
    requires Inv(s) && Accounted(s) && t in s.threads && u in s.threads && u != t
    ensures var r := Next(s, Move(t, succeeds));
            u in r.threads && Progress(r, r.threads[u].call, r.threads[u].stage)
  {
    MoveTouches(s, t, succeeds);
    assert Progress(s, s.threads[u].call, s.threads[u].stage);
    if Inside(s.threads[t].stage) && Inside(s.threads[u].stage) {
      assert KeyOfCall(s.threads[t].call) != KeyOfCall(s.threads[u].call);
    }
  }

  lemma OnceAccounted(s: State, t: nat, succeeds: bool, k: string)
    requires Inv(s) && Accounted(s) && t in s.threads
    ensures var r := Next(s, Move(t, succeeds));
            k in r.once && r.once[k].Done? ==> Achieved(r, k, r.once[k].call)
  {
    var key, r := KeyOfCall(s.threads[t].call), Next(s, Move(t, succeeds));
    MoveTouches(s, t, succeeds);
    assert Progress(s, s.threads[t].call, s.threads[t].stage);
    if k in s.once && s.once[k].Done? {
      assert Achieved(s, k, s.once[k].call);
      assert Inside(s.threads[t].stage) ==> k != key;
    }
  }

  lemma NextAccounted(s: State, a: Action)
    requires Inv(s) && Accounted(s)
    ensures Accounted(Next(s, a))
  {
    if a.Move? && a.t in s.threads {
      var r := Next(s, a);
      MoveTouches(s, a.t, a.succeeds);
      forall u | u in r.threads ensures Progress(r, r.threads[u].call, r.threads[u].stage) {
        if u == a.t {
          MoverAccounted(s, a.t, a.succeeds);
        } else {
          OtherAccounted(s, a.t, a.succeeds, u);
        }
      }
      forall k | k in r.once && r.once[k].Done? ensures Achieved(r, k, r.once[k].call) {
        OnceAccounted(s, a.t, a.succeeds, k);
      }
    } else if a.Begin? {
      BeginAccounted(s, a);
    }
  }

  lemma BeginAccounted(s: State, a: Action)
    requires Accounted(s) && a.Begin?
    ensures Accounted(Next(s, a))
  {
    var r := Next(s, a);
    forall u | u in r.threads ensures Progress(r, r.threads[u].call, r.threads[u].stage) {
      if u != a.t {
        assert Progress(s, s.threads[u].call, s.threads[u].stage);
      }
    }
    forall k | k in r.once && r.once[k].Done? ensures Achieved(r, k, r.once[k].call) {
      assert Achieved(s, k, s.once[k].call);
    }
  }

  lemma {:induction false} RunAccounted(actions: seq<Action>)
    ensures Accounted(Run(INITIAL, actions))
  {
    if actions != [] {
      RunAccounted(actions[..|actions| - 1]);
      RunInv(actions[..|actions| - 1]);
      NextAccounted(Run(INITIAL, actions[..|actions| - 1]), actions[|actions| - 1]);
    }
  }

  /** Over every interleaving: when the once of a key is used up, its informer was started if
      and only if the resource type of the call that used it up parses, and the key is warm
      if and only if that informer also synchronised. */
  lemma StartedIffParses(actions: seq<Action>, key: string)
    requires var s := Run(INITIAL, actions); key in s.once && s.once[key].Done?
    ensures var s := Run(INITIAL, actions); var c := s.once[key].call;
            && KeyOfCall(c) == key
            && (key in s.started <==> Parses(c))
            && (key in s.warmed <==> key in s.started && key in s.synced)
  {
    RunAccounted(actions);
    RunInv(actions);
    assert Achieved(Run(INITIAL, actions), key, Run(INITIAL, actions).once[key].call);
  }

  /** A step from a state in which the once of a key is used up. */
  lemma UsedUpStep(s: State, a: Action, key: string)
    requires Inv(s) && key in s.once && s.once[key].Done?
    ensures var r := Next(s, a);
            && key in r.once && r.once[key] == s.once[key]
            && (key in r.warmed <==> key in s.warmed)
            && (key in r.started <==> key in s.started)
  {
    if a.Move? && a.t in s.threads {
      MoveTouches(s, a.t, a.succeeds);
    }
  }

  /** A once is used up by its first entry, whether the informer came up or not: if it did
      not, the key never becomes warm and no informer is ever started for it again. */
  lemma {:induction false} FailedStartIsFinal(before: seq<Action>, after: seq<Action>, key: string)
    requires var s := Run(INITIAL, before); key in s.once && s.once[key].Done?
    ensures var s, r := Run(INITIAL, before), Run(Run(INITIAL, before), after);
            && key in r.once && r.once[key] == s.once[key]
            && (key in r.warmed <==> key in s.warmed)
            && (key in r.started <==> key in s.started)
    decreases |after|
  {
    if after != [] {
      var n := |after| - 1;
      FailedStartIsFinal(before, after[..n], key);
      RunAppend(before, after[..n]);
      RunInv(before + after[..n]);
      UsedUpStep(Run(Run(INITIAL, before), after[..n]), after[n], key);
    }
  }

  // ----- when a call returns

  /** What a call must have found to return: nothing to watch, the informer for all namespaces
      or its own informer running, or the one attempt at its own informer made. */
  ghost predicate Found(s: State, c: Call) {
    || c.gvr == ""
    || (c.namespace != "" && c.gvr + "::" + "" + "::" + "*" in s.warmed)
    || c.gvr + "::" + c.namespace + "::" + "*" in s.warmed
    || (c.gvr + "::" + c.namespace + "::" + "*" in s.once && s.once[c.gvr + "::" + c.namespace + "::" + "*"].Done?)
  }

  ghost predicate ReturnsOk(s: State) {
    forall t :: t in s.threads && s.threads[t].stage == Returned ==> Found(s, s.threads[t].call)
  }

  /** What was found stays found. */
  lemma FoundStays(s: State, a: Action, c: Call)
    requires Inv(s) && Found(s, c)
    ensures Found(Next(s, a), c)
  {
    var key := KeyOfCall(c);
    if key in s.once && s.once[key].Done? {
      UsedUpStep(s, a, key);
    }
  }

  lemma ReturnFound(s: State, t: nat, succeeds: bool)
    requires Inv(s) && t in s.threads && s.threads[t].stage != Returned
    ensures var r := Next(s, Move(t, succeeds)); r.threads[t].stage == Returned ==> Found(r, r.threads[t].call)
  {
  }

  lemma ThreadReturns(s: State, a: Action, t: nat)
    requires Inv(s) && ReturnsOk(s)
    requires t in Next(s, a).threads && Next(s, a).threads[t].stage == Returned
    ensures Found(Next(s, a), Next(s, a).threads[t].call)
  {
    if t != a.t {
      OtherThread(s, a, t);
      FoundStays(s, a, s.threads[t].call);
    } else if t in s.threads && s.threads[t].stage == Returned && a.Move? {
      FoundStays(s, a, s.threads[t].call);
    } else if a.Move? {
      ReturnFound(s, t, a.succeeds);
    }
  }

  lemma OtherThread(s: State, a: Action, t: nat)
    requires t != a.t && t in Next(s, a).threads
    ensures t in s.threads && Next(s, a).threads[t] == s.threads[t]
  {
  }

  lemma NextReturnsOk(s: State, a: Action)
    requires Inv(s) && ReturnsOk(s)
    ensures ReturnsOk(Next(s, a))
  {
    forall t | t in Next(s, a).threads && Next(s, a).threads[t].stage == Returned
      ensures Found(Next(s, a), Next(s, a).threads[t].call)
    {
      ThreadReturns(s, a, t);
    }
  }

  ghost predicate BlankOk(s: State) {
    forall t :: t in s.threads && s.threads[t].call.gvr == "" ==> s.threads[t].stage == Returned
  }

  /** A call without a resource type returns at once. */
  lemma {:induction false} BlankReturns(actions: seq<Action>)
    ensures BlankOk(Run(INITIAL, actions))
  {
    if actions != [] {
      var s, a := Run(INITIAL, actions[..|actions| - 1]), actions[|actions| - 1];
      BlankReturns(actions[..|actions| - 1]);
      forall t | t in Next(s, a).threads && Next(s, a).threads[t].call.gvr == "" ensures Next(s, a).threads[t].stage == Returned {
        BlankStays(s, a, t);
      }
    }
  }

  lemma BlankStays(s: State, a: Action, t: nat)
    requires t in s.threads && s.threads[t].call.gvr == "" ==> s.threads[t].stage == Returned
    requires t in Next(s, a).threads && Next(s, a).threads[t].call.gvr == ""
    ensures Next(s, a).threads[t].stage == Returned
  {
    if t != a.t {
      OtherThread(s, a, t);
    }
  }

  /** Over every interleaving: a call has returned only if it asked for nothing, or an informer
      that serves it is running, its own or for another namespace's call the one for all, or
      the once of its own informer is used up. */
  lemma {:induction false} ReturnedFound(actions: seq<Action>, t: nat)
    ensures ReturnsOk(Run(INITIAL, actions))
    ensures var s := Run(INITIAL, actions);
            t in s.threads && s.threads[t].stage == Returned ==> Found(s, s.threads[t].call)
  {
    if actions != [] {
      var before := actions[..|actions| - 1];
      ReturnedFound(before, t);
      RunInv(before);
      NextReturnsOk(Run(INITIAL, before), actions[|actions| - 1]);
    }
  }

  /** A single call for a resource type that does not parse. */
  function LoneCall(gvr: string): seq<Action> {
    [Begin(0, gvr, ""), Move(0, true), Move(0, true), Move(0, true), Move(0, true), Move(0, true)]
  }

  lemma RunSnoc(s: State, actions: seq<Action>, a: Action)
    ensures Run(s, actions + [a]) == Next(Run(s, actions), a)
  {
    assert (actions + [a])[..|actions|] == actions;
  }

  /** The steps of the lone call, until it is inside its once. */
  lemma LoneCallEnters(gvr: string)
    requires gvr != ""
    ensures var key := WarmKey(gvr, "");
            Run(INITIAL, LoneCall(gvr)[..4]) ==
            State(map[0 := Thread(Call(gvr, "", false), Parsing)], map[key := Running(0)], {}, {}, [])
  {
    var key, c, run := WarmKey(gvr, ""), Call(gvr, "", false), LoneCall(gvr);
    RunSnoc(INITIAL, [], run[0]);
    assert run[..1] == [] + [run[0]];
    assert Run(INITIAL, run[..1]) == State(map[0 := Thread(c, CheckingAll)], map[], {}, {}, []);
    RunSnoc(INITIAL, run[..1], run[1]);
    assert run[..2] == run[..1] + [run[1]];
    assert Run(INITIAL, run[..2]) == State(map[0 := Thread(c, CheckingOwn)], map[], {}, {}, []);
    RunSnoc(INITIAL, run[..2], run[2]);
    assert run[..3] == run[..2] + [run[2]];
    assert Run(INITIAL, run[..3]) == State(map[0 := Thread(c, AtOnce)], map[], {}, {}, []);
    RunSnoc(INITIAL, run[..3], run[3]);
    assert run[..4] == run[..3] + [run[3]];
  }

  lemma LoneCallReturns(gvr: string)
    requires gvr != "" && Specs.ParseGVR(gvr).None?
    ensures var key, c := WarmKey(gvr, ""), Call(gvr, "", false);
            Run(INITIAL, LoneCall(gvr)) == State(map[0 := Thread(c, Returned)], map[key := Done(c)], {}, {}, [])
  {
    var key, c, run := WarmKey(gvr, ""), Call(gvr, "", false), LoneCall(gvr);
    LoneCallEnters(gvr);
    RunSnoc(INITIAL, run[..4], run[4]);
    assert run[..5] == run[..4] + [run[4]];
    assert !Parses(c);
    assert Run(INITIAL, run[..5]) == State(map[0 := Thread(c, Leaving)], map[key := Running(0)], {}, {}, []);
    RunSnoc(INITIAL, run[..5], run[5]);
    assert run == run[..5] + [run[5]];
  }

  /** A type that does not parse uses its once up without starting anything, for good. */
  lemma UnparsableIsFinal(gvr: string, after: seq<Action>)
    requires gvr != "" && Specs.ParseGVR(gvr).None?
    ensures var key := WarmKey(gvr, "");
            var s := Run(Run(INITIAL, LoneCall(gvr)), after);
            key in s.once && s.once[key].Done? && key !in s.started && key !in s.warmed
  {
    LoneCallReturns(gvr);
    FailedStartIsFinal(LoneCall(gvr), after, WarmKey(gvr, ""));
  }

  lemma {:induction false} RunAppend(a: seq<Action>, b: seq<Action>)
    ensures Run(INITIAL, a + b) == Run(Run(INITIAL, a), b)
    decreases |b|
  {
    if b == [] {
      assert a + b == a;
    } else {
      RunAppend(a, b[..|b| - 1]);
      assert (a + b)[..|a + b| - 1] == a + b[..|b| - 1];
    }
  }
}
