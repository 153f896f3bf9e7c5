/** The life of the requests started by `makeRequest` in util.jsonp, and of the
    global callback registry they share.

    The page is a `Process`: the global object's callback slots (`registry`)
    and one `Operation` per call of `makeRequest`. Everything that happens to a
    request after the call returns arrives as an `Event` from the event loop:
    the injected script calling a global callback, the script tag's `onerror`,
    the timeout, the promise's `then` reactions (which run `clearRequest`), and
    the two delayed clean-ups scheduled by `clear` (0 ms) and `removeCallback`
    (500 ms). `Step` gives the effect of one event; class `Loader` holds the
    same state in fields and performs each event in place. */
module JsonpLoader {
  import opened JsValues
  import opened JsonpRequest
  import opened JsonpResponse

  /** The state of the promise made by `ym.vow.defer()`. */
  datatype Deferred = Pending | Resolved(value: JsValue) | Rejected(reason: JsValue)

  /** `deferred.resolve` / `deferred.reject`: a settled promise ignores them. */
  function Settle(d: Deferred, o: Outcome): (r: Deferred)
    ensures !r.Pending?
    ensures !d.Pending? ==> r == d
    ensures d.Pending? && o.Resolve? ==> r == Resolved(o.value)
    ensures d.Pending? && o.Reject? ==> r == Rejected(o.reason)
  {
    if !d.Pending? then d
    else match o
      case Resolve(v) => Resolved(v)
      case Reject(e) => Rejected(e)
  }

  /** `exceededError`, the rejection reason of a request that timed out. */
  const ExceededError := MessageObject("timeoutExceeded")

  /** `scriptError`, the rejection reason of a script that failed to load. */
  const ScriptLoadError := MessageObject("scriptError")

  /** A global callback slot: the live callback of request `op`, or `undefFunc`,
      the no-op that replaces it at clean-up. */
  datatype Entry = Live(op: nat) | Inert

  /** What one call of `makeRequest` keeps in its closure, plus the timers it
      has scheduled:
      - `callbackName`: the registered global name, `None` when `padding` was given;
      - `checkResponse`, `responseField`, `timeout`: the defaulted options;
      - `deferred`: the promise's state;
      - `reactionDue`: settled, and the `then(clearRequest, clearRequest)` reaction not yet run;
      - `clearRuns`: how many times `clearRequest` has run;
      - `timerArmed`: the timeout is scheduled and has neither fired nor been cleared;
      - `tagAttached`: the script tag is in the document;
      - `tagRemovalDue`: the 0 ms tag removal scheduled by `clear` has not run yet;
      - `deleteDue`: the 500 ms deletion scheduled by `removeCallback` has not run yet. */
  datatype Operation = Operation(
    callbackName: Option<string>,
    checkResponse: bool,
    responseField: string,
    timeout: int,
    deferred: Deferred,
    reactionDue: bool,
    clearRuns: nat,
    timerArmed: bool,
    tagAttached: bool,
    tagRemovalDue: bool,
    deleteDue: bool)

  /** The page: the global callback slots and every request started so far,
      numbered in the order of the `makeRequest` calls. */
  datatype Process = Process(registry: map<string, Entry>, ops: seq<Operation>)

  /** Something the event loop delivers. */
  datatype Event =
    | Load(opts: Options, generated: string)  // a call of makeRequest; `generated` is prefix() + gen()
    | Invoke(name: string, res: JsValue)      // a script calls window[name](res)
    | ScriptError(op: nat)                    // tag.onerror of request `op`
    | Timeout(op: nat)                        // the timeout of request `op` fires
    | Reactions(op: nat)                      // the promise of request `op` runs its then-callbacks
    | TagRemoval(op: nat)                     // the 0 ms timer set by clear()
    | CallbackDeletion(op: nat)               // the 500 ms timer set by removeCallback()

  /** The name `clear` passes to `removeCallback`: `if (callbackName)` skips an
      absent or empty name. */
  function RemovedName(o: Operation): (r: Option<string>)
    ensures r.Some? <==> o.callbackName.Some? && o.callbackName.value != ""
    ensures r.Some? ==> r == o.callbackName
  {
    if o.callbackName.Some? && o.callbackName.value != "" then o.callbackName else None
  }

  /** A fresh request: pending, with its timer armed and its tag attached. */
  function NewOperation(opts: Options, generated: string): (o: Operation)
    ensures o.callbackName == CallbackName(opts, generated)
    ensures o.checkResponse == EffectiveCheck(opts) && o.responseField == EffectiveField(opts)
    ensures o.timeout == EffectiveTimeout(opts)
    ensures o.deferred == Pending && o.timerArmed && o.tagAttached && o.clearRuns == 0
    ensures !o.reactionDue && !o.tagRemovalDue && !o.deleteDue
  {
    Operation(CallbackName(opts, generated), EffectiveCheck(opts), EffectiveField(opts),
              EffectiveTimeout(opts), Pending, false, 0, true, true, false, false)
  }

  /** `makeRequest`: append the new request and, unless `padding` was given,
      set `window[callbackName]` to its live callback. */
  function LoadStep(p: Process, opts: Options, generated: string): (r: Process)
    ensures |r.ops| == |p.ops| + 1 && r.ops[..|p.ops|] == p.ops
    ensures r.ops[|p.ops|] == NewOperation(opts, generated)
    ensures opts.padding != "" ==> r.registry == p.registry
    ensures opts.padding == "" ==> r.registry == p.registry[Token(opts, generated) := Live(|p.ops|)]
  {
    var o := NewOperation(opts, generated);
    var registry := match o.callbackName
      case None => p.registry
      case Some(name) => p.registry[name := Live(|p.ops|)];
    Process(registry, p.ops + [o])
  }

  /** Request `i`'s promise receives `outcome`; if it was still pending it is
      now settled and its then-reaction is queued. */
  function SettleOp(p: Process, i: nat, outcome: Outcome): (r: Process)
    requires i < |p.ops|
    ensures r.registry == p.registry && OnlyOpChanged(p, r, i)
    ensures r.ops[i].deferred == Settle(p.ops[i].deferred, outcome)
    ensures r.ops[i].reactionDue == (p.ops[i].reactionDue || p.ops[i].deferred.Pending?)
    ensures !p.ops[i].deferred.Pending? ==> r == p
  {
    var o := p.ops[i];
    if o.deferred.Pending? then
      p.(ops := p.ops[i := o.(deferred := Settle(o.deferred, outcome), reactionDue := true)])
    else p
  }

  /** `window[name](res)`: a live callback classifies the response and settles
      its own request; the no-op stand-in, or no function at all, does nothing
      to any request. */
  function InvokeStep(p: Process, name: string, res: JsValue): (r: Process)
    ensures r.registry == p.registry && |r.ops| == |p.ops|
    ensures !(name in p.registry && p.registry[name].Live? && p.registry[name].op < |p.ops|) ==> r == p
    ensures name in p.registry && p.registry[name].Live? && p.registry[name].op < |p.ops| ==>
              var i := p.registry[name].op;
              && OnlyOpChanged(p, r, i)
              && r.ops[i].deferred
                 == Settle(p.ops[i].deferred, Classify(p.ops[i].checkResponse, p.ops[i].responseField, res))
              && r.ops[i].timerArmed == p.ops[i].timerArmed
  {
    if name in p.registry && p.registry[name].Live? && p.registry[name].op < |p.ops| then
      var i := p.registry[name].op;
      SettleOp(p, i, Classify(p.ops[i].checkResponse, p.ops[i].responseField, res))
    else p
  }

  /** `tag.onerror`: `deferred.reject(scriptError)`. */
  function ScriptErrorStep(p: Process, i: nat): (r: Process)
    ensures r.registry == p.registry && |r.ops| == |p.ops|
    ensures i >= |p.ops| ==> r == p
    ensures i < |p.ops| ==>
              && OnlyOpChanged(p, r, i)
              && r.ops[i].deferred == Settle(p.ops[i].deferred, Reject(ScriptLoadError))
              && r.ops[i].timerArmed == p.ops[i].timerArmed
  {
    if i < |p.ops| then SettleOp(p, i, Reject(ScriptLoadError)) else p
  }

  /** The timeout fires, if it is still scheduled: `deferred.reject(exceededError)`. */
  function TimeoutStep(p: Process, i: nat): (r: Process)
    ensures r.registry == p.registry && |r.ops| == |p.ops|
    ensures !(i < |p.ops| && p.ops[i].timerArmed) ==> r == p
    ensures i < |p.ops| && p.ops[i].timerArmed ==>
              && OnlyOpChanged(p, r, i)
              && r.ops[i].deferred == Settle(p.ops[i].deferred, Reject(ExceededError))
              && !r.ops[i].timerArmed
  {
    if i < |p.ops| && p.ops[i].timerArmed then
      SettleOp(p.(ops := p.ops[i := p.ops[i].(timerArmed := false)]), i, Reject(ExceededError))
    else p
  }

  /** `clearRequest`: `clear(tag, callbackName)` (replace the callback by the
      no-op and schedule its deletion when the name is truthy; schedule the tag
      removal), then `clearTimeout(exceededTimeout)`. */
  function ClearRequest(p: Process, i: nat): (r: Process)
    requires i < |p.ops|
    ensures OnlyOpChanged(p, r, i)
    ensures RemovedName(p.ops[i]).None? ==> r.registry == p.registry
    ensures RemovedName(p.ops[i]).Some? ==> r.registry == p.registry[RemovedName(p.ops[i]).value := Inert]
    ensures r.ops[i].deferred == p.ops[i].deferred && r.ops[i].reactionDue == p.ops[i].reactionDue
    ensures r.ops[i].clearRuns == p.ops[i].clearRuns + 1 && !r.ops[i].timerArmed
    ensures r.ops[i].tagAttached == p.ops[i].tagAttached && r.ops[i].tagRemovalDue
    ensures r.ops[i].deleteDue <==> p.ops[i].callbackName.Some? && p.ops[i].callbackName.value != ""
  {
    var o := p.ops[i];
    var name := RemovedName(o);
    var registry := match name
      case None => p.registry
      case Some(n) => p.registry[n := Inert];
    Process(registry, p.ops[i := o.(clearRuns := o.clearRuns + 1, timerArmed := false,
                                    tagRemovalDue := true, deleteDue := name.Some?)])
  }

  /** The promise runs its queued then-reaction, which is `clearRequest` on
      either path. */
  function ReactionsStep(p: Process, i: nat): (r: Process)
    ensures |r.ops| == |p.ops|
    ensures !(i < |p.ops| && p.ops[i].reactionDue) ==> r == p
    ensures i < |p.ops| && p.ops[i].reactionDue ==>
              && OnlyOpChanged(p, r, i)
              && !r.ops[i].reactionDue && r.ops[i].deferred == p.ops[i].deferred
              && r.ops[i].clearRuns == p.ops[i].clearRuns + 1 && !r.ops[i].timerArmed && r.ops[i].tagRemovalDue
              && (RemovedName(p.ops[i]).None? ==> r.registry == p.registry)
              && (RemovedName(p.ops[i]).Some? ==> r.registry == p.registry[RemovedName(p.ops[i]).value := Inert])
  {
    if i < |p.ops| && p.ops[i].reactionDue then
      ClearRequest(p.(ops := p.ops[i := p.ops[i].(reactionDue := false)]), i)
    else p
  }

  /** The 0 ms timer of `clear`: remove the tag if it is still attached. */
  function TagRemovalStep(p: Process, i: nat): (r: Process)
    ensures r.registry == p.registry && |r.ops| == |p.ops|
    ensures !(i < |p.ops| && p.ops[i].tagRemovalDue) ==> r == p
    ensures i < |p.ops| && p.ops[i].tagRemovalDue ==>
              && OnlyOpChanged(p, r, i)
              && !r.ops[i].tagAttached && !r.ops[i].tagRemovalDue
              && r.ops[i].deferred == p.ops[i].deferred && r.ops[i].clearRuns == p.ops[i].clearRuns
  {
    if i < |p.ops| && p.ops[i].tagRemovalDue then
      p.(ops := p.ops[i := p.ops[i].(tagRemovalDue := false, tagAttached := false)])
    else p
  }

  /** The 500 ms timer of `removeCallback`: `window[name] = undefined; delete window[name]`. */
  function CallbackDeletionStep(p: Process, i: nat): (r: Process)
    ensures |r.ops| == |p.ops|
    ensures !(i < |p.ops| && p.ops[i].deleteDue && RemovedName(p.ops[i]).Some?) ==> r == p
    ensures i < |p.ops| && p.ops[i].deleteDue && RemovedName(p.ops[i]).Some? ==>
              && r.registry == p.registry - {RemovedName(p.ops[i]).value}
              && OnlyOpChanged(p, r, i)
              && !r.ops[i].deleteDue && r.ops[i].deferred == p.ops[i].deferred
  {
    if i < |p.ops| && p.ops[i].deleteDue then
      match RemovedName(p.ops[i])
      case None => p
      case Some(n) => Process(p.registry - {n}, p.ops[i := p.ops[i].(deleteDue := false)])
    else p
  }

  /** `r` differs from `p` at most in request `i`. */
  ghost predicate OnlyOpChanged(p: Process, r: Process, i: nat) {
    |r.ops| == |p.ops| && forall j :: 0 <= j < |p.ops| && j != i ==> r.ops[j] == p.ops[j]
  }

  /** The effect of one event. */
  function Step(p: Process, e: Event): Process {
    match e
    case Load(opts, generated) => LoadStep(p, opts, generated)
    case Invoke(name, res) => InvokeStep(p, name, res)
    case ScriptError(i) => ScriptErrorStep(p, i)
    case Timeout(i) => TimeoutStep(p, i)
    case Reactions(i) => ReactionsStep(p, i)
    case TagRemoval(i) => TagRemovalStep(p, i)
    case CallbackDeletion(i) => CallbackDeletionStep(p, i)
  }

  /** The effect of a sequence of events, in order. */
  function Run(p: Process, events: seq<Event>): Process
    decreases |events|
  {
    if events == [] then p else Run(Step(p, events[0]), events[1..])
  }

  /** How the parts of one request's state hang together. */
  ghost predicate OpInv(o: Operation) {
    && o.clearRuns <= 1
    && (o.deleteDue ==> RemovedName(o).Some?)
    && (o.deferred.Pending? ==>
          !o.reactionDue && o.clearRuns == 0 && o.timerArmed && o.tagAttached && !o.tagRemovalDue && !o.deleteDue)
    && (o.reactionDue ==> !o.deferred.Pending? && o.clearRuns == 0 && o.tagAttached && !o.tagRemovalDue && !o.deleteDue)
    && (!o.deferred.Pending? && !o.reactionDue ==> o.clearRuns == 1 && !o.timerArmed)
  }

  /** A live slot belongs to the request registered under that name, and a
      request that has been cleaned up no longer owns a live slot under a
      truthy name. */
  ghost predicate LiveEntry(p: Process, k: string) {
    k in p.registry && p.registry[k].Live? ==>
      var i := p.registry[k].op;
      i < |p.ops| && p.ops[i].callbackName == Some(k) && (k == "" || p.ops[i].clearRuns == 0)
  }

  ghost predicate Inv(p: Process) {
    && (forall i :: 0 <= i < |p.ops| ==> OpInv(p.ops[i]))
    && (forall k :: LiveEntry(p, k))
  }

  /** The empty page satisfies the invariant. */
  lemma InitialInv()
    ensures Inv(Process(map[], []))
  {
  }

  /** Every event keeps the invariant. */
  lemma StepInv(p: Process, e: Event)
    requires Inv(p)
    ensures Inv(Step(p, e))
  {
    var q := Step(p, e);
    match e {
      case Load(opts, generated) =>
        forall k ensures LiveEntry(q, k) {
          assert LiveEntry(p, k);
        }
      case Invoke(name, res) =>
        forall k ensures LiveEntry(q, k) {
          assert LiveEntry(p, k);
        }
      case ScriptError(i) =>
        forall k ensures LiveEntry(q, k) {
          assert LiveEntry(p, k);
        }
      case Timeout(i) =>
        forall k ensures LiveEntry(q, k) {
          assert LiveEntry(p, k);
        }
      case Reactions(i) =>
        forall k ensures LiveEntry(q, k) {
          assert LiveEntry(p, k);
        }
      case TagRemoval(i) =>
        forall k ensures LiveEntry(q, k) {
          assert LiveEntry(p, k);
        }
      case CallbackDeletion(i) =>
        forall k ensures LiveEntry(q, k) {
          assert LiveEntry(p, k);
        }
    }
  }

  /** Every sequence of events keeps the invariant; in particular
      `clearRequest` never runs twice for one request. */
  lemma {:induction false} RunInv(p: Process, events: seq<Event>)
    requires Inv(p)
    ensures Inv(Run(p, events))
    ensures forall i :: 0 <= i < |Run(p, events).ops| ==> Run(p, events).ops[i].clearRuns <= 1
    decreases |events|
  {
    if events != [] {
      StepInv(p, events[0]);
      RunInv(Step(p, events[0]), events[1..]);
    }
  }

  /** Events never drop a request, and only `Load` adds one. */
  lemma StepKeepsOps(p: Process, e: Event)
    ensures |Step(p, e).ops| == |p.ops| + (if e.Load? then 1 else 0)
  {
  }

  /** Events other than the request's own triggers never change its promise,
      and a settled promise is never changed by any event. */
  lemma StepSettledFinal(p: Process, e: Event, i: nat)
    requires i < |p.ops| && !p.ops[i].deferred.Pending?
    ensures i < |Step(p, e).ops| && Step(p, e).ops[i].deferred == p.ops[i].deferred
  {
  }

  /** Settle-once over any run: once a request's promise is settled, no later
      callback invocation, script error or timeout changes its value. */
  lemma {:induction false} SettledStaysSettled(p: Process, events: seq<Event>, i: nat)
    requires i < |p.ops| && !p.ops[i].deferred.Pending?
    ensures i < |Run(p, events).ops| && Run(p, events).ops[i].deferred == p.ops[i].deferred
    decreases |events|
  {
    if events != [] {
      StepSettledFinal(p, events[0], i);
      SettledStaysSettled(Step(p, events[0]), events[1..], i);
    }
  }

  /** Only three events can settle a pending request, and each settles it with
      its own outcome: the live callback registered for it (the classified
      response), its script's `onerror` (`scriptError`), or its timeout
      (`timeoutExceeded`). */
  lemma SettledBy(p: Process, e: Event, i: nat)
    requires Inv(p) && i < |p.ops| && p.ops[i].deferred.Pending?
    requires !Step(p, e).ops[i].deferred.Pending?
    ensures Step(p, e).ops[i].reactionDue
    ensures
      || (e.Invoke? && e.name in p.registry && p.registry[e.name] == Live(i)
          && Step(p, e).ops[i].deferred
             == Settle(Pending, Classify(p.ops[i].checkResponse, p.ops[i].responseField, e.res)))
      || (e.ScriptError? && e.op == i && Step(p, e).ops[i].deferred == Rejected(ScriptLoadError))
      || (e.Timeout? && e.op == i && Step(p, e).ops[i].deferred == Rejected(ExceededError))
  {
  }

  /** Only the first trigger counts: if a pending request is settled at the end
      of a run, some event of the run found it pending and settled it, and the
      final value is the one that event gave. */
  lemma {:induction false} FirstTriggerDecides(p: Process, events: seq<Event>, i: nat)
    requires i < |p.ops| && p.ops[i].deferred.Pending?
    requires i < |Run(p, events).ops| && !Run(p, events).ops[i].deferred.Pending?
    ensures exists k :: 0 <= k < |events|
              && i < |Run(p, events[..k]).ops|
              && Run(p, events[..k]).ops[i].deferred.Pending?
              && i < |Step(Run(p, events[..k]), events[k]).ops|
              && Run(p, events).ops[i].deferred == Step(Run(p, events[..k]), events[k]).ops[i].deferred
    decreases |events|
  {
    assert events != [];
    var q := Step(p, events[0]);
    StepKeepsOps(p, events[0]);
    assert events[..0] == [];
    if !q.ops[i].deferred.Pending? {
      SettledStaysSettled(q, events[1..], i);
    } else {
      FirstTriggerDecides(q, events[1..], i);
      var k :| 0 <= k < |events[1..]|
               && i < |Run(q, events[1..][..k]).ops|
               && Run(q, events[1..][..k]).ops[i].deferred.Pending?
               && i < |Step(Run(q, events[1..][..k]), events[1..][k]).ops|
               && Run(p, events).ops[i].deferred == Step(Run(q, events[1..][..k]), events[1..][k]).ops[i].deferred;
      assert events[..k + 1][0] == events[0] && events[..k + 1][1..] == events[1..][..k];
      assert Run(p, events[..k + 1]) == Run(q, events[1..][..k]);
      assert events[k + 1] == events[1..][k];
    }
  }

  /** A request with no callback invocation and no script error before its
      timeout is rejected with `timeoutExceeded`. */
  lemma TimeoutRejects(p: Process, i: nat)
    requires Inv(p) && i < |p.ops| && p.ops[i].deferred.Pending?
    ensures Step(p, Timeout(i)).ops[i].deferred == Rejected(ExceededError)
    ensures !Step(p, Timeout(i)).ops[i].timerArmed
  {
  }

  /** `clearRequest` on a settled request: the timer is cancelled, the callback
      slot holds the no-op, both delayed clean-ups are scheduled, the promise
      keeps its value, and no other slot changes. Running the reactions again
      does nothing. */
  lemma CleanupEffects(p: Process, i: nat)
    requires Inv(p) && i < |p.ops| && p.ops[i].reactionDue
    ensures var q := Step(p, Reactions(i));
            && q.ops[i].clearRuns == 1 && !q.ops[i].timerArmed && !q.ops[i].reactionDue
            && q.ops[i].deferred == p.ops[i].deferred
            && q.ops[i].tagRemovalDue && q.ops[i].tagAttached
            && (RemovedName(p.ops[i]).Some? ==>
                  q.registry == p.registry[RemovedName(p.ops[i]).value := Inert] && q.ops[i].deleteDue)
            && (RemovedName(p.ops[i]).None? ==> q.registry == p.registry && !q.ops[i].deleteDue)
            && Step(q, Reactions(i)) == q
  {
  }

  /** After `clearRequest` no timeout and no script error changes anything. */
  lemma NoTriggerAfterCleanup(p: Process, i: nat)
    requires Inv(p) && i < |p.ops| && p.ops[i].clearRuns == 1
    ensures Step(p, Timeout(i)) == p
    ensures Step(p, ScriptError(i)) == p
  {
  }

  /** Calling a slot that holds the no-op, or a name with no slot, changes nothing. */
  lemma InertCallIsNoop(p: Process, name: string, res: JsValue)
    requires name !in p.registry || p.registry[name] == Inert
    ensures Step(p, Invoke(name, res)) == p
  {
  }

  /** The 0 ms tag removal detaches the tag once; running it again is harmless. */
  lemma TagRemovalIdempotent(p: Process, i: nat)
    requires Inv(p) && i < |p.ops| && p.ops[i].tagRemovalDue
    ensures var q := Step(p, TagRemoval(i));
            && !q.ops[i].tagAttached && Step(q, TagRemoval(i)) == q
            && q.registry == p.registry && q.ops[i].deferred == p.ops[i].deferred
  {
  }

  /** The 500 ms phase: the slot for the request's name is gone afterwards,
      and every other slot is as it was. */
  lemma DeletionRemovesOnlyOwnName(p: Process, i: nat)
    requires Inv(p) && i < |p.ops| && p.ops[i].deleteDue
    ensures var q := Step(p, CallbackDeletion(i));
            && p.ops[i].callbackName.Some?
            && p.ops[i].callbackName.value !in q.registry
            && q.registry == p.registry - {p.ops[i].callbackName.value}
            && !q.ops[i].deleteDue && Step(q, CallbackDeletion(i)) == q
  {
  }

  /** The request an event acts on, if any. */
  function Target(p: Process, e: Event): Option<nat> {
    match e
    case Load(_, _) => None
    case Invoke(name, _) =>
      if name in p.registry && p.registry[name].Live? then Some(p.registry[name].op) else None
    case ScriptError(i) => Some(i)
    case Timeout(i) => Some(i)
    case Reactions(i) => Some(i)
    case TagRemoval(i) => Some(i)
    case CallbackDeletion(i) => Some(i)
  }

  /** The one registry name an event may write, if any. */
  function Touched(p: Process, e: Event): Option<string> {
    match e
    case Load(opts, generated) => CallbackName(opts, generated)
    case Invoke(_, _) => None
    case ScriptError(_) => None
    case Timeout(_) => None
    case TagRemoval(_) => None
    case Reactions(i) => if i < |p.ops| then RemovedName(p.ops[i]) else None
    case CallbackDeletion(i) => if i < |p.ops| then RemovedName(p.ops[i]) else None
  }

  /** Requests do not interfere: an event changes at most the one request it
      targets and at most the one registry name it touches; a callback call
      only ever reaches the request registered under that very name. */
  lemma StepFrame(p: Process, e: Event)
    requires Inv(p)
    ensures forall j :: 0 <= j < |p.ops| && Target(p, e) != Some(j) ==> Step(p, e).ops[j] == p.ops[j]
    ensures forall k :: Touched(p, e) != Some(k) ==>
              (k in p.registry <==> k in Step(p, e).registry)
              && (k in p.registry ==> Step(p, e).registry[k] == p.registry[k])
    ensures e.Invoke? && Target(p, e).Some? ==>
              Target(p, e).value < |p.ops| && p.ops[Target(p, e).value].callbackName == Some(e.name)
  {
    if e.Invoke? && Target(p, e).Some? {
      assert LiveEntry(p, e.name);
    }
  }

  /** The page's state, updated in place as the event loop delivers events. */
  class Loader {
    var registry: map<string, Entry>
    var ops: seq<Operation>

    function State(): Process
      reads this
    {
      Process(registry, ops)
    }

    ghost predicate Valid()
      reads this
    {
      Inv(State())
    }

    constructor ()
      ensures Valid() && registry == map[] && ops == []
    {
      registry := map[];
      ops := [];
    }

    /** `makeRequest(opts)`: returns the request's number and the script URL. */
    method MakeRequest(opts: Options, generated: string, salt: nat, stringify: Params -> string)
      returns (id: nat, url: string)
      requires Valid()
      modifies this
      ensures Valid() && State() == Step(old(State()), Load(opts, generated))
      ensures id == old(|ops|) && ops[id].deferred == Pending
      ensures url == BuildUrl(opts, generated, salt, stringify)
    {
      var name := CallbackName(opts, generated);
      id := |ops|;
      if name.Some? {
        registry := registry[name.value := Live(id)];
      }
      url := BuildUrl(opts, generated, salt, stringify);
      ops := ops + [NewOperation(opts, generated)];
      StepInv(old(State()), Load(opts, generated));
    }

    /** The injected script calls `window[name](res)`. */
    method CallGlobal(name: string, res: JsValue)
      requires Valid()
      modifies this
      ensures Valid() && State() == Step(old(State()), Invoke(name, res))
    {
      if name in registry && registry[name].Live? && registry[name].op < |ops| {
        var i := registry[name].op;
        var o := ops[i];
        if o.deferred.Pending? {
          var outcome := Classify(o.checkResponse, o.responseField, res);
          ops := ops[i := o.(deferred := Settle(o.deferred, outcome), reactionDue := true)];
        }
      }
      StepInv(old(State()), Invoke(name, res));
    }

    /** The script tag of request `id` reports a load failure. */
    method OnScriptError(id: nat)
      requires Valid()
      modifies this
      ensures Valid() && State() == Step(old(State()), ScriptError(id))
    {
      if id < |ops| && ops[id].deferred.Pending? {
        ops := ops[id := ops[id].(deferred := Rejected(ScriptLoadError), reactionDue := true)];
      }
      StepInv(old(State()), ScriptError(id));
    }

    /** The timeout of request `id` fires. */
    method OnTimeout(id: nat)
      requires Valid()
      modifies this
      ensures Valid() && State() == Step(old(State()), Timeout(id))
    {
      if id < |ops| && ops[id].timerArmed {
        var o := ops[id].(timerArmed := false);
        if o.deferred.Pending? {
          o := o.(deferred := Rejected(ExceededError), reactionDue := true);
        }
        ops := ops[id := o];
      }
      assert State() == Step(old(State()), Timeout(id));
      StepInv(old(State()), Timeout(id));
    }

    /** The promise of request `id` runs its then-reaction, `clearRequest`. */
    method OnSettled(id: nat)
      requires Valid()
      modifies this
      ensures Valid() && State() == Step(old(State()), Reactions(id))
    {
      if id < |ops| && ops[id].reactionDue {
        var o := ops[id];
        var name := RemovedName(o);
        if name.Some? {
          registry := registry[name.value := Inert];
        }
        ops := ops[id := o.(reactionDue := false, clearRuns := o.clearRuns + 1, timerArmed := false,
                            tagRemovalDue := true, deleteDue := name.Some?)];
      }
      assert State() == Step(old(State()), Reactions(id));
      StepInv(old(State()), Reactions(id));
    }

    /** The 0 ms timer of `clear` for request `id`. */
    method OnTagTimer(id: nat)
      requires Valid()
      modifies this
      ensures Valid() && State() == Step(old(State()), TagRemoval(id))
    {
      if id < |ops| && ops[id].tagRemovalDue {
        ops := ops[id := ops[id].(tagRemovalDue := false, tagAttached := false)];
      }
      StepInv(old(State()), TagRemoval(id));
    }

    /** The 500 ms timer of `removeCallback` for request `id`. */
    method OnDeleteTimer(id: nat)
      requires Valid()
      modifies this
      ensures Valid() && State() == Step(old(State()), CallbackDeletion(id))
    {
      if id < |ops| && ops[id].deleteDue {
        var name := RemovedName(ops[id]);
        if name.Some? {
          registry := registry - {name.value};
          ops := ops[id := ops[id].(deleteDue := false)];
        }
      }
      StepInv(old(State()), CallbackDeletion(id));
    }
  }
}
