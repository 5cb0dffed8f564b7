/** What a decorated task may ask for, and which tasks can be executed. */
module Decorators {
  import opened Wrappers
  import opened Errors
  import opened Settings
  import opened Tasks

  datatype DecorationError =
    | TimeoutNotPositive
    | TimeoutsOutOfOrder
    | DelayOutOfRange
    | DelayWithoutRetryOn
    | NotAnException(entry: Class)
    | RelatedToLockError(entry: Class)

  /** `issubclass(a, LockError) or issubclass(LockError, a)`, class by class. */
  predicate IsRelated(h: Hierarchy, a: Class) {
    (a in h && "LockError" in h[a]) || ("LockError" in h && a in h["LockError"])
  }

  predicate IsException(h: Hierarchy, a: Class) {
    a in h && "BaseException" in h[a]
  }

  /** The checks of `LambdaTaskWrapper.__init__`, in its order. A plain task may list any
      exceptions, kinds of LockError included; a singleton none that is related to it. */
  method Decorate(h: Hierarchy, w: Wrapper) returns (error: Option<DecorationError>)
    ensures
      error.None? <==>
      && (w.timeouts.soft.Some? ==> w.timeouts.soft.value > 0)
      && (w.timeouts.hard.Some? ==> w.timeouts.hard.value > 0)
      && (w.timeouts.soft.Some? && w.timeouts.hard.Some? ==> w.timeouts.soft.value < w.timeouts.hard.value)
      && 0 <= w.retryDelay <= 900
      && (w.retryOn == [] ==> w.retryDelay == 0)
      && (forall t | t in w.retryOn :: IsException(h, t))
      && (w.singleton ==> forall t | t in w.retryOn :: !IsRelated(h, t))
    ensures error.None? <==> AcceptedWrapper(h, w) && forall t | t in w.retryOn :: IsException(h, t)
    ensures error == Some(DelayOutOfRange) ==> w.retryDelay < 0 || w.retryDelay > 900
    ensures error.Some? && error.value.NotAnException? ==>
              error.value.entry in w.retryOn && !IsException(h, error.value.entry)
    ensures error.Some? && error.value.RelatedToLockError? ==>
              w.singleton && error.value.entry in w.retryOn && IsRelated(h, error.value.entry)
  {
    if (w.timeouts.soft.Some? && w.timeouts.soft.value <= 0) || (w.timeouts.hard.Some? && w.timeouts.hard.value <= 0) {
      return Some(TimeoutNotPositive);
    }
    if w.timeouts.soft.Some? && w.timeouts.hard.Some? && w.timeouts.soft.value >= w.timeouts.hard.value {
      return Some(TimeoutsOutOfOrder);
    }
    if w.retryDelay < 0 || w.retryDelay > MAX_DELAY {
      return Some(DelayOutOfRange);
    }
    if w.retryDelay != 0 && w.retryOn == [] {
      return Some(DelayWithoutRetryOn);
    }
    for i := 0 to |w.retryOn|
      invariant forall j | 0 <= j < i :: IsException(h, w.retryOn[j])
    {
      if !IsSubclass(h, w.retryOn[i], BASE_EXCEPTION) {
        assert !IsException(h, w.retryOn[i]);
        return Some(NotAnException(w.retryOn[i]));
      }
    }
    if w.singleton {
      for i := 0 to |w.retryOn|
        invariant forall j | 0 <= j < i :: !IsRelated(h, w.retryOn[j])
      {
        if IsSubclass(h, w.retryOn[i], LOCK_ERROR) || IsSubclass(h, LOCK_ERROR, w.retryOn[i]) {
          assert IsRelated(h, w.retryOn[i]);
          return Some(RelatedToLockError(w.retryOn[i]));
        }
      }
    }
    return None;
  }

  /** A task can be executed if and only if it was decorated, its queue is configured
      and its limits, its own or those of the settings, are in order and within what the queue
      allows; the hard one is also how long its lock is held. */
  lemma ResolvableIff(cfg: Config, name: string)
    requires ValidConfig(cfg)
    ensures Resolvable(cfg, name) ==> name in cfg.tasks
    ensures name in cfg.tasks ==>
      var w := cfg.tasks[name];
      var soft := if w.timeouts.soft.Some? then w.timeouts.soft.value else cfg.defaults.soft;
      var hard := if w.timeouts.hard.Some? then w.timeouts.hard.value else cfg.defaults.hard;
      && (Resolvable(cfg, name) <==>
          w.queue in cfg.queues && 0 < soft < hard <= if cfg.queues[w.queue].BatchQueue? then 3600 else 900)
      && (Resolvable(cfg, name) ==> HardTimeout(cfg, name) == hard)
  {
    if name in cfg.tasks {
      assert AcceptedWrapper(cfg.hierarchy, cfg.tasks[name]);
    }
  }
}
