/**
 The lock guard as the object the caller drives: `New` builds it from a key and option
 setters, and `Run` retries acquisition, runs the (collapsed) critical section and
 releases. Each method updates the guard's lock and the shared store in place and is
 proved to do exactly what the matching function of module LockSpec describes.
 */
module Lockguard {
  import opened Rediser
  import opened LockSpec

  /**
   A distributed lock over one key. One guard serves one caller at a time: every attempt
   starts by resetting its lock, so two callers sharing it would reset each other.
   */
  class LockGuard {
    var lock: Lock
    const redis: Redis

    constructor (redis: Redis, lock: Lock)
      ensures this.redis == redis && this.lock == lock
    {
      this.redis := redis;
      this.lock := lock;
    }

    /** Clears the held flag and the token before an attempt. */
    method Reset()
      modifies this
      ensures lock == LockSpec.Reset(old(lock))
    {
      lock := lock.(locked := false, value := "");
    }

    /**
     One acquisition attempt: a fresh token, then SETNX of it under the lock's key.
     Only a reply saying the key was set marks the lock held.
     */
    method Obtain(draw: TokenDraw, fault: Fault)
      modifies this, redis
      ensures (lock, redis.data) == LockSpec.Obtain(old(lock), old(redis.data), draw, fault)
    {
      if !draw.Token? {
        return;
      }
      lock := lock.(value := draw.token);
      var reply := redis.SetNX(lock.key, lock.value, fault);
      if reply.ReplyError? {
        return;
      }
      lock := lock.(locked := reply.written);
    }

    /**
     Releases the key through the compare-and-delete script, if the lock is held; `fault`
     is how the script's round trip goes, and its reply is ignored.
     */
    method UnLock(fault: Fault)
      modifies redis
      ensures redis.data == LockSpec.UnLock(lock, old(redis.data), fault)
    {
      if !lock.locked {
        return;
      }
      var _ := redis.EvalDelScript(lock.key, lock.value, fault);
    }

    /**
     Up to `retryTimes` attempts; on the first that holds the lock, the critical section
     runs (its race against the caller's context decided by `race`), the key is released
     and the race's error is returned. `env(i)` is what attempt `i` meets: the outside
     world's turn on the key, the token draw and the SETNX fault. The ghost results record
     each attempt's outcome, the attempt index of each backoff sleep, and the release.
     */
    method Run(env: nat -> Attempt, race: RaceOutcome)
      returns (err: Option<Error>, ghost trace: seq<bool>, ghost backoffs: seq<nat>, ghost released: bool)
      modifies this, redis
      ensures Ran(lock, redis.data, err, trace, backoffs, released)
           == LockSpec.Run(old(lock), old(redis.data), env, race)
    {
      trace, backoffs, released := [], [], false;
      var i: nat := 0;
      while i < lock.retryTimes
        invariant i == |trace|
        invariant lock.key == old(lock.key) && lock.retryTimes == old(lock.retryTimes)
        invariant RunFrom(lock, redis.data, env, race, trace, backoffs)
               == LockSpec.Run(old(lock), old(redis.data), env, race)
        decreases lock.retryTimes - i
      {
        var a := env(i);
        redis.Meanwhile(lock.key, a.meanwhile);
        Reset();
        Obtain(a.draw, a.fault);
        if !lock.locked {
          if lock.retryTimes > 1 {
            // time.Sleep of the jittered backoff for attempt i
            backoffs := backoffs + [i];
          }
          trace := trace + [false];
          i := i + 1;
          continue;
        }
        trace := trace + [true];
        redis.Meanwhile(lock.key, race.meanwhile);
        err := RaceError(race.winner);
        UnLock(race.release);
        released := true;
        return;
      }
      err := Some(LockNotObtained(lock.key));
    }
  }

  /**
   Builds a guard: an empty key is refused before anything else; otherwise the defaults
   (one attempt, a 30 s lease, no token, not held) are filled in and each setter applied
   in order, the first refusal ending construction with that error and no guard.
   */
  method New(redis: Redis, key: string, setters: seq<Setter>) returns (guard: LockGuard?, err: Option<Error>)
    ensures key == "" ==> guard == null && err == Some(KeyLengthIsZero)
    ensures Construct(key, setters).Err? ==>
      guard == null && err == Some(Construct(key, setters).error)
    ensures Construct(key, setters).Ok? ==>
      && guard != null && fresh(guard) && err == None
      && guard.lock == Construct(key, setters).value && guard.redis == redis
  {
    if key == "" {
      return null, Some(KeyLengthIsZero);
    }
    var l := Defaults(key);
    for i := 0 to |setters|
      invariant ApplySetters(Defaults(key), setters[..i]) == Ok(l)
    {
      match setters[i](l) {
        case Err(e) =>
          ApplySettersStopsAtRefusal(Defaults(key), setters, i, l, e);
          return null, Some(e);
        case Ok(next) =>
          ApplySettersSplit(Defaults(key), setters[..i], [setters[i]]);
          assert setters[..i + 1] == setters[..i] + [setters[i]];
          l := next;
      }
    }
    assert setters[..|setters|] == setters;
    guard := new LockGuard(redis, l);
    err := None;
  }
}
