# lockguard — a verified model of the Redis lock guard

This project models `LockGuard`, the distributed lock of the `redispattern/lockguard`
package. A caller builds a guard for one key with `New`. Then `Run` does four things:
- It tries up to `retryTimes` times to take the key with SETNX, each time under a fresh
  random token.
- It runs the caller's handler while racing it against the caller's context.
- It releases the key with a Lua compare-and-delete script, so only the token that took
  the key can delete it.
- It returns the handler's error, the context's error, or a "lock not obtained" error
  that names the key.

The model has three modules:

- `Rediser` (`rediser.dfy`) is the store. Its contents are a `map<string, string>`.
  - `SetIfAbsent` gives the meaning of SETNX and `DeleteIfEquals` the meaning of the
    release script.
  - `Interfere` stands for what other clients, or lease expiry, do to the lock key while
    this guard is not looking.
  - The class `Redis` holds the shared map. Its methods change the map in place, and each
    is proved equal to the matching function.
- `LockSpec` (`lock_spec.dfy`) holds the guard's state as values.
  - The `Lock` record, the option `Setter`s and `Construct` describe construction.
  - `Reset`, `Obtain` and `UnLock` are the per-attempt steps.
  - `RunFrom` and `Run` are the whole retry loop. The lemmas state what `Run` promises.
- `Lockguard` (`lock_guard.dfy`) holds the class `LockGuard`. Its `lock` field is updated
  in place by `Reset`, `Obtain` and the `Run` loop. `UnLock` changes only the shared store.
  The class refers to the shared `Redis` object. The module also holds the method `New`.
  Each method's postcondition says that its new state is the corresponding `LockSpec`
  function of its old state.

Everything the guard cannot see is a parameter:
- `env(i)` says, for attempt `i`, three things:
  - what happened to the key before the attempt;
  - whether drawing the token succeeded;
  - how the SETNX round trip went. It either succeeded, never reached the store, or ran
    but lost its reply.
- `race` says three things:
  - who won the race between the handler and the context;
  - what happened to the key while the handler ran;
  - how the release script's round trip went. A script that never reached the store
    leaves the key holding our token until its lease expires.

Three behaviours of the code are kept as they are:

- When `retryTimes > 1`, the code sleeps after every failed attempt, the last one
  included (`lock_guard.go:59-67`). So three failed attempts give three backoff sleeps
  (`RunFromAttempts`).
- `retryTimes <= 0` makes no attempt, and `Run` returns the not-obtained error at once
  (`RunWithoutAttempts`).
- A SETNX that ran but whose reply was lost leaves the key holding this attempt's token
  while `locked` stays false (`Fault.ReplyLost`). This guard's release then leaves the key
  alone, and any later attempt on that store fails until the key expires
  (`ObtainAfterLostReply`). If nothing else touches the key, the rest of that `Run` fails
  too (`RunFromAgainstHeldKey`).

## Model

| member | source | states |
|---|---|---|
| `Rediser.SetIfAbsent` | redispattern/lockguard/lock_guard.go:136-141 | SETNX replies true exactly when the reply arrives and the key was absent. It never overwrites a present key, and it touches no other key. A lost reply still leaves the key written. |
| `Rediser.DeleteIfEquals` | redispattern/lockguard/lock_guard.go:17-22 | The script returns 1 and deletes the key exactly when the key holds the expected value. Otherwise it returns 0 and leaves the store unchanged. An absent key is never matched, and no other key is touched. |
| `Rediser.SetIfAbsentExcludes` | redispattern/lockguard/lock_guard.go:136-141 | After one successful SETNX on a key, any other SETNX on it fails and does not change the store. This is mutual exclusion. |
| `Rediser.DeleteIfEqualsUndoesSetIfAbsent` | redispattern/lockguard/lock_guard.go:17-22 | The token that took an absent key deletes it and restores the store exactly. Any other token leaves the store as SETNX left it. |
| `Rediser.Redis.SetNX` | redispattern/lockguard/lock_guard.go:136-137 | The in-place SETNX on the shared store equals `SetIfAbsent`, both reply and new contents. |
| `Rediser.Redis.EvalDelScript` | redispattern/lockguard/lock_guard.go:153-154 | When the script reaches the store, the shared store changes as `DeleteIfEquals` says. When it never reaches the store, the store is unchanged. The client gets the script's count only when the reply arrives, and an error otherwise. |
| `LockSpec.Defaults` | redispattern/lockguard/lock_guard.go:38-44 | Definition of the lock `New` starts from: the given key, an empty token, 1 attempt, a 30 s lease, not held. |
| `LockSpec.ApplySetters` | redispattern/lockguard/lock_guard.go:45-49 | Definition of the setter loop: the setters run in order, each on the lock the previous one returned. The first error ends the loop and is the outcome. |
| `LockSpec.ApplySettersSplit` | redispattern/lockguard/lock_guard.go:45-49 | Applying the setters in two stretches gives the same result as applying them all. A refusal in the first stretch is final. |
| `LockSpec.ApplySettersStopsAtRefusal` | redispattern/lockguard/lock_guard.go:45-49 | The first setter that returns an error decides the outcome, and the setters after it do not matter. |
| `LockSpec.Construct` | redispattern/lockguard/lock_guard.go:32-52 | An empty key gives `KeyLengthIsZero`. A non-empty key with no setters gives key, `""`, 1 attempt, 30 s, not held. A first setter that refuses makes construction fail with its error. |
| `LockSpec.Reset` | redispattern/lockguard/lock_guard.go:144-147 | Afterwards the lock is not held and its token is `""`. Key, attempt count and lease are unchanged. |
| `LockSpec.Obtain` | redispattern/lockguard/lock_guard.go:122-142 | `locked` changes only when a token was drawn and SETNX replied without error, and then it is true exactly when the key was absent. The token is stored in `Value` before SETNX. A failed random read or cipher leaves the lock and the store as they were. Only the lock key can change in the store, and never when it was present. On success the store gains exactly key ↦ token. |
| `LockSpec.ObtainExcludes` | redispattern/lockguard/lock_guard.go:136-141 | Once one guard's attempt has taken a key, an attempt by another guard for the same key fails, whatever its draw and fault. |
| `LockSpec.UnLock` | redispattern/lockguard/lock_guard.go:149-155 | Release does nothing unless the lock is held. When held and the script reaches the store, it removes the key exactly when the key still holds this lock's token. A script that never reaches the store changes nothing. It never writes a value and never touches another key. |
| `LockSpec.ObtainThenUnLockRestores` | redispattern/lockguard/lock_guard.go:122-155 | A successful attempt followed directly by its own release leaves the store exactly as it was before the attempt. |
| `LockSpec.ObtainAfterLostReply` | redispattern/lockguard/lock_guard.go:136-141 | When SETNX writes an absent key but its reply is lost, the key holds the token while the lock is not held. The guard's release then leaves the key alone, and any following attempt on that store fails. |
| `LockSpec.RaceError` | redispattern/lockguard/lock_guard.go:101-106 | The error `Run` returns is nil exactly when the handler returned nil before the context ended. A panic is reported as that panic value. An ended context is reported as a context error. Neither is ever reported as success. |
| `LockSpec.RunFrom` | redispattern/lockguard/lock_guard.go:56-111 | Definition of the retry loop from attempt `i` on. Each attempt lets the outside world act on the key, then resets and obtains. A failed attempt records a backoff for index `i` when `retryTimes > 1`, then the loop goes on. The first attempt that holds the lock runs the race, releases, and returns the race's error. After `retryTimes` attempts the loop returns `LockNotObtained(key)`. |
| `LockSpec.Run` | redispattern/lockguard/lock_guard.go:55-112 | Definition of a whole `Run`: the retry loop from attempt 0, with nothing recorded yet. |
| `LockSpec.RunFromAttempts` | redispattern/lockguard/lock_guard.go:56-111 | `Run` makes at most `retryTimes` attempts and stops at the first one that holds the lock. If one holds it, `Run` releases once and returns the race's error. Otherwise it makes all `retryTimes` attempts and returns `LockNotObtained(key)`. When `retryTimes > 1`, every failed attempt `i` is followed by a backoff for index `i`. |
| `LockSpec.RunAttempts` | redispattern/lockguard/lock_guard.go:55-111 | The same attempt bounds, stop at first success, final error and backoff indices, for a whole `Run`. |
| `LockSpec.RunWithoutAttempts` | redispattern/lockguard/lock_guard.go:56-111 | With `retryTimes <= 0`, `Run` makes no attempt, changes nothing and returns the not-obtained error. |
| `LockSpec.RunFromFrame` | redispattern/lockguard/lock_guard.go:56-111 | `Run` changes no store key other than the lock's own. It keeps the lock's key, attempt count and lease. |
| `LockSpec.RunFromReleases` | redispattern/lockguard/lock_guard.go:101-109 | When the release script reaches the store, the key is gone afterwards if it was untouched or expired meanwhile. If another client took it with a different token, that client's value is kept. When the script never reaches the store, an untouched key keeps our token, and another client's value is kept. This holds whoever won the race, including a panicking handler. |
| `LockSpec.RunFromAgainstHeldKey` | redispattern/lockguard/lock_guard.go:56-68 | If another client holds the key and nobody touches it before any attempt still to come, every remaining attempt fails. `Run` makes all of them, leaves the store unchanged and returns the not-obtained error. |
| `Lockguard.LockGuard.Reset` | redispattern/lockguard/lock_guard.go:144-147 | The guard's lock becomes `LockSpec.Reset` of the old lock, and the store is untouched. |
| `Lockguard.LockGuard.Obtain` | redispattern/lockguard/lock_guard.go:122-142 | The guard's lock and the shared store become `LockSpec.Obtain` of their old values. |
| `Lockguard.LockGuard.UnLock` | redispattern/lockguard/lock_guard.go:149-155 | The shared store becomes `LockSpec.UnLock` of its old contents and the script's fault. The script's reply is ignored. The guard's lock is unchanged. |
| `Lockguard.LockGuard.Run` | redispattern/lockguard/lock_guard.go:55-112 | The retry loop leaves the lock, the store, the returned error, the per-attempt trace, the backoff indices and the release flag exactly as `LockSpec.Run` describes. |
| `Lockguard.New` | redispattern/lockguard/lock_guard.go:32-52 | An empty key gives no guard and `KeyLengthIsZero`. A setter's refusal gives no guard and that error. Otherwise a fresh guard holds `Construct`'s lock and the given store. |

## Left out

- Goroutines, channels, `select`, the ticker, `renewTTL` and `tickInterval` are left out. The concurrent part of `Run` becomes one input, `race`, holding the winner and what happened to the key meanwhile. Lease renewal has no effect on the map, because the map keeps no expiry times. Lease expiry appears as the `Expired` interference.
- The handler goroutine can block forever when the context wins, because nobody receives its send. This is not modelled, since it is about concurrency.
- When the context wins, `Run` releases the key while the handler may still be running (`lock_guard.go:103-107`). Another client can then take the key during that handler's critical section. The single `race` input cannot express this overlap.
- `time.Sleep` and the backoff package are not part of this model. That package is a foreign library and the delays are wall-clock time. Only the attempt index handed to `Backoff` is recorded, in the ghost `backoffs`.
- `crypto/rand`, `rc4` and the constant cipher key `redisLockKey` are left out. They are foreign cryptography. The token is an opaque string supplied per attempt, and the random read and the cipher can each fail. Nothing in the model assumes tokens are unique. `RunFromReleases` shows that a token equal to ours is mistaken for ours.
- Panic recovery and `fmt.Errorf` formatting are collapsed. A panic value becomes `Panicked(value)`, whether or not it was already an error. The not-obtained error is `LockNotObtained(key)`, not its formatted text.
- The Redis client is not modelled. The store is a map. Each command's round trip either succeeds, never reaches the store, or runs but loses its reply (`Fault`). The source ignores the release script's outcome. So a release that never reached the store leaves the key holding our token until its lease expires, and other guards' attempts fail until then. `RunFromReleases` states the "key is gone" result only for a script that reached the store.
- `Rediser.Redis.SetNX` does not store the lease duration it is given. The map keeps no expiry times.
- Setters act only on the lock's own fields. The Go `Lock` also holds the Redis client, which a setter could replace. Here the guard keeps the client as a separate constant field.
- Go's 64-bit `int` for `retryTimes` and `time.Duration` is modelled as an unbounded `int`. The loop counter stays below `retryTimes`, so it cannot overflow.
