/**
 The key-value store that arbitrates the lock, reduced to what the lock guard uses:
 set-if-absent (SETNX), the compare-and-delete script run with EVAL, and the writes that
 other clients (or the store's own lease expiry) may make to the lock key meanwhile.
 The store's contents are a map from key to string value; expiry times are not kept.
 */
module Rediser {

  type Store = map<string, string>

  /** True iff `s` and `t` agree on every key other than `key` (presence and value). */
  predicate SameExcept(s: Store, t: Store, key: string)
  {
    s - {key} == t - {key}
  }

  /** How a command's round trip (SETNX, or EVAL of the release script) can go wrong, as seen by the client. */
  datatype Fault =
    | NoFault     // the command ran and its reply arrived
    | NotApplied  // the command never reached the store; the client gets an error
    | ReplyLost   // the command ran, but the client gets an error instead of its reply

  /** What `cmd.Result()` hands back for SETNX: the flag, or an error. */
  datatype Reply = Flag(written: bool) | ReplyError

  /**
   SETNX key value: writes `value` only when `key` is absent, and replies whether it did.
   A command that ran still changed the store when its reply is lost.
   */
  function SetIfAbsent(s: Store, key: string, value: string, fault: Fault): (r: (Reply, Store))
    ensures r.0 == ReplyError <==> fault != NoFault
    ensures r.0 == Flag(true) <==> fault == NoFault && key !in s
    ensures SameExcept(s, r.1, key)
    ensures key in s ==> r.1 == s
    ensures key !in s ==> (key in r.1 <==> fault != NotApplied)
    ensures key in r.1 && key !in s ==> r.1[key] == value
  {
    var written := key !in s && fault != NotApplied;
    var t := if written then s[key := value] else s;
    if fault == NoFault then (Flag(key !in s), t) else (ReplyError, t)
  }

  /**
   The release script: GET the key; if its value equals the expected one, DEL the key and
   return DEL's count, otherwise return 0. GET of an absent key is nil, which never equals
   the argument, so an absent key is left alone and 0 is returned; DEL of the one present
   key returns 1.
   */
  function DeleteIfEquals(s: Store, key: string, expected: string): (r: (int, Store))
    ensures r.0 == 1 <==> key in s && s[key] == expected
    ensures r.0 == 0 <==> !(key in s && s[key] == expected)
    ensures SameExcept(s, r.1, key)
    ensures key in r.1 <==> key in s && s[key] != expected
    ensures key in r.1 ==> r.1[key] == s[key]
  {
    if key in s && s[key] == expected then (1, s - {key}) else (0, s)
  }

  /** What EVAL of the release script hands back: the script's result, or an error. */
  datatype EvalReply = Deleted(count: int) | EvalError

  /** What other clients, or lease expiry, do to the lock key while this client is not looking. */
  datatype Interference =
    | Untouched               // nobody touched the key
    | Expired                 // the lease ran out (or some other client deleted the key)
    | Overwritten(value: string)  // some other client now holds the key with `value`

  function Interfere(s: Store, key: string, i: Interference): (r: Store)
    ensures SameExcept(s, r, key)
    ensures i == Untouched ==> r == s
    ensures i == Expired ==> key !in r
    ensures i.Overwritten? ==> key in r && r[key] == i.value
  {
    match i
    case Untouched => s
    case Expired => s - {key}
    case Overwritten(v) => s[key := v]
  }

  /**
   The lock key's owner is the holder of its value: once one client's SETNX has succeeded,
   every other SETNX on that key fails until the key is deleted or expires.
   */
  lemma SetIfAbsentExcludes(s: Store, key: string, mine: string, theirs: string, fault: Fault)
    requires SetIfAbsent(s, key, mine, NoFault).0 == Flag(true)
    ensures SetIfAbsent(SetIfAbsent(s, key, mine, NoFault).1, key, theirs, fault).0 != Flag(true)
    ensures SetIfAbsent(SetIfAbsent(s, key, mine, NoFault).1, key, theirs, fault).1
         == SetIfAbsent(s, key, mine, NoFault).1
  {
  }

  /**
   Releasing with the token that acquired the key undoes the acquisition exactly; releasing
   with any other token after the acquisition leaves the store as the acquisition left it.
   */
  lemma DeleteIfEqualsUndoesSetIfAbsent(s: Store, key: string, token: string, other: string)
    requires key !in s
    ensures DeleteIfEquals(SetIfAbsent(s, key, token, NoFault).1, key, token) == (1, s)
    ensures other != token ==>
      DeleteIfEquals(SetIfAbsent(s, key, token, NoFault).1, key, other)
        == (0, SetIfAbsent(s, key, token, NoFault).1)
  {
    var t := SetIfAbsent(s, key, token, NoFault).1;
    assert t == s[key := token];
    assert t - {key} == s;
  }

  /** The store, shared by every client; the lock guard holds a reference to it. */
  class Redis {
    var data: Store

    constructor (initial: Store)
      ensures data == initial
    {
      data := initial;
    }

    /** SETNX key value; the lease duration the source passes along is not modelled. */
    method SetNX(key: string, value: string, fault: Fault) returns (reply: Reply)
      modifies this
      ensures (reply, data) == SetIfAbsent(old(data), key, value, fault)
    {
      var absent := key !in data;
      if absent && fault != NotApplied {
        data := data[key := value];
      }
      reply := if fault == NoFault then Flag(absent) else ReplyError;
    }

    /**
     EVAL of the release script with KEYS = [key] and ARGV = [expected]. A script that never
     reached the store changes nothing; either error leaves the client without a count.
     */
    method EvalDelScript(key: string, expected: string, fault: Fault) returns (reply: EvalReply)
      modifies this
      ensures data == if fault == NotApplied then old(data) else DeleteIfEquals(old(data), key, expected).1
      ensures reply == if fault == NoFault then Deleted(DeleteIfEquals(old(data), key, expected).0) else EvalError
    {
      var count := 0;
      if fault != NotApplied && key in data && data[key] == expected {
        data := data - {key};
        count := 1;
      }
      reply := if fault == NoFault then Deleted(count) else EvalError;
    }

    /** A step of the outside world on the lock key, between this client's own commands. */
    method Meanwhile(key: string, i: Interference)
      modifies this
      ensures data == Interfere(old(data), key, i)
    {
      match i
      case Untouched =>
      case Expired => data := data - {key};
      case Overwritten(v) => data := data[key := v];
    }
  }
}
