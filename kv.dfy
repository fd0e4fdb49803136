/**
 * The worker's key-value namespace (`env.CHAT_KV`): string keys, string
 * values, `get` answering null for an absent key, `put` overwriting with a
 * time-to-live. The ghost `trace` records every access in order, so that
 * callers can state which keys an operation read and wrote.
 */
module Kv {
  import opened Js

  /** One access to the store; a write carries its `expirationTtl`. */
  datatype Access = Get(key: string) | Put(key: string, value: string, ttl: nat)

  class Store {
    var data: map<string, string>
    ghost var trace: seq<Access>

    constructor (initial: map<string, string>)
      ensures data == initial && trace == []
    {
      data := initial;
      trace := [];
    }

    /** `await env.CHAT_KV.get(key)`. */
    method Get(key: string) returns (value: Option<string>)
      modifies this`trace
      ensures value == Lookup(data, key)
      ensures trace == old(trace) + [Access.Get(key)]
    {
      value := Lookup(data, key);
      trace := trace + [Access.Get(key)];
    }

    /** `await env.CHAT_KV.put(key, value, { expirationTtl: ttl })`;
        expiry itself is not modelled. */
    method Put(key: string, value: string, ttl: nat)
      modifies this
      ensures data == old(data)[key := value]
      ensures trace == old(trace) + [Access.Put(key, value, ttl)]
    {
      data := data[key := value];
      trace := trace + [Access.Put(key, value, ttl)];
    }
  }
}
