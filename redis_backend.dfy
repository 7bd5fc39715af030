/**
 * The Redis key space the record store writes to: string keys holding one
 * JSON record each, and list keys holding index entries. The JSON codec is
 * taken to round-trip, so a string key holds the record itself.
 */
module RedisBackend {
  import opened Wrappers
  import opened Records
  import opened Seqs

  /** The whole key space as a value. */
  datatype KeySpace = KeySpace(strings: map<string, Record>, lists: map<string, seq<string>>)

  /** `LRANGE key 0 -1`: the list at `key`, or the empty list when the key is absent. */
  function ListAt(ks: KeySpace, key: string): seq<string> {
    if key in ks.lists then ks.lists[key] else []
  }

  /** `DEL keys...`: every named key is gone, whatever it held. */
  function DeleteKeys(ks: KeySpace, keys: set<string>): (r: KeySpace)
    ensures forall k :: k in keys ==> k !in r.strings && ListAt(r, k) == []
    ensures forall k :: k !in keys ==> ListAt(r, k) == ListAt(ks, k)
    ensures forall k :: k !in keys ==> (k in r.strings <==> k in ks.strings)
    ensures forall k :: k !in keys && k in ks.strings ==> r.strings[k] == ks.strings[k]
  {
    KeySpace(ks.strings - keys, ks.lists - keys)
  }

  /** The client commands the store issues, over a mutable key space. */
  class Backend {
    var strings: map<string, Record>
    var lists: map<string, seq<string>>

    function State(): KeySpace
      reads this
    {
      KeySpace(strings, lists)
    }

    constructor ()
      ensures State() == KeySpace(map[], map[])
    {
      strings := map[];
      lists := map[];
    }

    /** `SETEX key ttl value`; the expiry itself is the separate `Expire` step. */
    method SetEx(key: string, ttl: nat, value: Record)
      modifies this
      ensures strings == old(strings)[key := value]
      ensures lists == old(lists)
    {
      strings := strings[key := value];
    }

    /** `GET key`: the record, or nothing when the key is absent. */
    method Get(key: string) returns (r: Option<Record>)
      ensures key in strings ==> r == Some(strings[key])
      ensures key !in strings ==> r == None
    {
      r := if key in strings then Some(strings[key]) else None;
    }

    /** `LPUSH key item`: the item goes in front, whether or not it is already there. */
    method LPush(key: string, item: string)
      modifies this
      ensures lists == old(lists)[key := [item] + ListAt(old(State()), key)]
      ensures strings == old(strings)
    {
      lists := lists[key := [item] + ListAt(State(), key)];
    }

    /** `LRANGE key 0 -1`. */
    method LRange(key: string) returns (items: seq<string>)
      ensures items == ListAt(State(), key)
    {
      items := ListAt(State(), key);
    }

    /** `LREM key 0 item`: every occurrence removed, the rest in order. */
    method LRem(key: string, item: string)
      modifies this
      ensures lists == (if key in old(lists) then old(lists)[key := RemoveAll(old(lists)[key], item)] else old(lists))
      ensures strings == old(strings)
    {
      if key in lists {
        lists := lists[key := RemoveAll(lists[key], item)];
      }
    }

    /** `DEL keys...`. */
    method Del(keys: seq<string>)
      modifies this
      ensures State() == DeleteKeys(old(State()), set k | k in keys)
    {
      var named := set k | k in keys;
      strings := strings - named;
      lists := lists - named;
    }

    /** The environment step of a record's time-to-live running out. */
    method Expire(key: string)
      modifies this
      ensures strings == old(strings) - {key}
      ensures lists == old(lists)
    {
      strings := strings - {key};
    }
  }
}
