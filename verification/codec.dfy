/** Field-presence encoding of records, the way encoding/json treats
    `omitempty` tags: a nil pointer, an empty string, an empty slice or an
    empty map leaves its key out of the payload; anything else binds it. */
module Codec {
  import opened Http

  /** `p` binds `key` exactly when `v` is present, and then to its value. */
  predicate Carries(p: Payload, key: string, v: Option<Json>) {
    (key in p <==> v.Some?) && (v.Some? ==> p[key] == v.value)
  }

  /** The JSON form of an optional string field (a `*string`). */
  function Str(v: Option<string>): (j: Option<Json>)
    ensures j.Some? <==> v.Some?
    ensures v.Some? ==> j.value.JString? && j.value.s == v.value
  {
    match v
    case None => None
    case Some(s) => Some(JString(s))
  }

  /** The JSON form of an optional integer field (a `*int`). */
  function Num(v: Option<int>): (j: Option<Json>)
    ensures j.Some? <==> v.Some?
    ensures v.Some? ==> j.value.JNumber? && j.value.n == v.value
  {
    match v
    case None => None
    case Some(n) => Some(JNumber(n))
  }

  /** A plain string under `omitempty`: the empty string counts as absent. */
  function NonEmpty(s: string): (v: Option<string>)
    ensures v.None? <==> s == ""
    ensures v.Some? ==> v.value == s
  {
    if s == "" then None else Some(s)
  }

  /** The part of a payload one field contributes. */
  function Field(key: string, v: Option<Json>): (p: Payload)
    ensures Carries(p, key, v)
    ensures p.Keys <= {key}
  {
    if v.Some? then map[key := v.value] else map[]
  }

  /** Decoding `key` into a string field that already holds `current`: an
      absent key leaves the field alone, null clears it, a string sets it. */
  function ReadString(p: Payload, key: string, current: Option<string>): (v: Option<string>)
    ensures key !in p ==> v == current
    ensures key in p && p[key] == JNull ==> v == None
    ensures key in p && p[key].JString? ==> v == Some(p[key].s)
  {
    if key !in p then current
    else match p[key]
      case JNull => None
      case JString(s) => Some(s)
      case _ => current
  }

  /** Decoding `key` into an integer field, with the same rules. */
  function ReadNumber(p: Payload, key: string, current: Option<int>): (v: Option<int>)
    ensures key !in p ==> v == current
    ensures key in p && p[key] == JNull ==> v == None
    ensures key in p && p[key].JNumber? ==> v == Some(p[key].n)
  {
    if key !in p then current
    else match p[key]
      case JNull => None
      case JNumber(n) => Some(n)
      case _ => current
  }

  /** Decoding `key` into a plain string field: absent or null leaves "". */
  function ReadPlain(p: Payload, key: string): (s: string)
    ensures key in p && p[key].JString? ==> s == p[key].s
    ensures !(key in p && p[key].JString?) ==> s == ""
  {
    if key in p && p[key].JString? then p[key].s else ""
  }

  /** A decoded optional string field is the one that was encoded, whatever
      the field held before: the key's presence carries the pointer's nil-ness. */
  lemma ReadStringInvertsStr(p: Payload, key: string, v: Option<string>, current: Option<string>)
    requires Carries(p, key, Str(v))
    requires v.Some? || current.None?
    ensures ReadString(p, key, current) == v
  {
  }

  /** The same for an optional integer field. */
  lemma ReadNumberInvertsNum(p: Payload, key: string, v: Option<int>, current: Option<int>)
    requires Carries(p, key, Num(v))
    requires v.Some? || current.None?
    ensures ReadNumber(p, key, current) == v
  {
  }

  /** A plain string under `omitempty` survives a round trip: the empty string
      is absent on the wire and decodes back to "". */
  lemma ReadPlainInvertsNonEmpty(p: Payload, key: string, s: string)
    requires Carries(p, key, Str(NonEmpty(s)))
    ensures ReadPlain(p, key) == s
  {
  }

  /** `q` binds the query key `key` exactly when `v` is present, and then to its value. */
  predicate Binds(q: map<string, string>, key: string, v: Option<string>) {
    (key in q <==> v.Some?) && (v.Some? ==> q[key] == v.value)
  }

  /** A query parameter that is set only when its value is present. */
  function Param(key: string, v: Option<string>): (q: map<string, string>)
    ensures Binds(q, key, v)
    ensures q.Keys <= {key}
  {
    if v.Some? then map[key := v.value] else map[]
  }

  /** The value a query gives a key, read back. */
  function Lookup(q: map<string, string>, key: string): (v: Option<string>)
    ensures Binds(q, key, v)
  {
    if key in q then Some(q[key]) else None
  }

  /** One field of a record on the wire: its JSON key and, when the field
      is present, its value. */
  datatype Entry = Entry(key: string, value: Option<Json>)

  /** No key is listed twice. */
  predicate DistinctKeys(entries: seq<Entry>) {
    forall i, j :: 0 <= i < j < |entries| ==> entries[i].key != entries[j].key
  }

  /** The payload of a list of fields: the present ones, each under its key. */
  function Collect(entries: seq<Entry>): Payload
    decreases |entries|
  {
    if entries == [] then map[] else Field(entries[0].key, entries[0].value) + Collect(entries[1..])
  }

  /** Only listed keys appear in a built payload. */
  lemma {:induction false} CollectKeys(entries: seq<Entry>, k: string)
    requires k in Collect(entries)
    ensures exists i :: 0 <= i < |entries| && entries[i].key == k
    decreases |entries|
  {
    if k !in Field(entries[0].key, entries[0].value) {
      CollectKeys(entries[1..], k);
      var i :| 0 <= i < |entries[1..]| && entries[1..][i].key == k;
      assert entries[i + 1].key == k;
    }
  }

  /** A key no field is listed under is absent from the built payload. */
  lemma {:induction false} CollectOmits(entries: seq<Entry>, k: string)
    requires forall i :: 0 <= i < |entries| ==> entries[i].key != k
    ensures k !in Collect(entries)
    decreases |entries|
  {
    if entries != [] {
      assert forall i :: 0 <= i < |entries[1..]| ==> entries[1..][i] == entries[i + 1];
      CollectOmits(entries[1..], k);
    }
  }

  /** With distinct keys, a built payload carries every listed field exactly. */
  lemma {:induction false} CollectCarries(entries: seq<Entry>, i: nat)
    requires DistinctKeys(entries) && i < |entries|
    ensures Carries(Collect(entries), entries[i].key, entries[i].value)
    decreases |entries|
  {
    var head, rest := Field(entries[0].key, entries[0].value), Collect(entries[1..]);
    assert DistinctKeys(entries[1..]) by {
      forall a, b | 0 <= a < b < |entries[1..]|
        ensures entries[1..][a].key != entries[1..][b].key
      {
        assert entries[1..][a] == entries[a + 1] && entries[1..][b] == entries[b + 1];
      }
    }
    if i == 0 {
      forall j | 0 <= j < |entries[1..]|
        ensures entries[1..][j].key != entries[0].key
      {
        assert entries[1..][j] == entries[j + 1];
      }
      CollectOmits(entries[1..], entries[0].key);
    } else {
      CollectCarries(entries[1..], i - 1);
      assert entries[1..][i - 1] == entries[i];
    }
  }

  /** Clearing one field of a list with distinct keys removes exactly that
      field's key from the built payload. */
  lemma {:induction false} CollectClear(entries: seq<Entry>, i: nat)
    requires DistinctKeys(entries) && i < |entries|
    ensures Collect(entries[i := Entry(entries[i].key, None)]) == Collect(entries) - {entries[i].key}
    decreases |entries|
  {
    var cleared := entries[i := Entry(entries[i].key, None)];
    assert cleared[1..] == if i == 0 then entries[1..] else entries[1..][i - 1 := Entry(entries[i].key, None)];
    forall j | 0 <= j < |entries[1..]|
      ensures entries[1..][j].key != entries[0].key
    {
      assert entries[1..][j] == entries[j + 1];
    }
    assert DistinctKeys(entries[1..]) by {
      forall a, b | 0 <= a < b < |entries[1..]|
        ensures entries[1..][a].key != entries[1..][b].key
      {
        assert entries[1..][a] == entries[a + 1] && entries[1..][b] == entries[b + 1];
      }
    }
    if i == 0 {
      CollectOmits(entries[1..], entries[0].key);
    } else {
      CollectClear(entries[1..], i - 1);
      assert entries[1..][i - 1] == entries[i];
    }
  }
}
