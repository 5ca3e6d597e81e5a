/** Nested key-value data: the hashes that configuration, mock
    authentication records (AuthHash) and `deep_merge` work on.

    Ruby distinguishes `:uid` from `'uid'`; this model writes every key in
    its string form. A record is a finite map from keys to values, so it is
    an acyclic finite tree by construction. */
module Values {

  datatype Option<+T> = None | Some(value: T)

  /** A value stored in a hash: a nested record, or a leaf. */
  datatype Value =
    | Record(fields: map<string, Value>)
    | Str(s: string)
    | Int(i: int)
    | List(items: seq<Value>)

  /** A mock authentication record: a record's fields at the top level. */
  type AuthHash = map<string, Value>

  /** Follows `path` key by key through nested records, as
      `h[k1][k2]...[kn]` does in Ruby; `None` when a key is missing or a
      leaf is reached before the path ends. */
  function Dig(v: Value, path: seq<string>): (r: Option<Value>)
    ensures path == [] ==> r == Some(v)
    ensures r.Some? && path != [] ==> v.Record? && path[0] in v.fields
    decreases path
  {
    if path == [] then Some(v)
    else match v
      case Record(f) => if path[0] in f then Dig(f[path[0]], path[1..]) else None
      case _ => None
  }

  /** Digging along `[k] + rest` is digging along `rest` below key `k`. */
  lemma DigCons(f: map<string, Value>, k: string, rest: seq<string>)
    ensures Dig(Record(f), [k] + rest) == if k in f then Dig(f[k], rest) else None
  {
    assert ([k] + rest)[0] == k && ([k] + rest)[1..] == rest;
  }

  /** Digging along `p + q` digs along `p`, then along `q` from there:
      `h[k1][k2]` is `(h[k1])[k2]`. */
  lemma {:induction false} DigAppend(v: Value, p: seq<string>, q: seq<string>)
    ensures Dig(v, p + q) == match Dig(v, p) { case Some(w) => Dig(w, q) case None => None }
    decreases p
  {
    if p == [] {
      assert p + q == q;
    } else {
      assert (p + q)[0] == p[0] && (p + q)[1..] == p[1..] + q;
      if v.Record? && p[0] in v.fields {
        DigAppend(v.fields[p[0]], p[1..], q);
      }
    }
  }
}
