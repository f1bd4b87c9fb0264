/** The JSON documents a Step Functions execution passes between states,
    with the two operations the workflow uses on them: reading a JsonPath
    such as `$.a.b[0]`, and writing a task result under a `resultPath` of
    the form `$.key`. Numbers are finite: JSON has no NaN or Infinity. */
module Json {
  import opened Wrappers

  datatype Json =
    | JNull
    | JBool(b: bool)
    | JNum(n: real)
    | JStr(s: string)
    | JArr(items: seq<Json>)
    | JObj(fields: map<string, Json>)

  /** One step of a JsonPath: `.name` or `[index]`. */
  datatype Segment = Key(name: string) | Index(at: nat)

  type Path = seq<Segment>

  /** The value at a path; `None` where the path leaves the document, which
      Step Functions reports as a runtime error. */
  function Get(j: Json, p: Path): Option<Json>
    decreases |p|
  {
    if p == [] then Some(j)
    else match p[0]
      case Key(k) => if j.JObj? && k in j.fields then Get(j.fields[k], p[1..]) else None
      case Index(i) => if j.JArr? && i < |j.items| then Get(j.items[i], p[1..]) else None
  }

  /** Reading `p + q` is reading `p`, then `q` from what was found. */
  lemma {:induction false} GetConcat(j: Json, p: Path, q: Path)
    ensures Get(j, p + q) == if Get(j, p).Some? then Get(Get(j, p).value, q) else None
    decreases |p|
  {
    if p != [] {
      assert (p + q)[0] == p[0];
      assert (p + q)[1..] == p[1..] + q;
      match p[0]
      case Key(k) =>
        if j.JObj? && k in j.fields {
          GetConcat(j.fields[k], p[1..], q);
        }
      case Index(i) =>
        if j.JArr? && i < |j.items| {
          GetConcat(j.items[i], p[1..], q);
        }
    } else {
      assert p + q == q;
    }
  }

  /** Reading one key and then a path. */
  lemma GetKey(j: Json, k: string, p: Path)
    ensures Get(j, [Key(k)] + p) == if j.JObj? && k in j.fields then Get(j.fields[k], p) else None
  {
    assert ([Key(k)] + p)[0] == Key(k);
    assert ([Key(k)] + p)[1..] == p;
  }

  /** `resultPath: '$.k'`: the state input with `k` set to the result. The
      input must be an object. */
  function Put(j: Json, k: string, v: Json): (r: Option<Json>)
    ensures r.Some? <==> j.JObj?
    ensures r.Some? ==> r.value.JObj? && r.value.fields.Keys == j.fields.Keys + {k}
  {
    if j.JObj? then Some(JObj(j.fields[k := v])) else None
  }

  /** After a write, the written key reads the result and every other key
      reads what it read before. */
  lemma PutThenGet(j: Json, k: string, v: Json, k': string, p: Path)
    requires j.JObj?
    ensures Get(Put(j, k, v).value, [Key(k')] + p) == if k' == k then Get(v, p) else Get(j, [Key(k')] + p)
  {
    GetKey(Put(j, k, v).value, k', p);
    GetKey(j, k', p);
  }

  /** `{ Payload: r }`, as a Lambda task stores a function's result. */
  function Wrapped(r: Json): (w: Json)
    ensures Get(w, [Key("Payload")]) == Some(r)
  {
    JObj(map["Payload" := r])
  }
}
