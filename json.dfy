/**
 * JSON documents as written in a file, and as Python's `json` module reads
 * them: an object keeps its members in text order, repeated keys included,
 * and is read through the dict `json.load` builds from those members.
 */
module JsonModel {
  import opened Wrappers
  import opened Dicts

  datatype Json =
    | Null
    | Bool(b: bool)
    | Int(i: int)
    | Num(r: real)
    | Str(s: string)
    | Arr(items: seq<Json>)
    | Obj(fields: Dict<string, Json>)

  /**
   * The dict `json.load` makes of an object: its members inserted one after
   * another, so a repeated key keeps its first place and its last value.
   * Anything but an object has no members.
   */
  function Members(doc: Json): (r: Dict<string, Json>)
    ensures UniqueKeys(r)
    ensures KeySet(r) == (if doc.Obj? then KeySet(doc.fields) else {})
  {
    if doc.Obj? then FromPairs(doc.fields) else []
  }

  /** `doc.get(key)` when `doc` is a dict; `None` when it is not one or lacks the key. */
  function Field(doc: Json, key: string): Option<Json> {
    Lookup(Members(doc), key)
  }

  /** A key's value is the one written with its last occurrence in the object, as `json.load` keeps it. */
  lemma FieldLastWins(doc: Json, key: string, v: Json)
    ensures Field(doc, key) == Some(v) <==> doc.Obj? && exists i :: LastPairAt(doc.fields, i, key, v)
    ensures Field(doc, key).None? <==> !doc.Obj? || forall i :: 0 <= i < |doc.fields| ==> doc.fields[i].0 != key
  {
    if doc.Obj? {
      FromPairsLastWins(doc.fields, key, v);
      KeySetAt(doc.fields, key);
    }
  }

  /** A member that no later member repeats is read as written. */
  lemma FieldAt(doc: Json, i: nat)
    requires doc.Obj? && i < |doc.fields|
    requires forall j :: i < j < |doc.fields| ==> doc.fields[j].0 != doc.fields[i].0
    ensures Field(doc, doc.fields[i].0) == Some(doc.fields[i].1)
  {
    FromPairsLastWins(doc.fields, doc.fields[i].0, doc.fields[i].1);
    assert LastPairAt(doc.fields, i, doc.fields[i].0, doc.fields[i].1);
  }

  /** Of two members with one key, the later is read. */
  lemma RepeatedKeyExample()
    ensures Field(Obj([("SPEAKER_0", Str("CEO")), ("SPEAKER_0", Str("CFO"))]), "SPEAKER_0") == Some(Str("CFO"))
    ensures |Members(Obj([("SPEAKER_0", Str("CEO")), ("SPEAKER_0", Str("CFO"))]))| == 1
  {
    var doc := Obj([("SPEAKER_0", Str("CEO")), ("SPEAKER_0", Str("CFO"))]);
    FieldAt(doc, 1);
    UniqueKeysCard(Members(doc));
    assert KeySet(doc.fields) == {"SPEAKER_0"};
  }

  /** A JSON number, integral or not, as a real. */
  function AsReal(j: Json): Option<real> {
    match j
    case Int(i) => Some(i as real)
    case Num(r) => Some(r)
    case _ => None
  }

  function AsString(j: Json): Option<string> {
    if j.Str? then Some(j.s) else None
  }

  function AsInt(j: Json): Option<int> {
    if j.Int? then Some(j.i) else None
  }

  /** `doc[key]` when it is a string. */
  function StrField(doc: Json, key: string): Option<string> {
    match Field(doc, key)
    case Some(Str(s)) => Some(s)
    case _ => None
  }

  /** `doc[key]` when it is a number. */
  function RealField(doc: Json, key: string): Option<real> {
    match Field(doc, key)
    case Some(v) => AsReal(v)
    case None => None
  }

  /** `doc[key]` when it is an integer. */
  function IntField(doc: Json, key: string): Option<int> {
    match Field(doc, key)
    case Some(v) => AsInt(v)
    case None => None
  }

  /** A list, element by element. */
  function EncodeAll<T>(xs: seq<T>, enc: T -> Json): (r: seq<Json>)
    ensures |r| == |xs| && forall i :: 0 <= i < |xs| ==> r[i] == enc(xs[i])
  {
    seq(|xs|, i requires 0 <= i < |xs| => enc(xs[i]))
  }

  /** Decodes every element of a list; fails when any element does not decode. */
  function DecodeAll<T>(items: seq<Json>, dec: Json -> Option<T>): (r: Option<seq<T>>)
    ensures r.Some? ==> |r.value| == |items| && forall i :: 0 <= i < |items| ==> dec(items[i]) == Some(r.value[i])
    ensures r.None? ==> exists i :: 0 <= i < |items| && dec(items[i]).None?
  {
    if items == [] then Some([])
    else
      match (dec(items[0]), DecodeAll(items[1..], dec))
      case (Some(x), Some(rest)) =>
        assert forall i :: 1 <= i < |items| ==> items[i] == items[1..][i - 1];
        Some([x] + rest)
      case (None, _) => None
      case (_, None) =>
        var i :| 0 <= i < |items[1..]| && dec(items[1..][i]).None?;
        assert dec(items[i + 1]).None?;
        None
  }

  /** Encoding a list and decoding it back gives the list, when that holds element by element. */
  lemma {:induction false} DecodeEncodeAll<T>(xs: seq<T>, enc: T -> Json, dec: Json -> Option<T>)
    requires forall x :: dec(enc(x)) == Some(x)
    ensures DecodeAll(EncodeAll(xs, enc), dec) == Some(xs)
  {
    var items := EncodeAll(xs, enc);
    forall i | 0 <= i < |items|
      ensures dec(items[i]) == Some(xs[i])
    {
      assert items[i] == enc(xs[i]);
    }
    var ys := DecodeAll(items, dec).value;
    assert ys == xs;
  }
}
