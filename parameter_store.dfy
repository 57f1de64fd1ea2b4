/**
 * The Parameter Store of the configuration screen: the installation
 * parameters record, its default value, the per-field update performed on
 * every input change event, and the completeness test applied on commit.
 */
module ParameterStore {
  import opened Wrappers

  /** The three keys of `AppInstallationParameters`. */
  datatype Key = HuggingfaceApiKey | TextModelId | ImageModelId

  /** `AppInstallationParameters`: every field is an optional string. */
  datatype Params = Params(
    huggingfaceApiKey: Option<string>,
    textModelId: Option<string>,
    imageModelId: Option<string>)

  const DefaultTextModelId: string := "meta-llama/Llama-3.2-3B-Instruct"
  const DefaultImageModelId: string := "black-forest-labs/FLUX.1-dev"

  /** The record the screen starts with, before the host has answered. */
  function Defaults(): (r: Params)
  {
    Params(Some(""), Some(DefaultTextModelId), Some(DefaultImageModelId))
  }

  /** `p[k]` */
  function Get(p: Params, k: Key): (v: Option<string>)
  {
    match k
    case HuggingfaceApiKey => p.huggingfaceApiKey
    case TextModelId => p.textModelId
    case ImageModelId => p.imageModelId
  }

  /** The object spread `{ ...p, [k]: v }`: field `k` becomes `v`, verbatim. */
  function Put(p: Params, k: Key, v: Option<string>): (r: Params)
    ensures Get(r, k) == v
    ensures forall j :: j != k ==> Get(r, j) == Get(p, j)
  {
    match k
    case HuggingfaceApiKey => p.(huggingfaceApiKey := v)
    case TextModelId => p.(textModelId := v)
    case ImageModelId => p.(imageModelId := v)
  }

  /** Two records that agree on every key are the same record. */
  lemma ParamsExtensionality(p: Params, q: Params)
    requires forall k :: Get(p, k) == Get(q, k)
    ensures p == q
  {
    assert Get(p, HuggingfaceApiKey) == Get(q, HuggingfaceApiKey);
    assert Get(p, TextModelId) == Get(q, TextModelId);
    assert Get(p, ImageModelId) == Get(q, ImageModelId);
  }

  /** Writing the same field twice: the last write wins. */
  lemma PutOverwrite(p: Params, k: Key, v: Option<string>, w: Option<string>)
    ensures Put(Put(p, k, v), k, w) == Put(p, k, w)
  {
  }

  /** Writes to two different fields commute. */
  lemma PutCommute(p: Params, j: Key, v: Option<string>, k: Key, w: Option<string>)
    requires j != k
    ensures Put(Put(p, j, v), k, w) == Put(Put(p, k, w), j, v)
  {
  }

  /** JavaScript truthiness of a `string | undefined`: `undefined` and `""` are falsy. */
  predicate Truthy(v: Option<string>)
  {
    v.Some? && |v.value| > 0
  }

  /** `Boolean(p.huggingfaceApiKey && p.textModelId && p.imageModelId)` */
  function IsComplete(p: Params): (complete: bool)
    ensures complete <==> forall k :: Get(p, k).Some? && Get(p, k).value != ""
  {
    assert (forall k :: Get(p, k).Some? && Get(p, k).value != "") ==>
      Truthy(Get(p, HuggingfaceApiKey)) && Truthy(Get(p, TextModelId)) && Truthy(Get(p, ImageModelId));
    Truthy(p.huggingfaceApiKey) && Truthy(p.textModelId) && Truthy(p.imageModelId)
  }

  /** The default record is incomplete, and the API key is the only field that makes it so. */
  lemma DefaultsIncomplete()
    ensures !IsComplete(Defaults())
    ensures forall k :: !Truthy(Get(Defaults(), k)) <==> k == HuggingfaceApiKey
  {
  }

  /** One input change event: the input bound to `key` now holds `value`. */
  datatype Edit = Edit(key: Key, value: string)

  /** The record after a sequence of change events, applied in order. */
  function ApplyEdits(p: Params, edits: seq<Edit>): (r: Params)
    decreases |edits|
  {
    if edits == [] then p
    else ApplyEdits(Put(p, edits[0].key, Some(edits[0].value)), edits[1..])
  }

  /** The value of the last event in `edits` that wrote field `k`, if any. */
  function LastWrite(edits: seq<Edit>, k: Key): (v: Option<string>)
  {
    if edits == [] then None
    else if edits[|edits| - 1].key == k then Some(edits[|edits| - 1].value)
    else LastWrite(edits[..|edits| - 1], k)
  }

  /** Applying two batches of events one after the other is applying their concatenation. */
  lemma {:induction false} ApplyEditsAppend(p: Params, xs: seq<Edit>, ys: seq<Edit>)
    ensures ApplyEdits(p, xs + ys) == ApplyEdits(ApplyEdits(p, xs), ys)
    decreases |xs|
  {
    if xs != [] {
      assert (xs + ys)[1..] == xs[1..] + ys;
      ApplyEditsAppend(Put(p, xs[0].key, Some(xs[0].value)), xs[1..], ys);
    } else {
      assert xs + ys == ys;
    }
  }

  /**
   * After any sequence of change events each field holds the last value
   * written to it, or its value from before the events if none wrote it.
   */
  lemma {:induction false} LastWriteWins(p: Params, edits: seq<Edit>, k: Key)
    ensures Get(ApplyEdits(p, edits), k) ==
      match LastWrite(edits, k)
      case Some(v) => Some(v)
      case None => Get(p, k)
  {
    if edits != [] {
      var n := |edits| - 1;
      var e := edits[n];
      assert edits == edits[..n] + [e];
      ApplyEditsAppend(p, edits[..n], [e]);
      assert ApplyEdits(ApplyEdits(p, edits[..n]), [e]) == Put(ApplyEdits(p, edits[..n]), e.key, Some(e.value));
      LastWriteWins(p, edits[..n], k);
    }
  }

  /**
   * The record after a sequence of change events depends only on the last
   * value written to each field, not on the order across fields.
   */
  lemma ApplyEditsOrderIndependent(p: Params, edits: seq<Edit>, others: seq<Edit>)
    requires forall k :: LastWrite(edits, k) == LastWrite(others, k)
    ensures ApplyEdits(p, edits) == ApplyEdits(p, others)
  {
    forall k ensures Get(ApplyEdits(p, edits), k) == Get(ApplyEdits(p, others), k) {
      LastWriteWins(p, edits, k);
      LastWriteWins(p, others, k);
    }
    ParamsExtensionality(ApplyEdits(p, edits), ApplyEdits(p, others));
  }

  /** Two change events in a row. */
  lemma ApplyEditsPair(p: Params, a: Edit, b: Edit)
    ensures ApplyEdits(p, [a, b]) == Put(Put(p, a.key, Some(a.value)), b.key, Some(b.value))
  {
    var q := Put(p, a.key, Some(a.value));
    assert [a, b][1..] == [b];
    assert ApplyEdits(p, [a, b]) == ApplyEdits(q, [b]);
    assert [b][1..] == [];
  }

  /** Two adjacent change events on different fields may be swapped. */
  lemma EditsCommute(p: Params, xs: seq<Edit>, a: Edit, b: Edit, ys: seq<Edit>)
    requires a.key != b.key
    ensures ApplyEdits(p, xs + [a, b] + ys) == ApplyEdits(p, xs + [b, a] + ys)
  {
    var q := ApplyEdits(p, xs);
    ApplyEditsAppend(p, xs + [a, b], ys);
    ApplyEditsAppend(p, xs, [a, b]);
    ApplyEditsAppend(p, xs + [b, a], ys);
    ApplyEditsAppend(p, xs, [b, a]);
    ApplyEditsPair(q, a, b);
    ApplyEditsPair(q, b, a);
    PutCommute(q, a.key, Some(a.value), b.key, Some(b.value));
  }
}
