/**
 Field merging (`extractFields` in library/logger/logger.go): the fields derived
 from the request context are merged with the fields given at the call site.
 A call-site field replaces a context field with the same key, a later
 call-site field replaces an earlier one, and each key appears once.

 Field payloads are opaque: the type parameter `V` stands for whatever
 `zap.Reflect` boxes and for the payload of an explicit `zap.Field`.
 */
module Fields {

  datatype Field<V> = Field(key: string, value: V)

  /** The context map with every entry wrapped as a field under its own key
      (the first loop of `extractFields`). */
  function Reflected<V>(ctx: map<string, V>): (r: map<string, Field<V>>)
    ensures forall k :: k in r <==> k in ctx
    ensures forall k :: k in r ==> r[k].key == k && r[k].value == ctx[k]
  {
    map k | k in ctx :: Field(k, ctx[k])
  }

  /** The map after the call-site fields have been stored over `target`, first
      to last, each under its own key (the second loop). */
  function Overlay<V>(target: map<string, Field<V>>, fields: seq<Field<V>>): (r: map<string, Field<V>>)
    ensures forall k :: k in r <==> k in target || k in KeysOf(fields)
    decreases |fields|
  {
    if fields == [] then target
    else
      var last := fields[|fields| - 1];
      KeysOfSnoc(fields);
      Overlay(target, fields[..|fields| - 1])[last.key := last]
  }

  /** The merged set of fields, keyed by field name. */
  function Merged<V>(ctx: map<string, V>, fields: seq<Field<V>>): (r: map<string, Field<V>>)
    ensures forall k :: k in r <==> k in ctx || k in KeysOf(fields)
  {
    Overlay(Reflected(ctx), fields)
  }

  /** The keys of a field list. */
  function KeysOf<V>(fields: seq<Field<V>>): set<string>
  {
    set i | 0 <= i < |fields| :: fields[i].key
  }

  /** A non-empty list's keys are those of all but its last field plus the last one's. */
  lemma KeysOfSnoc<V>(fields: seq<Field<V>>)
    requires fields != []
    ensures KeysOf(fields) == KeysOf(fields[..|fields| - 1]) + {fields[|fields| - 1].key}
  {
    var init, last := fields[..|fields| - 1], fields[|fields| - 1];
    forall k | k in KeysOf(fields) ensures k in KeysOf(init) + {last.key} {
      var i :| 0 <= i < |fields| && fields[i].key == k;
      if i < |init| { assert init[i] == fields[i]; }
    }
    forall k | k in KeysOf(init) ensures k in KeysOf(fields) {
      var i :| 0 <= i < |init| && init[i].key == k;
      assert fields[i] == init[i];
    }
    assert fields[|init|] == last;
  }

  /** Overlaying keeps every field stored under its own key. */
  lemma {:induction false} OverlayKeys<V>(target: map<string, Field<V>>, fields: seq<Field<V>>)
    requires forall k :: k in target ==> target[k].key == k
    ensures forall k :: k in Overlay(target, fields) ==> Overlay(target, fields)[k].key == k
    decreases |fields|
  {
    if fields != [] {
      OverlayKeys(target, fields[..|fields| - 1]);
    }
  }

  /** A key the call site gives is bound to the last call-site field with that key. */
  lemma {:induction false} OverlayLastWins<V>(target: map<string, Field<V>>, fields: seq<Field<V>>, i: nat)
    requires i < |fields|
    requires forall j :: i < j < |fields| ==> fields[j].key != fields[i].key
    ensures fields[i].key in Overlay(target, fields)
    ensures Overlay(target, fields)[fields[i].key] == fields[i]
    decreases |fields|
  {
    if i < |fields| - 1 {
      var init := fields[..|fields| - 1];
      assert forall j :: 0 <= j < |init| ==> init[j] == fields[j];
      OverlayLastWins(target, init, i);
    }
  }

  /** A key the call site does not give keeps its entry from `target`. */
  lemma {:induction false} OverlayKeepsOthers<V>(target: map<string, Field<V>>, fields: seq<Field<V>>, k: string)
    requires forall j :: 0 <= j < |fields| ==> fields[j].key != k
    ensures k in Overlay(target, fields) <==> k in target
    ensures k in target ==> Overlay(target, fields)[k] == target[k]
    decreases |fields|
  {
    if fields != [] {
      var init := fields[..|fields| - 1];
      assert forall j :: 0 <= j < |init| ==> init[j] == fields[j];
      OverlayKeepsOthers(target, init, k);
    }
  }

  /** The merge has one entry per key of the union of context and call-site
      keys; a call-site key is bound to the last call-site field with it, and any
      other key to its context value. */
  lemma MergedSpec<V>(ctx: map<string, V>, fields: seq<Field<V>>)
    ensures Merged(ctx, fields).Keys == ctx.Keys + KeysOf(fields)
    ensures forall k :: k in Merged(ctx, fields) ==> Merged(ctx, fields)[k].key == k
    ensures forall i :: 0 <= i < |fields| && (forall j :: i < j < |fields| ==> fields[j].key != fields[i].key) ==>
              Merged(ctx, fields)[fields[i].key] == fields[i]
    ensures forall k :: k in ctx && k !in KeysOf(fields) ==>
              Merged(ctx, fields)[k] == Field(k, ctx[k])
  {
    OverlayKeys(Reflected(ctx), fields);
    forall i | 0 <= i < |fields| && (forall j :: i < j < |fields| ==> fields[j].key != fields[i].key)
      ensures Merged(ctx, fields)[fields[i].key] == fields[i]
    {
      OverlayLastWins(Reflected(ctx), fields, i);
    }
    forall k | k in ctx && k !in KeysOf(fields)
      ensures Merged(ctx, fields)[k] == Field(k, ctx[k])
    {
      forall j | 0 <= j < |fields| ensures fields[j].key != k {
        assert fields[j].key in KeysOf(fields);
      }
      OverlayKeepsOthers(Reflected(ctx), fields, k);
    }
  }

  /** A call-site field overrides a context field with the same key, and
      distinct keys from both sides all appear. */
  lemma MergeExamples<V>(a: V, b: V, u: V)
    ensures Merged(map["requestId" := a], [Field("requestId", b)]) == map["requestId" := Field("requestId", b)]
    ensures Merged(map["requestId" := a], [Field("userId", u)]) ==
              map["requestId" := Field("requestId", a), "userId" := Field("userId", u)]
  {
    var ctx := map["requestId" := a];
    assert Reflected(ctx) == map["requestId" := Field("requestId", a)];
    var one := [Field("requestId", b)];
    assert one[..0] == [];
    assert Merged(ctx, one) == Reflected(ctx)["requestId" := Field("requestId", b)];
    var other := [Field("userId", u)];
    assert other[..0] == [];
    assert Overlay(Reflected(ctx), other[..0]) == Reflected(ctx);
    assert Merged(ctx, other) == Reflected(ctx)["userId" := Field("userId", u)];
  }

  /** Appending a field to a list adds exactly its key. */
  lemma KeysOfAppend<V>(out: seq<Field<V>>, f: Field<V>)
    ensures KeysOf(out + [f]) == KeysOf(out) + {f.key}
  {
    assert (out + [f])[..|out|] == out;
    KeysOfSnoc(out + [f]);
  }

  /** The first loop of `extractFields`: every context entry stored as a field
      under its own key. */
  method ReflectContext<V>(ctx: map<string, V>) returns (target: map<string, Field<V>>)
    ensures target == Reflected(ctx)
  {
    target := map[];
    var pending := ctx.Keys;
    while pending != {}
      invariant pending <= ctx.Keys
      invariant target.Keys == ctx.Keys - pending
      invariant forall k :: k in target ==> target[k] == Field(k, ctx[k])
      decreases pending
    {
      var k :| k in pending;
      target := target[k := Field(k, ctx[k])];
      pending := pending - {k};
    }
  }

  /** The last loop of `extractFields`: the map's fields listed once each, in an
      order the map's iteration leaves unspecified. */
  method ListFields<V>(target: map<string, Field<V>>) returns (out: seq<Field<V>>)
    requires forall k :: k in target ==> target[k].key == k
    ensures forall i, j :: 0 <= i < j < |out| ==> out[i].key != out[j].key
    ensures KeysOf(out) == target.Keys
    ensures forall i :: 0 <= i < |out| ==> out[i] == target[out[i].key]
  {
    out := [];
    var rest := target.Keys;
    while rest != {}
      invariant rest <= target.Keys
      invariant KeysOf(out) + rest == target.Keys
      invariant KeysOf(out) !! rest
      invariant forall i, j :: 0 <= i < j < |out| ==> out[i].key != out[j].key
      invariant forall i :: 0 <= i < |out| ==> out[i] == target[out[i].key]
      decreases rest
    {
      var k :| k in rest;
      KeysOfAppend(out, target[k]);
      out := out + [target[k]];
      rest := rest - {k};
    }
  }

  /** `extractFields`: build the merge in a map, then list its fields once each,
      in an order left unspecified. The context map stands for whatever map the
      conversion of the request context returns (possibly nil or partial); its
      error is discarded. */
  method ExtractFields<V>(ctx: map<string, V>, fields: seq<Field<V>>) returns (out: seq<Field<V>>)
    ensures forall i, j :: 0 <= i < j < |out| ==> out[i].key != out[j].key
    ensures KeysOf(out) == Merged(ctx, fields).Keys
    ensures forall i :: 0 <= i < |out| ==> out[i] == Merged(ctx, fields)[out[i].key]
  {
    var target := ReflectContext(ctx);
    for i := 0 to |fields|
      invariant target == Overlay(Reflected(ctx), fields[..i])
    {
      assert fields[..i + 1][..i] == fields[..i];
      target := target[fields[i].key := fields[i]];
    }
    assert fields[..|fields|] == fields;
    OverlayKeys(Reflected(ctx), fields);
    out := ListFields(target);
  }
}
