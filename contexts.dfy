/** A propagated context: an immutable chain of key/value nodes hanging off
    a root, as Go's `context.WithValue` builds it. A lookup walks from the
    nearest node outward and answers with the first binding of the key. */
module Contexts {
  import opened Wrappers

  datatype Context<V> = Background | WithValue(parent: Context<V>, key: string, value: V)

  datatype Binding<V> = Binding(key: string, value: V)

  /** The bindings of `ctx`, nearest first. */
  function Bindings<V>(ctx: Context<V>): seq<Binding<V>> {
    match ctx
    case Background => []
    case WithValue(parent, k, v) => [Binding(k, v)] + Bindings(parent)
  }

  /** `ctx.Value(key)`: the value of the nearest binding of `key`. */
  function Lookup<V>(ctx: Context<V>, key: string): (r: Option<V>)
    ensures r.None? <==> forall i :: 0 <= i < |Bindings(ctx)| ==> Bindings(ctx)[i].key != key
    ensures r.Some? ==> exists i :: 0 <= i < |Bindings(ctx)| && Bindings(ctx)[i] == Binding(key, r.value)
                                    && forall j :: 0 <= j < i ==> Bindings(ctx)[j].key != key
  {
    match ctx
    case Background => None
    case WithValue(parent, k, v) =>
      if k == key then
        assert Bindings(ctx)[0] == Binding(key, v);
        Some(v)
      else
        var r := Lookup(parent, key);
        assert forall i :: 0 < i <= |Bindings(parent)| ==> Bindings(ctx)[i] == Bindings(parent)[i - 1];
        assert r.Some? ==> exists i :: 0 <= i < |Bindings(ctx)| && Bindings(ctx)[i] == Binding(key, r.value)
                                       && forall j :: 0 <= j < i ==> Bindings(ctx)[j].key != key
        by {
          if r.Some? {
            var i :| 0 <= i < |Bindings(parent)| && Bindings(parent)[i] == Binding(key, r.value)
                     && forall j :: 0 <= j < i ==> Bindings(parent)[j].key != key;
            assert Bindings(ctx)[i + 1] == Binding(key, r.value);
          }
        }
        r
  }

  /** `child` was built from `ancestor` by adding zero or more nodes. */
  ghost predicate DerivedFrom<V>(child: Context<V>, ancestor: Context<V>) {
    child == ancestor || (child.WithValue? && DerivedFrom(child.parent, ancestor))
  }

  /** Some node that `child` adds on top of `ancestor` binds `key`. */
  ghost predicate RebindsBetween<V>(child: Context<V>, ancestor: Context<V>, key: string)
    requires DerivedFrom(child, ancestor)
  {
    child != ancestor && (child.key == key || RebindsBetween(child.parent, ancestor, key))
  }

  /** A context derived from `ancestor` without rebinding `key` sees the very
      value the ancestor sees for it: derived contexts share what they
      inherit, they do not copy it. */
  lemma {:induction false} DerivedLookup<V>(child: Context<V>, ancestor: Context<V>, key: string)
    requires DerivedFrom(child, ancestor) && !RebindsBetween(child, ancestor, key)
    ensures Lookup(child, key) == Lookup(ancestor, key)
  {
    if child != ancestor {
      DerivedLookup(child.parent, ancestor, key);
    }
  }
}
