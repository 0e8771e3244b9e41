/**
 * The test suite's `patch` context manager: it overrides attributes of a
 * namespace for the duration of a `with` body and puts the originals back
 * afterwards, whether the body finishes or raises.
 *
 * A namespace is a map from attribute name to value. The `NotImplemented`
 * sentinel, which stands both for "absent" when reading an original and for
 * "delete" when given as a patch value, is `None`.
 */
module Patching {
  import opened Wrappers

  /** getattr(namespace, name), with None when the attribute is missing. */
  function Lookup<V>(attrs: map<string, V>, name: string): (r: Option<V>)
    ensures r.Some? <==> name in attrs
    ensures r.Some? ==> attrs[name] == r.value
  {
    if name in attrs then Some(attrs[name]) else None
  }

  /** Two namespaces with the same lookups are the same namespace. */
  lemma LookupExtensional<V>(a: map<string, V>, b: map<string, V>)
    requires forall n :: Lookup(a, n) == Lookup(b, n)
    ensures a == b
  {
    assert a.Keys == b.Keys by {
      forall n ensures n in a <==> n in b {
        assert Lookup(a, n) == Lookup(b, n);
      }
    }
    forall n | n in a ensures a[n] == b[n] {
      assert Lookup(a, n) == Lookup(b, n);
    }
  }

  /**
   * The namespace while the body runs: every patched name holds its given
   * value, or is absent when given None; every other name is untouched.
   */
  function Overlay<V>(attrs: map<string, V>, values: map<string, Option<V>>): (patched: map<string, V>)
    ensures forall n :: Lookup(patched, n) == if n in values then values[n] else Lookup(attrs, n)
  {
    map n | n in attrs.Keys + values.Keys && (n in values ==> values[n].Some?)
      :: if n in values then values[n].value else attrs[n]
  }

  /** The `originals` dictionary: what each patched name held before, None when it was absent. */
  function Originals<V>(attrs: map<string, V>, values: map<string, Option<V>>): (originals: map<string, Option<V>>)
    ensures originals.Keys == values.Keys
    ensures forall n :: n in originals ==> originals[n] == Lookup(attrs, n)
  {
    map n | n in values :: Lookup(attrs, n)
  }

  /** Whether the `finally` block writes `name`: it had an original, or the patch set it. */
  predicate Reset<V>(values: map<string, Option<V>>, originals: map<string, Option<V>>, name: string)
    requires originals.Keys <= values.Keys
  {
    name in originals && (originals[name].Some? || values[name].Some?)
  }

  /**
   * The namespace after the `finally` block: a name with a recorded
   * original gets it back; a name that was absent is deleted, except when
   * the patch also asked for it to be absent, in which case it is left as
   * the body left it. Names that were not patched are as the body left them.
   */
  function Restored<V>(attrs: map<string, V>, values: map<string, Option<V>>,
                       originals: map<string, Option<V>>): (restored: map<string, V>)
    requires originals.Keys <= values.Keys
    ensures forall n :: (Lookup(restored, n) ==
      if Reset(values, originals, n) then originals[n] else Lookup(attrs, n))
  {
    map n | n in attrs.Keys + originals.Keys
              && (if Reset(values, originals, n) then originals[n].Some? else n in attrs)
      :: if Reset(values, originals, n) then originals[n].value else attrs[n]
  }

  /**
   * Round trip: if the body leaves the patched names as the patch set
   * them, then after the `finally` block every patched name has its
   * original value again (or is absent, if it was absent), and every other
   * name is as the body left it.
   */
  lemma PatchRoundTrip<V>(attrs: map<string, V>, values: map<string, Option<V>>, during: map<string, V>)
    requires forall n :: n in values ==> Lookup(during, n) == values[n]
    ensures forall n :: (Lookup(Restored(during, values, Originals(attrs, values)), n) ==
      if n in values then Lookup(attrs, n) else Lookup(during, n))
  {
    var originals := Originals(attrs, values);
    forall n
      ensures Lookup(Restored(during, values, originals), n) ==
        if n in values then Lookup(attrs, n) else Lookup(during, n)
    {
      if n in values && originals[n].None? && values[n].None? {
        assert Lookup(during, n) == None;
      }
    }
  }

  /** A body that changes nothing leaves the namespace exactly as it was before the `with`. */
  lemma PatchRestoresNamespace<V>(attrs: map<string, V>, values: map<string, Option<V>>)
    ensures Restored(Overlay(attrs, values), values, Originals(attrs, values)) == attrs
  {
    var during := Overlay(attrs, values);
    PatchRoundTrip(attrs, values, during);
    forall n ensures Lookup(Restored(during, values, Originals(attrs, values)), n) == Lookup(attrs, n) {
    }
    LookupExtensional(Restored(during, values, Originals(attrs, values)), attrs);
  }

  /** What the `with` body leaves behind: its namespace, and whether it raised. */
  datatype BodyOutcome<V> = BodyOutcome(attrs: map<string, V>, raised: bool)

  /** A namespace whose attributes are patched and restored in place. */
  class Namespace<V> {
    var attrs: map<string, V>

    constructor (attrs: map<string, V>)
      ensures this.attrs == attrs
    {
      this.attrs := attrs;
    }

    /**
     * The part of `patch` before `yield`: record each original and set or
     * delete each name. The names are visited in an arbitrary order; the
     * outcome does not depend on it.
     */
    method Enter(values: map<string, Option<V>>) returns (originals: map<string, Option<V>>)
      modifies this
      ensures originals == Originals(old(attrs), values)
      ensures attrs == Overlay(old(attrs), values)
    {
      var todo := values.Keys;
      originals := map[];
      while todo != {}
        invariant todo <= values.Keys
        invariant originals.Keys == values.Keys - todo
        invariant forall n :: n in originals ==> originals[n] == Lookup(old(attrs), n)
        invariant forall n :: (Lookup(attrs, n) ==
          if n in values && n !in todo then values[n] else Lookup(old(attrs), n))
        decreases todo
      {
        var name :| name in todo;
        originals := originals[name := Lookup(attrs, name)];
        match values[name] {
          case None =>
            if originals[name].Some? {
              attrs := attrs - {name};
            }
          case Some(v) =>
            attrs := attrs[name := v];
        }
        todo := todo - {name};
      }
      LookupExtensional(attrs, Overlay(old(attrs), values));
    }

    /**
     * The `finally` block of `patch`. Deleting a name that the body already
     * deleted raises in the source, so such a name must still be present.
     */
    method Exit(values: map<string, Option<V>>, originals: map<string, Option<V>>)
      requires originals.Keys <= values.Keys
      requires forall n :: n in originals && originals[n].None? && values[n].Some? ==> n in attrs
      modifies this
      ensures attrs == Restored(old(attrs), values, originals)
    {
      var todo := originals.Keys;
      while todo != {}
        invariant todo <= originals.Keys
        invariant forall n :: (Lookup(attrs, n) ==
          if n !in todo && Reset(values, originals, n) then originals[n] else Lookup(old(attrs), n))
        decreases todo
      {
        var name :| name in todo;
        match originals[name] {
          case None =>
            if values[name].Some? {
              attrs := attrs - {name};
            }
          case Some(v) =>
            attrs := attrs[name := v];
        }
        todo := todo - {name};
      }
      LookupExtensional(attrs, Restored(old(attrs), values, originals));
    }

    /**
     * `with patch(namespace, **values): body`. The body is a step on the
     * namespace that leaves the patched names alone; whether it raises is
     * passed back to the caller, after the originals are restored.
     */
    method Patch(values: map<string, Option<V>>, body: map<string, V> -> BodyOutcome<V>) returns (raised: bool)
      requires forall n :: n in values ==> Lookup(body(Overlay(attrs, values)).attrs, n) == values[n]
      modifies this
      ensures raised == body(Overlay(old(attrs), values)).raised
      ensures forall n :: (Lookup(attrs, n) ==
        if n in values then Lookup(old(attrs), n) else Lookup(body(Overlay(old(attrs), values)).attrs, n))
    {
      var originals := Enter(values);
      var outcome := body(attrs);
      attrs := outcome.attrs;
      assert forall n :: n in values ==> Lookup(attrs, n) == values[n];
      Exit(values, originals);
      PatchRoundTrip(old(attrs), values, outcome.attrs);
      raised := outcome.raised;
    }
  }
}
