/**
 * Interceptor chains. A chain is built from a declared list of interceptor
 * classes by instantiating and configuring each in turn; an entry whose
 * instantiation or configuration throws is skipped, and the loop carries on.
 * The synthetic interceptor of a managed service attaches event listeners to
 * each resource it inspects, skipping the ones that cannot be instantiated.
 */
module Chains {
  import opened Reflection

  /** A configured interceptor instance, identified by its class, or the synthetic listener-attaching one. */
  datatype Interceptor = Configured(cls: string) | ListenerAttacher(listeners: seq<string>)

  /** The outcome of `inspect` that the synthetic interceptor returns. */
  datatype Action = Continue

  /** xs is ys with some elements left out, order kept. */
  predicate IsSubsequence<T(==)>(xs: seq<T>, ys: seq<T>)
    decreases |ys|
  {
    if xs == [] then true
    else if ys == [] then false
    else if xs[0] == ys[0] then IsSubsequence(xs[1..], ys[1..])
    else IsSubsequence(xs, ys[1..])
  }

  /** Every declared class, as if each one instantiated and configured. */
  function Declared(classes: seq<string>): (r: seq<Interceptor>)
    ensures |r| == |classes|
    ensures forall i :: 0 <= i < |classes| ==> r[i] == Configured(classes[i])
  {
    seq(|classes|, i requires 0 <= i < |classes| => Configured(classes[i]))
  }

  /** The chain the interceptor loop builds: the usable classes, in declared order. */
  function Chain(classes: seq<string>, o: Oracle): (r: seq<Interceptor>)
    ensures |r| <= |classes|
  {
    if classes == [] then []
    else (if o.Usable(classes[0]) then [Configured(classes[0])] else []) + Chain(classes[1..], o)
  }

  /** The listeners the synthetic interceptor attaches: the instantiable ones, in declared order. */
  function Attachable(listeners: seq<string>, o: Oracle): (r: seq<string>)
    ensures |r| <= |listeners|
  {
    if listeners == [] then []
    else (if listeners[0] in o.instantiable then [listeners[0]] else []) + Attachable(listeners[1..], o)
  }

  /** The interceptor loop: each declared class is instantiated and configured; a failure skips that class only. */
  method BuildChain(classes: seq<string>, o: Oracle) returns (l: seq<Interceptor>)
    ensures l == Chain(classes, o)
    ensures IsSubsequence(l, Declared(classes))
  {
    l := [];
    var i := 0;
    while i < |classes|
      invariant 0 <= i <= |classes|
      invariant l == Chain(classes[..i], o)
    {
      var c := classes[i];
      ChainSnoc(classes, o, i);
      if c in o.instantiable {
        if c in o.configurable {
          l := l + [Configured(c)];
        }
      }
      i := i + 1;
    }
    assert classes[..i] == classes;
    ChainIsSubsequence(classes, o);
  }

  /** The chain of one more declared class: that class's entry, if it loads, after the chain so far. */
  lemma ChainSnoc(classes: seq<string>, o: Oracle, i: nat)
    requires i < |classes|
    ensures Chain(classes[..i + 1], o)
         == Chain(classes[..i], o) + (if o.Usable(classes[i]) then [Configured(classes[i])] else [])
  {
    assert classes[..i + 1] == classes[..i] + [classes[i]];
    ChainAppend(classes[..i], [classes[i]], o);
    assert [classes[i]][1..] == [];
  }

  /** The client resource an interceptor inspects; only its event listeners are modelled. */
  class Resource {
    var eventListeners: seq<string>

    constructor ()
      ensures eventListeners == []
    {
      eventListeners := [];
    }

    /** `addEventListener`: the listener is appended. */
    method AddEventListener(listener: string)
      modifies this
      ensures eventListeners == old(eventListeners) + [listener]
    {
      eventListeners := eventListeners + [listener];
    }
  }

  /** The synthetic interceptor's `inspect`: one fresh instance of each listener class that instantiates, then CONTINUE. */
  method InspectWithListeners(listeners: seq<string>, o: Oracle, r: Resource) returns (action: Action)
    modifies r
    ensures action == Continue
    ensures r.eventListeners == old(r.eventListeners) + Attachable(listeners, o)
  {
    var i := 0;
    while i < |listeners|
      invariant 0 <= i <= |listeners|
      invariant r.eventListeners == old(r.eventListeners) + Attachable(listeners[..i], o)
    {
      AttachableSnoc(listeners, o, i);
      if listeners[i] in o.instantiable {
        r.AddEventListener(listeners[i]);
      }
      i := i + 1;
    }
    assert listeners[..i] == listeners;
    action := Continue;
  }

  lemma {:induction false} AttachableAppend(a: seq<string>, b: seq<string>, o: Oracle)
    ensures Attachable(a + b, o) == Attachable(a, o) + Attachable(b, o)
    decreases |a|
  {
    if a != [] {
      assert (a + b)[1..] == a[1..] + b;
      AttachableAppend(a[1..], b, o);
    } else {
      assert a + b == b;
    }
  }

  /** The listeners attached for one more declared class: that class, if it instantiates, after the others. */
  lemma AttachableSnoc(listeners: seq<string>, o: Oracle, i: nat)
    requires i < |listeners|
    ensures Attachable(listeners[..i + 1], o)
         == Attachable(listeners[..i], o) + (if listeners[i] in o.instantiable then [listeners[i]] else [])
  {
    assert listeners[..i + 1] == listeners[..i] + [listeners[i]];
    AttachableAppend(listeners[..i], [listeners[i]], o);
    assert [listeners[i]][1..] == [];
  }

  /** The built chain keeps the declared order. */
  lemma {:induction false} ChainIsSubsequence(classes: seq<string>, o: Oracle)
    ensures IsSubsequence(Chain(classes, o), Declared(classes))
    decreases |classes|
  {
    if classes != [] {
      var rest := Chain(classes[1..], o);
      var d := Declared(classes);
      ChainIsSubsequence(classes[1..], o);
      assert d[1..] == Declared(classes[1..]);
      if o.Usable(classes[0]) {
        var xs := [Configured(classes[0])] + rest;
        assert Chain(classes, o) == xs;
        assert xs[0] == d[0] && xs[1..] == rest;
      } else {
        assert Chain(classes, o) == rest;
        if rest != [] {
          ChainMembers(classes[1..], o);
          assert rest[0] in rest;
          assert rest[0] != d[0];
        }
      }
    }
  }

  /** The listeners attached keep the declared order. */
  lemma {:induction false} AttachableIsSubsequence(listeners: seq<string>, o: Oracle)
    ensures IsSubsequence(Attachable(listeners, o), listeners)
    decreases |listeners|
  {
    if listeners != [] {
      var rest := Attachable(listeners[1..], o);
      AttachableIsSubsequence(listeners[1..], o);
      if listeners[0] in o.instantiable {
        var xs := [listeners[0]] + rest;
        assert Attachable(listeners, o) == xs;
        assert xs[0] == listeners[0] && xs[1..] == rest;
      } else {
        assert Attachable(listeners, o) == rest;
        if rest != [] {
          AttachableMembers(listeners[1..], o);
          assert rest[0] in rest;
          assert rest[0] != listeners[0];
        }
      }
    }
  }

  /** Only declared classes that instantiate and configure make it into the chain. */
  lemma {:induction false} ChainMembers(classes: seq<string>, o: Oracle)
    ensures forall x :: x in Chain(classes, o) ==> x.Configured? && x.cls in classes && o.Usable(x.cls)
    decreases |classes|
  {
    if classes != [] {
      ChainMembers(classes[1..], o);
      forall x | x in Chain(classes, o) ensures x.Configured? && x.cls in classes && o.Usable(x.cls) {
        if x !in Chain(classes[1..], o) {
          assert x == Configured(classes[0]);
        } else {
          assert x.cls in classes[1..];
        }
      }
    }
  }

  /** Only declared listeners that instantiate are attached. */
  lemma {:induction false} AttachableMembers(listeners: seq<string>, o: Oracle)
    ensures forall x :: x in Attachable(listeners, o) ==> x in listeners && x in o.instantiable
    decreases |listeners|
  {
    if listeners != [] {
      AttachableMembers(listeners[1..], o);
      forall x | x in Attachable(listeners, o) ensures x in listeners && x in o.instantiable {
        if x !in Attachable(listeners[1..], o) {
          assert x == listeners[0];
        } else {
          assert x in listeners[1..];
        }
      }
    }
  }

  /** Every declared class whose instantiation and configuration succeed is in the chain. */
  lemma {:induction false} ChainKeepsUsable(classes: seq<string>, o: Oracle, c: string)
    requires c in classes && o.Usable(c)
    ensures Configured(c) in Chain(classes, o)
    decreases |classes|
  {
    if classes[0] != c {
      ChainKeepsUsable(classes[1..], o, c);
    }
  }

  /** Every declared listener class that instantiates is attached. */
  lemma {:induction false} AttachableKeepsInstantiable(listeners: seq<string>, o: Oracle, c: string)
    requires c in listeners && c in o.instantiable
    ensures c in Attachable(listeners, o)
    decreases |listeners|
  {
    if listeners[0] != c {
      AttachableKeepsInstantiable(listeners[1..], o, c);
    }
  }

  lemma {:induction false} ChainAppend(a: seq<string>, b: seq<string>, o: Oracle)
    ensures Chain(a + b, o) == Chain(a, o) + Chain(b, o)
    decreases |a|
  {
    if a != [] {
      assert (a + b)[1..] == a[1..] + b;
      ChainAppend(a[1..], b, o);
    } else {
      assert a + b == b;
    }
  }

  lemma {:induction false} ChainAllUsable(classes: seq<string>, o: Oracle)
    requires forall i :: 0 <= i < |classes| ==> o.Usable(classes[i])
    ensures Chain(classes, o) == Declared(classes)
    decreases |classes|
  {
    if classes != [] {
      ChainAllUsable(classes[1..], o);
      assert Declared(classes) == [Configured(classes[0])] + Declared(classes[1..]);
    }
  }

  lemma DeclaredAppend(a: seq<string>, b: seq<string>)
    ensures Declared(a + b) == Declared(a) + Declared(b)
  {
  }

  /** A stretch of declared classes that all instantiate and configure is kept whole. */
  lemma ChainOfUsableSlice(classes: seq<string>, o: Oracle, j: nat, lo: nat, hi: nat) returns (part: seq<string>)
    requires lo <= hi <= |classes| && (j < lo || hi <= j)
    requires forall i :: 0 <= i < |classes| && i != j ==> o.Usable(classes[i])
    ensures part == classes[lo..hi] && Chain(part, o) == Declared(part)
  {
    part := classes[lo..hi];
    forall i | 0 <= i < |part| ensures o.Usable(part[i]) {
      assert part[i] == classes[lo + i];
    }
    ChainAllUsable(part, o);
  }

  /** A class that fails contributes nothing: the chain is that of the classes before it and after it. */
  lemma ChainAround(classes: seq<string>, o: Oracle, j: nat)
    requires j < |classes| && !o.Usable(classes[j])
    ensures Chain(classes, o) == Chain(classes[..j], o) + Chain(classes[j + 1..], o)
  {
    var pre, c, post := classes[..j], classes[j], classes[j + 1..];
    assert classes == pre + ([c] + post);
    ChainAppend(pre, [c] + post, o);
    assert ([c] + post)[1..] == post;
  }

  /** One failing interceptor is left out and the others keep their relative order. */
  lemma ChainSkipsOneFailure(classes: seq<string>, o: Oracle, j: nat)
    requires j < |classes| && !o.Usable(classes[j])
    requires forall i :: 0 <= i < |classes| && i != j ==> o.Usable(classes[i])
    ensures Chain(classes, o) == Declared(classes[..j] + classes[j + 1..])
    ensures |Chain(classes, o)| == |classes| - 1
  {
    ChainAround(classes, o, j);
    var pre := ChainOfUsableSlice(classes, o, j, 0, j);
    var post := ChainOfUsableSlice(classes, o, j, j + 1, |classes|);
    assert classes[..j] == pre && classes[j + 1..] == post;
    DeclaredAppend(pre, post);
  }
}
