/** The `Signal` listener list (classes.js:15-62): an ordered list of
    callbacks, each listed once, with connect, disconnect, disconnectAll,
    emit and the `before`/`after` reordering handles. Callbacks are opaque
    ids; a value that is not a function is `NotFunction`. */
module Signals {
  import opened Wrappers
  import opened Sequences

  type ListenerId = nat

  /** What a caller hands to `connect`/`disconnect`: a function or some other
      value (the source checks `typeof fn === "function"`). */
  datatype Callback = Function(id: ListenerId) | NotFunction

  /** The list with the first occurrence of `x` removed. */
  function Removed(s: seq<ListenerId>, x: ListenerId): (r: seq<ListenerId>)
    ensures |r| == if x in s then |s| - 1 else |s|
  {
    if s == [] then []
    else if s[0] == x then s[1..]
    else [s[0]] + Removed(s[1..], x)
  }

  /** Removing an unlisted callback changes nothing. */
  lemma {:induction false} RemovedAbsent(s: seq<ListenerId>, x: ListenerId)
    requires x !in s
    ensures Removed(s, x) == s
  {
    if s != [] {
      RemovedAbsent(s[1..], x);
    }
  }

  /** Removing the callback found at index i (its first occurrence) is
      splicing the list at i: the others keep their order. */
  lemma {:induction false} RemovedIsSplice(s: seq<ListenerId>, x: ListenerId, i: nat)
    requires i < |s| && s[i] == x && x !in s[..i]
    ensures Removed(s, x) == Splice(s, i)
  {
    if i > 0 {
      assert s[0] != x by { assert s[0] == s[..i][0]; }
      assert s[1..][..i - 1] == s[..i][1..];
      RemovedIsSplice(s[1..], x, i - 1);
      assert [s[0]] + s[1..][..i - 1] == s[..i];
      assert s[1..][i - 1 + 1..] == s[i + 1..];
    }
  }

  /** On a list without repeats, removal drops exactly `x` and keeps the
      list free of repeats. */
  lemma {:induction false} RemovedDistinct(s: seq<ListenerId>, x: ListenerId)
    requires Distinct(s)
    ensures Distinct(Removed(s, x))
    ensures forall y :: y in Removed(s, x) <==> y in s && y != x
  {
    if s != [] {
      assert Distinct(s[1..]);
      RemovedDistinct(s[1..], x);
      if s[0] == x {
        assert x !in s[1..];
      } else {
        var r := Removed(s, x);
        assert r == [s[0]] + Removed(s[1..], x);
        assert s[0] !in s[1..];
      }
    }
  }

  /** What `emit` does: one call per listener, in list order, each with
      emit's arguments. */
  datatype Call<A> = Call(listener: ListenerId, args: A)

  class Signal {
    var listeners: seq<ListenerId>

    ghost predicate Valid()
      reads this
    {
      Distinct(listeners)
    }

    constructor ()
      ensures listeners == [] && Valid()
    {
      listeners := [];
    }

    /** `connect`: appends a function that is not yet listed and hands back
        its reordering handle; a repeat or a non-function changes nothing. */
    method Connect(fn: Callback) returns (h: Option<Handle>)
      requires Valid()
      modifies this
      ensures Valid()
      ensures fn.Function? && fn.id !in old(listeners) ==>
        && listeners == old(listeners) + [fn.id]
        && h.Some? && fresh(h.value)
        && h.value.signal == this && h.value.fn == fn.id
        && h.value.index == |old(listeners)|
      ensures !(fn.Function? && fn.id !in old(listeners)) ==>
        listeners == old(listeners) && h.None?
    {
      h := None;
      if fn.Function? {
        var fnIndex := IndexOf(listeners, fn.id);
        var laterFnIndex := |listeners|;
        if fnIndex > -1 {
          // the source only warns on the console here
        } else {
          listeners := listeners + [fn.id];
          var handle := new Handle(this, fn.id, laterFnIndex);
          h := Some(handle);
        }
      }
    }

    /** `disconnect`: removes that function and keeps the others in order; a
        function that is not listed, or a non-function, changes nothing. */
    method Disconnect(fn: Callback)
      requires Valid()
      modifies this
      ensures Valid()
      ensures listeners == if fn.Function? then Removed(old(listeners), fn.id) else old(listeners)
    {
      if fn.Function? {
        var fnIndex := IndexOf(listeners, fn.id);
        if fnIndex == -1 {
          RemovedAbsent(listeners, fn.id);
        } else {
          RemovedIsSplice(listeners, fn.id, fnIndex);
          RemovedDistinct(listeners, fn.id);
          listeners := Splice(listeners, fnIndex);
        }
      }
    }

    /** `disconnectAll`: empties the list. */
    method DisconnectAll()
      modifies this
      ensures Valid() && listeners == []
    {
      listeners := [];
    }

    /** `emit`: calls every listener once, in list order, with the given
        arguments; the list itself is left alone. */
    method Emit<A>(args: A) returns (calls: seq<Call<A>>)
      ensures |calls| == |listeners|
      ensures forall i :: 0 <= i < |calls| ==> calls[i] == Call(listeners[i], args)
    {
      calls := [];
      for i := 0 to |listeners|
        invariant |calls| == i
        invariant forall k :: 0 <= k < i ==> calls[k] == Call(listeners[k], args)
      {
        calls := calls + [Call(listeners[i], args)];
      }
    }
  }

  /** `Array.prototype.indexOf`: the first index holding `x`, or -1. */
  method IndexOf(s: seq<ListenerId>, x: ListenerId) returns (i: int)
    ensures -1 <= i < |s|
    ensures i == -1 <==> x !in s
    ensures i >= 0 ==> s[i] == x && x !in s[..i]
  {
    i := 0;
    while i < |s|
      invariant 0 <= i <= |s|
      invariant x !in s[..i]
    {
      if s[i] == x {
        return;
      }
      assert s[..i + 1] == s[..i] + [s[i]];
      i := i + 1;
    }
    assert s[..i] == s;
    i := -1;
  }

  /** The object returned by `connect`: `before` and `after` close over the
      signal, the function and `laterFnIndex`, which they update. */
  class Handle {
    const signal: Signal
    const fn: ListenerId
    var index: nat

    constructor (signal: Signal, fn: ListenerId, index: nat)
      ensures this.signal == signal && this.fn == fn && this.index == index
    {
      this.signal := signal;
      this.fn := fn;
      this.index := index;
    }

    /** `before`: splice at the remembered index, put the function first. */
    method Before()
      modifies this, signal
      ensures signal.listeners == [fn] + Splice(old(signal.listeners), old(index))
      ensures index == 0
    {
      signal.listeners := [fn] + Splice(signal.listeners, index);
      index := 0;
    }

    /** `after`: splice at the remembered index, put the function last. */
    method After()
      modifies this, signal
      ensures signal.listeners == Splice(old(signal.listeners), old(index)) + [fn]
      ensures index == |signal.listeners| - 1
    {
      signal.listeners := Splice(signal.listeners, index) + [fn];
      index := |signal.listeners| - 1;
    }
  }

  /** While the handle's index still points at its function (the list has
      not changed since connect), `before` moves that function to the front
      and `after` to the back; the others keep their order and the list
      keeps its members, each once. */
  lemma FreshHandleMoves(s: seq<ListenerId>, x: ListenerId, i: nat)
    requires Distinct(s) && i < |s| && s[i] == x
    ensures [x] + Splice(s, i) == [x] + Removed(s, x)
    ensures Splice(s, i) + [x] == Removed(s, x) + [x]
    ensures Distinct([x] + Splice(s, i)) && Distinct(Splice(s, i) + [x])
    ensures multiset([x] + Splice(s, i)) == multiset(s)
  {
    assert x !in s[..i];
    RemovedIsSplice(s, x, i);
    RemovedDistinct(s, x);
    assert s == s[..i] + [x] + s[i + 1..];
  }

  /** Connecting then disconnecting a new function restores the list. */
  lemma ConnectDisconnect(s: seq<ListenerId>, x: ListenerId)
    requires x !in s
    ensures Removed(s + [x], x) == s
  {
    RemovedIsSplice(s + [x], x, |s|);
    assert (s + [x])[..|s|] == s;
  }
}
