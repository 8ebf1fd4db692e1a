/**
 * The listener registry's value level: how a listener string is read, which
 * listeners a call matches, and the sequence of callback invocations a dispatch makes.
 */
module Listeners {
  import opened Wrappers
  import opened Text

  /** A callback stands for itself only: an opaque identity. */
  type CallbackId = nat

  /** What a listener string registers for: a function name and an optional CMI element filter. */
  datatype ListenerKey = ListenerKey(functionName: string, cmiElement: Option<string>)

  /** One registered listener. */
  datatype Listener = Listener(functionName: string, cmiElement: Option<string>, callback: CallbackId)

  /** One call `callback(CMIElement, value)` made by a dispatch. */
  datatype Invocation = Invocation(callback: CallbackId, cmiElement: Option<string>, value: string)

  /**
   * The reading of `"Func"` or `"Func.elem.path"`: the name is the text before the
   * first dot, the element everything after it (later dots kept), and a string
   * without a dot has no element.
   */
  function ParseListener(listenerString: string): (k: ListenerKey)
    ensures '.' !in k.functionName
    ensures k.cmiElement.None? <==> '.' !in listenerString
  {
    match IndexOfChar(listenerString, '.')
    case None => ListenerKey(listenerString, None)
    case Some(d) => ListenerKey(listenerString[..d], Some(listenerString[d + 1..]))
  }

  /** The listener string a key is written as. */
  function Unparse(k: ListenerKey): string {
    match k.cmiElement
    case None => k.functionName
    case Some(e) => k.functionName + "." + e
  }

  /** Reading a listener string loses nothing. */
  lemma UnparseParse(listenerString: string)
    ensures Unparse(ParseListener(listenerString)) == listenerString
  {
  }

  /** Every key whose function name has no dot is read back from its own string. */
  lemma ParseUnparse(k: ListenerKey)
    requires '.' !in k.functionName
    ensures ParseListener(Unparse(k)) == k
  {
    match k.cmiElement
    case None =>
    case Some(e) =>
      var s := Unparse(k);
      var n := |k.functionName|;
      assert s[n] == '.' && s[..n] == k.functionName;
      assert IndexOfChar(s, '.') == Some(n);
      assert s[n + 1..] == e;
  }

  /** The example of the registration grammar: only the first dot separates. */
  lemma ParseNestedElement()
    ensures ParseListener("F.E1.E2") == ListenerKey("F", Some("E1.E2"))
  {
  }

  /**
   * What the registration code does, `split(".")` then `replace(name + ".", "")`,
   * reads the listener string exactly as `ParseListener` does; and the split is
   * never empty, so a guard against an empty split never fires.
   */
  lemma SplitReplaceParse(listenerString: string)
    ensures var pieces := Split(listenerString, '.');
      var k := ParseListener(listenerString);
      && |pieces| >= 1
      && pieces[0] == k.functionName
      && (|pieces| > 1 <==> k.cmiElement.Some?)
      && (|pieces| > 1 ==> ReplaceFirst(listenerString, pieces[0] + ".", "") == k.cmiElement.value)
  {
    SplitFirstPiece(listenerString, '.');
    var pieces := Split(listenerString, '.');
    match IndexOfChar(listenerString, '.')
    case None =>
    case Some(d) =>
      assert pieces[0] + "." <= listenerString by {
        assert listenerString[..d + 1] == pieces[0] + ".";
      }
      ReplaceLeading(listenerString, pieces[0] + ".", "");
  }

  // ---------------------------------------------------------------------------
  // dispatch

  /**
   * A listener answers a call when the function names are equal and the listener
   * either has no (truthy) element filter or its filter equals the call's element.
   */
  predicate Matches(l: Listener, functionName: string, cmiElement: Option<string>)
    ensures Matches(l, functionName, cmiElement) ==> l.functionName == functionName
    ensures !Truthy(l.cmiElement) ==> (Matches(l, functionName, cmiElement) <==> l.functionName == functionName)
    ensures Truthy(l.cmiElement) && Matches(l, functionName, cmiElement) ==> cmiElement == l.cmiElement
  {
    l.functionName == functionName && (!Truthy(l.cmiElement) || l.cmiElement == cmiElement)
  }

  /** What one listener contributes to a dispatch: its callback, given the call's element and value. */
  function Fire(l: Listener, functionName: string, cmiElement: Option<string>, value: string): (r: seq<Invocation>)
    ensures |r| <= 1
    ensures |r| == 1 <==> Matches(l, functionName, cmiElement)
    ensures forall i :: 0 <= i < |r| ==> r[i] == Invocation(l.callback, cmiElement, value)
  {
    if Matches(l, functionName, cmiElement) then [Invocation(l.callback, cmiElement, value)] else []
  }

  /** The invocations a dispatch over `listeners` makes, in list order. */
  function Dispatch(listeners: seq<Listener>, functionName: string, cmiElement: Option<string>, value: string): seq<Invocation>
    decreases |listeners|
  {
    if listeners == [] then []
    else
      var n := |listeners| - 1;
      Dispatch(listeners[..n], functionName, cmiElement, value) + Fire(listeners[n], functionName, cmiElement, value)
  }

  /** Dispatch over two runs of listeners is the first run's invocations, then the second's. */
  lemma {:induction false} DispatchAppend(a: seq<Listener>, b: seq<Listener>, functionName: string, cmiElement: Option<string>, value: string)
    ensures Dispatch(a + b, functionName, cmiElement, value)
         == Dispatch(a, functionName, cmiElement, value) + Dispatch(b, functionName, cmiElement, value)
    decreases |b|
  {
    if b == [] {
      assert a + b == a;
    } else {
      var n := |b| - 1;
      var ab := a + b;
      assert ab[..|ab| - 1] == a + b[..n];
      assert ab[|ab| - 1] == b[n];
      var fire := Fire(b[n], functionName, cmiElement, value);
      calc {
        Dispatch(ab, functionName, cmiElement, value);
        Dispatch(a + b[..n], functionName, cmiElement, value) + fire;
        { DispatchAppend(a, b[..n], functionName, cmiElement, value); }
        Dispatch(a, functionName, cmiElement, value) + Dispatch(b[..n], functionName, cmiElement, value) + fire;
        Dispatch(a, functionName, cmiElement, value) + (Dispatch(b[..n], functionName, cmiElement, value) + fire);
      }
    }
  }

  /**
   * Listener `i` contributes exactly its own `Fire` to a dispatch, after every
   * earlier listener's invocations and before every later one's.
   */
  lemma DispatchAt(listeners: seq<Listener>, i: nat, functionName: string, cmiElement: Option<string>, value: string)
    requires i < |listeners|
    ensures Dispatch(listeners, functionName, cmiElement, value)
         == Dispatch(listeners[..i], functionName, cmiElement, value)
          + Fire(listeners[i], functionName, cmiElement, value)
          + Dispatch(listeners[i + 1..], functionName, cmiElement, value)
  {
    assert listeners == listeners[..i] + [listeners[i]] + listeners[i + 1..];
    DispatchAppend(listeners[..i] + [listeners[i]], listeners[i + 1..], functionName, cmiElement, value);
    DispatchAppend(listeners[..i], [listeners[i]], functionName, cmiElement, value);
    assert Dispatch([listeners[i]], functionName, cmiElement, value) == Fire(listeners[i], functionName, cmiElement, value) by {
      assert [listeners[i]][..0] == [];
    }
  }

  /**
   * An invocation occurs in a dispatch exactly when it carries the call's own
   * element and value and its callback belongs to some matching listener.
   */
  lemma {:induction false} DispatchMembership(listeners: seq<Listener>, functionName: string, cmiElement: Option<string>, value: string, inv: Invocation)
    ensures inv in Dispatch(listeners, functionName, cmiElement, value)
        <==> inv.cmiElement == cmiElement && inv.value == value
             && exists k :: 0 <= k < |listeners| && listeners[k].callback == inv.callback && Matches(listeners[k], functionName, cmiElement)
    decreases |listeners|
  {
    if listeners != [] {
      var n := |listeners| - 1;
      var front := listeners[..n];
      DispatchMembership(front, functionName, cmiElement, value, inv);
      assert forall k :: 0 <= k < n ==> front[k] == listeners[k];
      if inv in Dispatch(listeners, functionName, cmiElement, value) && inv !in Dispatch(front, functionName, cmiElement, value) {
        assert inv == Invocation(listeners[n].callback, cmiElement, value);
      }
      if exists k :: 0 <= k < |listeners| && listeners[k].callback == inv.callback && Matches(listeners[k], functionName, cmiElement) {
        var k :| 0 <= k < |listeners| && listeners[k].callback == inv.callback && Matches(listeners[k], functionName, cmiElement);
        if k == n && inv.cmiElement == cmiElement && inv.value == value {
          assert inv == Fire(listeners[n], functionName, cmiElement, value)[0];
        }
      }
    }
  }

  /** A call on one element skips a listener filtered on another and reaches the unfiltered one. */
  lemma DispatchFilterExample()
    ensures Dispatch([Listener("SetValue", Some("cmi.score"), 1), Listener("SetValue", None, 2)], "SetValue", Some("cmi.other"), "80")
         == [Invocation(2, Some("cmi.other"), "80")]
  {
  }
}
