/** Halide's Scope<Expr> as the backend uses it: names bound to values, pushed
    and popped in nested pairs, where a newer binding of a name hides older ones.
    It is kept as the sequence of bindings in the order they were pushed. */
module Scopes {
  import opened Outcomes
  import opened Ir

  datatype Binding = Binding(name: string, value: Expr)

  type Scope = seq<Binding>

  /** scope.push(name, value). */
  function ScopePush(m: Scope, name: string, value: Expr): Scope {
    m + [Binding(name, value)]
  }

  /** scope.pop(name): drops the newest binding of `name`; nothing if it has none. */
  function ScopePop(m: Scope, name: string): (r: Scope)
    ensures |r| <= |m|
  {
    if m == [] then []
    else if m[|m| - 1].name == name then m[..|m| - 1]
    else ScopePop(m[..|m| - 1], name) + [m[|m| - 1]]
  }

  /** The names that have a binding. */
  function BoundNames(m: Scope): set<string> {
    set i | 0 <= i < |m| :: m[i].name
  }

  /** scope.get(name): the newest value bound to `name`, or the error Halide
      raises for an unbound name. */
  function ScopeGet(m: Scope, name: string): (r: Result<Expr>)
    ensures r.Ok? <==> name in BoundNames(m)
    ensures r.Err? ==> r.fault == UnboundSymbol
  {
    if m == [] then Err(UnboundSymbol)
    else if m[|m| - 1].name == name then Ok(m[|m| - 1].value)
    else
      var r := ScopeGet(m[..|m| - 1], name);
      assert BoundNames(m) == BoundNames(m[..|m| - 1]) + {m[|m| - 1].name};
      r
  }

  /** No binding pushed after the `i`-th binds the same name. */
  predicate Newest(m: Scope, i: int)
    requires 0 <= i < |m|
  {
    forall j :: i < j < |m| ==> m[j].name != m[i].name
  }

  /** scope.get finds the value of the newest binding of the name. */
  lemma {:induction false} GetNewest(m: Scope, name: string)
    requires name in BoundNames(m)
    ensures exists i :: 0 <= i < |m| && m[i].name == name && ScopeGet(m, name) == Ok(m[i].value) && Newest(m, i)
    decreases |m|
  {
    var k := |m| - 1;
    if m[k].name == name {
      assert Newest(m, k);
    } else {
      var init := m[..k];
      assert BoundNames(m) == BoundNames(init) + {m[k].name};
      GetNewest(init, name);
      var i :| 0 <= i < |init| && init[i].name == name && ScopeGet(init, name) == Ok(init[i].value) && Newest(init, i);
      assert m[i] == init[i];
      assert Newest(m, i);
    }
  }

  lemma GetNewestAll(m: Scope)
    ensures forall n :: n in BoundNames(m) ==>
      exists i :: 0 <= i < |m| && m[i].name == n && ScopeGet(m, n) == Ok(m[i].value) && Newest(m, i)
  {
    forall n | n in BoundNames(m)
      ensures exists i :: 0 <= i < |m| && m[i].name == n && ScopeGet(m, n) == Ok(m[i].value) && Newest(m, i)
    {
      GetNewest(m, n);
    }
  }

  /** A pop of a name without a binding leaves the scope as it is. */
  lemma {:induction false} PopUnbound(m: Scope, name: string)
    requires name !in BoundNames(m)
    ensures ScopePop(m, name) == m
    decreases |m|
  {
    if m != [] {
      var k := |m| - 1;
      var init := m[..k];
      assert m[k].name in BoundNames(m);
      assert BoundNames(init) <= BoundNames(m) by {
        forall x | x in BoundNames(init) ensures x in BoundNames(m) {
          var j :| 0 <= j < |init| && init[j].name == x;
          assert m[j] == init[j];
        }
      }
      PopUnbound(init, name);
      assert m == init + [m[k]];
    }
  }

  /** A pop removes exactly the newest binding of the name and keeps every other
      binding in order. */
  lemma {:induction false} PopNewest(m: Scope, name: string)
    requires name in BoundNames(m)
    ensures exists i :: 0 <= i < |m| && m[i].name == name && Newest(m, i) && ScopePop(m, name) == m[..i] + m[i + 1..]
    decreases |m|
  {
    var k := |m| - 1;
    var init := m[..k];
    if m[k].name == name {
      assert Newest(m, k);
      assert m[..k] + m[k + 1..] == init;
    } else {
      assert name in BoundNames(init) by {
        var j :| 0 <= j < |m| && m[j].name == name;
        assert init[j] == m[j];
      }
      PopNewest(init, name);
      var i :| 0 <= i < |init| && init[i].name == name && Newest(init, i) && ScopePop(init, name) == init[..i] + init[i + 1..];
      assert ScopePop(m, name) == ScopePop(init, name) + [m[k]];
      assert m == init + [m[k]];
      PopNewestBelow(init, m[k], name, i);
    }
  }

  /** A binding pushed with another name keeps the newest binding of `name` the
      newest, and removing that binding commutes with the push. */
  lemma PopNewestBelow(init: Scope, last: Binding, name: string, i: int)
    requires 0 <= i < |init| && init[i].name == name && Newest(init, i) && last.name != name
    ensures var m := init + [last];
      Newest(m, i) && m[..i] + m[i + 1..] == init[..i] + init[i + 1..] + [last]
  {
    var m := init + [last];
    assert m[..i] == init[..i];
    assert m[i + 1..] == init[i + 1..] + [last];
    AppendAssocBindings(init[..i], init[i + 1..], [last]);
  }

  lemma AppendAssocBindings(a: Scope, b: Scope, c: Scope)
    ensures a + b + c == a + (b + c)
  {
  }

  /** A pop undoes the push of the same name, whatever was bound before. */
  lemma PopPush(m: Scope, name: string, value: Expr)
    ensures ScopePop(ScopePush(m, name, value), name) == m
  {
    assert ScopePush(m, name, value)[..|m|] == m;
  }

  /** After a push the name resolves to the pushed value; other names are unaffected. */
  lemma GetPush(m: Scope, name: string, value: Expr, other: string)
    ensures ScopeGet(ScopePush(m, name, value), name) == Ok(value)
    ensures other != name ==> ScopeGet(ScopePush(m, name, value), other) == ScopeGet(m, other)
  {
    assert ScopePush(m, name, value)[..|m|] == m;
  }

  /** A push binds exactly one more name. */
  lemma BoundNamesPush(m: Scope, name: string, value: Expr)
    ensures BoundNames(ScopePush(m, name, value)) == BoundNames(m) + {name}
  {
    var m1 := ScopePush(m, name, value);
    assert forall i :: 0 <= i < |m| ==> m1[i] == m[i];
    assert m1[|m|].name == name;
  }

  /** The replacement map built from the scope before a loop's bounds are resolved:
      every bound name with its newest value, filtered as the source filters it. */
  function Replacements(m: Scope, minName: string, extentName: string): (r: map<string, Expr>)
    ensures forall n :: n in r ==> ScopeGet(m, n) == Ok(r[n])
    ensures forall n :: n in r ==>
      exists i :: 0 <= i < |m| && m[i].name == n && r[n] == m[i].value && Newest(m, i)
  {
    GetNewestAll(m);
    map n | n in BoundNames(m) && (n != minName || n != extentName) :: ScopeGet(m, n).value
  }

  /** The filter keeps every bound name except when the loop's min and extent are
      the same variable, in which case only that variable is left out. */
  lemma ReplacementsKeys(m: Scope, minName: string, extentName: string)
    ensures Replacements(m, minName, extentName).Keys
         == if minName == extentName then BoundNames(m) - {minName} else BoundNames(m)
  {
  }
}
