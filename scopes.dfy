/** The scopes requested after sign-in: the configured scopes minus those the
    interactive sign-in already grants. */
module Scopes {

  /** Scopes granted by default by the interactive sign-in. */
  const DefaultGrantedScopes: seq<string> := ["email", "profile", "openid"]

  predicate IsDefaultGranted(scope: string) {
    scope in DefaultGrantedScopes
  }

  /** No scope of `scopes` is one granted by default. */
  predicate NoDefaultScope(scopes: seq<string>) {
    forall i :: 0 <= i < |scopes| ==> !IsDefaultGranted(scopes[i])
  }

  /** `a` can be obtained from `b` by deleting elements, keeping the order of the rest. */
  predicate IsSubsequence(a: seq<string>, b: seq<string>)
    decreases |b|
  {
    if a == [] then true
    else if b == [] then false
    else if a[0] == b[0] then IsSubsequence(a[1..], b[1..])
    else IsSubsequence(a, b[1..])
  }

  /** The filter `scopes.filter { !defaultGrantedScopes.contains($0) }`. */
  function FilterScopes(scopes: seq<string>): (r: seq<string>)
    ensures |r| <= |scopes|
    ensures NoDefaultScope(r)
    decreases |scopes|
  {
    if scopes == [] then []
    else if IsDefaultGranted(scopes[0]) then FilterScopes(scopes[1..])
    else [scopes[0]] + FilterScopes(scopes[1..])
  }

  /** A scope is kept exactly when it occurs in the input and is not granted by default. */
  lemma {:induction false} FilterScopesMembers(scopes: seq<string>)
    ensures forall x :: x in FilterScopes(scopes) <==> x in scopes && !IsDefaultGranted(x)
    decreases |scopes|
  {
    if scopes != [] {
      FilterScopesMembers(scopes[1..]);
      assert scopes == [scopes[0]] + scopes[1..];
    }
  }

  /** Filtering works element by element: it distributes over concatenation, so
      the relative order of the kept scopes is that of the input. */
  lemma {:induction false} FilterScopesAppend(a: seq<string>, b: seq<string>)
    ensures FilterScopes(a + b) == FilterScopes(a) + FilterScopes(b)
    decreases |a|
  {
    if a == [] {
      assert a + b == b;
    } else {
      var tail := a[1..];
      assert a == [a[0]] + tail;
      assert a + b == [a[0]] + (tail + b);
      FilterScopesAppend(tail, b);
      FilterScopesCons(a[0], tail + b);
      FilterScopesCons(a[0], tail);
    }
  }

  /** One step of the filter: the head is kept unless it is granted by default. */
  lemma FilterScopesCons(scope: string, rest: seq<string>)
    ensures FilterScopes([scope] + rest) == (if IsDefaultGranted(scope) then [] else [scope]) + FilterScopes(rest)
  {
    assert ([scope] + rest)[1..] == rest;
  }

  /** The result keeps the input's order: it is a subsequence of the input. */
  lemma {:induction false} FilterScopesIsSubsequence(scopes: seq<string>)
    ensures IsSubsequence(FilterScopes(scopes), scopes)
    decreases |scopes|
  {
    if scopes != [] {
      FilterScopesIsSubsequence(scopes[1..]);
      if !IsDefaultGranted(scopes[0]) {
        var r := FilterScopes(scopes);
        assert r[0] == scopes[0] && r[1..] == FilterScopes(scopes[1..]);
      } else {
        // the first kept scope, if any, differs from the dropped default scope
        var r := FilterScopes(scopes[1..]);
        assert r != [] ==> r[0] != scopes[0];
      }
    }
  }

  /** Each scope that is not granted by default is kept exactly as many times as
      it occurs in the input (duplicates survive); default scopes are all removed. */
  lemma {:induction false} FilterScopesCount(scopes: seq<string>, x: string)
    ensures multiset(FilterScopes(scopes))[x] == if IsDefaultGranted(x) then 0 else multiset(scopes)[x]
    decreases |scopes|
  {
    if scopes != [] {
      FilterScopesCount(scopes[1..], x);
      assert scopes == [scopes[0]] + scopes[1..];
      assert multiset(scopes) == multiset([scopes[0]]) + multiset(scopes[1..]);
    }
  }

  /** Nothing is left to request exactly when every configured scope is granted by default. */
  lemma {:induction false} FilterScopesEmpty(scopes: seq<string>)
    ensures FilterScopes(scopes) == [] <==> forall i :: 0 <= i < |scopes| ==> IsDefaultGranted(scopes[i])
  {
    if exists i :: 0 <= i < |scopes| && !IsDefaultGranted(scopes[i]) {
      var i :| 0 <= i < |scopes| && !IsDefaultGranted(scopes[i]);
      FilterScopesMembers(scopes);
      assert scopes[i] in FilterScopes(scopes);
    } else {
      var f := FilterScopes(scopes);
      FilterScopesMembers(scopes);
      assert f != [] ==> f[0] in f;
    }
  }

  /** Filtering an already filtered list changes nothing. */
  lemma {:induction false} FilterScopesIdempotent(scopes: seq<string>)
    ensures FilterScopes(FilterScopes(scopes)) == FilterScopes(scopes)
  {
    FilterKeepsClean(FilterScopes(scopes));
  }

  /** A list without default scopes is its own filter. */
  lemma {:induction false} FilterKeepsClean(scopes: seq<string>)
    requires NoDefaultScope(scopes)
    ensures FilterScopes(scopes) == scopes
    decreases |scopes|
  {
    if scopes != [] {
      FilterKeepsClean(scopes[1..]);
      assert scopes == [scopes[0]] + scopes[1..];
    }
  }
}
