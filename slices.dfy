/** Go slices of middlewares as http.go's CollectMiddlewares builds them: a
    length over a backing array whose size is the slice's capacity. `append`
    writes into the spare capacity when the new elements fit, so two slices
    can share one backing array. */
module GoSlices {
  import opened Handlers

  datatype Slice = Slice(backing: array<Middleware>, len: nat)

  predicate Valid(s: Slice) {
    s.len <= s.backing.Length
  }

  /** The elements a slice shows: the first `len` slots of its backing array. */
  function Elements(s: Slice): (e: seq<Middleware>)
    requires Valid(s)
    reads s.backing
    ensures |e| == s.len
  {
    s.backing[..s.len]
  }

  /** Fills the slots of a new backing array that no element occupies yet. */
  const Unset := Middleware("")

  /** The nil slice: no elements and no capacity. */
  method Nil() returns (s: Slice)
    ensures fresh(s.backing) && Valid(s) && s.backing.Length == 0 && Elements(s) == []
  {
    var a := new Middleware[0];
    s := Slice(a, 0);
  }

  /** append(s, xs...): when the elements fit in the spare capacity they are
      written into s's own backing array, which the result shares; otherwise
      they go into a fresh array, twice as large as the old one or just large
      enough, whichever is more. */
  method Append(s: Slice, xs: seq<Middleware>) returns (r: Slice)
    requires Valid(s)
    modifies s.backing
    ensures Valid(r) && Elements(r) == old(Elements(s)) + xs
    ensures s.len + |xs| <= s.backing.Length ==> r.backing == s.backing
    ensures s.len + |xs| > s.backing.Length ==>
              && fresh(r.backing) && unchanged(s.backing)
              && r.backing.Length == if s.len + |xs| > 2 * s.backing.Length then s.len + |xs|
                                     else 2 * s.backing.Length
  {
    var n := s.len + |xs|;
    if n <= s.backing.Length {
      forall i | 0 <= i < |xs| {
        s.backing[s.len + i] := xs[i];
      }
      r := Slice(s.backing, n);
      assert Elements(r) == old(Elements(s)) + xs by {
        assert forall i :: 0 <= i < n ==>
                 Elements(r)[i] == if i < s.len then old(s.backing[i]) else xs[i - s.len];
      }
    } else {
      var capacity := if n > 2 * s.backing.Length then n else 2 * s.backing.Length;
      var a := new Middleware[capacity](_ => Unset);
      forall i | 0 <= i < s.len {
        a[i] := s.backing[i];
      }
      forall i | 0 <= i < |xs| {
        a[s.len + i] := xs[i];
      }
      r := Slice(a, n);
      assert Elements(r) == old(Elements(s)) + xs by {
        assert forall i :: 0 <= i < n ==>
                 Elements(r)[i] == if i < s.len then s.backing[i] else xs[i - s.len];
      }
    }
  }

  /** A group's list after one Use call per element of `mws`, starting from nil. */
  method UseAll(mws: seq<Middleware>) returns (s: Slice)
    ensures fresh(s.backing) && Valid(s) && Elements(s) == mws
  {
    s := Nil();
    var i := 0;
    while i < |mws|
      invariant 0 <= i <= |mws|
      invariant fresh(s.backing) && Valid(s) && Elements(s) == mws[..i]
    {
      s := Append(s, [mws[i]]);
      assert mws[..i] + [mws[i]] == mws[..i + 1];
      i := i + 1;
    }
    assert mws[..i] == mws;
  }

  /** CollectMiddlewares as written, for a group directly under the root: the
      loop's first step takes the group's own list (appending nothing to it),
      the second appends that list to the root's list. When it fits, the
      result lives in the root's backing array. */
  method CollectUnderRoot(own: Slice, root: Slice) returns (mws: Slice)
    requires Valid(own) && Valid(root) && own.backing != root.backing
    modifies own.backing, root.backing
    ensures Valid(mws) && Elements(mws) == old(Elements(root)) + old(Elements(own))
    ensures Elements(own) == old(Elements(own)) && Elements(root) == old(Elements(root))
    ensures root.len + own.len <= root.backing.Length ==> mws.backing == root.backing
  {
    mws := Append(own, []);
    assert Elements(mws) == Elements(own);
    mws := Append(root, Elements(mws));
    assert root.len + own.len <= root.backing.Length ==>
             Elements(root) == Elements(mws)[..root.len];
  }

  /** A root group with three Use calls holds its list in an array of four. */
  method RootAfterThreeUses(m1: Middleware, m2: Middleware, m3: Middleware) returns (root: Slice)
    ensures fresh(root.backing) && Valid(root)
    ensures Elements(root) == [m1, m2, m3] && root.backing.Length == 4
  {
    root := Nil();
    root := Append(root, [m1]);
    root := Append(root, [m2]);
    assert Elements(root) == [m1, m2];
    root := Append(root, [m3]);
  }

  /** Two requests served at once through sibling groups with own lists [x]
      and [y] under a root group that called Use three times. Both reach the
      root and append into its one spare slot; the request through x, which
      collected first, then reads y's middleware where its own should be. */
  method SiblingRequestsRace(m1: Middleware, m2: Middleware, m3: Middleware,
                             x: Middleware, y: Middleware)
    returns (seenThroughX: seq<Middleware>, seenThroughY: seq<Middleware>)
    requires x != y
    ensures seenThroughX == [m1, m2, m3, y] && seenThroughY == [m1, m2, m3, y]
    ensures seenThroughX != [m1, m2, m3] + [x]
  {
    var root := RootAfterThreeUses(m1, m2, m3);
    var ownX := UseAll([x]);
    var ownY := UseAll([y]);
    // The request through x collects first ...
    var mwsX := CollectUnderRoot(ownX, root);
    // ... and the request through y reaches the root before x's handler is wrapped.
    var mwsY := CollectUnderRoot(ownY, root);
    seenThroughX := Elements(mwsX);
    seenThroughY := Elements(mwsY);
    assert mwsX.backing == mwsY.backing && mwsX.len == mwsY.len;
    assert seenThroughX[3] == y;
  }
}
