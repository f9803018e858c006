/** Tokens that live in queues. `q` gives the contents of every place (absent means empty) and
    `loc` the place of every live token; `Kept` says that the two agree and no token is doubled,
    so each live token is in exactly one place, exactly once. */
module Places {

  function At<P, I>(q: map<P, seq<I>>, p: P): seq<I> { if p in q then q[p] else [] }

  ghost predicate NoDup<I(!new)>(s: seq<I>) {
    forall j, k :: 0 <= j < k < |s| ==> s[j] != s[k]
  }

  ghost predicate Kept<P(!new), I(!new)>(q: map<P, seq<I>>, loc: map<I, P>) {
    && (forall p, i :: i in At(q, p) <==> i in loc && loc[i] == p)
    && (forall p :: NoDup(At(q, p)))
  }

  /** Append a token to a place. */
  function Put<P, I>(q: map<P, seq<I>>, p: P, i: I): map<P, seq<I>> { q[p := At(q, p) + [i]] }

  /** Remove the front of a place. */
  function Take<P, I>(q: map<P, seq<I>>, p: P): map<P, seq<I>>
    requires At(q, p) != []
  {
    q[p := At(q, p)[1..]]
  }

  lemma PutKeeps<P(!new), I(!new)>(q: map<P, seq<I>>, loc: map<I, P>, p: P, i: I)
    requires Kept(q, loc) && i !in loc
    ensures Kept(Put(q, p, i), loc[i := p])
  {
    var q', loc' := Put(q, p, i), loc[i := p];
    assert i !in At(q, p);
    forall p', i' ensures i' in At(q', p') <==> i' in loc' && loc'[i'] == p' {
      assert At(q', p') == if p' == p then At(q, p) + [i] else At(q, p');
    }
    forall p' ensures NoDup(At(q', p')) {
      assert NoDup(At(q, p'));
    }
  }

  lemma FrontOnce<I(!new)>(s: seq<I>)
    requires s != [] && NoDup(s)
    ensures NoDup(s[1..]) && forall i :: i in s[1..] <==> i in s && i != s[0]
  {
    forall i ensures i in s[1..] <==> i in s && i != s[0] {
      assert s == [s[0]] + s[1..];
      if i in s[1..] { var k :| 0 <= k < |s[1..]| && s[1..][k] == i; assert s[k + 1] == i; }
    }
  }

  lemma TakeKeeps<P(!new), I(!new)>(q: map<P, seq<I>>, loc: map<I, P>, p: P)
    requires Kept(q, loc) && At(q, p) != []
    ensures At(q, p)[0] in loc && loc[At(q, p)[0]] == p
    ensures Kept(Take(q, p), loc - {At(q, p)[0]})
  {
    var i := At(q, p)[0];
    var q', loc' := Take(q, p), loc - {i};
    assert i in At(q, p);
    assert NoDup(At(q, p));
    FrontOnce(At(q, p));
    hide NoDup;
    forall p', i' ensures i' in At(q', p') <==> i' in loc' && loc'[i'] == p' {
      assert At(q', p') == if p' == p then At(q, p)[1..] else At(q, p');
    }
    forall p' ensures NoDup(At(q', p')) {
      assert NoDup(At(q, p'));
    }
  }

  /** Taking a token from one place and putting it at the back of another. */
  function Move<P, I>(q: map<P, seq<I>>, from: P, to: P): map<P, seq<I>>
    requires At(q, from) != []
  {
    Put(Take(q, from), to, At(q, from)[0])
  }

  lemma MoveKeeps<P(!new), I(!new)>(q: map<P, seq<I>>, loc: map<I, P>, from: P, to: P)
    requires Kept(q, loc) && At(q, from) != []
    ensures At(q, from)[0] in loc && loc[At(q, from)[0]] == from
    ensures Kept(Move(q, from, to), loc[At(q, from)[0] := to])
  {
    var i := At(q, from)[0];
    TakeKeeps(q, loc, from);
    PutKeeps(Take(q, from), loc - {i}, to, i);
    assert (loc - {i})[i := to] == loc[i := to];
  }
}
