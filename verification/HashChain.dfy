/**
  Hash-chained ledgers.

  The agent audit log, the approval ledger and the activity stream store the same kind of
  row: a sequence number, the digest of the previous row, a body, and a digest over all
  three.  The digest function is a parameter; theorems that need it to be collision-free
  say so.
 */
module HashChain {
  import opened Common

  /** What a row's digest covers. */
  datatype Material<+B> = Material(sequence: int, previous: Option<string>, body: B)

  datatype Link<+B> = Link(sequence: int, previous: Option<string>, body: B, digest: string)

  function Seal<B>(hash: Material<B> -> string, material: Material<B>): Link<B> {
    Link(material.sequence, material.previous, material.body, hash(material))
  }

  predicate Sealed<B>(hash: Material<B> -> string, link: Link<B>) {
    link.digest == hash(Material(link.sequence, link.previous, link.body))
  }

  /** The value the next row must carry as its previous digest. */
  function Tip<B>(first: Option<string>, links: seq<Link<B>>): Option<string> {
    if links == [] then first else Some(links[|links| - 1].digest)
  }

  /** Every row is sealed and names the digest of the row before it. */
  ghost predicate Chained<B>(hash: Material<B> -> string, first: Option<string>, links: seq<Link<B>>) {
    forall i :: 0 <= i < |links| ==> Sealed(hash, links[i]) && links[i].previous == Tip(first, links[..i])
  }

  /** A chain whose rows are numbered 1, 2, 3, ... */
  ghost predicate Contiguous<B>(hash: Material<B> -> string, first: Option<string>, links: seq<Link<B>>) {
    Chained(hash, first, links) && forall i :: 0 <= i < |links| ==> links[i].sequence == i + 1
  }

  ghost predicate Increasing<B>(links: seq<Link<B>>) {
    forall i, j :: 0 <= i < j < |links| ==> links[i].sequence < links[j].sequence
  }

  lemma ChainedExtends<B>(hash: Material<B> -> string, first: Option<string>, links: seq<Link<B>>, link: Link<B>)
    requires Chained(hash, first, links)
    requires Sealed(hash, link) && link.previous == Tip(first, links)
    ensures Chained(hash, first, links + [link])
  {
    var all := links + [link];
    forall i | 0 <= i < |all|
      ensures Sealed(hash, all[i]) && all[i].previous == Tip(first, all[..i])
    {
      assert all[..i] == links[..i];
      assert links[..|links|] == links;
    }
  }

  lemma ChainedPrefix<B>(hash: Material<B> -> string, first: Option<string>, links: seq<Link<B>>, n: nat)
    requires Chained(hash, first, links) && n <= |links|
    ensures Chained(hash, first, links[..n])
  {
    forall i | 0 <= i < n
      ensures Sealed(hash, links[..n][i]) && links[..n][i].previous == Tip(first, links[..n][..i])
    {
      assert links[..n][..i] == links[..i];
    }
  }

  /** A chain is checked row by row. */
  lemma ChainedStep<B>(hash: Material<B> -> string, first: Option<string>, links: seq<Link<B>>, i: nat)
    requires i < |links|
    ensures Tip(first, links[..i + 1]) == Some(links[i].digest)
    ensures Chained(hash, first, links[..i + 1]) <==>
      Chained(hash, first, links[..i]) && Sealed(hash, links[i]) && links[i].previous == Tip(first, links[..i])
  {
    var all := links[..i + 1];
    assert all == links[..i] + [links[i]] && all[..i] == links[..i];
    if Chained(hash, first, all) {
      ChainedPrefix(hash, first, all, i);
      assert all[i] == links[i];
    }
    if Chained(hash, first, links[..i]) && Sealed(hash, links[i]) && links[i].previous == Tip(first, links[..i]) {
      ChainedExtends(hash, first, links[..i], links[i]);
    }
  }

  lemma ContiguousStep<B>(hash: Material<B> -> string, first: Option<string>, links: seq<Link<B>>, i: nat)
    requires i < |links|
    ensures Tip(first, links[..i + 1]) == Some(links[i].digest)
    ensures Contiguous(hash, first, links[..i + 1]) <==>
      && Contiguous(hash, first, links[..i])
      && links[i].sequence == i + 1 && Sealed(hash, links[i]) && links[i].previous == Tip(first, links[..i])
  {
    ChainedStep(hash, first, links, i);
    var all := links[..i + 1];
    assert all == links[..i] + [links[i]];
    assert Contiguous(hash, first, all) ==>
        all[i].sequence == i + 1 && forall k :: 0 <= k < i ==> links[..i][k] == all[k];
  }

  /** A row that breaks the chain breaks every longer one. */
  lemma BrokenPrefixBreaks<B>(hash: Material<B> -> string, first: Option<string>, links: seq<Link<B>>, n: nat)
    requires n <= |links|
    ensures Chained(hash, first, links) ==> Chained(hash, first, links[..n])
    ensures Contiguous(hash, first, links) ==> Contiguous(hash, first, links[..n])
  {
    if Chained(hash, first, links) {
      ChainedPrefix(hash, first, links, n);
    }
  }

  lemma SameDigestSameRow<B(!new)>(hash: Material<B> -> string, x: Link<B>, y: Link<B>)
    requires Injective(hash)
    requires Sealed(hash, x) && Sealed(hash, y) && x.digest == y.digest
    ensures x == y
  {
    assert hash(Material(x.sequence, x.previous, x.body)) == hash(Material(y.sequence, y.previous, y.body));
  }

  /** Two ledgers of one length that end in the same digest are equal, row by row from the end. */
  lemma {:induction false} LastDigestFixesRows<B(!new)>(
      hash: Material<B> -> string, first: Option<string>, xs: seq<Link<B>>, ys: seq<Link<B>>)
    requires Injective(hash)
    requires Chained(hash, first, xs) && Chained(hash, first, ys)
    requires |xs| == |ys| && Tip(first, xs) == Tip(first, ys)
    ensures xs == ys
  {
    if xs != [] {
      var n := |xs| - 1;
      SameDigestSameRow(hash, xs[n], ys[n]);
      ChainedPrefix(hash, first, xs, n);
      ChainedPrefix(hash, first, ys, n);
      LastDigestFixesRows(hash, first, xs[..n], ys[..n]);
      assert xs == xs[..n] + [xs[n]] && ys == ys[..n] + [ys[n]];
    }
  }

  /**
    Tamper evidence with contiguous numbering: the last digest of a verified ledger fixes
    every row of it.  No assumption about the starting value is needed, because the last
    row's own number fixes the length.
   */
  lemma LastDigestFixesLedger<B(!new)>(
      hash: Material<B> -> string, first: Option<string>, xs: seq<Link<B>>, ys: seq<Link<B>>)
    requires Injective(hash)
    requires Contiguous(hash, first, xs) && Contiguous(hash, first, ys)
    requires xs != [] && ys != []
    requires xs[|xs| - 1].digest == ys[|ys| - 1].digest
    ensures xs == ys
  {
    SameDigestSameRow(hash, xs[|xs| - 1], ys[|ys| - 1]);
    LastDigestFixesRows(hash, first, xs, ys);
  }

  /**
    Tamper evidence without contiguous numbering: here the starting value must be one the
    digest function never returns, otherwise a ledger could start in the middle of another.
   */
  lemma {:induction false} TipFixesChain<B(!new)>(
      hash: Material<B> -> string, zero: string, xs: seq<Link<B>>, ys: seq<Link<B>>)
    requires Injective(hash) && forall m :: hash(m) != zero
    requires Chained(hash, Some(zero), xs) && Chained(hash, Some(zero), ys)
    requires Tip(Some(zero), xs) == Tip(Some(zero), ys)
    ensures xs == ys
    decreases |xs|
  {
    if xs != [] && ys != [] {
      var n, m := |xs| - 1, |ys| - 1;
      SameDigestSameRow(hash, xs[n], ys[m]);
      ChainedPrefix(hash, Some(zero), xs, n);
      ChainedPrefix(hash, Some(zero), ys, m);
      TipFixesChain(hash, zero, xs[..n], ys[..m]);
      assert xs == xs[..n] + [xs[n]] && ys == ys[..m] + [ys[m]];
    } else {
      OnlyEmptyEndsInZero(hash, zero, xs);
      OnlyEmptyEndsInZero(hash, zero, ys);
    }
  }

  lemma OnlyEmptyEndsInZero<B(!new)>(hash: Material<B> -> string, zero: string, links: seq<Link<B>>)
    requires Chained(hash, Some(zero), links) && forall m :: hash(m) != zero
    ensures Tip(Some(zero), links) == Some(zero) ==> links == []
  {
    if links != [] {
      assert Sealed(hash, links[|links| - 1]);
    }
  }
}
