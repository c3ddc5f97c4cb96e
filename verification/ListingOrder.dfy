/** Why a scan that appends to the list it walks must end: replacing one path length by
    any finite number of greater ones, all below the limit, cannot go on for ever. */
module ListingOrder {

  const MAX_PATH: nat := 260

  ghost predicate Above(l: nat, added: multiset<nat>) {
    forall y :: y in added ==> l < y < MAX_PATH
  }

  ghost predicate Bounded(m: multiset<nat>) {
    forall y :: y in m ==> y < MAX_PATH
  }

  /** What is pending after a directory with a path of length `l` has been listed. */
  ghost function Listed(m: multiset<nat>, l: nat, added: multiset<nat>): multiset<nat> {
    m - multiset{l} + added
  }

  /** Every way of going on from `m` ends. */
  least predicate Ends(m: multiset<nat>) {
    forall l: nat, added: multiset<nat> :: l in m && Above(l, added) ==> Ends(Listed(m, l, added))
  }

  /** Listing a directory lowers the rank of what is pending, whatever the server answers. */
  lemma Descend(k: ORDINAL, m: multiset<nat>, l: nat, added: multiset<nat>) returns (j: ORDINAL)
    requires Ends#[k](m) && l in m && Above(l, added)
    ensures j < k && Ends#[j](Listed(m, l, added))
  {
    if k.Offset == 0 {
      var i: ORDINAL :| i < k && Ends#[i](m);
      j := Descend(i, m, l, added);
    } else {
      j := k - 1;
    }
  }

  lemma ListedBeside(m: multiset<nat>, l: nat, x: nat, added: multiset<nat>)
    requires x in m
    ensures Listed(m + multiset{l}, x, added) == Listed(m, x, added) + multiset{l}
  {
  }

  lemma ListedItself(m: multiset<nat>, l: nat, added: multiset<nat>)
    ensures Listed(m + multiset{l}, l, added) == m + added
  {
  }

  lemma EndsWhenAllEnd(m: multiset<nat>)
    requires forall l: nat, added: multiset<nat> :: l in m && Above(l, added) ==> Ends(Listed(m, l, added))
    ensures Ends(m)
  {
  }

  lemma AddOne(k: ORDINAL, l: nat, m: multiset<nat>)
    requires Ends#[k](m) && l < MAX_PATH
    ensures Ends(m + multiset{l})
    decreases MAX_PATH - l, 1, k, 1
  {
    forall x: nat, added: multiset<nat> | x in m + multiset{l} && Above(x, added)
      ensures Ends(Listed(m + multiset{l}, x, added))
    {
      ListOneMore(k, l, m, x, added);
    }
    EndsWhenAllEnd(m + multiset{l});
  }

  /** One listing after `l` has been added: of something else, or of `l` itself. */
  lemma ListOneMore(k: ORDINAL, l: nat, m: multiset<nat>, x: nat, added: multiset<nat>)
    requires Ends#[k](m) && l < MAX_PATH && x in m + multiset{l} && Above(x, added)
    ensures Ends(Listed(m + multiset{l}, x, added))
    decreases MAX_PATH - l, 1, k, 0
  {
    if x in m {
      var j := Descend(k, m, x, added);
      ListedBeside(m, l, x, added);
      AddOne(j, l, Listed(m, x, added));
    } else {
      ListedItself(m, l, added);
      AddMany(added, l, m);
    }
  }

  lemma AddMany(added: multiset<nat>, l: nat, m: multiset<nat>)
    requires Ends(m) && l < MAX_PATH && Above(l, added)
    ensures Ends(m + added)
    decreases MAX_PATH - l, 0, |added|
  {
    if added == multiset{} {
      assert m + added == m;
    } else {
      var y :| y in added;
      AddMany(added - multiset{y}, l, m);
      var k: ORDINAL :| Ends#[k](m + (added - multiset{y}));
      AddOne(k, y, m + (added - multiset{y}));
      assert m + (added - multiset{y}) + multiset{y} == m + added;
    }
  }

  lemma {:induction false} AlwaysEnds(m: multiset<nat>)
    requires Bounded(m)
    ensures Ends(m)
    decreases |m|
  {
    if m != multiset{} {
      var y :| y in m;
      AlwaysEnds(m - multiset{y});
      var k: ORDINAL :| Ends#[k](m - multiset{y});
      AddOne(k, y, m - multiset{y});
      assert m - multiset{y} + multiset{y} == m;
    }
  }

  // ---------- the rank of what is pending ----------

  ghost predicate IsRank(k: ORDINAL, m: multiset<nat>) {
    Ends#[k](m) && forall j: ORDINAL :: j < k ==> !Ends#[j](m)
  }

  lemma {:induction false} HasRank(k: ORDINAL, m: multiset<nat>)
    requires Ends#[k](m)
    ensures exists j :: IsRank(j, m)
  {
    if i: ORDINAL :| i < k && Ends#[i](m) {
      HasRank(i, m);
    } else {
      assert IsRank(k, m);
    }
  }

  ghost function Rank(m: multiset<nat>): ORDINAL {
    if k: ORDINAL :| IsRank(k, m) then k else 0
  }

  lemma RankIsLeast(k: ORDINAL, m: multiset<nat>)
    requires Ends#[k](m)
    ensures Ends#[Rank(m)](m) && Rank(m) <= k
  {
    HasRank(k, m);
  }

  /** The measure of the scan: every listing lowers it, whatever the server answers. */
  lemma ListingLowersRank(m: multiset<nat>, l: nat, added: multiset<nat>)
    requires Bounded(m) && l in m && Above(l, added)
    ensures Rank(Listed(m, l, added)) < Rank(m)
  {
    AlwaysEnds(m);
    var k: ORDINAL :| Ends#[k](m);
    RankIsLeast(k, m);
    var rank := Rank(m);
    var j := Descend(rank, m, l, added);
    RankIsLeast(j, Listed(m, l, added));
  }
}
