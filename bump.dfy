/**
 * Bump allocation inside one shared-memory pool: every grant starts where the
 * previous one ended, nothing is ever handed back, so the grants made so far
 * tile the used prefix of the pool exactly.
 */
module Bump {

  /** The byte range [offset, offset + len). */
  datatype Range = Range(offset: nat, len: nat)

  function End(r: Range): nat
  {
    r.offset + r.len
  }

  /** `rs` are consecutive ranges that together cover exactly [lo, hi). */
  ghost predicate Tiles(rs: seq<Range>, lo: nat, hi: nat)
    decreases |rs|
  {
    if rs == [] then lo == hi
    else rs[0].offset == lo && Tiles(rs[1..], End(rs[0]), hi)
  }

  function TotalLen(rs: seq<Range>): nat
  {
    if rs == [] then 0 else rs[0].len + TotalLen(rs[1..])
  }

  /** Granting `len` more bytes at the end of a tiled prefix keeps it tiled. */
  lemma {:induction false} TilesAppend(rs: seq<Range>, lo: nat, hi: nat, len: nat)
    requires Tiles(rs, lo, hi)
    ensures Tiles(rs + [Range(hi, len)], lo, hi + len)
  {
    if rs == [] {
      assert rs + [Range(hi, len)] == [Range(hi, len)];
      assert [Range(hi, len)][1..] == [];
    } else {
      TilesAppend(rs[1..], End(rs[0]), hi, len);
      assert (rs + [Range(hi, len)])[1..] == rs[1..] + [Range(hi, len)];
    }
  }

  /** The tiled bytes are exactly the sum of the grant lengths. */
  lemma {:induction false} TilesTotal(rs: seq<Range>, lo: nat, hi: nat)
    requires Tiles(rs, lo, hi)
    ensures lo <= hi && hi - lo == TotalLen(rs)
  {
    if rs != [] {
      TilesTotal(rs[1..], End(rs[0]), hi);
    }
  }

  /** Every grant lies inside [lo, hi), and each starts exactly where the one before it ends. */
  lemma {:induction false} TilesContiguous(rs: seq<Range>, lo: nat, hi: nat)
    requires Tiles(rs, lo, hi)
    ensures forall i :: 0 <= i < |rs| ==> lo <= rs[i].offset && End(rs[i]) <= hi
    ensures forall i :: 0 < i < |rs| ==> rs[i].offset == End(rs[i - 1])
  {
    if rs != [] {
      TilesContiguous(rs[1..], End(rs[0]), hi);
      TilesTotal(rs[1..], End(rs[0]), hi);
      forall i | 0 < i < |rs|
        ensures rs[i].offset == End(rs[i - 1])
      {
        if i > 1 {
          assert rs[i] == rs[1..][i - 1] && rs[i - 1] == rs[1..][i - 2];
        }
      }
    }
  }

  /** Grants from one pool never overlap: an earlier grant ends before a later one starts. */
  lemma {:induction false} TilesDisjoint(rs: seq<Range>, lo: nat, hi: nat)
    requires Tiles(rs, lo, hi)
    ensures forall i, j :: 0 <= i < j < |rs| ==> End(rs[i]) <= rs[j].offset
  {
    if rs != [] {
      TilesDisjoint(rs[1..], End(rs[0]), hi);
      TilesContiguous(rs[1..], End(rs[0]), hi);
      forall i, j | 0 <= i < j < |rs|
        ensures End(rs[i]) <= rs[j].offset
      {
        assert rs[j] == rs[1..][j - 1];
        if i > 0 {
          assert rs[i] == rs[1..][i - 1];
        }
      }
    }
  }
}
