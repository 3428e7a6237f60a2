// The digests that the theorems assume exist: VIEW-CHANGEs can be told apart by an integer.
module Codes {
  import opened Types

  function Pair(a: nat, b: nat): nat {
    (a + b) * (a + b) + a
  }

  lemma SquareGrows(m: nat, n: nat)
    requires m <= n
    ensures m * m <= n * n
  {
    assert m * m <= m * n <= n * n;
  }

  lemma PairGrows(a: nat, b: nat, c: nat, d: nat)
    requires a + b < c + d
    ensures Pair(a, b) < Pair(c, d)
  {
    var s := a + b;
    SquareGrows(s + 1, c + d);
    assert (s + 1) * (s + 1) == s * s + 2 * s + 1;
  }

  lemma PairsApart(a: nat, b: nat, c: nat, d: nat)
    ensures Pair(a, b) == Pair(c, d) ==> a == c && b == d
  {
    if a + b < c + d {
      PairGrows(a, b, c, d);
    } else if c + d < a + b {
      PairGrows(c, d, a, b);
    }
  }

  function OfInt(i: int): nat {
    if i >= 0 then 2 * i else -2 * i - 1
  }

  function OfDigest(d: Digest): nat {
    match d
    case Null => 0
    case Req(id) => 1 + OfInt(id)
  }

  function OfBlock(b: Block): nat {
    match b
    case Unbound => 0
    case Blk(id) => 1 + OfInt(id)
  }

  function OfP(p: seq<PEntry>): nat {
    if p == [] then 0 else 1 + Pair(Pair(p[0].n, Pair(OfDigest(p[0].d), p[0].v)), OfP(p[1..]))
  }

  function OfQ(q: seq<QEntry>): nat {
    if q == [] then 0
    else 1 + Pair(Pair(q[0].n, Pair(OfDigest(q[0].d), Pair(OfBlock(q[0].b), q[0].v))), OfQ(q[1..]))
  }

  function OfViewChange(vc: ViewChange): int {
    Pair(vc.v, Pair(vc.hi, Pair(OfInt(vc.c), Pair(OfP(vc.p), Pair(OfQ(vc.q), vc.sender)))))
  }

  lemma {:induction false} PApart(p: seq<PEntry>, p': seq<PEntry>)
    requires OfP(p) == OfP(p')
    ensures p == p'
  {
    if p != [] {
      var e, e' := p[0], p'[0];
      PairsApart(Pair(e.n, Pair(OfDigest(e.d), e.v)), OfP(p[1..]), Pair(e'.n, Pair(OfDigest(e'.d), e'.v)), OfP(p'[1..]));
      PairsApart(e.n, Pair(OfDigest(e.d), e.v), e'.n, Pair(OfDigest(e'.d), e'.v));
      PairsApart(OfDigest(e.d), e.v, OfDigest(e'.d), e'.v);
      PApart(p[1..], p'[1..]);
      assert p == [e] + p[1..] && p' == [e'] + p'[1..];
    }
  }

  lemma QEntryApart(e: QEntry, e': QEntry)
    requires Pair(e.n, Pair(OfDigest(e.d), Pair(OfBlock(e.b), e.v))) == Pair(e'.n, Pair(OfDigest(e'.d), Pair(OfBlock(e'.b), e'.v)))
    ensures e == e'
  {
    hide Pair;
    var x, x' := Pair(OfBlock(e.b), e.v), Pair(OfBlock(e'.b), e'.v);
    PairsApart(e.n, Pair(OfDigest(e.d), x), e'.n, Pair(OfDigest(e'.d), x'));
    PairsApart(OfDigest(e.d), x, OfDigest(e'.d), x');
    PairsApart(OfBlock(e.b), e.v, OfBlock(e'.b), e'.v);
  }

  lemma {:induction false} QApart(q: seq<QEntry>, q': seq<QEntry>)
    requires OfQ(q) == OfQ(q')
    ensures q == q'
  {
    hide Pair;
    if q != [] {
      var e, e' := q[0], q'[0];
      PairsApart(Pair(e.n, Pair(OfDigest(e.d), Pair(OfBlock(e.b), e.v))), OfQ(q[1..]),
                 Pair(e'.n, Pair(OfDigest(e'.d), Pair(OfBlock(e'.b), e'.v))), OfQ(q'[1..]));
      QEntryApart(e, e');
      QApart(q[1..], q'[1..]);
      assert q == [e] + q[1..] && q' == [e'] + q'[1..];
    }
  }

  lemma ViewChangesApart(a: ViewChange, b: ViewChange)
    requires OfViewChange(a) == OfViewChange(b)
    ensures a == b
  {
    hide Pair;
    var q, q' := Pair(OfQ(a.q), a.sender), Pair(OfQ(b.q), b.sender);
    var p, p' := Pair(OfP(a.p), q), Pair(OfP(b.p), q');
    var c, c' := Pair(OfInt(a.c), p), Pair(OfInt(b.c), p');
    PairsApart(a.v, Pair(a.hi, c), b.v, Pair(b.hi, c'));
    PairsApart(a.hi, c, b.hi, c');
    PairsApart(OfInt(a.c), p, OfInt(b.c), p');
    PairsApart(OfP(a.p), q, OfP(b.p), q');
    PairsApart(OfQ(a.q), a.sender, OfQ(b.q), b.sender);
    PApart(a.p, b.p);
    QApart(a.q, b.q);
  }

  // There is a configuration of every size 3F + 1 and every positive block time.
  lemma ConfigExists(size: nat, blockTime: real) returns (cfg: Config)
    requires size % 3 == 1 && blockTime > 0.0
    ensures ValidConfig(cfg) && cfg.size == size && cfg.blockTime == blockTime
  {
    cfg := Config(size, blockTime, OfViewChange);
    forall a, b | cfg.digest(a) == cfg.digest(b) ensures a == b {
      ViewChangesApart(a, b);
    }
  }
}
