/** The flat action space of the scheduling environment: one number for a job of the window, a placement
    and a sharing mode, and one more for doing nothing. */
module GymActions {
  import opened Arithmetic

  const MODE_PACK := 0
  const MODE_ISOLATE := 1

  datatype Shape = Shape(nNodes: nat, gpusPerNode: nat, topK: nat, nModes: nat)

  datatype Choice = Choice(job: nat, node: nat, gpu: nat, mode: nat)

  function Placements(sh: Shape): nat {
    sh.nNodes * sh.gpusPerNode
  }

  function NoOp(sh: Shape): nat {
    sh.topK * Placements(sh) * sh.nModes
  }

  function Encode(sh: Shape, job: nat, placement: nat, mode: nat): nat {
    (job * Placements(sh) + placement) * sh.nModes + mode
  }

  function Decode(sh: Shape, a: nat): Choice
    requires sh.nNodes > 0 && sh.gpusPerNode > 0 && sh.nModes > 0
  {
    var pj := a / sh.nModes;
    var rem := pj % Placements(sh);
    Choice(pj / Placements(sh), rem / sh.gpusPerNode, rem % sh.gpusPerNode, a % sh.nModes)
  }

  predicate InRange(sh: Shape, c: Choice) {
    c.job < sh.topK && c.node < sh.nNodes && c.gpu < sh.gpusPerNode && c.mode < sh.nModes
  }

  function Code(sh: Shape, c: Choice): nat {
    Encode(sh, c.job, c.node * sh.gpusPerNode + c.gpu, c.mode)
  }

  lemma Cell(n: nat, q: nat, r: nat, m: nat)
    requires q < m && r < n
    ensures q * n + r < m * n
  {
    assert (q + 1) * n <= m * n;
  }

  lemma PlaceInRange(sh: Shape, c: Choice)
    requires InRange(sh, c)
    ensures c.node * sh.gpusPerNode + c.gpu < Placements(sh)
  {
    Cell(sh.gpusPerNode, c.node, c.gpu, sh.nNodes);
  }

  /** Every choice has a code below the one for doing nothing, and decoding gives it back ... */
  lemma DecodeEncode(sh: Shape, c: Choice)
    requires InRange(sh, c)
    ensures Code(sh, c) < NoOp(sh) && Decode(sh, Code(sh, c)) == c
  {
    var p, place := Placements(sh), c.node * sh.gpusPerNode + c.gpu;
    PlaceInRange(sh, c);
    hide Placements;
    var pj := c.job * p + place;
    Cell(p, c.job, place, sh.topK);
    Cell(sh.nModes, pj, c.mode, sh.topK * p);
    ModUnique(pj * sh.nModes + c.mode, sh.nModes, pj, c.mode);
    ModUnique(pj, p, c.job, place);
    ModUnique(place, sh.gpusPerNode, c.node, c.gpu);
  }

  lemma Quotient(a: nat, n: nat, m: nat)
    requires n > 0 && a < m * n
    ensures a / n < m && a % n < n && (a / n) * n + a % n == a
  {
    var q := a / n;
    assert a == n * q + a % n;
    assert q >= m ==> n * q >= n * m;
  }

  /** ... and every code below that is the code of a choice. */
  lemma EncodeDecode(sh: Shape, a: nat)
    requires a < NoOp(sh)
    ensures sh.nNodes > 0 && sh.gpusPerNode > 0 && sh.nModes > 0 && sh.topK > 0
    ensures InRange(sh, Decode(sh, a)) && Code(sh, Decode(sh, a)) == a
  {
    var p := Placements(sh);
    assert sh.nModes > 0 && p > 0;
    assert sh.nNodes > 0 && sh.gpusPerNode > 0;
    Quotient(a, sh.nModes, sh.topK * p);
    var pj := a / sh.nModes;
    Quotient(pj, p, sh.topK);
    var rem := pj % p;
    Quotient(rem, sh.gpusPerNode, sh.nNodes);
  }
}
