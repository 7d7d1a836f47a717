/**
 Any sequence of file operations on any files (kern/fs/fat32/file.c): the volume
 with its chains, tables and cache does what a map from files to bytes does.
 */
module FileRuns {
  import opened Words
  import opened Buffers
  import opened Clusters
  import opened FatChains
  import opened FileIndex
  import opened FilePositions
  import opened FatFiles

  datatype FileOp =
    | Make(a: nat)
    | Open(a: nat)
    | Write(a: nat, off: nat, bytes: seq<Byte>)
    | Cut(a: nat)
    | Read(a: nat, off: nat, n: nat)

  /** The simple system: the bytes of each file, and the files opened so far. */
  datatype Plain = Plain(contents: map<nat, seq<Byte>>, ready: set<nat>)

  /** What the callers of file.c owe: the file exists or does not, is opened, and offset plus length does not wrap. */
  ghost predicate Allowed(p: Plain, op: FileOp) {
    match op
    case Make(a) => a !in p.contents
    case Open(a) => a in p.contents
    case Write(a, off, bytes) => a in p.ready && a in p.contents && off + |bytes| < WORD
    case Cut(a) => a in p.ready && a in p.contents
    case Read(a, off, n) => a in p.ready && a in p.contents && off + n < WORD
  }

  ghost function After(p: Plain, op: FileOp): Plain {
    match op
    case Make(a) => Plain(p.contents[a := []], p.ready + {a})
    case Open(a) => p.(ready := p.ready + {a})
    case Write(a, off, bytes) =>
      if a in p.contents then Plain(p.contents[a := WriteOf(p.contents[a], off, bytes)], p.ready + {a}) else p
    case Cut(a) => Plain(p.contents[a := []], p.ready + {a})
    case Read(_, _, _) => p
  }

  /** What the caller of the operation gets to see. */
  ghost function Answer(p: Plain, op: FileOp): seq<Byte> {
    if op.Read? && op.a in p.contents then ReadOf(p.contents[op.a], op.off, op.n) else []
  }

  ghost predicate AllAllowed(p: Plain, ops: seq<FileOp>)
    decreases |ops|
  {
    ops != [] ==> Allowed(p, ops[0]) && AllAllowed(After(p, ops[0]), ops[1..])
  }

  ghost function Final(p: Plain, ops: seq<FileOp>): Plain
    decreases |ops|
  {
    if ops == [] then p else Final(After(p, ops[0]), ops[1..])
  }

  ghost function Answers(p: Plain, ops: seq<FileOp>): seq<seq<Byte>>
    decreases |ops|
  {
    if ops == [] then [] else [Answer(p, ops[0])] + Answers(After(p, ops[0]), ops[1..])
  }

  /** The volume reads as p. */
  ghost predicate Shows(v: Vol, ds: Dirents, chains: Chains, p: Plain) {
    && p.contents.Keys == ds.Keys == chains.Keys && p.ready <= p.contents.Keys
    && (forall a {:trigger p.contents[a]} | a in p.contents :: Content(v, ds[a], chains[a]) == p.contents[a])
    && (forall a {:trigger a in p.ready} | a in p.ready :: Agrees(ds[a].index, chains[a]))
  }

  lemma Shown(sb: Super, v: Vol, ds: Dirents, chains: Chains, other: set<nat>, p: Plain, a: nat)
    requires FsOk(sb, v, ds, chains, other) && Shows(v, ds, chains, p) && a in p.contents
    ensures a in ds && a in chains && Content(v, ds[a], chains[a]) == p.contents[a]
    ensures |p.contents[a]| == ds[a].size && ClusSize(sb) > 0 && |chains[a]| == ClusCount(sb, ds[a].size)
    ensures a in p.ready ==> Agrees(ds[a].index, chains[a])
  {
    hide FsOk, Raw;
    FileFacts(sb, v, ds, chains, other, a);
  }

  /** A change of file a alone: the volume reads as p with other bytes in a. */
  lemma Changed(v0: Vol, ds0: Dirents, chains0: Chains, p: Plain, a: nat, v: Vol, ds: Dirents, chains: Chains, p': Plain)
    requires Shows(v0, ds0, chains0, p) && a in p.contents && OthersKept(v0, ds0, chains0, v, ds, chains, a)
    requires p'.ready == p.ready + {a} && p'.contents.Keys == p.contents.Keys
    requires forall b {:trigger p'.contents[b]} | b in p.contents && b != a :: p'.contents[b] == p.contents[b]
    requires Agrees(ds[a].index, chains[a]) && Content(v, ds[a], chains[a]) == p'.contents[a]
    ensures Shows(v, ds, chains, p')
  {
    hide Content, Agrees;
    forall b | b in p'.contents ensures Content(v, ds[b], chains[b]) == p'.contents[b] {
      if b != a { assert ds[b] == ds0[b] && p.contents[b] == p'.contents[b]; }
    }
    forall b | b in p'.ready ensures Agrees(ds[b].index, chains[b]) {
      if b != a { assert b in p.ready && ds[b] == ds0[b]; }
    }
  }

  lemma Made(v: Vol, ds: Dirents, chains: Chains, p: Plain, a: nat, d: Dirent)
    requires Shows(v, ds, chains, p) && a !in p.contents && Agrees(d.index, []) && Content(v, d, []) == []
    ensures Shows(v, ds[a := d], chains[a := []], Plain(p.contents[a := []], p.ready + {a}))
  {
    hide Content, Agrees;
  }

  /**
   Exactly when the kernel gets through an operation: a file fits its index, a read
   does not touch the last cluster below 2^32, a write neither, and it finds clusters.
   */
  ghost predicate Works(sb: Super, v: Vol, ds: Dirents, chains: Chains, op: FileOp)
    requires ClusSize(sb) > 0
  {
    op.Make? ||
    (op.a in ds && op.a in chains &&
     match op
     case Open(a) => |chains[a]| <= MAX_INDEX
     case Write(a, off, bytes) => WriteWorks(sb, v, ds[a].size, chains[a], off, |bytes|)
     case Read(a, off, n) => ReadWorks(sb, ds[a].size, off, n)
     case _ => true)
  }

  /** One operation. */
  method Perform(t: FileTable, op: FileOp, ghost p: Plain) returns (ok: bool, out: seq<Byte>)
    requires t.Valid() && Shows(t.vol.V(), t.files, t.chains, p) && ClusSize(t.vol.sb) > 0 && Allowed(p, op)
    modifies t, t.vol.cache
    ensures ok <==> Works(t.vol.sb, old(t.vol.V()), old(t.files), old(t.chains), op)
    ensures ok ==> t.Valid() && Shows(t.vol.V(), t.files, t.chains, After(p, op)) && out == Answer(p, op)
  {
    hide FatVolume.Valid, FsOk, DiskView, VolOf, Agrees, Content, ClusCount, ClusSize, ReadOf, WriteOf, WriteWorks, ReadWorks, Freed;
    ok, out := true, [];
    if op.a in p.contents { Shown(t.vol.sb, t.vol.V(), t.files, t.chains, t.other, p, op.a); }
    match op {
      case Make(a) =>
        t.Create(a);
        Made(old(t.vol.V()), old(t.files), old(t.chains), p, a, t.files[a]);
      case Open(a) =>
        ok := t.Open(a);
        if ok { Changed(old(t.vol.V()), old(t.files), old(t.chains), p, a, t.vol.V(), t.files, t.chains, After(p, op)); }
      case Write(a, off, bytes) =>
        ok := t.FileWrite(a, off, bytes);
        if ok { Changed(old(t.vol.V()), old(t.files), old(t.chains), p, a, t.vol.V(), t.files, t.chains, After(p, op)); }
      case Cut(a) =>
        t.Truncate(a);
        Changed(old(t.vol.V()), old(t.files), old(t.chains), p, a, t.vol.V(), t.files, t.chains, After(p, op));
      case Read(a, off, n) =>
        var count;
        ok, count, out := t.FileRead(a, off, n);
    }
  }

  /**
   Any operations on any files: what the reads return and what every file holds
   in the end is what the map of plain bytes says.  A run stops early exactly at
   an operation the kernel does not get through, on a volume that still reads as
   the map does.
   */
  method PerformAll(t: FileTable, ops: seq<FileOp>, ghost p: Plain)
    returns (ok: bool, outs: seq<seq<Byte>>, ghost v: Vol, ghost ds: Dirents, ghost chains: Chains)
    requires t.Valid() && Shows(t.vol.V(), t.files, t.chains, p) && ClusSize(t.vol.sb) > 0 && AllAllowed(p, ops)
    modifies t, t.vol.cache
    ensures ok ==> t.Valid() && Shows(t.vol.V(), t.files, t.chains, Final(p, ops)) && outs == Answers(p, ops)
    ensures !ok ==> |outs| < |ops| && outs <= Answers(p, ops)
    ensures !ok ==> Shows(v, ds, chains, Final(p, ops[..|outs|])) && !Works(t.vol.sb, v, ds, chains, ops[|outs|])
  {
    hide FileTable.Valid, Shows, Allowed, AllAllowed, Answer, Answers, After, Final, ClusSize, Works;
    outs, v, ds, chains := [], t.vol.V(), t.files, t.chains;
    ghost var q := p;
    RunStart(p, ops);
    while |outs| < |ops|
      invariant |outs| <= |ops| && t.Valid() && Shows(t.vol.V(), t.files, t.chains, q) && q == Final(p, ops[..|outs|])
      invariant AllAllowed(q, ops[|outs|..]) && Answers(p, ops) == outs + Answers(q, ops[|outs|..])
    {
      RunStep(p, q, ops, |outs|);
      v, ds, chains := t.vol.V(), t.files, t.chains;
      var out;
      ok, out := Perform(t, ops[|outs|], q);
      if !ok { return; }
      q := After(q, ops[|outs|]);
      outs := outs + [out];
    }
    RunEnd(p, q, ops, outs);
    ok := true;
  }

  lemma RunStart(p: Plain, ops: seq<FileOp>)
    ensures p == Final(p, ops[..0]) && ops[0..] == ops && Answers(p, ops) == [] + Answers(p, ops[0..])
  {
  }

  lemma RunStep(p: Plain, q: Plain, ops: seq<FileOp>, k: nat)
    requires k < |ops| && q == Final(p, ops[..k]) && AllAllowed(q, ops[k..])
    ensures Allowed(q, ops[k]) && AllAllowed(After(q, ops[k]), ops[k + 1..]) && After(q, ops[k]) == Final(p, ops[..k + 1])
    ensures Answers(q, ops[k..]) == [Answer(q, ops[k])] + Answers(After(q, ops[k]), ops[k + 1..])
  {
    hide After, Answer, Allowed;
    assert ops[k..][0] == ops[k] && ops[k..][1..] == ops[k + 1..];
    assert ops[..k + 1] == ops[..k] + [ops[k]];
    FinalJoin(p, ops[..k], [ops[k]]);
  }

  lemma RunEnd(p: Plain, q: Plain, ops: seq<FileOp>, outs: seq<seq<Byte>>)
    requires q == Final(p, ops[..|ops|]) && Answers(p, ops) == outs + Answers(q, ops[|ops|..])
    ensures q == Final(p, ops) && Answers(p, ops) == outs
  {
    assert ops[..|ops|] == ops;
  }

  // ---- the files of the map are apart -----------------------------------------------------------

  /** The operations that name file a. */
  ghost function OpsOn(ops: seq<FileOp>, a: nat): seq<FileOp>
    decreases |ops|
  {
    if ops == [] then [] else (if ops[0].a == a then [ops[0]] else []) + OpsOn(ops[1..], a)
  }

  ghost predicate AgreeOn(p: Plain, q: Plain, a: nat) {
    (a in p.contents <==> a in q.contents) && (a in p.contents ==> p.contents[a] == q.contents[a])
  }

  /** What a file holds after a run depends on the operations on that file alone. */
  lemma {:induction false} FilesApart(p: Plain, q: Plain, ops: seq<FileOp>, a: nat)
    requires AgreeOn(p, q, a)
    ensures AgreeOn(Final(p, ops), Final(q, OpsOn(ops, a)), a)
    decreases |ops|
  {
    hide WriteOf;
    if ops != [] {
      var own := OpsOn(ops[1..], a);
      if ops[0].a == a {
        assert ([ops[0]] + own)[1..] == own;
        FilesApart(After(p, ops[0]), After(q, ops[0]), ops[1..], a);
      } else {
        assert [] + own == own;
        FilesApart(After(p, ops[0]), q, ops[1..], a);
      }
    }
  }

  /** A read returns what it would return had only the operations on its own file been made before it. */
  lemma {:induction false} ReadsApart(p: Plain, ops: seq<FileOp>, k: nat)
    requires k < |ops| && ops[k].Read?
    ensures |Answers(p, ops)| == |ops|
    ensures Answers(p, ops)[k] == Answer(Final(p, OpsOn(ops[..k], ops[k].a)), ops[k])
  {
    hide After, WriteOf, ReadOf;
    AnswerAt(p, ops, k);
    FilesApart(p, p, ops[..k], ops[k].a);
  }

  lemma {:induction false} AnswerAt(p: Plain, ops: seq<FileOp>, k: nat)
    requires k < |ops|
    ensures |Answers(p, ops)| == |ops| && Answers(p, ops)[k] == Answer(Final(p, ops[..k]), ops[k])
    decreases |ops|
  {
    hide After, Answer;
    var q := After(p, ops[0]);
    if k == 0 {
      if |ops| > 1 { AnswerAt(q, ops[1..], 0); }
    } else {
      AnswerAt(q, ops[1..], k - 1);
      assert ops[..k][1..] == ops[1..][..k - 1];
    }
  }

  /** What was written is read back, whatever was done to other files in between. */
  lemma WrittenIsRead(p: Plain, before: seq<FileOp>, a: nat, off: nat, bytes: seq<Byte>, between: seq<FileOp>)
    requires bytes != [] && a in Final(p, before).contents && OpsOn(between, a) == []
    ensures var ops := before + [Write(a, off, bytes)] + between + [Read(a, off, |bytes|)];
            |Answers(p, ops)| == |ops| && Answers(p, ops)[|ops| - 1] == bytes
  {
    hide After, WriteOf, ReadOf;
    var write := Write(a, off, bytes);
    var ops := before + [write] + between + [Read(a, off, |bytes|)];
    var k := |ops| - 1;
    AnswerAt(p, ops, k);
    assert ops[..k] == before + ([write] + between);
    FinalJoin(p, before, [write] + between);
    var q := Final(p, before);
    assert ([write] + between)[1..] == between;
    FilesApart(After(q, write), After(q, write), between, a);
    Written(q, a, off, bytes);
  }

  lemma Written(p: Plain, a: nat, off: nat, bytes: seq<Byte>)
    requires a in p.contents && bytes != []
    ensures a in After(p, Write(a, off, bytes)).contents
    ensures ReadOf(After(p, Write(a, off, bytes)).contents[a], off, |bytes|) == bytes
  {
    WriteThenRead(p.contents[a], off, bytes);
  }

  lemma {:induction false} FinalJoin(p: Plain, one: seq<FileOp>, two: seq<FileOp>)
    ensures Final(p, one + two) == Final(Final(p, one), two)
    decreases |one|
  {
    hide After;
    if one == [] {
      assert one + two == two;
    } else {
      FinalJoin(After(p, one[0]), one[1..], two);
      assert (one + two)[1..] == one[1..] + two;
    }
  }
}
