/**
 The cluster index of an open file (kern/fs/fat32/filepnt.c): five tables reached
 directly, and 512 more through a third level.
 */
module FileIndex {
  import opened Panics

  const NDIRENT_SECPOINTER := 5
  const PAGE_NCLUSNO := 1024
  const THIRD_POINTERS := 512
  const MAX_INDEX := (NDIRENT_SECPOINTER + THIRD_POINTERS) * PAGE_NCLUSNO

  /** A page of cluster numbers; the empty sequence is a null pointer. */
  type Table = seq<nat>

  datatype Index = Index(second: seq<Table>, third: seq<Table>)

  predicate TableOk(t: Table) {
    t == [] || |t| == PAGE_NCLUSNO
  }

  ghost predicate Shape(ix: Index) {
    && |ix.second| == NDIRENT_SECPOINTER && (ix.third == [] || |ix.third| == THIRD_POINTERS)
    && (forall i {:trigger ix.second[i]} | 0 <= i < |ix.second| :: TableOk(ix.second[i]))
    && (forall i {:trigger ix.third[i]} | 0 <= i < |ix.third| :: TableOk(ix.third[i]))
  }

  function Blank(): (ix: Index)
    ensures Shape(ix) && forall i: nat | i < MAX_INDEX :: Entry(ix, i) == 0
  {
    Index(seq(NDIRENT_SECPOINTER, _ => []), [])
  }

  /** The number stored at i, 0 where a table is missing. */
  ghost function Entry(ix: Index, i: nat): nat {
    var t, k := i / PAGE_NCLUSNO, i % PAGE_NCLUSNO;
    if t < NDIRENT_SECPOINTER then
      if t < |ix.second| && k < |ix.second[t]| then ix.second[t][k] else 0
    else
      var t' := t - NDIRENT_SECPOINTER;
      if t' < |ix.third| && k < |ix.third[t']| then ix.third[t'][k] else 0
  }

  /** A table with one number set, made first where it is missing. */
  function Put(t: Table, k: nat, value: nat): (t': Table)
    requires TableOk(t) && k < PAGE_NCLUSNO
    ensures |t'| == PAGE_NCLUSNO && t'[k] == value
    ensures forall j | 0 <= j < PAGE_NCLUSNO && j != k :: t'[j] == if t == [] then 0 else t[j]
  {
    (if t == [] then seq(PAGE_NCLUSNO, _ => 0) else t)[k := value]
  }

  /** The index with the number at i set. */
  function WithEntry(ix: Index, i: nat, value: nat): Index
    requires Shape(ix) && i < MAX_INDEX
  {
    var t, k := i / PAGE_NCLUSNO, i % PAGE_NCLUSNO;
    if t >= NDIRENT_SECPOINTER then
      var third := if ix.third == [] then seq(THIRD_POINTERS, _ => []) else ix.third;
      var t' := t - NDIRENT_SECPOINTER;
      ix.(third := third[t' := Put(third[t'], k, value)])
    else
      ix.(second := ix.second[t := Put(ix.second[t], k, value)])
  }

  /** filepnt_setval, which has no bound of its own; Panic where it would write behind the third-level page. */
  function SetVal(ix: Index, i: nat, value: nat): (r: Res<Index>)
    requires Shape(ix)
    ensures r.Ok? <==> i < MAX_INDEX
  {
    var t := i / PAGE_NCLUSNO;
    if t >= NDIRENT_SECPOINTER && t - NDIRENT_SECPOINTER >= THIRD_POINTERS then Panic else Ok(WithEntry(ix, i, value))
  }

  /** filepnt_getclusbyno; Panic where one of its assertions fails. */
  function GetClus(ix: Index, i: nat): (r: Res<nat>)
    requires Shape(ix)
    ensures i < MAX_INDEX ==> r == if Entry(ix, i) == 0 then Panic else Ok(Entry(ix, i))
    ensures i >= MAX_INDEX ==> r == Panic
  {
    var t, k := i / PAGE_NCLUSNO, i % PAGE_NCLUSNO;
    var table :=
      if t < NDIRENT_SECPOINTER then ix.second[t]
      else if t - NDIRENT_SECPOINTER >= THIRD_POINTERS || ix.third == [] then []
      else ix.third[t - NDIRENT_SECPOINTER];
    if table == [] || table[k] == 0 then Panic else Ok(table[k])
  }

  lemma Divide(i: nat, j: nat)
    ensures i / PAGE_NCLUSNO == j / PAGE_NCLUSNO && i % PAGE_NCLUSNO == j % PAGE_NCLUSNO ==> i == j
  {
  }

  /** The index is a flat array of MAX_INDEX numbers, on both sides of the split between its levels. */
  lemma SetEntry(ix: Index, i: nat, value: nat, j: nat)
    requires Shape(ix) && i < MAX_INDEX && j < MAX_INDEX
    ensures Shape(WithEntry(ix, i, value))
    ensures Entry(WithEntry(ix, i, value), j) == if j == i then value else Entry(ix, j)
  {
    Divide(i, j);
  }

  /** The index agrees with a chain. */
  ghost predicate Agrees(ix: Index, chain: seq<nat>) {
    Shape(ix) && forall i: nat {:trigger Entry(ix, i)} | i < |chain| :: i < MAX_INDEX && Entry(ix, i) == chain[i]
  }

  /** Setting the number after the last keeps the agreement with the longer chain. */
  lemma AgreesLonger(ix: Index, chain: seq<nat>, c: nat)
    requires Agrees(ix, chain) && |chain| < MAX_INDEX
    ensures Agrees(WithEntry(ix, |chain|, c), chain + [c])
  {
    SetEntry(ix, |chain|, c, |chain|);
    forall i: nat | i < |chain| + 1
      ensures i < MAX_INDEX && Entry(WithEntry(ix, |chain|, c), i) == (chain + [c])[i]
    {
      if i < |chain| {
        assert Entry(ix, i) == chain[i];
        SetEntry(ix, |chain|, c, i);
      }
    }
  }
}
