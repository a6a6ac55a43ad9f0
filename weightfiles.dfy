/** Weight files. A layer writes its cubes as a sequence of `arma_binary`
    records, weight cube n followed by bias cube n for every n, and reads
    them back in the same order. The streams are abstract: an input stream
    is the list of records after its read position, some of which Armadillo
    may fail to parse; an output stream accepts a limited number of further
    writes. */
module WeightFiles {
  import opened Cubes

  /** One record of a weight file: a cube, or bytes that do not load. */
  datatype Record = Stored(cube: Cube<real>) | Unreadable

  /** An `ifstream`: whether it is open, and the records still to be read. */
  datatype InStream = InStream(isOpen: bool, records: seq<Record>)

  /** An `ofstream`: whether it is open, the cubes written so far, and how
      many more writes succeed. */
  datatype OutStream = OutStream(isOpen: bool, written: seq<Cube<real>>, room: nat)

  /** The cube a failed `Cube::load` leaves behind: Armadillo resets the
      object to have no elements. */
  function Emptied(): (x: Cube<real>)
    ensures x.Valid() && x.Shape() == (0, 0, 0)
  {
    Zeros(0, 0, 0)
  }

  /** How many of the first `limit` records load: the loop stops at the
      first record that does not. */
  function Readable(records: seq<Record>, limit: nat): (k: nat)
    ensures k <= limit && k <= |records|
    ensures forall i :: 0 <= i < k ==> records[i].Stored?
    ensures k < limit ==> k == |records| || !records[k].Stored?
  {
    if limit == 0 || records == [] || !records[0].Stored? then 0
    else 1 + Readable(records[1..], limit - 1)
  }

  /** The records a save writes: weight cube n, then bias cube n, for every
      n below `count`. */
  function Interleaved(w: seq<Cube<real>>, b: seq<Cube<real>>, count: nat): (s: seq<Cube<real>>)
    requires count <= |w| && count <= |b|
    ensures |s| == 2 * count
    ensures forall n :: 0 <= n < count ==> s[2 * n] == w[n] && s[2 * n + 1] == b[n]
  {
    if count == 0 then [] else Interleaved(w, b, count - 1) + [w[count - 1], b[count - 1]]
  }

  /** The cubes as records of a file. */
  function AsRecords(cubes: seq<Cube<real>>): (records: seq<Record>)
    ensures |records| == |cubes|
    ensures forall i :: 0 <= i < |cubes| ==> records[i] == Stored(cubes[i])
  {
    seq(|cubes|, i requires 0 <= i < |cubes| => Stored(cubes[i]))
  }

  /** The cube record i holds; only records before the read position, all
      of which loaded, are consulted. */
  function Loaded(records: seq<Record>, i: nat): (c: Cube<real>)
    ensures i < |records| && records[i].Stored? ==> c == records[i].cube
  {
    if i < |records| && records[i].Stored? then records[i].cube else Emptied()
  }

  /** The weight (parity 0) or bias (parity 1) cubes after a load of
      `count` pairs that read the first k records: cube n took record
      2n + parity when that record was read, the cube whose read failed is
      emptied, and the cubes the loop did not reach keep their values. */
  function AfterLoad(prior: seq<Cube<real>>, records: seq<Record>, k: nat, count: nat, parity: nat): (cubes: seq<Cube<real>>)
    ensures |cubes| == |prior|
  {
    seq(|prior|, n requires 0 <= n < |prior| =>
      if n < count && 2 * n + parity < k then Loaded(records, 2 * n + parity)
      else if n < count && 2 * n + parity == k then Emptied()
      else prior[n])
  }

  /** A load of `count` pairs leaves the cubes from `count` on as they
      were, whatever it read. */
  lemma AfterLoadKeepsRest(prior: seq<Cube<real>>, records: seq<Record>, k: nat, count: nat, parity: nat)
    ensures forall n :: count <= n < |prior| ==> AfterLoad(prior, records, k, count, parity)[n] == prior[n]
  {
  }

  /** The cubes after `InitWeights`: each of the first `count` is 0.1 times
      its normally distributed draw, the rest are untouched. */
  function Drawn(prior: seq<Cube<real>>, draws: seq<Cube<real>>, count: nat): (cubes: seq<Cube<real>>)
    requires count <= |draws| && forall n :: 0 <= n < count ==> draws[n].Valid()
    ensures |cubes| == |prior|
    ensures forall n :: 0 <= n < |prior| ==> cubes[n] == if n < count then Scale(0.1, draws[n]) else prior[n]
  {
    seq(|prior|, n requires 0 <= n < |prior| => if n < count then Scale(0.1, draws[n]) else prior[n])
  }

  // ---------------------------------------------------------------------
  // One step of the load and initialisation loops

  /** Before the first read nothing has changed. */
  lemma AfterLoadStart(prior: seq<Cube<real>>, records: seq<Record>, parity: nat)
    ensures AfterLoad(prior, records, 0, 0, parity) == prior
  {
  }

  /** Reading record k = 2n + parity into cube n advances both the read
      position and the number of cubes loaded. */
  lemma AfterLoadRead(prior: seq<Cube<real>>, records: seq<Record>, k: nat, n: nat, parity: nat)
    requires k < |records| && records[k].Stored?
    requires k == 2 * n + parity && n < |prior|
    ensures AfterLoad(prior, records, k, n, parity)[n := records[k].cube] == AfterLoad(prior, records, k + 1, n + 1, parity)
  {
  }

  /** Reading a record of the other parity leaves these cubes alone. */
  lemma AfterLoadPass(prior: seq<Cube<real>>, records: seq<Record>, k: nat, count: nat, parity: nat)
    requires 2 * count + parity <= k + 1
    ensures AfterLoad(prior, records, k, count, parity) == AfterLoad(prior, records, k + 1, count, parity)
  {
  }

  /** A failed read of record k = 2n + parity empties cube n and ends the
      load: the cubes past n keep their values. */
  lemma AfterLoadFail(prior: seq<Cube<real>>, records: seq<Record>, k: nat, n: nat, count: nat, parity: nat)
    requires k == 2 * n + parity && n < count && n < |prior|
    ensures AfterLoad(prior, records, k, n, parity)[n := Emptied()] == AfterLoad(prior, records, k, count, parity)
  {
  }

  /** When the load ends before reaching cube n of this parity, the cubes
      from n on keep their values. */
  lemma AfterLoadExtend(prior: seq<Cube<real>>, records: seq<Record>, k: nat, n: nat, count: nat, parity: nat)
    requires 2 * n + parity == k + 1 && n <= count
    ensures AfterLoad(prior, records, k, n, parity) == AfterLoad(prior, records, k, count, parity)
  {
  }

  /** The loop stops at record k when the records before it load and it
      does not. */
  lemma ReadableStops(records: seq<Record>, k: nat, limit: nat)
    requires k < limit && k <= |records| && forall i :: 0 <= i < k ==> records[i].Stored?
    requires k == |records| || !records[k].Stored?
    ensures Readable(records, limit) == k
  {
  }

  /** The loop runs to its limit when every record up to it loads. */
  lemma ReadableAll(records: seq<Record>, limit: nat)
    requires limit <= |records| && forall i :: 0 <= i < limit ==> records[i].Stored?
    ensures Readable(records, limit) == limit
  {
  }

  // ---------------------------------------------------------------------
  // Round trip

  /** A file holding the interleaved cubes of a save loads completely. */
  lemma {:induction false} SavedRecordsReadable(cubes: seq<Cube<real>>, rest: seq<Record>)
    ensures Readable(AsRecords(cubes) + rest, |cubes|) == |cubes|
  {
    if cubes != [] {
      var records := AsRecords(cubes) + rest;
      assert records[1..] == AsRecords(cubes[1..]) + rest;
      SavedRecordsReadable(cubes[1..], rest);
    }
  }

  /** Loading what a save wrote reproduces every weight and bias cube of
      the saved layer, whatever the cubes held before and whatever follows
      in the file. */
  lemma SaveLoadRoundTrip(w: seq<Cube<real>>, b: seq<Cube<real>>, count: nat, rest: seq<Record>,
                          priorW: seq<Cube<real>>, priorB: seq<Cube<real>>)
    requires count <= |w| && count <= |b| && count <= |priorW| && count <= |priorB|
    ensures Readable(AsRecords(Interleaved(w, b, count)) + rest, 2 * count) == 2 * count
    ensures AfterLoad(priorW, AsRecords(Interleaved(w, b, count)) + rest, 2 * count, count, 0)[..count] == w[..count]
    ensures AfterLoad(priorB, AsRecords(Interleaved(w, b, count)) + rest, 2 * count, count, 1)[..count] == b[..count]
  {
    var cubes := Interleaved(w, b, count);
    var records := AsRecords(cubes) + rest;
    SavedRecordsReadable(cubes, rest);
    var lw := AfterLoad(priorW, records, 2 * count, count, 0);
    var lb := AfterLoad(priorB, records, 2 * count, count, 1);
    forall n | 0 <= n < count ensures lw[n] == w[n] && lb[n] == b[n] {
      assert records[2 * n] == Stored(cubes[2 * n]);
      assert records[2 * n + 1] == Stored(cubes[2 * n + 1]);
    }
  }

  /** A load that stops early leaves every cube past the failure as it
      was, and a load over a file with no readable record changes only the
      first weight cube, which it empties. */
  lemma LoadFailsFirst(prior: seq<Cube<real>>, priorB: seq<Cube<real>>, records: seq<Record>, count: nat)
    requires count > 0 && |prior| >= count && |priorB| >= count
    requires records == [] || !records[0].Stored?
    ensures Readable(records, 2 * count) == 0
    ensures AfterLoad(prior, records, 0, count, 0) == prior[0 := Emptied()]
    ensures AfterLoad(priorB, records, 0, count, 1) == priorB
  {
  }
}
