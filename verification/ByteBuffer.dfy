/**
 The growable byte buffer behind every connection (src/bytebuffer.h).

 `Buf` is the state of a buffer as a value: the vector, the two cursors, and a meter of the bytes that
 resizing has copied.  `ByteBuffer` is the object itself, over a real array; each of its methods is tied
 to the corresponding function on `Buf`, and the laws are proved about those functions.
 */
module ByteBuffers {

  newtype byte = b: int | 0 <= b < 256

  const INITIAL_CAPACITY: nat := 8 * 1024

  function Zeros(n: nat): (z: seq<byte>)
  {
    seq(n, _ => 0)
  }

  datatype Buf = Buf(storage: seq<byte>, rpos: nat, wpos: nat, copied: nat) {

    ghost predicate Valid() {
      rpos <= wpos <= |storage|
    }

    function Unread(): seq<byte>
      requires Valid()
    {
      storage[rpos..wpos]
    }

    function Size(): nat
      requires Valid()
    {
      wpos - rpos
    }

    function ValidSize(): nat
      requires Valid()
    {
      |storage| - wpos
    }

    function Capacity(): nat {
      |storage|
    }

    /** vector::resize: shrinking truncates, growing copies the old elements and appends zeros. */
    function Resize(bytes: nat): Buf {
      if bytes <= |storage| then this.(storage := storage[..bytes])
      else this.(storage := storage + Zeros(bytes - |storage|), copied := copied + |storage|)
    }

    function EnsureValidSize(): Buf
      requires Valid()
    {
      if ValidSize() == 0 then Resize(|storage| * 3 / 2) else this
    }

    function EstimateSize(size: nat): Buf
      requires Valid()
    {
      if ValidSize() < size then Resize((|storage| + size) * 3 / 2) else this
    }

    function ReadBytes(bytes: nat): Buf {
      this.(rpos := rpos + bytes)
    }

    function WriteBytes(bytes: nat): Buf {
      this.(wpos := wpos + bytes)
    }

    /** Bytes placed at WriteBegin() without moving a cursor: what memcpy, and a socket read, do. */
    function Fill(data: seq<byte>): Buf
      requires Valid() && |data| <= ValidSize()
    {
      this.(storage := storage[..wpos] + data + storage[wpos + |data|..])
    }

    function Write(data: seq<byte>): Buf
      requires Valid()
    {
      if |data| > 0 then
        EstimateMakesRoom(this, |data|);
        EstimateSize(|data|).Fill(data).WriteBytes(|data|)
      else this
    }

    function Normalize(): Buf
      requires Valid()
    {
      if rpos > 0 then
        this.(storage := storage[rpos..wpos] + storage[wpos - rpos..], wpos := wpos - rpos, rpos := 0)
      else this
    }
  }

  function Fresh(size: nat): (b: Buf)
    ensures b.Valid() && b.Unread() == [] && b.Capacity() == size
  {
    Buf(Zeros(size), 0, 0, 0)
  }

  // ------------------------------------------------------------------------------------------------
  // Laws of the single operations
  // ------------------------------------------------------------------------------------------------

  /** Growing never touches what is unread, and leaves the requested room. */
  lemma EstimateMakesRoom(b: Buf, size: nat)
    requires b.Valid()
    ensures b.EstimateSize(size).Valid()
    ensures b.EstimateSize(size).Unread() == b.Unread()
    ensures b.EstimateSize(size).ValidSize() >= size
    ensures b.EstimateSize(size).Capacity() >= b.Capacity()
  {
  }

  /** An explicit resize keeps the buffer well formed exactly when it does not cut into written bytes. */
  lemma ResizeIsSafeIff(b: Buf, bytes: nat)
    requires b.Valid()
    ensures b.Resize(bytes).Valid() <==> b.wpos <= bytes
    ensures b.wpos <= bytes ==> b.Resize(bytes).Unread() == b.Unread()
  {
  }

  /** The meter counts what growing copies, and nothing else moves it; what is new in the storage is zero. */
  lemma ResizeCopies(b: Buf, bytes: nat)
    ensures b.Resize(bytes).Capacity() == bytes
    ensures b.Resize(bytes).copied == b.copied + if bytes > b.Capacity() then b.Capacity() else 0
    ensures forall i :: b.Capacity() <= i < bytes ==> b.Resize(bytes).storage[i] == 0
    ensures forall i :: 0 <= i < b.Capacity() && i < bytes ==> b.Resize(bytes).storage[i] == b.storage[i]
  {
  }

  /** A full buffer gains room exactly when its capacity is at least two: 0 and 1 are fixed points of n*3/2. */
  lemma EnsureGivesRoomIff(b: Buf)
    requires b.Valid()
    ensures b.EnsureValidSize().Valid()
    ensures b.EnsureValidSize().Unread() == b.Unread()
    ensures b.EnsureValidSize().Capacity() >= b.Capacity()
    ensures b.EnsureValidSize().ValidSize() > 0 <==> b.ValidSize() > 0 || b.Capacity() >= 2
  {
  }

  lemma WriteAppends(b: Buf, data: seq<byte>)
    requires b.Valid()
    ensures b.Write(data).Valid()
    ensures b.Write(data).Unread() == b.Unread() + data
    ensures b.Write(data).rpos == b.rpos && b.Write(data).wpos == b.wpos + |data|
  {
    if |data| > 0 {
      EstimateMakesRoom(b, |data|);
      var e := b.EstimateSize(|data|);
      var w := b.Write(data);
      assert w.storage[..b.wpos] == e.storage[..b.wpos];
      assert w.storage[b.wpos..w.wpos] == data;
      assert w.Unread() == w.storage[b.rpos..b.wpos] + w.storage[b.wpos..w.wpos];
    }
  }

  lemma FillCommits(b: Buf, data: seq<byte>)
    requires b.Valid() && |data| <= b.ValidSize()
    ensures b.Fill(data).Valid()
    ensures b.Fill(data).Unread() == b.Unread()
    ensures b.Fill(data).storage[b.wpos..b.wpos + |data|] == data
    ensures b.Fill(data).WriteBytes(|data|).Valid()
    ensures b.Fill(data).WriteBytes(|data|).Unread() == b.Unread() + data
  {
    var f := b.Fill(data);
    assert f.storage[..b.wpos] == b.storage[..b.wpos];
    assert f.storage[b.rpos..b.wpos] == b.storage[b.rpos..b.wpos];
    assert f.storage[b.rpos..b.wpos + |data|] == f.storage[b.rpos..b.wpos] + f.storage[b.wpos..b.wpos + |data|];
  }

  lemma NormalizeKeepsUnread(b: Buf)
    requires b.Valid()
    ensures b.Normalize().Valid()
    ensures b.Normalize().Unread() == b.Unread()
    ensures b.Normalize().rpos == 0 && b.Normalize().wpos == b.Size()
    ensures b.Normalize().Capacity() == b.Capacity()
    ensures b.Normalize().ValidSize() == b.ValidSize() + b.rpos
  {
  }

  lemma ReadDrops(b: Buf, bytes: nat)
    requires b.Valid()
    ensures b.ReadBytes(bytes).Valid() <==> bytes <= b.Size()
    ensures bytes <= b.Size() ==> b.ReadBytes(bytes).Unread() == b.Unread()[bytes..]
  {
  }

  // ------------------------------------------------------------------------------------------------
  // A buffer is a byte queue
  // ------------------------------------------------------------------------------------------------

  datatype BufOp =
    | OpWrite(data: seq<byte>)
    | OpCommit(data: seq<byte>)   // a peer fills the free space, then WriteBytes
    | OpRead(bytes: nat)
    | OpNormalize
    | OpEnsure
    | OpEstimate(size: nat)

  /** The cursor preconditions the header leaves to its callers. */
  ghost predicate Allowed(b: Buf, op: BufOp) {
    b.Valid() &&
    match op
    case OpCommit(data) => |data| <= b.ValidSize()
    case OpRead(bytes) => bytes <= b.Size()
    case _ => true
  }

  ghost function ApplyOp(b: Buf, op: BufOp): Buf
    requires Allowed(b, op)
  {
    match op
    case OpWrite(data) => b.Write(data)
    case OpCommit(data) => b.Fill(data).WriteBytes(|data|)
    case OpRead(bytes) => b.ReadBytes(bytes)
    case OpNormalize => b.Normalize()
    case OpEnsure => b.EnsureValidSize()
    case OpEstimate(size) => b.EstimateSize(size)
  }

  ghost predicate AllowedAll(b: Buf, ops: seq<BufOp>)
    decreases |ops|
  {
    b.Valid() && (ops != [] ==> Allowed(b, ops[0]) && AllowedAll(ApplyOp(b, ops[0]), ops[1..]))
  }

  ghost function ApplyAll(b: Buf, ops: seq<BufOp>): Buf
    requires AllowedAll(b, ops)
    decreases |ops|
  {
    if ops == [] then b else ApplyAll(ApplyOp(b, ops[0]), ops[1..])
  }

  /** The specification: a plain byte queue that knows nothing of cursors or storage. */
  function QueueOp(q: seq<byte>, op: BufOp): seq<byte> {
    match op
    case OpWrite(data) => q + data
    case OpCommit(data) => q + data
    case OpRead(bytes) => if bytes <= |q| then q[bytes..] else []
    case _ => q
  }

  function QueueAll(q: seq<byte>, ops: seq<BufOp>): seq<byte>
    decreases |ops|
  {
    if ops == [] then q else QueueAll(QueueOp(q, ops[0]), ops[1..])
  }

  lemma StepRefinesQueue(b: Buf, op: BufOp)
    requires Allowed(b, op)
    ensures ApplyOp(b, op).Valid()
    ensures ApplyOp(b, op).Unread() == QueueOp(b.Unread(), op)
  {
    match op
    case OpWrite(data) => WriteAppends(b, data);
    case OpCommit(data) => FillCommits(b, data);
    case OpRead(bytes) => ReadDrops(b, bytes);
    case OpNormalize => NormalizeKeepsUnread(b);
    case OpEnsure => EnsureGivesRoomIff(b);
    case OpEstimate(size) => EstimateMakesRoom(b, size);
  }

  /** Over any sequence of operations the buffer stays well formed and behaves as a byte queue. */
  lemma {:induction false} BufferRefinesQueue(b: Buf, ops: seq<BufOp>)
    requires AllowedAll(b, ops)
    ensures ApplyAll(b, ops).Valid()
    ensures ApplyAll(b, ops).Unread() == QueueAll(b.Unread(), ops)
    decreases |ops|
  {
    if ops != [] {
      StepRefinesQueue(b, ops[0]);
      BufferRefinesQueue(ApplyOp(b, ops[0]), ops[1..]);
    }
  }

  // ------------------------------------------------------------------------------------------------
  // Amortised growth
  // ------------------------------------------------------------------------------------------------

  function Max(a: nat, b: nat): nat {
    if a >= b then a else b
  }

  /** What growth by Write alone keeps: capacity linear in the bytes written, copying linear in capacity. */
  ghost predicate Amortised(b: Buf) {
    b.Valid() &&
    b.Capacity() <= Max(INITIAL_CAPACITY, 3 * b.wpos) &&
    b.copied <= 2 * b.Capacity()
  }

  lemma WriteKeepsAmortised(b: Buf, data: seq<byte>)
    requires Amortised(b)
    ensures Amortised(b.Write(data))
  {
    WriteAppends(b, data);
    if |data| > 0 && b.ValidSize() < |data| {
      var cap, grown := b.Capacity(), (b.Capacity() + |data|) * 3 / 2;
      EstimateMakesRoom(b, |data|);
      assert b.Write(data).Capacity() == grown;
      assert 2 * grown >= 3 * cap;
    }
  }

  // ------------------------------------------------------------------------------------------------
  // The object
  // ------------------------------------------------------------------------------------------------

  class ByteBuffer {
    var storage: array<byte>
    var rpos: nat
    var wpos: nat
    ghost var copied: nat

    ghost predicate Valid()
      reads this
    {
      rpos <= wpos <= storage.Length
    }

    ghost function State(): (b: Buf)
      reads this, storage
      ensures Valid() <==> b.Valid()
    {
      Buf(storage[..], rpos, wpos, copied)
    }

    constructor (size: nat)
      ensures Valid() && State() == Fresh(size)
      ensures fresh(storage)
    {
      storage := new byte[size](_ => 0);
      rpos, wpos, copied := 0, 0, 0;
      new;
      assert storage[..] == Zeros(size);
    }

    method Reset()
      modifies this`rpos, this`wpos
      ensures State() == old(State()).(rpos := 0, wpos := 0)
    {
      wpos := 0;
      rpos := 0;
    }

    method Resize(bytes: nat)
      modifies this`storage, this`copied
      ensures State() == old(State()).Resize(bytes)
      ensures storage == old(storage) || fresh(storage)
      ensures unchanged(old(storage))
    {
      var from := storage;
      var to := new byte[bytes](i reads from => if 0 <= i < from.Length then from[i] else 0);
      if bytes > from.Length {
        copied := copied + from.Length;
      }
      storage := to;
      if bytes <= from.Length {
        assert to[..] == from[..bytes];
      } else {
        assert to[..] == from[..] + Zeros(bytes - from.Length);
      }
    }

    method ReadBytes(bytes: nat)
      modifies this`rpos
      ensures State() == old(State()).ReadBytes(bytes)
    {
      rpos := rpos + bytes;
    }

    method WriteBytes(bytes: nat)
      modifies this`wpos
      ensures State() == old(State()).WriteBytes(bytes)
    {
      wpos := wpos + bytes;
    }

    method Normalize()
      requires Valid()
      modifies this`rpos, this`wpos, storage
      ensures State() == old(State()).Normalize()
    {
      if rpos > 0 {
        if rpos != wpos {
          // memmove: the two ranges may overlap, so all reads precede all writes
          var from, n := rpos, wpos - rpos;
          forall i | 0 <= i < n {
            storage[i] := storage[from + i];
          }
        }
        wpos := wpos - rpos;
        rpos := 0;
        assert storage[..] == old(storage[rpos..wpos]) + old(storage[wpos - rpos..]);
      }
    }

    method EnsureValidSize()
      requires Valid()
      modifies this`storage, this`copied
      ensures Valid() && State() == old(State()).EnsureValidSize()
      ensures storage == old(storage) || fresh(storage)
      ensures unchanged(old(storage))
    {
      EnsureGivesRoomIff(State());
      if storage.Length - wpos == 0 {
        Resize(storage.Length * 3 / 2);
      }
    }

    method EstimateSize(size: nat)
      requires Valid()
      modifies this`storage, this`copied
      ensures Valid() && State() == old(State()).EstimateSize(size)
      ensures storage == old(storage) || fresh(storage)
      ensures unchanged(old(storage))
    {
      EstimateMakesRoom(State(), size);
      if storage.Length - wpos < size {
        Resize((storage.Length + size) * 3 / 2);
      }
    }

    method Write(data: seq<byte>)
      requires Valid()
      modifies this, storage
      ensures Valid() && State() == old(State()).Write(data)
      ensures storage == old(storage) || fresh(storage)
    {
      WriteAppends(State(), data);
      if |data| > 0 {
        EstimateMakesRoom(State(), |data|);
        EstimateSize(|data|);
        ghost var grown := State();
        var at := wpos;
        forall i | 0 <= i < |data| {
          storage[at + i] := data[i];
        }
        assert storage[..] == grown.Fill(data).storage;
        WriteBytes(|data|);
      }
    }

    method Swap(rhs: ByteBuffer)
      modifies this, rhs
      ensures State() == old(rhs.State()) && rhs.State() == old(State())
      ensures storage == old(rhs.storage) && rhs.storage == old(storage)
    {
      storage, rhs.storage := rhs.storage, storage;
      wpos, rhs.wpos := rhs.wpos, wpos;
      rpos, rhs.rpos := rhs.rpos, rpos;
      copied, rhs.copied := rhs.copied, copied;
    }
  }
}
