/**
 * An abstract filesystem: each directory the program touches maps to the names of the
 * plain files in it, in the order a directory listing returns them. A journal of
 * operations (filesystem calls and process.send messages) is replayed against it.
 */
module Disk {

  datatype Dir =
    | Auth                     // the staging folder `auth`
    | Upload                   // the folder `upload`
    | SessionDir(key: string)  // `upload/<key>`

  type FileName = string
  type Disk = map<Dir, seq<FileName>>

  datatype Op =
    | RemoveDir(dir: Dir)           // fs.remove / fs.removeSync: recursive, no error when absent
    | MoveDir(src: Dir, dst: Dir)   // fs.move with overwrite
    | MakeDir(dir: Dir)             // fs.mkdirSync of a missing directory
    | Send(msg: string)             // process.send(msg)

  const ResetMessage: string := "reset"

  /** The effect of one operation that completed. */
  function Apply(d: Disk, op: Op): (d': Disk)
    ensures op.RemoveDir? ==> op.dir !in d' && d' - {op.dir} == d - {op.dir}
    ensures op.MoveDir? && op.src in d && op.src != op.dst ==>
      (op.src !in d' && op.dst in d' && d'[op.dst] == d[op.src] &&
       d' - {op.src, op.dst} == d - {op.src, op.dst})
    ensures op.MakeDir? ==>
      (op.dir in d' && d' - {op.dir} == d - {op.dir} &&
       d'[op.dir] == (if op.dir in d then d[op.dir] else []))
    ensures op.Send? ==> d' == d
  {
    match op
    // Only `dir` itself goes: the `upload/<key>` entries under a removed `upload` would stay,
    // but no handler removes `upload`.
    case RemoveDir(dir) => d - {dir}
    case MoveDir(src, dst) => if src in d then (d - {src})[dst := d[src]] else d
    case MakeDir(dir) => if dir in d then d else d[dir := []]
    case Send(_) => d
  }

  /** The disk after a journal of operations, in order. */
  function Replay(d: Disk, ops: seq<Op>): Disk
    decreases |ops|
  {
    if ops == [] then d else Replay(Apply(d, ops[0]), ops[1..])
  }

  /** The messages sent to the host process, in order. */
  function Signals(ops: seq<Op>): (s: seq<string>)
    ensures |s| <= |ops|
  {
    if ops == [] then [] else (if ops[0].Send? then [ops[0].msg] else []) + Signals(ops[1..])
  }

  /** Replaying a journal in two parts is replaying the whole. */
  lemma {:induction false} ReplayConcat(d: Disk, a: seq<Op>, b: seq<Op>)
    ensures Replay(d, a + b) == Replay(Replay(d, a), b)
    decreases |a|
  {
    if a == [] {
      assert a + b == b;
    } else {
      assert (a + b)[0] == a[0] && (a + b)[1..] == a[1..] + b;
      ReplayConcat(Apply(d, a[0]), a[1..], b);
    }
  }

  lemma ReplayOne(d: Disk, op: Op)
    ensures Replay(d, [op]) == Apply(d, op)
  {
    assert [op][1..] == [];
  }

  lemma {:induction false} SignalsConcat(a: seq<Op>, b: seq<Op>)
    ensures Signals(a + b) == Signals(a) + Signals(b)
    decreases |a|
  {
    if a == [] {
      assert a + b == b;
    } else {
      assert (a + b)[0] == a[0] && (a + b)[1..] == a[1..] + b;
      SignalsConcat(a[1..], b);
    }
  }
}
