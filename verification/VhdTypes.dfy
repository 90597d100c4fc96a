/** State of the VHD driver: the structures of drivers/block-vhd.c:155-255, the
    requests they own, and the disk the driver writes to. */
module VhdTypes {
  import opened Arithmetic

  // errno values, as the driver returns them
  const EIO := -5
  const EBUSY := -16
  const EINVAL := -22

  /** The BAT entry of a block that has no data block. */
  const DD_BLK_UNUSED: nat := 0xFFFFFFFF

  /** Geometry of one open dynamic or differencing disk.
      `sync(t)` is the outcome of a synchronous write issued when the history has
      length t: 0, or the error. */
  datatype Config = Config(
    spb: pos,            // sectors per block
    bmSecs: pos,         // sectors per on-disk bitmap
    spp: pos,            // sectors per page
    cacheSize: pos,      // bitmaps in the cache
    maxBat: nat,         // blocks in the disk
    firstDb: nat,        // first aligned data block
    prealloc: bool,      // VHD_FLAG_OPEN_PREALLOCATE
    hasBatmap: bool,
    sync: nat -> int)

  datatype ReqOp = OpRead | OpWrite | OpPad

  /** A pool request. `wid` names the guest request it serves: the position of its
      Issue event in the history. `addr` is the sector of the file it goes to; `got` is
      what a read has found there. */
  datatype Req = Req(
    op: ReqOp, wid: nat, sec: nat, secs: nat, addr: int,
    finished: bool, landed: bool, err: int, got: seq<Sector>)
  {
    ghost predicate Covers(w: nat, l: nat) { wid == w && sec <= l < sec + secs }

    /** It will not reach the disk any more. */
    predicate Spent() { landed || finished }
  }

  /** `meta` says that the zero-bitmap request (or, with preallocation, the BAT
      request) is on the request list; `reqs` are the data writes on it. */
  datatype Tx = Tx(
    error: int, closed: bool, started: int, finished: int,
    live: bool, updateBat: bool, meta: bool, reqs: seq<Req>)

  const InitTx := Tx(0, false, 0, 0, false, false, false, [])

  /** One asynchronous request embedded in a larger structure: not submitted,
      submitted, or submitted and already on the disk. */
  datatype Io = Idle | Flying | Landed

  /** A cached bitmap. VHD_FLAG_BM_READ_PENDING is `reading`,
      VHD_FLAG_BM_WRITE_PENDING is `write != Idle`. */
  datatype Bm = Bm(
    bits: set<nat>, shadow: set<nat>, reading: bool, write: Io, wAddr: nat,
    locked: bool, tx: Tx, queue: seq<Req>, waiting: seq<Req>, seqno: nat)

  const InitBm := Bm({}, {}, false, Idle, 0, false, InitTx, [], [], 0)

  /** The BAT lock with the pending BAT write: s->bat.status, pbw_blk, pbw_offset,
      bat.req.error and bat.req.tx. */
  datatype Lock = Lock(locked: bool, started: bool, blk: nat, off: nat, err: int, tx: bool)

  const InitLock := Lock(false, false, 0, 0, 0, false)

  /** What one sector of the data area holds. Data(w, l) is the data of guest write w
      for logical sector l; w is -1 for data that was there when the disk was opened. */
  datatype Sector = Zero | Data(w: int, l: int) | Bits(bits: set<nat>)

  type Disk = int -> Sector

  /** The history of one disk. */
  datatype Ev =
    | Issue(write: bool, sec: nat, secs: nat)
    | Done(write: bool, wid: nat, sec: nat, secs: nat, err: int)
    | Forward(wid: nat, sec: nat, secs: nat)

  /** The requests embedded in vhd_bat_state: zero_req, which for block zeroBlk zeroes
      zeroLen sectors from zeroAt, and req, which writes the BAT sector that starts at entry batBase. */
  datatype MetaIo = MetaIo(
    zero: Io, zeroBlk: nat, zeroAt: nat, zeroLen: nat,
    bat: Io, batBase: nat, batBuf: map<nat, nat>)

  /** The file. `synced(l, a)` records that a data write for logical sector l has
      completed without error at sector a. */
  datatype Media = Media(bat: map<nat, nat>, disk: Disk, synced: (int, int) -> bool)

  datatype Vhd = Vhd(
    bat: map<nat, nat>, batmap: set<nat>, nextDb: nat,
    lock: Lock, meta: MetaIo,
    cache: map<nat, Bm>, bmFree: nat, lru: nat,
    free: nat, raw: seq<Req>,   // request pool; in-flight requests outside transactions
    panicked: bool,
    media: Media, log: seq<Ev>)

  /** Sectors l of [sec, sec + n). */
  ghost function Range(sec: nat, n: nat): set<nat> {
    set l | sec <= l < sec + n && InRange(l, sec, n)
  }

  predicate InRange(l: nat, sec: nat, n: nat) { sec <= l < sec + n }

  /** The bits of request r within its block. */
  ghost function ReqBits(spb: pos, r: Req): set<nat> {
    Range(r.sec % spb, r.secs)
  }

  predicate InUse(bm: Bm) {
    bm.reading || bm.write != Idle || bm.tx.updateBat ||
    bm.waiting != [] || bm.tx.reqs != [] || bm.tx.meta || bm.queue != []
  }

  predicate Completed(tx: Tx) { tx.started == tx.finished }

  function Min(a: nat, b: nat): nat { if a < b then a else b }
}
