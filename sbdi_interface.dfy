/** The parts of the secure block device's public interface that carry
    behaviour or fixed constants (the header SecureBlockDeviceInterface.h):
    the conversion of Merkle-tree errors into device errors, the lseek
    constants, the master-key type and the two write-store slots of a
    device handle. */
module SecureBlockDevice {
  import opened SbdiErr

  // ---------------------------------------------------------------------
  // Merkle-tree errors and their conversion

  /** The Merkle tree's error kinds.  The tree's enumeration declares six
      named codes; any other value of that type is carried as `Other`. */
  datatype MtError =
    | MtSuccess
    | MtOutOfMemory
    | MtIllegalParam
    | MtIllegalState
    | MtRootMismatch
    | MtUnspecified
    | Other(code: int)

  /** The integer values of the six named tree codes.  The tree's header
      fixes them; this model keeps them abstract. */
  datatype MtCodes = MtCodes(
    success: int,
    outOfMemory: int,
    illegalParam: int,
    illegalState: int,
    rootMismatch: int,
    unspecified: int)

  /** The six codes are pairwise distinct, as the case labels of a C
      `switch` must be. */
  predicate DistinctCodes(m: MtCodes) {
    && m.success !in {m.outOfMemory, m.illegalParam, m.illegalState, m.rootMismatch, m.unspecified}
    && m.outOfMemory !in {m.illegalParam, m.illegalState, m.rootMismatch, m.unspecified}
    && m.illegalParam !in {m.illegalState, m.rootMismatch, m.unspecified}
    && m.illegalState !in {m.rootMismatch, m.unspecified}
    && m.rootMismatch != m.unspecified
  }

  /** The code is one of the six case labels. */
  predicate IsNamedCode(m: MtCodes, code: int) {
    code in {m.success, m.outOfMemory, m.illegalParam, m.illegalState, m.rootMismatch, m.unspecified}
  }

  /** An `Other` value stands for a code that is not a case label. */
  predicate WellFormed(m: MtCodes, e: MtError) {
    e.Other? ==> !IsNamedCode(m, e.code)
  }

  /** The tree error an integer code denotes. */
  function Classify(m: MtCodes, code: int): (e: MtError)
    ensures WellFormed(m, e)
    ensures e.Other? <==> !IsNamedCode(m, code)
    ensures e.Other? ==> e.code == code
  {
    if code == m.success then MtSuccess
    else if code == m.outOfMemory then MtOutOfMemory
    else if code == m.illegalParam then MtIllegalParam
    else if code == m.illegalState then MtIllegalState
    else if code == m.rootMismatch then MtRootMismatch
    else if code == m.unspecified then MtUnspecified
    else Other(code)
  }

  /** The integer code of a tree error. */
  function MtCode(m: MtCodes, e: MtError): (c: int)
    ensures !e.Other? ==> IsNamedCode(m, c)
    ensures WellFormed(m, e) ==> (e.Other? <==> !IsNamedCode(m, c))
  {
    match e
    case MtSuccess => m.success
    case MtOutOfMemory => m.outOfMemory
    case MtIllegalParam => m.illegalParam
    case MtIllegalState => m.illegalState
    case MtRootMismatch => m.rootMismatch
    case MtUnspecified => m.unspecified
    case Other(c) => c
  }

  /** Classifying a code and encoding the result gives the code back. */
  lemma ClassifyThenCode(m: MtCodes, code: int)
    ensures MtCode(m, Classify(m, code)) == code
  {
  }

  /** With distinct case labels, encoding a well-formed tree error and
      classifying the code gives the error back. */
  lemma CodeThenClassify(m: MtCodes, e: MtError)
    requires DistinctCodes(m)
    requires WellFormed(m, e)
    ensures Classify(m, MtCode(m, e)) == e
  {
  }

  /** Converts a Merkle-tree error into a device error: the six named tree
      errors map onto the device error of the same meaning, a root mismatch
      onto TAG_MISMATCH, and anything else onto UNSUPPORTED. */
  function MtErrConv(e: MtError): (r: SbdiError)
    ensures r == Success <==> e == MtSuccess
    ensures r == TagMismatch <==> e == MtRootMismatch
    ensures r == Unsupported <==> e.Other?
    ensures r !in {Io, IoMissingBlock, IoMissingData, CryptoFail}
  {
    match e
    case MtSuccess => Success
    case MtOutOfMemory => OutOfMemory
    case MtIllegalParam => IllegalParam
    case MtIllegalState => IllegalState
    case MtRootMismatch => TagMismatch
    case MtUnspecified => Unspecified
    case Other(_) => Unsupported
  }

  /** The conversion applied to the tree's integer code, as the `switch`
      does it: a code that is none of the six labels takes the default arm. */
  function MtErrConvCode(m: MtCodes, code: int): (r: SbdiError)
    ensures r == Unsupported <==> !IsNamedCode(m, code)
    ensures r == Success <==> code == m.success
    ensures DistinctCodes(m) ==> (r == TagMismatch <==> code == m.rootMismatch)
  {
    MtErrConv(Classify(m, code))
  }

  /** The conversion table, row by row. */
  lemma MtErrConvTable()
    ensures MtErrConv(MtSuccess) == Success
    ensures MtErrConv(MtOutOfMemory) == OutOfMemory
    ensures MtErrConv(MtIllegalParam) == IllegalParam
    ensures MtErrConv(MtIllegalState) == IllegalState
    ensures MtErrConv(MtRootMismatch) == TagMismatch
    ensures MtErrConv(MtUnspecified) == Unspecified
    ensures forall c :: MtErrConv(Other(c)) == Unsupported
  {
  }

  /** The conversion is one-to-one on the six named tree errors, so no two
      of them become the same device error. */
  lemma MtErrConvInjectiveOnNamed(a: MtError, b: MtError)
    requires !a.Other? && !b.Other?
    ensures MtErrConv(a) == MtErrConv(b) ==> a == b
  {
  }

  /** Every converted error has a code: SUCCESS's 0 only for tree success,
      and otherwise a strictly negative one. */
  lemma MtErrConvCodes(e: MtError)
    ensures ToCode(MtErrConv(e)) == 0 <==> e == MtSuccess
    ensures e != MtSuccess ==> ToCode(MtErrConv(e)) < 0
  {
  }

  /** A tree call wrapped in the error check inside a chain: when every
      earlier step succeeds and the tree reports a root mismatch, the chain
      returns TAG_MISMATCH and evaluates nothing after the tree call. */
  lemma RootMismatchPropagates<S>(steps: seq<Step<S>>, s: S, k: nat)
    requires k < |steps|
    requires AllSucceed(steps, s, k)
    requires ResultAt(steps, s, k) == MtErrConv(MtRootMismatch)
    ensures RunChecks(steps, s) == Run(TagMismatch, StateAfter(steps, s, k + 1), k + 1)
  {
    FirstErrorWins(steps, s);
  }

  // ---------------------------------------------------------------------
  // lseek constants

  /** Where an lseek offset is measured from. */
  datatype Whence = SeekSet | SeekCur | SeekEnd

  /** The integer value of each lseek constant. */
  function WhenceToCode(w: Whence): (c: int)
    ensures 1 <= c <= 3
    ensures (c == 1 <==> w == SeekSet) && (c == 2 <==> w == SeekCur) && (c == 3 <==> w == SeekEnd)
  {
    match w
    case SeekSet => 1
    case SeekCur => 2
    case SeekEnd => 3
  }

  /** The lseek constant an integer stands for, if any. */
  function WhenceFromCode(c: int): (r: Option<Whence>)
    ensures forall w :: r == Some(w) <==> WhenceToCode(w) == c
    ensures r.None? <==> !(1 <= c <= 3)
  {
    if c == 1 then Some(SeekSet)
    else if c == 2 then Some(SeekCur)
    else if c == 3 then Some(SeekEnd)
    else None
  }

  /** The three constants have distinct values, and decoding a value gives
      its constant back. */
  lemma WhenceCodes(a: Whence, b: Whence)
    ensures WhenceToCode(a) == WhenceToCode(b) ==> a == b
    ensures WhenceFromCode(WhenceToCode(a)) == Some(a)
  {
  }

  // ---------------------------------------------------------------------
  // The master key and the device handle's write store

  newtype byte = x: int | 0 <= x < 256

  /** The symmetric master key is an array of 32 bytes. */
  const MasterKeySize: nat := 32

  type MasterKey = k: seq<byte> | |k| == MasterKeySize witness seq(MasterKeySize, _ => 0 as byte)

  /** The contents of one block; its size is set by the block layer, which
      is not part of this model. */
  type BlockData = seq<byte>

  /** A handle has exactly two write-store slots. */
  const WriteStoreSlots: nat := 2

  /** One write-store slot: the block it is bound to, if any, and its own
      data buffer. */
  datatype WriteSlot = WriteSlot(index: Option<nat>, data: BlockData)

  type WriteStore = w: seq<WriteSlot> | |w| == WriteStoreSlots
    witness [WriteSlot(None, []), WriteSlot(None, [])]

  /** The modelled part of a device handle: its two write-store slots and
      its current byte offset. */
  datatype Handle = Handle(writeStore: WriteStore, offset: nat)

  /** Replaces one slot of the write store and leaves the other alone. */
  function SetSlot(h: Handle, i: nat, slot: WriteSlot): (r: Handle)
    requires i < WriteStoreSlots
    ensures |r.writeStore| == WriteStoreSlots
    ensures r.writeStore[i] == slot
    ensures r.writeStore[1 - i] == h.writeStore[1 - i]
    ensures r.offset == h.offset
  {
    h.(writeStore := h.writeStore[i := slot])
  }

  /** A master key always has 32 bytes, and each slot's buffer can be
      changed without touching the other slot's buffer. */
  lemma KeyAndSlots(k: MasterKey, h: Handle, i: nat, d: BlockData)
    requires i < WriteStoreSlots
    ensures |k| == 32
    ensures |h.writeStore| == 2
    ensures SetSlot(h, i, h.writeStore[i].(data := d)).writeStore[i].data == d
    ensures SetSlot(h, i, h.writeStore[i].(data := d)).writeStore[1 - i] == h.writeStore[1 - i]
  {
  }
}
