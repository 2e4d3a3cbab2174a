# Secure Block Device: error layer

This model covers the Secure Block Device Library's error taxonomy and the
error handling built on it. The library is a POSIX-file-like
read/write/seek layer that encrypts and authenticates every block of an
untrusted physical store. The part of it modelled here has six pieces:

- the eleven device error kinds and their fixed integer codes (`sbdi_error_t`);
- the two early-return macros: `SBDI_ERR_CHK` returns the first result
  that is not `SBDI_SUCCESS`, and `SBDI_CHK_PARAM` returns
  `SBDI_ERR_ILLEGAL_PARAM` when a parameter check fails;
- the conversion of Merkle-tree errors (`mt_error_t`) into device errors
  (`sbdi_mt_sbdi_err_conv`), including its default arm;
- the lseek constants (`sbdi_whence_t`);
- the 32-byte master-key type;
- the two write-store slots of a device handle.

Files:

- `sbdi_err.dfy`, module `SbdiErr`: the error kinds. `SbdiError` is a
  failure-compatible datatype: `IsFailure` is "not SUCCESS" and
  `PropagateFailure` hands the error on unchanged. So Dafny's `:- e;` is
  exactly `SBDI_ERR_CHK(e)`, and `:- ChkParam(p);` is exactly
  `SBDI_CHK_PARAM(p)`. A chain of checked statements in a C function is
  `RunChecks`. It runs over steps that each read and change a caller state
  and yield an error kind. It is proved against a reference evaluation,
  `StateAfter` and `ResultAt`, that runs every step without checking.
- `sbdi_interface.dfy`, module `SecureBlockDevice`: the tree-error
  datatype and its conversion, the lseek constants, the key type and the
  handle's write store.

The numeric values of the tree's error codes are declared in a header
that is not part of this model. They are kept abstract as an `MtCodes`
record of the six case labels. `Classify` maps an integer code onto the
`MtError` datatype, using `Other(code)` for every code that is not a label.
`MtErrConvCode` is the `switch` applied to an integer code.

## Model

| member | source | states |
|---|---|---|
| `SbdiErr.ToCode` | src/sbdi_err.h:36-48 | SUCCESS has code 0 and every other kind a strictly negative code; UNSPECIFIED alone has -255 and every other kind lies in -9..0 |
| `SbdiErr.FromCode` | src/sbdi_err.h:36-48 | decoding is the exact inverse of the code table: it yields `e` if and only if `e` has that code, and yields nothing for codes outside {-255} and -9..0 |
| `SbdiErr.CodeInjective` | src/sbdi_err.h:36-48 | the eleven codes are pairwise distinct |
| `SbdiErr.CodeRoundTrip` | src/sbdi_err.h:36-48 | decoding the code of any kind gives that kind back |
| `SbdiErr.CodeRoundTripInt` | src/sbdi_err.h:36-48 | encoding a successfully decoded code gives the same integer back |
| `SbdiErr.ChkParam` | src/sbdi_err.h:61 | the parameter check causes an early return exactly when the predicate is false, and the value returned is ILLEGAL_PARAM |
| `SbdiErr.ErrChk` | src/sbdi_err.h:55 | the error check returns the checked result when it is not SUCCESS, and otherwise the result of the rest of the caller |
| `SbdiErr.ChkParamThen` | src/sbdi_err.h:55-61 | a parameter check followed by the rest yields ILLEGAL_PARAM when the predicate fails and the rest's result when it holds |
| `SbdiErr.RunChecks` | src/sbdi_err.h:55 | a chain never evaluates more steps than it has; it reaches SUCCESS only after all of them, and an error only after at least one |
| `SbdiErr.StateAfterTail` | src/sbdi_err.h:55 | the unconditional evaluation of k+1 steps is the first step followed by k steps of the rest |
| `SbdiErr.FirstErrorWins` | src/sbdi_err.h:55 | a chain returns SUCCESS only when every step yields SUCCESS; otherwise it returns the kind of the first failing step, every earlier step succeeded, and the final state is the one after that step |
| `SbdiErr.SuccessIffAllSucceed` | src/sbdi_err.h:55 | a chain returns SUCCESS if and only if every step yields SUCCESS |
| `SbdiErr.LaterStepsIgnored` | src/sbdi_err.h:55 | after an early return, replacing all steps after the failing one leaves status, state and step count unchanged, so no later step is evaluated |
| `SbdiErr.ParamCheckFirst` | src/sbdi_err.h:55-61 | a chain that starts with a failing parameter check returns ILLEGAL_PARAM after one step with the state untouched; a passing check runs the rest from the same state |
| `SecureBlockDevice.Classify` | src/SecureBlockDeviceInterface.h:61-76 | an integer code becomes a named tree error exactly when it is one of the six case labels, and otherwise `Other` of that same code |
| `SecureBlockDevice.MtCode` | src/SecureBlockDeviceInterface.h:61-76 | named tree errors encode to case labels; a well-formed `Other` encodes to a code that is no label |
| `SecureBlockDevice.ClassifyThenCode` | src/SecureBlockDeviceInterface.h:61-76 | classifying a code and encoding it again gives the code back |
| `SecureBlockDevice.CodeThenClassify` | src/SecureBlockDeviceInterface.h:61-76 | with distinct case labels, encoding a well-formed tree error and classifying the code gives the error back |
| `SecureBlockDevice.MtErrConv` | src/SecureBlockDeviceInterface.h:59-77 | SUCCESS comes exactly from tree success; TAG_MISMATCH comes exactly from a root mismatch; UNSUPPORTED comes exactly from unnamed codes; IO, IO_MISSING_BLOCK, IO_MISSING_DATA and CRYPTO_FAIL are never produced |
| `SecureBlockDevice.MtErrConvCode` | src/SecureBlockDeviceInterface.h:59-77 | on integer codes, the default arm (UNSUPPORTED) is taken exactly when the code is none of the six labels; SUCCESS comes exactly from the success label; with distinct labels, TAG_MISMATCH comes exactly from the root-mismatch label |
| `SecureBlockDevice.MtErrConvTable` | src/SecureBlockDeviceInterface.h:62-75 | the conversion table row by row: success, out of memory, illegal parameter, illegal state and unspecified keep their meaning, a root mismatch becomes TAG_MISMATCH, and any other code becomes UNSUPPORTED |
| `SecureBlockDevice.MtErrConvInjectiveOnNamed` | src/SecureBlockDeviceInterface.h:62-73 | no two named tree errors convert to the same device error |
| `SecureBlockDevice.MtErrConvCodes` | src/SecureBlockDeviceInterface.h:59-77 | a converted error has code 0 exactly for tree success, and otherwise a negative code |
| `SecureBlockDevice.RootMismatchPropagates` | src/SecureBlockDeviceInterface.h:70-71 | a converted root mismatch inside a checked chain makes the caller return TAG_MISMATCH right after that step, with nothing later evaluated |
| `SecureBlockDevice.WhenceToCode` | src/SecureBlockDeviceInterface.h:84-88 | SEEK_SET, SEEK_CUR and SEEK_END are 1, 2 and 3, and each value belongs to exactly one constant |
| `SecureBlockDevice.WhenceFromCode` | src/SecureBlockDeviceInterface.h:84-88 | decoding a whence value inverts the table and rejects every integer outside 1..3 |
| `SecureBlockDevice.WhenceCodes` | src/SecureBlockDeviceInterface.h:84-88 | the three lseek constants are pairwise distinct and round-trip through their codes |
| `SecureBlockDevice.SetSlot` | src/SecureBlockDeviceInterface.h:96-97 | updating one write-store slot keeps exactly two slots, leaves the other slot and the offset alone |
| `SecureBlockDevice.KeyAndSlots` | src/SecureBlockDeviceInterface.h:79-97 | a master key is 32 bytes; a handle has two write-store slots, and each slot owns its data buffer, so changing one slot's buffer leaves the other slot alone |

## Left out

- The engine operations `sbdi_create`, `sbdi_delete`, `sbdi_open`, `sbdi_close`, `sbdi_pread`, `sbdi_pwrite`, `sbdi_read`, `sbdi_write`, `sbdi_lseek`, `sbdi_fsync` and `sbdi_sync` (src/SecureBlockDeviceInterface.h:101-121): only their prototypes exist here, so any contract for them would be invented.
- The block cache, Merkle tree, header, counter and block types: their headers (`sbdi_cache.h`, `sbdi_ctr_128b.h`, `sbdi_block.h`, `sbdi_hdr.h`) are not part of this model.
- The integer values of `mt_error_t`: they come from a header that is not part of this model, so they are parameters (`MtCodes`).
- Physical I/O (`sbdi_pio_t`) and crypto (`sbdi_crypto_t`, `sbdi_crypto_type_t`): foreign calls behind opaque pointers.
- The handle's pointer fields (`pio`, `crypto`, `mt`, `hdr`, `cache`) and the link from each `write_store` block to its own `write_store_dat` buffer: these are raw pointers. A slot is modelled as a value that holds its own data, so aliasing between slots is not captured.
- The block size, which fixes the length of `BlockData`: it is set in `sbdi_block.h`.
- `SecureBlockDevice.MtErrConvCode`: TAG_MISMATCH is stated only under distinct case labels. The C compiler enforces distinct labels, but only in the unseen header.
