/**
 * The filesystem as the save and open handlers see it: a map from paths to
 * file contents, and the two ways the editor writes a file
 * (`OpenOptions::new().create(true).write(true).truncate(t).open(p)` followed
 * by `write_all`).
 */
module Files {
  import opened Base

  newtype byte = x: int | 0 <= x < 256

  type Bytes = seq<byte>

  /** An absolute path, as its components below the root; `[]` is the root itself. */
  type Path = seq<string>

  type FileSystem = map<Path, Bytes>

  /** `Path::parent`: the directory holding `p`; the root has none. */
  function Parent(p: Path): (d: Option<Path>)
    ensures d.None? <==> p == []
    ensures d.Some? ==> |d.value| + 1 == |p| && d.value == p[..|d.value|]
  {
    if p == [] then None else Some(p[..|p| - 1])
  }

  /** `Path::file_name`: the last component of `p`; the root has none. */
  function FileName(p: Path): (n: Option<string>)
    ensures n.None? <==> p == []
    ensures n.Some? ==> Parent(p).value + [n.value] == p
  {
    if p == [] then None else Some(p[|p| - 1])
  }

  /** What a file holding `base` holds after `data` is written over it from offset 0. */
  function Overlay(base: Bytes, data: Bytes): (r: Bytes)
    ensures |r| == Max(|base|, |data|)
    ensures forall i :: 0 <= i < |r| ==> r[i] == if i < |data| then data[i] else base[i]
  {
    if |base| <= |data| then data else data + base[|data|..]
  }

  /**
   * How a write goes: it succeeds, the open fails (nothing is created or
   * truncated), or `write_all` fails after `written` bytes reached the file.
   * `write_all` keeps writing until the data is used up, so it can fail only
   * while bytes are still unwritten: a `WriteFault` whose `written` is not
   * below the data's length is a write that went through.
   */
  datatype Fault = NoFault | OpenFault | WriteFault(written: nat)

  datatype IoError = OpenFailed | WriteFailed

  /** Does writing `data` under `fault` report an error? */
  predicate Fails(data: Bytes, fault: Fault) {
    fault.OpenFault? || (fault.WriteFault? && fault.written < |data|)
  }

  /** How many bytes of `data` reach the file (once it has opened). */
  function Reached(data: Bytes, fault: Fault): (n: nat)
    ensures n <= |data|
    ensures n < |data| <==> fault.WriteFault? && Fails(data, fault)
    ensures fault.WriteFault? && Fails(data, fault) ==> n == fault.written
  {
    if fault.WriteFault? && fault.written < |data| then fault.written else |data|
  }

  /** The error a write of `data` reports, if any. */
  function ErrorOf(data: Bytes, fault: Fault): (e: Option<IoError>)
    ensures e.None? <==> !Fails(data, fault)
    ensures e == Some(OpenFailed) <==> fault.OpenFault?
  {
    if fault.OpenFault? then Some(OpenFailed)
    else if Fails(data, fault) then Some(WriteFailed)
    else None
  }

  /** The contents of `p` once it has been opened for writing (created if absent, emptied if `truncate`). */
  function Opened(fs: FileSystem, p: Path, truncate: bool): (r: Bytes)
    ensures !truncate && p in fs ==> r == fs[p]
    ensures r != [] ==> !truncate && p in fs
  {
    if truncate || p !in fs then [] else fs[p]
  }

  /** The filesystem after opening `p` with create(true), write(true), truncate(`truncate`) and writing `data`. */
  function Write(fs: FileSystem, p: Path, data: Bytes, truncate: bool, fault: Fault): (fs': FileSystem)
    ensures fault.OpenFault? ==> fs' == fs
    ensures !fault.OpenFault? ==> fs'.Keys == fs.Keys + {p}
    ensures forall q :: q in fs && q != p ==> q in fs' && fs'[q] == fs[q]
    ensures !Fails(data, fault) && truncate ==> fs'[p] == data
    ensures !Fails(data, fault) && !truncate && p !in fs ==> fs'[p] == data
    ensures !Fails(data, fault) && !truncate && p in fs ==> fs'[p] == Overlay(fs[p], data)
    ensures fault.WriteFault? && Fails(data, fault) && truncate ==> fs'[p] == data[..fault.written]
    ensures fault.WriteFault? && Fails(data, fault) && !truncate ==>
              fs'[p] == Overlay(Opened(fs, p, false), data[..fault.written])
  {
    if fault.OpenFault? then fs
    else fs[p := Overlay(Opened(fs, p, truncate), data[..Reached(data, fault)])]
  }

  /**
   * Writing over a longer file without truncating leaves the old tail in place:
   * the file then does not hold `data`, although every byte of `data` was written.
   */
  lemma NonTruncatingWriteKeepsTail(fs: FileSystem, p: Path, data: Bytes)
    requires p in fs && |fs[p]| > |data|
    ensures Write(fs, p, data, true, NoFault)[p] == data
    ensures Write(fs, p, data, false, NoFault)[p] == data + fs[p][|data|..]
    ensures Write(fs, p, data, false, NoFault)[p] != data
  {
  }

  /**
   * A write that fails part way and is then done again in full (emptying the file
   * at least as often as the failed attempt did) leaves the filesystem as a
   * single successful write would: a partial write does no lasting harm.
   */
  lemma RetryAfterPartialWrite(fs: FileSystem, p: Path, data: Bytes, first: bool, second: bool, k: nat)
    requires first ==> second
    ensures Write(Write(fs, p, data, first, WriteFault(k)), p, data, second, NoFault)
         == Write(fs, p, data, second, NoFault)
  {
    var mid := Write(fs, p, data, first, WriteFault(k));
    var n := Reached(data, WriteFault(k));
    if !second {
      var before := Opened(fs, p, false);
      assert mid[p] == Overlay(before, data[..n]);
      var again := Overlay(mid[p], data);
      var once := Overlay(before, data);
      assert |again| == |once|;
      forall i | 0 <= i < |again| ensures again[i] == once[i] {
      }
      assert again == once;
    }
  }
}
