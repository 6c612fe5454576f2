/**
 * The digest file beside a cached image (internal/disk/digest.go, validator.go): it spares hashing
 * the image again, and is believed only when it is strictly newer than the image.
 *
 * Operations on one path come one at a time. The clock never runs backwards, but it is coarse: it
 * may stand still across any number of writes. Every operation may stop at any of its writes.
 */
module DigestSidecar {
  import opened Wrappers
  import opened Runs
  import opened SparseImage

  /** The text of a digest. The hash is a parameter, `hash`, of everything below. */
  type Digest = string

  /** "sha256:" and 64 hexadecimal digits. */
  const DigestLength := 71

  type Hash = seq<Byte> -> Digest

  ghost predicate IsHash(hash: Hash) {
    forall s :: |hash(s)| == DigestLength
  }

  datatype File<T> = File(data: T, mtime: nat)

  datatype Disk = Disk(image: Option<File<seq<Byte>>>, sidecar: Option<File<Digest>>, clock: nat)

  /** What the file system answers during one operation, and how far the clock moves meanwhile. */
  datatype Io = Io(
    statError: bool,     // any error of Stat other than that the file is not there
    readError: bool,     // a file cannot be opened or read
    toCreate: nat,       // clock ticks until the digest file is created
    createError: bool,
    toWrite: nat,        // clock ticks until its text is written
    written: nat,        // characters that reach it
    closeError: bool,
    imageError: bool,       // decompression cannot open its input or create the image
    imageCloseError: bool)  // the deferred Close of the input or the image reports an error

  /** writeDigestFile. */
  function WriteDigestSpec(d: Disk, text: Digest, io: Io): (Disk, bool) {
    var created := d.clock + io.toCreate;
    if io.createError then (d.(clock := created), false)
    else
      var n := if io.written <= |text| then io.written else |text|;
      var clock := created + io.toWrite;
      (Disk(d.image, Some(File(text[..n], if n == 0 then created else clock)), clock),
       n == |text| && !io.closeError)
  }

  /** ComputeAndVerifyFileDigest: the slow path. */
  function ComputeSpec(hash: Hash, d: Disk, expected: Digest, io: Io): (Disk, bool) {
    if d.image.None? || io.readError || hash(d.image.value.data) != expected then (d, false)
    else WriteDigestSpec(d, expected, io)
  }

  /** The digest file is there and strictly newer than the image. */
  predicate Trusted(d: Disk) {
    d.image.Some? && d.sidecar.Some? && d.sidecar.value.mtime > d.image.value.mtime
  }

  /** ValidateFileWithDigest. */
  function ValidateSpec(hash: Hash, d: Disk, expected: Digest, io: Io): (Disk, bool) {
    if d.image.None? || io.statError then (d, false)
    else if !Trusted(d) then ComputeSpec(hash, d, expected, io)
    else (d, !io.readError && d.sidecar.value.data == expected)
  }

  /** Anyone writes the image, whole or in part. */
  function WriteImageSpec(d: Disk, content: seq<Byte>, ticks: nat): Disk {
    d.(image := Some(File(content, d.clock + ticks)), clock := d.clock + ticks)
  }

  /** processRegularContent: `content` reached the file, `complete` when nothing failed until then. */
  function SaveSpec(hash: Hash, d: Disk, content: seq<Byte>, complete: bool, ticks: nat,
                    expected: Digest, io: Io): (Disk, bool) {
    var e := WriteImageSpec(d, content, ticks);
    if !complete || hash(content) != expected then (e, false) else ComputeSpec(hash, e, expected, io)
  }

  /** DecompressFileWithPath: `hashed` are the bytes that were hashed, None when it failed. */
  function DecompressSpec(hash: Hash, d: Disk, content: seq<Byte>, hashed: Option<seq<Byte>>, ticks: nat,
                          io: Io): (Disk, bool) {
    if io.imageError then (d, false)
    else
      var e := WriteImageSpec(d, content, ticks);
      if hashed.None? then (e, false)
      else
        var (f, ok) := WriteDigestSpec(e, hash(hashed.value), io);
        (f, ok && !io.imageCloseError)
  }

  class CachedImage {
    var image: Option<File<seq<Byte>>>
    var sidecar: Option<File<Digest>>
    var clock: nat

    ghost function View(): Disk
      reads this
    {
      Disk(image, sidecar, clock)
    }

    method WriteDigestFile(text: Digest, io: Io) returns (ok: bool)
      modifies this`sidecar, this`clock
      ensures (View(), ok) == WriteDigestSpec(old(View()), text, io)
    {
      clock := clock + io.toCreate;
      if io.createError {
        return false;
      }
      sidecar := Some(File("", clock));
      clock := clock + io.toWrite;
      var n := if io.written <= |text| then io.written else |text|;
      if n > 0 {
        sidecar := Some(File(text[..n], clock));
      }
      return n == |text| && !io.closeError;
    }

    method ComputeAndVerifyFileDigest(hash: Hash, expected: Digest, io: Io) returns (ok: bool)
      modifies this`sidecar, this`clock
      ensures (View(), ok) == ComputeSpec(hash, old(View()), expected, io)
    {
      if image.None? || io.readError {
        return false;
      }
      var verified := hash(image.value.data) == expected;
      if !verified {
        return false;
      }
      ok := WriteDigestFile(expected, io);
    }

    method ValidateFileWithDigest(hash: Hash, expected: Digest, io: Io) returns (ok: bool)
      modifies this`sidecar, this`clock
      ensures (View(), ok) == ValidateSpec(hash, old(View()), expected, io)
    {
      if image.None? || io.statError {
        return false;
      }
      if sidecar.None? || !(sidecar.value.mtime > image.value.mtime) {
        ok := ComputeAndVerifyFileDigest(hash, expected, io);
        return;
      }
      if io.readError {
        return false;
      }
      return sidecar.value.data == expected;
    }

    method SaveRegular(hash: Hash, content: seq<Byte>, complete: bool, ticks: nat, expected: Digest, io: Io)
      returns (ok: bool)
      modifies this
      ensures (View(), ok) == SaveSpec(hash, old(View()), content, complete, ticks, expected, io)
    {
      clock := clock + ticks;
      image := Some(File(content, clock));
      if !complete || hash(content) != expected {
        return false;
      }
      ok := ComputeAndVerifyFileDigest(hash, expected, io);
    }

    /** Decompress into this path: the digest file is written last. */
    method Decompress(hash: Hash, stream: Stream, size: int, room: nat, ticks: nat, io: Io)
      returns (ok: bool, content: seq<Byte>, hashed: Option<seq<Byte>>)
      modifies this
      ensures (View(), ok) == DecompressSpec(hash, old(View()), content, hashed, ticks, io)
      ensures hashed.Some? ==> Decompressed(stream, size, content, hashed.value)
    {
      if io.imageError {
        return false, [], None;
      }
      var f := new OutputFile(room);
      hashed := SparseImage.DecompressFileWithPath(stream, size, f);
      content := f.content;
      clock := clock + ticks;
      image := Some(File(content, clock));
      if hashed.None? {
        return false, content, hashed;
      }
      ok := WriteDigestFile(hash(hashed.value), io);
      ok := ok && !io.imageCloseError;
    }
  }

  /** What a successful decompression leaves in the file and in the hash. */
  predicate Decompressed(stream: Stream, size: int, content: seq<Byte>, hashed: seq<Byte>) {
    && size >= 0 && stream.end.Eof?
    && hashed == Flatten(stream.parts)
    && Holds(content, hashed, Kept(stream.parts), size)
  }

  // ---------------------------------------------------------------- the invariant

  /**
   * Nothing is dated in the future, and a digest file that is trusted and complete is the digest of
   * the image as it is now.
   */
  predicate Sound(hash: Hash, d: Disk) {
    && (d.image.Some? ==> d.image.value.mtime <= d.clock)
    && (d.sidecar.Some? ==> d.sidecar.value.mtime <= d.clock)
    && (Trusted(d) && |d.sidecar.value.data| == DigestLength ==> d.sidecar.value.data == hash(d.image.value.data))
  }

  /** Writing the image takes the trust away, even within the tick in which the sidecar was written. */
  lemma WriteImageKeepsSound(hash: Hash, d: Disk, content: seq<Byte>, ticks: nat)
    requires Sound(hash, d)
    ensures Sound(hash, WriteImageSpec(d, content, ticks)) && !Trusted(WriteImageSpec(d, content, ticks))
  {
  }

  /** Writing the digest of the image keeps Sound wherever the write stops. */
  lemma WriteDigestKeepsSound(hash: Hash, d: Disk, text: Digest, io: Io)
    requires Sound(hash, d) && d.image.Some? && text == hash(d.image.value.data) && |text| == DigestLength
    ensures Sound(hash, WriteDigestSpec(d, text, io).0)
  {
    assert text[..|text|] == text;
  }

  /** The operations on one path. */
  datatype Step =
    | Overwrite(content: seq<Byte>, ticks: nat)
    | Remove
    | Validate(expected: Digest, io: Io)
    | Save(content: seq<Byte>, complete: bool, ticks: nat, expected: Digest, io: Io)
    | Decompress(stream: Stream, size: int, content: seq<Byte>, hashed: Option<seq<Byte>>, ticks: nat, io: Io)

  /** The operation is one of those that the code can make of its inputs. */
  predicate Possible(e: Step) {
    e.Decompress? && e.hashed.Some? ==> Decompressed(e.stream, e.size, e.content, e.hashed.value)
  }

  /** The declared size fits the stream: it is its length, or cuts off only blocks that were skipped. */
  predicate Fits(stream: Stream, size: int) {
    var n := |Flatten(stream.parts)|;
    size == n || (size < n && EndsWithWrittenBlock(stream.parts))
  }

  /** A descriptor does not lie about the size of its content. */
  predicate Honest(e: Step) {
    e.Decompress? && e.hashed.Some? ==> Fits(e.stream, e.size)
  }

  function After(hash: Hash, d: Disk, e: Step): (Disk, bool) {
    match e
    case Overwrite(content, ticks) => (WriteImageSpec(d, content, ticks), true)
    case Remove => (d.(image := None), true)
    case Validate(expected, io) => ValidateSpec(hash, d, expected, io)
    case Save(content, complete, ticks, expected, io) => SaveSpec(hash, d, content, complete, ticks, expected, io)
    case Decompress(_, _, content, hashed, ticks, io) => DecompressSpec(hash, d, content, hashed, ticks, io)
  }

  /** Steps of honest descriptors. */
  function Next(hash: Hash): (Disk, Step) -> Option<Disk> {
    (d, e) => if Possible(e) && Honest(e) then Some(After(hash, d, e).0) else None
  }

  lemma SoundStep(hash: Hash, d: Disk, e: Step)
    requires IsHash(hash) && Sound(hash, d) && Possible(e) && Honest(e)
    ensures Sound(hash, After(hash, d, e).0)
  {
    match e
    case Overwrite(content, ticks) =>
    case Remove =>
    case Validate(expected, io) =>
      if d.image.Some? && hash(d.image.value.data) == expected {
        WriteDigestKeepsSound(hash, d, expected, io);
      }
    case Save(content, complete, ticks, expected, io) =>
      WriteImageKeepsSound(hash, d, content, ticks);
      if hash(content) == expected {
        WriteDigestKeepsSound(hash, WriteImageSpec(d, content, ticks), expected, io);
      }
    case Decompress(stream, size, content, hashed, ticks, io) =>
      WriteImageKeepsSound(hash, d, content, ticks);
      if hashed.Some? {
        FileIsStreamIff(content, stream.parts, size);
        WriteDigestKeepsSound(hash, WriteImageSpec(d, content, ticks), hash(hashed.value), io);
      }
  }

  lemma SoundAlways(hash: Hash, d: Disk, steps: seq<Step>, f: Disk)
    requires IsHash(hash) && Sound(hash, d) && Run(Next(hash), d, steps) == Some(f)
    ensures Sound(hash, f)
  {
    forall t, e | Sound(hash, t) && Next(hash)(t, e).Some?
      ensures Sound(hash, Next(hash)(t, e).value)
    {
      SoundStep(hash, t, e);
    }
    Keeps(Next(hash), t => Sound(hash, t), d, steps);
  }

  // ---------------------------------------------------------------- what validation is worth

  /**
   * Whatever was done to the path before, validation against a well-formed digest succeeds only if
   * the image has that digest now: believing the digest file is as good as hashing the image.
   */
  lemma ValidationRefinesRecomputation(hash: Hash, d: Disk, steps: seq<Step>, f: Disk, expected: Digest, io: Io)
    requires IsHash(hash) && Sound(hash, d) && Run(Next(hash), d, steps) == Some(f)
    requires |expected| == DigestLength
    ensures ValidateSpec(hash, f, expected, io).1 ==> f.image.Some? && hash(f.image.value.data) == expected
    ensures var g := ValidateSpec(hash, f, expected, io).0; g.image == f.image && Sound(hash, g)
  {
    SoundAlways(hash, d, steps, f);
    SoundStep(hash, f, Validate(expected, io));
  }

  /** A yes to a well-formed digest is right, in any sound state. */
  lemma TrustedYes(hash: Hash, d: Disk, expected: Digest, io: Io)
    requires IsHash(hash) && Sound(hash, d) && |expected| == DigestLength && ValidateSpec(hash, d, expected, io).1
    ensures d.image.Some? && hash(d.image.value.data) == expected
              && ValidateSpec(hash, d, expected, io).0.image == d.image
  {
  }

  /** The digest file is strictly newer than the image but was not written to its end. */
  predicate Torn(d: Disk) {
    Trusted(d) && |d.sidecar.value.data| != DigestLength
  }

  const Faultless := Io(false, false, 1, false, 0, DigestLength, false, false, false)

  /**
   * The other direction: with a file system that makes no error, validation succeeds exactly when
   * the image has the digest and the digest file is not torn.
   */
  lemma ValidationSucceedsIff(hash: Hash, d: Disk, expected: Digest)
    requires IsHash(hash) && Sound(hash, d) && d.image.Some? && |expected| == DigestLength
    ensures ValidateSpec(hash, d, expected, Faultless).1 <==> hash(d.image.value.data) == expected && !Torn(d)
  {
  }

  /**
   * The answer of validation for every way in which the file system can behave: a digest file that is
   * newer is read and compared, otherwise the image is read, hashed and its digest written to the end.
   */
  lemma ValidatesIff(hash: Hash, d: Disk, expected: Digest, io: Io)
    ensures ValidateSpec(hash, d, expected, io).1 <==>
            && d.image.Some? && !io.statError && !io.readError
            && if d.sidecar.Some? && d.sidecar.value.mtime > d.image.value.mtime then d.sidecar.value.data == expected
               else
                 && hash(d.image.value.data) == expected
                 && !io.createError && io.written >= |expected| && !io.closeError
    ensures ValidateSpec(hash, d, expected, io).0.image == d.image
    ensures d.sidecar.Some? && d.image.Some? && d.sidecar.value.mtime > d.image.value.mtime ==>
              ValidateSpec(hash, d, expected, io).0 == d
  {
  }

  /** A torn digest file is never repaired: validation fails and changes nothing, whatever is expected. */
  lemma TornSidecarRejectsForGood(hash: Hash, d: Disk, expected: Digest, io: Io)
    requires IsHash(hash) && Torn(d) && |expected| == DigestLength
    ensures ValidateSpec(hash, d, expected, io) == (d, false)
  {
  }

  /** A torn digest file passes exactly the text that it holds. */
  lemma TornPassesIff(hash: Hash, d: Disk, expected: Digest)
    requires Torn(d)
    ensures ValidateSpec(hash, d, expected, Faultless).1 <==> expected == d.sidecar.value.data
  {
  }

  /**
   * Whatever text is expected, well-formed or not: validation says yes to an image without that
   * digest exactly when the digest file is torn and holds just that text.
   */
  lemma WrongYesIff(hash: Hash, d: Disk, expected: Digest)
    requires IsHash(hash) && Sound(hash, d) && d.image.Some?
    ensures ValidateSpec(hash, d, expected, Faultless).1 && hash(d.image.value.data) != expected <==>
            Torn(d) && expected == d.sidecar.value.data
  {
    if Torn(d) {
      TornPassesIff(hash, d, expected);
    }
  }

  /** The write of the digest stops after that many characters, one tick after the image was written. */
  function Interrupted(written: nat): Io {
    Faultless.(written := written)
  }

  /** The image alone. */
  function Bare(content: seq<Byte>): Disk {
    Disk(Some(File(content, 0)), None, 0)
  }

  /** A torn digest file comes about when a validation stops while it writes: the next one fails. */
  lemma ValidationCanTearItsSidecar(hash: Hash, content: seq<Byte>, written: nat) returns (d: Disk)
    requires IsHash(hash) && written < DigestLength
    ensures Run(Next(hash), Bare(content), [Validate(hash(content), Interrupted(written))]) == Some(d)
    ensures Torn(d) && d.image == Some(File(content, 0)) && d.sidecar.value.data == hash(content)[..written]
    ensures ValidateSpec(hash, d, hash(content), Faultless) == (d, false)
  {
    var e := Validate(hash(content), Interrupted(written));
    d := After(hash, Bare(content), e).0;
    assert Next(hash)(Bare(content), e) == Some(d);
    assert [e][1..] == [];
  }

  /** When it stops before the first character, the file that it leaves passes for an empty expected digest. */
  lemma EmptyDigestPassesATornSidecar(hash: Hash, content: seq<Byte>) returns (d: Disk)
    requires IsHash(hash)
    ensures Run(Next(hash), Bare(content), [Validate(hash(content), Interrupted(0))]) == Some(d)
    ensures d.image == Some(File(content, 0)) && ValidateSpec(hash, d, "", Faultless).1
  {
    d := ValidationCanTearItsSidecar(hash, content, 0);
    TornPassesIff(hash, d, "");
  }

  /**
   * The comparison has to be strict: within one tick of the clock a digest file and a later image
   * that it does not describe can have the same time.
   */
  lemma EqualTimesProveNothing(hash: Hash, a: seq<Byte>, b: seq<Byte>) returns (d: Disk, f: Disk)
    requires IsHash(hash) && hash(a) != hash(b)
    ensures Sound(hash, d)
    ensures Run(Next(hash), d, [Save(a, true, 1, hash(a), Faultless), Overwrite(b, 0)]) == Some(f)
    ensures f == Disk(Some(File(b, 2)), Some(File(hash(a), 2)), 2)
  {
    d := Disk(None, None, 0);
    var save := Save(a, true, 1, hash(a), Faultless);
    var m := After(hash, d, save).0;
    f := After(hash, m, Overwrite(b, 0)).0;
    assert Next(hash)(d, save) == Some(m);
    assert [save, Overwrite(b, 0)][1..] == [Overwrite(b, 0)];
    assert Run(Next(hash), m, [Overwrite(b, 0)]) == Some(f);
    assert hash(a)[..DigestLength] == hash(a);
  }

  /**
   * A descriptor that declares another size is believed too: after a complete decompression the
   * trusted digest describes the image exactly when the declared size fits the stream, provided that
   * the hash does not take the image for the stream when they differ.
   */
  lemma SidecarDescribesImageIff(hash: Hash, d: Disk, e: Step)
    requires IsHash(hash) && Sound(hash, d)
    requires e.Decompress? && e.hashed.Some? && Possible(e) && e.io == Faultless
    requires hash(e.content) == hash(e.hashed.value) ==> e.content == e.hashed.value
    ensures var f := After(hash, d, e).0;
            && Trusted(f) && f.sidecar.value.data == hash(e.hashed.value)
            && ValidateSpec(hash, f, hash(e.hashed.value), Faultless).1
            && (Sound(hash, f) <==> Honest(e))
  {
    FileIsStreamIff(e.content, e.stream.parts, e.size);
    var text := hash(e.hashed.value);
    assert text[..|text|] == text;
  }

  /** For one: a stream of one byte declared to be two bytes long. */
  lemma DishonestSizeIsBelieved(hash: Hash) returns (e: Step, f: Disk)
    requires IsHash(hash) && hash([1, 0]) != hash([1])
    ensures Possible(e) && f == After(hash, Disk(None, None, 0), e).0
    ensures f.image == Some(File([1, 0], 0))
    ensures ValidateSpec(hash, f, hash([1]), Faultless).1
  {
    var stream := Stream([[1]], Eof([]));
    assert [[1]][..0] == [] && Flatten([[1]]) == [1];
    assert Kept([[1]]) == 1;
    e := Decompress(stream, 2, [1, 0], Some([1]), 0, Faultless);
    f := After(hash, Disk(None, None, 0), e).0;
    var text := hash([1]);
    assert text[..|text|] == text;
    assert [1, 0] != [1];
  }
}
