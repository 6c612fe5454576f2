/**
 * The store of pulled images (pkg/oci/oci.go, oci_processor.go): which path holds which media type,
 * and what must have been verified before a path is recorded.
 */
module ImageStore {
  import opened Wrappers
  import opened Runs
  import opened SparseImage
  import Sidecar = DigestSidecar

  type Digest = Sidecar.Digest
  type Hash = Sidecar.Hash
  type Title = string
  type MediaType = string

  const MediaTypeDiskImage := "application/vnd.agoda.macosvz.disk.image.v1"
  const MediaTypeAuxImage := "application/vnd.agoda.macosvz.aux.image.v1"
  const MediaTypeConfigV1 := "application/vnd.agoda.macosvz.config.v1+json"

  /** An annotation that should hold a number. */
  datatype SizeAnnotation = Absent | Malformed | Size(n: int)

  /** ocispec.Descriptor; an absent title is "". */
  datatype Descriptor = Descriptor(
    mediaType: MediaType,
    digest: Digest,
    title: Title,
    uncompressedSize: SizeAnnotation,
    uncompressedDigest: Option<Digest>)

  predicate IsMediaTypeSupported(mt: MediaType) {
    mt in {MediaTypeDiskImage, MediaTypeAuxImage, MediaTypeConfigV1}
  }

  function TitleOf(mt: MediaType): Title {
    if mt == MediaTypeConfigV1 then "config.json"
    else if mt == MediaTypeDiskImage then "disk.img"
    else if mt == MediaTypeAuxImage then "aux.img"
    else ""
  }

  /** Where Fetch finds a blob: a temporary file or the output file of a title. */
  datatype Location = Temp(n: nat) | Output(title: Title)

  /** `demanded` is the digest demanded by the descriptor that recorded a media type; not in the code. */
  datatype State = State(
    closed: bool,
    ignoreExisting: bool,
    digestToPath: map<Digest, Location>,
    mediaTypeToPath: map<MediaType, Title>,
    present: set<Title>,                     // titles whose nameStatus says it exists
    temps: seq<seq<Byte>>,                  // contents of the temporary files
    disks: map<Title, Sidecar.Disk>,        // the working directory
    memory: set<Digest>,                    // the fallback store
    demanded: map<MediaType, Digest>)

  /** What the world contributes to one Push. */
  datatype Input = Input(
    bytes: seq<Byte>,               // what reached the file that the content is copied to
    copied: bool,                   // the copy and the sync met no error
    openError: bool,                // no directory, no temporary file or no output file
    stream: Stream,                 // what the compressed bytes decompress to
    content: seq<Byte>,             // what decompression leaves in the output file
    hashed: Option<seq<Byte>>,      // and what it hashed
    ticks: nat,
    io: Sidecar.Io,
    closeError: bool)               // the deferred Close of the file reports an error

  datatype Outcome = Stored | Failed | Duplicate | Unsupported | StoreClosed

  function DiskOf(s: State, t: Title): Sidecar.Disk {
    if t in s.disks then s.disks[t] else Sidecar.Disk(None, None, 0)
  }

  predicate Compressed(x: Descriptor) {
    x.uncompressedSize != Absent && x.uncompressedDigest.Some?
  }

  /** The digest that Push verifies the output file against. */
  function PushDemand(x: Descriptor): Digest {
    if Compressed(x) then x.uncompressedDigest.value else x.digest
  }

  /** The digest that Exists validates a file on disk against. */
  function ExistsDemand(x: Descriptor): Digest {
    if x.uncompressedDigest.Some? && x.uncompressedDigest.value != "" then x.uncompressedDigest.value else x.digest
  }

  function Record(s: State, x: Descriptor, demand: Digest): State {
    s.(mediaTypeToPath := s.mediaTypeToPath[x.mediaType := x.title],
       demanded := s.demanded[x.mediaType := demand])
  }

  /** processCompressedContent. */
  function CompressedSpec(hash: Hash, s: State, x: Descriptor, i: Input): (State, bool)
    requires x.uncompressedDigest.Some?
  {
    if !x.uncompressedSize.Size? || i.openError then (s, false)
    else
      var saved := s.(temps := s.temps + [i.bytes]);
      if !i.copied || hash(i.bytes) != x.digest then (saved, false)
      else
        var (d, ok) := Sidecar.DecompressSpec(hash, DiskOf(s, x.title), i.content, i.hashed, i.ticks, i.io);
        var t := saved.(digestToPath := s.digestToPath[x.digest := Temp(|s.temps|)], disks := s.disks[x.title := d]);
        if !ok || i.hashed.None? || hash(i.hashed.value) != x.uncompressedDigest.value then (t, false)
        else (Record(t, x, x.uncompressedDigest.value), !i.closeError)
  }

  /** processRegularContent. */
  function RegularSpec(hash: Hash, s: State, x: Descriptor, i: Input): (State, bool) {
    if i.openError then (s, false)
    else
      var (d, ok) := Sidecar.SaveSpec(hash, DiskOf(s, x.title), i.bytes, i.copied, i.ticks, x.digest, i.io);
      var t := s.(disks := s.disks[x.title := d]);
      if !i.copied || hash(i.bytes) != x.digest then (t, false)
      else
        var u := t.(digestToPath := s.digestToPath[x.digest := Output(x.title)]);
        if !ok then (u, false) else (Record(u, x, x.digest), !i.closeError)
  }

  /** processContentByType. */
  function ProcessSpec(hash: Hash, s: State, x: Descriptor, i: Input): (State, bool) {
    if Compressed(x) then CompressedSpec(hash, s, x, i) else RegularSpec(hash, s, x, i)
  }

  function PushSpec(hash: Hash, s: State, x: Descriptor, i: Input): (State, Outcome) {
    if s.closed then (s, StoreClosed)
    else if x.title == "" then
      if i.copied && hash(i.bytes) == x.digest && x.digest !in s.memory
      then (s.(memory := s.memory + {x.digest}), Stored) else (s, Failed)
    else if x.title in s.present then (s, Duplicate)
    else if !IsMediaTypeSupported(x.mediaType) then (s, Unsupported)
    else
      var (t, ok) := ProcessSpec(hash, s, x, i);
      if ok then (t.(present := t.present + {x.title}), Stored) else (t, Failed)
  }

  /** Exists; None is ErrStoreClosed. */
  function ExistsSpec(hash: Hash, s: State, x: Descriptor, io: Sidecar.Io): (State, Option<bool>) {
    if s.closed then (s, None)
    else if x.mediaType in s.mediaTypeToPath then (s, Some(true))
    else if DiskOf(s, x.title).image.Some? && !s.ignoreExisting && x.title != "" then
      var (d, ok) := Sidecar.ValidateSpec(hash, DiskOf(s, x.title), ExistsDemand(x), io);
      var t := s.(disks := s.disks[x.title := d]);
      if ok then (Record(t, x, ExistsDemand(x)), Some(true)) else (t, Some(x.digest in s.memory))
    else (s, Some(x.digest in s.memory))
  }

  // ---------------------------------------------------------------- what Push answers

  /** The digest file is created, written to its end and closed. */
  predicate DigestWritten(text: Digest, io: Sidecar.Io) {
    !io.createError && io.written >= |text| && !io.closeError
  }

  /** Nothing fails between the blob and the record of its path: not for the bytes, not for what they hold. */
  predicate GoesWell(hash: Hash, x: Descriptor, i: Input) {
    && !i.openError && i.copied && hash(i.bytes) == x.digest && !i.closeError
    && if x.uncompressedSize != Absent && x.uncompressedDigest.Some? then
         && x.uncompressedSize.Size? && !i.io.imageError && !i.io.imageCloseError
         && i.hashed.Some? && hash(i.hashed.value) == x.uncompressedDigest.value
         && DigestWritten(hash(i.hashed.value), i.io)
       else
         !i.io.readError && DigestWritten(x.digest, i.io)
  }

  /**
   * The answer of Push and what it leaves: Stored exactly when the store is open, the name is new, the
   * type supported and nothing fails; then, and only then, the title is marked and its path recorded.
   */
  ghost predicate IsPushed(hash: Hash, s: State, x: Descriptor, i: Input, t: State, outcome: Outcome) {
    && (outcome == StoreClosed <==> s.closed)
    && (outcome == Duplicate <==> !s.closed && x.title != "" && x.title in s.present)
    && (outcome == Unsupported <==>
          !s.closed && x.title != "" && x.title !in s.present && !IsMediaTypeSupported(x.mediaType))
    && (x.title != "" ==>
          (outcome == Stored <==>
             !s.closed && x.title !in s.present && IsMediaTypeSupported(x.mediaType) && GoesWell(hash, x, i)))
    && (x.title == "" ==>
          (outcome == Stored <==> !s.closed && i.copied && hash(i.bytes) == x.digest && x.digest !in s.memory))
    && t.present == (if outcome == Stored && x.title != "" then s.present + {x.title} else s.present)
    && t.memory == (if outcome == Stored && x.title == "" then s.memory + {x.digest} else s.memory)
    && (outcome == Stored && x.title != "" ==>
          && x.mediaType in t.mediaTypeToPath && t.mediaTypeToPath[x.mediaType] == x.title
          && x.digest in t.digestToPath && x.title in t.disks && t.disks[x.title].image.Some?
          && t.disks[x.title].image.value.data ==
             if x.uncompressedSize != Absent && x.uncompressedDigest.Some? then i.content else i.bytes)
  }

  lemma CompressedGoesWell(hash: Hash, s: State, x: Descriptor, i: Input)
    requires x.uncompressedSize != Absent && x.uncompressedDigest.Some?
    ensures var (t, ok) := CompressedSpec(hash, s, x, i);
            && (ok <==> GoesWell(hash, x, i)) && t.present == s.present && t.memory == s.memory
            && (ok ==>
                  && x.mediaType in t.mediaTypeToPath && t.mediaTypeToPath[x.mediaType] == x.title
                  && x.digest in t.digestToPath && x.title in t.disks && t.disks[x.title].image.Some?
                  && t.disks[x.title].image.value.data == i.content)
  {
  }

  lemma RegularGoesWell(hash: Hash, s: State, x: Descriptor, i: Input)
    requires !(x.uncompressedSize != Absent && x.uncompressedDigest.Some?)
    ensures var (t, ok) := RegularSpec(hash, s, x, i);
            && (ok <==> GoesWell(hash, x, i)) && t.present == s.present && t.memory == s.memory
            && (ok ==>
                  && x.mediaType in t.mediaTypeToPath && t.mediaTypeToPath[x.mediaType] == x.title
                  && x.digest in t.digestToPath && x.title in t.disks && t.disks[x.title].image.Some?
                  && t.disks[x.title].image.value.data == i.bytes)
  {
  }

  lemma PushAnswers(hash: Hash, s: State, x: Descriptor, i: Input)
    ensures IsPushed(hash, s, x, i, PushSpec(hash, s, x, i).0, PushSpec(hash, s, x, i).1)
  {
    if x.uncompressedSize != Absent && x.uncompressedDigest.Some? {
      CompressedGoesWell(hash, s, x, i);
    } else {
      RegularGoesWell(hash, s, x, i);
    }
  }

  /** With nothing on disk to trust, Exists goes by the recorded media types and the fallback store. */
  lemma IgnoredDiskAnswers(hash: Hash, s: State, x: Descriptor, io: Sidecar.Io)
    requires s.ignoreExisting || x.title == "" || DiskOf(s, x.title).image.None?
    ensures ExistsSpec(hash, s, x, io) ==
            (s, if s.closed then None else Some(x.mediaType in s.mediaTypeToPath || x.digest in s.memory))
  {
  }

  /** A yes that is not the fallback store's leaves the media type recorded; a new record is for the title. */
  lemma ExistsLeaves(hash: Hash, s: State, x: Descriptor, io: Sidecar.Io)
    ensures var (t, answer) := ExistsSpec(hash, s, x, io);
            && t.mediaTypeToPath in {s.mediaTypeToPath, s.mediaTypeToPath[x.mediaType := x.title]}
            && (x.mediaType in s.mediaTypeToPath ==> t == s)
            && (answer == Some(true) && x.digest !in s.memory ==>
                  && x.mediaType in t.mediaTypeToPath
                  && (x.mediaType !in s.mediaTypeToPath ==> t.mediaTypeToPath[x.mediaType] == x.title))
            && (answer == Some(false) ==> t.mediaTypeToPath == s.mediaTypeToPath)
            && t.present == s.present && t.memory == s.memory && t.digestToPath == s.digestToPath
  {
  }

  /**
   * The yes of Exists with a file system that makes no error: the media type is recorded, or the file
   * on disk counts and has the demanded digest and no torn digest file, or the fallback store has it.
   */
  lemma ExistsYesIff(hash: Hash, s: State, x: Descriptor)
    requires Sidecar.IsHash(hash) && Sidecar.Sound(hash, DiskOf(s, x.title)) && !s.closed
    requires |ExistsDemand(x)| == Sidecar.DigestLength
    ensures var d := DiskOf(s, x.title);
            var digest := if x.uncompressedDigest.Some? && x.uncompressedDigest.value != ""
                          then x.uncompressedDigest.value else x.digest;
            ExistsSpec(hash, s, x, Sidecar.Faultless).1 ==
            Some(|| x.mediaType in s.mediaTypeToPath
                 || (x.title != "" && !s.ignoreExisting
                     && d.image.Some? && hash(d.image.value.data) == digest && !Sidecar.Torn(d))
                 || x.digest in s.memory)
  {
    if DiskOf(s, x.title).image.Some? {
      Sidecar.ValidationSucceedsIff(hash, DiskOf(s, x.title), ExistsDemand(x));
    }
  }

  class Store {
    const ignoreExisting: bool
    var closed: bool
    var digestToPath: map<Digest, Location>
    var mediaTypeToPath: map<MediaType, Title>
    var present: set<Title>
    var temps: seq<seq<Byte>>
    var disks: map<Title, Sidecar.Disk>
    var memory: set<Digest>
    ghost var demanded: map<MediaType, Digest>

    ghost function View(): State
      reads this
    {
      State(closed, ignoreExisting, digestToPath, mediaTypeToPath, present, temps, disks, memory, demanded)
    }

    constructor (ignoreExisting: bool, disks: map<Title, Sidecar.Disk>)
      ensures View() == State(false, ignoreExisting, map[], map[], {}, [], disks, {}, map[])
    {
      this.ignoreExisting := ignoreExisting;
      this.disks := disks;
      closed, digestToPath, mediaTypeToPath, present := false, map[], map[], {};
      temps, memory, demanded := [], {}, map[];
    }

    method ProcessCompressedContent(hash: Hash, x: Descriptor, i: Input) returns (ok: bool)
      requires x.uncompressedDigest.Some?
      modifies this
      ensures (View(), ok) == CompressedSpec(hash, old(View()), x, i)
    {
      if !x.uncompressedSize.Size? || i.openError {
        return false;
      }
      var path := |temps|;
      temps := temps + [i.bytes];
      if !i.copied || hash(i.bytes) != x.digest {
        return false;
      }
      digestToPath := digestToPath[x.digest := Temp(path)];
      var (d, done) := Sidecar.DecompressSpec(
        hash, if x.title in disks then disks[x.title] else Sidecar.Disk(None, None, 0), i.content, i.hashed,
            i.ticks, i.io);
      disks := disks[x.title := d];
      if !done || i.hashed.None? {
        return false;
      }
      if hash(i.hashed.value) != x.uncompressedDigest.value {
        return false;
      }
      mediaTypeToPath := mediaTypeToPath[x.mediaType := x.title];
      demanded := demanded[x.mediaType := x.uncompressedDigest.value];
      return !i.closeError;
    }

    method ProcessRegularContent(hash: Hash, x: Descriptor, i: Input) returns (ok: bool)
      modifies this
      ensures (View(), ok) == RegularSpec(hash, old(View()), x, i)
    {
      if i.openError {
        return false;
      }
      var (d, done) := Sidecar.SaveSpec(
        hash, if x.title in disks then disks[x.title] else Sidecar.Disk(None, None, 0), i.bytes, i.copied, i.ticks,
            x.digest, i.io);
      disks := disks[x.title := d];
      if !i.copied || hash(i.bytes) != x.digest {
        return false;
      }
      digestToPath := digestToPath[x.digest := Output(x.title)];
      if !done {
        return false;
      }
      mediaTypeToPath := mediaTypeToPath[x.mediaType := x.title];
      demanded := demanded[x.mediaType := x.digest];
      return !i.closeError;
    }

    method Push(hash: Hash, x: Descriptor, i: Input) returns (outcome: Outcome)
      modifies this
      ensures (View(), outcome) == PushSpec(hash, old(View()), x, i)
      ensures IsPushed(hash, old(View()), x, i, View(), outcome)
    {
      PushAnswers(hash, View(), x, i);
      if closed {
        return StoreClosed;
      }
      if x.title == "" {
        if !i.copied || hash(i.bytes) != x.digest || x.digest in memory {
          return Failed;
        }
        memory := memory + {x.digest};
        return Stored;
      }
      if x.title in present {
        return Duplicate;
      }
      if !IsMediaTypeSupported(x.mediaType) {
        return Unsupported;
      }
      var ok;
      if Compressed(x) {
        ok := ProcessCompressedContent(hash, x, i);
      } else {
        ok := ProcessRegularContent(hash, x, i);
      }
      if !ok {
        return Failed;
      }
      present := present + {x.title};
      return Stored;
    }

    method Exists(hash: Hash, x: Descriptor, io: Sidecar.Io) returns (answer: Option<bool>)
      modifies this
      ensures (View(), answer) == ExistsSpec(hash, old(View()), x, io)
    {
      if closed {
        return None;
      }
      if x.mediaType in mediaTypeToPath {
        return Some(true);
      }
      if x.title in disks && disks[x.title].image.Some? && !ignoreExisting && x.title != "" {
        var d := x.digest;
        if x.uncompressedDigest.Some? && x.uncompressedDigest.value != "" {
          d := x.uncompressedDigest.value;
        }
        var (disk, ok) := Sidecar.ValidateSpec(hash, disks[x.title], d, io);
        disks := disks[x.title := disk];
        if ok {
          mediaTypeToPath := mediaTypeToPath[x.mediaType := x.title];
          demanded := demanded[x.mediaType := d];
          return Some(true);
        }
      }
      return Some(x.digest in memory);
    }

    method GetFilePathForMediaType(mt: MediaType) returns (path: Option<Title>)
      ensures path.Some? <==> !closed && mt in mediaTypeToPath
      ensures path.Some? ==> path.value == mediaTypeToPath[mt]
    {
      if closed || mt !in mediaTypeToPath {
        return None;
      }
      return Some(mediaTypeToPath[mt]);
    }

    method Close() returns (ok: bool)
      modifies this`closed
      ensures closed && (ok <==> !old(closed))
    {
      if closed {
        return false;
      }
      closed := true;
      return true;
    }
  }

  // ---------------------------------------------------------------- callers

  /** oras.Copy asks Exists first and pushes only what is not there. */
  datatype Step = Pull(x: Descriptor, io: Sidecar.Io, i: Input) | CloseStore

  /** One title per media type, the size of the content told truly, and well-formed digests. */
  predicate WellFormed(x: Descriptor) {
    && (x.title != "" ==> IsMediaTypeSupported(x.mediaType) && x.title == TitleOf(x.mediaType))
    && |ExistsDemand(x)| == Sidecar.DigestLength
  }

  /** The decompression that this Push makes. */
  function Decompression(x: Descriptor, i: Input): Sidecar.Step {
    var size := if x.uncompressedSize.Size? then x.uncompressedSize.n else 0;
    Sidecar.Decompress(i.stream, size, i.content, i.hashed, i.ticks, i.io)
  }

  function After(hash: Hash, s: State, e: Step): State {
    match e
    case CloseStore => s.(closed := true)
    case Pull(x, io, i) =>
      var (t, answer) := ExistsSpec(hash, s, x, io);
      if answer == Some(false) then PushSpec(hash, t, x, i).0 else t
  }

  /** The descriptor is well-formed, and the world answers as it can. */
  predicate Fair(e: Step) {
    e.Pull? ==>
      && WellFormed(e.x)
      && Sidecar.Possible(Decompression(e.x, e.i))
      && Sidecar.Honest(Decompression(e.x, e.i))
  }

  function Next(hash: Hash): (State, Step) -> Option<State> {
    (s: State, e: Step) => if Fair(e) then Some(After(hash, s, e)) else None
  }

  /** Every recorded path holds what the descriptor that recorded it demanded. */
  ghost predicate Intact(hash: Hash, s: State) {
    && s.demanded.Keys == s.mediaTypeToPath.Keys
    && (forall t :: t in s.disks ==> Sidecar.Sound(hash, s.disks[t]))
    && (forall mt :: mt in s.mediaTypeToPath ==> HoldsDemanded(hash, s, mt))
    && TempsVerified(hash, s)
  }

  predicate HoldsDemanded(hash: Hash, s: State, mt: MediaType)
    requires mt in s.mediaTypeToPath
  {
    && mt in s.demanded
    && IsMediaTypeSupported(mt)
    && s.mediaTypeToPath[mt] == TitleOf(mt)
    && var image := DiskOf(s, TitleOf(mt)).image;
       image.Some? && hash(image.value.data) == s.demanded[mt]
  }

  lemma TitlesAreDistinct(a: MediaType, b: MediaType)
    requires IsMediaTypeSupported(a) && IsMediaTypeSupported(b) && TitleOf(a) == TitleOf(b)
    ensures a == b
  {
    assert |"config.json"| == 11 && |"disk.img"| == 8 && "disk.img"[0] == 'd' && "aux.img"[0] == 'a';
  }

  /** Blobs found in temporary files have the digest they are found by. */
  ghost predicate TempsVerified(hash: Hash, s: State) {
    forall g :: g in s.digestToPath && s.digestToPath[g].Temp? ==>
      s.digestToPath[g].n < |s.temps| && hash(s.temps[s.digestToPath[g].n]) == g
  }

  /** A new disk under one title keeps Intact when no other media type is recorded there. */
  lemma DiskChange(hash: Hash, s: State, t: State, x: Descriptor, d: Sidecar.Disk)
    requires Intact(hash, s) && WellFormed(x) && x.title != ""
    requires Sidecar.Sound(hash, d)
    requires x.mediaType !in s.mediaTypeToPath || d.image == DiskOf(s, x.title).image
    requires t.disks == s.disks[x.title := d]
    requires t.mediaTypeToPath == s.mediaTypeToPath && t.demanded == s.demanded && TempsVerified(hash, t)
    ensures Intact(hash, t)
  {
    forall mt | mt in t.mediaTypeToPath
      ensures HoldsDemanded(hash, t, mt)
    {
      assert HoldsDemanded(hash, s, mt);
      if TitleOf(mt) == x.title {
        TitlesAreDistinct(mt, x.mediaType);
      }
    }
  }

  /** Recording a path whose content was verified keeps Intact. */
  lemma RecordKeeps(hash: Hash, s: State, x: Descriptor, demand: Digest)
    requires Intact(hash, s) && WellFormed(x) && x.title != ""
    requires DiskOf(s, x.title).image.Some? && hash(DiskOf(s, x.title).image.value.data) == demand
    ensures Intact(hash, Record(s, x, demand))
  {
    var t := Record(s, x, demand);
    forall mt | mt in t.mediaTypeToPath
      ensures HoldsDemanded(hash, t, mt)
    {
      if mt != x.mediaType {
        assert HoldsDemanded(hash, s, mt);
      }
    }
  }

  lemma ExistsKeeps(hash: Hash, s: State, x: Descriptor, io: Sidecar.Io)
    requires Sidecar.IsHash(hash) && Intact(hash, s) && WellFormed(x)
    ensures Intact(hash, ExistsSpec(hash, s, x, io).0)
    ensures ExistsSpec(hash, s, x, io).1 == Some(false) ==> x.mediaType !in ExistsSpec(hash, s, x, io).0.mediaTypeToPath
  {
    var d := DiskOf(s, x.title);
    var (f, ok) := Sidecar.ValidateSpec(hash, d, ExistsDemand(x), io);
    assert Sidecar.Sound(hash, f) by {
      Sidecar.SoundStep(hash, d, Sidecar.Validate(ExistsDemand(x), io));
    }
    if d.image.Some? && x.title != "" {
      var t := s.(disks := s.disks[x.title := f]);
      DiskChange(hash, s, t, x, f);
      if ok {
        RecordKeeps(hash, t, x, ExistsDemand(x));
      }
    }
  }

  /** The state after the decompression, before the media type is recorded. */
  function Unpacked(s: State, x: Descriptor, bytes: seq<Byte>, f: Sidecar.Disk): State {
    s.(temps := s.temps + [bytes], digestToPath := s.digestToPath[x.digest := Temp(|s.temps|)],
        disks := s.disks[x.title := f])
  }

  lemma UnpackedKeeps(hash: Hash, s: State, x: Descriptor, bytes: seq<Byte>, f: Sidecar.Disk)
    requires Intact(hash, s) && WellFormed(x) && x.title != "" && x.mediaType !in s.mediaTypeToPath
    requires Sidecar.Sound(hash, f) && hash(bytes) == x.digest
    ensures Intact(hash, Unpacked(s, x, bytes, f))
  {
    DiskChange(hash, s, Unpacked(s, x, bytes, f), x, f);
  }

  /** The states that processCompressedContent may leave behind. */
  lemma CompressedForms(hash: Hash, s: State, x: Descriptor, i: Input)
    requires x.uncompressedDigest.Some?
    ensures var t := CompressedSpec(hash, s, x, i).0;
            var (f, ok) := Sidecar.DecompressSpec(hash, DiskOf(s, x.title), i.content, i.hashed, i.ticks, i.io);
            || t == s
            || t == s.(temps := s.temps + [i.bytes])
            || (hash(i.bytes) == x.digest && t == Unpacked(s, x, i.bytes, f))
            || (hash(i.bytes) == x.digest && ok && i.hashed.Some? && hash(i.hashed.value) == x.uncompressedDigest.value
                && t == Record(Unpacked(s, x, i.bytes, f), x, x.uncompressedDigest.value))
  {
  }

  /** What was decompressed and verified is what the image holds. */
  lemma DecompressedImage(hash: Hash, d: Sidecar.Disk, x: Descriptor, i: Input)
    requires Sidecar.Possible(Decompression(x, i)) && Sidecar.Honest(Decompression(x, i))
    requires Sidecar.DecompressSpec(hash, d, i.content, i.hashed, i.ticks, i.io).1 && i.hashed.Some?
    ensures var f := Sidecar.DecompressSpec(hash, d, i.content, i.hashed, i.ticks, i.io).0;
            f.image.Some? && f.image.value.data == i.hashed.value
  {
    FileIsStreamIff(i.content, i.stream.parts, Decompression(x, i).size);
  }

  lemma TempsKeep(hash: Hash, s: State, bytes: seq<Byte>)
    requires Intact(hash, s)
    ensures Intact(hash, s.(temps := s.temps + [bytes]))
  {
    forall mt | mt in s.mediaTypeToPath
      ensures HoldsDemanded(hash, s.(temps := s.temps + [bytes]), mt)
    {
      assert HoldsDemanded(hash, s, mt);
    }
  }

  lemma VerifiedKeeps(hash: Hash, s: State, x: Descriptor, i: Input, f: Sidecar.Disk)
    requires Intact(hash, s) && WellFormed(x) && x.title != ""
    requires x.mediaType !in s.mediaTypeToPath && x.uncompressedDigest.Some?
    requires Sidecar.Possible(Decompression(x, i)) && Sidecar.Honest(Decompression(x, i)) && Sidecar.Sound(hash, f)
    requires (f, true) == Sidecar.DecompressSpec(hash, DiskOf(s, x.title), i.content, i.hashed, i.ticks, i.io)
    requires hash(i.bytes) == x.digest && i.hashed.Some? && hash(i.hashed.value) == x.uncompressedDigest.value
    ensures Intact(hash, Record(Unpacked(s, x, i.bytes, f), x, x.uncompressedDigest.value))
  {
    UnpackedKeeps(hash, s, x, i.bytes, f);
    DecompressedImage(hash, DiskOf(s, x.title), x, i);
    RecordKeeps(hash, Unpacked(s, x, i.bytes, f), x, x.uncompressedDigest.value);
  }

  lemma CompressedKeeps(hash: Hash, s: State, x: Descriptor, i: Input)
    requires Sidecar.IsHash(hash) && Intact(hash, s) && WellFormed(x) && x.title != ""
    requires x.mediaType !in s.mediaTypeToPath && x.uncompressedDigest.Some?
    requires Sidecar.Possible(Decompression(x, i)) && Sidecar.Honest(Decompression(x, i))
    ensures Intact(hash, CompressedSpec(hash, s, x, i).0)
  {
    var d := DiskOf(s, x.title);
    var (f, ok) := Sidecar.DecompressSpec(hash, d, i.content, i.hashed, i.ticks, i.io);
    assert Sidecar.Sound(hash, f) by {
      Sidecar.SoundStep(hash, d, Decompression(x, i));
    }
    CompressedForms(hash, s, x, i);
    TempsKeep(hash, s, i.bytes);
    if hash(i.bytes) == x.digest {
      UnpackedKeeps(hash, s, x, i.bytes, f);
      if ok && i.hashed.Some? && hash(i.hashed.value) == x.uncompressedDigest.value {
        VerifiedKeeps(hash, s, x, i, f);
      }
    }
  }

  lemma RegularKeeps(hash: Hash, s: State, x: Descriptor, i: Input)
    requires Sidecar.IsHash(hash) && Intact(hash, s) && WellFormed(x) && x.title != ""
    requires x.mediaType !in s.mediaTypeToPath
    ensures Intact(hash, RegularSpec(hash, s, x, i).0)
  {
    var d := DiskOf(s, x.title);
    var (f, ok) := Sidecar.SaveSpec(hash, d, i.bytes, i.copied, i.ticks, x.digest, i.io);
    assert Sidecar.Sound(hash, f) by {
      Sidecar.SoundStep(hash, d, Sidecar.Save(i.bytes, i.copied, i.ticks, x.digest, i.io));
    }
    var t := s.(disks := s.disks[x.title := f]);
    var u := t.(digestToPath := s.digestToPath[x.digest := Output(x.title)]);
    DiskChange(hash, s, t, x, f);
    DiskChange(hash, s, u, x, f);
    if ok {
      RecordKeeps(hash, u, x, x.digest);
    }
  }

  /** Names and the fallback store have no part in Intact. */
  lemma NamesKeep(hash: Hash, s: State, present: set<Title>, memory: set<Digest>)
    requires Intact(hash, s)
    ensures Intact(hash, s.(present := present, memory := memory))
  {
    var t := s.(present := present, memory := memory);
    forall mt | mt in t.mediaTypeToPath
      ensures HoldsDemanded(hash, t, mt)
    {
      assert HoldsDemanded(hash, s, mt);
    }
  }

  lemma ProcessKeeps(hash: Hash, s: State, x: Descriptor, i: Input)
    requires Sidecar.IsHash(hash) && Intact(hash, s) && WellFormed(x) && x.title != ""
    requires x.mediaType !in s.mediaTypeToPath
    requires Sidecar.Possible(Decompression(x, i)) && Sidecar.Honest(Decompression(x, i))
    ensures Intact(hash, ProcessSpec(hash, s, x, i).0)
  {
    if Compressed(x) {
      CompressedKeeps(hash, s, x, i);
    } else {
      RegularKeeps(hash, s, x, i);
    }
  }

  lemma PushKeeps(hash: Hash, s: State, x: Descriptor, i: Input)
    requires Sidecar.IsHash(hash) && Intact(hash, s) && WellFormed(x) && x.mediaType !in s.mediaTypeToPath
    requires Sidecar.Possible(Decompression(x, i)) && Sidecar.Honest(Decompression(x, i))
    ensures Intact(hash, PushSpec(hash, s, x, i).0)
  {
    if x.title == "" {
      NamesKeep(hash, s, s.present, s.memory + {x.digest});
    } else {
      ProcessKeeps(hash, s, x, i);
      var t := ProcessSpec(hash, s, x, i).0;
      NamesKeep(hash, t, t.present + {x.title}, t.memory);
    }
  }

  lemma IntactAlways(hash: Hash, s: State, steps: seq<Step>, t: State)
    requires Sidecar.IsHash(hash) && Intact(hash, s) && Run(Next(hash), s, steps) == Some(t)
    ensures Intact(hash, t)
  {
    forall u, e | Intact(hash, u) && Next(hash)(u, e).Some?
      ensures Intact(hash, Next(hash)(u, e).value)
    {
      if e.Pull? {
        ExistsKeeps(hash, u, e.x, e.io);
        var v := ExistsSpec(hash, u, e.x, e.io).0;
        if e.x.mediaType !in v.mediaTypeToPath {
          PushKeeps(hash, v, e.x, e.i);
        }
      }
    }
    Keeps(Next(hash), u => Intact(hash, u), s, steps);
  }

  // ---------------------------------------------------------------- what the store promises

  /** A store that was just opened on a working directory. */
  ghost predicate Opened(hash: Hash, s: State) {
    && !s.closed && s.digestToPath == map[] && s.mediaTypeToPath == map[] && s.demanded == map[]
    && s.present == {} && s.temps == [] && s.memory == {}
    && forall t :: t in s.disks ==> Sidecar.Sound(hash, s.disks[t])
  }

  /**
   * However pulls of well-formed descriptors go, succeed, fail or stop, a path the store gives out for
   * a media type holds content with the digest demanded by the descriptor that recorded it, and a
   * blob it serves from a temporary file has the digest it is served for.
   */
  lemma StoreIntegrity(hash: Hash, start: State, steps: seq<Step>, s: State)
    requires Sidecar.IsHash(hash) && Opened(hash, start) && Run(Next(hash), start, steps) == Some(s)
    ensures forall mt :: mt in s.mediaTypeToPath ==> HoldsDemanded(hash, s, mt)
    ensures TempsVerified(hash, s)
  {
    IntactAlways(hash, start, steps, s);
  }

  /** What the store knows it keeps, and a path once recorded stays with the demand it was recorded for. */
  predicate Remembers(s: State, t: State) {
    && s.present <= t.present
    && (s.closed ==> t == s)
    && (forall mt :: mt in s.mediaTypeToPath && mt in s.demanded ==>
          && mt in t.mediaTypeToPath && t.mediaTypeToPath[mt] == s.mediaTypeToPath[mt]
          && mt in t.demanded && t.demanded[mt] == s.demanded[mt])
  }

  lemma ProcessRemembers(hash: Hash, s: State, x: Descriptor, i: Input)
    requires x.mediaType !in s.mediaTypeToPath && !s.closed
    ensures Remembers(s, ProcessSpec(hash, s, x, i).0)
  {
  }

  lemma RemembersStep(hash: Hash, s: State, e: Step)
    ensures Remembers(s, After(hash, s, e))
  {
    if e.Pull? {
      var (t, answer) := ExistsSpec(hash, s, e.x, e.io);
      assert Remembers(s, t);
      if answer == Some(false) {
        assert e.x.mediaType !in t.mediaTypeToPath;
        ProcessRemembers(hash, t, e.x, e.i);
      }
    }
  }

  lemma RemembersAlways(hash: Hash, s: State, steps: seq<Step>, t: State)
    requires Run(Next(hash), s, steps) == Some(t)
    ensures Remembers(s, t)
  {
    forall u, e | Next(hash)(u, e).Some?
      ensures Remembers(u, Next(hash)(u, e).value)
    {
      RemembersStep(hash, u, e);
    }
    Ordered(Next(hash), u => true, Remembers, s, steps);
  }

  /** Each title is pushed with success at most once, and nothing is pushed into a closed store. */
  lemma EachTitleStoredOnce(hash: Hash, s: State, x: Descriptor, i: Input, steps: seq<Step>, t: State,
      y: Descriptor, j: Input)
    requires x.title != "" && PushSpec(hash, s, x, i).1 == Stored
    requires Run(Next(hash), PushSpec(hash, s, x, i).0, steps) == Some(t)
    requires y.title == x.title
    ensures PushSpec(hash, t, y, j) == (t, if t.closed then StoreClosed else Duplicate)
  {
    RemembersAlways(hash, PushSpec(hash, s, x, i).0, steps, t);
  }

  // ---------------------------------------------------------------- what a yes is worth

  /** The content that the caller demands is there: in its file, or in the fallback store. */
  predicate Present(hash: Hash, s: State, x: Descriptor) {
    || x.digest in s.memory
    || (var image := DiskOf(s, TitleOf(x.mediaType)).image;
        image.Some? && hash(image.value.data) == ExistsDemand(x))
  }

  /** The digest that a pull verifies before it records its media type. */
  function DemandOf(hash: Hash, s: State, e: Step): Digest
    requires e.Pull?
  {
    if ExistsSpec(hash, s, e.x, e.io).1 == Some(true) then ExistsDemand(e.x) else PushDemand(e.x)
  }

  /** The digest demanded by the first descriptor that was recorded for the media type, if any was. */
  ghost function FirstDemand(hash: Hash, s: State, steps: seq<Step>, mt: MediaType): Option<Digest>
    decreases |steps|
  {
    if steps == [] then None
    else
      var t := After(hash, s, steps[0]);
      if mt !in s.mediaTypeToPath && mt in t.mediaTypeToPath && steps[0].Pull? then Some(DemandOf(hash, s, steps[0]))
      else FirstDemand(hash, t, steps[1..], mt)
  }

  lemma ExistsRecords(hash: Hash, s: State, x: Descriptor, io: Sidecar.Io, mt: MediaType)
    requires mt !in s.mediaTypeToPath && mt in ExistsSpec(hash, s, x, io).0.mediaTypeToPath
    ensures mt == x.mediaType && ExistsSpec(hash, s, x, io).1 == Some(true)
    ensures mt in ExistsSpec(hash, s, x, io).0.demanded && ExistsSpec(hash, s, x, io).0.demanded[mt] == ExistsDemand(x)
  {
  }

  lemma CompressedRecords(hash: Hash, s: State, x: Descriptor, i: Input, mt: MediaType)
    requires Compressed(x) && mt !in s.mediaTypeToPath && mt in CompressedSpec(hash, s, x, i).0.mediaTypeToPath
    ensures mt == x.mediaType
    ensures mt in CompressedSpec(hash, s, x, i).0.demanded
              && CompressedSpec(hash, s, x, i).0.demanded[mt] == PushDemand(x)
  {
    CompressedForms(hash, s, x, i);
  }

  lemma RegularRecords(hash: Hash, s: State, x: Descriptor, i: Input, mt: MediaType)
    requires !Compressed(x) && mt !in s.mediaTypeToPath && mt in RegularSpec(hash, s, x, i).0.mediaTypeToPath
    ensures mt == x.mediaType
    ensures mt in RegularSpec(hash, s, x, i).0.demanded && RegularSpec(hash, s, x, i).0.demanded[mt] == PushDemand(x)
  {
  }

  /** A step that records a media type records the demand of its own descriptor. */
  lemma RecordedDemand(hash: Hash, s: State, e: Step, mt: MediaType)
    requires mt !in s.mediaTypeToPath && mt in After(hash, s, e).mediaTypeToPath
    ensures e.Pull? && e.x.mediaType == mt
    ensures mt in After(hash, s, e).demanded && After(hash, s, e).demanded[mt] == DemandOf(hash, s, e)
  {
    var (t, answer) := ExistsSpec(hash, s, e.x, e.io);
    if mt in t.mediaTypeToPath {
      ExistsRecords(hash, s, e.x, e.io, mt);
    } else {
      if Compressed(e.x) {
        CompressedRecords(hash, t, e.x, e.i, mt);
      } else {
        RegularRecords(hash, t, e.x, e.i, mt);
      }
    }
  }

  lemma {:induction false} FirstDemandIsKept(hash: Hash, s: State, steps: seq<Step>, t: State, mt: MediaType)
    requires Run(Next(hash), s, steps) == Some(t) && mt !in s.mediaTypeToPath
    ensures if mt in t.mediaTypeToPath then mt in t.demanded && FirstDemand(hash, s, steps, mt) == Some(t.demanded[mt])
            else FirstDemand(hash, s, steps, mt) == None
    decreases |steps|
  {
    if steps != [] {
      var u := After(hash, s, steps[0]);
      assert Next(hash)(s, steps[0]) == Some(u);
      if mt in u.mediaTypeToPath {
        RecordedDemand(hash, s, steps[0], mt);
        RemembersAlways(hash, u, steps[1..], t);
      } else {
        FirstDemandIsKept(hash, u, steps[1..], t, mt);
      }
    }
  }

  /** A yes for a media type that is not recorded is about the caller's content. */
  lemma NewYesIsTrue(hash: Hash, s: State, x: Descriptor, io: Sidecar.Io)
    requires Sidecar.IsHash(hash) && Intact(hash, s) && WellFormed(x) && x.mediaType !in s.mediaTypeToPath
    requires ExistsSpec(hash, s, x, io).1 == Some(true)
    ensures Present(hash, ExistsSpec(hash, s, x, io).0, x)
  {
    var d := DiskOf(s, x.title);
    if x.digest !in s.memory {
      Sidecar.SoundStep(hash, d, Sidecar.Validate(ExistsDemand(x), io));
      Sidecar.TrustedYes(hash, d, ExistsDemand(x), io);
    }
  }

  /**
   * After any run of pulls, a yes of Exists is about the content that the caller demands exactly when
   * the fallback store holds it, or no descriptor was recorded for the media type yet, or the first
   * that was recorded demanded the same digest. Exists itself looks at the media type only.
   */
  lemma YesIsTrueIff(hash: Hash, start: State, steps: seq<Step>, s: State, x: Descriptor, io: Sidecar.Io)
    requires Sidecar.IsHash(hash) && Opened(hash, start) && Run(Next(hash), start, steps) == Some(s)
    requires WellFormed(x) && ExistsSpec(hash, s, x, io).1 == Some(true)
    ensures Present(hash, ExistsSpec(hash, s, x, io).0, x) <==>
            x.digest in s.memory || FirstDemand(hash, start, steps, x.mediaType) in {None, Some(ExistsDemand(x))}
  {
    IntactAlways(hash, start, steps, s);
    FirstDemandIsKept(hash, start, steps, s, x.mediaType);
    if x.mediaType in s.mediaTypeToPath {
      assert HoldsDemanded(hash, s, x.mediaType);
    } else {
      NewYesIsTrue(hash, s, x, io);
    }
  }

  const NoIo := Sidecar.Faultless

  /** A store with nothing in it, on an empty working directory. */
  const Empty: State := State(false, false, map[], map[], {}, [], map[], {}, map[])

  /** The configuration of an image, uncompressed. */
  function ConfigOf(digest: Digest): Descriptor {
    Descriptor(MediaTypeConfigV1, digest, "config.json", Absent, None)
  }

  /** A push that brings these bytes and meets no error. */
  function Brings(bytes: seq<Byte>): Input {
    Input(bytes, true, false, Stream([], Eof([])), [], None, 0, NoIo, false)
  }

  /**
   * A configuration is pulled, then another one is asked for: Exists says yes and nothing is pulled,
   * although only the first is there.
   */
  lemma WrongYes(hash: Hash, a: seq<Byte>, b: seq<Byte>) returns (s: State)
    requires Sidecar.IsHash(hash) && hash(a) != hash(b)
    ensures var first, second := Pull(ConfigOf(hash(a)), NoIo, Brings(a)), Pull(ConfigOf(hash(b)), NoIo, Brings(b));
            Opened(hash, Empty) && Run(Next(hash), Empty, [first, second]) == Some(s)
    ensures ExistsSpec(hash, s, ConfigOf(hash(b)), NoIo).1 == Some(true) && !Present(hash, s, ConfigOf(hash(b)))
  {
    var first, second := Pull(ConfigOf(hash(a)), NoIo, Brings(a)), Pull(ConfigOf(hash(b)), NoIo, Brings(b));
    s := After(hash, Empty, first);
    FirstIsStored(hash, a);
    ConfigIsFair(hash, a);
    ConfigIsFair(hash, b);
    NothingIsPulled(hash, s, second);
    assert Next(hash)(Empty, first) == Some(s) && Next(hash)(s, second) == Some(s);
    assert [first, second][1..] == [second] && [second][1..] == [];
    assert Run(Next(hash), s, [second]) == Some(s);
  }

  lemma ConfigIsFair(hash: Hash, a: seq<Byte>)
    requires Sidecar.IsHash(hash)
    ensures WellFormed(ConfigOf(hash(a))) && Fair(Pull(ConfigOf(hash(a)), NoIo, Brings(a)))
  {
  }

  lemma NothingIsPulled(hash: Hash, s: State, e: Step)
    requires e.Pull? && !s.closed && e.x.mediaType in s.mediaTypeToPath
    ensures After(hash, s, e) == s && ExistsSpec(hash, s, e.x, e.io).1 == Some(true)
  {
  }

  lemma FirstIsStored(hash: Hash, a: seq<Byte>)
    requires Sidecar.IsHash(hash)
    ensures var s := After(hash, Empty, Pull(ConfigOf(hash(a)), NoIo, Brings(a)));
            && !s.closed && s.memory == {} && MediaTypeConfigV1 in s.mediaTypeToPath
            && DiskOf(s, "config.json").image.Some? && DiskOf(s, "config.json").image.value.data == a
  {
    assert hash(a)[..Sidecar.DigestLength] == hash(a);
  }

  /** Push and Exists demand the same digest of a descriptor unless only one of them heeds its annotation. */
  lemma DemandsAgreeIff(x: Descriptor)
    ensures PushDemand(x) == ExistsDemand(x) <==>
            (x.uncompressedDigest.Some? && x.uncompressedDigest.value != x.digest ==>
               (x.uncompressedDigest.value == "" <==> x.uncompressedSize == Absent))
  {
  }
}
