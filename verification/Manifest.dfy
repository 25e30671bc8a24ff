/** The artifact a bigoci manifest records, at the level of the wire record that encoding/json
    reads and writes (internal/manifest/manifest.go and decode.go). A string stands for a Go
    string: one char is one byte. */
module Manifest {
  import opened Base
  import opened SplitPlan
  import Decimal

  const ARTIFACT_TYPE := "application/vnd.bigoci.file.v1"
  const MEDIA_TYPE_PART := "application/vnd.bigoci.file.part.v1"
  const MEDIA_TYPE_MANIFEST := "application/vnd.oci.image.manifest.v1+json"
  const MEDIA_TYPE_EMPTY := "application/vnd.oci.empty.v1+json"
  const EMPTY_DIGEST := "sha256:44136fa355b3678a1146ad16f7e8649e94fb4fc21fe77e8310c060f61caaff8a"
  const EMPTY_DATA := "{}"
  const FILE_DIGEST_KEY := "io.bigoci.file.digest"
  const FILE_SIZE_KEY := "io.bigoci.file.size"
  const PART_SIZE_KEY := "io.bigoci.part.size"
  const TITLE_KEY := "org.opencontainers.image.title"
  const SCHEMA_VERSION := 2

  datatype BlobPart = BlobPart(digest: Digest, size: int64)

  datatype Artifact = Artifact(
    fileDigest: Digest,
    fileSize: int64,
    partSize: int64,
    title: string,
    parts: seq<BlobPart>
  )

  datatype WireConfig = WireConfig(mediaType: string, digest: Digest, size: int64, data: string)

  datatype WireLayer = WireLayer(mediaType: string, digest: Digest, size: int64)

  /** A member missing from the JSON reads as its zero value, so a missing annotation is "". */
  datatype WireManifest = WireManifest(
    schemaVersion: int,
    mediaType: string,
    artifactType: string,
    config: WireConfig,
    layers: seq<WireLayer>,
    annotations: map<string, string>
  )

  datatype ManifestError =
    | NotBigociArtifact
    | WrongSchemaVersion
    | ConfigMismatch
    | MissingAnnotation(key: string)
    | NotAByteCount(key: string)
    | LayerMediaType(index: nat)
    | InvalidTitle
    | InvalidDigest
    | NoParts
    | SplitRefused(cause: PlanError)
    | PartCountMismatch
    | PartSizeMismatch(index: nat)

  predicate EqualFold(a: string, b: string) {
    Lower(a) == Lower(b)
  }

  predicate IsHex(c: char) {
    '0' <= c <= '9' || 'a' <= c <= 'f'
  }

  /** What digest.Validate and the algorithm check accept together: "sha256:" and 64 lower-case
      hexadecimal digits. */
  predicate IsSha256(d: Digest) {
    |d| == 71 && d[..7] == "sha256:" && forall i :: 7 <= i < 71 ==> IsHex(d[i])
  }

  /** The format contract: what makes an artifact one that can be written and read. */
  ghost predicate WellFormed(utf8: string -> bool, a: Artifact) {
    && (a.title == "" || utf8(a.title))
    && IsSha256(a.fileDigest)
    && New(a.fileSize, a.partSize).Ok?
    && var split := New(a.fileSize, a.partSize).value;
    && |a.parts| == split.N()
    && forall i :: 0 <= i < |a.parts| ==>
         IsSha256(a.parts[i].digest) && a.parts[i].size == split.PartAt(i as int64).size
  }

  /** The part loop shared by validateParts and validateDecodedParts, from part i on. */
  function CheckParts(parts: seq<BlobPart>, split: Plan, i: nat): (r: Option<ManifestError>)
    requires split.Valid() && |parts| == split.numParts as int && i <= |parts|
    ensures r.None? <==>
            forall j :: i <= j < |parts| ==>
              IsSha256(parts[j].digest) && parts[j].size == split.PartAt(j as int64).size
    ensures
      match r
      case Some(PartSizeMismatch(k)) =>
        i <= k < |parts| && IsSha256(parts[k].digest) && parts[k].size != split.PartAt(k as int64).size
        && forall j :: i <= j < k ==> IsSha256(parts[j].digest) && parts[j].size == split.PartAt(j as int64).size
      case Some(e) => e == InvalidDigest && exists j :: i <= j < |parts| && !IsSha256(parts[j].digest)
      case None => true
    decreases |parts| - i
  {
    if i == |parts| then None
    else if !IsSha256(parts[i].digest) then Some(InvalidDigest)
    else if parts[i].size != split.PartAt(i as int64).size then Some(PartSizeMismatch(i))
    else CheckParts(parts, split, i + 1)
  }

  function ValidateParts(a: Artifact): Option<ManifestError> {
    if a.parts == [] then Some(NoParts)
    else
      match New(a.fileSize, a.partSize)
      case Err(cause) => Some(SplitRefused(cause))
      case Ok(split) =>
        if split.numParts as int != |a.parts| then Some(PartCountMismatch)
        else CheckParts(a.parts, split, 0)
  }

  /** Both validate and validateDecoded: they check the same things in the same order and differ
      only in what their messages may quote. */
  function Validate(utf8: string -> bool, a: Artifact): (r: Option<ManifestError>)
    ensures r.None? <==> WellFormed(utf8, a)
  {
    if a.title != "" && !utf8(a.title) then Some(InvalidTitle)
    else if !IsSha256(a.fileDigest) then Some(InvalidDigest)
    else ValidateParts(a)
  }

  function EmptyConfig(): WireConfig {
    WireConfig(MEDIA_TYPE_EMPTY, EMPTY_DIGEST, 2, "")
  }

  function AnnotationsOf(a: Artifact): map<string, string> {
    var required := map[
                      FILE_DIGEST_KEY := a.fileDigest,
                      FILE_SIZE_KEY := Decimal.FormatInt(a.fileSize),
                      PART_SIZE_KEY := Decimal.FormatInt(a.partSize)
                    ];
    if a.title != "" then required[TITLE_KEY := a.title] else required
  }

  function LayersOf(parts: seq<BlobPart>): (layers: seq<WireLayer>)
    ensures |layers| == |parts|
    ensures forall i :: 0 <= i < |parts| ==> layers[i] == WireLayer(MEDIA_TYPE_PART, parts[i].digest, parts[i].size)
  {
    seq(|parts|, i requires 0 <= i < |parts| => WireLayer(MEDIA_TYPE_PART, parts[i].digest, parts[i].size))
  }

  function Encoded(utf8: string -> bool, a: Artifact): Result<WireManifest, ManifestError> {
    match Validate(utf8, a)
    case Some(err) => Err(err)
    case None =>
      Ok(WireManifest(
           SCHEMA_VERSION, MEDIA_TYPE_MANIFEST, ARTIFACT_TYPE, EmptyConfig(), LayersOf(a.parts), AnnotationsOf(a)))
  }

  predicate KindMatches(w: WireManifest) {
    (w.mediaType == "" || EqualFold(w.mediaType, MEDIA_TYPE_MANIFEST)) && EqualFold(w.artifactType, ARTIFACT_TYPE)
  }

  predicate ConfigMatches(config: WireConfig) {
    && EqualFold(config.mediaType, MEDIA_TYPE_EMPTY)
    && config.digest == EMPTY_DIGEST
    && config.size == 2
    && (config.data == "" || config.data == EMPTY_DATA)
  }

  function Annotation(w: WireManifest, key: string): string {
    if key in w.annotations then w.annotations[key] else ""
  }

  function SizeAnnotation(w: WireManifest, key: string): Result<int64, ManifestError> {
    var text := Annotation(w, key);
    if text == "" then Err(MissingAnnotation(key))
    else
      match Decimal.ParseInt(text)
      case None => Err(NotAByteCount(key))
      case Some(size) => Ok(size)
  }

  function ReadAnnotations(w: WireManifest): Result<Artifact, ManifestError> {
    var fileDigest := Annotation(w, FILE_DIGEST_KEY);
    if fileDigest == "" then Err(MissingAnnotation(FILE_DIGEST_KEY))
    else
      match SizeAnnotation(w, FILE_SIZE_KEY)
      case Err(err) => Err(err)
      case Ok(fileSize) =>
        match SizeAnnotation(w, PART_SIZE_KEY)
        case Err(err) => Err(err)
        case Ok(partSize) => Ok(Artifact(fileDigest, fileSize, partSize, Annotation(w, TITLE_KEY), []))
  }

  predicate IsPartLayer(layer: WireLayer) {
    EqualFold(layer.mediaType, MEDIA_TYPE_PART)
  }

  /** The first layer at or after i that is not a part, or the end. */
  function FirstForeign(layers: seq<WireLayer>, i: nat): (k: nat)
    requires i <= |layers|
    ensures i <= k <= |layers|
    ensures forall j :: i <= j < k ==> IsPartLayer(layers[j])
    ensures k < |layers| ==> !IsPartLayer(layers[k])
    decreases |layers| - i
  {
    if i == |layers| || !IsPartLayer(layers[i]) then i else FirstForeign(layers, i + 1)
  }

  function PartsOf(layers: seq<WireLayer>): (parts: seq<BlobPart>)
    ensures |parts| == |layers|
    ensures forall i :: 0 <= i < |parts| ==> parts[i] == BlobPart(layers[i].digest, layers[i].size)
  {
    seq(|layers|, i requires 0 <= i < |layers| => BlobPart(layers[i].digest, layers[i].size))
  }

  /** The parts the layers describe in file order, or the first layer of another media type. */
  function LayerParts(layers: seq<WireLayer>): Result<seq<BlobPart>, ManifestError> {
    var k := FirstForeign(layers, 0);
    if k < |layers| then Err(LayerMediaType(k)) else Ok(PartsOf(layers))
  }

  function Decode(utf8: string -> bool, w: WireManifest): (r: Result<Artifact, ManifestError>)
    ensures r.Ok? ==> WellFormed(utf8, r.value)
  {
    if !KindMatches(w) then Err(NotBigociArtifact)
    else if w.schemaVersion != SCHEMA_VERSION then Err(WrongSchemaVersion)
    else if !ConfigMatches(w.config) then Err(ConfigMismatch)
    else
      match ReadAnnotations(w)
      case Err(err) => Err(err)
      case Ok(described) =>
        match LayerParts(w.layers)
        case Err(err) => Err(err)
        case Ok(parts) =>
          var artifact := described.(parts := parts);
          match Validate(utf8, artifact)
          case Some(err) => Err(err)
          case None => Ok(artifact)
  }

  lemma LayersReadBack(parts: seq<BlobPart>)
    ensures LayerParts(LayersOf(parts)) == Ok(parts)
  {
    var layers := LayersOf(parts);
    var k := FirstForeign(layers, 0);
    assert k < |layers| ==> layers[k].mediaType == MEDIA_TYPE_PART;
    assert PartsOf(layers) == parts;
  }

  lemma AnnotationsReadBack(a: Artifact, w: WireManifest)
    requires w.annotations == AnnotationsOf(a) && a.fileDigest != ""
    ensures ReadAnnotations(w) == Ok(a.(parts := []))
  {
    KeysDiffer();
    Decimal.RoundTrip(a.fileSize);
    Decimal.RoundTrip(a.partSize);
  }

  /** bigoci never writes a manifest it would refuse to read, and reads back what it wrote. */
  lemma DecodeInvertsEncode(utf8: string -> bool, a: Artifact)
    ensures Encoded(utf8, a).Ok? <==> WellFormed(utf8, a)
    ensures WellFormed(utf8, a) ==> Decode(utf8, Encoded(utf8, a).value) == Ok(a)
  {
    if WellFormed(utf8, a) {
      var w := Encoded(utf8, a).value;
      AnnotationsReadBack(a, w);
      LayersReadBack(a.parts);
    }
  }

  lemma KeysDiffer()
    ensures FILE_DIGEST_KEY != FILE_SIZE_KEY && FILE_DIGEST_KEY != PART_SIZE_KEY && FILE_DIGEST_KEY != TITLE_KEY
    ensures FILE_SIZE_KEY != PART_SIZE_KEY && FILE_SIZE_KEY != TITLE_KEY && PART_SIZE_KEY != TITLE_KEY
  {
    assert FILE_DIGEST_KEY[10] == 'f' && FILE_DIGEST_KEY[15] == 'd';
    assert FILE_SIZE_KEY[10] == 'f' && FILE_SIZE_KEY[15] == 's';
    assert PART_SIZE_KEY[10] == 'p';
    assert TITLE_KEY[0] == 'o';
  }

  /** Whatever manifest an artifact was read from, writing that artifact gives a manifest that reads
      as the same artifact: the two checks accept the same artifacts. */
  lemma WhatIsReadCanBeWritten(utf8: string -> bool, w: WireManifest)
    requires Decode(utf8, w).Ok?
    ensures Encoded(utf8, Decode(utf8, w).value).Ok?
    ensures Decode(utf8, Encoded(utf8, Decode(utf8, w).value).value) == Decode(utf8, w)
  {
    DecodeInvertsEncode(utf8, Decode(utf8, w).value);
  }

  /** The canonical encoding is a function of the artifact, and different artifacts never share one. */
  lemma EncodingIsInjective(utf8: string -> bool, a: Artifact, b: Artifact)
    requires WellFormed(utf8, a) && WellFormed(utf8, b)
    requires Encoded(utf8, a) == Encoded(utf8, b)
    ensures a == b
  {
    DecodeInvertsEncode(utf8, a);
    DecodeInvertsEncode(utf8, b);
  }

  /** Encode fills the layer slice and the annotation map in place. */
  method Encode(utf8: string -> bool, a: Artifact) returns (r: Result<WireManifest, ManifestError>)
    ensures r == Encoded(utf8, a)
  {
    var invalid := Validate(utf8, a);
    if invalid.Some? {
      return Err(invalid.value);
    }
    var layers := new WireLayer[|a.parts|](_ => WireLayer("", "", 0));
    for i := 0 to |a.parts|
      invariant forall j :: 0 <= j < i ==> layers[j] == LayersOf(a.parts)[j]
    {
      layers[i] := WireLayer(MEDIA_TYPE_PART, a.parts[i].digest, a.parts[i].size);
    }
    assert layers[..] == LayersOf(a.parts);
    var annotations := map[FILE_DIGEST_KEY := a.fileDigest];
    annotations := annotations[FILE_SIZE_KEY := Decimal.FormatInt(a.fileSize)];
    annotations := annotations[PART_SIZE_KEY := Decimal.FormatInt(a.partSize)];
    if a.title != "" {
      annotations := annotations[TITLE_KEY := a.title];
    }
    r := Ok(WireManifest(SCHEMA_VERSION, MEDIA_TYPE_MANIFEST, ARTIFACT_TYPE, EmptyConfig(), layers[..], annotations));
  }

  /** readLayers fills the part slice in file order and stops at the first foreign layer. */
  method ReadLayers(layers: seq<WireLayer>) returns (r: Result<seq<BlobPart>, ManifestError>)
    ensures r == LayerParts(layers)
  {
    var parts := new BlobPart[|layers|](_ => BlobPart("", 0));
    for i := 0 to |layers|
      invariant FirstForeign(layers, 0) == FirstForeign(layers, i)
      invariant forall j :: 0 <= j < i ==> parts[j] == BlobPart(layers[j].digest, layers[j].size)
    {
      if !IsPartLayer(layers[i]) {
        return Err(LayerMediaType(i));
      }
      parts[i] := BlobPart(layers[i].digest, layers[i].size);
    }
    r := Ok(parts[..]);
    assert parts[..] == PartsOf(layers);
  }
}
